/** The conversion from the spans to the elements written: tree, times, layout, lines and gathering. */
module TraceConversion {
  import opened Sequences
  import opened SpanContainer
  import opened SpanTree
  import opened SpanPasses
  import opened TraceLayout
  import opened TraceDriver
  import opened TraceDrawing
  import opened TraceGraph

  /** The gateway's spans lose 1000 ns as well. */
  function Shorter(smg: seq<Span>): seq<Span> {
    Map(smg, (x: Span) => Span(x.start, x.end - 1000))
  }

  /** root_span["spans"] of every request, in the order of the requests. */
  method CollectRequests(spans: seq<Record>, child: seq<seq<nat>>, roots: seq<nat>) returns (requests: seq<seq<nat>>)
    requires IsTree(spans, child) && roots == Roots(spans, |spans|)
    ensures requests == Requests(spans)
  {
    hide Child, Roots, Level, IsTree;
    requests := [];
    var a := 0;
    while a < |roots|
      invariant 0 <= a <= |roots|
      invariant requests == SpansOf(spans, roots[..a])
    {
      var root := roots[a];
      KidsKnown(spans, child, root);
      NoLevel(spans);
      assert [] + child[root] == child[root];
      var own := CollectRoot(spans, child, child[root], [], []);
      assert roots[..a + 1] == roots[..a] + [root];
      requests := requests + [own];
      a := a + 1;
    }
    assert roots[..a] == roots;
  }

  /** Lay out the spans of one request; each line is given to the span and everything below it. */
  method DrawRequest(t: Trace, child: seq<seq<nat>>, own: seq<nat>, tids: array<nat>, g: Graph, ghost order: seq<nat>)
    requires IsTree(t.spans, child) && tids.Length == |t.spans| && g.Valid()
    requires Tidy(t.spans, tids[..], order, g.placed) && |g.placed| == |order|
    requires Distinct(order + own) && AllAtDepth(t.spans, order + own, 2)
    modifies tids, g, g.boxes
    ensures g.Valid() && fresh(g.boxes - old(g.boxes)) && old(g.boxes) <= g.boxes
    ensures g.Abs() == PlaceAll(Session(old(g.Abs()), map[]), ArrivalsOf(t, own)).board
    ensures Tidy(t.spans, tids[..], order + own, g.placed) && |g.placed| == |order + own|
  {
    hide Wf, Place, Good, IsTree, Tidy, AllAtDepth, Distinct, Below, AtDepth;
    ghost var s0, all := Session(g.Abs(), map[]), ArrivalsOf(t, own);
    FreshGood(g.Abs());
    var st: Status := map[];
    var i := 0;
    assert all[0..] == all && order + own[..0] == order;
    while i < |own|
      invariant 0 <= i <= |own|
      invariant g.Valid() && fresh(g.boxes - old(g.boxes)) && old(g.boxes) <= g.boxes
      invariant Good(Session(g.Abs(), st))
      invariant PlaceAll(Session(g.Abs(), st), all[i..]) == PlaceAll(s0, all)
      invariant Tidy(t.spans, tids[..], order + own[..i], g.placed) && |g.placed| == |order| + i
    {
      ghost var s, before, placed := Session(g.Abs(), st), tids[..], g.placed;
      assert all[i..][0] == ArrivalOf(t, own[i]) && all[i..][1..] == all[i + 1..];
      PlaceGood(s, ArrivalOf(t, own[i]));
      st := g.PlaceOne(st, ArrivalOf(t, own[i]));
      NextSpan(t.spans, order, own, i);
      var line := g.placed[|g.placed| - 1].line;
      SetTid(t.spans, child, tids, own[i], line, 2);
      TidyNext(t.spans, before, tids[..], order + own[..i], placed, own[i], g.placed[|g.placed| - 1]);
      assert order + own[..i] + [own[i]] == order + own[..i + 1];
      i := i + 1;
    }
    assert own[..i] == own;
  }

  lemma NextSpan(spans: seq<Record>, order: seq<nat>, own: seq<nat>, i: nat)
    requires Distinct(order + own) && AllAtDepth(spans, order + own, 2) && i < |own|
    ensures AtDepth(spans, own[i], 2) && own[i] !in order + own[..i] && AllAtDepth(spans, order + own[..i], 2)
  {
    hide AtDepth;
    var all, n := order + own, |order| + i;
    assert all[n] == own[i] && order + own[..i] == all[..n];
  }

  lemma FlattenOne<X>(x: seq<X>)
    ensures Flatten([x]) == x
  {
    assert [x][1..] == [];
  }

  lemma FlattenNext<X>(requests: seq<seq<X>>, a: nat)
    requires a < |requests|
    ensures Flatten(requests[..a]) + requests[a] == Flatten(requests[..a + 1]) <= Flatten(requests)
  {
    hide Flatten;
    FlattenOne(requests[a]);
    assert requests[..a + 1] == requests[..a] + [requests[a]];
    FlattenAppend(requests[..a], [requests[a]]);
    assert requests == requests[..a + 1] + requests[a + 1..];
    FlattenAppend(requests[..a + 1], requests[a + 1..]);
  }

  lemma PrefixKeeps(spans: seq<Record>, first: seq<nat>, all: seq<nat>)
    requires first <= all && Distinct(all) && AllAtDepth(spans, all, 2)
    ensures Distinct(first) && AllAtDepth(spans, first, 2)
  {
    hide AtDepth;
    assert forall i :: 0 <= i < |first| ==> first[i] == all[i];
  }

  lemma TidyNothing(spans: seq<Record>, tids: seq<nat>)
    requires |tids| == |spans|
    ensures Tidy(spans, tids, [], [])
  {
  }

  /** All requests in the order of the layout. */
  method DrawRequests(t: Trace, child: seq<seq<nat>>, requests: seq<seq<nat>>, tids: array<nat>, g: Graph)
    requires IsTree(t.spans, child) && tids.Length == |t.spans| && g.Valid() && g.Abs() == EMPTY
    requires Distinct(Flatten(requests)) && AllAtDepth(t.spans, Flatten(requests), 2)
    modifies tids, g, g.boxes
    ensures g.Valid() && fresh(g.boxes - old(g.boxes)) && old(g.boxes) <= g.boxes
    ensures g.Abs() == Layout(AllArrivals(t, requests))
    ensures Tidy(t.spans, tids[..], Flatten(requests), g.placed)
  {
    hide Wf, PlaceAll, IsTree, AllAtDepth, Distinct, Below, AtDepth, Tidy;
    ghost var all := AllArrivals(t, requests);
    var a := 0;
    assert all[0..] == all && requests[..0] == [];
    TidyNothing(t.spans, tids[..]);
    while a < |requests|
      invariant 0 <= a <= |requests|
      invariant g.Valid() && fresh(g.boxes - old(g.boxes)) && old(g.boxes) <= g.boxes
      invariant Wf(g.Abs()) && LayOut(g.Abs(), all[a..]) == Layout(all)
      invariant Tidy(t.spans, tids[..], Flatten(requests[..a]), g.placed) && |g.placed| == |Flatten(requests[..a])|
    {
      assert all[a..][0] == ArrivalsOf(t, requests[a]) && all[a..][1..] == all[a + 1..];
      FlattenNext(requests, a);
      PrefixKeeps(t.spans, Flatten(requests[..a + 1]), Flatten(requests));
      DrawRequest(t, child, requests[a], tids, g, Flatten(requests[..a]));
      a := a + 1;
    }
    assert requests[..a] == requests;
  }

  // ---------------------------------------------------------------------------
  // The whole conversion

  lemma {:induction false} LayOutAppend(b: Board, requests: seq<seq<Arrival>>, last: seq<Arrival>)
    requires Wf(b)
    ensures LayOut(b, requests + [last]) == PlaceAll(Session(LayOut(b, requests), map[]), last).board
    decreases |requests|
  {
    hide Wf, PlaceAll, Good;
    if requests == [] {
      assert [] + [last] == [last] && [last][1..] == [];
      FreshGood(b);
      GoodWf(PlaceAll(Session(b, map[]), last));
    } else {
      FreshGood(b);
      var next := PlaceAll(Session(b, map[]), requests[0]);
      GoodWf(next);
      LayOutAppend(next.board, requests[1..], last);
      assert (requests + [last])[0] == requests[0] && (requests + [last])[1..] == requests[1..] + [last];
    }
  }

  /** Span order[m] is drawn as the m-th placed span, and everything below it on the same line. */
  ghost predicate DrawnOn(t: Trace, tids: seq<nat>, order: seq<nat>, placed: seq<Placed>) {
    && Tidy(t.spans, tids, order, placed)
    && forall m :: 0 <= m < |order| ==>
         && order[m] < |tids|
         && placed[m] == Placed(ArrivalOf(t, order[m]).pid, tids[order[m]], ArrivalOf(t, order[m]).span)
  }

  lemma TidyIsDrawnOn(t: Trace, tids: seq<nat>, order: seq<nat>, placed: seq<Placed>)
    requires Tidy(t.spans, tids, order, placed) && AllAtDepth(t.spans, order, 2)
    requires Arrivals(placed[..|order|]) == ArrivalsOf(t, order)
    ensures DrawnOn(t, tids, order, placed)
  {
    forall m | 0 <= m < |order|
      ensures order[m] < |tids|
      ensures placed[m] == Placed(ArrivalOf(t, order[m]).pid, tids[order[m]], ArrivalOf(t, order[m]).span)
    {
      var x := order[m];
      assert AtDepth(t.spans, x, 2);
      assert Up(t.spans, x, 0) == Some(x) && Below(t.spans, x, x);
      assert Arrivals(placed[..|order|])[m] == ArrivalOf(t, x) && placed[..|order|][m] == placed[m];
    }
  }

  lemma TidyExtends(spans: seq<Record>, tids: seq<nat>, order: seq<nat>, placed: seq<Placed>, more: seq<Placed>)
    requires Tidy(spans, tids, order, placed) && placed <= more
    ensures Tidy(spans, tids, order, more)
  {
    hide Below;
    assert forall m :: 0 <= m < |order| ==> more[m] == placed[m];
  }

  lemma EmptyRequest(t: Trace, requests: seq<seq<nat>>)
    ensures [] in AllArrivals(t, requests) <==> [] in requests
  {
    var all := AllArrivals(t, requests);
    assert forall a :: 0 <= a < |requests| ==> (all[a] == [] <==> requests[a] == []);
  }

  lemma LayoutLog(t: Trace, requests: seq<seq<nat>>)
    ensures Arrivals(Layout(AllArrivals(t, requests)).placed) == ArrivalsOf(t, Flatten(requests))
  {
    hide Layout;
    LayoutIsComplete(AllArrivals(t, requests));
    MapFlatten(t, requests);
  }

  /** The gateway's spans come last, and do not move the engine's. */
  method DrawSmg(smg: seq<Span>, g: Graph, ghost requests: seq<seq<Arrival>>)
    requires g.Valid() && g.Abs() == Layout(requests)
    modifies g, g.boxes
    ensures g.Valid() && fresh(g.boxes - old(g.boxes)) && old(g.boxes) <= g.boxes
    ensures g.Abs() == Layout(requests + [SortBy(SmgArrivals(Shorter(smg)), BY_START)]) && old(g.placed) <= g.placed
  {
    hide Wf, PlaceAll, LayOut, Good;
    var own := SortBy(SmgArrivals(Shorter(smg)), BY_START);
    EmptyWf();
    LayOutAppend(EMPTY, requests, own);
    FreshGood(g.Abs());
    PlaceAllPrefix(Session(g.Abs(), map[]), own);
    g.PlaceRequest(own);
  }

  /**
   The whole conversion, for any spans.  It fails exactly when a request has no spans.  Otherwise
   the layout is that of the converted spans two levels below a request; each of them, and
   everything below it, carries the line it was given there; and every drawn span is gathered once.
   */
  method ConvertTrace(spans: seq<Record>, starts: seq<int>, ends: array<int>, pids: seq<int>, smg: seq<Span>,
                      tids: array<nat>, g: Graph)
    returns (ok: bool, elems: seq<nat>, ghost order: seq<nat>)
    requires |starts| == |pids| == ends.Length == tids.Length == |spans| && g.Valid() && g.Abs() == EMPTY
    modifies ends, tids, g, g.boxes
    ensures g.Valid()
    ensures forall j :: 0 <= j < |spans| ==> ends[j] == old(ends[j]) - if Drawn(spans, j) then 1000 else 0
    ensures var t := Trace(spans, starts, ends[..], pids);
            var trace := LayoutTrace(AllArrivals(t, Requests(spans)), Shorter(smg));
            && (ok <==> trace.Laid?)
            && (ok ==>
                  && g.Abs() == trace.board
                  && order == Flatten(SortedRequests(t)) && multiset(order) == multiset(Tops(spans))
                  && DrawnOn(t, tids[..], order, g.placed))
    ensures ok ==> forall j: nat :: multiset(elems)[j] == if Drawn(spans, j) then 1 else 0
  {
    hide IsTree, Drawn, Tops, LayOut, Layout, AllAtDepth, Distinct, Wf, Tidy, DrawnOn, AtDepth, Requests, SortedEach,
         SortedRequests, SortBy, Child, Roots;
    var child, roots := BuildTree(spans);
    TreeBuilt(spans, child);
    var _ := Generate(spans, child, roots, ends);
    var t := Trace(spans, starts, ends[..], pids);
    var requests := CollectRequests(spans, child, roots);
    EmptyRequest(t, requests);
    ok, elems, order := [] !in requests, [], [];
    if ok {
      var each, sorted := SortedEach(t), SortedRequests(t);
      order := Drawing(t);
      DrawingIsTops(t);
      DrawRequests(t, child, sorted, tids, g);
      LayoutLog(t, sorted);
      ghost var engine := g.placed;
      DrawSmg(smg, g, AllArrivals(t, sorted));
      TidyExtends(spans, tids[..], order, engine, g.placed);
      assert g.placed[..|order|] == engine;
      TidyIsDrawnOn(t, tids[..], order, g.placed);
      OrderMatches(t);
      SortedEachBag(t);
      elems := GatherAll(spans, child, Flatten(each));
    }
  }

  lemma TreeBuilt(spans: seq<Record>, child: seq<seq<nat>>)
    requires |child| == |spans| && forall k :: 0 <= k < |spans| ==> child[k] == Child(spans, k)
    ensures IsTree(spans, child)
  {
  }

  // ---------------------------------------------------------------------------
  // What a reader of the trace sees

  /**
   Two spans of one process drawn on one line are apart in time, when every unchecked shortcut of
   the process would have passed the check; and so is everything below them, which is on their line.
   */
  lemma DrawnSpansApart(t: Trace, smg: seq<Span>, tids: seq<nat>, order: seq<nat>, m: nat, n: nat)
    requires var trace := LayoutTrace(AllArrivals(t, Requests(t.spans)), smg);
             trace.Laid? && DrawnOn(t, tids, order, trace.board.placed)
    requires m < n < |order| && ArrivalOf(t, order[m]).pid == ArrivalOf(t, order[n]).pid
    requires tids[order[m]] == tids[order[n]]
    requires AllShortcutsClear(Order(AllArrivals(t, Requests(t.spans)), smg), ArrivalOf(t, order[m]).pid)
    ensures Apart(ArrivalOf(t, order[m]).span, ArrivalOf(t, order[n]).span)
  {
    hide Layout, AllShortcutsClear, Order, AllArrivals, Below, ArrivalOf;
    var requests, pid := Order(AllArrivals(t, Requests(t.spans)), smg), ArrivalOf(t, order[m]).pid;
    LayoutApartIff(requests, pid);
    var placed := Layout(requests).placed;
    assert placed[m].line == placed[n].line && placed[m].pid == pid == placed[n].pid;
  }

  /** A drawn span has the line of its one ancestor at depth two. */
  lemma AncestorsLine(t: Trace, tids: seq<nat>, order: seq<nat>, placed: seq<Placed>, j: nat) returns (m: nat)
    requires DrawnOn(t, tids, order, placed) && multiset(order) == multiset(Tops(t.spans)) && Drawn(t.spans, j)
    ensures m < |order| && Below(t.spans, j, order[m]) && j < |tids| && tids[j] == placed[m].line == tids[order[m]]
  {
    hide AtDepth, Below, Tops;
    SameMembers(t.spans, order);
    CoveredIffDrawn(t.spans, order, j);
    m :| 0 <= m < |order| && Below(t.spans, j, order[m]);
    BelowKnown(t.spans, j, order[m]);
  }

  lemma BelowKnown(spans: seq<Record>, j: nat, i: nat)
    requires Below(spans, j, i)
    ensures j < |spans|
  {
  }

  /**
   A span two levels below a request is drawn for the process of its thread span, from its start to
   1000 ns before its end.  `ends` are the end times before the conversion.
   */
  lemma DrawnAs(t: Trace, ends: seq<int>, tids: seq<nat>, order: seq<nat>, placed: seq<Placed>, m: nat)
    requires Sized(t) && |ends| == |t.spans| && multiset(order) == multiset(Tops(t.spans))
    requires forall j :: 0 <= j < |ends| ==> t.ends[j] == ends[j] - if Drawn(t.spans, j) then 1000 else 0
    requires DrawnOn(t, tids, order, placed) && m < |order|
    ensures order[m] < |t.spans| && Parent(t.spans, order[m]).Some?
    ensures placed[m] == Placed(Process(t.pids[Parent(t.spans, order[m]).value]), tids[order[m]],
                                Span(t.starts[order[m]], ends[order[m]] - 1000))
  {
    hide Tops, Tidy;
    var x := order[m];
    assert x in multiset(order);
    TopStart(t, x);
    TopIsDrawn(t.spans, x);
  }

  lemma TopIsDrawn(spans: seq<Record>, x: nat)
    requires x in Tops(spans)
    ensures Drawn(spans, x)
  {
    hide Tops;
    TopsAreDepthTwo(spans);
    assert AtDepth(spans, x, 2);
  }

  /** After the engine's spans come the gateway's, all of them, from their start to 1000 ns before their end. */
  lemma GatewayDrawn(t: Trace, smg: seq<Span>)
    requires LayoutTrace(AllArrivals(t, Requests(t.spans)), Shorter(smg)).Laid?
    ensures var placed, n := LayoutTrace(AllArrivals(t, Requests(t.spans)), Shorter(smg)).board.placed, |Drawing(t)|;
            && |placed| == n + |smg|
            && multiset(Arrivals(placed[n..]))
            == multiset(seq(|smg|, i requires 0 <= i < |smg| => Arrival(Smg, Span(smg[i].start, smg[i].end - 1000))))
  {
    hide Layout, SortBy, SortEach, SortedRequests, AllArrivals, Requests, Drawing, ArrivalsOf, Arrivals, Shorter;
    var own := SortBy(SmgArrivals(Shorter(smg)), BY_START);
    var order := Order(AllArrivals(t, Requests(t.spans)), Shorter(smg));
    GatewayLast(t, smg);
    ArrivalsTail(Layout(order).placed, ArrivalsOf(t, Drawing(t)), own);
    SortBySorts(SmgArrivals(Shorter(smg)), BY_START);
    SameSize(SmgArrivals(Shorter(smg)), own);
    GatewayArrivals(smg);
  }

  lemma GatewayLast(t: Trace, smg: seq<Span>)
    ensures |ArrivalsOf(t, Drawing(t))| == |Drawing(t)|
    ensures Arrivals(Layout(Order(AllArrivals(t, Requests(t.spans)), Shorter(smg))).placed)
         == ArrivalsOf(t, Drawing(t)) + SortBy(SmgArrivals(Shorter(smg)), BY_START)
  {
    hide Layout, SortBy, SortEach, SortedRequests, AllArrivals, Requests, Flatten, Shorter;
    var requests, own := AllArrivals(t, SortedRequests(t)), SortBy(SmgArrivals(Shorter(smg)), BY_START);
    OrderMatches(t);
    LayoutIsComplete(requests + [own]);
    FlattenAppend(requests, [own]);
    FlattenOne(own);
    MapFlatten(t, SortedRequests(t));
  }

  lemma ArrivalsTail(placed: seq<Placed>, first: seq<Arrival>, last: seq<Arrival>)
    requires Arrivals(placed) == first + last
    ensures |placed| == |first| + |last| && Arrivals(placed[|first|..]) == last
  {
    assert |Arrivals(placed)| == |placed|;
    forall i | 0 <= i < |last| ensures Arrivals(placed[|first|..])[i] == last[i] {
      assert Arrivals(placed)[|first| + i] == last[i];
    }
  }

  lemma GatewayArrivals(smg: seq<Span>)
    ensures SmgArrivals(Shorter(smg))
         == seq(|smg|, i requires 0 <= i < |smg| => Arrival(Smg, Span(smg[i].start, smg[i].end - 1000)))
  {
  }

  lemma SameSize<X>(a: seq<X>, b: seq<X>)
    requires multiset(a) == multiset(b)
    ensures |a| == |b|
  {
    assert |multiset(a)| == |a| && |multiset(b)| == |b|;
  }
}
