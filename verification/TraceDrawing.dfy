/**
 From spans to drawn lines: the order in which the layout takes the spans of the tree, and the
 lines they and everything below them are drawn on.
 */
module TraceDrawing {
  import opened Sequences
  import opened SpanContainer
  import opened SpanTree
  import opened SpanPasses
  import opened TraceLayout
  import opened TraceDriver

  /** The engine spans with their times after conversion; a thread span carries the process id. */
  datatype Trace = Trace(spans: seq<Record>, starts: seq<int>, ends: seq<int>, pids: seq<int>)

  predicate Sized(t: Trace) {
    |t.starts| == |t.ends| == |t.pids| == |t.spans|
  }

  /** What the layout is given for span x. */
  function ArrivalOf(t: Trace, x: nat): Arrival {
    if Sized(t) && x < |t.spans| && Parent(t.spans, x).Some? then
      Arrival(Process(t.pids[Parent(t.spans, x).value]), Span(t.starts[x], t.ends[x]))
    else Arrival(Smg, Span(0, 0))
  }

  function ArrivalsOf(t: Trace, own: seq<nat>): seq<Arrival> {
    Map(own, (x: nat) => ArrivalOf(t, x))
  }

  function AllArrivals(t: Trace, requests: seq<seq<nat>>): seq<seq<Arrival>> {
    Map(requests, (own: seq<nat>) => ArrivalsOf(t, own))
  }

  function StartOf(t: Trace, x: nat): int {
    ArrivalOf(t, x).span.start
  }

  /** root_span["spans"] of the given requests. */
  function SpansOf(spans: seq<Record>, roots: seq<nat>): seq<seq<nat>> {
    Map(roots, (r: nat) => Level(spans, Child(spans, r)))
  }

  function Requests(spans: seq<Record>): seq<seq<nat>> {
    SpansOf(spans, Roots(spans, |spans|))
  }

  /** Each request's spans sorted by start. */
  function SortedEach(t: Trace): seq<seq<nat>> {
    Map(Requests(t.spans), (own: seq<nat>) => SortBy(own, (x: nat) => StartOf(t, x)))
  }

  /** The requests sorted by the start of their first span. */
  function SortedRequests(t: Trace): seq<seq<nat>> {
    SortBy(SortedEach(t), (own: seq<nat>) => if own == [] then 0 else StartOf(t, own[0]))
  }

  /** All spans two levels below a request, in the order of the layout. */
  function Drawing(t: Trace): seq<nat> {
    Flatten(SortedRequests(t))
  }

  // ---------------------------------------------------------------------------
  // The order has every span once

  lemma {:induction false} LevelAppend(spans: seq<Record>, a: seq<nat>, b: seq<nat>)
    ensures Level(spans, a + b) == Level(spans, a) + Level(spans, b)
  {
    if b == [] {
      assert a + b == a;
    } else {
      var most, last := b[..|b| - 1], b[|b| - 1];
      LevelAppend(spans, a, most);
      assert (a + b)[..|a + b| - 1] == a + most && (a + b)[|a + b| - 1] == last;
      Regroup(Level(spans, a), Level(spans, most), Child(spans, last));
    }
  }

  lemma {:induction false} FlattenLevels(spans: seq<Record>, roots: seq<nat>)
    ensures Flatten(SpansOf(spans, roots)) == Level(spans, Level(spans, roots))
  {
    if roots == [] {
      assert SpansOf(spans, roots) == [];
    } else {
      hide Level, Child, Flatten;
      var most, last := roots[..|roots| - 1], roots[|roots| - 1];
      FlattenLevels(spans, most);
      assert roots == most + [last];
      OneMoreRequest(spans, most, last);
    }
  }

  lemma OneMoreRequest(spans: seq<Record>, roots: seq<nat>, r: nat)
    requires Flatten(SpansOf(spans, roots)) == Level(spans, Level(spans, roots))
    ensures Flatten(SpansOf(spans, roots + [r])) == Level(spans, Level(spans, roots + [r]))
  {
    var own := Level(spans, Child(spans, r));
    assert Flatten([own]) == own;
    hide Flatten, Child;
    assert SpansOf(spans, roots + [r]) == SpansOf(spans, roots) + [own];
    FlattenAppend(SpansOf(spans, roots), [own]);
    LevelNext(spans, roots, r);
    LevelAppend(spans, Level(spans, roots), Child(spans, r));
  }

  lemma {:induction false} FlattenInsert<X>(x: seq<X>, ss: seq<seq<X>>, key: seq<X> -> int)
    ensures multiset(Flatten(InsertBy(x, ss, key))) == multiset(x) + multiset(Flatten(ss))
  {
    if ss == [] || key(x) <= key(ss[0]) {
      assert ([x] + ss)[1..] == ss;
    } else {
      FlattenInsert(x, ss[1..], key);
      var rest := InsertBy(x, ss[1..], key);
      assert ([ss[0]] + rest)[1..] == rest;
    }
  }

  lemma {:induction false} FlattenSorted<X>(ss: seq<seq<X>>, key: seq<X> -> int)
    ensures multiset(Flatten(SortBy(ss, key))) == multiset(Flatten(ss))
  {
    if ss != [] {
      FlattenSorted(ss[1..], key);
      FlattenInsert(ss[0], SortBy(ss[1..], key), key);
    }
  }

  lemma {:induction false} FlattenSortedEach<X>(ss: seq<seq<X>>, key: X -> int)
    ensures multiset(Flatten(Map(ss, (s: seq<X>) => SortBy(s, key)))) == multiset(Flatten(ss))
  {
    var f := (s: seq<X>) => SortBy(s, key);
    if ss == [] {
      assert Map(ss, f) == [];
    } else {
      FlattenSortedEach(ss[1..], key);
      assert Map(ss, f)[1..] == Map(ss[1..], f);
      SortBySorts(ss[0], key);
    }
  }

  lemma SortedEachBag(t: Trace)
    ensures multiset(Flatten(SortedEach(t))) == multiset(Tops(t.spans))
  {
    FlattenSortedEach(Requests(t.spans), (x: nat) => StartOf(t, x));
    FlattenLevels(t.spans, Roots(t.spans, |t.spans|));
  }

  /** The layout takes every span two levels below a request exactly once. */
  lemma DrawingIsTops(t: Trace)
    ensures multiset(Drawing(t)) == multiset(Tops(t.spans))
    ensures Distinct(Drawing(t)) && AllAtDepth(t.spans, Drawing(t), 2)
  {
    hide Tops, AllAtDepth;
    SortedEachBag(t);
    FlattenSorted(SortedEach(t), (own: seq<nat>) => if own == [] then 0 else StartOf(t, own[0]));
    TopsAreDepthTwo(t.spans);
    SameBagDistinct(Tops(t.spans), Drawing(t));
    SameMembers(t.spans, Drawing(t));
  }

  // ---------------------------------------------------------------------------
  // The order is that of the arrivals

  lemma {:induction false} MapInsert<X, Y>(x: X, s: seq<X>, f: X -> Y, key: X -> int, key': Y -> int)
    requires forall z :: z == x || z in s ==> key'(f(z)) == key(z)
    ensures Map(InsertBy(x, s, key), f) == InsertBy(f(x), Map(s, f), key')
  {
    if s == [] || key(x) <= key(s[0]) {
      assert Map([x] + s, f) == [f(x)] + Map(s, f);
    } else {
      MapInsert(x, s[1..], f, key, key');
      assert Map(s, f)[1..] == Map(s[1..], f);
      var rest := InsertBy(x, s[1..], key);
      assert Map([s[0]] + rest, f) == [f(s[0])] + Map(rest, f);
    }
  }

  lemma {:induction false} MapSort<X, Y>(s: seq<X>, f: X -> Y, key: X -> int, key': Y -> int)
    requires forall z :: z in s ==> key'(f(z)) == key(z)
    ensures Map(SortBy(s, key), f) == SortBy(Map(s, f), key')
  {
    if s == [] {
      assert Map(s, f) == [];
    } else {
      MapSort(s[1..], f, key, key');
      assert Map(s, f)[1..] == Map(s[1..], f);
      SortBySorts(s[1..], key);
      forall z | z == s[0] || z in SortBy(s[1..], key) ensures key'(f(z)) == key(z) {
        assert z in SortBy(s[1..], key) ==> z in multiset(s[1..]);
      }
      MapInsert(s[0], SortBy(s[1..], key), f, key, key');
    }
  }

  lemma {:induction false} MapFlatten(t: Trace, ss: seq<seq<nat>>)
    ensures ArrivalsOf(t, Flatten(ss)) == Flatten(AllArrivals(t, ss))
  {
    if ss == [] {
      assert AllArrivals(t, ss) == [];
    } else {
      MapFlatten(t, ss[1..]);
      assert AllArrivals(t, ss)[1..] == AllArrivals(t, ss[1..]);
      assert ArrivalsOf(t, ss[0] + Flatten(ss[1..])) == ArrivalsOf(t, ss[0]) + ArrivalsOf(t, Flatten(ss[1..]));
    }
  }

  lemma SortedArrivals(t: Trace, own: seq<nat>)
    ensures ArrivalsOf(t, SortBy(own, (x: nat) => StartOf(t, x))) == SortBy(ArrivalsOf(t, own), BY_START)
  {
    MapSort(own, (x: nat) => ArrivalOf(t, x), (x: nat) => StartOf(t, x), BY_START);
  }

  /** Sorting the spans and sorting what the layout is given of them is the same. */
  lemma OrderMatches(t: Trace)
    ensures AllArrivals(t, SortedRequests(t)) == SortBy(SortEach(AllArrivals(t, Requests(t.spans))), BY_FIRST_START)
  {
    var each := SortedEach(t);
    forall a | 0 <= a < |each| ensures AllArrivals(t, each)[a] == SortEach(AllArrivals(t, Requests(t.spans)))[a] {
      SortedArrivals(t, Requests(t.spans)[a]);
    }
    assert AllArrivals(t, each) == SortEach(AllArrivals(t, Requests(t.spans)));
    MapSort(each, (own: seq<nat>) => ArrivalsOf(t, own),
            (own: seq<nat>) => if own == [] then 0 else StartOf(t, own[0]), BY_FIRST_START);
  }

  // ---------------------------------------------------------------------------
  // Lines

  /** The m-th span laid out and everything below it have the m-th line. */
  ghost predicate Tidy(spans: seq<Record>, tids: seq<nat>, order: seq<nat>, placed: seq<Placed>) {
    && |tids| == |spans| && |order| <= |placed|
    && forall m, j: nat :: 0 <= m < |order| && j < |tids| && Below(spans, j, order[m]) ==> tids[j] == placed[m].line
  }

  lemma TidyNext(spans: seq<Record>, before: seq<nat>, after: seq<nat>, order: seq<nat>, placed: seq<Placed>,
                 x: nat, p: Placed)
    requires Tidy(spans, before, order, placed) && |placed| == |order| && |after| == |before|
    requires AllAtDepth(spans, order, 2) && AtDepth(spans, x, 2) && x !in order
    requires forall j :: 0 <= j < |after| ==> after[j] == if Below(spans, j, x) then p.line else before[j]
    ensures Tidy(spans, after, order + [x], placed + [p])
  {
    hide Below, AtDepth;
    forall m, j: nat | 0 <= m < |order| && j < |after| && Below(spans, j, order[m]) ensures after[j] == placed[m].line {
      assert AtDepth(spans, order[m], 2) && order[m] in order;
      if Below(spans, j, x) {
        OneAncestorPerDepth(spans, j, order[m], x, 2);
        assert false;
      }
    }
  }

  // ---------------------------------------------------------------------------
  // The order by time

  lemma TopStart(t: Trace, x: nat)
    requires Sized(t) && x in Tops(t.spans)
    ensures x < |t.spans| && Parent(t.spans, x).Some? && StartOf(t, x) == t.starts[x]
  {
    TopsAreDepthTwo(t.spans);
    assert Up(t.spans, x, 2).Some? && Up(t.spans, x, 1).Some?;
  }

  lemma {:induction false} FlattenHas<X>(ss: seq<seq<X>>, a: nat, i: nat)
    requires a < |ss| && i < |ss[a]|
    ensures ss[a][i] in Flatten(ss)
  {
    if a > 0 {
      FlattenHas(ss[1..], a - 1, i);
    }
  }

  lemma DrawingMember(t: Trace, a: nat, i: nat)
    requires Sized(t) && a < |SortedRequests(t)| && i < |SortedRequests(t)[a]|
    ensures SortedRequests(t)[a][i] < |t.spans|
    ensures StartOf(t, SortedRequests(t)[a][i]) == t.starts[SortedRequests(t)[a][i]]
  {
    hide Tops, SortedRequests, StartOf;
    var x := SortedRequests(t)[a][i];
    FlattenHas(SortedRequests(t), a, i);
    DrawingIsTops(t);
    assert x in multiset(Drawing(t));
    TopStart(t, x);
  }

  lemma RequestIsSorted(t: Trace, a: nat)
    requires a < |SortedRequests(t)|
    ensures SortedRequests(t)[a] in SortedEach(t)
  {
    var key := (own: seq<nat>) => if own == [] then 0 else StartOf(t, own[0]);
    SortBySorts(SortedEach(t), key);
    assert SortedRequests(t)[a] in multiset(SortedEach(t));
  }

  /** The spans of a request are drawn by start time. */
  lemma SpansByStart(t: Trace, a: nat, i: nat, j: nat)
    requires Sized(t) && a < |SortedRequests(t)| && i < j < |SortedRequests(t)[a]|
    ensures SortedRequests(t)[a][i] < |t.spans| && SortedRequests(t)[a][j] < |t.spans|
    ensures t.starts[SortedRequests(t)[a][i]] <= t.starts[SortedRequests(t)[a][j]]
  {
    DrawingMember(t, a, i);
    DrawingMember(t, a, j);
    RequestIsSorted(t, a);
    var key := (x: nat) => StartOf(t, x);
    var own := SortedRequests(t)[a];
    var b :| 0 <= b < |SortedEach(t)| && SortedEach(t)[b] == own;
    SortBySorts(Requests(t.spans)[b], key);
    assert key(own[i]) <= key(own[j]);
  }

  /** Requests are drawn by the start of their first span. */
  lemma RequestsByStart(t: Trace, a: nat, b: nat)
    requires Sized(t) && a < b < |SortedRequests(t)| && SortedRequests(t)[a] != [] && SortedRequests(t)[b] != []
    ensures SortedRequests(t)[a][0] < |t.spans| && SortedRequests(t)[b][0] < |t.spans|
    ensures t.starts[SortedRequests(t)[a][0]] <= t.starts[SortedRequests(t)[b][0]]
  {
    DrawingMember(t, a, 0);
    DrawingMember(t, b, 0);
    var key := (own: seq<nat>) => if own == [] then 0 else StartOf(t, own[0]);
    SortBySorts(SortedEach(t), key);
    assert key(SortedRequests(t)[a]) <= key(SortedRequests(t)[b]);
  }
}
