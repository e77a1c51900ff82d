/** generate_perfetto_span_layout: the order in which the spans of a trace are laid out. */
module TraceDriver {
  import opened Sequences
  import opened SpanContainer
  import opened TraceLayout
  import opened TraceOptimality

  // ---------------------------------------------------------------------------
  // sorted(..., key=...)

  function InsertBy<T>(x: T, s: seq<T>, key: T -> int): seq<T> {
    if s == [] || key(x) <= key(s[0]) then [x] + s else [s[0]] + InsertBy(x, s[1..], key)
  }

  /** Stable: an element goes before the equal ones that followed it. */
  function SortBy<T>(s: seq<T>, key: T -> int): seq<T> {
    if s == [] then [] else InsertBy(s[0], SortBy(s[1..], key), key)
  }

  ghost predicate Ascending<T>(s: seq<T>, key: T -> int) {
    forall i, j :: 0 <= i < j < |s| ==> key(s[i]) <= key(s[j])
  }

  lemma ConsAscending<T>(x: T, s: seq<T>, key: T -> int)
    requires Ascending(s, key) && forall i :: 0 <= i < |s| ==> key(x) <= key(s[i])
    ensures Ascending([x] + s, key)
  {
  }

  lemma {:induction false} InsertByBag<T>(x: T, s: seq<T>, key: T -> int)
    ensures multiset(InsertBy(x, s, key)) == multiset(s) + multiset{x}
  {
    if s != [] && key(s[0]) < key(x) {
      InsertByBag(x, s[1..], key);
      assert s == [s[0]] + s[1..];
    }
  }

  lemma {:induction false} InsertBySorts<T>(x: T, s: seq<T>, key: T -> int)
    requires Ascending(s, key)
    ensures Ascending(InsertBy(x, s, key), key)
  {
    if s != [] && key(s[0]) < key(x) {
      var r := InsertBy(x, s[1..], key);
      InsertBySorts(x, s[1..], key);
      InsertByBag(x, s[1..], key);
      forall i | 0 <= i < |r| ensures key(s[0]) <= key(r[i]) {
        assert r[i] in multiset(s[1..]) + multiset{x};
      }
      ConsAscending(s[0], r, key);
    } else {
      ConsAscending(x, s, key);
    }
  }

  lemma {:induction false} SortBySorts<T>(s: seq<T>, key: T -> int)
    ensures Ascending(SortBy(s, key), key)
    ensures multiset(SortBy(s, key)) == multiset(s)
  {
    if s != [] {
      SortBySorts(s[1..], key);
      InsertBySorts(s[0], SortBy(s[1..], key), key);
      InsertByBag(s[0], SortBy(s[1..], key), key);
      assert s == [s[0]] + s[1..];
    }
  }

  /** The elements with the given key, in order. */
  function OfKey<T>(s: seq<T>, key: T -> int, v: int): seq<T> {
    if s == [] then [] else (if key(s[0]) == v then [s[0]] else []) + OfKey(s[1..], key, v)
  }

  lemma OfKeyCons<T>(x: T, s: seq<T>, key: T -> int, v: int)
    ensures OfKey([x] + s, key, v) == (if key(x) == v then [x] else []) + OfKey(s, key, v)
  {
    assert ([x] + s)[1..] == s;
  }

  lemma {:induction false} InsertByStable<T>(x: T, s: seq<T>, key: T -> int, v: int)
    ensures OfKey(InsertBy(x, s, key), key, v) == (if key(x) == v then [x] else []) + OfKey(s, key, v)
  {
    hide OfKey;
    if s == [] || key(x) <= key(s[0]) {
      OfKeyCons(x, s, key, v);
    } else {
      InsertByStable(x, s[1..], key, v);
      OfKeyCons(s[0], InsertBy(x, s[1..], key), key, v);
      assert s == [s[0]] + s[1..];
      OfKeyCons(s[0], s[1..], key, v);
    }
  }

  /** Sorting is stable: elements with equal keys stay in their order. */
  lemma {:induction false} SortByStable<T>(s: seq<T>, key: T -> int, v: int)
    ensures OfKey(SortBy(s, key), key, v) == OfKey(s, key, v)
  {
    if s != [] {
      SortByStable(s[1..], key, v);
      InsertByStable(s[0], SortBy(s[1..], key), key, v);
    }
  }

  // ---------------------------------------------------------------------------
  // The order of arrival

  const BY_START: Arrival -> int := (a: Arrival) => a.span.start
  const BY_FIRST_START: seq<Arrival> -> int := (r: seq<Arrival>) => if r == [] then 0 else r[0].span.start

  /** `NoSpans`: a request without spans makes spans[0] fail. */
  datatype Outcome = NoSpans | Laid(board: Board)

  function SortEach(roots: seq<seq<Arrival>>): seq<seq<Arrival>> {
    seq(|roots|, i requires 0 <= i < |roots| => SortBy(roots[i], BY_START))
  }

  /** The gateway's spans, as arrivals of their own process. */
  function SmgArrivals(smg: seq<Span>): seq<Arrival> {
    seq(|smg|, i requires 0 <= i < |smg| => Arrival(Smg, smg[i]))
  }

  function Order(roots: seq<seq<Arrival>>, smg: seq<Span>): seq<seq<Arrival>> {
    SortBy(SortEach(roots), BY_FIRST_START) + [SortBy(SmgArrivals(smg), BY_START)]
  }

  ghost function LayoutTrace(roots: seq<seq<Arrival>>, smg: seq<Span>): Outcome {
    if [] in roots then NoSpans else Laid(Layout(Order(roots, smg)))
  }

  // ---------------------------------------------------------------------------
  // Where the order of arrival is by start time

  lemma {:induction false} FlattenAppend<X>(a: seq<seq<X>>, b: seq<seq<X>>)
    ensures Flatten(a + b) == Flatten(a) + Flatten(b)
  {
    if a == [] {
      assert a + b == b;
    } else {
      FlattenAppend(a[1..], b);
      assert (a + b)[1..] == a[1..] + b;
      Regroup(a[0], Flatten(a[1..]), Flatten(b));
    }
  }

  lemma {:induction false} FlattenMember(requests: seq<seq<Arrival>>, a: Arrival) returns (k: nat)
    requires a in Flatten(requests)
    ensures k < |requests| && a in requests[k]
  {
    if a in requests[0] {
      k := 0;
    } else {
      k := FlattenMember(requests[1..], a);
      k := k + 1;
    }
  }

  /** A stretch with none of the process's spans does not disturb a sorted one. */
  lemma ByStartParts(a: seq<Arrival>, b: seq<Arrival>, pid: Pid)
    requires forall i :: 0 <= i < |a| ==> a[i].pid != pid
    requires ByStart(b, pid)
    ensures ByStart(a + b, pid)
    ensures ByStart(b + a, pid)
  {
  }

  lemma SortedIsByStart(s: seq<Arrival>, pid: Pid)
    requires forall i :: 0 <= i < |s| && s[i].pid == pid ==> s[i].span.start < s[i].span.end
    ensures ByStart(SortBy(s, BY_START), pid)
  {
    var t := SortBy(s, BY_START);
    SortBySorts(s, BY_START);
    forall i | 0 <= i < |t| && t[i].pid == pid ensures t[i].span.start < t[i].span.end {
      assert t[i] in multiset(s);
    }
    forall i, j | 0 <= i < j < |t| ensures t[i].span.start <= t[j].span.start {
      assert BY_START(t[i]) <= BY_START(t[j]);
    }
  }

  lemma EngineOnly(roots: seq<seq<Arrival>>)
    requires forall i, j :: 0 <= i < |roots| && 0 <= j < |roots[i]| ==> roots[i][j].pid != Smg
    ensures forall a :: a in Flatten(SortBy(SortEach(roots), BY_FIRST_START)) ==> a.pid != Smg
  {
    var sorted := SortBy(SortEach(roots), BY_FIRST_START);
    SortBySorts(SortEach(roots), BY_FIRST_START);
    forall a: Arrival | a in Flatten(sorted) ensures a.pid != Smg {
      var k := FlattenMember(sorted, a);
      assert sorted[k] in multiset(SortEach(roots));
      var i :| 0 <= i < |roots| && SortEach(roots)[i] == sorted[k];
      SortBySorts(roots[i], BY_START);
      assert a in multiset(roots[i]);
    }
  }

  lemma SmgByStart(roots: seq<seq<Arrival>>, smg: seq<Span>)
    requires forall i, j :: 0 <= i < |roots| && 0 <= j < |roots[i]| ==> roots[i][j].pid != Smg
    requires forall i :: 0 <= i < |smg| ==> smg[i].start < smg[i].end
    ensures ByStart(Flatten(Order(roots, smg)), Smg)
  {
    hide ByStart;
    var sorted, own := SortBy(SortEach(roots), BY_FIRST_START), SortBy(SmgArrivals(smg), BY_START);
    FlattenAppend(sorted, [own]);
    assert Flatten([own]) == own;
    EngineOnly(roots);
    SortedIsByStart(SmgArrivals(smg), Smg);
    ByStartParts(Flatten(sorted), own, Smg);
  }

  /** The gateway's spans always arrive by start time, so with positive lengths their lines are fewest. */
  lemma SmgLinesFewest(roots: seq<seq<Arrival>>, smg: seq<Span>)
    requires [] !in roots
    requires forall i, j :: 0 <= i < |roots| && 0 <= j < |roots[i]| ==> roots[i][j].pid != Smg
    requires forall i :: 0 <= i < |smg| ==> smg[i].start < smg[i].end
    ensures LayoutTrace(roots, smg).Laid? && Fewest(LayoutTrace(roots, smg).board, Smg)
  {
    hide Layout, Fewest, Order, ByStart, Flatten;
    SmgByStart(roots, smg);
    LinesAreFewest(Order(roots, smg), Smg);
  }

  lemma OneRootByStart(root: seq<Arrival>, smg: seq<Span>, pid: Pid)
    requires root != [] && pid != Smg
    requires forall j :: 0 <= j < |root| && root[j].pid == pid ==> root[j].span.start < root[j].span.end
    ensures ByStart(Flatten(Order([root], smg)), pid)
  {
    hide ByStart;
    var first, own := SortBy(root, BY_START), SortBy(SmgArrivals(smg), BY_START);
    assert SortEach([root]) == [first];
    assert SortBy([first], BY_FIRST_START) == [first];
    FlattenAppend([first], [own]);
    assert Flatten([own]) == own && Flatten([first]) == first;
    SortBySorts(SmgArrivals(smg), BY_START);
    forall i | 0 <= i < |own| ensures own[i].pid != pid {
      assert own[i] in multiset(SmgArrivals(smg));
    }
    SortedIsByStart(root, pid);
    ByStartParts(own, first, pid);
  }

  /** So do the spans of every process of a trace with one request. */
  lemma OneRootLinesFewest(root: seq<Arrival>, smg: seq<Span>, pid: Pid)
    requires root != [] && pid != Smg
    requires forall j :: 0 <= j < |root| && root[j].pid == pid ==> root[j].span.start < root[j].span.end
    ensures LayoutTrace([root], smg).Laid? && Fewest(LayoutTrace([root], smg).board, pid)
  {
    hide Layout, Fewest, Order, ByStart, Flatten;
    OneRootByStart(root, smg, pid);
    LinesAreFewest(Order([root], smg), pid);
  }

  // ---------------------------------------------------------------------------
  // The unchecked shortcut, concretely

  function Pocket(spans: seq<Span>, line: seq<Span>): Board {
    Board(map[Process(0) := [line]], [(Process(0), 1)],
          seq(|spans|, i requires 0 <= i < |spans| => Placed(Process(0), 1, spans[i])))
  }

  lemma PocketStep(spans: seq<Span>, line: seq<Span>, x: Span)
    requires Good(Session(Pocket(spans, line), map[Process(0) := 1]))
    requires x.start == x.end || !NeighbourOverlap(line, x.start, x.end)
    ensures Place(Session(Pocket(spans, line), map[Process(0) := 1]), Arrival(Process(0), x))
         == Session(Pocket(spans + [x], Insert(line, x)), map[Process(0) := 1])
  {
    var s := Session(Pocket(spans, line), map[Process(0) := 1]);
    var t := Place(s, Arrival(Process(0), x));
    var u := Pocket(spans + [x], Insert(line, x));
    assert FindLine(s.board, s.status, Process(0), x) == Choice(1, s.board, s.status);
    assert [line][0 := Insert(line, x)] == [Insert(line, x)];
    assert t.board.grid == u.grid;
    assert t.board.placed == u.placed;
  }

  /** Within one request, (0,100), (50,50) and (60,70) all land on line 1, where two of them overlap. */
  lemma ZeroLengthLetsSpansOverlap()
    ensures var p := Process(0);
            var request := [Arrival(p, Span(0, 100)), Arrival(p, Span(50, 50)), Arrival(p, Span(60, 70))];
            var placed := Layout([request]).placed;
            && placed == [Placed(p, 1, Span(0, 100)), Placed(p, 1, Span(50, 50)), Placed(p, 1, Span(60, 70))]
            && Meets(placed[0].span, placed[2].span)
  {
    hide PlaceAll, Good, Wf, Insert;
    var p, a, b, c := Process(0), Span(0, 100), Span(50, 50), Span(60, 70);
    PocketRun();
    EmptyWf();
    var s := PlaceAll(Session(EMPTY, map[]), [Arrival(p, a), Arrival(p, b), Arrival(p, c)]);
    GoodWf(s);
    assert LayOut(s.board, []) == s.board;
  }

  lemma PocketRun()
    ensures Good(Session(EMPTY, map[]))
    ensures var p, a, b, c := Process(0), Span(0, 100), Span(50, 50), Span(60, 70);
            PlaceAll(Session(EMPTY, map[]), [Arrival(p, a), Arrival(p, b), Arrival(p, c)]) ==
            Session(Pocket([a, b, c], Insert([a, b], c)), map[p := 1])
  {
    hide Good, Place, Pocket, Insert, NeighbourOverlap;
    var p, a, b, c := Process(0), Span(0, 100), Span(50, 50), Span(60, 70);
    var s0 := Session(EMPTY, map[]);
    var s1, s2 := Session(Pocket([a], [a]), map[p := 1]), Session(Pocket([a, b], [a, b]), map[p := 1]);
    assert Good(s0) by { EmptyWf(); FreshGood(EMPTY); }
    PlaceGood(s0, Arrival(p, a));
    assert Place(s0, Arrival(p, a)) == s1 by { EmptyWf(); FirstPocket(a); }
    PlaceGood(s1, Arrival(p, b));
    PocketStep([a], [a], b);
    InsertPoint();
    assert [a] + [b] == [a, b];
    PlaceGood(s2, Arrival(p, c));
    PocketStep([a, b], [a, b], c);
    assert [a, b] + [c] == [a, b, c];
    PlaceAllStep(s0, Arrival(p, a), [Arrival(p, b), Arrival(p, c)]);
    PlaceAllStep(s1, Arrival(p, b), [Arrival(p, c)]);
    PlaceAllStep(s2, Arrival(p, c), []);
  }

  lemma InsertPoint()
    ensures Insert([Span(0, 100)], Span(50, 50)) == [Span(0, 100), Span(50, 50)]
    ensures !NeighbourOverlap([Span(0, 100), Span(50, 50)], 60, 70)
  {
    RankUnique([Span(0, 100)], Span(50, 50), 1);
    StartRankUnique([Span(0, 100), Span(50, 50)], 60, 2);
  }

  lemma FirstPocket(x: Span)
    requires Wf(EMPTY)
    ensures Place(Session(EMPTY, map[]), Arrival(Process(0), x))
         == Session(Pocket([x], [x]), map[Process(0) := 1])
  {
    var b := OpenLine(EMPTY, Process(0));
    assert b.grid[Process(0)] == [[]];
    assert Insert([], x) == [x] && [[]][0 := [x]] == [[x]];
    var t := InsertAt(b, Process(0), 1, x);
    assert t.grid == Pocket([x], [x]).grid && t.placed == Pocket([x], [x]).placed;
  }

  lemma PlaceAllStep(s: Session, a: Arrival, rest: seq<Arrival>)
    requires Good(s)
    ensures Good(Place(s, a))
    ensures PlaceAll(s, [a] + rest) == PlaceAll(Place(s, a), rest)
  {
    hide Good, Place;
    PlaceGood(s, a);
    assert ([a] + rest)[1..] == rest;
  }
}
