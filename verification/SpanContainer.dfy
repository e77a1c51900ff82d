/**
 SpanLayoutContainer of scripts/convert_otel_2_perfetto.py: the spans drawn on one line of a
 trace, kept sorted so that an overlap shows at one of two neighbours.
 */
module SpanContainer {

  datatype Span = Span(start: int, end: int)

  /** The order of Python tuples. */
  predicate Less(a: Span, b: Span) {
    a.start < b.start || (a.start == b.start && a.end < b.end)
  }

  predicate Sorted(s: seq<Span>) {
    forall i, j :: 0 <= i < j < |s| ==> !Less(s[j], s[i])
  }

  /** Spans follow each other: each ends before any later one starts.  Lengths may be negative. */
  predicate Chain(s: seq<Span>) {
    forall i, j :: 0 <= i < j < |s| ==> s[i].end <= s[j].start
  }

  // ---------------------------------------------------------------------------
  // Specification

  /** How many leading spans start before `start`: bisect_left for (start, -inf). */
  function StartRank(s: seq<Span>, start: int): (r: nat)
    ensures r <= |s|
    ensures forall i :: 0 <= i < r ==> s[i].start < start
    ensures r < |s| ==> s[r].start >= start
  {
    if s == [] || s[0].start >= start then 0 else 1 + StartRank(s[1..], start)
  }

  /** How many leading spans are below x: bisect_left for x. */
  function Rank(s: seq<Span>, x: Span): (r: nat)
    ensures r <= |s|
    ensures forall i :: 0 <= i < r ==> Less(s[i], x)
    ensures r < |s| ==> !Less(s[r], x)
  {
    if s == [] || !Less(s[0], x) then 0 else 1 + Rank(s[1..], x)
  }

  /** What check_overlap looks at: the last span starting before `start` and the one after it. */
  predicate NeighbourOverlap(s: seq<Span>, start: int, end: int) {
    var i := StartRank(s, start);
    (i > 0 && s[i - 1].end > start) || (i < |s| && s[i].start < end)
  }

  function Insert(s: seq<Span>, x: Span): seq<Span> {
    s[..Rank(s, x)] + [x] + s[Rank(s, x)..]
  }

  /** The overlap of two spans, as a scan over all of them would look for it. */
  predicate Meets(a: Span, b: Span) {
    a.start < b.end && b.start < a.end
  }

  // ---------------------------------------------------------------------------
  // Insertion

  lemma InsertSorted(s: seq<Span>, x: Span)
    requires Sorted(s)
    ensures Sorted(Insert(s, x)) && multiset(Insert(s, x)) == multiset(s) + multiset{x}
  {
    RankSplits(s, x);
    SortedAround(s, x, Rank(s, x));
    BagAround(s, x, Rank(s, x));
  }

  lemma RankSplits(s: seq<Span>, x: Span)
    requires Sorted(s)
    ensures forall i :: Rank(s, x) <= i < |s| ==> !Less(s[i], x)
  {
    var r := Rank(s, x);
    forall i | r <= i < |s| ensures !Less(s[i], x) {
      assert r < i ==> !Less(s[i], s[r]);
    }
  }

  lemma BagAround(s: seq<Span>, x: Span, r: nat)
    requires r <= |s|
    ensures multiset(s[..r] + [x] + s[r..]) == multiset(s) + multiset{x}
  {
    assert s == s[..r] + s[r..];
  }

  lemma SortedAround(s: seq<Span>, x: Span, r: nat)
    requires Sorted(s) && r <= |s|
    requires forall i :: 0 <= i < r ==> Less(s[i], x)
    requires forall i :: r <= i < |s| ==> !Less(s[i], x)
    ensures Sorted(s[..r] + [x] + s[r..])
  {
    hide Less;
    var t := s[..r] + [x] + s[r..];
    forall i, j | 0 <= i < j < |t| ensures !Less(t[j], t[i]) {
      var lo := if i < r then s[i] else if i == r then x else s[i - 1];
      var hi := if j < r then s[j] else if j == r then x else s[j - 1];
      assert t[i] == lo && t[j] == hi;
      NotBoth(s[if i < r then i else 0], x);
    }
  }

  lemma NotBoth(a: Span, b: Span)
    ensures !(Less(a, b) && Less(b, a))
  {
  }

  lemma InsertMembers(s: seq<Span>, x: Span, y: Span)
    ensures y in Insert(s, x) <==> y == x || y in s
  {
    var r := Rank(s, x);
    assert s == s[..r] + s[r..];
  }

  lemma SplitByStart(s: seq<Span>, start: int)
    requires Sorted(s)
    ensures forall i :: StartRank(s, start) <= i < |s| ==> s[i].start >= start
  {
    var r := StartRank(s, start);
    assert forall i :: r < i < |s| ==> !Less(s[i], s[r]);
  }

  /** A clear check means x is apart from every stored span, not only from its two neighbours. */
  lemma ClearOfAll(s: seq<Span>, x: Span, i: nat)
    requires Sorted(s) && Chain(s) && !NeighbourOverlap(s, x.start, x.end) && i < |s|
    ensures if i < StartRank(s, x.start) then s[i].end <= x.start else x.end <= s[i].start
  {
    SplitByStart(s, x.start);
    var r := StartRank(s, x.start);
    assert i < r - 1 ==> s[i].end <= s[r - 1].start;
    assert r < i ==> !Less(s[i], s[r]);
  }

  /** Spans with x's own start go before x only if they end before it. */
  lemma RankAfterStart(s: seq<Span>, x: Span)
    requires Sorted(s)
    ensures StartRank(s, x.start) <= Rank(s, x)
    ensures forall i :: StartRank(s, x.start) <= i < Rank(s, x) ==> s[i].start == x.start && s[i].end < x.end
  {
    SplitByStart(s, x.start);
    var r := Rank(s, x);
    assert r < |s| ==> s[r].start >= x.start;
  }

  lemma ClearSides(s: seq<Span>, x: Span, i: nat)
    requires Sorted(s) && Chain(s) && !NeighbourOverlap(s, x.start, x.end) && i < |s|
    ensures if i < Rank(s, x) then s[i].end <= x.start else x.end <= s[i].start
  {
    ClearOfAll(s, x, i);
    RankAfterStart(s, x);
  }

  lemma ChainAround(s: seq<Span>, x: Span, r: nat)
    requires Chain(s) && r <= |s|
    requires forall i :: 0 <= i < |s| ==> if i < r then s[i].end <= x.start else x.end <= s[i].start
    ensures Chain(s[..r] + [x] + s[r..])
  {
  }

  /** Inserting after a clear check keeps the chain, whatever the lengths. */
  lemma ClearInsertKeepsChain(s: seq<Span>, x: Span)
    requires Sorted(s) && Chain(s) && !NeighbourOverlap(s, x.start, x.end)
    ensures Chain(Insert(s, x))
  {
    forall i | 0 <= i < |s|
      ensures if i < Rank(s, x) then s[i].end <= x.start else x.end <= s[i].start
    {
      ClearSides(s, x, i);
    }
    ChainAround(s, x, Rank(s, x));
  }

  /** With positive lengths throughout, check_overlap is exactly the scan. */
  lemma CheckIsScan(s: seq<Span>, x: Span)
    requires Sorted(s) && Chain(s) && x.start < x.end
    requires forall i :: 0 <= i < |s| ==> s[i].start < s[i].end
    ensures NeighbourOverlap(s, x.start, x.end) <==> exists i :: 0 <= i < |s| && Meets(s[i], x)
  {
    if NeighbourOverlap(s, x.start, x.end) {
      var r := StartRank(s, x.start);
      if r > 0 && s[r - 1].end > x.start {
        assert Meets(s[r - 1], x);
      } else {
        assert Meets(s[r], x);
      }
    } else {
      forall i | 0 <= i < |s| ensures !Meets(s[i], x) {
        ClearOfAll(s, x, i);
      }
    }
  }

  /** A zero-length span inserted unchecked keeps the chain if and only if the check would have been clear. */
  lemma PointKeepsChainIffClear(s: seq<Span>, p: int)
    requires Sorted(s) && Chain(s)
    ensures Chain(Insert(s, Span(p, p))) <==> !NeighbourOverlap(s, p, p)
  {
    var x := Span(p, p);
    if NeighbourOverlap(s, p, p) {
      var k, t := StartRank(s, p), Insert(s, x);
      RankAfterStart(s, x);
      var r := Rank(s, x);
      assert t[k - 1] == s[k - 1] && t[r] == x;
    } else {
      ClearInsertKeepsChain(s, x);
    }
  }

  // ---------------------------------------------------------------------------
  // The container

  lemma {:induction false} StartRankUnique(s: seq<Span>, start: int, r: nat)
    requires r <= |s|
    requires forall i :: 0 <= i < r ==> s[i].start < start
    requires forall i :: r <= i < |s| ==> s[i].start >= start
    ensures r == StartRank(s, start)
  {
    if r > 0 {
      StartRankUnique(s[1..], start, r - 1);
    }
  }

  lemma {:induction false} RankUnique(s: seq<Span>, x: Span, r: nat)
    requires r <= |s|
    requires forall i :: 0 <= i < r ==> Less(s[i], x)
    requires forall i :: r <= i < |s| ==> !Less(s[i], x)
    ensures r == Rank(s, x)
  {
    if r > 0 {
      RankUnique(s[1..], x, r - 1);
    }
  }

  /** bisect.bisect_left over the starts. */
  method BisectStart(s: seq<Span>, start: int) returns (r: nat)
    requires Sorted(s)
    ensures r == StartRank(s, start)
  {
    var lo, hi := 0, |s|;
    while lo < hi
      invariant 0 <= lo <= hi <= |s|
      invariant forall i :: 0 <= i < lo ==> s[i].start < start
      invariant forall i :: hi <= i < |s| ==> s[i].start >= start
    {
      var mid := (lo + hi) / 2;
      assert forall i :: 0 <= i < mid ==> !Less(s[mid], s[i]);
      assert forall i :: mid < i < |s| ==> !Less(s[i], s[mid]);
      if s[mid].start < start {
        lo := mid + 1;
      } else {
        hi := mid;
      }
    }
    r := lo;
    StartRankUnique(s, start, r);
  }

  /** bisect.bisect_left over whole spans, as insort_left uses it. */
  method Bisect(s: seq<Span>, x: Span) returns (r: nat)
    requires Sorted(s)
    ensures r == Rank(s, x)
  {
    var lo, hi := 0, |s|;
    while lo < hi
      invariant 0 <= lo <= hi <= |s|
      invariant forall i :: 0 <= i < lo ==> Less(s[i], x)
      invariant forall i :: hi <= i < |s| ==> !Less(s[i], x)
    {
      var mid := (lo + hi) / 2;
      assert forall i :: 0 <= i < mid ==> !Less(s[mid], s[i]);
      assert forall i :: mid < i < |s| ==> !Less(s[i], s[mid]);
      if Less(s[mid], x) {
        lo := mid + 1;
      } else {
        hi := mid;
      }
    }
    r := lo;
    RankUnique(s, x, r);
  }

  class SpanLayoutContainer {
    var intervals: seq<Span>

    constructor ()
      ensures intervals == []
    {
      intervals := [];
    }

    method CheckOverlap(start: int, end: int) returns (hit: bool)
      requires Sorted(intervals)
      ensures hit == NeighbourOverlap(intervals, start, end)
    {
      var i := BisectStart(intervals, start);
      if i > 0 && intervals[i - 1].end > start {
        return true;
      }
      if i < |intervals| && intervals[i].start < end {
        return true;
      }
      return false;
    }

    method InsertSpan(start: int, end: int)
      requires Sorted(intervals)
      modifies this
      ensures intervals == Insert(old(intervals), Span(start, end)) && Sorted(intervals)
    {
      var x := Span(start, end);
      InsertSorted(intervals, x);
      var i := Bisect(intervals, x);
      intervals := intervals[..i] + [x] + intervals[i..];
    }
  }
}
