/** How many lines a layout opens. */
module TraceOptimality {
  import opened SpanContainer
  import opened TraceLayout

  /** The placed spans of a process that are live at instant t, by index. */
  function LiveAt(placed: seq<Placed>, pid: Pid, t: int): set<nat> {
    set i: nat | i < |placed| && placed[i].pid == pid && placed[i].span.start <= t < placed[i].span.end
  }

  /** The spans of a process arrived by start time and all have positive length. */
  ghost predicate InStartOrder(placed: seq<Placed>, pid: Pid) {
    && (forall i :: 0 <= i < |placed| && placed[i].pid == pid ==> placed[i].span.start < placed[i].span.end)
    && (forall i, j :: 0 <= i < j < |placed| && placed[i].pid == pid && placed[j].pid == pid ==>
          placed[i].span.start <= placed[j].span.start)
  }

  // ---------------------------------------------------------------------------
  // Counting

  /** The line numbers 1..n. */
  function Numbers(n: nat): (s: set<nat>)
    ensures |s| == n && forall i :: i in s <==> 1 <= i <= n
  {
    if n == 0 then {} else Numbers(n - 1) + {n}
  }

  function Image(s: set<nat>, f: nat -> nat): set<nat> {
    set i | i in s :: f(i)
  }

  lemma {:induction false} ImageSize(s: set<nat>, f: nat -> nat)
    ensures |Image(s, f)| <= |s|
    ensures (forall i, j :: i in s && j in s && i != j ==> f(i) != f(j)) ==> |Image(s, f)| == |s|
  {
    if s != {} {
      var x :| x in s;
      var r := s - {x};
      ImageSize(r, f);
      assert Image(s, f) == Image(r, f) + {f(x)};
      if forall i, j :: i in s && j in s && i != j ==> f(i) != f(j) {
        assert f(x) !in Image(r, f);
      }
    }
  }

  lemma SubsetSize(a: set<nat>, b: set<nat>)
    requires a <= b
    ensures |a| <= |b|
  {
    assert |b| == |a| + |b - a| by { assert b == a + (b - a); }
  }

  /** Lines of a layout, as a function of the span's index. */
  function LineOf(placed: seq<Placed>): nat -> nat {
    (i: nat) => if i < |placed| then placed[i].line else 0
  }

  // ---------------------------------------------------------------------------
  // Any layout needs as many lines as spans live at once

  /** A layout is valid for a process when spans that share one of its lines are apart. */
  ghost predicate ValidFor(placed: seq<Placed>, pid: Pid, line: nat -> nat) {
    forall i: nat, j: nat ::
      i < j < |placed| && placed[i].pid == pid && placed[j].pid == pid && line(i) == line(j) ==>
      Apart(placed[i].span, placed[j].span)
  }

  lemma LiveNeedLines(placed: seq<Placed>, pid: Pid, line: nat -> nat, t: int)
    requires ValidFor(placed, pid, line)
    ensures |Image(LiveAt(placed, pid, t), line)| == |LiveAt(placed, pid, t)|
  {
    ImageSize(LiveAt(placed, pid, t), line);
  }

  // ---------------------------------------------------------------------------
  // First fit opens a line only when every line is busy

  /** At some instant as many spans of the process are live as it has lines. */
  ghost predicate Tight(b: Board, pid: Pid) {
    pid in b.grid ==> exists t :: |LiveAt(b.placed, pid, t)| >= |b.grid[pid]|
  }

  lemma LiveGrows(placed: seq<Placed>, y: Placed, pid: Pid, t: int)
    ensures |LiveAt(placed + [y], pid, t)| >= |LiveAt(placed, pid, t)|
  {
    SubsetSize(LiveAt(placed, pid, t), LiveAt(placed + [y], pid, t));
  }

  /** A line with no room for x, when nothing on it starts after x, is busy at x's start. */
  lemma BusyAtStart(spans: seq<Span>, x: Span) returns (k: nat)
    requires Sorted(spans) && NeighbourOverlap(spans, x.start, x.end)
    requires forall i :: 0 <= i < |spans| ==> spans[i].start < spans[i].end && spans[i].start <= x.start
    ensures k < |spans| && spans[k].start <= x.start < spans[k].end
  {
    var r := StartRank(spans, x.start);
    k := if r > 0 && spans[r - 1].end > x.start then r - 1 else r;
  }

  lemma CoverCount(live: set<nat>, f: nat -> nat, n: nat)
    requires forall line :: 1 <= line <= n ==> line in Image(live, f)
    ensures |live| >= n
  {
    SubsetSize(Numbers(n), Image(live, f));
    ImageSize(live, f);
  }

  function LineCount(b: Board, pid: Pid): nat {
    if pid in b.grid then |b.grid[pid]| else 0
  }

  /** The new line makes n + 1 lines, and at x's start n + 1 spans are live: one on each. */
  lemma NewLineIsNeeded(b: Board, pid: Pid, x: Span, placed: seq<Placed>)
    requires Wf(b) && x.start < x.end
    requires forall k :: 0 <= k < LineCount(b, pid) ==> NeighbourOverlap(b.grid[pid][k], x.start, x.end)
    requires placed == b.placed + [Placed(pid, LineCount(b, pid) + 1, x)] && InStartOrder(placed, pid)
    ensures |LiveAt(placed, pid, x.start)| >= LineCount(b, pid) + 1
  {
    var n := LineCount(b, pid);
    var live, f := LiveAt(placed, pid, x.start), LineOf(placed);
    forall line | 1 <= line <= n + 1 ensures line in Image(live, f) {
      var i: nat;
      if line <= n {
        i := LiveOnLine(b, pid, line, x, placed);
      } else {
        i := |b.placed|;
      }
      assert i in live && f(i) == line;
    }
    CoverCount(live, f, n + 1);
  }

  lemma LiveOnLine(b: Board, pid: Pid, line: nat, x: Span, placed: seq<Placed>) returns (i: nat)
    requires Wf(b) && HasLine(b, pid, line) && b.placed < placed && placed[|placed| - 1].pid == pid
    requires placed[|placed| - 1].span == x && InStartOrder(placed, pid)
    requires NeighbourOverlap(b.grid[pid][line - 1], x.start, x.end)
    ensures i in LiveAt(placed, pid, x.start) && placed[i].line == line
  {
    var spans := b.grid[pid][line - 1];
    forall k | 0 <= k < |spans| ensures spans[k].start < spans[k].end && spans[k].start <= x.start {
      assert Placed(pid, line, spans[k]) in b.placed;
      var j :| 0 <= j < |b.placed| && b.placed[j] == Placed(pid, line, spans[k]);
      assert placed[j] == b.placed[j];
    }
    var k := BusyAtStart(spans, x);
    assert Placed(pid, line, spans[k]) in b.placed;
    var j :| 0 <= j < |b.placed| && b.placed[j] == Placed(pid, line, spans[k]);
    assert placed[j] == b.placed[j];
    i := j;
  }

  // ---------------------------------------------------------------------------
  // Whole runs

  lemma TightStep(s: Session, a: Arrival, pid: Pid)
    requires Good(s) && Tight(s.board, pid) && InStartOrder(Place(s, a).board.placed, pid)
    ensures Tight(Place(s, a).board, pid)
  {
    PlaceGood(s, a);
    var b, t := s.board, Place(s, a).board;
    var c := FindLine(b, s.status, a.pid, a.span);
    if pid in b.grid && LineCount(t, pid) == LineCount(b, pid) {
      var time :| |LiveAt(b.placed, pid, time)| >= |b.grid[pid]|;
      LiveGrows(b.placed, Placed(a.pid, c.line, a.span), pid, time);
    } else if a.pid == pid {
      NewLineIsNeeded(b, pid, a.span, t.placed);
    }
  }

  lemma OrderPrefix(a: seq<Placed>, b: seq<Placed>, pid: Pid)
    requires a <= b && InStartOrder(b, pid)
    ensures InStartOrder(a, pid)
  {
    assert forall i :: 0 <= i < |a| ==> a[i] == b[i];
  }

  lemma {:induction false} SessionTight(s: Session, arrivals: seq<Arrival>, pid: Pid)
    requires Good(s) && Tight(s.board, pid) && InStartOrder(PlaceAll(s, arrivals).board.placed, pid)
    ensures Tight(PlaceAll(s, arrivals).board, pid)
    decreases |arrivals|
  {
    hide Good, Place, Tight, InStartOrder;
    if arrivals != [] {
      PlaceGood(s, arrivals[0]);
      var t := Place(s, arrivals[0]);
      PlaceAllPrefix(t, arrivals[1..]);
      OrderPrefix(t.board.placed, PlaceAll(s, arrivals).board.placed, pid);
      TightStep(s, arrivals[0], pid);
      SessionTight(t, arrivals[1..], pid);
    }
  }

  lemma {:induction false} LayOutTight(b: Board, requests: seq<seq<Arrival>>, pid: Pid)
    requires Wf(b) && Tight(b, pid) && InStartOrder(LayOut(b, requests).placed, pid)
    ensures Tight(LayOut(b, requests), pid)
    decreases |requests|
  {
    hide Wf, Good, PlaceAll, Tight, InStartOrder;
    if requests != [] {
      FreshGood(b);
      var s := PlaceAll(Session(b, map[]), requests[0]);
      GoodWf(s);
      LayOutPrefix(s.board, requests[1..]);
      OrderPrefix(s.board.placed, LayOut(b, requests).placed, pid);
      SessionTight(Session(b, map[]), requests[0], pid);
      LayOutTight(s.board, requests[1..], pid);
    }
  }

  /** The spans of a process arrive by start time and all have positive length. */
  ghost predicate ByStart(arrivals: seq<Arrival>, pid: Pid) {
    && (forall i :: 0 <= i < |arrivals| && arrivals[i].pid == pid ==> arrivals[i].span.start < arrivals[i].span.end)
    && (forall i, j :: 0 <= i < j < |arrivals| && arrivals[i].pid == pid && arrivals[j].pid == pid ==>
          arrivals[i].span.start <= arrivals[j].span.start)
  }

  lemma PlacedInOrder(placed: seq<Placed>, pid: Pid)
    requires ByStart(Arrivals(placed), pid)
    ensures InStartOrder(placed, pid)
  {
    assert forall i :: 0 <= i < |placed| ==> Arrivals(placed)[i] == Arrival(placed[i].pid, placed[i].span);
  }

  lemma OwnLayoutValid(requests: seq<seq<Arrival>>, pid: Pid)
    requires ByStart(Flatten(requests), pid)
    ensures var placed := Layout(requests).placed; ValidFor(placed, pid, LineOf(placed))
  {
    hide Layout, Flatten, AllShortcutsClear;
    LayoutApartIff(requests, pid);
    ApartIsValid(Layout(requests).placed, pid);
  }

  lemma ApartIsValid(placed: seq<Placed>, pid: Pid)
    requires LinesApart(placed, pid)
    ensures ValidFor(placed, pid, LineOf(placed))
  {
  }

  /** All spans of a process, by index. */
  function SpansOf(placed: seq<Placed>, pid: Pid): set<nat> {
    set i: nat | i < |placed| && placed[i].pid == pid
  }

  /** The lines of the process are as many as its spans live at some instant, and no assignment of
      lines that keeps its spans apart uses fewer. */
  ghost predicate Fewest(b: Board, pid: Pid) {
    var n := LineCount(b, pid);
    && (forall t :: |LiveAt(b.placed, pid, t)| <= n)
    && (n > 0 ==> exists t :: |LiveAt(b.placed, pid, t)| == n)
    && (forall other: nat -> nat :: ValidFor(b.placed, pid, other) ==>
          |Image(SpansOf(b.placed, pid), other)| >= n)
  }

  /**
   When a process's spans arrive by start time and have positive length, whatever the other
   processes do: the number of its lines is the largest number of its spans live at one
   instant, and no assignment of lines that keeps these spans apart uses fewer.
   */
  lemma LinesAreFewest(requests: seq<seq<Arrival>>, pid: Pid)
    requires ByStart(Flatten(requests), pid)
    ensures Fewest(Layout(requests), pid)
  {
    hide LayOut, Layout, ByStart, Wf;
    var b := Layout(requests);
    LayoutTight(requests, pid);
    OwnLayoutValid(requests, pid);
    forall t ensures |LiveAt(b.placed, pid, t)| <= LineCount(b, pid) {
      LiveFitsLines(b, pid, t);
    }
    if pid in b.grid {
      var time :| |LiveAt(b.placed, pid, time)| >= |b.grid[pid]|;
      forall other: nat -> nat | ValidFor(b.placed, pid, other)
        ensures |Image(SpansOf(b.placed, pid), other)| >= |b.grid[pid]|
      {
        LiveNeedLines(b.placed, pid, other, time);
        SubsetSize(Image(LiveAt(b.placed, pid, time), other), Image(SpansOf(b.placed, pid), other));
      }
    }
  }

  lemma LayoutTight(requests: seq<seq<Arrival>>, pid: Pid)
    requires ByStart(Flatten(requests), pid)
    ensures Tight(Layout(requests), pid)
  {
    hide LayOut, ByStart, Wf, InStartOrder;
    EmptyWf();
    LayoutIsComplete(requests);
    PlacedInOrder(Layout(requests).placed, pid);
    LayOutTight(EMPTY, requests, pid);
  }

  lemma LiveFitsLines(b: Board, pid: Pid, t: int)
    requires Wf(b) && ValidFor(b.placed, pid, LineOf(b.placed))
    ensures |LiveAt(b.placed, pid, t)| <= LineCount(b, pid)
  {
    var live, f := LiveAt(b.placed, pid, t), LineOf(b.placed);
    LiveNeedLines(b.placed, pid, f, t);
    forall line | line in Image(live, f) ensures 1 <= line <= LineCount(b, pid) {
      var i :| i in live && f(i) == line;
      assert Placed(pid, line, b.placed[i].span) in b.placed;
    }
    SubsetSize(Image(live, f), Numbers(LineCount(b, pid)));
  }
}
