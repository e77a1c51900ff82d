/** Exactly when spans of positive length come to overlap on one line. */
module TraceHiding {
  import opened SpanContainer
  import opened TraceLayout

  predicate Positive(x: Span) {
    x.start < x.end
  }

  /** Spans of positive length that share a line of the process are apart in time. */
  ghost predicate PositiveApart(placed: seq<Placed>, pid: Pid) {
    forall j :: 0 <= j < |placed| && placed[j].pid == pid && Positive(placed[j].span) ==>
      ClearBefore(placed[..j], pid, placed[j].line, placed[j].span)
  }

  /** x is apart from every span of positive length on the line. */
  ghost predicate ClearBefore(placed: seq<Placed>, pid: Pid, line: nat, x: Span) {
    forall i :: 0 <= i < |placed| && placed[i].pid == pid && placed[i].line == line && Positive(placed[i].span) ==>
      Apart(placed[i].span, x)
  }

  // ---------------------------------------------------------------------------
  // One line

  /** The neighbour the check looks at has ended when x starts, and a span before it has not. */
  predicate Hides(spans: seq<Span>, x: Span) {
    var r := StartRank(spans, x.start);
    r > 0 && spans[r - 1].end <= x.start && exists i :: 0 <= i < r - 1 && spans[i].end > x.start
  }

  predicate SomeMeets(spans: seq<Span>, x: Span) {
    exists k :: 0 <= k < |spans| && Positive(spans[k]) && Meets(spans[k], x)
  }

  /** A checked span of positive length overlaps one of positive length if and only if the neighbour hides it. */
  lemma ClearMeetsIff(spans: seq<Span>, x: Span)
    requires Sorted(spans) && Positive(x) && !NeighbourOverlap(spans, x.start, x.end)
    ensures Hides(spans, x) <==> SomeMeets(spans, x)
  {
    SplitByStart(spans, x.start);
    var r := StartRank(spans, x.start);
    forall k | r <= k < |spans| ensures x.end <= spans[k].start {
      assert r < k ==> !Less(spans[k], spans[r]);
    }
    if Hides(spans, x) {
      var i :| 0 <= i < r - 1 && spans[i].end > x.start;
      assert Positive(spans[i]) && Meets(spans[i], x);
    }
    if k :| 0 <= k < |spans| && Positive(spans[k]) && Meets(spans[k], x) {
      assert k < r - 1;
    }
  }

  // ---------------------------------------------------------------------------
  // One arrival

  /** No span still running is hidden when the arrival is put on its line. */
  ghost predicate Unhidden(s: Session, a: Arrival)
    requires Good(s)
  {
    FindLineWf(s.board, s.status, a.pid, a.span);
    var c := FindLine(s.board, s.status, a.pid, a.span);
    Positive(a.span) ==> !Hides(c.board.grid[a.pid][c.line - 1], a.span)
  }

  lemma LastPositive(placed: seq<Placed>, p: Placed, pid: Pid)
    requires PositiveApart(placed, pid)
    ensures PositiveApart(placed + [p], pid) <==>
            (p.pid == pid && Positive(p.span) ==> ClearBefore(placed, pid, p.line, p.span))
  {
    hide ClearBefore;
    var after, n := placed + [p], |placed|;
    assert forall j :: 0 <= j < n ==> after[j] == placed[j] && after[..j] == placed[..j];
    assert after[n] == p && after[..n] == placed;
  }

  /** The log and the line say the same about overlaps. */
  lemma OnLine(b: Board, pid: Pid, line: nat, x: Span)
    requires Recorded(b) && HasLine(b, pid, line)
    ensures ClearBefore(b.placed, pid, line, x) <==> !SomeMeets(b.grid[pid][line - 1], x)
  {
    var spans, placed := b.grid[pid][line - 1], b.placed;
    forall k | 0 <= k < |spans| ensures exists i :: 0 <= i < |placed| && placed[i] == Placed(pid, line, spans[k]) {
      assert Placed(pid, line, spans[k]) in placed;
    }
    forall i | 0 <= i < |placed| && placed[i].pid == pid && placed[i].line == line
      ensures exists k :: 0 <= k < |spans| && spans[k] == placed[i].span
    {
      assert Placed(pid, line, placed[i].span) in placed;
    }
  }

  lemma ChosenLineFacts(s: Session, a: Arrival)
    requires Good(s) && Positive(a.span)
    ensures var c := FindLine(s.board, s.status, a.pid, a.span);
            && Wf(c.board) && HasLine(c.board, a.pid, c.line) && c.board.placed == s.board.placed
            && !NeighbourOverlap(c.board.grid[a.pid][c.line - 1], a.span.start, a.span.end)
  {
    hide Wf, NeighbourOverlap, FirstClear;
    FindLineWf(s.board, s.status, a.pid, a.span);
    FindLineClear(s, a);
  }

  lemma ChosenLine(s: Session, a: Arrival)
    requires Good(s) && Positive(a.span)
    ensures var c := FindLine(s.board, s.status, a.pid, a.span);
            && HasLine(c.board, a.pid, c.line)
            && (ClearBefore(s.board.placed, a.pid, c.line, a.span) <==> !Hides(c.board.grid[a.pid][c.line - 1], a.span))
  {
    hide ClearBefore, SomeMeets, Hides, FindLine, NeighbourOverlap, Recorded, SortedLines, OneSlotEach;
    ChosenLineFacts(s, a);
    var c := FindLine(s.board, s.status, a.pid, a.span);
    LineSorted(c.board, a.pid, c.line - 1);
    OnLine(c.board, a.pid, c.line, a.span);
    ClearMeetsIff(c.board.grid[a.pid][c.line - 1], a.span);
  }

  lemma PlacePositive(s: Session, a: Arrival, pid: Pid)
    requires Good(s) && PositiveApart(s.board.placed, pid)
    ensures PositiveApart(Place(s, a).board.placed, pid) <==> (a.pid == pid ==> Unhidden(s, a))
  {
    hide PositiveApart, Place, Hides, Wf, ClearBefore, FindLine;
    PlaceGood(s, a);
    LastPositive(s.board.placed, Placed(a.pid, FindLine(s.board, s.status, a.pid, a.span).line, a.span), pid);
    if a.pid == pid && Positive(a.span) {
      ChosenLine(s, a);
    }
  }

  // ---------------------------------------------------------------------------
  // Whole runs

  ghost predicate SessionUnhidden(s: Session, arrivals: seq<Arrival>, pid: Pid)
    requires Good(s)
    decreases |arrivals|
  {
    arrivals == [] ||
    (PlaceGood(s, arrivals[0]);
     && (arrivals[0].pid == pid ==> Unhidden(s, arrivals[0]))
     && SessionUnhidden(Place(s, arrivals[0]), arrivals[1..], pid))
  }

  ghost predicate RunUnhidden(b: Board, requests: seq<seq<Arrival>>, pid: Pid)
    requires Wf(b)
    decreases |requests|
  {
    requests == [] ||
    (SessionUnhidden(Session(b, map[]), requests[0], pid) &&
     RunUnhidden(PlaceAll(Session(b, map[]), requests[0]).board, requests[1..], pid))
  }

  lemma PositivePrefix(a: seq<Placed>, b: seq<Placed>, pid: Pid)
    requires a <= b && !PositiveApart(a, pid)
    ensures !PositiveApart(b, pid)
  {
    assert forall j :: 0 <= j < |a| ==> a[j] == b[j] && a[..j] == b[..j];
  }

  lemma {:induction false} SessionPositive(s: Session, arrivals: seq<Arrival>, pid: Pid)
    requires Good(s) && PositiveApart(s.board.placed, pid)
    ensures PositiveApart(PlaceAll(s, arrivals).board.placed, pid) <==> SessionUnhidden(s, arrivals, pid)
    decreases |arrivals|
  {
    hide Good, Place, Unhidden, PositiveApart;
    if arrivals != [] {
      var a, rest := arrivals[0], arrivals[1..];
      PlaceGood(s, a);
      PlacePositive(s, a, pid);
      var t := Place(s, a);
      if PositiveApart(t.board.placed, pid) {
        SessionPositive(t, rest, pid);
      } else {
        PlaceAllPrefix(t, rest);
        PositivePrefix(t.board.placed, PlaceAll(t, rest).board.placed, pid);
      }
    }
  }

  lemma {:induction false} RunPositive(b: Board, requests: seq<seq<Arrival>>, pid: Pid)
    requires Wf(b) && PositiveApart(b.placed, pid)
    ensures PositiveApart(LayOut(b, requests).placed, pid) <==> RunUnhidden(b, requests, pid)
    decreases |requests|
  {
    hide Wf, Good, SessionUnhidden, PlaceAll, PositiveApart;
    if requests != [] {
      FreshGood(b);
      var s := PlaceAll(Session(b, map[]), requests[0]);
      GoodWf(s);
      SessionPositive(Session(b, map[]), requests[0], pid);
      if PositiveApart(s.board.placed, pid) {
        RunPositive(s.board, requests[1..], pid);
      } else {
        LayOutPrefix(s.board, requests[1..]);
        PositivePrefix(s.board.placed, LayOut(s.board, requests[1..]).placed, pid);
      }
    }
  }

  ghost predicate NeverHidden(requests: seq<seq<Arrival>>, pid: Pid) {
    EmptyWf();
    RunUnhidden(EMPTY, requests, pid)
  }

  /**
   Over a whole layout, spans of positive length never overlap on a line of the process if and only
   if none of them was put on a line where the neighbour the check looks at hides a span still
   running; in particular whenever every unchecked shortcut would have passed the check.
   */
  lemma PositiveApartIff(requests: seq<seq<Arrival>>, pid: Pid)
    ensures PositiveApart(Layout(requests).placed, pid) <==> NeverHidden(requests, pid)
    ensures AllShortcutsClear(requests, pid) ==> NeverHidden(requests, pid)
  {
    hide LayOut, RunUnhidden, ShortcutsClear, Wf;
    EmptyWf();
    RunPositive(EMPTY, requests, pid);
    LayoutApartIff(requests, pid);
  }
}
