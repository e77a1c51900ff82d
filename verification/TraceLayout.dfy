/**
 The line assignment of scripts/convert_otel_2_perfetto.py: every top-level span of a process
 gets the first line on which it overlaps nothing, preferring the line its request used last.
 */
module TraceLayout {
  import opened SpanContainer

  /** Engine spans carry a process id; the gateway's spans share one pseudo process. */
  datatype Pid = Process(id: int) | Smg

  datatype Arrival = Arrival(pid: Pid, span: Span)

  /** A span and the line (tid) it was given. */
  datatype Placed = Placed(pid: Pid, line: nat, span: Span)

  /** `grid[pid][k]` holds the spans of line k + 1, `slots` the slot records, `placed` the outcome. */
  datatype Board = Board(grid: map<Pid, seq<seq<Span>>>, slots: seq<(Pid, nat)>, placed: seq<Placed>)

  const EMPTY := Board(map[], [], [])

  /** The line each process was last given within one request. */
  type Status = map<Pid, nat>

  datatype Choice = Choice(line: nat, board: Board, status: Status)

  // ---------------------------------------------------------------------------
  // Specification

  predicate HasLine(b: Board, pid: Pid, line: nat) {
    pid in b.grid && 1 <= line <= |b.grid[pid]|
  }

  ghost predicate Remembered(b: Board, st: Status) {
    forall pid :: pid in st ==> HasLine(b, pid, st[pid])
  }

  /** The index of the first line on which x overlaps nothing, or the number of lines. */
  function FirstClear(lines: seq<seq<Span>>, x: Span): (k: nat)
    ensures k <= |lines|
    ensures forall i :: 0 <= i < k ==> NeighbourOverlap(lines[i], x.start, x.end)
    ensures k < |lines| ==> !NeighbourOverlap(lines[k], x.start, x.end)
  {
    if lines == [] || !NeighbourOverlap(lines[0], x.start, x.end) then 0 else 1 + FirstClear(lines[1..], x)
  }

  function OpenLine(b: Board, pid: Pid): Board {
    var lines := if pid in b.grid then b.grid[pid] else [];
    b.(grid := b.grid[pid := lines + [[]]], slots := b.slots + [(pid, |lines| + 1)])
  }

  /** The remembered line serves a zero-length span unchecked, and any other span if it is clear. */
  predicate KeepsLine(b: Board, st: Status, pid: Pid, x: Span)
    requires pid in st ==> HasLine(b, pid, st[pid])
  {
    pid in st && (x.start == x.end || !NeighbourOverlap(b.grid[pid][st[pid] - 1], x.start, x.end))
  }

  function FindLine(b: Board, st: Status, pid: Pid, x: Span): Choice
    requires pid in st ==> HasLine(b, pid, st[pid])
  {
    if KeepsLine(b, st, pid, x) then Choice(st[pid], b, st)
    else
      var lines := if pid in b.grid then b.grid[pid] else [];
      var k := FirstClear(lines, x);
      Choice(k + 1, if k < |lines| then b else OpenLine(b, pid), st[pid := k + 1])
  }

  function InsertAt(b: Board, pid: Pid, line: nat, x: Span): Board
    requires HasLine(b, pid, line)
  {
    var lines := b.grid[pid];
    b.(grid := b.grid[pid := lines[line - 1 := Insert(lines[line - 1], x)]],
       placed := b.placed + [Placed(pid, line, x)])
  }

  // ---------------------------------------------------------------------------
  // What every board keeps

  ghost predicate SortedLines(b: Board) {
    forall pid :: pid in b.grid ==> |b.grid[pid]| >= 1 && forall k :: 0 <= k < |b.grid[pid]| ==> Sorted(b.grid[pid][k])
  }

  /** The lines hold exactly the placed spans. */
  ghost predicate Recorded(b: Board) {
    forall pid, line: nat, x ::
      Placed(pid, line, x) in b.placed <==> HasLine(b, pid, line) && x in b.grid[pid][line - 1]
  }

  /** The lines of a process are 1..n, and each has exactly one slot record. */
  ghost predicate OneSlotEach(b: Board) {
    forall pid, line: nat :: multiset(b.slots)[(pid, line)] == if HasLine(b, pid, line) then 1 else 0
  }

  ghost predicate Wf(b: Board) {
    SortedLines(b) && Recorded(b) && OneSlotEach(b)
  }

  ghost predicate Chained(b: Board, pid: Pid) {
    pid in b.grid ==> forall k :: 0 <= k < |b.grid[pid]| ==> Chain(b.grid[pid][k])
  }

  predicate Apart(a: Span, b: Span) {
    a.end <= b.start || b.end <= a.start
  }

  /** Spans of the process on one line are apart in time. */
  ghost predicate LinesApart(placed: seq<Placed>, pid: Pid) {
    forall i, j :: 0 <= i < j < |placed| && placed[i].pid == pid == placed[j].pid && placed[i].line == placed[j].line ==>
      Apart(placed[i].span, placed[j].span)
  }

  lemma OpenLineWf(b: Board, pid: Pid)
    requires Wf(b)
    ensures Wf(OpenLine(b, pid))
  {
    var b' := OpenLine(b, pid);
    var n := if pid in b.grid then |b.grid[pid]| else 0;
    assert forall p, l: nat :: HasLine(b', p, l) <==> HasLine(b, p, l) || (p == pid && l == n + 1);
    OpenLineRecorded(b, pid);
  }

  lemma OpenLineRecorded(b: Board, pid: Pid)
    requires Recorded(b)
    ensures Recorded(OpenLine(b, pid))
  {
    var b' := OpenLine(b, pid);
    forall p, l: nat, x
      ensures Placed(p, l, x) in b'.placed <==> HasLine(b', p, l) && x in b'.grid[p][l - 1]
    {
      assert Placed(p, l, x) in b.placed <==> HasLine(b, p, l) && x in b.grid[p][l - 1];
    }
  }

  lemma InsertAtRecorded(b: Board, pid: Pid, line: nat, x: Span)
    requires Recorded(b) && HasLine(b, pid, line)
    ensures Recorded(InsertAt(b, pid, line, x))
  {
    var b' := InsertAt(b, pid, line, x);
    forall p, l: nat, y
      ensures Placed(p, l, y) in b'.placed <==> HasLine(b', p, l) && y in b'.grid[p][l - 1]
    {
      InsertMembers(b.grid[pid][line - 1], x, y);
      assert Placed(p, l, y) in b'.placed <==> Placed(p, l, y) in b.placed || Placed(p, l, y) == Placed(pid, line, x);
    }
  }

  lemma InsertAtWf(b: Board, pid: Pid, line: nat, x: Span)
    requires Wf(b) && HasLine(b, pid, line)
    ensures Wf(InsertAt(b, pid, line, x))
  {
    InsertAtRecorded(b, pid, line, x);
    InsertSorted(b.grid[pid][line - 1], x);
    var b' := InsertAt(b, pid, line, x);
    assert forall p, l: nat :: HasLine(b', p, l) <==> HasLine(b, p, l);
  }

  lemma LineSorted(b: Board, pid: Pid, k: nat)
    requires Wf(b) && pid in b.grid && k < |b.grid[pid]|
    ensures Sorted(b.grid[pid][k])
  {
  }

  // ---------------------------------------------------------------------------
  // One arrival

  datatype Session = Session(board: Board, status: Status)

  ghost predicate Good(s: Session) {
    Wf(s.board) && Remembered(s.board, s.status)
  }

  ghost function Place(s: Session, a: Arrival): Session
    requires Good(s)
  {
    var c := FindLine(s.board, s.status, a.pid, a.span);
    FindLineWf(s.board, s.status, a.pid, a.span);
    Session(InsertAt(c.board, a.pid, c.line, a.span), c.status)
  }

  /** The chosen line exists, and it and every remembered line keep existing. */
  lemma FindLineWf(b: Board, st: Status, pid: Pid, x: Span)
    requires Wf(b) && Remembered(b, st)
    ensures var c := FindLine(b, st, pid, x);
            Wf(c.board) && Remembered(c.board, c.status) && HasLine(c.board, pid, c.line)
  {
    OpenLineWf(b, pid);
  }

  lemma PlaceGood(s: Session, a: Arrival)
    requires Good(s)
    ensures Good(Place(s, a))
    ensures Place(s, a).board.placed
         == s.board.placed + [Placed(a.pid, FindLine(s.board, s.status, a.pid, a.span).line, a.span)]
  {
    var c := FindLine(s.board, s.status, a.pid, a.span);
    FindLineWf(s.board, s.status, a.pid, a.span);
    InsertAtWf(c.board, a.pid, c.line, a.span);
  }

  /** The start == end shortcut, when it is taken, would have passed the check. */
  ghost predicate ShortcutClear(s: Session, a: Arrival)
    requires Good(s)
  {
    a.span.start == a.span.end && a.pid in s.status ==>
      !NeighbourOverlap(s.board.grid[a.pid][s.status[a.pid] - 1], a.span.start, a.span.end)
  }

  /** But for an unclear shortcut, a span is only ever put where the check is clear. */
  lemma FindLineClear(s: Session, a: Arrival)
    requires Good(s) && ShortcutClear(s, a)
    ensures var c := FindLine(s.board, s.status, a.pid, a.span);
            && HasLine(c.board, a.pid, c.line)
            && !NeighbourOverlap(c.board.grid[a.pid][c.line - 1], a.span.start, a.span.end)
  {
    FindLineWf(s.board, s.status, a.pid, a.span);
  }

  lemma FindLineChained(b: Board, st: Status, pid: Pid, x: Span)
    requires Wf(b) && Remembered(b, st) && Chained(b, pid)
    ensures var c := FindLine(b, st, pid, x); Chained(c.board, pid) && c.board.placed == b.placed
  {
  }

  lemma InsertAtChained(b: Board, pid: Pid, line: nat, x: Span)
    requires HasLine(b, pid, line) && SortedLines(b) && Chained(b, pid)
    requires !NeighbourOverlap(b.grid[pid][line - 1], x.start, x.end)
    ensures Chained(InsertAt(b, pid, line, x), pid)
  {
    ClearInsertKeepsChain(b.grid[pid][line - 1], x);
  }

  lemma InsertAtApart(b: Board, pid: Pid, line: nat, x: Span)
    requires HasLine(b, pid, line) && Sorted(b.grid[pid][line - 1]) && Chain(b.grid[pid][line - 1])
    requires Recorded(b) && LinesApart(b.placed, pid)
    requires !NeighbourOverlap(b.grid[pid][line - 1], x.start, x.end)
    ensures LinesApart(InsertAt(b, pid, line, x).placed, pid)
  {
    var placed, spans := b.placed, b.grid[pid][line - 1];
    forall i | 0 <= i < |placed| && placed[i].pid == pid && placed[i].line == line
      ensures Apart(placed[i].span, x)
    {
      assert Placed(pid, line, placed[i].span) in placed;
      var k :| 0 <= k < |spans| && spans[k] == placed[i].span;
      ClearOfAll(spans, x, k);
    }
  }

  lemma PlaceApart(s: Session, a: Arrival)
    requires Good(s) && Chained(s.board, a.pid) && LinesApart(s.board.placed, a.pid) && ShortcutClear(s, a)
    ensures var b := Place(s, a).board; Chained(b, a.pid) && LinesApart(b.placed, a.pid)
  {
    hide Chained, LinesApart, NeighbourOverlap, InsertAt, FindLine, Recorded, OneSlotEach;
    var c := FindLine(s.board, s.status, a.pid, a.span);
    FindLineWf(s.board, s.status, a.pid, a.span);
    FindLineClear(s, a);
    FindLineChained(s.board, s.status, a.pid, a.span);
    InsertAtChained(c.board, a.pid, c.line, a.span);
    LineChain(c.board, a.pid, c.line);
    InsertAtApart(c.board, a.pid, c.line, a.span);
  }

  /** A span of one process leaves the lines of the others alone. */
  lemma PlaceOther(s: Session, a: Arrival, pid: Pid)
    requires Good(s) && pid != a.pid
    ensures var b := Place(s, a).board;
            && (pid in b.grid <==> pid in s.board.grid)
            && (pid in b.grid ==> b.grid[pid] == s.board.grid[pid])
            && (LinesApart(s.board.placed, pid) <==> LinesApart(b.placed, pid))
  {
    hide LinesApart, Wf, FirstClear;
    PlaceGood(s, a);
    ApartOther(s.board.placed, Placed(a.pid, FindLine(s.board, s.status, a.pid, a.span).line, a.span), pid);
  }

  lemma ApartOther(placed: seq<Placed>, p: Placed, pid: Pid)
    requires p.pid != pid
    ensures LinesApart(placed, pid) <==> LinesApart(placed + [p], pid)
  {
    assert forall i :: 0 <= i < |placed| ==> (placed + [p])[i] == placed[i];
  }

  /** An unclear shortcut puts the point inside a span of the same line. */
  lemma UnclearShortcutMeets(s: Session, a: Arrival)
    requires Good(s) && !ShortcutClear(s, a)
    ensures !LinesApart(Place(s, a).board.placed, a.pid)
  {
    PlaceGood(s, a);
    var line, p := s.status[a.pid], a.span.start;
    var spans := s.board.grid[a.pid][line - 1];
    SplitByStart(spans, p);
    var k := StartRank(spans, p);
    var x := spans[k - 1];
    assert Placed(a.pid, line, x) in s.board.placed;
    var placed := Place(s, a).board.placed;
    var i :| 0 <= i < |s.board.placed| && s.board.placed[i] == Placed(a.pid, line, x);
    assert placed[i] == Placed(a.pid, line, x);
    assert placed[|placed| - 1] == Placed(a.pid, line, a.span);
  }

  lemma LineChain(b: Board, pid: Pid, line: nat)
    requires HasLine(b, pid, line) && Chained(b, pid)
    ensures Chain(b.grid[pid][line - 1])
  {
  }

  // ---------------------------------------------------------------------------
  // Whole runs

  ghost function PlaceAll(s: Session, arrivals: seq<Arrival>): (t: Session)
    requires Good(s)
    ensures Good(t)
    decreases |arrivals|
  {
    if arrivals == [] then s
    else
      PlaceGood(s, arrivals[0]);
      PlaceAll(Place(s, arrivals[0]), arrivals[1..])
  }

  /** Every request starts with nothing remembered and the lines of all requests before it. */
  ghost function LayOut(b: Board, requests: seq<seq<Arrival>>): (r: Board)
    requires Wf(b)
    ensures Wf(r)
    decreases |requests|
  {
    if requests == [] then b
    else LayOut(PlaceAll(Session(b, map[]), requests[0]).board, requests[1..])
  }

  function Flatten<X>(requests: seq<seq<X>>): seq<X> {
    if requests == [] then [] else requests[0] + Flatten(requests[1..])
  }

  function Arrivals(placed: seq<Placed>): (a: seq<Arrival>)
    ensures |a| == |placed|
  {
    seq(|placed|, i requires 0 <= i < |placed| => Arrival(placed[i].pid, placed[i].span))
  }

  predicate NoZeroLength(arrivals: seq<Arrival>, pid: Pid) {
    forall i :: 0 <= i < |arrivals| && arrivals[i].pid == pid ==> arrivals[i].span.start != arrivals[i].span.end
  }

  ghost predicate SessionClear(s: Session, arrivals: seq<Arrival>, pid: Pid)
    requires Good(s)
    decreases |arrivals|
  {
    arrivals == [] ||
    (PlaceGood(s, arrivals[0]);
     && (arrivals[0].pid == pid ==> ShortcutClear(s, arrivals[0]))
     && SessionClear(Place(s, arrivals[0]), arrivals[1..], pid))
  }

  /** Every shortcut the process's spans took in the run would have passed the check. */
  ghost predicate ShortcutsClear(b: Board, requests: seq<seq<Arrival>>, pid: Pid)
    requires Wf(b)
    decreases |requests|
  {
    requests == [] ||
    (SessionClear(Session(b, map[]), requests[0], pid) &&
     ShortcutsClear(PlaceAll(Session(b, map[]), requests[0]).board, requests[1..], pid))
  }

  lemma {:induction false} PlaceAllLog(s: Session, arrivals: seq<Arrival>)
    requires Good(s)
    ensures Arrivals(PlaceAll(s, arrivals).board.placed) == Arrivals(s.board.placed) + arrivals
    decreases |arrivals|
  {
    hide Good, Place, FindLine;
    if arrivals != [] {
      PlaceGood(s, arrivals[0]);
      PlaceAllLog(Place(s, arrivals[0]), arrivals[1..]);
      assert arrivals == [arrivals[0]] + arrivals[1..];
    }
  }

  lemma FreshGood(b: Board)
    requires Wf(b)
    ensures Good(Session(b, map[]))
  {
  }

  lemma GoodWf(s: Session)
    requires Good(s)
    ensures Wf(s.board)
  {
  }

  /** Every span is placed exactly once, in the order of arrival. */
  lemma {:induction false} LayOutLog(b: Board, requests: seq<seq<Arrival>>)
    requires Wf(b)
    ensures Arrivals(LayOut(b, requests).placed) == Arrivals(b.placed) + Flatten(requests)
    decreases |requests|
  {
    hide Wf, Good, PlaceAll;
    if requests != [] {
      assert Good(Session(b, map[])) by { FreshGood(b); }
      var b' := PlaceAll(Session(b, map[]), requests[0]).board;
      GoodWf(PlaceAll(Session(b, map[]), requests[0]));
      PlaceAllLog(Session(b, map[]), requests[0]);
      LayOutLog(b', requests[1..]);
    }
  }

  lemma {:induction false} PlaceAllPrefix(s: Session, arrivals: seq<Arrival>)
    requires Good(s)
    ensures s.board.placed <= PlaceAll(s, arrivals).board.placed
    decreases |arrivals|
  {
    hide Good, Place, FindLine;
    if arrivals != [] {
      PlaceGood(s, arrivals[0]);
      PlaceAllPrefix(Place(s, arrivals[0]), arrivals[1..]);
    }
  }

  lemma {:induction false} LayOutPrefix(b: Board, requests: seq<seq<Arrival>>)
    requires Wf(b)
    ensures b.placed <= LayOut(b, requests).placed
    decreases |requests|
  {
    if requests != [] {
      PlaceAllPrefix(Session(b, map[]), requests[0]);
      LayOutPrefix(PlaceAll(Session(b, map[]), requests[0]).board, requests[1..]);
    }
  }

  lemma ApartPrefix(a: seq<Placed>, b: seq<Placed>, pid: Pid)
    requires a <= b && !LinesApart(a, pid)
    ensures !LinesApart(b, pid)
  {
    assert forall i :: 0 <= i < |a| ==> a[i] == b[i];
  }

  lemma PlaceEither(s: Session, a: Arrival, pid: Pid)
    requires Good(s) && Chained(s.board, pid) && LinesApart(s.board.placed, pid)
    ensures var b := Place(s, a).board;
            if a.pid == pid && !ShortcutClear(s, a) then !LinesApart(b.placed, pid)
            else Chained(b, pid) && LinesApart(b.placed, pid)
  {
    hide Good, Place, LinesApart, ShortcutClear;
    if a.pid != pid {
      PlaceOther(s, a, pid);
    } else if ShortcutClear(s, a) {
      PlaceApart(s, a);
    } else {
      UnclearShortcutMeets(s, a);
    }
  }

  lemma {:induction false} SessionApart(s: Session, arrivals: seq<Arrival>, pid: Pid)
    requires Good(s) && Chained(s.board, pid) && LinesApart(s.board.placed, pid)
    ensures var b := PlaceAll(s, arrivals).board;
            if SessionClear(s, arrivals, pid) then Chained(b, pid) && LinesApart(b.placed, pid)
            else !LinesApart(b.placed, pid)
    decreases |arrivals|
  {
    hide Good, Place, ShortcutClear, Chained, LinesApart;
    if arrivals != [] {
      var a, rest := arrivals[0], arrivals[1..];
      PlaceGood(s, a);
      PlaceEither(s, a, pid);
      var t := Place(s, a);
      if a.pid == pid && !ShortcutClear(s, a) {
        PlaceAllPrefix(t, rest);
        ApartPrefix(t.board.placed, PlaceAll(t, rest).board.placed, pid);
      } else {
        SessionApart(t, rest, pid);
      }
    }
  }

  lemma {:induction false} LayOutApart(b: Board, requests: seq<seq<Arrival>>, pid: Pid)
    requires Wf(b) && Chained(b, pid) && LinesApart(b.placed, pid)
    ensures LinesApart(LayOut(b, requests).placed, pid) <==> ShortcutsClear(b, requests, pid)
    decreases |requests|
  {
    hide Wf, Good, SessionClear, PlaceAll, Chained, LinesApart;
    if requests != [] {
      FreshGood(b);
      var s := PlaceAll(Session(b, map[]), requests[0]);
      GoodWf(s);
      SessionApart(Session(b, map[]), requests[0], pid);
      if SessionClear(Session(b, map[]), requests[0], pid) {
        LayOutApart(s.board, requests[1..], pid);
      } else {
        LayOutPrefix(s.board, requests[1..]);
        ApartPrefix(s.board.placed, LayOut(s.board, requests[1..]).placed, pid);
      }
    }
  }

  lemma {:induction false} SessionClearNoZero(s: Session, arrivals: seq<Arrival>, pid: Pid)
    requires Good(s) && NoZeroLength(arrivals, pid)
    ensures SessionClear(s, arrivals, pid)
    decreases |arrivals|
  {
    hide Good, Place;
    if arrivals != [] {
      PlaceGood(s, arrivals[0]);
      SessionClearNoZero(Place(s, arrivals[0]), arrivals[1..], pid);
    }
  }

  lemma {:induction false} ShortcutsClearNoZero(b: Board, requests: seq<seq<Arrival>>, pid: Pid)
    requires Wf(b) && NoZeroLength(Flatten(requests), pid)
    ensures ShortcutsClear(b, requests, pid)
    decreases |requests|
  {
    hide Wf, Good, SessionClear, PlaceAll;
    if requests != [] {
      FreshGood(b);
      GoodWf(PlaceAll(Session(b, map[]), requests[0]));
      var first, rest := requests[0], Flatten(requests[1..]);
      assert forall i :: 0 <= i < |first| ==> first[i] == (first + rest)[i];
      assert forall i :: 0 <= i < |rest| ==> rest[i] == (first + rest)[i + |first|];
      SessionClearNoZero(Session(b, map[]), first, pid);
      ShortcutsClearNoZero(PlaceAll(Session(b, map[]), first).board, requests[1..], pid);
    }
  }

  lemma EmptyWf()
    ensures Wf(EMPTY)
  {
  }

  ghost function Layout(requests: seq<seq<Arrival>>): (b: Board)
    ensures Wf(b)
  {
    EmptyWf();
    LayOut(EMPTY, requests)
  }

  /**
   A whole layout over all requests, for any arrivals: every span is placed, in order, on a
   line that exists, and every process has lines 1..n with one slot record each.
   */
  lemma LayoutIsComplete(requests: seq<seq<Arrival>>)
    ensures var b := Layout(requests);
            && Arrivals(b.placed) == Flatten(requests)
            && OneSlotEach(b)
            && (forall p :: p in b.placed ==> HasLine(b, p.pid, p.line))
  {
    hide LayOut, SortedLines;
    EmptyWf();
    LayOutLog(EMPTY, requests);
    assert Arrivals(EMPTY.placed) == [];
    LinesExist(Layout(requests));
  }

  lemma LinesExist(b: Board)
    requires Wf(b)
    ensures OneSlotEach(b) && forall p :: p in b.placed ==> HasLine(b, p.pid, p.line)
  {
    forall p | p in b.placed ensures HasLine(b, p.pid, p.line) {
      assert Placed(p.pid, p.line, p.span) in b.placed;
    }
  }

  ghost predicate AllShortcutsClear(requests: seq<seq<Arrival>>, pid: Pid) {
    EmptyWf();
    ShortcutsClear(EMPTY, requests, pid)
  }

  /**
   No two spans of a process overlap on one line if and only if every zero-length span of it
   that took the unchecked shortcut would have passed the check; in particular whenever none
   of its spans is zero-length.  Spans of negative length do no harm.
   */
  lemma LayoutApartIff(requests: seq<seq<Arrival>>, pid: Pid)
    ensures LinesApart(Layout(requests).placed, pid) <==> AllShortcutsClear(requests, pid)
    ensures NoZeroLength(Flatten(requests), pid) ==> AllShortcutsClear(requests, pid)
  {
    EmptyWf();
    LayOutApart(EMPTY, requests, pid);
    if NoZeroLength(Flatten(requests), pid) {
      ShortcutsClearNoZero(EMPTY, requests, pid);
    }
  }
}
