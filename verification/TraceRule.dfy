/** On which line a span is drawn, said by the spans placed before it and nothing else. */
module TraceRule {
  import opened Sequences
  import opened SpanContainer
  import opened TraceLayout

  // ---------------------------------------------------------------------------
  // The rule

  /** Of the spans on the line that start before x, a is the latest one, and of those the longest. */
  ghost predicate LatestBefore(placed: seq<Placed>, pid: Pid, line: nat, x: Span, a: Span) {
    && Placed(pid, line, a) in placed && a.start < x.start
    && forall b :: Placed(pid, line, b) in placed && b.start < x.start ==>
         b.start < a.start || (b.start == a.start && b.end <= a.end)
  }

  /** A span of the line starts within x, or the latest one before x is still running when x starts. */
  ghost predicate Blocked(placed: seq<Placed>, pid: Pid, line: nat, x: Span) {
    || (exists a :: Placed(pid, line, a) in placed && x.start <= a.start < x.end)
    || (exists a :: LatestBefore(placed, pid, line, x, a) && x.start < a.end)
  }

  /** The lowest line on which x is not blocked; a line without spans blocks nothing. */
  ghost predicate Lowest(placed: seq<Placed>, pid: Pid, x: Span, line: nat) {
    line >= 1 && !Blocked(placed, pid, line, x) && forall l :: 1 <= l < line ==> Blocked(placed, pid, l, x)
  }

  /** The last span of the process among those placed from `from` on and before m. */
  function Previous(placed: seq<Placed>, from: nat, m: nat, pid: Pid): (p: Option<nat>)
    requires m <= |placed|
    ensures p.Some? ==> from <= p.value < m && placed[p.value].pid == pid
    ensures p.Some? ==> forall i :: p.value < i < m ==> placed[i].pid != pid
    ensures p.None? ==> forall i :: from <= i < m ==> placed[i].pid != pid
  {
    if m <= from then None
    else if placed[m - 1].pid == pid then Some(m - 1)
    else Previous(placed, from, m - 1, pid)
  }

  /**
   The m-th span of a request that began at `from` goes on the line of the request's previous span
   of the process if it is zero-length or not blocked there, and on the lowest line where it is
   not blocked otherwise.
   */
  ghost predicate FollowsRule(placed: seq<Placed>, from: nat, m: nat)
    requires m < |placed|
  {
    var p, before, previous := placed[m], placed[..m], Previous(placed, from, m, placed[m].pid);
    if previous.Some? && (p.span.start == p.span.end || !Blocked(before, p.pid, placed[previous.value].line, p.span))
    then p.line == placed[previous.value].line
    else Lowest(before, p.pid, p.span, p.line)
  }

  // ---------------------------------------------------------------------------
  // The check and the rule

  lemma OverlapBlocks(spans: seq<Span>, x: Span)
    requires Sorted(spans) && NeighbourOverlap(spans, x.start, x.end)
    ensures (exists k :: 0 <= k < |spans| && x.start <= spans[k].start < x.end)
         || (exists k :: 0 <= k < |spans| && spans[k].start < x.start < spans[k].end &&
               forall j :: 0 <= j < |spans| && spans[j].start < x.start ==> !Less(spans[k], spans[j]))
  {
    SplitByStart(spans, x.start);
    var r := StartRank(spans, x.start);
    if r > 0 && spans[r - 1].end > x.start {
      forall j | 0 <= j < |spans| && spans[j].start < x.start ensures !Less(spans[r - 1], spans[j]) {
        assert j < r;
      }
    } else {
      assert x.start <= spans[r].start < x.end;
    }
  }

  lemma BlockOverlaps(spans: seq<Span>, x: Span, k: nat)
    requires Sorted(spans) && k < |spans|
    requires x.start <= spans[k].start < x.end
          || (spans[k].start < x.start < spans[k].end &&
                forall j :: 0 <= j < |spans| && spans[j].start < x.start ==> !Less(spans[k], spans[j]))
    ensures NeighbourOverlap(spans, x.start, x.end)
  {
    SplitByStart(spans, x.start);
    var r := StartRank(spans, x.start);
    if x.start <= spans[k].start {
      assert r < k ==> !Less(spans[k], spans[r]);
    } else {
      assert k < r - 1 ==> !Less(spans[r - 1], spans[k]) && !Less(spans[k], spans[r - 1]);
    }
  }

  /** The line's spans are those placed on it. */
  ghost predicate Holds(placed: seq<Placed>, pid: Pid, line: nat, spans: seq<Span>) {
    forall a :: Placed(pid, line, a) in placed <==> a in spans
  }

  lemma FoundIsBlocked(placed: seq<Placed>, pid: Pid, line: nat, spans: seq<Span>, x: Span)
    requires Sorted(spans) && Holds(placed, pid, line, spans) && NeighbourOverlap(spans, x.start, x.end)
    ensures Blocked(placed, pid, line, x)
  {
    OverlapBlocks(spans, x);
    hide NeighbourOverlap, Sorted;
    if k :| 0 <= k < |spans| && x.start <= spans[k].start < x.end {
      assert Placed(pid, line, spans[k]) in placed;
    } else {
      var k :| 0 <= k < |spans| && spans[k].start < x.start < spans[k].end &&
               forall j :: 0 <= j < |spans| && spans[j].start < x.start ==> !Less(spans[k], spans[j]);
      assert LatestBefore(placed, pid, line, x, spans[k]);
    }
  }

  lemma BlockedIsFound(placed: seq<Placed>, pid: Pid, line: nat, spans: seq<Span>, x: Span)
    requires Sorted(spans) && Holds(placed, pid, line, spans) && Blocked(placed, pid, line, x)
    ensures NeighbourOverlap(spans, x.start, x.end)
  {
    hide NeighbourOverlap, Sorted;
    if a :| Placed(pid, line, a) in placed && x.start <= a.start < x.end {
      var k :| 0 <= k < |spans| && spans[k] == a;
      BlockOverlaps(spans, x, k);
    } else {
      var a :| LatestBefore(placed, pid, line, x, a) && x.start < a.end;
      var k :| 0 <= k < |spans| && spans[k] == a;
      forall j | 0 <= j < |spans| && spans[j].start < x.start ensures !Less(spans[k], spans[j]) {
        assert Placed(pid, line, spans[j]) in placed;
      }
      BlockOverlaps(spans, x, k);
    }
  }

  /** On a line that exists, blocked is what the check finds. */
  lemma BlockedIffOverlap(b: Board, pid: Pid, line: nat, x: Span)
    requires Wf(b) && HasLine(b, pid, line)
    ensures Blocked(b.placed, pid, line, x) <==> NeighbourOverlap(b.grid[pid][line - 1], x.start, x.end)
  {
    hide OneSlotEach, NeighbourOverlap, Blocked;
    var spans := b.grid[pid][line - 1];
    assert Holds(b.placed, pid, line, spans);
    if NeighbourOverlap(spans, x.start, x.end) {
      FoundIsBlocked(b.placed, pid, line, spans, x);
    }
    if Blocked(b.placed, pid, line, x) {
      BlockedIsFound(b.placed, pid, line, spans, x);
    }
  }

  lemma UnusedNotBlocked(b: Board, pid: Pid, line: nat, x: Span)
    requires Wf(b) && !HasLine(b, pid, line)
    ensures !Blocked(b.placed, pid, line, x)
  {
    hide OneSlotEach;
    assert forall a :: Placed(pid, line, a) !in b.placed;
  }

  lemma FirstClearIsLowest(b: Board, pid: Pid, x: Span)
    requires Wf(b)
    ensures var lines := if pid in b.grid then b.grid[pid] else [];
            Lowest(b.placed, pid, x, FirstClear(lines, x) + 1)
  {
    hide Wf, Blocked, NeighbourOverlap;
    var lines := if pid in b.grid then b.grid[pid] else [];
    var k := FirstClear(lines, x);
    forall l | 1 <= l <= k ensures Blocked(b.placed, pid, l, x) {
      assert NeighbourOverlap(lines[l - 1], x.start, x.end);
      BlockedIffOverlap(b, pid, l, x);
    }
    if k < |lines| {
      BlockedIffOverlap(b, pid, k + 1, x);
    } else {
      UnusedNotBlocked(b, pid, k + 1, x);
    }
  }

  // ---------------------------------------------------------------------------
  // One arrival

  /** The remembered line of a process is that of its last span since `from`. */
  ghost predicate Remembers(st: Status, placed: seq<Placed>, from: nat) {
    forall pid :: var p := Previous(placed, from, |placed|, pid);
      (pid in st <==> p.Some?) && (p.Some? ==> st[pid] == placed[p.value].line)
  }

  lemma {:induction false} PreviousPrefix(a: seq<Placed>, b: seq<Placed>, from: nat, m: nat, pid: Pid)
    requires a <= b && m <= |a|
    ensures Previous(a, from, m, pid) == Previous(b, from, m, pid)
  {
    if m > from {
      PreviousPrefix(a, b, from, m - 1, pid);
    }
  }

  lemma ChosenByRule(s: Session, a: Arrival, from: nat)
    requires Good(s) && Remembers(s.status, s.board.placed, from)
    ensures var c, placed := FindLine(s.board, s.status, a.pid, a.span), s.board.placed;
            var previous := Previous(placed, from, |placed|, a.pid);
            && c.status == s.status[a.pid := c.line]
            && if previous.Some? && (a.span.start == a.span.end ||
                                     !Blocked(placed, a.pid, placed[previous.value].line, a.span))
               then c.line == placed[previous.value].line
               else Lowest(placed, a.pid, a.span, c.line)
  {
    hide Wf, Blocked, NeighbourOverlap, Lowest, FirstClear;
    var placed := s.board.placed;
    var previous := Previous(placed, from, |placed|, a.pid);
    FirstClearIsLowest(s.board, a.pid, a.span);
    if previous.Some? {
      BlockedIffOverlap(s.board, a.pid, s.status[a.pid], a.span);
    }
  }

  lemma PlaceRule(s: Session, a: Arrival, from: nat)
    requires Good(s) && Remembers(s.status, s.board.placed, from) && from <= |s.board.placed|
    ensures var t, m := Place(s, a), |s.board.placed|;
            |t.board.placed| == m + 1 && FollowsRule(t.board.placed, from, m) && Remembers(t.status, t.board.placed, from)
  {
    hide Wf, Blocked, Lowest, FindLine;
    PlaceGood(s, a);
    ChosenByRule(s, a, from);
    var t, placed, m := Place(s, a), s.board.placed, |s.board.placed|;
    assert t.board.placed[..m] == placed;
    PreviousPrefix(placed, t.board.placed, from, m, a.pid);
    assert t.status == FindLine(s.board, s.status, a.pid, a.span).status;
    forall pid ensures var p := Previous(t.board.placed, from, m + 1, pid);
                       (pid in t.status <==> p.Some?) && (p.Some? ==> t.status[pid] == t.board.placed[p.value].line)
    {
      PreviousPrefix(placed, t.board.placed, from, m, pid);
    }
  }

  // ---------------------------------------------------------------------------
  // Whole layouts

  lemma RuleExtends(a: seq<Placed>, b: seq<Placed>, from: nat, m: nat)
    requires a <= b && m < |a| && FollowsRule(a, from, m)
    ensures FollowsRule(b, from, m)
  {
    hide Blocked, Lowest;
    assert a[m] == b[m] && a[..m] == b[..m];
    PreviousPrefix(a, b, from, m, a[m].pid);
  }

  lemma {:induction false} SessionRule(s: Session, arrivals: seq<Arrival>, from: nat, i: nat)
    requires Good(s) && Remembers(s.status, s.board.placed, from) && from <= |s.board.placed| && i < |arrivals|
    ensures |PlaceAll(s, arrivals).board.placed| > |s.board.placed| + i
    ensures FollowsRule(PlaceAll(s, arrivals).board.placed, from, |s.board.placed| + i)
    decreases |arrivals|
  {
    hide Good, Place, FollowsRule, Remembers;
    PlaceGood(s, arrivals[0]);
    PlaceRule(s, arrivals[0], from);
    var t, rest := Place(s, arrivals[0]), arrivals[1..];
    if i == 0 {
      PlaceAllPrefix(t, rest);
      RuleExtends(t.board.placed, PlaceAll(t, rest).board.placed, from, |s.board.placed|);
    } else {
      SessionRule(t, rest, from, i - 1);
    }
  }

  lemma NothingRemembered(placed: seq<Placed>)
    ensures Remembers(map[], placed, |placed|)
  {
  }

  lemma {:induction false} LayOutRule(b: Board, requests: seq<seq<Arrival>>, r: nat, i: nat)
    requires Wf(b) && r < |requests| && i < |requests[r]|
    ensures var from := |b.placed| + |Flatten(requests[..r])|;
            from + i < |LayOut(b, requests).placed| && FollowsRule(LayOut(b, requests).placed, from, from + i)
    decreases |requests|
  {
    hide Wf, Good, PlaceAll, FollowsRule, Remembers;
    FreshGood(b);
    var s := Session(b, map[]);
    var t := PlaceAll(s, requests[0]);
    GoodWf(t);
    if r == 0 {
      NothingRemembered(b.placed);
      SessionRule(s, requests[0], |b.placed|, i);
      LayOutPrefix(t.board, requests[1..]);
      RuleExtends(t.board.placed, LayOut(t.board, requests[1..]).placed, |b.placed|, |b.placed| + i);
      assert requests[..0] == [];
    } else {
      LayOutRule(t.board, requests[1..], r - 1, i);
      PlaceAllLog(s, requests[0]);
      assert |Arrivals(t.board.placed)| == |Arrivals(b.placed)| + |requests[0]|;
      assert requests[..r][0] == requests[0] && requests[..r][1..] == requests[1..][..r - 1];
    }
  }

  /** In every layout, every span of every request is drawn where the rule says. */
  lemma EverySpanFollowsRule(requests: seq<seq<Arrival>>, r: nat, i: nat)
    requires r < |requests| && i < |requests[r]|
    ensures var placed, from := Layout(requests).placed, |Flatten(requests[..r])|;
            && from + i < |placed| && FollowsRule(placed, from, from + i)
            && placed[from + i].pid == requests[r][i].pid && placed[from + i].span == requests[r][i].span
  {
    hide LayOut, FollowsRule;
    EmptyWf();
    LayOutRule(EMPTY, requests, r, i);
    LayoutIsComplete(requests);
    var placed, from := Layout(requests).placed, |Flatten(requests[..r])|;
    FlattenAt(requests, r, i);
    assert Arrivals(placed)[from + i] == Flatten(requests)[from + i];
  }

  lemma {:induction false} FlattenAt<X>(requests: seq<seq<X>>, r: nat, i: nat)
    requires r < |requests| && i < |requests[r]|
    ensures |Flatten(requests[..r])| + i < |Flatten(requests)|
    ensures Flatten(requests)[|Flatten(requests[..r])| + i] == requests[r][i]
  {
    if r > 0 {
      FlattenAt(requests[1..], r - 1, i);
      assert requests[..r][0] == requests[0] && requests[..r][1..] == requests[1..][..r - 1];
    } else {
      assert requests[..0] == [];
    }
  }

  // ---------------------------------------------------------------------------
  // Spans of positive length

  /** Among spans of positive length that are apart, blocked is overlapping one of them. */
  lemma BlockedIsOverlap(placed: seq<Placed>, pid: Pid, line: nat, x: Span)
    requires LinesApart(placed, pid) && x.start < x.end
    requires forall i :: 0 <= i < |placed| && placed[i].pid == pid && placed[i].line == line ==>
               placed[i].span.start < placed[i].span.end
    ensures Blocked(placed, pid, line, x) <==>
            exists i :: 0 <= i < |placed| && placed[i].pid == pid && placed[i].line == line && !Apart(placed[i].span, x)
  {
    if Blocked(placed, pid, line, x) {
      if a :| Placed(pid, line, a) in placed && x.start <= a.start < x.end {
        var i :| 0 <= i < |placed| && placed[i] == Placed(pid, line, a);
        assert !Apart(placed[i].span, x);
      } else {
        var a :| LatestBefore(placed, pid, line, x, a) && x.start < a.end;
        var i :| 0 <= i < |placed| && placed[i] == Placed(pid, line, a);
        assert !Apart(placed[i].span, x);
      }
    }
    if i :| 0 <= i < |placed| && placed[i].pid == pid && placed[i].line == line && !Apart(placed[i].span, x) {
      var a := placed[i].span;
      assert placed[i] == Placed(pid, line, a);
      if a.start < x.start {
        forall b | Placed(pid, line, b) in placed && b.start < x.start
          ensures b.start < a.start || (b.start == a.start && b.end <= a.end)
        {
          var j :| 0 <= j < |placed| && placed[j] == Placed(pid, line, b);
          assert i == j || Apart(a, b) || Apart(b, a);
        }
        assert LatestBefore(placed, pid, line, x, a);
      }
    }
  }
}
