/** When the generator has taken every turn, and when it has not. */
module RequeueRest {
  import opened Sequences
  import opened Sums
  import opened Requeue
  import opened RequeueProofs
  import opened RequeueTheorems

  // ---------------------------------------------------------------------------
  // Rest

  /** The run is over: no step is possible. */
  ghost predicate AtRest(limit: nat, s: State)
    requires Shaped(s)
  {
    forall step :: !Enabled(limit, s, step)
  }

  /** At rest no task is left, and the generator has taken every turn or given up. */
  lemma RestIff(s: State, limit: nat)
    requires Inv(s) && Shaped(s)
    ensures AtRest(limit, s) <==> s.running == [] && (s.gaveUp || s.taken == Total(s.convs))
  {
    hide Inv, Total;
    TakenBound(s);
    if AtRest(limit, s) {
      assert !Enabled(limit, s, Take) && !Enabled(limit, s, GiveUp);
      if s.running != [] {
        var step := NextStep(s, limit);
      }
    }
  }

  /** A conversation that stopped at its last turn, or went through all of them. */
  predicate WentThrough(v: Conv) {
    v.finished + 1 == |v.turns|
  }

  ghost predicate NoEarlyFailure(s: State) {
    forall c :: 0 <= c < |s.convs| && s.convs[c].phase.Failed? ==> WentThrough(s.convs[c])
  }

  /** With no task left, all turns are taken if and only if nothing is queued and nothing failed early. */
  lemma TakenAllIff(s: State)
    requires Inv(s) && s.running == []
    ensures s.taken == Total(s.convs) <==> s.queue == [] && NoEarlyFailure(s)
  {
    hide InOrder, SentOk;
    TakenBound(s);
    if s.queue == [] {
      forall c | 0 <= c < |s.convs|
        ensures TakenCount(s.convs[c]) == s.convs[c].finished + 1
        ensures s.convs[c].phase.Finished? || s.convs[c].phase.Failed?
      {
        assert multiset(s.queue)[c] == 0 && multiset(s.running)[c] == 0;
      }
      var counts, lengths := TakenCounts(s.convs), Lengths(s.convs);
      SumOrder(counts, lengths);
      if s.taken == Total(s.convs) {
        assert counts == lengths;
        forall c | 0 <= c < |s.convs| ensures WentThrough(s.convs[c]) {
          assert counts[c] == lengths[c];
        }
      }
      if NoEarlyFailure(s) {
        forall c | 0 <= c < |s.convs| ensures counts[c] == lengths[c] {
          assert ConvOk(s.convs[c]);
        }
        assert counts == lengths;
      }
    }
  }

  // ---------------------------------------------------------------------------
  // Giving up

  /** A reply comes in and the conversation goes back to the queue. */
  predicate PutsBack(s: State, step: Step) {
    && step.Succeed? && step.k < |s.running| && s.running[step.k] < |s.convs|
    && var v := s.convs[s.running[step.k]]; v.finished + 1 < |v.turns|
  }

  /** The generator gave up in step i while a task held a conversation that step j put back. */
  predicate Late(states: seq<State>, steps: seq<Step>, i: nat, j: nat)
    requires i < |steps| <= |states| && j < |steps|
  {
    && steps[i].GiveUp? && PutsBack(states[j], steps[j])
    && states[j].running[steps[j].k] in states[i].running
  }

  ghost predicate LatePutBack(states: seq<State>, steps: seq<Step>, n: nat)
    requires n <= |steps| <= |states|
  {
    exists i, j :: 0 <= i < j < n && Late(states, steps, i, j)
  }

  lemma StepAfterGivingUp(s: State, limit: nat, step: Step)
    requires Shaped(s) && Enabled(limit, s, step)
    ensures var t := Apply(s, step, limit);
            && t.gaveUp == (s.gaveUp || step.GiveUp?)
            && (step.GiveUp? ==> !s.gaveUp && s.queue == t.queue == [] && t.running == s.running)
            && (s.gaveUp ==>
                  && (forall c :: c in t.running ==> c in s.running)
                  && t.queue == if PutsBack(s, step) then s.queue + [s.running[step.k]] else s.queue)
  {
  }

  /** Before step n the generator gave up in step i, and no task has been started since. */
  predicate GaveUpIn(states: seq<State>, steps: seq<Step>, n: nat, i: nat)
    requires n <= |steps| < |states|
  {
    i < n && steps[i].GiveUp? && forall c :: c in states[n].running ==> c in states[i].running
  }

  /** After giving up, the queue holds something if and only if a conversation was put back too late. */
  lemma {:induction false} AfterGivingUp(requests: seq<seq<Turn>>, limit: nat, states: seq<State>, steps: seq<Step>, n: nat)
    requires NonEmpty(requests) && IsRun(requests, limit, states, steps) && n <= |steps|
    ensures |states| == |steps| + 1
    ensures if states[n].gaveUp then exists i :: GaveUpIn(states, steps, n, i)
            else forall i :: 0 <= i < n ==> !steps[i].GiveUp?
    ensures states[n].gaveUp ==> (states[n].queue != [] <==> LatePutBack(states, steps, n))
    ensures !states[n].gaveUp ==> !LatePutBack(states, steps, n)
  {
    if n > 0 {
      hide Shaped, Enabled, Apply, PutsBack;
      AfterGivingUp(requests, limit, states, steps, n - 1);
      var s, t, step := states[n - 1], states[n], steps[n - 1];
      assert t == Apply(s, step, limit);
      StepAfterGivingUp(s, limit, step);
      LateNext(states, steps, n - 1);
      if step.GiveUp? {
        assert GaveUpIn(states, steps, n, n - 1);
      } else if s.gaveUp {
        var i :| GaveUpIn(states, steps, n - 1, i);
        assert GaveUpIn(states, steps, n, i);
        assert PutsBack(s, step) ==> Late(states, steps, i, n - 1) by { PutsBackMeans(s, step); }
      }
    }
  }

  lemma PutsBackMeans(s: State, step: Step)
    ensures PutsBack(s, step) ==> step.Succeed? && step.k < |s.running| && s.running[step.k] in s.running
  {
  }

  lemma LateNext(states: seq<State>, steps: seq<Step>, n: nat)
    requires n < |steps| < |states|
    ensures LatePutBack(states, steps, n + 1) <==>
            LatePutBack(states, steps, n) || exists i :: 0 <= i < n && Late(states, steps, i, n)
    ensures LatePutBack(states, steps, n + 1) ==> LatePutBack(states, steps, n) || PutsBack(states[n], steps[n])
  {
    hide PutsBack;
  }

  /**
   At rest the generator has taken num_actual_requests turns if and only if no conversation failed
   before its last turn, and none was put back by a task that held it when the generator gave up.
   */
  lemma RestTakesAllIff(requests: seq<seq<Turn>>, limit: nat, states: seq<State>, steps: seq<Step>)
    requires NonEmpty(requests) && IsRun(requests, limit, states, steps)
    requires Shaped(states[|steps|]) && AtRest(limit, states[|steps|])
    ensures states[|steps|].taken == Total(Initial(requests).convs) <==>
            NoEarlyFailure(states[|steps|]) && !LatePutBack(states, steps, |steps|)
  {
    hide Inv, Total, Shaped, Enabled, Apply, NoEarlyFailure, LatePutBack, AtRest;
    var s := states[|steps|];
    RunInv(requests, limit, states, steps, |steps|);
    RestIff(s, limit);
    TakenAllIff(s);
    AfterGivingUp(requests, limit, states, steps, |steps|);
  }

  /**
   With nothing queued and nothing in flight, the generator still waits for a turn if and only if
   some conversation failed before its last turn.
   */
  lemma WaitsIdleIff(requests: seq<seq<Turn>>, limit: nat, states: seq<State>, steps: seq<Step>, i: nat)
    requires NonEmpty(requests) && IsRun(requests, limit, states, steps) && i <= |steps|
    requires states[i].queue == [] && states[i].running == []
    ensures states[i].taken < Total(Initial(requests).convs) <==> !NoEarlyFailure(states[i])
  {
    hide Inv, Total, Shaped, Enabled, Apply, NoEarlyFailure;
    RunInv(requests, limit, states, steps, i);
    TakenBound(states[i]);
    TakenAllIff(states[i]);
  }

  // ---------------------------------------------------------------------------
  // Runs in which no turn fails

  predicate FailureFree(steps: seq<Step>) {
    forall i :: 0 <= i < |steps| ==> !steps[i].Fail?
  }

  ghost predicate NoneFailed(s: State) {
    forall c :: 0 <= c < |s.convs| ==> !s.convs[c].phase.Failed?
  }

  lemma StepNoneFailed(s: State, limit: nat, step: Step)
    requires Shaped(s) && Enabled(limit, s, step) && NoneFailed(s) && !step.Fail?
    ensures NoneFailed(Apply(s, step, limit))
  {
  }

  lemma {:induction false} RunNoneFailed(requests: seq<seq<Turn>>, limit: nat, states: seq<State>, steps: seq<Step>, i: nat)
    requires IsRun(requests, limit, states, steps) && FailureFree(steps) && i <= |steps|
    ensures |states| == |steps| + 1 && NoneFailed(states[i])
  {
    hide Shaped, Enabled, Apply;
    if i > 0 {
      RunNoneFailed(requests, limit, states, steps, i - 1);
      StepNoneFailed(states[i - 1], limit, steps[i - 1]);
    }
  }

  /** Without failures the generator never waits while nothing is queued and nothing in flight. */
  lemma NeverWaitsIdle(requests: seq<seq<Turn>>, limit: nat, states: seq<State>, steps: seq<Step>, i: nat)
    requires NonEmpty(requests) && IsRun(requests, limit, states, steps) && FailureFree(steps) && i <= |steps|
    requires states[i].queue == [] && states[i].running == []
    ensures states[i].taken == Total(Initial(requests).convs)
  {
    hide Inv, Total, Shaped, Enabled, Apply;
    RunInv(requests, limit, states, steps, i);
    TakenBound(states[i]);
    RunNoneFailed(requests, limit, states, steps, i);
    WaitsIdleIff(requests, limit, states, steps, i);
  }

  /**
   A failure-free run at rest has taken exactly the sum of all conversation lengths if and only if
   the generator did not give up on a conversation that was put back later; and then every turn of
   every conversation was sent exactly once and in order.
   */
  lemma FailureFreeTakesAll(requests: seq<seq<Turn>>, limit: nat, states: seq<State>, steps: seq<Step>, c: nat)
    requires NonEmpty(requests) && IsRun(requests, limit, states, steps) && FailureFree(steps)
    requires Shaped(states[|steps|]) && AtRest(limit, states[|steps|]) && c < |requests|
    ensures states[|steps|].taken == Total(Initial(requests).convs) <==> !LatePutBack(states, steps, |steps|)
    ensures |states[|steps|].convs| == |requests|
    ensures !LatePutBack(states, steps, |steps|) ==>
              && states[|steps|].convs[c].phase.Finished?
              && TurnsSent(states[|steps|].sent, c) == Iota(|requests[c]|)
  {
    hide Located, SentOk, Total, LatePutBack, AtRest, Enabled;
    var s := states[|steps|];
    RunInv(requests, limit, states, steps, |steps|);
    RunNoneFailed(requests, limit, states, steps, |steps|);
    RestTakesAllIff(requests, limit, states, steps);
    RestIff(s, limit);
    RunFromRequest(requests, limit, states, steps, |steps|, c);
    TakenAllIff(s);
    if s.queue == [] {
      FinishedAtRest(s, c);
    }
  }

  lemma FinishedAtRest(s: State, c: nat)
    requires Inv(s) && s.queue == [] && s.running == [] && NoneFailed(s) && c < |s.convs|
    ensures s.convs[c].phase.Finished? && ConvOk(s.convs[c])
  {
    hide InOrder, SentOk;
    assert multiset(s.queue)[c] == 0 && multiset(s.running)[c] == 0;
  }

  // ---------------------------------------------------------------------------
  // Concrete runs: one conversation of two turns

  const PAIR: seq<Turn> := [Turn("a", 1, 1), Turn("b", 1, 1)]

  /** The conversation is in the given phase, and its first turn is taken or sent. */
  function Alone(phase: Phase, queue: seq<nat>, running: seq<nat>, taken: int, sent: bool): State {
    State([Conv(PAIR, 0, if sent then [User("a")] else [], phase, [])], queue, running,
          if phase.Posted? then 1 else 0, taken, false, if sent then [Sent(0, 0, [User("a")], 1, 1)] else [])
  }

  lemma TwoTurns(s: State)
    requires |s.convs| == 1 && |s.convs[0].turns| == 2
    ensures Total(s.convs) == 2
  {
    assert Lengths(s.convs) == [2];
    SumAppend([], [2]);
    assert Sum([2]) == 2 + Sum([]);
  }

  lemma FirstTurn(s: State)
    requires s == Alone(Taken, [], [0], 1, false)
    ensures Shaped(s) && Enabled(1, s, Start(0)) && Apply(s, Start(0), 1) == Alone(Posted, [], [0], 1, true)
  {
    var v := Post(s.convs[0]);
    assert v.messages == [User("a")];
    assert s.convs[0 := v] == [v];
    assert HistoryLen(v.turns, 0) == 0;
  }

  /** The first turn fails; the generator waits for a second that never comes, and gives up. */
  lemma FailureStarves(states: seq<State>, steps: seq<Step>)
    requires states == [Alone(Queued, [0], [], 0, false), Alone(Taken, [], [0], 1, false),
                        Alone(Posted, [], [0], 1, true), Alone(Failed, [], [], 1, true),
                        Alone(Failed, [], [], 1, true).(gaveUp := true)]
    requires steps == [Take, Start(0), Fail(0), GiveUp]
    ensures IsRun([PAIR], 1, states, steps)
    ensures Shaped(states[4]) && AtRest(1, states[4]) && states[4].taken < Total(states[4].convs)
  {
    hide Total;
    TwoTurns(states[0]);
    TwoTurns(states[3]);
    TwoTurns(states[4]);
    assert Initial([PAIR]) == states[0];
    assert Apply(states[0], Take, 1) == states[1];
    FirstTurn(states[1]);
    assert Apply(states[2], Fail(0), 1) == states[3];
  }

  /** The first reply is in and the conversation is queued again, after the generator has given up. */
  function PutBack(): State {
    State([Conv(PAIR, 1, [User("a"), Assistant("r")], Queued, ["r"])], [0], [], 0, 1, true,
          [Sent(0, 0, [User("a")], 1, 1)])
  }

  lemma FirstReply(s: State)
    requires s == Alone(Posted, [], [0], 1, true).(gaveUp := true)
    ensures Shaped(s) && Enabled(1, s, Succeed(0, "r", 1)) && Apply(s, Succeed(0, "r", 1), 1) == PutBack()
  {
    var v := Reply(s.convs[0], "r", 1);
    assert v.turns == PAIR && v.messages == [User("a"), Assistant("r")] && v.replies == ["r"];
    assert s.convs[0 := v] == [v] && RemoveAt(s.running, 0) == [];
  }

  /** No turn fails, and yet the second is never taken: the wait ran out while the first was in flight. */
  lemma GivingUpLosesTurns(states: seq<State>, steps: seq<Step>)
    requires states == [Alone(Queued, [0], [], 0, false), Alone(Taken, [], [0], 1, false),
                        Alone(Posted, [], [0], 1, true), Alone(Posted, [], [0], 1, true).(gaveUp := true), PutBack()]
    requires steps == [Take, Start(0), GiveUp, Succeed(0, "r", 1)]
    ensures IsRun([PAIR], 1, states, steps) && FailureFree(steps)
    ensures Shaped(states[4]) && AtRest(1, states[4]) && states[4].taken < Total(states[4].convs)
  {
    hide Total;
    TwoTurns(states[0]);
    TwoTurns(states[2]);
    TwoTurns(states[4]);
    assert Initial([PAIR]) == states[0];
    assert Apply(states[0], Take, 1) == states[1];
    FirstTurn(states[1]);
    assert Apply(states[2], GiveUp, 1) == states[3];
    FirstReply(states[3]);
  }
}
