/** What holds in every run of the conversation queue. */
module RequeueTheorems {
  import opened Sequences
  import opened Sums
  import opened Requeue
  import opened RequeueProofs

  predicate NonEmpty(requests: seq<seq<Turn>>) {
    forall c :: 0 <= c < |requests| ==> requests[c] != []
  }

  // ---------------------------------------------------------------------------
  // Safety, failures included

  /** Queue and tasks together never hold more than all conversations, so putting one back never blocks. */
  lemma PutNeverBlocks(requests: seq<seq<Turn>>, limit: nat, states: seq<State>, steps: seq<Step>, i: nat)
    requires NonEmpty(requests) && IsRun(requests, limit, states, steps) && i <= |steps|
    ensures var s := states[i];
            |s.queue| + |s.running| <= |requests| && (s.running != [] ==> |s.queue| < |requests|)
  {
    RunInv(requests, limit, states, steps, i);
    QueueBound(states[i]);
  }

  lemma QueueBound(s: State)
    requires Inv(s)
    ensures |s.queue| + |s.running| <= |s.convs|
  {
    hide Located, InOrder, SentOk, ConvOk;
    var n := |s.convs|;
    var both := seq(n, c requires 0 <= c < n => QueuedMarks(s.convs)[c] + TaskMarks(s.convs)[c]);
    var ones := seq(n, _ => 1);
    SumAdd(QueuedMarks(s.convs), TaskMarks(s.convs), both);
    SumOrder(both, ones);
    SumOnes(ones);
  }

  /** A conversation is never in the queue and with a task at once, nor twice in either. */
  lemma OnePlace(requests: seq<seq<Turn>>, limit: nat, states: seq<State>, steps: seq<Step>, i: nat, c: nat)
    requires NonEmpty(requests) && IsRun(requests, limit, states, steps) && i <= |steps|
    ensures multiset(states[i].queue + states[i].running)[c] <= 1
  {
    RunInv(requests, limit, states, steps, i);
  }

  /**
   Every request carried the dialogue of the conversation's earlier turns and its own prompt, and
   the turns of a conversation are sent in order and each at most once.
   */
  lemma DialogueHolds(requests: seq<seq<Turn>>, limit: nat, states: seq<State>, steps: seq<Step>, i: nat, c: nat)
    requires NonEmpty(requests) && IsRun(requests, limit, states, steps) && i <= |steps| && c < |requests|
    ensures |states[i].convs| == |requests| && FromRequest(states[i].convs[c], requests[c])
    ensures forall k :: 0 <= k < |states[i].sent| ==> SentOk(states[i].convs, states[i].sent[k])
    ensures TurnsSent(states[i].sent, c) == Iota(SentCount(states[i].convs[c]))
    ensures SentCount(states[i].convs[c]) <= |requests[c]|
  {
    hide SentOk, Located;
    RunInv(requests, limit, states, steps, i);
    RunFromRequest(requests, limit, states, steps, i, c);
  }

  // ---------------------------------------------------------------------------
  // Progress

  /** Every step lowers this by exactly one. */
  function Measure(s: State): int {
    3 * (Total(s.convs) - s.taken) + 2 * |s.running| - s.inUse + if s.gaveUp then 0 else 1
  }

  lemma TakenBound(s: State)
    requires Inv(s)
    ensures s.taken <= Total(s.convs)
    ensures s.queue != [] ==> s.taken < Total(s.convs)
    ensures 0 <= s.inUse <= |s.running|
  {
    hide Located, InOrder, SentOk;
    SumOrder(TakenCounts(s.convs), Lengths(s.convs));
    SumOrder(PostedMarks(s.convs), TaskMarks(s.convs));
    SumNonNegative(PostedMarks(s.convs));
    if s.queue != [] {
      QueuedLag(s);
    }
  }

  lemma QueuedLag(s: State)
    requires Inv(s) && s.queue != []
    ensures TakenCounts(s.convs) != Lengths(s.convs)
  {
    HeadQueued(s);
    var c := s.queue[0];
    assert TakenCounts(s.convs)[c] < Lengths(s.convs)[c];
  }

  lemma MeasureFalls(s: State, limit: nat, step: Step)
    requires Inv(s) && Shaped(s) && Enabled(limit, s, step)
    ensures Measure(Apply(s, step, limit)) == Measure(s) - 1
  {
    hide Inv, Total;
    StepInv(s, limit, step);
  }

  lemma {:induction false} MeasureCounts(requests: seq<seq<Turn>>, limit: nat, states: seq<State>, steps: seq<Step>, i: nat)
    requires NonEmpty(requests) && IsRun(requests, limit, states, steps) && i <= |steps|
    ensures |states| == |steps| + 1 && i + Measure(states[i]) == Measure(states[0])
  {
    hide Inv, Shaped, Enabled, Apply, Measure;
    if i > 0 {
      MeasureCounts(requests, limit, states, steps, i - 1);
      RunInv(requests, limit, states, steps, i - 1);
      MeasureFalls(states[i - 1], limit, steps[i - 1]);
    }
  }

  /** Every run ends: it has at most three steps a turn, and one for giving up. */
  lemma RunsEnd(requests: seq<seq<Turn>>, limit: nat, states: seq<State>, steps: seq<Step>)
    requires NonEmpty(requests) && IsRun(requests, limit, states, steps)
    ensures |steps| <= 3 * Total(Initial(requests).convs) + 1
  {
    hide Inv, Shaped, Enabled, Apply, Total;
    MeasureCounts(requests, limit, states, steps, |steps|);
    RunInv(requests, limit, states, steps, |steps|);
    TakenBound(states[|steps|]);
  }

  /** Until nothing is queued or running, or the generator gave up, some step other than giving up can be taken. */
  lemma NextStep(s: State, limit: nat) returns (step: Step)
    requires Inv(s) && Shaped(s) && (s.running != [] || (s.queue != [] && !s.gaveUp))
    ensures Enabled(limit, s, step) && !step.GiveUp?
  {
    TakenBound(s);
    if s.running == [] {
      step := Take;
    } else if k :| 0 <= k < |s.running| && s.convs[s.running[k]].phase.Posted? {
      step := Succeed(k, "", 0);
    } else {
      NonePosted(s);
      step := Start(0);
    }
  }

  lemma NonePosted(s: State)
    requires Inv(s) && Shaped(s) && s.running != []
    requires forall k :: 0 <= k < |s.running| ==> !s.convs[s.running[k]].phase.Posted?
    ensures s.inUse == 0 && s.convs[s.running[0]].phase.Taken?
  {
    hide InOrder, SentOk, ConvOk;
    forall c | 0 <= c < |s.convs| ensures WithTask(s.convs[c]) ==> c in s.running {
      assert c in multiset(s.running) <==> multiset(s.running)[c] > 0;
    }
    SumZero(PostedMarks(s.convs));
    assert multiset(s.running)[s.running[0]] >= 1;
  }

  // ---------------------------------------------------------------------------
  // What a request carries

  /** Prompts and input lengths never change, and a turn without a reply is still as requested. */
  predicate FromRequest(v: Conv, turns: seq<Turn>) {
    && |v.turns| == |turns|
    && (forall t :: 0 <= t < |turns| ==> v.turns[t].prompt == turns[t].prompt && v.turns[t].inputLen == turns[t].inputLen)
    && (forall t :: |v.replies| <= t < |turns| ==> v.turns[t] == turns[t])
  }

  lemma StepFromRequest(s: State, limit: nat, step: Step, c: nat, turns: seq<Turn>)
    requires Shaped(s) && Inv(s) && Enabled(limit, s, step) && c < |s.convs| && FromRequest(s.convs[c], turns)
    ensures var t := Apply(s, step, limit); |t.convs| == |s.convs| && FromRequest(t.convs[c], turns)
  {
    hide Located, InOrder, SentOk, Dialogue, HistoryLen;
    assert ConvOk(s.convs[c]);
  }

  lemma {:induction false} RunFromRequest(requests: seq<seq<Turn>>, limit: nat,
                                   states: seq<State>, steps: seq<Step>, i: nat, c: nat)
    requires NonEmpty(requests) && IsRun(requests, limit, states, steps) && i <= |steps| && c < |requests|
    ensures |states| == |steps| + 1 && |states[i].convs| == |requests|
    ensures FromRequest(states[i].convs[c], requests[c])
  {
    hide Shaped, Enabled, Apply, Inv;
    if i > 0 {
      RunFromRequest(requests, limit, states, steps, i - 1, c);
      RunInv(requests, limit, states, steps, i - 1);
      StepFromRequest(states[i - 1], limit, steps[i - 1], c, requests[c]);
    }
  }

  /** The request asked for as many tokens as the turn was given at the start. */
  predicate AsRequested(requests: seq<seq<Turn>>, e: Sent) {
    && e.conv < |requests| && e.turn < |requests[e.conv]|
    && e.maxTokens == requests[e.conv][e.turn].outputLen
  }

  lemma StepAsRequested(requests: seq<seq<Turn>>, s: State, limit: nat, step: Step, k: nat)
    requires Shaped(s) && Inv(s) && Enabled(limit, s, step) && |s.convs| == |requests|
    requires forall c :: 0 <= c < |requests| ==> FromRequest(s.convs[c], requests[c])
    requires k < |Apply(s, step, limit).sent| && (k < |s.sent| ==> AsRequested(requests, s.sent[k]))
    ensures AsRequested(requests, Apply(s, step, limit).sent[k])
  {
    hide Located, InOrder, SentOk, Dialogue, HistoryLen;
    if step.Start? {
      assert ConvOk(s.convs[s.running[step.k]]);
    }
  }

  /**
   max_tokens is the limit the turn was given, for every request of every run: overwriting it by
   the real output length never reaches a turn that is yet to be sent.
   */
  lemma {:induction false} LimitsAsRequested(requests: seq<seq<Turn>>, limit: nat,
                                   states: seq<State>, steps: seq<Step>, i: nat, k: nat)
    requires NonEmpty(requests) && IsRun(requests, limit, states, steps) && i <= |steps| && k < |states[i].sent|
    ensures AsRequested(requests, states[i].sent[k])
  {
    hide Shaped, Enabled, Apply, Inv, FromRequest, AsRequested;
    if i > 0 {
      var s := states[i - 1];
      RunInv(requests, limit, states, steps, i - 1);
      forall c | 0 <= c < |requests| ensures FromRequest(s.convs[c], requests[c]) {
        RunFromRequest(requests, limit, states, steps, i - 1, c);
      }
      if k < |s.sent| {
        LimitsAsRequested(requests, limit, states, steps, i - 1, k);
      }
      assert states[i] == Apply(s, steps[i - 1], limit);
      StepAsRequested(requests, s, limit, steps[i - 1], k);
    }
  }
}
