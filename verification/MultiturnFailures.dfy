/** Runs with failures: exactly when the benchmark still comes to an end. */
module MultiturnFailures {
  import opened Sums
  import opened Multiturn
  import opened MultiturnInvariant
  import opened MultiturnProgress

  // ---------------------------------------------------------------------------
  // The progress bar

  /** Requests whose task raised, so that the progress bar did not move. */
  function Uncounted(steps: seq<Step>): nat {
    if steps == [] then 0
    else
      var last := steps[|steps| - 1];
      Uncounted(steps[..|steps| - 1]) + if last.Raise? then 1 else 0
  }

  lemma StepProgress(cfg: Config, s: State, step: Step)
    requires Inv(cfg, s) && Enabled(cfg, s, step)
    ensures var t := Apply(cfg, s, step);
            t.completed + |Unput(t)| + |t.responses| - t.progress ==
            s.completed + |Unput(s)| + |s.responses| - s.progress + if step.Raise? then 1 else 0
  {
    hide Front, Back, HandleOk, Owned, Fenced, Supplied, Sum;
    if step.Handle? && s.responses[0].ok {
      OkHandled(cfg, s);
    }
  }

  lemma AtStart(cfg: Config, states: seq<State>, steps: seq<Step>)
    requires IsRun(cfg, states, steps)
    ensures |states| == |steps| + 1 && Init(cfg, states[0])
  {
  }

  lemma StartCounts(cfg: Config, s: State)
    requires Init(cfg, s)
    ensures s.progress == s.completed + |Unput(s)| + |s.responses| && FailedInReach(cfg, s)
  {
  }

  /** The bar falls behind the handled, queued and counted responses by exactly the uncounted ones. */
  lemma {:induction false} ProgressCounts(cfg: Config, states: seq<State>, steps: seq<Step>, i: nat)
    requires ValidConfig(cfg) && IsRun(cfg, states, steps) && i <= |steps|
    ensures |states| == |steps| + 1
    ensures states[i].progress + Uncounted(steps[..i])
         == states[i].completed + |Unput(states[i])| + |states[i].responses|
  {
    hide IsRun, Inv, Enabled, Apply, Init;
    if i == 0 {
      AtStart(cfg, states, steps);
      StartCounts(cfg, states[0]);
    } else {
      ProgressCounts(cfg, states, steps, i - 1);
      RunStep(cfg, states, steps, i - 1);
      StepProgress(cfg, states[i - 1], steps[i - 1]);
      assert steps[..i][..i - 1] == steps[..i - 1];
    }
  }

  // ---------------------------------------------------------------------------
  // Failed clients and the barrier

  /** With the barrier on, a client fails in a round the barrier has reached. */
  ghost predicate FailedInReach(cfg: Config, s: State) {
    cfg.barrier ==> forall c :: 0 <= c < |s.dropped| && c < |s.rounds| && s.dropped[c] ==> s.rounds[c] <= s.barrierRound
  }

  lemma StepReach(cfg: Config, s: State, step: Step)
    requires Inv(cfg, s) && Enabled(cfg, s, step) && FailedInReach(cfg, s)
    ensures FailedInReach(cfg, Apply(cfg, s, step))
  {
    hide Front, Back, HandleOk, Owned, Counted, Supplied, Sum;
    if step.Handle? && cfg.barrier {
      HeadRound(cfg, s);
      HeadCurrent(cfg, s);
      if s.responses[0].ok {
        OkHandled(cfg, s);
        OkBarrier(cfg, s);
      }
    }
  }

  lemma {:induction false} RunReach(cfg: Config, states: seq<State>, steps: seq<Step>, i: nat)
    requires ValidConfig(cfg) && IsRun(cfg, states, steps) && i <= |steps|
    ensures |states| == |steps| + 1 && FailedInReach(cfg, states[i])
  {
    hide IsRun, Inv, Enabled, Apply, FailedInReach, Init;
    if i == 0 {
      AtStart(cfg, states, steps);
      StartCounts(cfg, states[0]);
    } else {
      RunReach(cfg, states, steps, i - 1);
      RunStep(cfg, states, steps, i - 1);
      StepReach(cfg, states[i - 1], steps[i - 1]);
    }
  }

  // ---------------------------------------------------------------------------
  // Rest

  /** Nothing moves any more: the threads that have not stopped only poll. */
  ghost predicate AtRest(cfg: Config, s: State) {
    !s.handler.TimedOut? && forall step :: Productive(step) ==> !Enabled(cfg, s, step)
  }

  lemma RestWaits(cfg: Config, s: State)
    requires Inv(cfg, s) && AtRest(cfg, s)
    ensures s.handler.Waiting? || s.handler.HandlerStopped?
  {
    hide Front, Back, Owned, Fenced, Supplied, Counted;
    assert !Enabled(cfg, s, Release) && !Enabled(cfg, s, FinishRelease);
  }

  lemma RestIsQuiet(cfg: Config, s: State)
    requires Inv(cfg, s) && AtRest(cfg, s) && s.handler.Waiting? && cfg.maxParallel >= 1
    ensures s.responses == [] && Unput(s) == [] && s.inflight == [] && s.ready == [] && Front(s) == multiset{}
  {
    hide Owned, Fenced, Supplied;
    assert !Enabled(cfg, s, Handle) && !Enabled(cfg, s, Launch) && !Enabled(cfg, s, Put);
    assert !Enabled(cfg, s, Count(0, true, [])) && !Enabled(cfg, s, Pop(0));
    if s.sender.SenderStopped? {
      StoppedQuiet(cfg, s);
    }
  }

  /** What a client has left: rounds it neither finished nor failed. */
  function Gaps(totals: seq<nat>, rounds: seq<nat>, dropped: seq<bool>): (g: seq<int>)
    requires |totals| == |rounds| == |dropped|
    ensures |g| == |totals|
  {
    seq(|totals|, c requires 0 <= c < |totals| => totals[c] - rounds[c] - Drops(dropped)[c])
  }

  lemma GapSum(cfg: Config, s: State)
    requires Shaped(cfg, s) && Counted(cfg, s)
    ensures Sum(Gaps(cfg.totals, s.rounds, s.dropped)) == TotalRequests(cfg) - s.completed
    ensures forall c :: 0 <= c < |cfg.totals| ==> Gaps(cfg.totals, s.rounds, s.dropped)[c] >= 0
  {
    var gaps, drops, n := Gaps(cfg.totals, s.rounds, s.dropped), Drops(s.dropped), |cfg.totals|;
    var done := seq(n, c requires 0 <= c < n => s.rounds[c] + drops[c]);
    SumAdd(s.rounds, drops, done);
    SumAdd(gaps, done, cfg.totals);
  }

  // ---------------------------------------------------------------------------
  // Exactly when a run with failures comes to an end

  /** Every failure was in the last round of its client and, with the barrier on, of all clients. */
  ghost predicate Harmless(cfg: Config, s: State)
    requires Shaped(cfg, s)
  {
    forall c :: 0 <= c < |cfg.totals| && s.dropped[c] ==>
      && s.rounds[c] + 1 == cfg.totals[c]
      && (cfg.barrier ==> forall k :: 0 <= k < |cfg.totals| ==> cfg.totals[k] <= s.rounds[c] + 1)
  }

  /** The client the barrier waits for has failed. */
  lemma BarrierWaitsFor(cfg: Config, s: State, q: Request) returns (k: nat)
    requires Inv(cfg, s) && cfg.barrier && s.handler.Waiting? && Front(s) == multiset{} && q in Back(s)
    ensures k < |cfg.totals| && s.dropped[k] && s.rounds[k] <= s.barrierRound < cfg.totals[k]
    ensures q.client < |cfg.totals| && cfg.totals[q.client] > s.barrierRound + 1
  {
    var bag, b := Back(s), s.barrierRound;
    assert Front(s) + Back(s) == bag;
    HeldClient(cfg, s, bag, q);
    k := SumGap(Marks(s.rounds, b), Marks(cfg.totals, b));
    WaitedForIsDropped(cfg, s, bag, k);
    HeldGoesOn(cfg, s, bag, q);
  }

  lemma WaitedForIsDropped(cfg: Config, s: State, bag: multiset<Request>, k: nat)
    requires Shaped(cfg, s) && Owned(cfg.totals, s.rounds, s.history, s.dropped, bag)
    requires k < |cfg.totals| && s.rounds[k] <= s.barrierRound < cfg.totals[k]
    requires forall q :: q in bag ==> q.round == s.barrierRound + 1
    ensures s.dropped[k]
  {
    var own := Request(k, s.rounds[k], s.history[k]);
    assert own in bag <==> bag[own] > 0;
  }

  lemma HeldGoesOn(cfg: Config, s: State, bag: multiset<Request>, q: Request)
    requires Shaped(cfg, s) && Owned(cfg.totals, s.rounds, s.history, s.dropped, bag) && q in bag
    ensures q.client < |cfg.totals| && q.round == s.rounds[q.client] < cfg.totals[q.client]
  {
    assert q == Request(q.client, s.rounds[q.client], s.history[q.client]);
  }

  lemma HarmlessHoldsNothing(cfg: Config, s: State)
    requires Inv(cfg, s) && s.handler.Waiting? && Front(s) == multiset{} && Harmless(cfg, s)
    ensures Back(s) == multiset{}
  {
    if q :| q in Back(s) {
      if cfg.barrier {
        var _ := BarrierWaitsFor(cfg, s, q);
      }
      assert false;
    }
  }

  lemma HarmlessFinishes(cfg: Config, s: State, c: nat)
    requires Inv(cfg, s) && s.handler.Waiting? && Front(s) == multiset{} && Harmless(cfg, s) && c < |cfg.totals|
    ensures Gaps(cfg.totals, s.rounds, s.dropped)[c] == 0
  {
    HarmlessHoldsNothing(cfg, s);
    var own := Request(c, s.rounds[c], s.history[c]);
    assert (Front(s) + Back(s))[own] == 0;
  }

  /** With a full bar a client has all rounds behind it but at most one, which it failed or is being answered. */
  lemma FullBarBusy(cfg: Config, s: State)
    requires Inv(cfg, s) && s.progress == TotalRequests(cfg)
    ensures forall k :: 0 <= k < |cfg.totals| ==>
              s.rounds[k] + Drops(s.dropped)[k] + Lives(cfg.totals, s.rounds, s.dropped)[k] == cfg.totals[k]
  {
    hide Front, Back, Fenced, Supplied;
    BagSize(s);
    StoppedQuiet(cfg, s);
    var n := |cfg.totals|;
    var lives, drops := Lives(cfg.totals, s.rounds, s.dropped), Drops(s.dropped);
    var done := seq(n, k requires 0 <= k < n => s.rounds[k] + drops[k]);
    var busy := seq(n, k requires 0 <= k < n => done[k] + lives[k]);
    SumAdd(s.rounds, drops, done);
    SumAdd(done, lives, busy);
    SumOrder(busy, cfg.totals);
    assert busy == cfg.totals;
  }

  lemma LiveInReach(cfg: Config, s: State, k: nat)
    requires Inv(cfg, s) && cfg.barrier && s.progress == TotalRequests(cfg) && !s.handler.Releasing?
    requires k < |cfg.totals| && Live(cfg.totals, s.rounds, s.dropped, k)
    ensures s.rounds[k] == s.barrierRound
  {
    StoppedQuiet(cfg, s);
    var own := Request(k, s.rounds[k], s.history[k]);
    assert (Front(s) + Back(s))[own] == 1 && Back(s) == multiset{};
    assert own in Front(s);
  }

  lemma FullBarInReach(cfg: Config, s: State, c: nat, k: nat)
    requires Inv(cfg, s) && FailedInReach(cfg, s) && cfg.barrier
    requires s.progress == TotalRequests(cfg) && !s.handler.Releasing?
    requires c < |cfg.totals| && k < |cfg.totals| && s.dropped[c] && s.rounds[c] + 1 == cfg.totals[c]
    ensures cfg.totals[k] <= s.rounds[c] + 1
  {
    hide Front, Back, Owned, Supplied, Sum;
    var r, b := s.rounds[c], s.barrierRound;
    FullBarBusy(cfg, s);
    assert s.rounds[k] + Drops(s.dropped)[k] + Lives(cfg.totals, s.rounds, s.dropped)[k] == cfg.totals[k];
    if Live(cfg.totals, s.rounds, s.dropped, k) {
      LiveInReach(cfg, s, k);
    }
    assert r <= b && (s.dropped[k] ==> s.rounds[k] <= b) && s.rounds[k] <= b + 1;
    if r < b {
      CountOrder(s.rounds, cfg.totals, r);
    }
  }

  lemma FullBarHarmless(cfg: Config, s: State)
    requires Inv(cfg, s) && FailedInReach(cfg, s) && s.progress == TotalRequests(cfg) && !s.handler.Releasing?
    ensures Harmless(cfg, s)
  {
    hide Front, Back, Owned, Supplied, Sum, Fenced, FailedInReach;
    FullBarBusy(cfg, s);
    forall c | 0 <= c < |cfg.totals| && s.dropped[c]
      ensures s.rounds[c] + 1 == cfg.totals[c]
      ensures cfg.barrier ==> forall k :: 0 <= k < |cfg.totals| ==> cfg.totals[k] <= s.rounds[c] + 1
    {
      assert s.rounds[c] + Drops(s.dropped)[c] + Lives(cfg.totals, s.rounds, s.dropped)[c] == cfg.totals[c];
      if cfg.barrier {
        forall k | 0 <= k < |cfg.totals| ensures cfg.totals[k] <= s.rounds[c] + 1 {
          FullBarInReach(cfg, s, c, k);
        }
      }
    }
  }

  lemma HarmlessCompletes(cfg: Config, s: State)
    requires Inv(cfg, s) && s.handler.Waiting? && Front(s) == multiset{} && Harmless(cfg, s)
    ensures s.completed == TotalRequests(cfg)
  {
    hide Front, Back, Owned, Supplied, Sum, Fenced, Harmless;
    var gaps := Gaps(cfg.totals, s.rounds, s.dropped);
    GapSum(cfg, s);
    forall c | 0 <= c < |cfg.totals| ensures gaps[c] == 0 {
      HarmlessFinishes(cfg, s, c);
    }
    SumZero(gaps);
  }

  /**
   At rest the progress bar is full if and only if no task raised and every failure was in the
   last round of its client and, with the barrier on, of all clients.
   */
  lemma RestStopsIff(cfg: Config, states: seq<State>, steps: seq<Step>)
    requires ValidConfig(cfg) && IsRun(cfg, states, steps) && cfg.maxParallel >= 1
    requires AtRest(cfg, states[|steps|])
    ensures Shaped(cfg, states[|steps|])
    ensures states[|steps|].progress == TotalRequests(cfg) <==> Uncounted(steps) == 0 && Harmless(cfg, states[|steps|])
  {
    hide IsRun, Inv, Enabled, AtRest, Sum, Front, FailedInReach, Harmless;
    RunInv(cfg, states, steps, |steps|);
    var s := states[|steps|];
    RunReach(cfg, states, steps, |steps|);
    ProgressCounts(cfg, states, steps, |steps|);
    assert steps[..|steps|] == steps;
    RestWaits(cfg, s);
    StoppedFull(cfg, s);
    if s.progress == TotalRequests(cfg) {
      StoppedQuiet(cfg, s);
      FullBarHarmless(cfg, s);
    } else if Harmless(cfg, s) {
      RestIsQuiet(cfg, s);
      HarmlessCompletes(cfg, s);
    }
  }

  // ---------------------------------------------------------------------------
  // What happens at rest

  /** With a full bar the sender's loop ends, and the handler's after one more timeout. */
  lemma FullBarStops(cfg: Config, s: State)
    requires Inv(cfg, s) && AtRest(cfg, s) && s.handler.Waiting? && cfg.maxParallel >= 1 && s.progress == TotalRequests(cfg)
    ensures s.sender.Polling? ==> Enabled(cfg, s, StopSender)
    ensures Enabled(cfg, s, TimeOut)
    ensures var t := Apply(cfg, s, TimeOut);
            && Shaped(cfg, t) && Enabled(cfg, t, CheckDone)
            && Apply(cfg, t, CheckDone).handler.HandlerStopped?
  {
    RestIsQuiet(cfg, s);
  }

  lemma RestStep(cfg: Config, s: State, t: State, step: Step)
    requires Shaped(cfg, s) && AtRest(cfg, s) && s.handler.Waiting? && s.progress != TotalRequests(cfg)
    requires t == s || t == s.(handler := TimedOut)
    requires Shaped(cfg, t) && Enabled(cfg, t, step)
    ensures Apply(cfg, t, step) == s || Apply(cfg, t, step) == s.(handler := TimedOut)
  {
    assert Productive(step) ==> !Enabled(cfg, s, step);
  }

  /** Without a full bar both threads poll for ever. */
  lemma {:induction false} PollsForever(cfg: Config, states: seq<State>, steps: seq<Step>, i: nat, j: nat)
    requires ValidConfig(cfg) && IsRun(cfg, states, steps) && i <= j <= |steps|
    requires AtRest(cfg, states[i]) && states[i].progress != TotalRequests(cfg)
    ensures |states| == |steps| + 1
    ensures states[j] == states[i] || states[j] == states[i].(handler := TimedOut)
  {
    hide IsRun, Inv, Enabled, Apply, AtRest, Shaped;
    RunInv(cfg, states, steps, i);
    if i < j {
      PollsForever(cfg, states, steps, i, j - 1);
      RunStep(cfg, states, steps, j - 1);
      RestWaits(cfg, states[i]);
      StoppedFull(cfg, states[i]);
      RestStep(cfg, states[i], states[j - 1], steps[j - 1]);
    }
  }
}
