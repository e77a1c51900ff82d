/** Progress of the multi-turn protocol, and the one way it can be lost without a failed request. */
module MultiturnProgress {
  import opened Sequences
  import opened Sums
  import opened Multiturn
  import opened MultiturnInvariant

  // ---------------------------------------------------------------------------
  // A measure that every productive step lowers

  /** Steps that move a request or the barrier; the others only poll. */
  predicate Productive(step: Step) {
    !step.TimeOut? && !step.CheckDone? && !step.StopSender?
  }

  function Measure(cfg: Config, s: State): int {
    8 * (TotalRequests(cfg) - s.completed)
    - (|Todo(s)| + 2 * |s.ready| + 3 * |Sending(s)| + 4 * |s.inflight| + 5 * |Unput(s)| + 6 * |s.responses|)
    + if s.handler.Releasing? then 1 else 0
  }

  lemma MeasureBounded(cfg: Config, s: State)
    requires Inv(cfg, s)
    ensures 0 <= Measure(cfg, s) <= 8 * (TotalRequests(cfg) - s.completed) + 1
  {
    WorkBound(cfg, s);
    BagSize(s);
  }

  /** With or without failures, every productive step lowers the measure. */
  lemma MeasureFalls(cfg: Config, s: State, step: Step)
    requires Inv(cfg, s) && Enabled(cfg, s, step)
    ensures var t := Apply(cfg, s, step);
            if Productive(step) then Measure(cfg, t) < Measure(cfg, s) else Measure(cfg, t) == Measure(cfg, s)
  {
    hide Front, Back, Sum, Owned, Fenced, Supplied;
    if step.Handle? {
      HeadCurrent(cfg, s);
      if s.responses[0].ok {
        HandledMeasure(cfg, s);
      }
    }
  }

  lemma HandledMeasure(cfg: Config, s: State)
    requires Inv(cfg, s) && Enabled(cfg, s, Handle) && s.responses[0].ok
    ensures Measure(cfg, Apply(cfg, s, Handle)) < Measure(cfg, s)
  {
    hide Front, Back, Sum, HandleResponse;
    OkHandled(cfg, s);
  }

  function ProductiveSteps(steps: seq<Step>): nat {
    if steps == [] then 0
    else ProductiveSteps(steps[..|steps| - 1]) + if Productive(steps[|steps| - 1]) then 1 else 0
  }

  lemma {:induction false} MeasurePaysForSteps(cfg: Config, states: seq<State>, steps: seq<Step>, i: nat)
    requires ValidConfig(cfg) && IsRun(cfg, states, steps) && i <= |steps|
    ensures |states| == |steps| + 1
    ensures ProductiveSteps(steps[..i]) + Measure(cfg, states[i]) <= Measure(cfg, states[0])
  {
    hide IsRun, Inv, Apply, Enabled, Measure, Shaped;
    RunInv(cfg, states, steps, i);
    if i > 0 {
      MeasurePaysForSteps(cfg, states, steps, i - 1);
      RunStep(cfg, states, steps, i - 1);
      MeasureFalls(cfg, states[i - 1], steps[i - 1]);
      assert steps[..i][..i - 1] == steps[..i - 1];
    }
  }

  /** No run, failures or not, takes more than 8 * total_requests + 1 productive steps. */
  lemma RunsAreBounded(cfg: Config, states: seq<State>, steps: seq<Step>)
    requires ValidConfig(cfg) && IsRun(cfg, states, steps)
    ensures ProductiveSteps(steps) <= 8 * TotalRequests(cfg) + 1
  {
    hide Inv, Apply, Enabled, Measure, Shaped, ProductiveSteps;
    RunInv(cfg, states, steps, 0);
    RunInv(cfg, states, steps, |steps|);
    MeasureBounded(cfg, states[0]);
    MeasureBounded(cfg, states[|steps|]);
    MeasurePaysForSteps(cfg, states, steps, |steps|);
    assert steps[..|steps|] == steps;
  }

  // ---------------------------------------------------------------------------
  // Runs in which no request fails

  predicate Fails(step: Step) {
    step.Raise? || (step.Count? && !step.ok)
  }

  predicate FailureFree(steps: seq<Step>) {
    forall i :: 0 <= i < |steps| ==> !Fails(steps[i])
  }

  ghost predicate Clean(s: State) {
    && (forall c :: 0 <= c < |s.dropped| ==> !s.dropped[c])
    && (forall i :: 0 <= i < |s.responses| ==> s.responses[i].ok)
    && (s.sender.Answering? ==> s.sender.response.ok)
    && s.progress == s.completed + |Unput(s)| + |s.responses|
  }

  lemma StepClean(cfg: Config, s: State, step: Step)
    requires Inv(cfg, s) && Clean(s) && Enabled(cfg, s, step) && !Fails(step)
    ensures Clean(Apply(cfg, s, step))
  {
    hide Front, Back, HandleOk, Owned, Fenced, Supplied, Sum;
    if step.Handle? {
      OkHandled(cfg, s);
    }
  }

  lemma {:induction false} RunClean(cfg: Config, states: seq<State>, steps: seq<Step>, i: nat)
    requires ValidConfig(cfg) && IsRun(cfg, states, steps) && FailureFree(steps) && i <= |steps|
    ensures |states| == |steps| + 1 && Clean(states[i])
  {
    hide Inv, Apply, Enabled, Shaped;
    if i > 0 {
      RunClean(cfg, states, steps, i - 1);
      RunStep(cfg, states, steps, i - 1);
      StepClean(cfg, states[i - 1], steps[i - 1]);
    }
  }

  /** Without drops, completed counts exactly the finished rounds. */
  lemma CleanCompleted(cfg: Config, s: State)
    requires Inv(cfg, s) && Clean(s)
    ensures s.completed == Sum(s.rounds) <= TotalRequests(cfg)
    ensures s.completed == TotalRequests(cfg) ==> s.rounds == cfg.totals
  {
    hide Front, Back;
    SumZero(Drops(s.dropped));
    SumOrder(s.rounds, cfg.totals);
  }

  /** Unfinished work without drops means some request is outstanding. */
  lemma WorkIsOutstanding(cfg: Config, s: State)
    requires Inv(cfg, s) && Clean(s) && s.completed < TotalRequests(cfg)
    ensures |Front(s) + Back(s)| > 0
  {
    hide Front, Back;
    CleanCompleted(cfg, s);
    var c := SumGap(s.rounds, cfg.totals);
    SumMember(Lives(cfg.totals, s.rounds, s.dropped), c);
  }

  /** When only requests of round b + 1 are outstanding and no client was dropped, round b is complete. */
  lemma RoundComplete(totals: seq<nat>, rounds: seq<nat>, history: seq<seq<Item>>, dropped: seq<bool>,
                      bag: multiset<Request>, b: nat)
    requires |totals| == |rounds| == |history| == |dropped|
    requires Owned(totals, rounds, history, dropped, bag)
    requires forall c :: 0 <= c < |totals| ==> rounds[c] <= totals[c] && !dropped[c]
    requires forall q :: q in bag ==> q.round == b + 1
    ensures CountAbove(rounds, b) == CountAbove(totals, b)
  {
    forall c | 0 <= c < |totals| ensures rounds[c] > b <==> totals[c] > b {
      var q := Request(c, rounds[c], history[c]);
      if Live(totals, rounds, dropped, c) {
        assert bag[q] == 1;
        assert q in bag;
      }
    }
    assert Marks(rounds, b) == Marks(totals, b);
  }

  lemma AboveExists(rounds: seq<nat>, b: nat, c: nat)
    requires c < |rounds| && rounds[c] > b
    ensures CountAbove(rounds, b) >= 1
  {
    SumMember(Marks(rounds, b), c);
  }

  /** Held requests alone never wait for the barrier: it opens first. */
  lemma BarrierOpens(cfg: Config, s: State)
    requires Inv(cfg, s) && Clean(s) && !s.handler.Releasing?
    requires Front(s) == multiset{}
    ensures s.held == []
  {
    if cfg.barrier && s.held != [] {
      var q := s.held[0];
      assert Front(s) + Back(s) == Back(s) && q in Back(s);
      var bag := Back(s);
      HeldClient(cfg, s, bag, q);
      RoundComplete(cfg.totals, s.rounds, s.history, s.dropped, bag, s.barrierRound);
      assert false;
    }
  }

  lemma HeldClient(cfg: Config, s: State, bag: multiset<Request>, q: Request)
    requires Shaped(cfg, s) && Owned(cfg.totals, s.rounds, s.history, s.dropped, bag)
    requires q in bag && q.round == s.barrierRound + 1
    ensures CountAbove(s.rounds, s.barrierRound) >= 1
  {
    AboveExists(s.rounds, s.barrierRound, q.client);
  }

  /** The next productive step of a run that has not failed and whose handler has not given up. */
  lemma NextStep(cfg: Config, s: State) returns (step: Step)
    requires Inv(cfg, s) && Clean(s) && cfg.maxParallel >= 1
    requires s.completed < TotalRequests(cfg) && (s.handler.Waiting? || s.handler.Releasing?)
    ensures Enabled(cfg, s, step) && Productive(step)
  {
    if s.handler.Releasing? {
      step := if s.handler.todo == [] then FinishRelease else Release;
    } else if s.responses != [] {
      step := Handle;
    } else {
      if s.sender.SenderStopped? {
        StoppedQuiet(cfg, s);
        assert false;
      }
      if s.sender.Holding? {
        step := Launch;
      } else if s.sender.Answering? {
        step := Put;
      } else if s.inflight != [] {
        step := Count(0, true, []);
      } else {
        ReadyNotEmpty(cfg, s);
        step := Pop(0);
      }
    }
  }

  lemma ReadyNotEmpty(cfg: Config, s: State)
    requires Inv(cfg, s) && Clean(s) && s.completed < TotalRequests(cfg)
    requires s.handler.Waiting? && s.responses == [] && s.inflight == [] && s.sender.Polling?
    ensures s.ready != []
  {
    WorkIsOutstanding(cfg, s);
    BagSize(s);
    if s.ready == [] {
      assert Front(s) == multiset{};
      BarrierOpens(cfg, s);
    }
  }

  /**
   In a failure-free run with max_parallel >= 1, barrier on or off: as long as requests are
   unhandled and the handler is in its loop, some productive step is possible; when all of them
   are handled, every client has finished all its rounds and the sender can stop.
   */
  lemma Progress(cfg: Config, states: seq<State>, steps: seq<Step>)
    requires ValidConfig(cfg) && IsRun(cfg, states, steps) && FailureFree(steps) && cfg.maxParallel >= 1
    ensures |states| == |steps| + 1
    ensures var s := states[|steps|];
            && (s.completed < TotalRequests(cfg) && (s.handler.Waiting? || s.handler.Releasing?) ==>
                  exists step :: Enabled(cfg, s, step) && Productive(step))
            && (s.completed == TotalRequests(cfg) ==>
                  && s.rounds == cfg.totals
                  && (s.sender.Polling? ==> Enabled(cfg, s, StopSender)))
  {
    hide IsRun;
    RunInv(cfg, states, steps, |steps|);
    var s := states[|steps|];
    RunClean(cfg, states, steps, |steps|);
    CleanCompleted(cfg, s);
    if s.completed < TotalRequests(cfg) && (s.handler.Waiting? || s.handler.Releasing?) {
      var step := NextStep(cfg, s);
    } else if s.completed == TotalRequests(cfg) {
      AllHandled(cfg, s);
    }
  }

  lemma AllHandled(cfg: Config, s: State)
    requires Inv(cfg, s) && Clean(s) && s.completed == TotalRequests(cfg)
    ensures s.responses == [] && s.inflight == [] && Unput(s) == [] && s.progress == TotalRequests(cfg)
  {
    hide Front, Back;
    WorkBound(cfg, s);
    BagSize(s);
  }

  // ---------------------------------------------------------------------------
  // How the threads stop

  /** The sender, and with it the event loop, never stops while a request is unanswered. */
  lemma SenderAbandonsNothing(cfg: Config, states: seq<State>, steps: seq<Step>, i: nat)
    requires ValidConfig(cfg) && IsRun(cfg, states, steps) && i <= |steps|
    requires states[i].sender.SenderStopped?
    ensures states[i].ready == [] && states[i].inflight == [] && states[i].held == []
  {
    hide IsRun;
    RunInv(cfg, states, steps, i);
    StoppedQuiet(cfg, states[i]);
  }

  /** The handler finds the bar full while a response is queued, or counted and not yet put. */
  ghost predicate StopsEarly(cfg: Config, s: State, step: Step) {
    step.CheckDone? && s.progress == TotalRequests(cfg) && (s.responses != [] || s.sender.Answering?)
  }

  ghost predicate StoppedEarly(cfg: Config, states: seq<State>, steps: seq<Step>, i: nat)
    requires i <= |steps| <= |states|
  {
    exists j :: 0 <= j < i && StopsEarly(cfg, states[j], steps[j])
  }

  /** Once the handler has stopped, nothing is handled any more. */
  lemma StepStopped(cfg: Config, s: State, step: Step)
    requires Inv(cfg, s) && Enabled(cfg, s, step)
    ensures var t := Apply(cfg, s, step);
            if s.handler.HandlerStopped? then t.handler == s.handler && t.completed == s.completed
            else if step.CheckDone? && s.progress == TotalRequests(cfg) then
              && t.handler.HandlerStopped? && t.completed == s.completed
              && (s.completed == TotalRequests(cfg) <==> !StopsEarly(cfg, s, step))
            else t.handler.HandlerStopped? ==> t == s
  {
    hide Front, Back, HandleOk, Owned, Fenced, Supplied, Counted;
    if step.CheckDone? && s.progress == TotalRequests(cfg) {
      StoppedQuiet(cfg, s);
    } else if step.Handle? && s.responses[0].ok {
      OkHandled(cfg, s);
    }
  }

  /**
   The handler may stop with responses unhandled: they were counted after its get timed out and
   before it looked at the progress bar.  Everything is handled if and only if it did not look
   while a response was queued, or counted and not yet put.
   */
  lemma {:induction false} HandlerLeavesQueue(cfg: Config, states: seq<State>, steps: seq<Step>, i: nat)
    requires ValidConfig(cfg) && IsRun(cfg, states, steps) && i <= |steps|
    ensures |states| == |steps| + 1
    ensures states[i].handler.HandlerStopped? ==>
              (states[i].completed == TotalRequests(cfg) <==> !StoppedEarly(cfg, states, steps, i))
    ensures !states[i].handler.HandlerStopped? ==> !StoppedEarly(cfg, states, steps, i)
  {
    hide IsRun, Inv, Enabled, Apply, StopsEarly, TotalRequests;
    RunInv(cfg, states, steps, i);
    if i > 0 {
      HandlerLeavesQueue(cfg, states, steps, i - 1);
      RunStep(cfg, states, steps, i - 1);
      StepStopped(cfg, states[i - 1], steps[i - 1]);
      StopsEarlyMeans(cfg, states[i - 1], steps[i - 1]);
      assert StoppedEarly(cfg, states, steps, i) <==>
             StoppedEarly(cfg, states, steps, i - 1) || StopsEarly(cfg, states[i - 1], steps[i - 1]);
    } else {
      RunStart(cfg, states, steps);
    }
  }

  lemma StopsEarlyMeans(cfg: Config, s: State, step: Step)
    requires Enabled(cfg, s, step)
    ensures StopsEarly(cfg, s, step) ==>
              step.CheckDone? && s.progress == TotalRequests(cfg) && !s.handler.HandlerStopped?
  {
  }

  lemma RunStart(cfg: Config, states: seq<State>, steps: seq<Step>)
    requires IsRun(cfg, states, steps)
    ensures |states| == |steps| + 1 && states[0].handler.Waiting?
  {
  }

  /** What is left behind is exactly what is queued, or counted and about to be. */
  lemma LeftBehind(cfg: Config, states: seq<State>, steps: seq<Step>, i: nat)
    requires ValidConfig(cfg) && IsRun(cfg, states, steps) && i <= |steps|
    requires states[i].handler.HandlerStopped?
    ensures states[i].completed + |Unput(states[i])| + |states[i].responses| == TotalRequests(cfg)
    ensures states[i].ready == [] && states[i].inflight == [] && states[i].held == []
  {
    hide IsRun;
    RunInv(cfg, states, steps, i);
    StoppedQuiet(cfg, states[i]);
  }

  /**
   What an early stop does to the sender: once the counted response is put, the only step left in
   the whole program is the sender's stop, and that is possible if and only if fewer responses
   than max_parallel were left behind.
   */
  lemma SenderStopsIff(cfg: Config, states: seq<State>, steps: seq<Step>, i: nat)
    requires ValidConfig(cfg) && IsRun(cfg, states, steps) && i <= |steps|
    requires states[i].handler.HandlerStopped? && !states[i].sender.SenderStopped?
    ensures var s := states[i];
            if s.sender.Answering? then Enabled(cfg, s, Put)
            else
              && (Enabled(cfg, s, StopSender) <==> |s.responses| < cfg.maxParallel)
              && (forall step :: Enabled(cfg, s, step) ==> step == StopSender)
  {
    hide IsRun, Inv, Enabled;
    RunInv(cfg, states, steps, i);
    StoppedSender(cfg, states[i]);
  }

  lemma StoppedSender(cfg: Config, s: State)
    requires Inv(cfg, s) && s.handler.HandlerStopped? && !s.sender.SenderStopped?
    ensures if s.sender.Answering? then Enabled(cfg, s, Put)
            else
              && (Enabled(cfg, s, StopSender) <==> |s.responses| < cfg.maxParallel)
              && (forall step :: Enabled(cfg, s, step) ==> step == StopSender)
  {
    hide Front, Back, Owned, Fenced, Supplied, Sum;
    StoppedQuiet(cfg, s);
  }

  /**
   A failure-free run that has come to rest has handled every request, except exactly when the
   handler stopped while a response was queued, or counted and not yet put.
   */
  lemma RestsCompleteUnlessStoppedEarly(cfg: Config, states: seq<State>, steps: seq<Step>)
    requires ValidConfig(cfg) && IsRun(cfg, states, steps) && FailureFree(steps) && cfg.maxParallel >= 1
    requires !states[|steps|].handler.TimedOut?
    requires forall step :: Productive(step) ==> !Enabled(cfg, states[|steps|], step)
    ensures |states| == |steps| + 1
    ensures states[|steps|].completed == TotalRequests(cfg) <==> !StoppedEarly(cfg, states, steps, |steps|)
  {
    hide IsRun, Inv, Enabled, StoppedEarly;
    Progress(cfg, states, steps);
    RunInv(cfg, states, steps, |steps|);
    HandlerLeavesQueue(cfg, states, steps, |steps|);
    var s := states[|steps|];
    assert !s.handler.Crashed? by { NotCrashed(cfg, s); }
    if !s.handler.HandlerStopped? {
      RunClean(cfg, states, steps, |steps|);
      CleanCompleted(cfg, s);
    }
  }

  lemma NotCrashed(cfg: Config, s: State)
    requires Inv(cfg, s)
    ensures !s.handler.Crashed?
  {
    hide Front, Back;
  }

  // ---------------------------------------------------------------------------
  // A failed request before the last round

  ghost predicate CutShort(cfg: Config, s: State, c: nat) {
    c < |cfg.totals| == |s.dropped| == |s.rounds| && s.dropped[c] && s.rounds[c] + 1 < cfg.totals[c]
  }

  lemma CutShortState(cfg: Config, s: State, c: nat)
    requires Inv(cfg, s) && CutShort(cfg, s, c)
    ensures s.progress < TotalRequests(cfg)
  {
    CutShortBound(cfg, s, c);
    BagSize(s);
  }

  lemma CutShortBound(cfg: Config, s: State, c: nat)
    requires Inv(cfg, s) && CutShort(cfg, s, c)
    ensures s.completed + Sum(Lives(cfg.totals, s.rounds, s.dropped)) < TotalRequests(cfg)
  {
    hide Front, Back;
    var n := |cfg.totals|;
    var lives, drops := Lives(cfg.totals, s.rounds, s.dropped), Drops(s.dropped);
    var done := seq(n, k requires 0 <= k < n => s.rounds[k] + drops[k]);
    var busy := seq(n, k requires 0 <= k < n => done[k] + lives[k]);
    SumAdd(s.rounds, drops, done);
    SumAdd(done, lives, busy);
    SumOrder(busy, cfg.totals);
    assert busy[c] < cfg.totals[c];
  }

  lemma CutShortStays(cfg: Config, s: State, step: Step, c: nat)
    requires Inv(cfg, s) && Enabled(cfg, s, step) && CutShort(cfg, s, c)
    ensures CutShort(cfg, Apply(cfg, s, step), c)
  {
    hide Front, Back, HandleOk;
    if step.Handle? {
      HeadCurrent(cfg, s);
      if s.responses[0].ok {
        OkHandled(cfg, s);
      }
    }
  }

  /** After a request fails before its client's last round, neither thread ever stops. */
  lemma {:induction false} FailureRunsForever(cfg: Config, states: seq<State>, steps: seq<Step>, i: nat, j: nat, c: nat)
    requires ValidConfig(cfg) && IsRun(cfg, states, steps) && i <= j <= |steps|
    requires CutShort(cfg, states[i], c)
    ensures |states| == |steps| + 1 && CutShort(cfg, states[j], c)
    ensures !states[j].sender.SenderStopped? && !states[j].handler.HandlerStopped?
  {
    hide IsRun, Inv, Enabled, Apply, CutShort;
    RunInv(cfg, states, steps, j);
    if i < j {
      FailureRunsForever(cfg, states, steps, i, j - 1, c);
      RunStep(cfg, states, steps, j - 1);
      CutShortStays(cfg, states[j - 1], steps[j - 1], c);
    }
    CutShortState(cfg, states[j], c);
    StoppedFull(cfg, states[j]);
  }

  lemma StoppedFull(cfg: Config, s: State)
    requires Inv(cfg, s)
    ensures s.sender.SenderStopped? || s.handler.HandlerStopped? ==> s.progress == TotalRequests(cfg)
  {
    hide Front, Back;
  }

  // ---------------------------------------------------------------------------
  // The race, concretely

  const RACE_CONFIG := Config([1], 1, 1, false, true)
  const RACE_STEPS := [Pop(0), Launch, TimeOut, Count(0, true, []), CheckDone, Put]

  /** The handler looks at the bar between the task's count and its put, when the queue is empty. */
  function RaceStates(): seq<State> {
    var q := Request(0, 0, []);
    var s0 := State([q], Polling, [], [], Waiting, [0], [[]], [false], [[]], [], 0, 0, 0, 0, 0);
    var s1 := s0.(ready := [], sender := Holding(q));
    var s2 := s1.(sender := Polling, inflight := [q], sent := 1);
    var s3 := s2.(handler := TimedOut);
    var s4 := s3.(inflight := [], sender := Answering(Response(q, true, [])), progress := 1);
    var s5 := s4.(handler := HandlerStopped);
    var s6 := s5.(sender := Polling, responses := [Response(q, true, [])]);
    [s0, s1, s2, s3, s4, s5, s6]
  }

  lemma RaceInit()
    ensures Init(RACE_CONFIG, RaceStates()[0]) && TotalRequests(RACE_CONFIG) == 1
  {
    var s := RaceStates()[0];
    assert Sum(RACE_CONFIG.totals) == 1;
    assert Needs([1], Zeros(1)) == [0];
    assert s.ready == seq(1, c requires 0 <= c < 1 => Request(c, 0, s.history[c]));
    assert Zeros(1) == [0] && seq(1, _ => false) == [false];
  }

  lemma RaceStep(i: nat)
    requires i < 6 && TotalRequests(RACE_CONFIG) == 1
    ensures Shaped(RACE_CONFIG, RaceStates()[i]) && Enabled(RACE_CONFIG, RaceStates()[i], RACE_STEPS[i])
    ensures RaceStates()[i + 1] == Apply(RACE_CONFIG, RaceStates()[i], RACE_STEPS[i])
  {
    hide TotalRequests;
    if i == 0 {
      assert RemoveAt(RaceStates()[0].ready, 0) == [];
    } else if i == 3 {
      assert RemoveAt(RaceStates()[3].inflight, 0) == [];
    }
  }

  lemma RaceStuck(step: Step)
    ensures !Enabled(RACE_CONFIG, RaceStates()[6], step)
  {
  }

  /**
   A run with one client and no failure in which the handler stops over an empty response queue,
   a response is left behind, and then no thread can take another step.
   */
  lemma EarlyStopHangs()
    ensures ValidConfig(RACE_CONFIG) && IsRun(RACE_CONFIG, RaceStates(), RACE_STEPS) && FailureFree(RACE_STEPS)
    ensures RACE_STEPS[4] == CheckDone && RaceStates()[4].responses == []
    ensures RaceStates()[6].completed < TotalRequests(RACE_CONFIG)
    ensures forall step :: !Enabled(RACE_CONFIG, RaceStates()[6], step)
  {
    hide Init, Enabled, Apply, Shaped, TotalRequests;
    RaceInit();
    forall i | 0 <= i < 6
      ensures Shaped(RACE_CONFIG, RaceStates()[i]) && Enabled(RACE_CONFIG, RaceStates()[i], RACE_STEPS[i])
      ensures RaceStates()[i + 1] == Apply(RACE_CONFIG, RaceStates()[i], RACE_STEPS[i])
    {
      RaceStep(i);
    }
    forall step ensures !Enabled(RACE_CONFIG, RaceStates()[6], step) {
      RaceStuck(step);
    }
  }
}
