/** What holds in every run of the multi-turn protocol. */
module MultiturnTheorems {
  import opened Sums
  import opened Multiturn
  import opened MultiturnInvariant

  // ---------------------------------------------------------------------------
  // The round barrier

  /** How many successful responses to round-r requests are handled in the first i steps. */
  ghost function Successes(cfg: Config, states: seq<State>, steps: seq<Step>, i: nat, r: nat): nat
    requires |states| == |steps| + 1 && i <= |steps|
  {
    if i == 0 then 0
    else
      var s := states[i - 1];
      var hit := steps[i - 1].Handle? && s.responses != [] && s.responses[0].ok && s.responses[0].request.round == r;
      Successes(cfg, states, steps, i - 1, r) + if hit then 1 else 0
  }

  /** Handling a success raises the round of the client it answers by one. */
  lemma HandleRounds(cfg: Config, s: State)
    requires Inv(cfg, s) && Enabled(cfg, s, Handle) && s.responses[0].ok
    ensures var q := s.responses[0].request;
            && q.client < |s.rounds| && s.rounds[q.client] == q.round
            && Apply(cfg, s, Handle).rounds == s.rounds[q.client := q.round + 1]
  {
    hide Front, Back, HandleOk;
    HeadCurrent(cfg, s);
    OkHandled(cfg, s);
  }

  /** No other step changes a round. */
  lemma OtherRounds(cfg: Config, s: State, step: Step)
    requires Shaped(cfg, s) && Enabled(cfg, s, step) && !(step.Handle? && s.responses[0].ok)
    ensures Apply(cfg, s, step).rounds == s.rounds
  {
  }

  /** The client records count the successes of every round. */
  lemma {:induction false} SuccessesAreRounds(cfg: Config, states: seq<State>, steps: seq<Step>, i: nat, r: nat)
    requires ValidConfig(cfg) && IsRun(cfg, states, steps) && i <= |steps|
    ensures Successes(cfg, states, steps, i, r) == CountAbove(states[i].rounds, r)
  {
    hide Inv, Apply, Shaped;
    if i == 0 {
      CountNone(states[0].rounds, r);
    } else {
      SuccessesAreRounds(cfg, states, steps, i - 1, r);
      RunStep(cfg, states, steps, i - 1);
      var s := states[i - 1];
      if steps[i - 1].Handle? && s.responses[0].ok {
        HandleRounds(cfg, s);
        var q := s.responses[0].request;
        CountUpdate(s.rounds, q.client, q.round + 1, r);
      } else {
        OtherRounds(cfg, s, steps[i - 1]);
      }
    }
  }

  lemma RoundBeforeDone(cfg: Config, s: State, q: Request)
    requires Inv(cfg, s) && cfg.barrier && q in Front(s) && q.round > 0
    ensures CountAbove(s.rounds, q.round - 1) == CountAbove(cfg.totals, q.round - 1)
    ensures forall c :: 0 <= c < |cfg.totals| && cfg.totals[c] > q.round - 1 ==> s.rounds[c] > q.round - 1
  {
    hide Front, Back, CountAbove;
    CountOrder(s.rounds, cfg.totals, q.round - 1);
  }

  /**
   With the barrier on, in every run and at every point of it, a request of a later round is
   anywhere but with the handler only after exactly clients_per_round[r] successful responses
   of the round r before it, one from every client that takes part in round r.
   */
  lemma BarrierHolds(cfg: Config, states: seq<State>, steps: seq<Step>, i: nat, q: Request)
    requires ValidConfig(cfg) && cfg.barrier && IsRun(cfg, states, steps) && i <= |steps|
    requires q in Front(states[i]) && q.round > 0
    ensures Successes(cfg, states, steps, i, q.round - 1) == CountAbove(cfg.totals, q.round - 1)
    ensures |states[i].rounds| == |cfg.totals|
    ensures forall c :: 0 <= c < |cfg.totals| && cfg.totals[c] > q.round - 1 ==> states[i].rounds[c] > q.round - 1
  {
    hide Inv, IsRun, Front;
    RunInv(cfg, states, steps, i);
    RoundBeforeDone(cfg, states[i], q);
    SuccessesAreRounds(cfg, states, steps, i, q.round - 1);
  }

  /** The request a Release step puts into the ready queue is of a round whose barrier is complete. */
  lemma ReleasedBehindBarrier(cfg: Config, states: seq<State>, steps: seq<Step>, i: nat)
    requires ValidConfig(cfg) && cfg.barrier && IsRun(cfg, states, steps) && i < |steps| && steps[i].Release?
    ensures var q := states[i].handler.todo[0];
            && states[i + 1].ready == states[i].ready + [q]
            && q.round > 0
            && Successes(cfg, states, steps, i, q.round - 1) == CountAbove(cfg.totals, q.round - 1)
  {
    hide Inv, IsRun, Front, Back;
    RunStep(cfg, states, steps, i);
    var q := states[i].handler.todo[0];
    ReleaseBack(cfg, states[i]);
    ReleaseFront(cfg, states[i]);
    TodoRound(cfg, states[i], q);
    BarrierHolds(cfg, states, steps, i + 1, q);
  }

  lemma TodoRound(cfg: Config, s: State, q: Request)
    requires Inv(cfg, s) && cfg.barrier && q in Back(s)
    ensures q.round > 0
  {
  }

  /** Every success counted toward barrier b answers a request of round b. */
  lemma CountedInItsRound(cfg: Config, states: seq<State>, steps: seq<Step>, i: nat)
    requires ValidConfig(cfg) && cfg.barrier && IsRun(cfg, states, steps) && i < |steps|
    requires states[i + 1].barrierDone > states[i].barrierDone
    ensures steps[i].Handle? && states[i].responses != [] && states[i].responses[0].ok
    ensures states[i].responses[0].request.round == states[i].barrierRound
    ensures states[i + 1].barrierDone == states[i].barrierDone + 1
  {
    hide IsRun, Inv, Apply;
    RunStep(cfg, states, steps, i);
    if steps[i].Handle? && states[i].responses[0].ok {
      BarrierArrival(cfg, states[i]);
    } else {
      OtherBarrier(cfg, states[i], steps[i]);
    }
  }

  lemma OtherBarrier(cfg: Config, s: State, step: Step)
    requires Shaped(cfg, s) && Enabled(cfg, s, step) && !(step.Handle? && s.responses[0].ok)
    ensures Apply(cfg, s, step).barrierDone <= s.barrierDone
  {
  }

  lemma BarrierArrival(cfg: Config, s: State)
    requires Inv(cfg, s) && cfg.barrier && Enabled(cfg, s, Handle) && s.responses[0].ok
    ensures s.responses[0].request.round == s.barrierRound
    ensures Apply(cfg, s, Handle).barrierDone == s.barrierDone + 1
  {
    hide Front, Back, HandleResponse;
    HeadRound(cfg, s);
    OkBarrier(cfg, s);
  }

  // ---------------------------------------------------------------------------
  // The window, the pool and the prompts

  /** sent - completed is what is in flight or unhandled, and max_parallel bounds it. */
  lemma WindowHolds(cfg: Config, states: seq<State>, steps: seq<Step>, i: nat)
    requires ValidConfig(cfg) && IsRun(cfg, states, steps) && i <= |steps|
    ensures var s := states[i];
            && s.sent - s.completed == |s.inflight| + |Unput(s)| + |s.responses|
            && 0 <= s.sent - s.completed <= if cfg.maxParallel > 0 then cfg.maxParallel else 0
  {
    RunInv(cfg, states, steps, i);
  }

  /** No client ever has two requests outstanding, wherever they are. */
  lemma OneRequestPerClient(cfg: Config, states: seq<State>, steps: seq<Step>, i: nat, p: Request, q: Request)
    requires ValidConfig(cfg) && IsRun(cfg, states, steps) && i <= |steps|
    requires p in Front(states[i]) + Back(states[i]) && q in Front(states[i]) + Back(states[i])
    requires p.client == q.client
    ensures p == q && (Front(states[i]) + Back(states[i]))[p] == 1
  {
    hide Front, Back;
    RunInv(cfg, states, steps, i);
    var s, c := states[i], p.client;
    assert p == Request(c, s.rounds[c], s.history[c]);
  }

  /** sub_question_inputs.pop() never meets an empty list, nor does any other access fail. */
  lemma NeverCrashes(cfg: Config, states: seq<State>, steps: seq<Step>, i: nat)
    requires ValidConfig(cfg) && IsRun(cfg, states, steps) && i <= |steps|
    ensures !states[i].handler.Crashed?
    ensures |states[i].rounds| == |cfg.totals|
    ensures |states[i].pool| >= Sum(Needs(cfg.totals, states[i].rounds))
  {
    RunInv(cfg, states, steps, i);
  }

  lemma StepHistory(cfg: Config, s: State, step: Step, c: nat)
    requires Inv(cfg, s) && Enabled(cfg, s, step) && c < |cfg.totals|
    ensures |Apply(cfg, s, step).history| == |cfg.totals|
    ensures s.history[c] <= Apply(cfg, s, step).history[c]
  {
    hide Front, Back, HandleOk;
    if step.Handle? {
      HeadCurrent(cfg, s);
      if s.responses[0].ok {
        OkHandled(cfg, s);
      }
    }
  }

  lemma {:induction false} HistoryGrows(cfg: Config, states: seq<State>, steps: seq<Step>, i: nat, j: nat, c: nat)
    requires ValidConfig(cfg) && IsRun(cfg, states, steps) && i <= j <= |steps| && c < |cfg.totals|
    ensures |states[i].history| == |states[j].history| == |cfg.totals|
    ensures states[i].history[c] <= states[j].history[c]
  {
    hide IsRun, Inv, Apply, Enabled;
    RunInv(cfg, states, steps, j);
    if i < j {
      HistoryGrows(cfg, states, steps, i, j - 1, c);
      RunStep(cfg, states, steps, j - 1);
      StepHistory(cfg, states[j - 1], steps[j - 1], c);
    }
  }

  /** A client's prompt is a prefix of every later prompt of that client. */
  lemma PromptsExtend(cfg: Config, states: seq<State>, steps: seq<Step>, i: nat, j: nat, p: Request, q: Request)
    requires ValidConfig(cfg) && IsRun(cfg, states, steps) && i <= j <= |steps|
    requires p in Front(states[i]) + Back(states[i]) && q in Front(states[j]) + Back(states[j])
    requires p.client == q.client
    ensures p.prompt <= q.prompt
  {
    hide Front, Back;
    RunInv(cfg, states, steps, i);
    RunInv(cfg, states, steps, j);
    HistoryGrows(cfg, states, steps, i, j, p.client);
  }
}
