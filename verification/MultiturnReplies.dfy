/**
 What travels through a run: a reply reaches the next prompt of its client, sub-questions are drawn
 once each, and the queues keep the order in which they were filled.
 */
module MultiturnReplies {
  import opened Sequences
  import opened Sums
  import opened Multiturn
  import opened MultiturnInvariant

  // ---------------------------------------------------------------------------
  // Sub-questions

  lemma StepPool(cfg: Config, s: State, step: Step)
    requires Inv(cfg, s) && Enabled(cfg, s, step)
    ensures Apply(cfg, s, step).pool <= s.pool
  {
    hide Front, Back, HandleOk, Owned, Fenced, Supplied, Counted, NextHistory, Extra;
    if step.Handle? && s.responses[0].ok {
      OkHandled(cfg, s);
    }
  }

  /** The pool loses entries at its end only, so an entry that is drawn is never there again. */
  lemma {:induction false} PoolShrinks(cfg: Config, states: seq<State>, steps: seq<Step>, i: nat, j: nat)
    requires ValidConfig(cfg) && IsRun(cfg, states, steps) && i <= j <= |steps|
    ensures |states| == |steps| + 1 && states[j].pool <= states[i].pool
  {
    hide IsRun, Inv, Enabled, Apply;
    RunInv(cfg, states, steps, j);
    if i < j {
      PoolShrinks(cfg, states, steps, i, j - 1);
      RunStep(cfg, states, steps, j - 1);
      StepPool(cfg, states[j - 1], steps[j - 1]);
    }
  }

  /** Two draws take different entries of the initial pool. */
  lemma DrawnOnce(cfg: Config, states: seq<State>, steps: seq<Step>, g: nat, h: nat)
    requires ValidConfig(cfg) && IsRun(cfg, states, steps) && g < h < |steps|
    requires |states[g + 1].pool| < |states[g].pool| && |states[h + 1].pool| < |states[h].pool|
    ensures 0 <= |states[h].pool| - 1 < |states[g].pool| - 1 < |states[0].pool|
  {
    hide IsRun;
    PoolShrinks(cfg, states, steps, 0, g);
    PoolShrinks(cfg, states, steps, g + 1, h);
  }

  // ---------------------------------------------------------------------------
  // A reply on its way

  /** The answer to q with this output is counted and not yet handled. */
  predicate Pending(s: State, q: Request, output: seq<Item>) {
    || s.sender == Answering(Response(q, true, output))
    || Response(q, true, output) in s.responses
  }

  lemma TwiceInSeq<X>(s: seq<X>, i: nat, j: nat)
    requires i < j < |s| && s[i] == s[j]
    ensures multiset(s)[s[i]] >= 2
  {
    assert s == s[..j] + [s[j]] + s[j + 1..];
    assert s[i] in s[..j];
  }

  lemma PendingInBag(s: State, q: Request, output: seq<Item>)
    requires Pending(s, q, output)
    ensures q in Front(s) + Back(s)
  {
    if s.sender == Answering(Response(q, true, output)) {
      assert Requests(Unput(s))[0] == q;
    } else {
      var i :| 0 <= i < |s.responses| && s.responses[i] == Response(q, true, output);
      assert Requests(s.responses)[i] == q;
    }
  }

  /** When the handler turns to this client, it is this answer it takes. */
  lemma HeadIsPending(cfg: Config, s: State, q: Request, output: seq<Item>)
    requires Shaped(cfg, s) && Owned(cfg.totals, s.rounds, s.history, s.dropped, Front(s) + Back(s))
    requires Pending(s, q, output) && s.responses != [] && s.responses[0].request.client == q.client
    ensures s.responses[0] == Response(q, true, output)
  {
    PendingInBag(s, q, output);
    HeadCurrent(cfg, s);
    var all := Requests(s.responses);
    assert all[0] == q && (Front(s) + Back(s))[q] == 1;
    assert multiset(all)[q] + multiset(Requests(Unput(s)))[q] <= 1;
    if i :| 0 < i < |s.responses| && s.responses[i] == Response(q, true, output) {
      assert all[i] == q;
      TwiceInSeq(all, 0, i);
    }
    assert s.sender == Answering(Response(q, true, output)) ==> Requests(Unput(s)) == [q];
  }

  /** One step later the answer is still on its way, or it was the one handled, and the client goes on from it. */
  lemma StepPending(cfg: Config, s: State, step: Step, q: Request, output: seq<Item>)
    requires Inv(cfg, s) && Enabled(cfg, s, step) && Pending(s, q, output)
    ensures q.client < |cfg.totals| && |Apply(cfg, s, step).rounds| == |Apply(cfg, s, step).history| == |cfg.totals|
    ensures var t, c := Apply(cfg, s, step), q.client;
            if step.Handle? && s.responses[0].request.client == c then
              && s.responses[0].request == q && t.rounds[c] == q.round + 1
              && (q.round + 1 < cfg.totals[c] ==>
                    && s.pool != [] && t.pool == s.pool[..|s.pool| - 1]
                    && t.history[c] == q.prompt + output + s.pool[|s.pool| - 1])
            else Pending(t, q, output)
  {
    hide Front, Back, HandleOk, Fenced, Counted, Supplied;
    PendingInBag(s, q, output);
    if step.Handle? {
      if s.responses[0].request.client == q.client {
        HeadIsPending(cfg, s, q, output);
      }
      HeadCurrent(cfg, s);
      if s.responses[0].ok {
        OkHandled(cfg, s);
      }
    }
    StepShaped(cfg, s, step);
  }

  lemma StepShaped(cfg: Config, s: State, step: Step)
    requires Inv(cfg, s) && Enabled(cfg, s, step)
    ensures Shaped(cfg, Apply(cfg, s, step))
  {
    hide Inv, Enabled, Apply;
    InvShaped(cfg, s);
    StepInv(cfg, s, step);
    InvShaped(cfg, Apply(cfg, s, step));
  }

  lemma InvShaped(cfg: Config, s: State)
    requires Inv(cfg, s)
    ensures Shaped(cfg, s)
  {
    hide Front, Back;
  }

  /** A client's history changes only together with its round. */
  lemma StepKeepsHistory(cfg: Config, s: State, step: Step, c: nat)
    requires Inv(cfg, s) && Enabled(cfg, s, step) && c < |cfg.totals|
    ensures |Apply(cfg, s, step).rounds| == |Apply(cfg, s, step).history| == |cfg.totals|
    ensures var t := Apply(cfg, s, step);
            t.rounds[c] >= s.rounds[c] && (t.rounds[c] == s.rounds[c] ==> t.history[c] == s.history[c])
  {
    hide Front, Back, HandleOk, Fenced, Counted, Supplied, Owned;
    StepShaped(cfg, s, step);
    if step.Handle? && s.responses[0].ok {
      OkHandled(cfg, s);
    }
  }

  // ---------------------------------------------------------------------------
  // Over a run

  /** Step h handled the answer to q. */
  predicate HandledAt(states: seq<State>, steps: seq<Step>, h: nat, q: Request)
    requires h < |steps| < |states|
  {
    steps[h].Handle? && states[h].responses != [] && states[h].responses[0].request == q
  }

  /** In state m the client is past q's round; in the next, it has q's prompt, the output and step h's entry. */
  predicate WentOn(cfg: Config, states: seq<State>, h: nat, m: nat, q: Request, output: seq<Item>)
    requires h < m < |states|
  {
    var s, c, pool := states[m], q.client, states[h].pool;
    && c < |cfg.totals| == |s.rounds| == |s.history|
    && s.rounds[c] > q.round
    && (s.rounds[c] == q.round + 1 < cfg.totals[c] ==>
          && pool != [] && |states[h + 1].pool| == |pool| - 1
          && s.history[c] == q.prompt + output + pool[|pool| - 1])
  }

  ghost predicate Carried(cfg: Config, states: seq<State>, steps: seq<Step>, i: nat, m: nat, q: Request, output: seq<Item>)
    requires m <= |steps| < |states|
  {
    || Pending(states[m], q, output)
    || exists h :: i < h < m && HandledAt(states, steps, h, q) && WentOn(cfg, states, h, m, q, output)
  }

  lemma {:induction false} AnswerCarried(cfg: Config, states: seq<State>, steps: seq<Step>, i: nat, m: nat,
                                         k: nat, output: seq<Item>)
    requires ValidConfig(cfg) && IsRun(cfg, states, steps) && i < m <= |steps|
    requires steps[i] == Count(k, true, output)
    ensures |states| == |steps| + 1 && k < |states[i].inflight|
    ensures Carried(cfg, states, steps, i, m, states[i].inflight[k], output)
  {
    hide IsRun, Inv, Enabled, Apply, Pending, WentOn;
    RunStep(cfg, states, steps, m - 1);
    if m == i + 1 {
      CountPends(cfg, states[i], k, output);
    } else {
      AnswerCarried(cfg, states, steps, i, m - 1, k, output);
      CarriedOn(cfg, states, steps, i, m - 1, states[i].inflight[k], output);
    }
  }

  lemma CountPends(cfg: Config, s: State, k: nat, output: seq<Item>)
    requires Shaped(cfg, s) && Enabled(cfg, s, Count(k, true, output))
    ensures k < |s.inflight| && Pending(Apply(cfg, s, Count(k, true, output)), s.inflight[k], output)
  {
  }

  lemma CarriedOn(cfg: Config, states: seq<State>, steps: seq<Step>, i: nat, m: nat, q: Request, output: seq<Item>)
    requires m < |steps| < |states| && i < m && Carried(cfg, states, steps, i, m, q, output)
    requires Inv(cfg, states[m]) && Shaped(cfg, states[m]) && Enabled(cfg, states[m], steps[m])
    requires states[m + 1] == Apply(cfg, states[m], steps[m])
    ensures Carried(cfg, states, steps, i, m + 1, q, output)
  {
    hide Inv, Enabled, Apply, Pending;
    if Pending(states[m], q, output) {
      StepPending(cfg, states[m], steps[m], q, output);
      if !Pending(states[m + 1], q, output) {
        HandledNow(cfg, states[m], steps[m]);
        assert HandledAt(states, steps, m, q) && WentOn(cfg, states, m, m + 1, q, output);
      }
    } else {
      var h :| i < h < m && HandledAt(states, steps, h, q) && WentOn(cfg, states, h, m, q, output);
      StepKeepsHistory(cfg, states[m], steps[m], q.client);
      assert WentOn(cfg, states, h, m + 1, q, output);
    }
  }

  lemma HandledNow(cfg: Config, s: State, step: Step)
    requires Enabled(cfg, s, step)
    ensures step.Handle? ==> s.responses != []
  {
  }

  /** An outstanding request is in its client's current round and has its client's history for a prompt. */
  lemma CurrentRequest(cfg: Config, s: State, p: Request)
    requires Inv(cfg, s) && p in Front(s) + Back(s)
    ensures p.client < |cfg.totals| == |s.rounds| == |s.history|
    ensures p.round == s.rounds[p.client] < cfg.totals[p.client] && p.prompt == s.history[p.client]
  {
    hide Fenced, Counted, Supplied;
    assert p == Request(p.client, s.rounds[p.client], s.history[p.client]);
  }

  /**
   A task counts an answer in step i.  Whatever happens meanwhile, the client's request of the next
   round has for its prompt the prompt that was answered, the output of step i, and one entry of
   the initial pool: the one drawn in the step h that handled the answer.
   */
  lemma PromptCarriesReply(cfg: Config, states: seq<State>, steps: seq<Step>, i: nat, j: nat, k: nat, output: seq<Item>,
                           p: Request)
    returns (h: nat)
    requires ValidConfig(cfg) && IsRun(cfg, states, steps) && i < j <= |steps|
    requires steps[i] == Count(k, true, output) && k < |states[i].inflight|
    requires p in Front(states[j]) + Back(states[j])
    requires p.client == states[i].inflight[k].client && p.round == states[i].inflight[k].round + 1
    ensures i < h < j && HandledAt(states, steps, h, states[i].inflight[k])
    ensures 0 < |states[h].pool| <= |states[0].pool| && |states[h + 1].pool| == |states[h].pool| - 1
    ensures p.prompt == states[i].inflight[k].prompt + output + states[0].pool[|states[h].pool| - 1]
  {
    hide IsRun, Inv, Front, Back;
    AnswerCarried(cfg, states, steps, i, j, k, output);
    var q := states[i].inflight[k];
    RunInv(cfg, states, steps, j);
    CurrentRequest(cfg, states[j], p);
    if Pending(states[j], q, output) {
      PendingInBag(states[j], q, output);
      CurrentRequest(cfg, states[j], q);
      assert false;
    }
    h :| i < h < j && HandledAt(states, steps, h, q) && WentOn(cfg, states, h, j, q, output);
    PoolShrinks(cfg, states, steps, 0, h);
  }

  // ---------------------------------------------------------------------------
  // The order of the queues

  /** The requests taken from the ready queue in the first i steps. */
  function Popped(states: seq<State>, steps: seq<Step>, i: nat): seq<Request>
    requires i <= |steps| <= |states|
  {
    if i == 0 then []
    else
      var s, step := states[i - 1], steps[i - 1];
      Popped(states, steps, i - 1) + if step.Pop? && step.k < |s.ready| then [s.ready[step.k]] else []
  }

  /** The requests made in the first i steps, each for a client that has more rounds to go. */
  function Made(cfg: Config, states: seq<State>, steps: seq<Step>, i: nat): seq<Request>
    requires i <= |steps| < |states|
  {
    if i == 0 then []
    else Made(cfg, states, steps, i - 1) + MadeBy(cfg, states[i - 1], steps[i - 1], states[i])
  }

  function MadeBy(cfg: Config, s: State, step: Step, t: State): seq<Request> {
    if step.Handle? && s.responses != [] && s.responses[0].ok then
      var c := s.responses[0].request.client;
      if c < |cfg.totals| && c < |t.rounds| && c < |t.history| && t.rounds[c] < cfg.totals[c]
      then [Request(c, t.rounds[c], t.history[c])] else []
    else []
  }

  /** Ready, about to be released, and held back, in this order. */
  function Line(s: State): seq<Request> {
    s.ready + (Todo(s) + s.held)
  }

  lemma StepLine(cfg: Config, s: State, step: Step)
    requires Inv(cfg, s) && Enabled(cfg, s, step) && !step.Pop?
    ensures var t := Apply(cfg, s, step); Line(t) == Line(s) + MadeBy(cfg, s, step, t)
  {
    hide Front, Back, HandleOk, Owned, Fenced, Supplied, Counted;
    if step.Handle? {
      HeadCurrent(cfg, s);
      if s.responses[0].ok {
        OkHandled(cfg, s);
        Regroup(s.ready, s.held, Extra(cfg, s));
      }
    }
  }

  lemma RemoveFirst<X>(s: seq<X>, k: nat, rest: seq<X>)
    requires k < |s|
    ensures multiset(s + rest) == multiset{s[k]} + multiset(RemoveAt(s, k) + rest)
    ensures k == 0 ==> s + rest == [s[k]] + (RemoveAt(s, k) + rest)
  {
    BagRemove(s, k);
    if k == 0 {
      assert s == [s[0]] + RemoveAt(s, 0);
    }
  }

  lemma PopLine(cfg: Config, s: State, k: nat)
    requires Shaped(cfg, s) && Enabled(cfg, s, Pop(k))
    ensures var t := Apply(cfg, s, Pop(k));
            && multiset(Line(s)) == multiset{s.ready[k]} + multiset(Line(t))
            && (cfg.fifo ==> Line(s) == [s.ready[k]] + Line(t))
  {
    hide RemoveAt;
    RemoveFirst(s.ready, k, Todo(s) + s.held);
  }

  /**
   No request is lost, made up or doubled on its way to the sender; and with the fifo policy
   requests are served in the order in which they were made.
   */
  lemma {:induction false} ServedInOrder(cfg: Config, states: seq<State>, steps: seq<Step>, i: nat)
    requires ValidConfig(cfg) && IsRun(cfg, states, steps) && i <= |steps|
    ensures |states| == |steps| + 1
    ensures Balanced(Popped(states, steps, i), Line(states[i]), states[0].ready, Made(cfg, states, steps, i), cfg.fifo)
  {
    hide IsRun, Inv, Enabled, Apply, Line, MadeBy, Balanced;
    if i == 0 {
      FirstLine(cfg, states, steps);
      BalancedFirst(states[0].ready, cfg.fifo);
    } else {
      ServedInOrder(cfg, states, steps, i - 1);
      RunStep(cfg, states, steps, i - 1);
      var s, step := states[i - 1], steps[i - 1];
      var taken, made := Popped(states, steps, i - 1), Made(cfg, states, steps, i - 1);
      if step.Pop? {
        PopLine(cfg, s, step.k);
        PopMeans(cfg, s, step, states[i]);
        BalancedTake(taken, Line(s), Line(states[i]), states[0].ready, made, cfg.fifo, s.ready[step.k]);
        assert made + [] == made;
      } else {
        StepLine(cfg, s, step);
        BalancedMake(taken, Line(s), states[0].ready, made, cfg.fifo, MadeBy(cfg, s, step, states[i]));
        assert taken + [] == taken;
      }
    }
  }

  lemma PopMeans(cfg: Config, s: State, step: Step, t: State)
    requires Enabled(cfg, s, step) && step.Pop?
    ensures step.k < |s.ready| && MadeBy(cfg, s, step, t) == []
  {
  }

  lemma FirstLine(cfg: Config, states: seq<State>, steps: seq<Step>)
    requires IsRun(cfg, states, steps)
    ensures |states| == |steps| + 1 && Line(states[0]) == states[0].ready && states[0].responses == Unput(states[0]) == []
  {
  }

  /** The answers given in the first i steps. */
  function Answered(states: seq<State>, steps: seq<Step>, i: nat): seq<Response>
    requires i <= |steps| <= |states|
  {
    if i == 0 then []
    else Answered(states, steps, i - 1) + AnsweredBy(states[i - 1], steps[i - 1])
  }

  function AnsweredBy(s: State, step: Step): seq<Response> {
    if step.Count? && step.k < |s.inflight| then
      [Response(s.inflight[step.k], step.ok, if step.ok then step.output else [])]
    else if step.Raise? && step.k < |s.inflight| then [Response(s.inflight[step.k], false, [])]
    else []
  }

  /** The responses handled in the first i steps. */
  function HandledSoFar(states: seq<State>, steps: seq<Step>, i: nat): seq<Response>
    requires i <= |steps| <= |states|
  {
    if i == 0 then []
    else HandledSoFar(states, steps, i - 1) + HandledBy(states[i - 1], steps[i - 1])
  }

  function HandledBy(s: State, step: Step): seq<Response> {
    if step.Handle? && s.responses != [] then [s.responses[0]] else []
  }

  lemma StepAnswers(cfg: Config, s: State, step: Step)
    requires Inv(cfg, s) && Enabled(cfg, s, step)
    ensures var t := Apply(cfg, s, step);
            HandledBy(s, step) + (t.responses + Unput(t)) == s.responses + Unput(s) + AnsweredBy(s, step)
  {
    hide Front, Back, HandleOk, Owned, Fenced, Supplied, Counted;
    if step.Handle? {
      assert s.responses == [s.responses[0]] + s.responses[1..];
      if s.responses[0].ok {
        OkHandled(cfg, s);
      }
    }
  }

  /** Answers are handled in the order in which they were given, each once and unchanged. */
  lemma {:induction false} HandledInOrder(cfg: Config, states: seq<State>, steps: seq<Step>, i: nat)
    requires ValidConfig(cfg) && IsRun(cfg, states, steps) && i <= |steps|
    ensures |states| == |steps| + 1
    ensures HandledSoFar(states, steps, i) + (states[i].responses + Unput(states[i])) == Answered(states, steps, i)
  {
    hide IsRun, Inv, Enabled, Apply, Unput, HandledBy, AnsweredBy;
    if i == 0 {
      FirstLine(cfg, states, steps);
    } else {
      HandledInOrder(cfg, states, steps, i - 1);
      RunStep(cfg, states, steps, i - 1);
      var s, step, t := states[i - 1], steps[i - 1], states[i];
      StepAnswers(cfg, s, step);
      Regroup(HandledSoFar(states, steps, i - 1), HandledBy(s, step), t.responses + Unput(t));
      Regroup(HandledSoFar(states, steps, i - 1), s.responses + Unput(s), AnsweredBy(s, step));
    }
  }
}
