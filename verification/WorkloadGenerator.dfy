/**
 The workload generator as an object: each method is the code of one step of the protocol.
 A method promises to do exactly what its Step does, and the object records the run its calls
 make.  Whatever the order of the calls, that is a run of the protocol, so the theorems about
 runs speak of it.
 */
module WorkloadGenerator {
  import opened Sums
  import opened Multiturn
  import opened MultiturnInvariant

  class Generator {
    const cfg: Config
    const clientsPerRound: seq<int>
    const totalRequests: int

    var ready: seq<Request>
    var sender: Sender
    var inflight: seq<Request>
    var responses: seq<Response>
    var handler: Handler
    var rounds: seq<nat>
    var history: seq<seq<Item>>
    var dropped: seq<bool>
    var pool: seq<seq<Item>>
    var held: seq<Request>
    var barrierRound: nat
    var barrierDone: nat
    var sent: int
    var completed: int
    var progress: int

    ghost var states: seq<State>
    ghost var steps: seq<Step>

    ghost function Abs(): State
      reads this
    {
      State(ready, sender, inflight, responses, handler, rounds, history, dropped, pool, held,
            barrierRound, barrierDone, sent, completed, progress)
    }

    /** The tables fit the configuration, and the calls so far are a run that ends here. */
    ghost predicate Valid()
      reads this
    {
      && ValidConfig(cfg) && Shaped(cfg, Abs())
      && clientsPerRound == PerRound(cfg.totals, cfg.maxRounds)
      && totalRequests == TotalRequests(cfg)
      && IsRun(cfg, states, steps) && states[|steps|] == Abs()
    }

    /** The method was one step, and it is recorded. */
    twostate predicate Did(step: Step)
      reads this
    {
      states == old(states) + [Abs()] && steps == old(steps) + [step]
    }

    ghost method Record(before: State, step: Step)
      requires ValidConfig(cfg) && IsRun(cfg, states, steps) && states[|steps|] == before
      requires Shaped(cfg, before) && Enabled(cfg, before, step) && Abs() == Apply(cfg, before, step)
      modifies this`states, this`steps
      ensures IsRun(cfg, states, steps) && Shaped(cfg, Abs()) && Did(step)
    {
      hide IsRun, Shaped, Enabled, Apply;
      assert |states| == |steps| + 1 by { RunLength(cfg, states, steps); }
      RunExtends(cfg, states, steps, step, Abs());
      states, steps := states + [Abs()], steps + [step];
    }

    /** `prompts` and `subQuestions` are what sampling returned: one prompt a client, and
        max(num_sub_questions, 1) sub-questions. */
    constructor (cfg: Config, prompts: seq<seq<Item>>, subQuestions: seq<seq<Item>>)
      requires ValidConfig(cfg) && |prompts| == |cfg.totals|
      requires |subQuestions| >= 1 && |subQuestions| >= Sum(Needs(cfg.totals, Zeros(|cfg.totals|)))
      ensures this.cfg == cfg && Init(cfg, Abs()) && Valid() && steps == []
      ensures history == prompts && pool == subQuestions
      ensures Sum(clientsPerRound) == totalRequests
    {
      var n := |cfg.totals|;
      this.cfg := cfg;
      clientsPerRound := PerRound(cfg.totals, cfg.maxRounds);
      totalRequests := Sum(cfg.totals);
      ready := seq(n, c requires 0 <= c < n => Request(c, 0, prompts[c]));
      sender, inflight, responses, handler := Polling, [], [], Waiting;
      rounds, history, dropped := Zeros(n), prompts, seq(n, _ => false);
      pool, held, barrierRound, barrierDone := subQuestions, [], 0, 0;
      sent, completed, progress := 0, 0, 0;
      new;
      states, steps := [Abs()], [];
      DoubleCount(cfg.totals, cfg.maxRounds);
    }

    // -------------------------------------------------------------------------
    // The sender thread and its tasks

    /** One look at the ready queue; `k` is the index the queue's policy picks. */
    method Poll(k: nat) returns (took: bool)
      requires Valid() && (cfg.fifo ==> k == 0) && (ready != [] ==> k < |ready|)
      modifies this
      ensures took == Enabled(cfg, old(Abs()), Pop(k))
      ensures Abs() == if took then Apply(cfg, old(Abs()), Pop(k)) else old(Abs())
      ensures Valid() && if took then Did(Pop(k)) else states == old(states) && steps == old(steps)
    {
      took := sender.Polling? && sent - completed < cfg.maxParallel && ready != [];
      if took {
        sender := Holding(ready[k]);
        ready := ready[..k] + ready[k + 1..];
        Record(old(Abs()), Pop(k));
      }
    }

    method StartTask()
      requires Valid() && sender.Holding?
      modifies this
      ensures Abs() == Apply(cfg, old(Abs()), Launch)
      ensures Valid() && Did(Launch)
    {
      inflight := inflight + [sender.request];
      sent := sent + 1;
      sender := Polling;
      Record(old(Abs()), Launch);
    }

    /** Task k has its result and moves the progress bar; the event loop is in this task until its put. */
    method CountTask(k: nat, ok: bool, output: seq<Item>)
      requires Valid() && sender.Polling? && k < |inflight|
      modifies this
      ensures Abs() == Apply(cfg, old(Abs()), Count(k, ok, output))
      ensures Valid() && Did(Count(k, ok, output))
    {
      progress := progress + 1;
      sender := Answering(Response(inflight[k], ok, if ok then output else []));
      inflight := inflight[..k] + inflight[k + 1..];
      Record(old(Abs()), Count(k, ok, output));
    }

    method PutResponse()
      requires Valid() && sender.Answering?
      modifies this
      ensures Abs() == Apply(cfg, old(Abs()), Put)
      ensures Valid() && Did(Put)
    {
      responses := responses + [sender.response];
      sender := Polling;
      Record(old(Abs()), Put);
    }

    /** The request function of task k raised: a failed response, and the bar does not move. */
    method RaiseTask(k: nat)
      requires Valid() && sender.Polling? && k < |inflight|
      modifies this
      ensures Abs() == Apply(cfg, old(Abs()), Raise(k))
      ensures Valid() && Did(Raise(k))
    {
      responses := responses + [Response(inflight[k], false, [])];
      inflight := inflight[..k] + inflight[k + 1..];
      Record(old(Abs()), Raise(k));
    }

    method StopIfFull() returns (stopped: bool)
      requires Valid() && sender.Polling?
      modifies this
      ensures stopped == Enabled(cfg, old(Abs()), StopSender)
      ensures Abs() == if stopped then Apply(cfg, old(Abs()), StopSender) else old(Abs())
      ensures Valid() && if stopped then Did(StopSender) else states == old(states) && steps == old(steps)
    {
      stopped := sent - completed < cfg.maxParallel && progress == totalRequests;
      if stopped {
        sender := SenderStopped;
        Record(old(Abs()), StopSender);
      }
    }

    // -------------------------------------------------------------------------
    // The response handler thread

    /** Take the next response and process it up to the point where requests are released. */
    method HandleNext()
      requires Valid() && handler.Waiting? && responses != []
      modifies this
      ensures Abs() == Apply(cfg, old(Abs()), Handle)
      ensures Valid() && Did(Handle)
    {
      var response := responses[0];
      var c := response.request.client;
      responses := responses[1..];
      if !response.ok {
        completed := completed + 1;
        dropped := dropped[c := true];
      } else {
        Succeed(c, response.output);
      }
      Record(old(Abs()), Handle);
    }

    method Succeed(c: nat, output: seq<Item>)
      requires Shaped(cfg, Abs()) && c < |cfg.totals| && handler.Waiting?
      requires clientsPerRound == PerRound(cfg.totals, cfg.maxRounds)
      modifies this
      ensures states == old(states) && steps == old(steps)
      ensures Abs() == HandleOk(cfg, old(Abs()), c, output)
    {
      hide NextRequest, ArriveAtBarrier;
      history := history[c := history[c] + output];
      var currentRound := rounds[c];
      rounds := rounds[c := currentRound + 1];
      if cfg.barrier && currentRound >= cfg.maxRounds {
        handler := Crashed;
      } else {
        completed := completed + 1;
        if rounds[c] >= cfg.totals[c] {
          CountAtBarrier();
        } else if pool == [] {
          handler := Crashed;
        } else {
          QueueNext(c);
        }
      }
    }

    method QueueNext(c: nat)
      requires Shaped(cfg, Abs()) && c < |cfg.totals| && pool != []
      requires clientsPerRound == PerRound(cfg.totals, cfg.maxRounds)
      modifies this
      ensures states == old(states) && steps == old(steps)
      ensures Abs() == NextRequest(cfg, old(Abs()), c)
    {
      var subQuestion := pool[|pool| - 1];
      pool := pool[..|pool| - 1];
      history := history[c := history[c] + subQuestion];
      var request := Request(c, rounds[c], history[c]);
      if cfg.barrier {
        held := held + [request];
        CountAtBarrier();
      } else {
        handler := Releasing([request]);
      }
    }

    method CountAtBarrier()
      requires Shaped(cfg, Abs())
      requires clientsPerRound == PerRound(cfg.totals, cfg.maxRounds)
      modifies this`barrierDone, this`handler, this`held
      ensures Abs() == ArriveAtBarrier(cfg, old(Abs()))
    {
      if cfg.barrier && barrierRound < cfg.maxRounds {
        barrierDone := barrierDone + 1;
        if barrierDone == clientsPerRound[barrierRound] {
          handler := Releasing(held);
          held := [];
        }
      }
    }

    method ReleaseOne()
      requires Valid() && handler.Releasing? && handler.todo != []
      modifies this
      ensures Abs() == Apply(cfg, old(Abs()), Release)
      ensures Valid() && Did(Release)
    {
      ready := ready + [handler.todo[0]];
      handler := Releasing(handler.todo[1..]);
      Record(old(Abs()), Release);
    }

    method EndRelease()
      requires Valid() && handler.Releasing? && handler.todo == []
      modifies this
      ensures Abs() == Apply(cfg, old(Abs()), FinishRelease)
      ensures Valid() && Did(FinishRelease)
    {
      handler := Waiting;
      if cfg.barrier {
        barrierRound := barrierRound + 1;
        barrierDone := 0;
      }
      Record(old(Abs()), FinishRelease);
    }

    method GetTimesOut()
      requires Valid() && handler.Waiting? && responses == []
      modifies this
      ensures Abs() == Apply(cfg, old(Abs()), TimeOut)
      ensures Valid() && Did(TimeOut)
    {
      handler := TimedOut;
      Record(old(Abs()), TimeOut);
    }

    method LookAtProgress()
      requires Valid() && handler.TimedOut?
      modifies this
      ensures Abs() == Apply(cfg, old(Abs()), CheckDone)
      ensures Valid() && Did(CheckDone)
    {
      handler := if progress == totalRequests then HandlerStopped else Waiting;
      Record(old(Abs()), CheckDone);
    }
  }
}
