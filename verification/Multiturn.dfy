/**
 The multi-turn workload protocol of benchmark/hicache/bench_multiturn.py.

 A sender thread, the request tasks it starts and a response handler thread share a ready
 queue, a response queue, the client records and a few counters.  The protocol is a transition
 system: a Step is the work one thread does between two points where another thread can see
 a difference.
 */
module Multiturn {
  import opened Sequences
  import opened Sums

  /** A token id, or one chat message in the OpenAI format: a history is a list of items. */
  type Item = int

  /** What the command line fixes for a run. */
  datatype Config = Config(totals: seq<nat>, maxRounds: nat, maxParallel: int, barrier: bool, fifo: bool)

  /** A queue entry.  `round` is the client's round when the entry was made. */
  datatype Request = Request(client: nat, round: nat, prompt: seq<Item>)

  datatype Response = Response(request: Request, ok: bool, output: seq<Item>)

  /** Where the event loop is, which the sender shares with the tasks. */
  datatype Sender =
    | Polling                      // between two steps
    | Holding(request: Request)    // popped, not yet started
    | Answering(response: Response) // a task that has moved the progress bar and not yet put its response
    | SenderStopped

  datatype Handler =
    | Waiting                      // blocked in response_queue.get
    | Releasing(todo: seq<Request>) // appending `todo` to the ready queue one by one
    | TimedOut                     // get raised queue.Empty, the progress bar is not yet looked at
    | HandlerStopped
    | Crashed                      // an exception the loop does not catch

  datatype State = State(
    ready: seq<Request>,
    sender: Sender,
    inflight: seq<Request>,
    responses: seq<Response>,
    handler: Handler,
    rounds: seq<nat>,           // client_records[c]["round"]
    history: seq<seq<Item>>,    // client_records[c]["history"]
    dropped: seq<bool>,         // clients lost to a failed response
    pool: seq<seq<Item>>,       // sub_question_inputs
    held: seq<Request>,         // next_round_reqs
    barrierRound: nat,
    barrierDone: nat,
    sent: int,
    completed: int,
    progress: int)              // pbar.n

  datatype Step =
    | Pop(k: nat)
    | Launch
    | Count(k: nat, ok: bool, output: seq<Item>)
    | Put
    | Raise(k: nat)
    | Handle
    | Release
    | FinishRelease
    | TimeOut
    | CheckDone
    | StopSender

  // ---------------------------------------------------------------------------
  // Start-up

  datatype Rounds = Rounds(min: int, max: int) | BadRounds

  /** The per-client bounds that --num-rounds, --min-rounds and --max-rounds resolve to. */
  function ResolveRounds(numRounds: int, minRounds: int, maxRounds: int): Rounds {
    var lo := if minRounds == 0 then (if maxRounds == 0 then numRounds else maxRounds) else minRounds;
    var hi := if maxRounds == 0 then (if minRounds == 0 then numRounds else minRounds) else maxRounds;
    if lo < 1 || lo > hi then BadRounds else Rounds(lo, hi)
  }

  /** Any round counts drawn between the resolved bounds make a valid configuration. */
  lemma ResolvedIsValid(numRounds: int, minRounds: int, maxRounds: int, cfg: Config)
    requires var r := ResolveRounds(numRounds, minRounds, maxRounds);
             r.Rounds? && cfg.maxRounds == r.max && forall c :: 0 <= c < |cfg.totals| ==> r.min <= cfg.totals[c] <= r.max
    ensures ValidConfig(cfg)
  {
  }

  /** Every client takes part in at least one round and in no more than maxRounds. */
  ghost predicate ValidConfig(cfg: Config) {
    forall c :: 0 <= c < |cfg.totals| ==> 1 <= cfg.totals[c] <= cfg.maxRounds
  }

  function TotalRequests(cfg: Config): int {
    Sum(cfg.totals)
  }

  /** Sub-questions each client still has to draw after `rounds` finished rounds. */
  function Needs(totals: seq<nat>, rounds: seq<nat>): (n: seq<int>)
    requires |rounds| == |totals|
    ensures |n| == |totals|
  {
    seq(|totals|, c requires 0 <= c < |totals| =>
      if rounds[c] + 1 < totals[c] then totals[c] - 1 - rounds[c] else 0)
  }

  function Zeros(n: nat): (z: seq<nat>)
    ensures |z| == n && forall c :: 0 <= c < n ==> z[c] == 0
  {
    seq(n, _ => 0)
  }

  /** The state the constructor leaves behind, for given sampled prompts. */
  ghost predicate Init(cfg: Config, s: State) {
    var n := |cfg.totals|;
    && |s.history| == n
    && s.ready == seq(n, c requires 0 <= c < n => Request(c, 0, s.history[c]))
    && s.rounds == Zeros(n)
    && s.dropped == seq(n, _ => false)
    && |s.pool| >= 1 && |s.pool| >= Sum(Needs(cfg.totals, Zeros(n)))
    && s.sender == Polling && s.handler == Waiting
    && s.inflight == [] && s.responses == [] && s.held == []
    && s.barrierRound == s.barrierDone == 0
    && s.sent == s.completed == s.progress == 0
  }

  // ---------------------------------------------------------------------------
  // Steps

  ghost predicate Enabled(cfg: Config, s: State, step: Step) {
    match step
    case Pop(k) =>
      s.sender.Polling? && s.sent - s.completed < cfg.maxParallel && k < |s.ready| && (cfg.fifo ==> k == 0)
    case Launch => s.sender.Holding?
    case Count(k, _, _) => s.sender.Polling? && k < |s.inflight|
    case Put => s.sender.Answering?
    case Raise(k) => s.sender.Polling? && k < |s.inflight|
    case Handle => s.handler.Waiting? && s.responses != []
    case Release => s.handler.Releasing? && s.handler.todo != []
    case FinishRelease => s.handler.Releasing? && s.handler.todo == []
    case TimeOut => s.handler.Waiting? && s.responses == []
    case CheckDone => s.handler.TimedOut?
    case StopSender =>
      s.sender.Polling? && s.sent - s.completed < cfg.maxParallel && s.progress == TotalRequests(cfg)
  }

  /** The tables have one entry per client and every queued entry names a client. */
  ghost predicate Shaped(cfg: Config, s: State) {
    && |s.rounds| == |s.history| == |s.dropped| == |cfg.totals|
    && (forall i :: 0 <= i < |s.responses| ==> s.responses[i].request.client < |cfg.totals|)
  }

  /** The response of a request; a failure has no output. */
  function Answer(request: Request, ok: bool, output: seq<Item>): Response {
    Response(request, ok, if ok then output else [])
  }

  /** One pass through the handler loop for the response at the head of the queue. */
  ghost function HandleResponse(cfg: Config, s: State): State
    requires Shaped(cfg, s) && s.responses != []
  {
    var r, c := s.responses[0], s.responses[0].request.client;
    if r.ok then HandleOk(cfg, s.(responses := s.responses[1..]), c, r.output)
    else s.(responses := s.responses[1..], completed := s.completed + 1, dropped := s.dropped[c := true])
  }

  ghost function HandleOk(cfg: Config, s: State, c: nat, output: seq<Item>): State
    requires Shaped(cfg, s) && c < |cfg.totals|
  {
    var s1 := s.(history := s.history[c := s.history[c] + output], rounds := s.rounds[c := s.rounds[c] + 1]);
    if cfg.barrier && s.rounds[c] >= cfg.maxRounds then
      s1.(handler := Crashed)  // no metrics entry for this round: KeyError
    else
      var s2 := s1.(completed := s.completed + 1);
      if s2.rounds[c] >= cfg.totals[c] then ArriveAtBarrier(cfg, s2)
      else if s2.pool == [] then s2.(handler := Crashed)  // pop from an empty list: IndexError
      else NextRequest(cfg, s2, c)
  }

  /** Draw a sub-question, extend the history and queue the client's next request. */
  ghost function NextRequest(cfg: Config, s: State, c: nat): State
    requires Shaped(cfg, s) && c < |cfg.totals| && s.pool != []
  {
    var h := s.history[c] + s.pool[|s.pool| - 1];
    var request := Request(c, s.rounds[c], h);
    var s1 := s.(pool := s.pool[..|s.pool| - 1], history := s.history[c := h]);
    if cfg.barrier then ArriveAtBarrier(cfg, s1.(held := s.held + [request]))
    else s1.(handler := Releasing([request]))
  }

  /** Count a success toward the barrier; the last one turns the held requests loose. */
  ghost function ArriveAtBarrier(cfg: Config, s: State): State
    requires Shaped(cfg, s)
  {
    if !cfg.barrier || s.barrierRound >= cfg.maxRounds then s
    else if s.barrierDone + 1 == CountAbove(cfg.totals, s.barrierRound) then
      s.(barrierDone := s.barrierDone + 1, handler := Releasing(s.held), held := [])
    else s.(barrierDone := s.barrierDone + 1)
  }

  ghost function Apply(cfg: Config, s: State, step: Step): State
    requires Shaped(cfg, s) && Enabled(cfg, s, step)
  {
    match step
    case Pop(k) => s.(ready := RemoveAt(s.ready, k), sender := Holding(s.ready[k]))
    case Launch => s.(sender := Polling, inflight := s.inflight + [s.sender.request], sent := s.sent + 1)
    case Count(k, ok, output) =>
      s.(inflight := RemoveAt(s.inflight, k), sender := Answering(Answer(s.inflight[k], ok, output)),
         progress := s.progress + 1)
    case Put => s.(responses := s.responses + [s.sender.response], sender := Polling)
    case Raise(k) =>  // the request function raised: the bar does not move
      s.(inflight := RemoveAt(s.inflight, k), responses := s.responses + [Answer(s.inflight[k], false, [])])
    case Handle => HandleResponse(cfg, s)
    case Release =>
      s.(ready := s.ready + [s.handler.todo[0]], handler := Releasing(s.handler.todo[1..]))
    case FinishRelease =>
      if cfg.barrier then s.(handler := Waiting, barrierRound := s.barrierRound + 1, barrierDone := 0)
      else s.(handler := Waiting)
    case TimeOut => s.(handler := TimedOut)
    case CheckDone => s.(handler := if s.progress == TotalRequests(cfg) then HandlerStopped else Waiting)
    case StopSender => s.(sender := SenderStopped)
  }

  /** A run from the start-up state: step i leads from states[i] to states[i + 1]. */
  ghost predicate IsRun(cfg: Config, states: seq<State>, steps: seq<Step>) {
    && |states| == |steps| + 1
    && Init(cfg, states[0])
    && (forall i :: 0 <= i < |steps| ==>
          && Shaped(cfg, states[i])
          && Enabled(cfg, states[i], steps[i])
          && states[i + 1] == Apply(cfg, states[i], steps[i]))
  }
}
