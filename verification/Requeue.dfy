/**
 The conversation queue of benchmark/hicache/bench_serving.py.

 A generator takes conversations from a bounded queue, one turn at a time; a task sends the turn
 and, when it succeeds and turns are left, puts the conversation back.
 */
module Requeue {
  import opened Sequences
  import opened Sums

  /** (prompt, input_len, output_len); output_len starts as max_tokens. */
  datatype Turn = Turn(prompt: string, inputLen: int, outputLen: int)

  datatype Message = User(content: string) | Assistant(content: string)

  /** Where a conversation is: in the queue, with a task that waits for the semaphore, with a task
      that has sent the turn, or gone. */
  datatype Phase = Queued | Taken | Posted | Finished | Failed

  /** A RequestFuncInput.  `phase` and `replies` (the texts of the successful turns) are for the record. */
  datatype Conv = Conv(turns: seq<Turn>, finished: nat, messages: seq<Message>, phase: Phase, replies: seq<string>)

  /** What one request carried. */
  datatype Sent = Sent(conv: nat, turn: nat, messages: seq<Message>, promptLen: int, maxTokens: int)

  datatype State = State(convs: seq<Conv>, queue: seq<nat>, running: seq<nat>, inUse: int, taken: int,
                         gaveUp: bool, sent: seq<Sent>)

  /** `limit` is max_concurrency, 0 for none. */
  datatype Step =
    | Take
    | Start(k: nat)
    | Succeed(k: nat, text: string, outputLen: int)
    | Fail(k: nat)
    | GiveUp

  function Fresh(turns: seq<Turn>): Conv {
    Conv(turns, 0, [], Queued, [])
  }

  function Initial(requests: seq<seq<Turn>>): State {
    var n := |requests|;
    State(seq(n, c requires 0 <= c < n => Fresh(requests[c])),
          seq(n, c requires 0 <= c < n => c), [], 0, 0, false, [])
  }

  function Lengths(convs: seq<Conv>): (l: seq<int>)
    ensures |l| == |convs|
  {
    seq(|convs|, c requires 0 <= c < |convs| => |convs[c].turns|)
  }

  /** num_actual_requests: the total number of turns. */
  function Total(convs: seq<Conv>): int {
    Sum(Lengths(convs))
  }

  /** Tokens of the first n turns, replies included. */
  function HistoryLen(turns: seq<Turn>, n: nat): int
    requires n <= |turns|
  {
    if n == 0 then 0 else HistoryLen(turns, n - 1) + turns[n - 1].inputLen + turns[n - 1].outputLen
  }

  // ---------------------------------------------------------------------------
  // Steps

  ghost predicate Shaped(s: State) {
    && (forall i :: 0 <= i < |s.queue| ==> s.queue[i] < |s.convs|)
    && (forall i :: 0 <= i < |s.running| ==> s.running[i] < |s.convs|)
    && (forall c :: 0 <= c < |s.convs| ==> s.convs[c].finished < |s.convs[c].turns|)
  }

  ghost predicate Enabled(limit: nat, s: State, step: Step)
    requires Shaped(s)
  {
    match step
    case Take => !s.gaveUp && s.taken < Total(s.convs) && s.queue != []
    case Start(k) => k < |s.running| && s.convs[s.running[k]].phase == Taken && (limit == 0 || s.inUse < limit)
    case Succeed(k, _, _) => k < |s.running| && s.convs[s.running[k]].phase == Posted
    case Fail(k) => k < |s.running| && s.convs[s.running[k]].phase == Posted
    case GiveUp => !s.gaveUp && s.taken < Total(s.convs) && s.queue == []
  }

  /** The task before its request: the prompt joins the messages and all of them are sent. */
  function Post(v: Conv): Conv
    requires v.finished < |v.turns|
  {
    v.(messages := v.messages + [User(v.turns[v.finished].prompt)], phase := Posted)
  }

  /** The task after a good response. */
  function Reply(v: Conv, text: string, outputLen: int): Conv
    requires v.finished < |v.turns|
  {
    var turn := v.turns[v.finished];
    var more := v.finished + 1 < |v.turns|;
    v.(turns := v.turns[v.finished := turn.(outputLen := outputLen)],
       messages := v.messages + [Assistant(text)],
       finished := if more then v.finished + 1 else v.finished,
       phase := if more then Queued else Finished,
       replies := v.replies + [text])
  }

  ghost function Apply(s: State, step: Step, limit: nat): State
    requires Shaped(s) && Enabled(limit, s, step)
  {
    match step
    case Take =>
      var c := s.queue[0];
      s.(queue := s.queue[1..], running := s.running + [c], taken := s.taken + 1,
         convs := s.convs[c := s.convs[c].(phase := Taken)])
    case Start(k) =>
      var c := s.running[k];
      var v := Post(s.convs[c]);
      s.(convs := s.convs[c := v], inUse := s.inUse + 1,
         sent := s.sent + [Sent(c, v.finished, v.messages,
                                HistoryLen(v.turns, v.finished) + v.turns[v.finished].inputLen,
                                v.turns[v.finished].outputLen)])
    case Succeed(k, text, outputLen) =>
      var c := s.running[k];
      var v := Reply(s.convs[c], text, outputLen);
      s.(convs := s.convs[c := v], running := RemoveAt(s.running, k), inUse := s.inUse - 1,
         queue := if v.phase.Queued? then s.queue + [c] else s.queue)
    case Fail(k) =>
      var c := s.running[k];
      s.(convs := s.convs[c := s.convs[c].(phase := Failed)], running := RemoveAt(s.running, k),
         inUse := s.inUse - 1)
    case GiveUp => s.(gaveUp := true)
  }

  ghost predicate IsRun(requests: seq<seq<Turn>>, limit: nat, states: seq<State>, steps: seq<Step>) {
    && |states| == |steps| + 1
    && states[0] == Initial(requests)
    && (forall i :: 0 <= i < |steps| ==>
          && Shaped(states[i])
          && Enabled(limit, states[i], steps[i])
          && states[i + 1] == Apply(states[i], steps[i], limit))
  }

  // ---------------------------------------------------------------------------
  // The invariant

  /** User and assistant messages of the first n turns, alternating. */
  function Dialogue(turns: seq<Turn>, replies: seq<string>, n: nat): seq<Message>
    requires n <= |turns| && n <= |replies|
  {
    if n == 0 then []
    else Dialogue(turns, replies, n - 1) + [User(turns[n - 1].prompt), Assistant(replies[n - 1])]
  }

  /** How many turns of the conversation succeeded. */
  function Succeeded(v: Conv): nat {
    if v.phase.Finished? then v.finished + 1 else v.finished
  }

  /** A turn is sent whose outcome is still open or was a failure. */
  predicate Open(v: Conv) {
    v.phase.Posted? || v.phase.Failed?
  }

  ghost predicate ConvOk(v: Conv) {
    && v.finished < |v.turns|
    && |v.replies| == Succeeded(v)
    && (v.phase.Finished? ==> v.finished + 1 == |v.turns|)
    && v.messages == Dialogue(v.turns, v.replies, Succeeded(v))
                   + if Open(v) then [User(v.turns[v.finished].prompt)] else []
  }

  /** A request carried the dialogue of the turns before it and its own prompt. */
  ghost predicate SentOk(convs: seq<Conv>, e: Sent) {
    && e.conv < |convs|
    && e.turn < |convs[e.conv].turns| && e.turn <= |convs[e.conv].replies|
    && var v := convs[e.conv];
    && e.messages == Dialogue(v.turns, v.replies, e.turn) + [User(v.turns[e.turn].prompt)]
    && e.promptLen == HistoryLen(v.turns, e.turn) + v.turns[e.turn].inputLen
  }

  function TurnsSent(sent: seq<Sent>, c: nat): seq<nat> {
    if sent == [] then []
    else
      var last := sent[|sent| - 1];
      TurnsSent(sent[..|sent| - 1], c) + if last.conv == c then [last.turn] else []
  }

  /** How many turns of the conversation were sent. */
  function SentCount(v: Conv): nat {
    Succeeded(v) + if Open(v) then 1 else 0
  }

  /** How often the generator took the conversation. */
  function TakenCount(v: Conv): nat {
    v.finished + if v.phase.Queued? then 0 else 1
  }

  function TakenCounts(convs: seq<Conv>): (t: seq<int>)
    ensures |t| == |convs|
  {
    seq(|convs|, c requires 0 <= c < |convs| => TakenCount(convs[c]))
  }

  function PostedMarks(convs: seq<Conv>): (t: seq<int>)
    ensures |t| == |convs|
  {
    seq(|convs|, c requires 0 <= c < |convs| => if convs[c].phase.Posted? then 1 else 0)
  }

  function QueuedMarks(convs: seq<Conv>): (t: seq<int>)
    ensures |t| == |convs|
  {
    seq(|convs|, c requires 0 <= c < |convs| => if convs[c].phase.Queued? then 1 else 0)
  }

  predicate WithTask(v: Conv) {
    v.phase.Taken? || v.phase.Posted?
  }

  function TaskMarks(convs: seq<Conv>): (t: seq<int>)
    ensures |t| == |convs|
  {
    seq(|convs|, c requires 0 <= c < |convs| => if WithTask(convs[c]) then 1 else 0)
  }

  /** A conversation is in the queue once, or with one task, or gone. */
  ghost predicate Located(convs: seq<Conv>, queue: seq<nat>, running: seq<nat>) {
    && (forall c: nat :: multiset(queue)[c] == if c < |convs| && convs[c].phase.Queued? then 1 else 0)
    && (forall c: nat :: multiset(running)[c] ==
          if c < |convs| && WithTask(convs[c]) then 1 else 0)
  }

  ghost predicate InOrder(convs: seq<Conv>, sent: seq<Sent>) {
    forall c :: 0 <= c < |convs| ==> TurnsSent(sent, c) == Iota(SentCount(convs[c]))
  }

  ghost predicate Inv(s: State) {
    && (forall c :: 0 <= c < |s.convs| ==> ConvOk(s.convs[c]))
    && Located(s.convs, s.queue, s.running)
    && (forall i :: 0 <= i < |s.sent| ==> SentOk(s.convs, s.sent[i]))
    && InOrder(s.convs, s.sent)
    && s.taken == Sum(TakenCounts(s.convs))
    && s.inUse == Sum(PostedMarks(s.convs))
    && |s.queue| == Sum(QueuedMarks(s.convs))
    && |s.running| == Sum(TaskMarks(s.convs))
  }
}
