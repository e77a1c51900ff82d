/**
 What the requests of a run carry, said by the replies the steps brought; the order of the queue;
 and the limit on requests at a time.
 */
module RequeueReplies {
  import opened Sequences
  import opened Sums
  import opened Requeue
  import opened RequeueProofs
  import opened RequeueTheorems
  import opened RequeueRest

  // ---------------------------------------------------------------------------
  // Replies

  /** What a Succeed step brings. */
  datatype Answer = Answer(text: string, outputLen: int)

  function AnsweredBy(s: State, step: Step, c: nat): seq<Answer> {
    if step.Succeed? && step.k < |s.running| && s.running[step.k] == c then [Answer(step.text, step.outputLen)] else []
  }

  /** The answers to conversation c in the first i steps: the t-th answers its turn t. */
  function Answers(states: seq<State>, steps: seq<Step>, i: nat, c: nat): seq<Answer>
    requires i <= |steps| <= |states|
  {
    if i == 0 then []
    else Answers(states, steps, i - 1, c) + AnsweredBy(states[i - 1], steps[i - 1], c)
  }

  /** Tokens of the first n turns and their answers. */
  function Spent(turns: seq<Turn>, answers: seq<Answer>, n: nat): int
    requires n <= |turns| && n <= |answers|
  {
    if n == 0 then 0 else Spent(turns, answers, n - 1) + turns[n - 1].inputLen + answers[n - 1].outputLen
  }

  /** The first n turns and their answers as messages. */
  function Talk(turns: seq<Turn>, answers: seq<Answer>, n: nat): seq<Message>
    requires n <= |turns| && n <= |answers|
  {
    if n == 0 then []
    else Talk(turns, answers, n - 1) + [User(turns[n - 1].prompt), Assistant(answers[n - 1].text)]
  }

  /** The conversation has recorded the answers. */
  predicate Recorded(v: Conv, answers: seq<Answer>) {
    && |v.replies| == |answers| <= |v.turns|
    && forall t :: 0 <= t < |answers| ==>
         v.replies[t] == answers[t].text && v.turns[t].outputLen == answers[t].outputLen
  }

  lemma StepRecorded(s: State, limit: nat, step: Step, c: nat, answers: seq<Answer>)
    requires Shaped(s) && Inv(s) && Enabled(limit, s, step) && c < |s.convs| && Recorded(s.convs[c], answers)
    ensures var t := Apply(s, step, limit);
            |t.convs| == |s.convs| && Recorded(t.convs[c], answers + AnsweredBy(s, step, c))
  {
    hide Located, InOrder, SentOk, Dialogue, HistoryLen;
    assert ConvOk(s.convs[c]);
  }

  lemma {:induction false} RunRecorded(requests: seq<seq<Turn>>, limit: nat, states: seq<State>, steps: seq<Step>,
                                       i: nat, c: nat)
    requires NonEmpty(requests) && IsRun(requests, limit, states, steps) && i <= |steps| && c < |requests|
    ensures |states| == |steps| + 1 && |states[i].convs| == |requests|
    ensures Recorded(states[i].convs[c], Answers(states, steps, i, c))
  {
    hide Shaped, Enabled, Apply, Inv, Recorded, AnsweredBy;
    if i == 0 {
      FirstRecorded(requests, c);
    } else {
      RunRecorded(requests, limit, states, steps, i - 1, c);
      RunInv(requests, limit, states, steps, i - 1);
      StepRecorded(states[i - 1], limit, steps[i - 1], c, Answers(states, steps, i - 1, c));
    }
  }

  lemma FirstRecorded(requests: seq<seq<Turn>>, c: nat)
    requires c < |requests|
    ensures |Initial(requests).convs| == |requests| && Recorded(Initial(requests).convs[c], [])
  {
  }

  lemma {:induction false} SpentIsHistory(v: Conv, turns: seq<Turn>, answers: seq<Answer>, n: nat)
    requires FromRequest(v, turns) && Recorded(v, answers) && n <= |answers|
    ensures HistoryLen(v.turns, n) == Spent(turns, answers, n)
  {
    if n > 0 {
      SpentIsHistory(v, turns, answers, n - 1);
    }
  }

  lemma {:induction false} TalkIsDialogue(v: Conv, turns: seq<Turn>, answers: seq<Answer>, n: nat)
    requires FromRequest(v, turns) && Recorded(v, answers) && n <= |answers|
    ensures Dialogue(v.turns, v.replies, n) == Talk(turns, answers, n)
  {
    if n > 0 {
      TalkIsDialogue(v, turns, answers, n - 1);
    }
  }

  /**
   Every request of every run carried the prompts of the earlier turns, each with the text its
   Succeed step brought, and its own prompt; and it was counted with their input lengths and the
   output lengths those steps brought.
   */
  lemma RequestCarriesReplies(requests: seq<seq<Turn>>, limit: nat, states: seq<State>, steps: seq<Step>, i: nat, k: nat)
    requires NonEmpty(requests) && IsRun(requests, limit, states, steps) && i <= |steps| && k < |states[i].sent|
    ensures |states| == |steps| + 1
    ensures var e := states[i].sent[k];
            && e.conv < |requests| && e.turn < |requests[e.conv]|
            && var turns, answers := requests[e.conv], Answers(states, steps, i, e.conv);
            && e.turn <= |answers|
            && e.messages == Talk(turns, answers, e.turn) + [User(turns[e.turn].prompt)]
            && e.promptLen == Spent(turns, answers, e.turn) + turns[e.turn].inputLen
  {
    hide IsRun, Inv, Shaped, Answers, Recorded, FromRequest;
    RunInv(requests, limit, states, steps, i);
    var s := states[i];
    var e := s.sent[k];
    SentIsOk(s, k);
    RunFromRequest(requests, limit, states, steps, i, e.conv);
    RunRecorded(requests, limit, states, steps, i, e.conv);
    Carries(s.convs, e, requests[e.conv], Answers(states, steps, i, e.conv));
  }

  lemma SentIsOk(s: State, k: nat)
    requires Inv(s) && k < |s.sent|
    ensures SentOk(s.convs, s.sent[k])
  {
    hide Located, InOrder, ConvOk, SentOk;
  }

  lemma Carries(convs: seq<Conv>, e: Sent, turns: seq<Turn>, answers: seq<Answer>)
    requires SentOk(convs, e) && FromRequest(convs[e.conv], turns) && Recorded(convs[e.conv], answers)
    ensures e.turn < |turns| && e.turn <= |answers|
    ensures e.messages == Talk(turns, answers, e.turn) + [User(turns[e.turn].prompt)]
    ensures e.promptLen == Spent(turns, answers, e.turn) + turns[e.turn].inputLen
  {
    SpentIsHistory(convs[e.conv], turns, answers, e.turn);
    TalkIsDialogue(convs[e.conv], turns, answers, e.turn);
  }

  // ---------------------------------------------------------------------------
  // The order of the queue

  function TakenBy(s: State, step: Step): seq<nat> {
    if step.Take? && s.queue != [] then [s.queue[0]] else []
  }

  function PutBackBy(s: State, step: Step): seq<nat> {
    if PutsBack(s, step) then [s.running[step.k]] else []
  }

  /** The conversations the generator took in the first i steps. */
  function TakenSoFar(states: seq<State>, steps: seq<Step>, i: nat): seq<nat>
    requires i <= |steps| <= |states|
  {
    if i == 0 then [] else TakenSoFar(states, steps, i - 1) + TakenBy(states[i - 1], steps[i - 1])
  }

  /** The conversations put back in the first i steps: those answered with turns left. */
  function PutBackSoFar(states: seq<State>, steps: seq<Step>, i: nat): seq<nat>
    requires i <= |steps| <= |states|
  {
    if i == 0 then [] else PutBackSoFar(states, steps, i - 1) + PutBackBy(states[i - 1], steps[i - 1])
  }

  lemma StepQueue(s: State, limit: nat, step: Step)
    requires Shaped(s) && Enabled(limit, s, step)
    ensures TakenBy(s, step) + Apply(s, step, limit).queue == s.queue + PutBackBy(s, step)
  {
    if step.Take? {
      assert s.queue == [s.queue[0]] + s.queue[1..];
    }
  }

  /** Conversations are taken in the order in which they were put into the queue, at the start and since. */
  lemma {:induction false} TakenInOrder(requests: seq<seq<Turn>>, limit: nat, states: seq<State>, steps: seq<Step>, i: nat)
    requires IsRun(requests, limit, states, steps) && i <= |steps|
    ensures |states| == |steps| + 1
    ensures TakenSoFar(states, steps, i) + states[i].queue == Iota(|requests|) + PutBackSoFar(states, steps, i)
  {
    hide Shaped, Enabled, Apply, PutsBack, TakenBy, PutBackBy;
    if i == 0 {
      assert states[0].queue == Iota(|requests|);
    } else {
      TakenInOrder(requests, limit, states, steps, i - 1);
      var s, step, t := states[i - 1], steps[i - 1], states[i];
      assert t == Apply(s, step, limit);
      StepQueue(s, limit, step);
      Regroup(TakenSoFar(states, steps, i - 1), TakenBy(s, step), t.queue);
      Regroup(TakenSoFar(states, steps, i - 1), s.queue, PutBackBy(s, step));
      Regroup(Iota(|requests|), PutBackSoFar(states, steps, i - 1), PutBackBy(s, step));
    }
  }

  // ---------------------------------------------------------------------------
  // The semaphore

  lemma {:induction false} InUseLimited(requests: seq<seq<Turn>>, limit: nat, states: seq<State>, steps: seq<Step>, i: nat)
    requires NonEmpty(requests) && IsRun(requests, limit, states, steps) && i <= |steps| && limit > 0
    ensures |states| == |steps| + 1 && states[i].inUse <= limit
  {
    hide Inv, Shaped;
    if i > 0 {
      InUseLimited(requests, limit, states, steps, i - 1);
      assert states[i] == Apply(states[i - 1], steps[i - 1], limit);
    }
  }

  /** With max_concurrency set, never more than that many requests are in flight. */
  lemma ConcurrencyHolds(requests: seq<seq<Turn>>, limit: nat, states: seq<State>, steps: seq<Step>, i: nat)
    requires NonEmpty(requests) && IsRun(requests, limit, states, steps) && i <= |steps| && limit > 0
    ensures |states| == |steps| + 1 && Sum(PostedMarks(states[i].convs)) <= limit
  {
    hide Located, InOrder, ConvOk, SentOk, Sum, IsRun;
    RunInv(requests, limit, states, steps, i);
    InUseLimited(requests, limit, states, steps, i);
  }
}
