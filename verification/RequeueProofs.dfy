/** The invariant of the conversation queue, and what holds in every run. */
module RequeueProofs {
  import opened Sequences
  import opened Sums
  import opened Requeue

  // ---------------------------------------------------------------------------
  // What an update of one conversation leaves alone

  lemma {:induction false} DialogueStable(t: seq<Turn>, t': seq<Turn>, r: seq<string>, r': seq<string>, n: nat)
    requires n <= |t| && n <= |t'| && n <= |r| && n <= |r'|
    requires forall j :: 0 <= j < n ==> t[j].prompt == t'[j].prompt && r[j] == r'[j]
    ensures Dialogue(t, r, n) == Dialogue(t', r', n)
  {
    if n > 0 {
      DialogueStable(t, t', r, r', n - 1);
    }
  }

  lemma {:induction false} HistoryLenStable(t: seq<Turn>, t': seq<Turn>, n: nat)
    requires n <= |t| && n <= |t'| && forall j :: 0 <= j < n ==> t[j] == t'[j]
    ensures HistoryLen(t, n) == HistoryLen(t', n)
  {
    if n > 0 {
      HistoryLenStable(t, t', n - 1);
    }
  }

  /** v' is v with the same prompts, the same finished turns, and possibly one more reply. */
  ghost predicate Extends(v: Conv, v': Conv) {
    && |v'.turns| == |v.turns| && |v.replies| <= |v.turns|
    && v.replies <= v'.replies
    && (forall j :: 0 <= j < |v.turns| ==>
          v'.turns[j].prompt == v.turns[j].prompt && v'.turns[j].inputLen == v.turns[j].inputLen)
    && (forall j :: 0 <= j < |v.replies| ==> v'.turns[j] == v.turns[j])
  }

  lemma SentStays(convs: seq<Conv>, c: nat, v': Conv, e: Sent)
    requires c < |convs| && Extends(convs[c], v') && SentOk(convs, e)
    ensures SentOk(convs[c := v'], e)
  {
    if e.conv == c {
      var v := convs[c];
      DialogueStable(v.turns, v'.turns, v.replies, v'.replies, e.turn);
      HistoryLenStable(v.turns, v'.turns, e.turn);
    }
  }

  lemma AllSentStays(convs: seq<Conv>, c: nat, v': Conv, sent: seq<Sent>)
    requires c < |convs| && Extends(convs[c], v')
    requires forall i :: 0 <= i < |sent| ==> SentOk(convs, sent[i])
    ensures forall i :: 0 <= i < |sent| ==> SentOk(convs[c := v'], sent[i])
  {
    forall i | 0 <= i < |sent| ensures SentOk(convs[c := v'], sent[i]) {
      SentStays(convs, c, v', sent[i]);
    }
  }

  lemma CountsUpdate(convs: seq<Conv>, c: nat, v': Conv)
    requires c < |convs|
    ensures var v, convs' := convs[c], convs[c := v'];
            && Sum(TakenCounts(convs')) == Sum(TakenCounts(convs)) - TakenCount(v) + TakenCount(v')
            && Sum(PostedMarks(convs')) == Sum(PostedMarks(convs)) - Flag(v.phase.Posted?) + Flag(v'.phase.Posted?)
            && Sum(QueuedMarks(convs')) == Sum(QueuedMarks(convs)) - Flag(v.phase.Queued?) + Flag(v'.phase.Queued?)
            && Sum(TaskMarks(convs')) == Sum(TaskMarks(convs)) - Flag(WithTask(v)) + Flag(WithTask(v'))
            && (|v'.turns| == |v.turns| ==> Total(convs') == Total(convs))
  {
    assert TakenCounts(convs[c := v']) == TakenCounts(convs)[c := TakenCount(v')];
    assert PostedMarks(convs[c := v']) == PostedMarks(convs)[c := Flag(v'.phase.Posted?)];
    assert QueuedMarks(convs[c := v']) == QueuedMarks(convs)[c := Flag(v'.phase.Queued?)];
    assert TaskMarks(convs[c := v']) == TaskMarks(convs)[c := Flag(WithTask(v'))];
    assert Lengths(convs[c := v']) == Lengths(convs)[c := |v'.turns|];
    SumUpdate(TakenCounts(convs), c, TakenCount(v'));
    SumUpdate(PostedMarks(convs), c, Flag(v'.phase.Posted?));
    SumUpdate(QueuedMarks(convs), c, Flag(v'.phase.Queued?));
    SumUpdate(TaskMarks(convs), c, Flag(WithTask(v')));
    SumUpdate(Lengths(convs), c, |v'.turns|);
  }

  // ---------------------------------------------------------------------------
  // One conversation

  lemma PostOk(v: Conv)
    requires ConvOk(v) && v.phase.Taken?
    ensures ConvOk(Post(v)) && Extends(v, Post(v))
  {
  }

  lemma ReplyOk(v: Conv, text: string, outputLen: int)
    requires ConvOk(v) && v.phase.Posted?
    ensures ConvOk(Reply(v, text, outputLen)) && Extends(v, Reply(v, text, outputLen))
    ensures SentCount(Reply(v, text, outputLen)) == SentCount(v)
    ensures TakenCount(Reply(v, text, outputLen)) == TakenCount(v)
  {
    var v', n := Reply(v, text, outputLen), v.finished;
    DialogueStable(v.turns, v'.turns, v.replies, v'.replies, n);
    assert Dialogue(v'.turns, v'.replies, n + 1)
        == Dialogue(v'.turns, v'.replies, n) + [User(v'.turns[n].prompt), Assistant(text)];
    assert v'.messages == Dialogue(v'.turns, v'.replies, n + 1);
  }

  // ---------------------------------------------------------------------------
  // Every step

  lemma InitLocated(requests: seq<seq<Turn>>)
    ensures var s := Initial(requests); Located(s.convs, s.queue, s.running)
  {
    var n := |requests|;
    var queue := Initial(requests).queue;
    forall c: nat ensures multiset(queue)[c] == if c < n then 1 else 0 {
      if c < n {
        assert queue == queue[..c] + [c] + queue[c + 1..];
        assert c !in queue[..c] && c !in queue[c + 1..];
      } else {
        assert c !in queue;
      }
    }
  }

  lemma InitInv(requests: seq<seq<Turn>>)
    requires forall c :: 0 <= c < |requests| ==> requests[c] != []
    ensures Inv(Initial(requests))
  {
    hide Located;
    var s := Initial(requests);
    InitLocated(requests);
    SumZero(TakenCounts(s.convs));
    SumZero(PostedMarks(s.convs));
    SumZero(TaskMarks(s.convs));
    SumOnes(QueuedMarks(s.convs));
  }

  lemma InvShaped(s: State)
    requires Inv(s)
    ensures Shaped(s)
  {
    forall i | 0 <= i < |s.queue| ensures s.queue[i] < |s.convs| {
      assert multiset(s.queue)[s.queue[i]] >= 1;
    }
    forall i | 0 <= i < |s.running| ensures s.running[i] < |s.convs| {
      assert multiset(s.running)[s.running[i]] >= 1;
    }
    forall c | 0 <= c < |s.convs| ensures s.convs[c].finished < |s.convs[c].turns| {
      assert ConvOk(s.convs[c]);
    }
  }

  /** The parts of the invariant that a step on conversation c touches. */
  lemma Assemble(s: State, t: State, c: nat, v: Conv, extra: seq<Sent>)
    requires c < |s.convs| && t.convs == s.convs[c := v] && t.sent == s.sent + extra
    requires ConvOk(v) && Extends(s.convs[c], v)
    requires Located(t.convs, t.queue, t.running)
    requires forall i :: 0 <= i < |extra| ==> SentOk(t.convs, extra[i])
    requires InOrder(t.convs, t.sent)
    requires t.taken == s.taken - TakenCount(s.convs[c]) + TakenCount(v)
    requires t.inUse == s.inUse - Flag(s.convs[c].phase.Posted?) + Flag(v.phase.Posted?)
    requires |t.queue| == |s.queue| - Flag(s.convs[c].phase.Queued?) + Flag(v.phase.Queued?)
    requires |t.running| == |s.running| - Flag(WithTask(s.convs[c])) + Flag(WithTask(v))
    requires Inv(s)
    ensures Inv(t) && Total(t.convs) == Total(s.convs)
  {
    hide Located, InOrder, SentOk, ConvOk, Total;
    CountsUpdate(s.convs, c, v);
    AllSentStays(s.convs, c, v, s.sent);
  }

  lemma OrderUpdate(convs: seq<Conv>, sent: seq<Sent>, c: nat, v: Conv)
    requires c < |convs| && InOrder(convs, sent) && SentCount(v) == SentCount(convs[c])
    ensures InOrder(convs[c := v], sent)
  {
  }

  /** Moving one conversation between the queue, the tasks and neither. */
  lemma Relocate(convs: seq<Conv>, queue: seq<nat>, running: seq<nat>, queue': seq<nat>, running': seq<nat>,
                 c: nat, v: Conv)
    requires c < |convs| && Located(convs, queue, running)
    requires multiset(queue') == multiset(queue)[c := if v.phase.Queued? then 1 else 0]
    requires multiset(running') == multiset(running)[c := if WithTask(v) then 1 else 0]
    ensures Located(convs[c := v], queue', running')
  {
  }

  lemma BagLast(s: seq<nat>, c: nat)
    ensures multiset(s + [c]) == multiset(s) + multiset{c}
  {
  }

  lemma TakeInv(s: State, limit: nat)
    requires Inv(s) && Shaped(s) && Enabled(limit, s, Take)
    ensures Inv(Apply(s, Take, limit)) && Total(Apply(s, Take, limit).convs) == Total(s.convs)
  {
    hide Inv, SentOk, ConvOk, InOrder;
    var c, t := s.queue[0], Apply(s, Take, limit);
    var v := s.convs[c].(phase := Taken);
    HeadQueued(s);
    BagHead(s.queue);
    BagLast(s.running, c);
    Relocate(s.convs, s.queue, s.running, t.queue, t.running, c, v);
    OrderUpdate(s.convs, s.sent, c, v);
    assert t.sent == s.sent + [];
    TakenOk(s.convs[c]);
    Assemble(s, t, c, v, []);
  }

  lemma TakenOk(v: Conv)
    requires ConvOk(v) && v.phase.Queued?
    ensures ConvOk(v.(phase := Taken)) && Extends(v, v.(phase := Taken))
  {
  }

  lemma FailedOk(v: Conv)
    requires ConvOk(v) && v.phase.Posted?
    ensures ConvOk(v.(phase := Failed)) && Extends(v, v.(phase := Failed))
  {
  }

  lemma HeadQueued(s: State)
    requires Inv(s) && s.queue != []
    ensures var c := s.queue[0]; c < |s.convs| && s.convs[c].phase.Queued? && ConvOk(s.convs[c])
    ensures Located(s.convs, s.queue, s.running) && InOrder(s.convs, s.sent)
  {
    assert multiset(s.queue)[s.queue[0]] >= 1;
  }

  lemma RunningOk(s: State, k: nat)
    requires Inv(s) && k < |s.running|
    ensures var c := s.running[k]; c < |s.convs| && ConvOk(s.convs[c])
    ensures Located(s.convs, s.queue, s.running) && InOrder(s.convs, s.sent)
  {
    assert multiset(s.running)[s.running[k]] >= 1;
  }

  lemma StartInv(s: State, limit: nat, k: nat)
    requires Inv(s) && Shaped(s) && Enabled(limit, s, Start(k))
    ensures var t := Apply(s, Start(k), limit); Inv(t) && Total(t.convs) == Total(s.convs)
  {
    hide Inv, ConvOk, InOrder, SentOk;
    RunningOk(s, k);
    var c, t := s.running[k], Apply(s, Start(k), limit);
    var v := Post(s.convs[c]);
    Relocate(s.convs, s.queue, s.running, t.queue, t.running, c, v);
    PostOk(s.convs[c]);
    var e := t.sent[|s.sent|];
    StartSent(s.convs, c, e);
    StartOrder(s.convs, s.sent, c, e);
    Assemble(s, t, c, v, [e]);
  }

  lemma StartSent(convs: seq<Conv>, c: nat, e: Sent)
    requires c < |convs| && ConvOk(convs[c]) && convs[c].phase.Taken?
    requires var v := Post(convs[c]);
             e == Sent(c, v.finished, v.messages, HistoryLen(v.turns, v.finished) + v.turns[v.finished].inputLen,
                       v.turns[v.finished].outputLen)
    ensures SentOk(convs[c := Post(convs[c])], e)
  {
  }

  lemma StartOrder(convs: seq<Conv>, sent: seq<Sent>, c: nat, e: Sent)
    requires c < |convs| && ConvOk(convs[c]) && convs[c].phase.Taken?
    requires InOrder(convs, sent) && e.conv == c && e.turn == convs[c].finished
    ensures InOrder(convs[c := Post(convs[c])], sent + [e])
  {
    var convs', n := convs[c := Post(convs[c])], convs[c].finished;
    assert (sent + [e])[..|sent|] == sent;
    assert Iota(n) + [n] == Iota(n + 1);
    forall k | 0 <= k < |convs| ensures TurnsSent(sent + [e], k) == Iota(SentCount(convs'[k])) {
      assert TurnsSent(sent, k) == Iota(SentCount(convs[k]));
    }
  }

  lemma SucceedInv(s: State, limit: nat, k: nat, text: string, outputLen: int)
    requires Inv(s) && Shaped(s) && Enabled(limit, s, Succeed(k, text, outputLen))
    ensures var t := Apply(s, Succeed(k, text, outputLen), limit); Inv(t) && Total(t.convs) == Total(s.convs)
  {
    hide Inv, ConvOk, SentOk, InOrder;
    RunningOk(s, k);
    var c, t := s.running[k], Apply(s, Succeed(k, text, outputLen), limit);
    var v := Reply(s.convs[c], text, outputLen);
    ReplyOk(s.convs[c], text, outputLen);
    OrderUpdate(s.convs, s.sent, c, v);
    assert t.sent == s.sent + [];
    BagRemove(s.running, k);
    BagLast(s.queue, c);
    Relocate(s.convs, s.queue, s.running, t.queue, t.running, c, v);
    Assemble(s, t, c, v, []);
  }

  lemma FailInv(s: State, limit: nat, k: nat)
    requires Inv(s) && Shaped(s) && Enabled(limit, s, Fail(k))
    ensures var t := Apply(s, Fail(k), limit); Inv(t) && Total(t.convs) == Total(s.convs)
  {
    hide Inv, SentOk, ConvOk, InOrder;
    RunningOk(s, k);
    var c, t := s.running[k], Apply(s, Fail(k), limit);
    var v := s.convs[c].(phase := Failed);
    FailedOk(s.convs[c]);
    OrderUpdate(s.convs, s.sent, c, v);
    assert t.sent == s.sent + [];
    BagRemove(s.running, k);
    BagLast(s.queue, c);
    Relocate(s.convs, s.queue, s.running, t.queue, t.running, c, v);
    Assemble(s, t, c, v, []);
  }

  lemma StepInv(s: State, limit: nat, step: Step)
    requires Inv(s) && Shaped(s) && Enabled(limit, s, step)
    ensures var t := Apply(s, step, limit); Inv(t) && Shaped(t) && Total(t.convs) == Total(s.convs)
  {
    hide Inv, Shaped, Enabled, Apply;
    match step
    case Take => TakeInv(s, limit); InvShaped(Apply(s, step, limit));
    case Start(k) => StartInv(s, limit, k); InvShaped(Apply(s, step, limit));
    case Succeed(k, text, outputLen) => SucceedInv(s, limit, k, text, outputLen); InvShaped(Apply(s, step, limit));
    case Fail(k) => FailInv(s, limit, k); InvShaped(Apply(s, step, limit));
    case GiveUp => GiveUpInv(s, limit); InvShaped(Apply(s, step, limit));
  }

  lemma GiveUpInv(s: State, limit: nat)
    requires Inv(s) && Shaped(s) && Enabled(limit, s, GiveUp)
    ensures var t := Apply(s, GiveUp, limit); Inv(t) && t.convs == s.convs
  {
  }

  lemma {:induction false} RunInv(requests: seq<seq<Turn>>, limit: nat, states: seq<State>, steps: seq<Step>, i: nat)
    requires IsRun(requests, limit, states, steps) && i <= |steps|
    requires forall c :: 0 <= c < |requests| ==> requests[c] != []
    ensures |states| == |steps| + 1 && Inv(states[i]) && Shaped(states[i])
    ensures |states[i].convs| == |requests| && Total(states[i].convs) == Total(states[0].convs)
  {
    hide Inv, Shaped, Enabled, Apply, Total;
    if i == 0 {
      InitInv(requests);
      InvShaped(states[0]);
    } else {
      RunInv(requests, limit, states, steps, i - 1);
      StepInv(states[i - 1], limit, steps[i - 1]);
      SameConvs(states[i - 1], limit, steps[i - 1]);
    }
  }

  lemma SameConvs(s: State, limit: nat, step: Step)
    requires Shaped(s) && Enabled(limit, s, step)
    ensures |Apply(s, step, limit).convs| == |s.convs|
  {
  }

  lemma RunLength(requests: seq<seq<Turn>>, limit: nat, states: seq<State>, steps: seq<Step>)
    requires IsRun(requests, limit, states, steps)
    ensures |states| == |steps| + 1
  {
  }

  /** A run goes on with any step its last state allows. */
  lemma RunExtends(requests: seq<seq<Turn>>, limit: nat, states: seq<State>, steps: seq<Step>, step: Step, t: State)
    requires IsRun(requests, limit, states, steps) && forall c :: 0 <= c < |requests| ==> requests[c] != []
    requires Shaped(states[|steps|]) && Enabled(limit, states[|steps|], step)
    requires t == Apply(states[|steps|], step, limit)
    ensures IsRun(requests, limit, states + [t], steps + [step])
    ensures Shaped(t) && Total(t.convs) == Total(states[|steps|].convs)
  {
    hide Initial, Shaped, Enabled, Apply, Inv, Total;
    var longer, more := states + [t], steps + [step];
    assert longer[0] == states[0];
    RunInv(requests, limit, longer, more, |more|);
    RunInv(requests, limit, longer, more, |steps|);
  }
}
