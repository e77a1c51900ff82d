/**
 The conversation queue as an object: each method is the code of one step of the protocol, and
 promises to do exactly what its Step does.  The object records the run its calls make, which is
 a run of the protocol whatever the order of the calls.
 */
module ConversationQueue {
  import opened Sums
  import opened Requeue
  import opened RequeueProofs

  /** The tokens of the turns before `index` and of its own prompt. */
  method PromptLen(turns: seq<Turn>, index: nat) returns (length: int)
    requires index < |turns|
    ensures length == HistoryLen(turns, index) + turns[index].inputLen
  {
    length := 0;
    for i := 0 to index
      invariant length == HistoryLen(turns, i)
    {
      length := length + (turns[i].inputLen + turns[i].outputLen);
    }
    length := length + turns[index].inputLen;
  }

  /** num_actual_requests. */
  method CountTurns(requests: seq<seq<Turn>>) returns (total: int)
    ensures total == Total(Initial(requests).convs)
  {
    total := 0;
    ghost var lengths := Lengths(Initial(requests).convs);
    for i := 0 to |requests|
      invariant total == Sum(lengths[..i])
    {
      total := total + |requests[i]|;
      assert lengths[..i + 1] == lengths[..i] + [|requests[i]|];
      SumAppend(lengths[..i], [|requests[i]|]);
    }
    assert lengths[..|requests|] == lengths;
  }

  class Benchmark {
    const limit: nat
    const total: int

    var convs: seq<Conv>
    var queue: seq<nat>
    var running: seq<nat>
    var inUse: int
    var taken: int
    var gaveUp: bool
    var sent: seq<Sent>

    ghost const requests: seq<seq<Turn>>
    ghost var states: seq<State>
    ghost var steps: seq<Step>

    ghost function Abs(): State
      reads this
    {
      State(convs, queue, running, inUse, taken, gaveUp, sent)
    }

    /** The calls so far are a run that ends here. */
    ghost predicate Valid()
      reads this
    {
      && (forall c :: 0 <= c < |requests| ==> requests[c] != [])
      && Shaped(Abs()) && total == Total(convs)
      && IsRun(requests, limit, states, steps) && states[|steps|] == Abs()
    }

    /** The method was one step, and it is recorded. */
    twostate predicate Did(step: Step)
      reads this
    {
      states == old(states) + [Abs()] && steps == old(steps) + [step]
    }

    ghost method Record(before: State, step: Step)
      requires forall c :: 0 <= c < |requests| ==> requests[c] != []
      requires IsRun(requests, limit, states, steps) && states[|steps|] == before
      requires Shaped(before) && Enabled(limit, before, step) && Abs() == Apply(before, step, limit)
      modifies this`states, this`steps
      ensures IsRun(requests, limit, states, steps) && Shaped(Abs()) && Did(step)
      ensures Total(convs) == Total(before.convs)
    {
      hide IsRun, Shaped, Enabled, Apply, Total;
      assert |states| == |steps| + 1 by { RunLength(requests, limit, states, steps); }
      RunExtends(requests, limit, states, steps, step, Abs());
      states, steps := states + [Abs()], steps + [step];
    }

    constructor (requests: seq<seq<Turn>>, limit: nat)
      requires forall c :: 0 <= c < |requests| ==> requests[c] != []
      ensures this.limit == limit && this.requests == requests && Abs() == Initial(requests)
      ensures Valid() && steps == []
    {
      var n := |requests|;
      this.limit, this.requests := limit, requests;
      var count := CountTurns(requests);
      total := count;
      convs := seq(n, c requires 0 <= c < n => Fresh(requests[c]));
      queue := seq(n, c requires 0 <= c < n => c);
      running, inUse, taken, gaveUp, sent := [], 0, 0, false, [];
      new;
      states, steps := [Abs()], [];
      InitInv(requests);
      InvShaped(Abs());
    }

    /** One get of the generator.  With an empty queue it times out and gives up. */
    method Next() returns (some: bool)
      requires Valid() && !gaveUp && taken < total
      modifies this
      ensures some == (old(queue) != [])
      ensures Abs() == Apply(old(Abs()), if some then Take else GiveUp, limit)
      ensures Valid() && Did(if some then Take else GiveUp)
    {
      some := queue != [];
      if some {
        var c := queue[0];
        queue := queue[1..];
        taken := taken + 1;
        convs := convs[c := convs[c].(phase := Taken)];
        running := running + [c];
      } else {
        gaveUp := true;
      }
      Record(old(Abs()), if some then Take else GiveUp);
    }

    /** Task k gets the semaphore and sends its turn. */
    method Send(k: nat)
      requires Valid() && k < |running| && convs[running[k]].phase == Taken && (limit == 0 || inUse < limit)
      modifies this
      ensures Abs() == Apply(old(Abs()), Start(k), limit)
      ensures Valid() && Did(Start(k))
    {
      var c := running[k];
      var v := convs[c];
      var length := PromptLen(v.turns, v.finished);
      v := v.(messages := v.messages + [User(v.turns[v.finished].prompt)], phase := Posted);
      convs := convs[c := v];
      inUse := inUse + 1;
      sent := sent + [Sent(c, v.finished, v.messages, length, v.turns[v.finished].outputLen)];
      Record(old(Abs()), Start(k));
    }

    /** Task k has its response: the real output length replaces max_tokens, and the conversation
        goes back to the end of the queue when turns are left. */
    method Receive(k: nat, ok: bool, text: string, outputLen: int)
      requires Valid() && k < |running| && convs[running[k]].phase == Posted
      modifies this
      ensures Abs() == Apply(old(Abs()), if ok then Succeed(k, text, outputLen) else Fail(k), limit)
      ensures Valid() && Did(if ok then Succeed(k, text, outputLen) else Fail(k))
    {
      var c := running[k];
      var v := convs[c];
      if ok {
        var turn := v.turns[v.finished];
        v := v.(turns := v.turns[v.finished := Turn(turn.prompt, turn.inputLen, outputLen)],
                messages := v.messages + [Assistant(text)], replies := v.replies + [text]);
        var next := v.finished + 1;
        if next < |v.turns| {
          v := v.(finished := next, phase := Queued);
          queue := queue + [c];
        } else {
          v := v.(phase := Finished);
        }
      } else {
        v := v.(phase := Failed);
      }
      convs := convs[c := v];
      running := running[..k] + running[k + 1..];
      inUse := inUse - 1;
      Record(old(Abs()), if ok then Succeed(k, text, outputLen) else Fail(k));
    }
  }
}
