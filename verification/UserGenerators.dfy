/**
 The user generator as an object: `Pop` and `Push` do exactly what their steps do, and the object
 records the run its calls make.
 */
module UserGenerators {
  import opened Sequences
  import opened Sums
  import opened UserQueue
  import opened UserQueueProofs

  /** The loop of `gen` over the cumulative ratios. */
  method PickRounds(cumulative: seq<int>, rand: int) returns (i: nat)
    ensures i == Rounds(cumulative, rand)
  {
    i := |cumulative|;
    for idx := 0 to |cumulative|
      invariant i == |cumulative| && Rounds(cumulative, rand) >= idx
      invariant forall j :: 0 <= j < idx ==> cumulative[j] <= rand
    {
      if rand < cumulative[idx] {
        i := idx + 1;
        break;
      }
    }
  }

  /** The loop of `push`: it computes `i` and leaves `idx` at the index it looked at last. */
  method Scan(starts: seq<real>, start: real) returns (i: nat, idx: nat)
    requires starts != []
    ensures i == FirstLater(starts, start) && idx == Place(starts, start)
  {
    i, idx := |starts|, 0;
    for n := 0 to |starts|
      invariant i == |starts| && idx == (if n == 0 then 0 else n - 1)
      invariant forall j :: 0 <= j < n ==> starts[j] <= start
    {
      idx := n;
      if start < starts[n] {
        i := n;
        break;
      }
    }
  }

  class UserGenerator {
    const cfg: Config
    const cumulative: seq<int>

    var users: seq<User>
    var queue: seq<nat>
    var userStats: seq<int>
    var inputs: seq<Tally>
    var outputs: seq<Tally>
    ghost var held: seq<nat>
    ghost var handed: seq<(nat, nat)>

    ghost var states: seq<State>
    ghost var steps: seq<Step>

    ghost function Abs(): State
      reads this
    {
      State(users, queue, held, userStats, inputs, outputs, handed)
    }

    /** The calls so far are a run that ends here. */
    ghost predicate Valid()
      reads this
    {
      && ValidConfig(cfg) && cumulative == Cumulative(cfg.ratios) && Shaped(cfg, Abs())
      && IsRun(cfg, states, steps) && states[|steps|] == Abs()
    }

    /** The method was one step, and it is recorded. */
    twostate predicate Did(step: Step)
      reads this
    {
      states == old(states) + [Abs()] && steps == old(steps) + [step]
    }

    ghost method Record(before: State, step: Step)
      requires ValidConfig(cfg) && IsRun(cfg, states, steps) && states[|steps|] == before
      requires Shaped(cfg, before) && Enabled(cfg, before, step) && Abs() == Apply(cfg, before, step)
      modifies this`states, this`steps
      ensures IsRun(cfg, states, steps) && Shaped(cfg, Abs()) && Did(step)
    {
      hide IsRun, Shaped, Enabled, Apply;
      assert |states| == |steps| + 1 by { RunLength(cfg, states, steps); }
      RunExtends(cfg, states, steps, step, Abs());
      states, steps := states + [Abs()], steps + [step];
    }

    constructor (cfg: Config)
      requires ValidConfig(cfg)
      ensures this.cfg == cfg && Valid() && Abs() == Initial(cfg) && steps == []
    {
      var n := |cfg.ratios|;
      this.cfg := cfg;
      cumulative := Cumulative(cfg.ratios);
      users, queue, held, handed := [], [], [], [];
      userStats, inputs, outputs := seq(n, _ => 0), seq(n, _ => Tally(0, 0)), seq(n, _ => Tally(0, 0));
      new;
      states, steps := [Abs()], [];
    }

    method Gen(now: real, rand: int, candidate: Candidate, tokens: int) returns (u: nat)
      requires Valid() && !Due(users, queue, now) && 0 <= rand <= Sum(cfg.ratios)
      modifies this
      ensures u == old(|users|) && Abs() == Apply(cfg, old(Abs()), New(now, rand, candidate, tokens))
      ensures Valid() && Did(New(now, rand, candidate, tokens))
    {
      u := |users|;
      var total := PickRounds(cumulative, rand);
      inputs := inputs[0 := Tally(inputs[0].tokens + candidate.length, inputs[0].count + 1)];
      var returnTokens := if tokens <= 0 then cfg.returnMeans[0] else tokens;
      users := users + [User(0, total, [Id(u), Text(candidate.prompt)], returnTokens, 0.0, [candidate.length], [])];
      userStats := userStats[total - 1 := userStats[total - 1] + 1];
      held, handed := held + [u], handed + [(u, 0)];
      Record(old(Abs()), New(now, rand, candidate, tokens));
    }

    /** The head of the queue, once its start time has passed, or else a new user. */
    method Pop(now: real, rand: int, candidate: Candidate, tokens: int) returns (u: nat)
      requires Valid() && 0 <= rand <= Sum(cfg.ratios)
      modifies this
      ensures Abs() == Apply(cfg, old(Abs()),
                             if old(Due(users, queue, now)) then Take(now) else New(now, rand, candidate, tokens))
      ensures Valid() && Did(if old(Due(users, queue, now)) then Take(now) else New(now, rand, candidate, tokens))
      ensures u == if old(queue != [] && now > users[queue[0]].start) then old(queue)[0] else old(|users|)
    {
      if queue != [] && now > users[queue[0]].start {
        u := queue[0];
        queue := queue[1..];
        held, handed := held + [u], handed + [(u, users[u].round)];
        Record(old(Abs()), Take(now));
      } else {
        u := Gen(now, rand, candidate, tokens);
      }
    }

    /** User u comes back; the caller has it from `Pop`. */
    method Push(u: nat, ghost k: nat, text: string, gaps: int, candidate: Candidate, tokens: int, now: real, interval: real)
      requires Valid() && k < |held| && held[k] == u
      modifies this
      ensures Abs() == Apply(cfg, old(Abs()), Step.Push(k, text, gaps, candidate, tokens, now, interval))
      ensures Valid() && Did(Step.Push(k, text, gaps, candidate, tokens, now, interval))
    {
      hide Enqueue, Cumulative, RemoveAt;
      var v := users[u];
      outputs := outputs[v.round := Tally(outputs[v.round].tokens + (gaps + 1), outputs[v.round].count + 1)];
      held := RemoveAt(held, k);
      var r := v.round + 1;
      v := v.(round := r, outputs := v.outputs + [gaps + 1]);
      if r >= v.total {
        users := users[u := v];
        Record(old(Abs()), Step.Push(k, text, gaps, candidate, tokens, now, interval));
        return;
      }
      inputs := inputs[r := Tally(inputs[r].tokens + candidate.length, inputs[r].count + 1)];
      v := v.(lengths := v.lengths + [candidate.length], prompt := v.prompt + [Text(text), Text(candidate.prompt)],
              returnTokens := if tokens <= 0 then cfg.returnMeans[r] else tokens,
              start := now + if interval <= 0.0 then cfg.intervalMeans[r] else interval);
      users := users[u := v];
      Join(u);
      Record(old(Abs()), Step.Push(k, text, gaps, candidate, tokens, now, interval));
    }

    method Join(u: nat)
      requires u < |users| && Known(users, queue)
      modifies this`queue
      ensures queue == Enqueue(users, old(queue), u)
    {
      if queue == [] {
        queue := [u];
      } else {
        var _, idx := Scan(Starts(users, queue), users[u].start);
        queue := queue[..idx] + [u] + queue[idx..];
      }
    }
  }
}
