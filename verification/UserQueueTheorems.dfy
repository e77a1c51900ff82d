/** What holds in every run of the timed user queue. */
module UserQueueTheorems {
  import opened Sequences
  import opened Sums
  import opened UserQueue
  import opened UserQueueProofs

  // ---------------------------------------------------------------------------
  // Users and counters

  /** No user is lost or duplicated: it is once in the queue, once handed out, or has done all its rounds. */
  lemma NoUserLost(cfg: Config, states: seq<State>, steps: seq<Step>, i: nat, u: nat)
    requires IsRun(cfg, states, steps) && i <= |steps| && u < |states[i].users|
    ensures multiset(states[i].queue)[u] + multiset(states[i].held)[u]
         == if states[i].users[u].round < states[i].users[u].total then 1 else 0
    ensures states[i].users[u].round <= states[i].users[u].total <= |cfg.ratios|
  {
    hide InOrder, Ascending, Counted;
    RunInv(cfg, states, steps, i);
    var s := states[i];
    assert UserOk(cfg, s.users[u], u);
    assert (multiset(s.queue) + multiset(s.held))[u] == multiset(s.queue)[u] + multiset(s.held)[u];
  }

  /** Each of a user's rounds is handed out once and in order; a retired user had all of them. */
  lemma RoundsInOrder(cfg: Config, states: seq<State>, steps: seq<Step>, i: nat, u: nat)
    requires IsRun(cfg, states, steps) && i <= |steps| && u < |states[i].users|
    ensures var s := states[i];
            var v := s.users[u];
            HandedRounds(s.handed, u) ==
            Iota(if v.round < v.total then v.round + multiset(s.held)[u] else v.total)
  {
    hide Ascending, Counted, Iota, HandedRounds;
    NoUserLost(cfg, states, steps, i, u);
    RunInv(cfg, states, steps, i);
  }

  function PerTotal(users: seq<User>, n: nat): (m: seq<int>)
    ensures |m| == n && forall t :: 0 <= t < n ==> m[t] == Sum(Totals(users, t + 1))
  {
    seq(n, t requires 0 <= t < n => Sum(Totals(users, t + 1)))
  }

  lemma {:induction false} TotalsCover(users: seq<User>, n: nat)
    requires forall u :: 0 <= u < |users| ==> 1 <= users[u].total <= n
    ensures Sum(PerTotal(users, n)) == |users|
  {
    if users == [] {
      assert forall t: nat :: Totals([], t) == [];
      SumZero(PerTotal(users, n));
    } else {
      var rest, v := users[..|users| - 1], users[|users| - 1];
      TotalsCover(rest, n);
      assert users == rest + [v];
      CoverOne(rest, v, n);
    }
  }

  lemma CoverOne(rest: seq<User>, v: User, n: nat)
    requires 1 <= v.total <= n
    ensures Sum(PerTotal(rest + [v], n)) == Sum(PerTotal(rest, n)) + 1
  {
    hide Totals;
    var before, k := PerTotal(rest, n), v.total - 1;
    var after := before[k := before[k] + 1];
    forall t | 0 <= t < n ensures PerTotal(rest + [v], n)[t] == after[t] {
      CountAppend(rest, v, t + 1);
    }
    assert PerTotal(rest + [v], n) == after;
    SumUpdate(before, k, before[k] + 1);
  }

  /** The users per number of rounds add up to the users made. */
  lemma UserStatsAddUp(cfg: Config, states: seq<State>, steps: seq<Step>, i: nat)
    requires IsRun(cfg, states, steps) && i <= |steps|
    ensures Sum(states[i].userStats) == |states[i].users|
  {
    hide Located, InOrder, Ascending, Totals;
    RunInv(cfg, states, steps, i);
    var s, n := states[i], |cfg.ratios|;
    forall u | 0 <= u < |s.users| ensures 1 <= s.users[u].total <= n {
      assert UserOk(cfg, s.users[u], u);
    }
    TotalsCover(s.users, n);
    assert s.userStats == PerTotal(s.users, n);
  }

  /** Requests begun less requests answered in round r are the users in that round. */
  lemma StatsBalance(cfg: Config, states: seq<State>, steps: seq<Step>, i: nat, r: nat)
    requires IsRun(cfg, states, steps) && i <= |steps| && r < |cfg.ratios|
    ensures |states[i].inputs| == |states[i].outputs| == |cfg.ratios|
    ensures states[i].inputs[r].count - states[i].outputs[r].count == Sum(In(states[i].users, r))
  {
    hide Located, InOrder, Ascending;
    RunInv(cfg, states, steps, i);
    var s := states[i];
    forall u | 0 <= u < |s.users|
      ensures In(s.users, r)[u] + Past(s.users, r)[u] == Begun(s.users, r)[u]
    {
      assert UserOk(cfg, s.users[u], u);
    }
    SumAdd(In(s.users, r), Past(s.users, r), Begun(s.users, r));
  }

  /** The token counters of round r are the tokens of that round over all users. */
  lemma TokensAddUp(cfg: Config, states: seq<State>, steps: seq<Step>, i: nat, r: nat)
    requires IsRun(cfg, states, steps) && i <= |steps| && r < |cfg.ratios|
    ensures |states[i].inputs| == |states[i].outputs| == |cfg.ratios|
    ensures states[i].inputs[r].tokens == Sum(PromptTokens(states[i].users, r))
    ensures states[i].outputs[r].tokens == Sum(OutputTokens(states[i].users, r))
    ensures forall u :: 0 <= u < |states[i].users| ==> |states[i].users[u].outputs| == states[i].users[u].round
  {
    hide Located, InOrder, Ascending, PromptTokens, OutputTokens;
    RunInv(cfg, states, steps, i);
    forall u | 0 <= u < |states[i].users| ensures |states[i].users[u].outputs| == states[i].users[u].round {
      assert UserOk(cfg, states[i].users[u], u);
    }
  }

  // ---------------------------------------------------------------------------
  // Order

  /** In every state, all but the last of the queue are in order of their start times. */
  lemma FrontInOrder(cfg: Config, states: seq<State>, steps: seq<Step>, i: nat)
    requires IsRun(cfg, states, steps) && i <= |steps|
    ensures Known(states[i].users, states[i].queue)
    ensures Ascending(Front(Starts(states[i].users, states[i].queue)))
  {
    RunInv(cfg, states, steps, i);
  }

  lemma EnqueueLast(users: seq<User>, queue: seq<nat>, u: nat)
    requires u < |users| && Known(users, queue) && queue != []
    ensures var q := Enqueue(users, queue, u); q != [] && q[|q| - 1] == queue[|queue| - 1]
  {
  }

  lemma StepLast(cfg: Config, s: State, step: Step)
    requires ValidConfig(cfg) && Shaped(cfg, s) && Enabled(cfg, s, step)
    requires s.queue != [] && Apply(cfg, s, step).queue != []
    ensures var q := Apply(cfg, s, step).queue; q[|q| - 1] == s.queue[|s.queue| - 1]
  {
    hide Enqueue;
    if step.Push? {
      var u := s.held[step.k];
      EnqueueLast(s.users[u := Returned(cfg, s.users[u], step)], s.queue, u);
    }
  }

  /**
   The user that enters an empty queue stays last for as long as the queue holds anyone: every user
   pushed meanwhile is handed out before it, whatever the start times.
   */
  lemma {:induction false} OpenerGoesLast(cfg: Config, states: seq<State>, steps: seq<Step>, i: nat, j: nat)
    requires IsRun(cfg, states, steps) && i <= j <= |steps|
    requires forall k :: i <= k <= j ==> states[k].queue != []
    ensures var q, q' := states[i].queue, states[j].queue; q'[|q'| - 1] == q[|q| - 1]
  {
    hide Apply, Shaped, Enabled;
    if i < j {
      OpenerGoesLast(cfg, states, steps, i, j - 1);
      assert states[j] == Apply(cfg, states[j - 1], steps[j - 1]);
      StepLast(cfg, states[j - 1], steps[j - 1]);
    }
  }

  /** A sorted queue stays sorted over a push if and only if it was empty or the user is not later than its last. */
  lemma PushSortedIff(users: seq<User>, queue: seq<nat>, u: nat)
    requires u < |users| && Known(users, queue) && Ascending(Starts(users, queue))
    ensures Known(users, Enqueue(users, queue, u))
    ensures Ascending(Starts(users, Enqueue(users, queue, u))) <==>
            (queue == [] || users[u].start <= users[queue[|queue| - 1]].start)
  {
    EnqueueBag(users, queue, u);
    if queue != [] {
      hide Ascending, Insert;
      JoinSortedIff(Starts(users, queue), users[u].start);
      StartsInsert(users, queue, Place(Starts(users, queue), users[u].start), u);
    }
  }

  const TWO_ROUNDS: Config := Config([0, 1], [1, 1], [1.0, 1.0])

  const CANDIDATE: Candidate := Candidate("a", 1)

  function Fresh(id: nat): User {
    User(0, 2, [Id(id), Text("a")], 1, 0.0, [1], [])
  }

  function Back(id: nat, start: real): User {
    User(1, 2, [Id(id), Text("a"), Text("b"), Text("a")], 1, start, [1, 1], [1])
  }

  lemma MakesFresh(id: nat)
    ensures ValidConfig(TWO_ROUNDS) && Sum(TWO_ROUNDS.ratios) == 1
    ensures Newcomer(TWO_ROUNDS, id, 0, CANDIDATE, 1) == Fresh(id)
  {
    var ratios := TWO_ROUNDS.ratios;
    assert ratios[..1] == [0] && ratios[..2] == [0, 1];
    SumAppend([0], [1]);
    assert Sum([0]) == 0 && Sum([1]) == 1 && [0] + [1] == [0, 1];
    assert Cumulative(ratios) == [0, 1];
  }

  function MakeOne(): Step {
    New(0.0, 0, CANDIDATE, 1)
  }

  function PushOne(interval: real): Step {
    Push(0, "b", 0, CANDIDATE, 1, 0.0, interval)
  }

  lemma ComesBack(id: nat, interval: real)
    requires interval > 0.0
    ensures Returned(TWO_ROUNDS, Fresh(id), PushOne(interval)) == Back(id, interval)
  {
    assert Fresh(id).prompt + [Text("b"), Text("a")] == Back(id, interval).prompt;
  }

  /** Nobody, one, and then two users handed out for the first time. */
  function Made(n: nat): State
    requires n <= 2
  {
    State(seq(n, id requires 0 <= id < n => Fresh(id)), [], Iota(n), [0, n], [Tally(n, n), Tally(0, 0)],
          [Tally(0, 0), Tally(0, 0)], seq(n, id requires 0 <= id < n => (id, 0)))
  }

  /** The first user is back in the queue, and then the second as well. */
  function OneBack(): State {
    State([Back(0, 1.0), Fresh(1)], [0], [1], [0, 2], [Tally(2, 2), Tally(1, 1)], [Tally(1, 1), Tally(0, 0)],
          [(0, 0), (1, 0)])
  }

  function BothBack(): State {
    State([Back(0, 1.0), Back(1, 2.0)], [1, 0], [], [0, 2], [Tally(2, 2), Tally(2, 2)], [Tally(2, 2), Tally(0, 0)],
          [(0, 0), (1, 0)])
  }

  ghost predicate Leads(s: State, step: Step, t: State) {
    && ValidConfig(TWO_ROUNDS) && Shaped(TWO_ROUNDS, s) && Enabled(TWO_ROUNDS, s, step)
    && Apply(TWO_ROUNDS, s, step) == t
  }

  lemma MakeLeads(n: nat)
    requires n < 2
    ensures Leads(Made(n), MakeOne(), Made(n + 1))
  {
    hide Newcomer, Sum;
    MakesFresh(n);
    var t := Made(n + 1);
    assert t.users == Made(n).users + [Fresh(n)] && t.held == Made(n).held + [n];
  }

  lemma FirstLeads()
    ensures Leads(Made(2), PushOne(1.0), OneBack())
  {
    hide Returned, Sum;
    ComesBack(0, 1.0);
    var s := Made(2);
    assert s.users[0 := Back(0, 1.0)] == OneBack().users;
    assert RemoveAt(s.held, 0) == [1];
  }

  lemma SecondLeads()
    ensures Leads(OneBack(), PushOne(2.0), BothBack())
  {
    hide Returned, Sum;
    ComesBack(1, 2.0);
    var s := OneBack();
    var users := s.users[1 := Back(1, 2.0)];
    assert users == BothBack().users;
    assert RemoveAt(s.held, 0) == [];
    assert Starts(users, [0]) == [1.0];
    assert Insert([0], 0, 1) == [1, 0];
  }

  lemma LeadsToRun(states: seq<State>, steps: seq<Step>)
    requires |states| == |steps| + 1 && states[0] == Initial(TWO_ROUNDS) && ValidConfig(TWO_ROUNDS)
    requires forall i :: 0 <= i < |steps| ==> Leads(states[i], steps[i], states[i + 1])
    ensures IsRun(TWO_ROUNDS, states, steps)
  {
    hide Initial, Apply, Enabled, Shaped;
    forall i | 0 <= i < |steps|
      ensures Shaped(TWO_ROUNDS, states[i]) && Enabled(TWO_ROUNDS, states[i], steps[i])
      ensures states[i + 1] == Apply(TWO_ROUNDS, states[i], steps[i])
    {
      assert Leads(states[i], steps[i], states[i + 1]);
    }
  }

  lemma BothBackStarts()
    ensures Known(BothBack().users, BothBack().queue)
    ensures Starts(BothBack().users, BothBack().queue) == [2.0, 1.0]
  {
  }

  /** Two users are made and pushed back, the second with the later start: it joins ahead of the first. */
  lemma TwoPushesUnsorted(states: seq<State>, steps: seq<Step>)
    requires states == [Made(0), Made(1), Made(2), OneBack(), BothBack()]
    requires steps == [MakeOne(), MakeOne(), PushOne(1.0), PushOne(2.0)]
    ensures IsRun(TWO_ROUNDS, states, steps)
    ensures Starts(states[4].users, states[4].queue) == [2.0, 1.0]
  {
    hide *;
    MakeLeads(0);
    MakeLeads(1);
    FirstLeads();
    SecondLeads();
    NobodyMade();
    LeadsToRun(states, steps);
    BothBackStarts();
  }

  lemma NobodyMade()
    ensures ValidConfig(TWO_ROUNDS) && Made(0) == Initial(TWO_ROUNDS)
  {
  }

  // ---------------------------------------------------------------------------
  // Time

  lemma StepWaits(cfg: Config, s: State, step: Step, u: nat)
    requires ValidConfig(cfg) && Inv(cfg, s) && Enabled(cfg, s, step) && u in s.queue
    ensures var t := Apply(cfg, s, step); u < |s.users| <= |t.users| && t.users[u] == s.users[u]
  {
    hide InOrder, Ascending, Counted, Enqueue, UserOk, Starts;
    if step.Push? {
      HeldElsewhere(s, step.k);
    }
  }

  lemma HeldElsewhere(s: State, k: nat)
    requires Located(s.users, multiset(s.queue) + multiset(s.held)) && k < |s.held|
    ensures s.held[k] !in s.queue
  {
    var u, bag := s.held[k], multiset(s.queue) + multiset(s.held);
    assert u in multiset(s.held);
    assert bag[u] == multiset(s.queue)[u] + multiset(s.held)[u];
    assert u in s.queue <==> multiset(s.queue)[u] > 0;
  }

  /** A user is unchanged while it waits. */
  lemma {:induction false} Waits(cfg: Config, states: seq<State>, steps: seq<Step>, i: nat, j: nat, u: nat)
    requires IsRun(cfg, states, steps) && i <= j <= |steps|
    requires forall k :: i <= k <= j ==> u in states[k].queue
    ensures u < |states[i].users| && u < |states[j].users| && states[j].users[u] == states[i].users[u]
  {
    hide Apply, Enabled, Inv;
    RunInv(cfg, states, steps, i);
    KnownQueue(cfg, states[i], u);
    if i < j {
      Waits(cfg, states, steps, i, j - 1, u);
      RunInv(cfg, states, steps, j - 1);
      StepWaits(cfg, states[j - 1], steps[j - 1], u);
    }
  }

  lemma KnownQueue(cfg: Config, s: State, u: nat)
    requires Inv(cfg, s) && u in s.queue
    ensures u < |s.users|
  {
  }

  /** The wait before a user's next round: the drawn interval, or the round's mean for a draw that is not positive. */
  function Wait(cfg: Config, v: User, step: Step): real
    requires step.Push? && v.round + 1 < |cfg.intervalMeans|
  {
    if step.interval <= 0.0 then cfg.intervalMeans[v.round + 1] else step.interval
  }

  /** A user that is in the queue after its push starts a wait after the push. */
  lemma PushStamps(cfg: Config, s: State, step: Step)
    requires ValidConfig(cfg) && Inv(cfg, s) && Enabled(cfg, s, step)
    requires step.Push? && s.held[step.k] in Apply(cfg, s, step).queue
    ensures s.users[s.held[step.k]].round + 1 < |cfg.intervalMeans|
    ensures Apply(cfg, s, step).users[s.held[step.k]].start == step.now + Wait(cfg, s.users[s.held[step.k]], step)
  {
    hide InOrder, Ascending, Counted, Enqueue, UserOk, Starts;
    HeldElsewhere(s, step.k);
  }

  /** A user pushed at one time, and next handed out of the queue at another, waited for longer than its wait. */
  lemma NeverEarly(cfg: Config, states: seq<State>, steps: seq<Step>, i: nat, j: nat, u: nat)
    requires IsRun(cfg, states, steps) && i < j < |steps|
    requires steps[i].Push? && states[i].held[steps[i].k] == u
    requires forall k :: i < k <= j ==> u in states[k].queue
    requires steps[j].Take? && states[j].queue[0] == u
    ensures u < |states[i].users| && states[i].users[u].round + 1 < |cfg.intervalMeans|
    ensures steps[j].now > steps[i].now + Wait(cfg, states[i].users[u], steps[i])
  {
    hide Apply, Inv;
    Waits(cfg, states, steps, i + 1, j, u);
    RunInv(cfg, states, steps, i);
    PushStamps(cfg, states[i], steps[i]);
  }

  // ---------------------------------------------------------------------------
  // Rounds

  lemma PrefixSums(ratios: seq<int>, i: nat, j: nat)
    requires i <= j <= |ratios| && forall k :: 0 <= k < |ratios| ==> ratios[k] >= 0
    ensures 0 <= Sum(ratios[..i]) <= Sum(ratios[..j])
  {
    assert ratios[..j] == ratios[..i] + ratios[i..j];
    SumAppend(ratios[..i], ratios[i..j]);
    SumNonNegative(ratios[..i]);
    SumNonNegative(ratios[i..j]);
  }

  /**
   A draw gives t rounds if and only if it lies in the t-th of the consecutive ranges whose lengths
   are the ratios.  The last range also has the draw that equals the sum, which makes it one longer.
   */
  lemma RoundsByRatio(ratios: seq<int>, rand: int, t: nat)
    requires ratios != [] && forall k :: 0 <= k < |ratios| ==> ratios[k] >= 0
    requires 0 <= rand <= Sum(ratios) && 1 <= t <= |ratios|
    ensures Rounds(Cumulative(ratios), rand) == t <==>
            Sum(ratios[..t - 1]) <= rand < Sum(ratios[..t]) + if t == |ratios| then 1 else 0
  {
    var c := Cumulative(ratios);
    var r := Rounds(c, rand);
    assert ratios[..|ratios|] == ratios;
    assert r > 1 ==> c[r - 2] == Sum(ratios[..r - 1]) <= rand;
    assert r < |ratios| ==> rand < c[r - 1] == Sum(ratios[..r]);
    if t < r {
      PrefixSums(ratios, t, r - 1);
    } else if r < t {
      PrefixSums(ratios, r, t - 1);
    }
  }

  // ---------------------------------------------------------------------------
  // What a user is handed out with

  /** What a push prepares for the next round, or leaves of a user that is done. */
  lemma PushPrepares(cfg: Config, s: State, step: Step)
    requires ValidConfig(cfg) && Inv(cfg, s) && Enabled(cfg, s, step) && step.Push?
    ensures var u := s.held[step.k];
            var v, v' := s.users[u], Apply(cfg, s, step).users[u];
            && v'.total == v.total && v'.round == v.round + 1 <= v.total <= |cfg.returnMeans|
            && if v.round + 1 < v.total then
                 && v'.prompt == v.prompt + [Text(step.text), Text(step.candidate.prompt)]
                 && v'.returnTokens == (if step.tokens <= 0 then cfg.returnMeans[v.round + 1] else step.tokens)
                 && v'.start == step.now + if step.interval <= 0.0 then cfg.intervalMeans[v.round + 1] else step.interval
               else v'.prompt == v.prompt && v'.returnTokens == v.returnTokens
  {
    hide InOrder, Ascending, Counted, Enqueue, Starts, Located;
  }

  /** A new user is handed out with its number, the sampled input and the tokens drawn, or the mean. */
  lemma NewPrepares(cfg: Config, states: seq<State>, steps: seq<Step>, i: nat)
    requires IsRun(cfg, states, steps) && i < |steps| && steps[i].New?
    ensures var u, step := |states[i].users|, steps[i];
            && |states[i + 1].users| == u + 1 && states[i + 1].held == states[i].held + [u]
            && var v := states[i + 1].users[u];
            && v.round == 0 && v.prompt == [Id(u), Text(step.candidate.prompt)] && v.start == 0.0
            && v.returnTokens == (if step.tokens <= 0 then cfg.returnMeans[0] else step.tokens)
            && 1 <= v.total <= |cfg.ratios|
            && Sum(cfg.ratios[..v.total - 1]) <= step.rand
            && step.rand < Sum(cfg.ratios[..v.total]) + if v.total == |cfg.ratios| then 1 else 0
  {
    hide Rounds, Cumulative;
    var rand := steps[i].rand;
    assert states[i + 1] == Apply(cfg, states[i], steps[i]);
    RoundsByRatio(cfg.ratios, rand, Rounds(Cumulative(cfg.ratios), rand));
  }

  /**
   A user handed out of the queue has the prompt it was pushed with, the reply and the input
   sampled then; and asks for the tokens drawn then, or for the mean of its round.
   */
  lemma HandedAsPushed(cfg: Config, states: seq<State>, steps: seq<Step>, i: nat, j: nat, u: nat)
    requires IsRun(cfg, states, steps) && i < j < |steps|
    requires steps[i].Push? && states[i].held[steps[i].k] == u
    requires forall k :: i < k <= j ==> u in states[k].queue
    requires steps[j].Take? && states[j].queue[0] == u
    ensures u < |states[i].users| && u < |states[j + 1].users|
    ensures var v, v', step := states[i].users[u], states[j + 1].users[u], steps[i];
            && v'.round == v.round + 1 < |cfg.returnMeans|
            && v'.prompt == v.prompt + [Text(step.text), Text(step.candidate.prompt)]
            && v'.returnTokens == if step.tokens <= 0 then cfg.returnMeans[v.round + 1] else step.tokens
  {
    hide Inv, Apply;
    Waits(cfg, states, steps, i + 1, j, u);
    RunInv(cfg, states, steps, i);
    RunInv(cfg, states, steps, j);
    assert states[i + 1] == Apply(cfg, states[i], steps[i]);
    PushPrepares(cfg, states[i], steps[i]);
    QueuedGoesOn(cfg, states[i], steps[i]);
    assert states[j + 1] == Apply(cfg, states[j], steps[j]);
    StepWaits(cfg, states[j], steps[j], u);
  }

  lemma QueuedGoesOn(cfg: Config, s: State, step: Step)
    requires ValidConfig(cfg) && Inv(cfg, s) && Enabled(cfg, s, step)
    requires step.Push? && s.held[step.k] in Apply(cfg, s, step).queue
    ensures s.users[s.held[step.k]].round + 1 < s.users[s.held[step.k]].total
  {
    hide InOrder, Ascending, Counted, Enqueue, UserOk, Starts;
    HeldElsewhere(s, step.k);
  }

  // ---------------------------------------------------------------------------
  // The token counters, by the steps

  /** Tokens a step adds to input_stats[r]: those of the input sampled for a user that begins round r. */
  function InputBy(s: State, step: Step, r: nat): int {
    match step
    case Take(_) => 0
    case New(_, _, candidate, _) => if r == 0 then candidate.length else 0
    case Push(k, _, _, candidate, _, _, _) =>
      if k < |s.held| && s.held[k] < |s.users| && s.users[s.held[k]].round + 1 == r < s.users[s.held[k]].total
      then candidate.length else 0
  }

  /** Tokens a step adds to output_stats[r]: one more than the gaps of a reply in round r. */
  function OutputBy(s: State, step: Step, r: nat): int {
    if step.Push? && step.k < |s.held| && s.held[step.k] < |s.users| && s.users[s.held[step.k]].round == r
    then step.gaps + 1 else 0
  }

  function InputsOf(states: seq<State>, steps: seq<Step>, i: nat, r: nat): int
    requires i <= |steps| <= |states|
  {
    if i == 0 then 0 else InputsOf(states, steps, i - 1, r) + InputBy(states[i - 1], steps[i - 1], r)
  }

  function OutputsOf(states: seq<State>, steps: seq<Step>, i: nat, r: nat): int
    requires i <= |steps| <= |states|
  {
    if i == 0 then 0 else OutputsOf(states, steps, i - 1, r) + OutputBy(states[i - 1], steps[i - 1], r)
  }

  lemma StepTokens(cfg: Config, s: State, step: Step, r: nat)
    requires ValidConfig(cfg) && Shaped(cfg, s) && Enabled(cfg, s, step) && r < |cfg.ratios|
    ensures var t := Apply(cfg, s, step);
            && |t.inputs| == |t.outputs| == |cfg.ratios|
            && t.inputs[r].tokens == s.inputs[r].tokens + InputBy(s, step, r)
            && t.outputs[r].tokens == s.outputs[r].tokens + OutputBy(s, step, r)
  {
    hide Enqueue, Rounds;
  }

  /** The token counters are the sums of what the steps brought. */
  lemma {:induction false} TokensOfSteps(cfg: Config, states: seq<State>, steps: seq<Step>, i: nat, r: nat)
    requires IsRun(cfg, states, steps) && i <= |steps| && r < |cfg.ratios|
    ensures |states| == |steps| + 1 && |states[i].inputs| == |states[i].outputs| == |cfg.ratios|
    ensures states[i].inputs[r].tokens == InputsOf(states, steps, i, r)
    ensures states[i].outputs[r].tokens == OutputsOf(states, steps, i, r)
  {
    hide Shaped, Enabled, Apply, InputBy, OutputBy;
    if i > 0 {
      TokensOfSteps(cfg, states, steps, i - 1, r);
      assert states[i] == Apply(cfg, states[i - 1], steps[i - 1]);
      StepTokens(cfg, states[i - 1], steps[i - 1], r);
    }
  }
}
