/** The invariant of the timed user queue. */
module UserQueueProofs {
  import opened Sequences
  import opened Sums
  import opened UserQueue

  // ---------------------------------------------------------------------------
  // Where a user joins the queue

  lemma InsertKeepsOrder(s: seq<real>, p: nat, x: real)
    requires p <= |s| && Ascending(s)
    requires p > 0 ==> s[p - 1] <= x
    requires p < |s| ==> x <= s[p]
    ensures Ascending(Insert(s, p, x))
  {
    var t := Insert(s, p, x);
    forall i, j | 0 <= i < j < |t| ensures t[i] <= t[j] {
      var lo := if i < p then s[i] else if i == p then x else s[i - 1];
      var hi := if j < p then s[j] else if j == p then x else s[j - 1];
      assert t[i] == lo && t[j] == hi;
    }
  }

  /** All but the last entry stay in order, wherever the new start time lies. */
  lemma JoinKeepsFront(starts: seq<real>, start: real)
    requires starts != [] && Ascending(Front(starts))
    ensures Ascending(Front(Insert(starts, Place(starts, start), start)))
  {
    hide Ascending;
    var p, front := Place(starts, start), Front(starts);
    InsertKeepsOrder(front, p, start);
    assert Front(Insert(starts, p, start)) == Insert(front, p, start);
  }

  /** A sorted queue stays sorted if and only if the new user is not later than the last one. */
  lemma JoinSortedIff(starts: seq<real>, start: real)
    requires starts != [] && Ascending(starts)
    ensures Ascending(Insert(starts, Place(starts, start), start)) <==> start <= starts[|starts| - 1]
  {
    var p, n := Place(starts, start), |starts|;
    if start <= starts[n - 1] {
      InsertKeepsOrder(starts, p, start);
    } else {
      var joined := Insert(starts, p, start);
      assert joined[p] == start && joined[n] == starts[n - 1];
    }
  }

  /** The position the loop computes and does not use: the first later start, or the end. */
  function FirstLater(starts: seq<real>, start: real): (i: nat)
    ensures i <= |starts|
    ensures forall j :: 0 <= j < i ==> starts[j] <= start
    ensures i < |starts| ==> start < starts[i]
  {
    if starts == [] || start < starts[0] then 0
    else
      var i := FirstLater(starts[1..], start);
      assert forall j :: 1 <= j <= i ==> starts[j] == starts[1..][j - 1];
      i + 1
  }

  /** Inserting at that position keeps every sorted queue sorted. */
  lemma FirstLaterKeepsSorted(starts: seq<real>, start: real)
    requires Ascending(starts)
    ensures Ascending(Insert(starts, FirstLater(starts, start), start))
  {
    InsertKeepsOrder(starts, FirstLater(starts, start), start);
  }

  // ---------------------------------------------------------------------------
  // The counters

  lemma CountAppend(users: seq<User>, v: User, r: nat)
    ensures Sum(Totals(users + [v], r)) == Sum(Totals(users, r)) + Flag(v.total == r)
    ensures Sum(Begun(users + [v], r)) == Sum(Begun(users, r)) + Flag(v.round >= r && v.total > r)
    ensures Sum(Past(users + [v], r)) == Sum(Past(users, r)) + Flag(v.round > r)
  {
    var t, b, p := Flag(v.total == r), Flag(v.round >= r && v.total > r), Flag(v.round > r);
    assert Totals(users + [v], r) == Totals(users, r) + [t];
    assert Begun(users + [v], r) == Begun(users, r) + [b];
    assert Past(users + [v], r) == Past(users, r) + [p];
    SumAppend(Totals(users, r), [t]);
    SumAppend(Begun(users, r), [b]);
    SumAppend(Past(users, r), [p]);
  }

  lemma TokensAppend(users: seq<User>, v: User, r: nat)
    ensures Sum(PromptTokens(users + [v], r)) == Sum(PromptTokens(users, r)) + Entry(v.lengths, r)
    ensures Sum(OutputTokens(users + [v], r)) == Sum(OutputTokens(users, r)) + Entry(v.outputs, r)
  {
    assert PromptTokens(users + [v], r) == PromptTokens(users, r) + [Entry(v.lengths, r)];
    assert OutputTokens(users + [v], r) == OutputTokens(users, r) + [Entry(v.outputs, r)];
    SumAppend(PromptTokens(users, r), [Entry(v.lengths, r)]);
    SumAppend(OutputTokens(users, r), [Entry(v.outputs, r)]);
  }

  lemma TokensChange(users: seq<User>, u: nat, v: User, r: nat)
    requires u < |users|
    ensures Sum(PromptTokens(users[u := v], r)) ==
            Sum(PromptTokens(users, r)) - Entry(users[u].lengths, r) + Entry(v.lengths, r)
    ensures Sum(OutputTokens(users[u := v], r)) ==
            Sum(OutputTokens(users, r)) - Entry(users[u].outputs, r) + Entry(v.outputs, r)
  {
    assert PromptTokens(users[u := v], r) == PromptTokens(users, r)[u := Entry(v.lengths, r)];
    assert OutputTokens(users[u := v], r) == OutputTokens(users, r)[u := Entry(v.outputs, r)];
    SumUpdate(PromptTokens(users, r), u, Entry(v.lengths, r));
    SumUpdate(OutputTokens(users, r), u, Entry(v.outputs, r));
  }

  lemma CountChange(users: seq<User>, u: nat, v: User, r: nat)
    requires u < |users| && v.total == users[u].total
    ensures Sum(Totals(users[u := v], r)) == Sum(Totals(users, r))
    ensures Sum(Begun(users[u := v], r)) == Sum(Begun(users, r))
              - Flag(users[u].round >= r && v.total > r) + Flag(v.round >= r && v.total > r)
    ensures Sum(Past(users[u := v], r)) == Sum(Past(users, r)) - Flag(users[u].round > r) + Flag(v.round > r)
  {
    var b, p := Flag(v.round >= r && v.total > r), Flag(v.round > r);
    assert Totals(users[u := v], r) == Totals(users, r);
    assert Begun(users[u := v], r) == Begun(users, r)[u := b];
    assert Past(users[u := v], r) == Past(users, r)[u := p];
    SumUpdate(Begun(users, r), u, b);
    SumUpdate(Past(users, r), u, p);
  }

  lemma CountedAppend(users: seq<User>, v: User, userStats: seq<int>, inputs: seq<Tally>, outputs: seq<Tally>, length: int)
    requires Counted(users, userStats, inputs, outputs)
    requires v.round == 0 && 1 <= v.total <= |userStats| && v.lengths == [length] && v.outputs == []
    ensures Counted(users + [v], userStats[v.total - 1 := userStats[v.total - 1] + 1],
                    inputs[0 := Add(inputs[0], length)], outputs)
  {
    hide Totals, Begun, Past, PromptTokens, OutputTokens;
    forall r: nat
      ensures Sum(Totals(users + [v], r)) == Sum(Totals(users, r)) + Flag(v.total == r)
      ensures Sum(Begun(users + [v], r)) == Sum(Begun(users, r)) + Flag(v.round >= r && v.total > r)
      ensures Sum(Past(users + [v], r)) == Sum(Past(users, r)) + Flag(v.round > r)
      ensures Sum(PromptTokens(users + [v], r)) == Sum(PromptTokens(users, r)) + if r == 0 then length else 0
      ensures Sum(OutputTokens(users + [v], r)) == Sum(OutputTokens(users, r))
    {
      CountAppend(users, v, r);
      TokensAppend(users, v, r);
    }
  }

  lemma CountedReturn(users: seq<User>, u: nat, v: User, userStats: seq<int>, inputs: seq<Tally>, outputs: seq<Tally>,
                      length: int, tokens: int)
    requires Counted(users, userStats, inputs, outputs)
    requires u < |users| && v.total == users[u].total && v.round == users[u].round + 1 <= v.total <= |inputs|
    requires |users[u].lengths| == v.round == |users[u].outputs| + 1
    requires v.lengths == users[u].lengths + (if v.round < v.total then [length] else [])
    requires v.outputs == users[u].outputs + [tokens]
    ensures Counted(users[u := v], userStats,
                    if v.round < v.total then inputs[v.round := Add(inputs[v.round], length)] else inputs,
                    outputs[v.round - 1 := Add(outputs[v.round - 1], tokens)])
  {
    hide Totals, Begun, Past, PromptTokens, OutputTokens;
    forall r: nat
      ensures Sum(PromptTokens(users[u := v], r)) ==
              Sum(PromptTokens(users, r)) + if r == v.round < v.total then length else 0
      ensures Sum(OutputTokens(users[u := v], r)) == Sum(OutputTokens(users, r)) + if r == v.round - 1 then tokens else 0
      ensures Sum(Totals(users[u := v], r)) == Sum(Totals(users, r))
      ensures Sum(Begun(users[u := v], r)) == Sum(Begun(users, r)) + Flag(v.round == r && v.total > r)
      ensures Sum(Past(users[u := v], r)) == Sum(Past(users, r)) + Flag(v.round == r + 1)
    {
      CountChange(users, u, v, r);
      TokensChange(users, u, v, r);
    }
  }

  // ---------------------------------------------------------------------------
  // The log of rounds handed out

  lemma HandedLast(handed: seq<(nat, nat)>, e: (nat, nat), u: nat)
    ensures HandedRounds(handed + [e], u) == HandedRounds(handed, u) + if e.0 == u then [e.1] else []
  {
    assert (handed + [e])[..|handed|] == handed;
  }

  lemma OrderHand(users: seq<User>, held: multiset<nat>, handed: seq<(nat, nat)>, u: nat)
    requires InOrder(users, held, handed) && u < |users| && held[u] == 0
    ensures InOrder(users, held + multiset{u}, handed + [(u, users[u].round)])
  {
    var held', e := held + multiset{u}, (u, users[u].round);
    forall x: nat
      ensures HandedRounds(handed + [e], x) == Iota(if x < |users| then users[x].round + held'[x] else 0)
    {
      HandedLast(handed, e, x);
    }
  }

  lemma OrderAppend(users: seq<User>, held: multiset<nat>, handed: seq<(nat, nat)>, v: User)
    requires InOrder(users, held, handed) && v.round == 0 && held[|users|] == 0
    ensures InOrder(users + [v], held, handed)
  {
  }

  /** Pushing a user back turns the round it was handed out for into a round done. */
  lemma OrderReturn(users: seq<User>, held: multiset<nat>, held': multiset<nat>, handed: seq<(nat, nat)>, u: nat, v: User)
    requires InOrder(users, held, handed) && u < |users| && held == held' + multiset{u}
    requires v.round == users[u].round + 1
    ensures InOrder(users[u := v], held', handed)
  {
  }

  // ---------------------------------------------------------------------------
  // Every step

  lemma StartsSame(users: seq<User>, users': seq<User>, queue: seq<nat>)
    requires Known(users, queue) && Known(users', queue)
    requires forall i :: 0 <= i < |queue| ==> users'[queue[i]].start == users[queue[i]].start
    ensures Starts(users', queue) == Starts(users, queue)
  {
  }

  lemma InitInv(cfg: Config)
    requires ValidConfig(cfg)
    ensures Inv(cfg, Initial(cfg))
  {
    var s := Initial(cfg);
    assert forall r: nat :: Sum(Totals([], r)) == Sum(Begun([], r)) == Sum(Past([], r)) == 0;
    assert forall r: nat :: Sum(PromptTokens([], r)) == Sum(OutputTokens([], r)) == 0;
    assert InOrder(s.users, multiset(s.held), s.handed) by {
      assert forall u: nat :: HandedRounds([], u) == Iota(0);
    }
  }

  lemma TakeFront(starts: seq<real>)
    requires starts != [] && Ascending(Front(starts))
    ensures Ascending(Front(starts[1..]))
  {
    var front, rest := Front(starts), Front(starts[1..]);
    assert forall i :: 0 <= i < |rest| ==> rest[i] == front[i + 1];
  }

  lemma KnownBag(users: seq<User>, ids: seq<nat>, bag: multiset<nat>)
    requires multiset(ids) <= bag && forall u :: u in bag ==> u < |users|
    ensures Known(users, ids)
  {
    forall i | 0 <= i < |ids| ensures ids[i] < |users| {
      assert ids[i] in multiset(ids);
    }
  }

  lemma HeldActive(users: seq<User>, bag: multiset<nat>, held: seq<nat>)
    requires Located(users, bag) && multiset(held) <= bag
    ensures Known(users, held) && forall i :: 0 <= i < |held| ==> Active(users[held[i]])
  {
    forall i | 0 <= i < |held| ensures held[i] < |users| && Active(users[held[i]]) {
      assert held[i] in multiset(held);
    }
  }

  lemma Assemble(cfg: Config, t: State)
    requires |t.userStats| == |cfg.ratios| && Known(t.users, t.queue)
    requires forall u :: 0 <= u < |t.users| ==> UserOk(cfg, t.users[u], u)
    requires Counted(t.users, t.userStats, t.inputs, t.outputs)
    requires Located(t.users, multiset(t.queue) + multiset(t.held))
    requires Ascending(Front(Starts(t.users, t.queue)))
    requires InOrder(t.users, multiset(t.held), t.handed)
    ensures Inv(cfg, t)
  {
    hide Located, Ascending, InOrder, Starts;
    HeldActive(t.users, multiset(t.queue) + multiset(t.held), t.held);
  }

  lemma HeadWaits(users: seq<User>, queue: seq<nat>, held: seq<nat>)
    requires Located(users, multiset(queue) + multiset(held)) && queue != []
    ensures queue[0] < |users| && multiset(held)[queue[0]] == 0
  {
    var bag := multiset(queue) + multiset(held);
    assert bag[queue[0]] == multiset(queue)[queue[0]] + multiset(held)[queue[0]] && queue[0] in multiset(queue);
  }

  lemma TakeInv(cfg: Config, s: State, step: Step)
    requires ValidConfig(cfg) && Inv(cfg, s) && step.Take? && Enabled(cfg, s, step)
    ensures Inv(cfg, Apply(cfg, s, step))
  {
    hide UserOk, Counted, Ascending, InOrder, Located, Front;
    var t, u := Apply(cfg, s, step), s.queue[0];
    BagHead(s.queue);
    assert multiset(t.held) == multiset(s.held) + multiset{u};
    assert multiset(t.queue) + multiset(t.held) == multiset(s.queue) + multiset(s.held);
    TakeFront(Starts(s.users, s.queue));
    assert Starts(s.users, t.queue) == Starts(s.users, s.queue)[1..];
    HeadWaits(s.users, s.queue, s.held);
    OrderHand(s.users, multiset(s.held), s.handed, u);
    Assemble(cfg, t);
  }

  lemma LocatedAppend(users: seq<User>, bag: multiset<nat>, v: User)
    requires Located(users, bag) && Active(v)
    ensures Located(users + [v], bag + multiset{|users|}) && bag[|users|] == 0
  {
  }

  lemma NewcomerOk(cfg: Config, id: nat, rand: int, candidate: Candidate, tokens: int)
    requires ValidConfig(cfg)
    ensures var v := Newcomer(cfg, id, rand, candidate, tokens);
            && UserOk(cfg, v, id) && Active(v) && v.round == 0 && 1 <= v.total <= |cfg.ratios|
            && v.lengths == [candidate.length] && v.outputs == []
  {
  }

  lemma NewInv(cfg: Config, s: State, step: Step)
    requires ValidConfig(cfg) && Inv(cfg, s) && step.New? && Enabled(cfg, s, step)
    ensures Inv(cfg, Apply(cfg, s, step))
  {
    hide Counted, InOrder, Located, Ascending, Front, Newcomer, UserOk, Active;
    var t, u := Apply(cfg, s, step), |s.users|;
    var v := Newcomer(cfg, u, step.rand, step.candidate, step.tokens);
    NewcomerOk(cfg, u, step.rand, step.candidate, step.tokens);
    assert t.users == s.users + [v];
    CountedAppend(s.users, v, s.userStats, s.inputs, s.outputs, step.candidate.length);
    StartsSame(s.users, t.users, s.queue);
    LocatedAppend(s.users, multiset(s.queue) + multiset(s.held), v);
    OrderAppend(s.users, multiset(s.held), s.handed, v);
    OrderHand(t.users, multiset(s.held), s.handed, u);
    assert multiset(t.held) == multiset(s.held) + multiset{u};
    assert multiset(t.queue) + multiset(t.held) == multiset(s.queue) + multiset(s.held) + multiset{u};
    Assemble(cfg, t);
  }

  lemma InsertBag<X>(s: seq<X>, p: nat, x: X)
    requires p <= |s|
    ensures multiset(Insert(s, p, x)) == multiset(s) + multiset{x}
  {
    assert s == s[..p] + s[p..];
  }

  lemma EnqueueBag(users: seq<User>, queue: seq<nat>, u: nat)
    requires u < |users| && Known(users, queue)
    ensures multiset(Enqueue(users, queue, u)) == multiset(queue) + multiset{u}
    ensures Known(users, Enqueue(users, queue, u))
  {
    hide Insert;
    if queue != [] {
      InsertBag(queue, Place(Starts(users, queue), users[u].start), u);
    }
    KnownBag(users, Enqueue(users, queue, u), multiset(queue) + multiset{u});
  }

  lemma StartsInsert(users: seq<User>, queue: seq<nat>, p: nat, u: nat)
    requires u < |users| && Known(users, queue) && p <= |queue|
    requires Known(users, Insert(queue, p, u))
    ensures Starts(users, Insert(queue, p, u)) == Insert(Starts(users, queue), p, users[u].start)
  {
  }

  lemma EnqueueFront(users: seq<User>, queue: seq<nat>, u: nat)
    requires u < |users| && Known(users, queue) && Ascending(Front(Starts(users, queue)))
    ensures Known(users, Enqueue(users, queue, u))
    ensures Ascending(Front(Starts(users, Enqueue(users, queue, u))))
  {
    EnqueueBag(users, queue, u);
    if queue != [] {
      hide Ascending, Insert;
      var starts, start := Starts(users, queue), users[u].start;
      JoinKeepsFront(starts, start);
      StartsInsert(users, queue, Place(starts, start), u);
    }
  }

  lemma LocatedReturn(users: seq<User>, bag: multiset<nat>, bag': multiset<nat>, u: nat, v: User)
    requires Located(users, bag) && bag == bag' + multiset{u}
    ensures u < |users| && bag'[u] == 0
    ensures Located(users[u := v], if Active(v) then bag else bag')
  {
    assert bag[u] == bag'[u] + 1;
  }

  /** The queue after user u came back as v. */
  function Requeued(users: seq<User>, queue: seq<nat>, u: nat): seq<nat>
    requires u < |users| && Known(users, queue)
  {
    if Active(users[u]) then Enqueue(users, queue, u) else queue
  }

  lemma RequeuedFront(users: seq<User>, queue: seq<nat>, held: multiset<nat>, u: nat, v: User)
    requires Known(users, queue) && Ascending(Front(Starts(users, queue)))
    requires u < |users| && (multiset(queue) + held)[u] == 0
    ensures Known(users[u := v], queue)
    ensures var queue' := Requeued(users[u := v], queue, u);
            && Known(users[u := v], queue') && Ascending(Front(Starts(users[u := v], queue')))
            && multiset(queue') == multiset(queue) + if Active(v) then multiset{u} else multiset{}
  {
    hide Ascending, Front, Enqueue;
    assert u !in multiset(queue);
    StartsSame(users, users[u := v], queue);
    EnqueueFront(users[u := v], queue, u);
    EnqueueBag(users[u := v], queue, u);
  }

  lemma ReturnedOk(cfg: Config, v: User, step: Step, u: nat)
    requires ValidConfig(cfg) && UserOk(cfg, v, u) && Active(v) && step.Push?
    ensures |v.lengths| == v.round + 1 == |v.outputs| + 1
    ensures var v' := Returned(cfg, v, step);
            && UserOk(cfg, v', u) && v'.total == v.total && v'.round == v.round + 1
            && v'.lengths == v.lengths + (if Active(v') then [step.candidate.length] else [])
            && v'.outputs == v.outputs + [step.gaps + 1]
  {
  }

  lemma PushInv(cfg: Config, s: State, step: Step)
    requires ValidConfig(cfg) && Inv(cfg, s) && step.Push? && Enabled(cfg, s, step)
    ensures Inv(cfg, Apply(cfg, s, step))
  {
    hide Counted, InOrder, Ascending, Enqueue, Starts, Located, Front, UserOk, Returned;
    var t, u := Apply(cfg, s, step), s.held[step.k];
    var v := Returned(cfg, s.users[u], step);
    var held, held' := multiset(s.held), multiset(t.held);
    ReturnedOk(cfg, s.users[u], step, u);
    BagRemove(s.held, step.k);
    assert multiset(s.queue) + held == multiset(s.queue) + held' + multiset{u};
    LocatedReturn(s.users, multiset(s.queue) + held, multiset(s.queue) + held', u, v);
    RequeuedFront(s.users, s.queue, held', u, v);
    assert t.queue == Requeued(t.users, s.queue, u);
    assert multiset(t.queue) + held' == multiset(s.queue) + if Active(v) then held else held';
    CountedReturn(s.users, u, v, s.userStats, s.inputs, s.outputs, step.candidate.length, step.gaps + 1);
    OrderReturn(s.users, held, held', s.handed, u, v);
    Assemble(cfg, t);
  }

  lemma StepInv(cfg: Config, s: State, step: Step)
    requires ValidConfig(cfg) && Inv(cfg, s) && Enabled(cfg, s, step)
    ensures Inv(cfg, Apply(cfg, s, step))
  {
    hide Inv, Apply, Enabled;
    match step
    case Take(_) => TakeInv(cfg, s, step);
    case New(_, _, _, _) => NewInv(cfg, s, step);
    case Push(_, _, _, _, _, _, _) => PushInv(cfg, s, step);
  }

  lemma {:induction false} RunInv(cfg: Config, states: seq<State>, steps: seq<Step>, i: nat)
    requires IsRun(cfg, states, steps) && i <= |steps|
    ensures Inv(cfg, states[i])
  {
    hide Inv, Apply, Enabled, Shaped;
    if i == 0 {
      InitInv(cfg);
    } else {
      RunInv(cfg, states, steps, i - 1);
      StepInv(cfg, states[i - 1], steps[i - 1]);
    }
  }

  lemma RunLength(cfg: Config, states: seq<State>, steps: seq<Step>)
    requires IsRun(cfg, states, steps)
    ensures |states| == |steps| + 1
  {
  }

  /** A run goes on with any step its last state allows. */
  lemma RunExtends(cfg: Config, states: seq<State>, steps: seq<Step>, step: Step, t: State)
    requires IsRun(cfg, states, steps) && Shaped(cfg, states[|steps|])
    requires Enabled(cfg, states[|steps|], step) && t == Apply(cfg, states[|steps|], step)
    ensures IsRun(cfg, states + [t], steps + [step]) && Shaped(cfg, t)
  {
    hide Initial, Shaped, Enabled, Apply, Inv;
    var longer, more := states + [t], steps + [step];
    assert longer[0] == states[0];
    RunInv(cfg, longer, more, |more|);
    InvShaped(cfg, t);
  }

  lemma InvShaped(cfg: Config, s: State)
    requires Inv(cfg, s)
    ensures Shaped(cfg, s)
  {
  }
}
