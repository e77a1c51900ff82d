/**
 The timed user queue of benchmark/hicache/bench_mix.py.

 A user is handed out for one round at a time and comes back through `push`, which stamps the time
 its next round may start and puts it in the queue.  `pop` hands out the head of the queue when its
 time has come, and a new user otherwise.
 */
module UserQueue {
  import opened Sequences
  import opened Sums

  /** A prompt starts with the user's number and grows by a reply and a candidate input a round. */
  datatype Piece = Id(user: nat) | Text(text: string)

  /** `lengths` and `outputs` record the prompt tokens of the rounds begun and the output tokens of the rounds done. */
  datatype User = User(round: nat, total: nat, prompt: seq<Piece>, returnTokens: int, start: real,
                       lengths: seq<int>, outputs: seq<int>)

  /** One entry of input_stats or output_stats. */
  datatype Tally = Tally(tokens: int, count: int)

  datatype Candidate = Candidate(prompt: string, length: int)

  /** The three lists have num_rounds entries, as load_config asserts. */
  datatype Config = Config(ratios: seq<int>, returnMeans: seq<int>, intervalMeans: seq<real>)

  /** A user is its user_id, an index of `users`.  `held` lists the users handed out and not yet
      pushed back, and `handed` every (user, round) handed out. */
  datatype State = State(users: seq<User>, queue: seq<nat>, held: seq<nat>, userStats: seq<int>,
                         inputs: seq<Tally>, outputs: seq<Tally>, handed: seq<(nat, nat)>)

  /** The random draws and the clock are arguments of the steps. */
  datatype Step =
    | Take(now: real)
    | New(now: real, rand: int, candidate: Candidate, tokens: int)
    | Push(k: nat, text: string, gaps: int, candidate: Candidate, tokens: int, now: real, interval: real)

  predicate ValidConfig(cfg: Config) {
    && |cfg.ratios| >= 1
    && |cfg.returnMeans| == |cfg.intervalMeans| == |cfg.ratios|
    && (forall i :: 0 <= i < |cfg.ratios| ==> cfg.ratios[i] >= 0)
  }

  // ---------------------------------------------------------------------------
  // How many rounds a user gets

  function Cumulative(ratios: seq<int>): (c: seq<int>)
    ensures |c| == |ratios|
  {
    seq(|ratios|, i requires 0 <= i < |ratios| => Sum(ratios[..i + 1]))
  }

  /** One more than the first index above `rand`, or all rounds when there is none. */
  function Rounds(cumulative: seq<int>, rand: int): (t: nat)
    ensures t <= |cumulative| && (cumulative != [] ==> t >= 1)
    ensures forall i :: 0 <= i < t - 1 ==> cumulative[i] <= rand
    ensures t < |cumulative| ==> rand < cumulative[t - 1]
  {
    if |cumulative| <= 1 then |cumulative|
    else if rand < cumulative[0] then 1
    else
      var t := Rounds(cumulative[1..], rand);
      assert forall i :: 1 <= i < t ==> cumulative[i] == cumulative[1..][i - 1];
      t + 1
  }

  // ---------------------------------------------------------------------------
  // Where a user joins the queue

  function Starts(users: seq<User>, queue: seq<nat>): (s: seq<real>)
    requires forall i :: 0 <= i < |queue| ==> queue[i] < |users|
    ensures |s| == |queue| && forall i :: 0 <= i < |queue| ==> s[i] == users[queue[i]].start
  {
    seq(|queue|, i requires 0 <= i < |queue| => users[queue[i]].start)
  }

  /** The value of `idx` after the loop of `push`: the first later start, or else the last index. */
  function Place(starts: seq<real>, start: real): (p: nat)
    requires starts != []
    ensures p < |starts|
    ensures forall j :: 0 <= j < p ==> starts[j] <= start
    ensures p < |starts| - 1 ==> start < starts[p]
  {
    if |starts| == 1 || start < starts[0] then 0
    else
      var p := Place(starts[1..], start);
      assert forall j :: 1 <= j <= p ==> starts[j] == starts[1..][j - 1];
      p + 1
  }

  function Insert<X>(s: seq<X>, p: nat, x: X): seq<X>
    requires p <= |s|
  {
    s[..p] + [x] + s[p..]
  }

  function Enqueue(users: seq<User>, queue: seq<nat>, u: nat): seq<nat>
    requires u < |users| && forall i :: 0 <= i < |queue| ==> queue[i] < |users|
  {
    if queue == [] then [u] else Insert(queue, Place(Starts(users, queue), users[u].start), u)
  }

  // ---------------------------------------------------------------------------
  // Steps

  function Initial(cfg: Config): State {
    var n := |cfg.ratios|;
    State([], [], [], seq(n, _ => 0), seq(n, _ => Tally(0, 0)), seq(n, _ => Tally(0, 0)), [])
  }

  predicate Known(users: seq<User>, ids: seq<nat>) {
    forall i :: 0 <= i < |ids| ==> ids[i] < |users|
  }

  ghost predicate Shaped(cfg: Config, s: State) {
    && |s.userStats| == |s.inputs| == |s.outputs| == |cfg.ratios|
    && Known(s.users, s.queue) && Known(s.users, s.held)
    && (forall u :: 0 <= u < |s.users| ==> s.users[u].total <= |cfg.ratios|)
    && (forall i :: 0 <= i < |s.held| ==> s.users[s.held[i]].round < s.users[s.held[i]].total)
  }

  predicate Due(users: seq<User>, queue: seq<nat>, now: real)
    requires Known(users, queue)
  {
    queue != [] && now > users[queue[0]].start
  }

  ghost predicate Enabled(cfg: Config, s: State, step: Step)
    requires ValidConfig(cfg) && Shaped(cfg, s)
  {
    match step
    case Take(now) => Due(s.users, s.queue, now)
    case New(now, rand, _, _) => !Due(s.users, s.queue, now) && 0 <= rand <= Sum(cfg.ratios)
    case Push(k, _, _, _, _, _, _) => k < |s.held|
  }

  function Add(t: Tally, tokens: int): Tally {
    Tally(t.tokens + tokens, t.count + 1)
  }

  function Newcomer(cfg: Config, id: nat, rand: int, candidate: Candidate, tokens: int): User
    requires ValidConfig(cfg)
  {
    User(0, Rounds(Cumulative(cfg.ratios), rand), [Id(id), Text(candidate.prompt)],
         if tokens <= 0 then cfg.returnMeans[0] else tokens, 0.0, [candidate.length], [])
  }

  /** A user back from its round: retired, or ready for the next one. */
  function Returned(cfg: Config, v: User, step: Step): User
    requires ValidConfig(cfg) && v.round < v.total <= |cfg.ratios| && step.Push?
  {
    var r, outputs := v.round + 1, v.outputs + [step.gaps + 1];
    if r >= v.total then v.(round := r, outputs := outputs)
    else
      v.(round := r, outputs := outputs, lengths := v.lengths + [step.candidate.length],
         prompt := v.prompt + [Text(step.text), Text(step.candidate.prompt)],
         returnTokens := if step.tokens <= 0 then cfg.returnMeans[r] else step.tokens,
         start := step.now + if step.interval <= 0.0 then cfg.intervalMeans[r] else step.interval)
  }

  ghost function Apply(cfg: Config, s: State, step: Step): State
    requires ValidConfig(cfg) && Shaped(cfg, s) && Enabled(cfg, s, step)
  {
    match step
    case Take(_) =>
      var u := s.queue[0];
      s.(queue := s.queue[1..], held := s.held + [u], handed := s.handed + [(u, s.users[u].round)])
    case New(_, rand, candidate, tokens) =>
      var u, v := |s.users|, Newcomer(cfg, |s.users|, rand, candidate, tokens);
      s.(users := s.users + [v], held := s.held + [u], handed := s.handed + [(u, 0)],
         userStats := s.userStats[v.total - 1 := s.userStats[v.total - 1] + 1],
         inputs := s.inputs[0 := Add(s.inputs[0], candidate.length)])
    case Push(k, _, gaps, candidate, _, _, _) =>
      var u := s.held[k];
      var v := Returned(cfg, s.users[u], step);
      var users, r := s.users[u := v], v.round;
      var next := s.(users := users, held := RemoveAt(s.held, k),
                     outputs := s.outputs[r - 1 := Add(s.outputs[r - 1], gaps + 1)]);
      if r >= v.total then next
      else
        next.(queue := Enqueue(users, s.queue, u), inputs := s.inputs[r := Add(s.inputs[r], candidate.length)])
  }

  ghost predicate IsRun(cfg: Config, states: seq<State>, steps: seq<Step>) {
    && ValidConfig(cfg)
    && |states| == |steps| + 1
    && states[0] == Initial(cfg)
    && (forall i :: 0 <= i < |steps| ==>
          && Shaped(cfg, states[i])
          && Enabled(cfg, states[i], steps[i])
          && states[i + 1] == Apply(cfg, states[i], steps[i]))
  }

  // ---------------------------------------------------------------------------
  // The invariant

  predicate Active(v: User) {
    v.round < v.total
  }

  function Min(a: int, b: int): int {
    if a < b then a else b
  }

  predicate UserOk(cfg: Config, v: User, id: nat) {
    && 1 <= v.total <= |cfg.ratios|
    && v.round <= v.total
    && |v.prompt| == 2 * Min(v.round, v.total - 1) + 2
    && v.prompt[0] == Id(id)
    && |v.lengths| == Min(v.round, v.total - 1) + 1
    && |v.outputs| == v.round
  }

  function Totals(users: seq<User>, t: nat): (m: seq<int>)
    ensures |m| == |users|
  {
    seq(|users|, u requires 0 <= u < |users| => Flag(users[u].total == t))
  }

  /** Users that have begun round r. */
  function Begun(users: seq<User>, r: nat): (m: seq<int>)
    ensures |m| == |users|
  {
    seq(|users|, u requires 0 <= u < |users| => Flag(users[u].round >= r && users[u].total > r))
  }

  /** Users that are past round r. */
  function Past(users: seq<User>, r: nat): (m: seq<int>)
    ensures |m| == |users|
  {
    seq(|users|, u requires 0 <= u < |users| => Flag(users[u].round > r))
  }

  /** What each user has in place r of a record, and 0 without one. */
  function Entry(record: seq<int>, r: nat): int {
    if r < |record| then record[r] else 0
  }

  function PromptTokens(users: seq<User>, r: nat): (m: seq<int>)
    ensures |m| == |users|
  {
    seq(|users|, u requires 0 <= u < |users| => Entry(users[u].lengths, r))
  }

  function OutputTokens(users: seq<User>, r: nat): (m: seq<int>)
    ensures |m| == |users|
  {
    seq(|users|, u requires 0 <= u < |users| => Entry(users[u].outputs, r))
  }

  /** Users that are in round r and not retired. */
  function In(users: seq<User>, r: nat): (m: seq<int>)
    ensures |m| == |users|
  {
    seq(|users|, u requires 0 <= u < |users| => Flag(users[u].round == r && Active(users[u])))
  }

  ghost predicate Counted(users: seq<User>, userStats: seq<int>, inputs: seq<Tally>, outputs: seq<Tally>) {
    && |userStats| == |inputs| == |outputs|
    && (forall r :: 0 <= r < |userStats| ==> userStats[r] == Sum(Totals(users, r + 1)))
    && (forall r :: 0 <= r < |inputs| ==> inputs[r].count == Sum(Begun(users, r)))
    && (forall r :: 0 <= r < |outputs| ==> outputs[r].count == Sum(Past(users, r)))
    && (forall r :: 0 <= r < |inputs| ==> inputs[r].tokens == Sum(PromptTokens(users, r)))
    && (forall r :: 0 <= r < |outputs| ==> outputs[r].tokens == Sum(OutputTokens(users, r)))
  }

  /** A user that is not retired is once in the queue or once handed out, and nowhere else. */
  ghost predicate Located(users: seq<User>, bag: multiset<nat>) {
    forall u: nat :: bag[u] == if u < |users| && Active(users[u]) then 1 else 0
  }

  predicate Ascending(s: seq<real>) {
    forall i, j :: 0 <= i < j < |s| ==> s[i] <= s[j]
  }

  /** The queue without its last user. */
  function Front<X>(s: seq<X>): (f: seq<X>) {
    if s == [] then [] else s[..|s| - 1]
  }

  function HandedRounds(handed: seq<(nat, nat)>, u: nat): seq<nat> {
    if handed == [] then []
    else
      var e := handed[|handed| - 1];
      HandedRounds(handed[..|handed| - 1], u) + if e.0 == u then [e.1] else []
  }

  /** Every user was handed out for each of its rounds once and in order. */
  ghost predicate InOrder(users: seq<User>, held: multiset<nat>, handed: seq<(nat, nat)>) {
    forall u: nat :: HandedRounds(handed, u) == Iota(if u < |users| then users[u].round + held[u] else 0)
  }

  ghost predicate Inv(cfg: Config, s: State) {
    && Shaped(cfg, s)
    && (forall u :: 0 <= u < |s.users| ==> UserOk(cfg, s.users[u], u))
    && Counted(s.users, s.userStats, s.inputs, s.outputs)
    && Located(s.users, multiset(s.queue) + multiset(s.held))
    && Ascending(Front(Starts(s.users, s.queue)))
    && InOrder(s.users, multiset(s.held), s.handed)
  }
}
