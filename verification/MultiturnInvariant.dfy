/** The inductive invariant of the multi-turn protocol and its preservation by every step. */
module MultiturnInvariant {
  import opened Sequences
  import opened Sums
  import opened Multiturn

  // ---------------------------------------------------------------------------
  // Where the requests are

  function Sending(s: State): seq<Request> {
    if s.sender.Holding? then [s.sender.request] else []
  }

  /** The response a task has counted and not yet put into the queue. */
  function Unput(s: State): seq<Response> {
    if s.sender.Answering? then [s.sender.response] else []
  }

  function Todo(s: State): seq<Request> {
    if s.handler.Releasing? then s.handler.todo else []
  }

  function Requests(rs: seq<Response>): (q: seq<Request>)
    ensures |q| == |rs|
  {
    seq(|rs|, i requires 0 <= i < |rs| => rs[i].request)
  }

  /** Requests the sender side can see or has taken. */
  function Front(s: State): multiset<Request> {
    multiset(s.ready) + multiset(Sending(s)) + multiset(s.inflight) + multiset(Requests(Unput(s)))
    + multiset(Requests(s.responses))
  }

  /** Requests the handler keeps back. */
  function Back(s: State): multiset<Request> {
    multiset(Todo(s)) + multiset(s.held)
  }

  // ---------------------------------------------------------------------------
  // The invariant

  predicate Live(totals: seq<nat>, rounds: seq<nat>, dropped: seq<bool>, c: nat)
    requires c < |totals| == |rounds| == |dropped|
  {
    !dropped[c] && rounds[c] < totals[c]
  }

  function Lives(totals: seq<nat>, rounds: seq<nat>, dropped: seq<bool>): (l: seq<int>)
    requires |totals| == |rounds| == |dropped|
    ensures |l| == |totals|
  {
    seq(|totals|, c requires 0 <= c < |totals| => if Live(totals, rounds, dropped, c) then 1 else 0)
  }

  function Drops(dropped: seq<bool>): (d: seq<int>)
    ensures |d| == |dropped|
  {
    seq(|dropped|, c requires 0 <= c < |dropped| => if dropped[c] then 1 else 0)
  }

  /** A live client has exactly one outstanding request, its current one; a dead client has none. */
  ghost predicate Owned(totals: seq<nat>, rounds: seq<nat>, history: seq<seq<Item>>, dropped: seq<bool>,
                        bag: multiset<Request>)
    requires |totals| == |rounds| == |history| == |dropped|
  {
    && (forall q :: q in bag ==>
          q.client < |totals| && q.round == rounds[q.client] && q.prompt == history[q.client])
    && (forall c :: 0 <= c < |totals| ==>
          bag[Request(c, rounds[c], history[c])] == if Live(totals, rounds, dropped, c) then 1 else 0)
    && |bag| == Sum(Lives(totals, rounds, dropped))
  }

  ghost predicate Counted(cfg: Config, s: State)
    requires Shaped(cfg, s)
  {
    && (forall c :: 0 <= c < |cfg.totals| ==>
          s.rounds[c] <= cfg.totals[c] && (s.dropped[c] ==> s.rounds[c] < cfg.totals[c]))
    && s.sent - s.completed == |s.inflight| + |Unput(s)| + |s.responses|
    && (s.sent - s.completed + |Sending(s)| <= cfg.maxParallel
        || s.sent - s.completed + |Sending(s)| == 0)
    && s.completed == Sum(s.rounds) + Sum(Drops(s.dropped))
    && s.progress <= s.completed + |Unput(s)| + |s.responses|
    && (s.sender.SenderStopped? || s.handler.HandlerStopped? ==> s.progress == TotalRequests(cfg))
  }

  ghost predicate Supplied(totals: seq<nat>, rounds: seq<nat>, pool: seq<seq<Item>>)
    requires |totals| == |rounds|
  {
    |pool| >= Sum(Needs(totals, rounds))
  }

  /** Requests of round b are in front of the barrier, those of round b + 1 behind it. */
  ghost predicate Fenced(totals: seq<nat>, rounds: seq<nat>, b: nat, done: int, releasing: bool,
                         front: multiset<Request>, back: multiset<Request>)
    requires |totals| == |rounds|
  {
    && (forall r: nat :: r < b ==> CountAbove(rounds, r) == CountAbove(totals, r))
    && (forall c :: 0 <= c < |rounds| ==> rounds[c] <= b + 1)
    && done == CountAbove(rounds, b)
    && (forall q :: q in back ==> q.round == b + 1)
    && (forall q :: q in front ==> q.round == if releasing then b + 1 else b)
    && (if releasing then done == CountAbove(totals, b) else done == 0 || done < CountAbove(totals, b))
  }

  ghost predicate Inv(cfg: Config, s: State) {
    && ValidConfig(cfg)
    && Shaped(cfg, s)
    && Owned(cfg.totals, s.rounds, s.history, s.dropped, Front(s) + Back(s))
    && Counted(cfg, s)
    && Supplied(cfg.totals, s.rounds, s.pool)
    && !s.handler.Crashed?
    && (s.handler.Releasing? || !cfg.barrier ==> s.held == [])
    && (cfg.barrier ==>
          Fenced(cfg.totals, s.rounds, s.barrierRound, s.barrierDone, s.handler.Releasing?, Front(s), Back(s)))
  }

  // ---------------------------------------------------------------------------
  // Start-up

  lemma InitInv(cfg: Config, s: State)
    requires ValidConfig(cfg) && Init(cfg, s)
    ensures Inv(cfg, s)
  {
    assert Sending(s) == [] && Todo(s) == [] && Requests(Unput(s)) == Requests(s.responses) == [];
    assert Front(s) == multiset(s.ready) && Back(s) == multiset{};
    assert Front(s) + Back(s) == multiset(s.ready);
    SumZero(s.rounds);
    SumZero(Drops(s.dropped));
    CountNone(s.rounds, 0);
    InitOwned(cfg, s);
  }

  lemma InitOwned(cfg: Config, s: State)
    requires ValidConfig(cfg) && Init(cfg, s)
    ensures Owned(cfg.totals, s.rounds, s.history, s.dropped, multiset(s.ready))
  {
    var n := |cfg.totals|;
    forall c | 0 <= c < n ensures multiset(s.ready)[Request(c, s.rounds[c], s.history[c])] == 1 {
      assert s.ready[c] == Request(c, s.rounds[c], s.history[c]);
      SeqCountOne(s.ready, c);
    }
    var ones := Lives(cfg.totals, s.rounds, s.dropped);
    assert forall c :: 0 <= c < n ==> ones[c] == 1;
    SumOnes(ones);
  }

  lemma SeqCountOne<X>(s: seq<X>, i: nat)
    requires i < |s|
    requires forall j :: 0 <= j < |s| && j != i ==> s[j] != s[i]
    ensures multiset(s)[s[i]] == 1
  {
    assert s == s[..i] + [s[i]] + s[i + 1..];
    assert s[i] !in s[..i] && s[i] !in s[i + 1..];
  }

  // ---------------------------------------------------------------------------
  // Steps that only move requests between queues

  lemma PopFront(cfg: Config, s: State, k: nat)
    requires Shaped(cfg, s) && Enabled(cfg, s, Pop(k))
    ensures var t := Apply(cfg, s, Pop(k)); Front(t) == Front(s) && Back(t) == Back(s)
  {
    BagRemove(s.ready, k);
  }

  lemma PopInv(cfg: Config, s: State, k: nat)
    requires Inv(cfg, s) && Enabled(cfg, s, Pop(k))
    ensures Inv(cfg, Apply(cfg, s, Pop(k)))
  {
    hide Front, Back;
    PopFront(cfg, s, k);
  }

  lemma LaunchFront(cfg: Config, s: State)
    requires Shaped(cfg, s) && Enabled(cfg, s, Launch)
    ensures var t := Apply(cfg, s, Launch); Front(t) == Front(s) && Back(t) == Back(s)
  {
  }

  lemma LaunchInv(cfg: Config, s: State)
    requires Inv(cfg, s) && Enabled(cfg, s, Launch)
    ensures Inv(cfg, Apply(cfg, s, Launch))
  {
    hide Front, Back;
    LaunchFront(cfg, s);
  }

  predicate Responds(step: Step) {
    step.Count? || step.Put? || step.Raise?
  }

  lemma CountFront(cfg: Config, s: State, step: Step)
    requires Shaped(cfg, s) && Enabled(cfg, s, step) && step.Count?
    ensures var t := Apply(cfg, s, step); Front(t) == Front(s) && Back(t) == Back(s)
  {
    BagRemove(s.inflight, step.k);
    assert Requests(Unput(s)) == [] && Requests(Unput(Apply(cfg, s, step))) == [s.inflight[step.k]];
  }

  lemma RaiseFront(cfg: Config, s: State, step: Step)
    requires Shaped(cfg, s) && Enabled(cfg, s, step) && step.Raise?
    ensures var t := Apply(cfg, s, step); Front(t) == Front(s) && Back(t) == Back(s)
  {
    BagRemove(s.inflight, step.k);
    assert Requests(Apply(cfg, s, step).responses) == Requests(s.responses) + [s.inflight[step.k]];
  }

  lemma PutFront(cfg: Config, s: State)
    requires Shaped(cfg, s) && Enabled(cfg, s, Put)
    ensures var t := Apply(cfg, s, Put); Front(t) == Front(s) && Back(t) == Back(s)
  {
    var t, q := Apply(cfg, s, Put), s.sender.response.request;
    assert Requests(Unput(s)) == [q] && Requests(Unput(t)) == [];
    assert Requests(t.responses) == Requests(s.responses) + [q];
  }

  /** Every request in flight or answered is one of a client of this run. */
  lemma InflightKnown(cfg: Config, s: State, k: nat)
    requires Inv(cfg, s) && k < |s.inflight|
    ensures s.inflight[k].client < |cfg.totals|
    ensures !s.handler.HandlerStopped?
  {
    assert s.inflight[k] in Front(s);
    assert s.inflight[k] in Front(s) + Back(s);
    if s.handler.HandlerStopped? {
      StoppedQuiet(cfg, s);
    }
  }

  lemma UnputKnown(cfg: Config, s: State)
    requires Inv(cfg, s) && s.sender.Answering?
    ensures s.sender.response.request.client < |cfg.totals|
  {
    var q := s.sender.response.request;
    assert Requests(Unput(s))[0] == q;
    assert q in Front(s) + Back(s);
  }

  lemma RespondCounted(cfg: Config, s: State, step: Step)
    requires Shaped(cfg, s) && Counted(cfg, s) && Enabled(cfg, s, step) && Responds(step)
    requires if step.Put? then s.sender.response.request.client < |cfg.totals|
             else s.inflight[step.k].client < |cfg.totals| && !s.handler.HandlerStopped?
    ensures var t := Apply(cfg, s, step); Shaped(cfg, t) && Counted(cfg, t)
  {
  }

  /** A task moves the bar and puts its response; its request stays outstanding. */
  lemma RespondInv(cfg: Config, s: State, step: Step)
    requires Inv(cfg, s) && Enabled(cfg, s, step) && Responds(step)
    ensures Inv(cfg, Apply(cfg, s, step))
  {
    hide Front, Back;
    if step.Put? {
      UnputKnown(cfg, s);
      PutFront(cfg, s);
    } else {
      InflightKnown(cfg, s, step.k);
      if step.Count? {
        CountFront(cfg, s, step);
      } else {
        RaiseFront(cfg, s, step);
      }
    }
    RespondCounted(cfg, s, step);
  }

  lemma ReleaseFront(cfg: Config, s: State)
    requires Shaped(cfg, s) && Enabled(cfg, s, Release)
    ensures Front(Apply(cfg, s, Release)) == Front(s) + multiset{s.handler.todo[0]}
  {
  }

  lemma ReleaseBack(cfg: Config, s: State)
    requires Shaped(cfg, s) && Enabled(cfg, s, Release)
    ensures Back(s) == Back(Apply(cfg, s, Release)) + multiset{s.handler.todo[0]}
  {
    assert s.handler.todo == [s.handler.todo[0]] + s.handler.todo[1..];
  }

  lemma FencedMove(totals: seq<nat>, rounds: seq<nat>, b: nat, done: int,
                   front: multiset<Request>, back: multiset<Request>, q: Request)
    requires |totals| == |rounds|
    requires Fenced(totals, rounds, b, done, true, front, back + multiset{q})
    ensures Fenced(totals, rounds, b, done, true, front + multiset{q}, back)
  {
    assert q in back + multiset{q};
  }

  lemma ReleaseInv(cfg: Config, s: State)
    requires Inv(cfg, s) && Enabled(cfg, s, Release)
    ensures Inv(cfg, Apply(cfg, s, Release))
  {
    hide Front, Back;
    ReleaseFront(cfg, s);
    ReleaseBack(cfg, s);
    var t, q := Apply(cfg, s, Release), s.handler.todo[0];
    if cfg.barrier {
      FencedMove(cfg.totals, s.rounds, s.barrierRound, s.barrierDone, Front(s), Back(t), q);
    }
    assert Front(t) + Back(t) == Front(s) + Back(s);
  }

  lemma FencedRaise(totals: seq<nat>, rounds: seq<nat>, b: nat, done: int, front: multiset<Request>)
    requires |totals| == |rounds|
    requires Fenced(totals, rounds, b, done, true, front, multiset{})
    ensures Fenced(totals, rounds, b + 1, 0, false, front, multiset{})
  {
    CountNone(rounds, b + 1);
  }

  lemma FinishFront(cfg: Config, s: State)
    requires Shaped(cfg, s) && Enabled(cfg, s, FinishRelease) && s.held == []
    ensures var t := Apply(cfg, s, FinishRelease); Front(t) == Front(s) && Back(t) == Back(s) == multiset{}
  {
  }

  lemma FinishReleaseInv(cfg: Config, s: State)
    requires Inv(cfg, s) && Enabled(cfg, s, FinishRelease)
    ensures Inv(cfg, Apply(cfg, s, FinishRelease))
  {
    hide Front, Back;
    FinishFront(cfg, s);
    if cfg.barrier {
      FencedRaise(cfg.totals, s.rounds, s.barrierRound, s.barrierDone, Front(s));
    }
    FinishCounted(cfg, s);
  }

  lemma FinishCounted(cfg: Config, s: State)
    requires Shaped(cfg, s) && Counted(cfg, s) && Enabled(cfg, s, FinishRelease)
    ensures var t := Apply(cfg, s, FinishRelease); Shaped(cfg, t) && Counted(cfg, t)
  {
  }

  lemma IdleInv(cfg: Config, s: State, step: Step)
    requires Inv(cfg, s) && Enabled(cfg, s, step) && (step.TimeOut? || step.CheckDone? || step.StopSender?)
    ensures Inv(cfg, Apply(cfg, s, step))
  {
    hide Front, Back;
    IdleFront(cfg, s, step);
  }

  lemma IdleFront(cfg: Config, s: State, step: Step)
    requires Shaped(cfg, s) && Enabled(cfg, s, step) && (step.TimeOut? || step.CheckDone? || step.StopSender?)
    ensures var t := Apply(cfg, s, step); Front(t) == Front(s) && Back(t) == Back(s)
  {
  }

  // ---------------------------------------------------------------------------
  // Nothing is unanswered once the progress bar is full

  /** total_requests bounds the finished work plus one request for every live client. */
  lemma WorkBound(cfg: Config, s: State)
    requires ValidConfig(cfg) && Shaped(cfg, s) && Counted(cfg, s)
    ensures s.completed + Sum(Lives(cfg.totals, s.rounds, s.dropped)) <= TotalRequests(cfg)
  {
    var n := |cfg.totals|;
    var done := seq(n, c requires 0 <= c < n => s.rounds[c] + Drops(s.dropped)[c]);
    var busy := seq(n, c requires 0 <= c < n => done[c] + Lives(cfg.totals, s.rounds, s.dropped)[c]);
    SumAdd(s.rounds, Drops(s.dropped), done);
    SumAdd(done, Lives(cfg.totals, s.rounds, s.dropped), busy);
    SumOrder(busy, cfg.totals);
  }

  lemma BagSize(s: State)
    ensures |Front(s) + Back(s)|
         == |s.ready| + |Sending(s)| + |s.inflight| + |Unput(s)| + |s.responses| + |Todo(s)| + |s.held|
  {
  }

  /** With a full bar every request is handled, queued as a response, or counted and about to be. */
  lemma StoppedQuiet(cfg: Config, s: State)
    requires Inv(cfg, s) && s.progress == TotalRequests(cfg)
    ensures s.ready == [] && s.inflight == [] && !s.sender.Holding? && Todo(s) == [] && s.held == []
    ensures s.completed + |Unput(s)| + |s.responses| == TotalRequests(cfg)
  {
    WorkBound(cfg, s);
    BagSize(s);
  }

  // ---------------------------------------------------------------------------
  // Handling a response changes the tables of one client

  /** Client c's request leaves the bag, its records change, and it may put one request back. */
  lemma OwnedChange(totals: seq<nat>, rounds: seq<nat>, history: seq<seq<Item>>, dropped: seq<bool>,
                    bag: multiset<Request>, c: nat, r: nat, h: seq<Item>, d: bool, bag': multiset<Request>)
    requires c < |totals| == |rounds| == |history| == |dropped|
    requires Owned(totals, rounds, history, dropped, bag)
    requires Request(c, rounds[c], history[c]) in bag
    requires bag' == bag - multiset{Request(c, rounds[c], history[c])}
                   + (if !d && r < totals[c] then multiset{Request(c, r, h)} else multiset{})
    requires r != rounds[c] || d
    ensures Owned(totals, rounds[c := r], history[c := h], dropped[c := d], bag')
  {
    var rounds', history', dropped' := rounds[c := r], history[c := h], dropped[c := d];
    var q := Request(c, rounds[c], history[c]);
    var rest := bag - multiset{q};
    assert bag[q] == 1;
    assert forall p :: p in rest ==> p in bag && p.client != c;
    var lives, live := Lives(totals, rounds, dropped), if !d && r < totals[c] then 1 else 0;
    assert lives[c] == 1;
    assert Lives(totals, rounds', dropped') == lives[c := live];
    SumUpdate(lives, c, live);
    forall k | 0 <= k < |totals|
      ensures bag'[Request(k, rounds'[k], history'[k])] == if Live(totals, rounds', dropped', k) then 1 else 0
    {
      assert Request(k, rounds'[k], history'[k]) in rest ==> k != c;
      assert k != c ==> Request(k, rounds'[k], history'[k]) == Request(k, rounds[k], history[k]);
    }
  }

  /** The response at the head of the queue answers its client's current request. */
  lemma HeadCurrent(cfg: Config, s: State)
    requires Shaped(cfg, s) && s.responses != []
    requires Owned(cfg.totals, s.rounds, s.history, s.dropped, Front(s) + Back(s))
    ensures var q := s.responses[0].request; var c := q.client;
            && q in Front(s) && q in Front(s) + Back(s)
            && c < |cfg.totals| && Live(cfg.totals, s.rounds, s.dropped, c)
            && q == Request(c, s.rounds[c], s.history[c])
  {
    var q := s.responses[0].request;
    assert Requests(s.responses)[0] == q;
    assert q in Requests(s.responses);
    assert (Front(s) + Back(s))[q] >= 1;
  }

  lemma HeadFront(s: State)
    requires s.responses != []
    ensures var t, q := s.(responses := s.responses[1..]), s.responses[0].request;
            Front(s) == Front(t) + multiset{q} && Back(t) == Back(s)
  {
    assert Requests(s.responses) == [s.responses[0].request] + Requests(s.responses[1..]);
  }

  lemma BagChange(front: multiset<Request>, back: multiset<Request>,
                  front': multiset<Request>, back': multiset<Request>, q: Request, extra: multiset<Request>)
    requires front == front' + multiset{q} && back' == back + extra
    ensures front' + back' == front + back - multiset{q} + extra
  {
  }

  /** OwnedChange, with the requests in front of the handler and those it keeps told apart. */
  lemma OwnedHandled(totals: seq<nat>, rounds: seq<nat>, history: seq<seq<Item>>, dropped: seq<bool>,
                     front: multiset<Request>, back: multiset<Request>,
                     front': multiset<Request>, back': multiset<Request>, c: nat, r: nat, h: seq<Item>, d: bool)
    requires c < |totals| == |rounds| == |history| == |dropped|
    requires Owned(totals, rounds, history, dropped, front + back)
    requires front == front' + multiset{Request(c, rounds[c], history[c])}
    requires back' == back + (if !d && r < totals[c] then multiset{Request(c, r, h)} else multiset{})
    requires r != rounds[c] || d
    ensures Owned(totals, rounds[c := r], history[c := h], dropped[c := d], front' + back')
  {
    var q := Request(c, rounds[c], history[c]);
    var extra := if !d && r < totals[c] then multiset{Request(c, r, h)} else multiset{};
    BagChange(front, back, front', back', q, extra);
    assert q in front + back;
    OwnedChange(totals, rounds, history, dropped, front + back, c, r, h, d, front' + back');
  }

  lemma FencedShrink(totals: seq<nat>, rounds: seq<nat>, b: nat, done: int, releasing: bool,
                     front: multiset<Request>, back: multiset<Request>, q: Request)
    requires |totals| == |rounds|
    requires Fenced(totals, rounds, b, done, releasing, front + multiset{q}, back)
    ensures Fenced(totals, rounds, b, done, releasing, front, back)
  {
    assert forall p :: p in front ==> p in front + multiset{q};
  }

  lemma FailOwned(cfg: Config, s: State, front: multiset<Request>, back: multiset<Request>,
                  front': multiset<Request>, back': multiset<Request>)
    requires Shaped(cfg, s) && Enabled(cfg, s, Handle) && !s.responses[0].ok
    requires Owned(cfg.totals, s.rounds, s.history, s.dropped, front + back)
    requires var q := s.responses[0].request;
             && front == front' + multiset{q} && q == Request(q.client, s.rounds[q.client], s.history[q.client])
    requires back' == back
    ensures var t := Apply(cfg, s, Handle);
            Owned(cfg.totals, t.rounds, t.history, t.dropped, front' + back')
  {
    var c := s.responses[0].request.client;
    assert back == back + multiset{};
    OwnedHandled(cfg.totals, s.rounds, s.history, s.dropped, front, back, front', back',
                 c, s.rounds[c], s.history[c], true);
    assert s.rounds[c := s.rounds[c]] == s.rounds && s.history[c := s.history[c]] == s.history;
  }

  lemma HandleFailInv(cfg: Config, s: State)
    requires Inv(cfg, s) && Enabled(cfg, s, Handle) && !s.responses[0].ok
    ensures Inv(cfg, Apply(cfg, s, Handle))
  {
    HeadCurrent(cfg, s);
    FailCounted(cfg, s);
    FailFront(cfg, s);
    var t := Apply(cfg, s, Handle);
    FailOwned(cfg, s, Front(s), Back(s), Front(t), Back(t));
    if cfg.barrier {
      FencedShrink(cfg.totals, s.rounds, s.barrierRound, s.barrierDone, false,
                   Front(t), Back(s), s.responses[0].request);
    }
  }

  lemma FailFront(cfg: Config, s: State)
    requires Shaped(cfg, s) && Enabled(cfg, s, Handle) && !s.responses[0].ok
    ensures var t := Apply(cfg, s, Handle);
            && Front(s) == Front(t) + multiset{s.responses[0].request}
            && Back(t) == Back(s)
  {
    HeadFront(s);
    var u, t := s.(responses := s.responses[1..]), Apply(cfg, s, Handle);
    assert Front(t) == Front(u) && Back(t) == Back(u);
  }

  lemma FailCounted(cfg: Config, s: State)
    requires Shaped(cfg, s) && Counted(cfg, s)
    requires Enabled(cfg, s, Handle) && !s.responses[0].ok
    requires Live(cfg.totals, s.rounds, s.dropped, s.responses[0].request.client)
    ensures var t := Apply(cfg, s, Handle); Shaped(cfg, t) && Counted(cfg, t)
  {
    var c := s.responses[0].request.client;
    assert Drops(s.dropped[c := true]) == Drops(s.dropped)[c := 1];
    SumUpdate(Drops(s.dropped), c, 1);
  }

  // ---------------------------------------------------------------------------
  // A successful response

  /** A client that goes on draws exactly one sub-question, and there is one to draw. */
  lemma NeedsDraw(totals: seq<nat>, rounds: seq<nat>, c: nat)
    requires c < |totals| == |rounds| && rounds[c] < totals[c]
    ensures Sum(Needs(totals, rounds[c := rounds[c] + 1]))
         == Sum(Needs(totals, rounds)) - (if rounds[c] + 1 < totals[c] then 1 else 0)
    ensures rounds[c] + 1 < totals[c] ==> Sum(Needs(totals, rounds)) >= 1
  {
    var needs, needs' := Needs(totals, rounds), Needs(totals, rounds[c := rounds[c] + 1]);
    assert needs' == needs[c := needs'[c]];
    SumUpdate(needs, c, needs'[c]);
    SumNonNegative(needs');
  }

  function NextHistory(s: State, c: nat, output: seq<Item>, more: bool): seq<Item>
    requires c < |s.history| && (more ==> s.pool != [])
  {
    s.history[c] + output + if more then s.pool[|s.pool| - 1] else []
  }

  /** The request a client that goes on is given next, if any. */
  function Extra(cfg: Config, s: State): seq<Request>
    requires Shaped(cfg, s) && s.responses != []
    requires var c := s.responses[0].request.client; s.rounds[c] + 1 < cfg.totals[c] ==> s.pool != []
  {
    var c := s.responses[0].request.client;
    if s.rounds[c] + 1 < cfg.totals[c] then
      [Request(c, s.rounds[c] + 1, NextHistory(s, c, s.responses[0].output, true))]
    else []
  }

  /** What handling a success does to the tables and counters. */
  ghost predicate Handled(cfg: Config, s: State, t: State)
    requires Shaped(cfg, s) && s.responses != [] && Shaped(cfg, t)
  {
    var c := s.responses[0].request.client;
    var more := s.rounds[c] + 1 < cfg.totals[c];
    && (more ==> s.pool != [])
    && t.ready == s.ready && t.sender == s.sender && t.inflight == s.inflight
    && t.responses == s.responses[1..]
    && t.rounds == s.rounds[c := s.rounds[c] + 1]
    && t.history == s.history[c := NextHistory(s, c, s.responses[0].output, more)]
    && t.dropped == s.dropped
    && t.pool == (if more then s.pool[..|s.pool| - 1] else s.pool)
    && t.sent == s.sent && t.completed == s.completed + 1 && t.progress == s.progress
    && Todo(t) + t.held == s.held + Extra(cfg, s)
    && (t.handler.Waiting? || t.handler.Releasing?)
    && (t.handler.Releasing? || !cfg.barrier ==> t.held == [])
  }

  lemma HandleOkHandled(cfg: Config, s: State)
    requires Shaped(cfg, s) && ValidConfig(cfg)
    requires Enabled(cfg, s, Handle) && s.responses[0].ok
    requires Live(cfg.totals, s.rounds, s.dropped, s.responses[0].request.client)
    requires |s.pool| >= Sum(Needs(cfg.totals, s.rounds)) && (!cfg.barrier ==> s.held == [])
    ensures var t := Apply(cfg, s, Handle); Shaped(cfg, t) && Handled(cfg, s, t)
  {
    var c := s.responses[0].request.client;
    if s.rounds[c] + 1 < cfg.totals[c] {
      NeedsDraw(cfg.totals, s.rounds, c);
      OneMoreHandled(cfg, s);
    } else {
      LastHandled(cfg, s);
    }
  }

  lemma OneMoreHandled(cfg: Config, s: State)
    requires Shaped(cfg, s) && ValidConfig(cfg)
    requires Enabled(cfg, s, Handle) && s.responses[0].ok
    requires var c := s.responses[0].request.client; s.rounds[c] + 1 < cfg.totals[c]
    requires s.pool != [] && (!cfg.barrier ==> s.held == [])
    ensures var t := Apply(cfg, s, Handle); Shaped(cfg, t) && Handled(cfg, s, t)
  {
    var c, output := s.responses[0].request.client, s.responses[0].output;
    var h := s.history[c] + output + s.pool[|s.pool| - 1];
    assert s.history[c := s.history[c] + output][c := h] == s.history[c := h];
  }

  lemma LastHandled(cfg: Config, s: State)
    requires Shaped(cfg, s) && ValidConfig(cfg)
    requires Enabled(cfg, s, Handle) && s.responses[0].ok
    requires var c := s.responses[0].request.client; s.rounds[c] < cfg.totals[c] <= s.rounds[c] + 1
    requires !cfg.barrier ==> s.held == []
    ensures var t := Apply(cfg, s, Handle); Shaped(cfg, t) && Handled(cfg, s, t)
  {
    var c, output := s.responses[0].request.client, s.responses[0].output;
    assert s.history[c] + output + [] == s.history[c] + output;
  }

  lemma HandledBack(cfg: Config, s: State, t: State)
    requires Shaped(cfg, s) && s.responses != [] && Shaped(cfg, t)
    requires Handled(cfg, s, t) && s.handler.Waiting?
    ensures Back(t) == Back(s) + multiset(Extra(cfg, s))
  {
    assert multiset(Todo(t) + t.held) == multiset(s.held + Extra(cfg, s));
  }

  lemma HandledCounted(cfg: Config, s: State, t: State)
    requires Shaped(cfg, s) && Counted(cfg, s) && s.responses != [] && Shaped(cfg, t)
    requires Live(cfg.totals, s.rounds, s.dropped, s.responses[0].request.client)
    requires s.handler.Waiting? && Handled(cfg, s, t)
    ensures Counted(cfg, t)
  {
    var c := s.responses[0].request.client;
    SumUpdate(s.rounds, c, s.rounds[c] + 1);
  }

  lemma HandledFront(cfg: Config, s: State, t: State)
    requires Shaped(cfg, s) && s.responses != [] && Shaped(cfg, t)
    requires Handled(cfg, s, t)
    ensures Front(s) == Front(t) + multiset{s.responses[0].request}
  {
    HeadFront(s);
    assert Front(t) == Front(s.(responses := s.responses[1..]));
  }

  // ---------------------------------------------------------------------------
  // A success counted toward the barrier

  /** Once every client of round b has finished it, what is outstanding is for round b + 1. */
  lemma FrontAhead(totals: seq<nat>, rounds: seq<nat>, history: seq<seq<Item>>, dropped: seq<bool>,
                   front: multiset<Request>, back: multiset<Request>, b: nat)
    requires |totals| == |rounds| == |history| == |dropped|
    requires Owned(totals, rounds, history, dropped, front + back)
    requires forall k :: 0 <= k < |totals| ==> rounds[k] <= totals[k] && rounds[k] <= b + 1
    requires CountAbove(rounds, b) == CountAbove(totals, b)
    requires forall q :: q in front ==> q.round >= b
    ensures forall q :: q in front ==> q.round == b + 1
  {
    CountOrder(rounds, totals, b);
    forall q | q in front ensures q.round == b + 1 {
      assert q in front + back;
      assert q == Request(q.client, rounds[q.client], history[q.client]);
      assert (front + back)[q] == 1;
    }
  }

  /** The last success of round b leaves no round-b request in front of the barrier. */
  lemma FencedArrive(totals: seq<nat>, rounds: seq<nat>, b: nat, done: int,
                     front: multiset<Request>, back: multiset<Request>,
                     front': multiset<Request>, back': multiset<Request>, c: nat,
                     gone: Request, extra: multiset<Request>, history': seq<seq<Item>>, dropped: seq<bool>)
    requires c < |totals| == |rounds| == |history'| == |dropped|
    requires Fenced(totals, rounds, b, done, false, front, back)
    requires rounds[c] == b < totals[c]
    requires forall k :: 0 <= k < |totals| ==> rounds[k] <= totals[k]
    requires front == front' + multiset{gone}
    requires back' == back + extra && forall q :: q in extra ==> q.round == b + 1
    requires Owned(totals, rounds[c := b + 1], history', dropped, front' + back')
    ensures Fenced(totals, rounds[c := b + 1], b, done + 1, done + 1 == CountAbove(totals, b), front', back')
  {
    var rounds' := rounds[c := b + 1];
    assert forall q :: q in front' ==> q in front;
    forall r: nat | r <= b
      ensures CountAbove(rounds', r) == CountAbove(rounds, r) + if r == b then 1 else 0
    {
      CountUpdate(rounds, c, b + 1, r);
    }
    CountOrder(rounds', totals, b);
    if done + 1 == CountAbove(totals, b) {
      FrontAhead(totals, rounds', history', dropped, front', back', b);
    }
  }

  lemma HandleOkBarrier(cfg: Config, s: State)
    requires Shaped(cfg, s) && ValidConfig(cfg) && cfg.barrier
    requires Enabled(cfg, s, Handle) && s.responses[0].ok
    requires var c := s.responses[0].request.client;
             s.rounds[c] == s.barrierRound < cfg.totals[c] && (s.rounds[c] + 1 < cfg.totals[c] ==> s.pool != [])
    ensures var t := Apply(cfg, s, Handle);
            && t.barrierRound == s.barrierRound && t.barrierDone == s.barrierDone + 1
            && (t.handler.Releasing? <==> t.barrierDone == CountAbove(cfg.totals, s.barrierRound))
  {
  }

  lemma HeadRound(cfg: Config, s: State)
    requires Shaped(cfg, s) && s.responses != []
    requires Fenced(cfg.totals, s.rounds, s.barrierRound, s.barrierDone, false, Front(s), Back(s))
    ensures s.responses[0].request.round == s.barrierRound
  {
    assert Requests(s.responses)[0] == s.responses[0].request;
    assert s.responses[0].request in Front(s);
  }

  lemma OkHandled(cfg: Config, s: State)
    requires Inv(cfg, s) && Enabled(cfg, s, Handle) && s.responses[0].ok
    ensures var t := Apply(cfg, s, Handle);
            Shaped(cfg, t) && Handled(cfg, s, t) && Counted(cfg, t)
            && Supplied(cfg.totals, t.rounds, t.pool)
  {
    hide Apply, Owned, Fenced, Needs, Front, Back, Extra, NextHistory;
    HeadCurrent(cfg, s);
    HandleOkHandled(cfg, s);
    HandledCounted(cfg, s, Apply(cfg, s, Handle));
    NeedsDraw(cfg.totals, s.rounds, s.responses[0].request.client);
  }

  /** What handling a success does to the records and to the outstanding requests. */
  ghost predicate Advanced(cfg: Config, s: State, t: State, front: multiset<Request>, back: multiset<Request>,
                           front': multiset<Request>, back': multiset<Request>)
    requires Shaped(cfg, s) && s.responses != []
  {
    var q := s.responses[0].request;
    var c := q.client;
    var more := s.rounds[c] + 1 < cfg.totals[c];
    && (more ==> s.pool != [])
    && var h := NextHistory(s, c, s.responses[0].output, more);
    && front == front' + multiset{q}
    && back' == back + (if more then multiset{Request(c, s.rounds[c] + 1, h)} else multiset{})
    && t.rounds == s.rounds[c := s.rounds[c] + 1]
    && t.history == s.history[c := h]
    && t.dropped == s.dropped
  }

  lemma OkAdvanced(cfg: Config, s: State)
    requires Inv(cfg, s) && Enabled(cfg, s, Handle) && s.responses[0].ok
    ensures var t := Apply(cfg, s, Handle);
            Advanced(cfg, s, t, Front(s), Back(s), Front(t), Back(t))
  {
    OkHandled(cfg, s);
    var t := Apply(cfg, s, Handle);
    HandledFront(cfg, s, t);
    HandledBack(cfg, s, t);
  }

  lemma AdvancedOwned(cfg: Config, s: State, t: State, front: multiset<Request>, back: multiset<Request>,
                      front': multiset<Request>, back': multiset<Request>)
    requires Shaped(cfg, s) && s.responses != [] && Advanced(cfg, s, t, front, back, front', back')
    requires var q := s.responses[0].request;
             !s.dropped[q.client] && q == Request(q.client, s.rounds[q.client], s.history[q.client])
    requires Owned(cfg.totals, s.rounds, s.history, s.dropped, front + back)
    ensures Owned(cfg.totals, t.rounds, t.history, t.dropped, front' + back')
  {
    var c := s.responses[0].request.client;
    var h := NextHistory(s, c, s.responses[0].output, s.rounds[c] + 1 < cfg.totals[c]);
    OwnedHandledLive(cfg.totals, s.rounds, s.history, s.dropped, front, back, front', back', c, h);
  }

  lemma OwnedHandledLive(totals: seq<nat>, rounds: seq<nat>, history: seq<seq<Item>>, dropped: seq<bool>,
                         front: multiset<Request>, back: multiset<Request>,
                         front': multiset<Request>, back': multiset<Request>, c: nat, h: seq<Item>)
    requires c < |totals| == |rounds| == |history| == |dropped| && !dropped[c]
    requires Owned(totals, rounds, history, dropped, front + back)
    requires front == front' + multiset{Request(c, rounds[c], history[c])}
    requires back' == back + (if rounds[c] + 1 < totals[c] then multiset{Request(c, rounds[c] + 1, h)} else multiset{})
    ensures Owned(totals, rounds[c := rounds[c] + 1], history[c := h], dropped, front' + back')
  {
    OwnedHandled(totals, rounds, history, dropped, front, back, front', back', c, rounds[c] + 1, h, false);
    assert dropped[c := false] == dropped;
  }

  lemma AdvancedFenced(cfg: Config, s: State, t: State, front: multiset<Request>, back: multiset<Request>,
                       front': multiset<Request>, back': multiset<Request>)
    requires Shaped(cfg, s) && s.responses != [] && Advanced(cfg, s, t, front, back, front', back')
    requires forall c :: 0 <= c < |cfg.totals| ==> s.rounds[c] <= cfg.totals[c]
    requires var c := s.responses[0].request.client; s.rounds[c] == s.barrierRound < cfg.totals[c]
    requires Fenced(cfg.totals, s.rounds, s.barrierRound, s.barrierDone, false, front, back)
    requires Owned(cfg.totals, t.rounds, t.history, t.dropped, front' + back')
    ensures Fenced(cfg.totals, t.rounds, s.barrierRound, s.barrierDone + 1,
                   s.barrierDone + 1 == CountAbove(cfg.totals, s.barrierRound), front', back')
  {
    hide Fenced, Owned, CountAbove, NextHistory;
    var c := s.responses[0].request.client;
    var more := s.rounds[c] + 1 < cfg.totals[c];
    var h := NextHistory(s, c, s.responses[0].output, more);
    var extra := if more then multiset{Request(c, s.rounds[c] + 1, h)} else multiset{};
    FencedArrive(cfg.totals, s.rounds, s.barrierRound, s.barrierDone, front, back, front', back',
                 c, s.responses[0].request, extra, t.history, t.dropped);
  }

  lemma OkFenced(cfg: Config, s: State)
    requires Inv(cfg, s) && Enabled(cfg, s, Handle) && s.responses[0].ok && cfg.barrier
    requires var t := Apply(cfg, s, Handle);
             && Shaped(cfg, t) && Advanced(cfg, s, t, Front(s), Back(s), Front(t), Back(t))
             && Owned(cfg.totals, t.rounds, t.history, t.dropped, Front(t) + Back(t))
    ensures var t := Apply(cfg, s, Handle);
            Fenced(cfg.totals, t.rounds, t.barrierRound, t.barrierDone, t.handler.Releasing?, Front(t), Back(t))
  {
    hide Front, Back;
    var t := Apply(cfg, s, Handle);
    assert Fenced(cfg.totals, t.rounds, s.barrierRound, s.barrierDone + 1,
                  s.barrierDone + 1 == CountAbove(cfg.totals, s.barrierRound), Front(t), Back(t)) by {
      HeadCurrent(cfg, s);
      HeadRound(cfg, s);
      AdvancedFenced(cfg, s, t, Front(s), Back(s), Front(t), Back(t));
    }
    OkBarrier(cfg, s);
  }

  lemma OkBarrier(cfg: Config, s: State)
    requires Inv(cfg, s) && Enabled(cfg, s, Handle) && s.responses[0].ok && cfg.barrier
    ensures var t := Apply(cfg, s, Handle);
            && t.barrierRound == s.barrierRound && t.barrierDone == s.barrierDone + 1
            && (t.handler.Releasing? <==> t.barrierDone == CountAbove(cfg.totals, s.barrierRound))
  {
    HeadCurrent(cfg, s);
    HeadRound(cfg, s);
    NeedsDraw(cfg.totals, s.rounds, s.responses[0].request.client);
    HandleOkBarrier(cfg, s);
  }

  lemma HandleOkInv(cfg: Config, s: State)
    requires Inv(cfg, s) && Enabled(cfg, s, Handle) && s.responses[0].ok
    ensures Inv(cfg, Apply(cfg, s, Handle))
  {
    var t := Apply(cfg, s, Handle);
    HeadCurrent(cfg, s);
    OkHandled(cfg, s);
    OkAdvanced(cfg, s);
    AdvancedOwned(cfg, s, t, Front(s), Back(s), Front(t), Back(t));
    if cfg.barrier {
      OkFenced(cfg, s);
    }
  }

  // ---------------------------------------------------------------------------
  // Every step, every run

  lemma StepInv(cfg: Config, s: State, step: Step)
    requires Inv(cfg, s) && Enabled(cfg, s, step)
    ensures Inv(cfg, Apply(cfg, s, step))
  {
    match step
    case Pop(k) => PopInv(cfg, s, k);
    case Launch => LaunchInv(cfg, s);
    case Count(_, _, _) => RespondInv(cfg, s, step);
    case Put => RespondInv(cfg, s, step);
    case Raise(_) => RespondInv(cfg, s, step);
    case Handle => if s.responses[0].ok { HandleOkInv(cfg, s); } else { HandleFailInv(cfg, s); }
    case Release => ReleaseInv(cfg, s);
    case FinishRelease => FinishReleaseInv(cfg, s);
    case TimeOut => IdleInv(cfg, s, step);
    case CheckDone => IdleInv(cfg, s, step);
    case StopSender => IdleInv(cfg, s, step);
  }

  lemma {:induction false} RunInv(cfg: Config, states: seq<State>, steps: seq<Step>, i: nat)
    requires ValidConfig(cfg) && IsRun(cfg, states, steps) && i <= |steps|
    ensures |states| == |steps| + 1 && Inv(cfg, states[i]) && Shaped(cfg, states[i])
  {
    if i == 0 {
      InitInv(cfg, states[0]);
    } else {
      RunInv(cfg, states, steps, i - 1);
      StepInv(cfg, states[i - 1], steps[i - 1]);
    }
  }

  /** One step of a run, between two states that satisfy the invariant. */
  lemma RunStep(cfg: Config, states: seq<State>, steps: seq<Step>, i: nat)
    requires ValidConfig(cfg) && IsRun(cfg, states, steps) && i < |steps|
    ensures |states| == |steps| + 1
    ensures Inv(cfg, states[i]) && Inv(cfg, states[i + 1]) && Shaped(cfg, states[i])
    ensures Enabled(cfg, states[i], steps[i]) && states[i + 1] == Apply(cfg, states[i], steps[i])
  {
    hide Inv, Enabled, Apply;
    RunInv(cfg, states, steps, i);
    RunInv(cfg, states, steps, i + 1);
  }

  lemma RunLength(cfg: Config, states: seq<State>, steps: seq<Step>)
    requires IsRun(cfg, states, steps)
    ensures |states| == |steps| + 1
  {
  }

  /** A run goes on with any step its last state allows. */
  lemma RunExtends(cfg: Config, states: seq<State>, steps: seq<Step>, step: Step, t: State)
    requires ValidConfig(cfg) && IsRun(cfg, states, steps) && Shaped(cfg, states[|steps|])
    requires Enabled(cfg, states[|steps|], step) && t == Apply(cfg, states[|steps|], step)
    ensures IsRun(cfg, states + [t], steps + [step]) && Shaped(cfg, t)
  {
    hide Init, Shaped, Enabled, Apply, Inv;
    var longer, more := states + [t], steps + [step];
    assert longer[0] == states[0];
    RunInv(cfg, longer, more, |more|);
  }
}
