/** Who is put in step with the log, over every run. */
module RelayJoins {
  import opened Prelude
  import opened Turns
  import opened Lockstep
  import opened MatchLogs
  import opened ObserverFeeds
  import opened Relay
  import opened RelayRuns
  import opened RelaySteps
  import opened RelayTheorems

  // ---- two starts, two streams ----

  lemma {:induction false} StreamSeals(log: Log, from: nat, upTo: nat, default: nat)
    requires WellFiled(log)
    ensures SealsOf(Stream(log, from, upTo, default)) == SealRun(log, from, upTo, default)
    decreases upTo
  {
    if upTo > from {
      StreamSeals(log, from, upTo - 1, default);
      OfBlock(log, upTo, default);
      SealsAppend(Stream(log, from, upTo - 1, default), Block(log, upTo, default));
    }
  }

  lemma {:induction false} SealRunHead(log: Log, from: nat, upTo: nat, default: nat)
    requires from < upTo
    ensures SealRun(log, from, upTo, default) != []
    ensures SealRun(log, from, upTo, default)[0] == SealAt(log, from + 1, default)
    decreases upTo
  {
    if upTo > from + 1 {
      SealRunHead(log, from, upTo - 1, default);
    }
  }

  lemma SealRunsDiffer(log: Log, a: nat, b: nat, upTo: nat, default: nat)
    requires a < upTo && a != b
    ensures SealRun(log, a, upTo, default) != SealRun(log, b, upTo, default)
  {
    SealRunHead(log, a, upTo, default);
    if b < upTo {
      SealRunHead(log, b, upTo, default);
    }
  }

  // ---- a peer that stays ----

  /** A step in which nobody comes in. */
  predicate Inside(step: Step) {
    !step.Connect? && !step.Deliver? && !step.Load? && !step.Crash? && !step.Depart?
  }

  lemma InsideKeeps(s: RelayState, step: Step)
    requires Inside(step)
    ensures Next(s, step).sessions == s.sessions && Next(s, step).base == s.base
  {
    hide Stream, DueFlares, SentTo, SealMsgs, TurnRecords, LengthenedRun, AdmitAll, StateHash;
  }

  lemma DepartKeeps(s: RelayState, peer: Peer, length: nat, pace: Option<nat>)
    ensures var s' := Next(s, Depart(peer, length, pace));
            s'.sessions == s.sessions - {peer} && s'.base == if peer in s.sessions then s.base - {peer} else s.base
  {
  }

  lemma StepStays(s: RelayState, step: Step, p: Peer)
    requires RunInv(s) && p in s.sessions && s.sessions[p].role.InGame? && Stays(step, p)
    ensures var s' := Next(s, step);
            && p in s'.sessions && s'.sessions[p] == s.sessions[p]
            && BaseOf(s'.base, p) == BaseOf(s.base, p) && s'.cfg == s.cfg
  {
    hide RunInv;
    if Inside(step) {
      InsideKeeps(s, step);
    } else if step.Depart? {
      DepartKeeps(s, step.peer, step.length, step.pace);
    }
    hide AdvanceFeed, ReleaseLive, SentTo, Disconnected, Stream, Replay;
  }

  lemma {:induction false} RunStays(s: RelayState, steps: seq<Step>, p: Peer)
    requires RunInv(s) && p in s.sessions && s.sessions[p].role.InGame?
    requires forall step | step in steps :: Stays(step, p)
    ensures var s' := Play(s, steps);
            && RunInv(s') && p in s'.sessions && s'.sessions[p] == s.sessions[p]
            && BaseOf(s'.base, p) == BaseOf(s.base, p) && s'.cfg == s.cfg
    decreases |steps|
  {
    if steps != [] {
      assert Stays(steps[0], p) && forall step | step in steps[1..] :: step in steps;
      StepStays(s, steps[0], p);
      StepKeeps(s, steps[0]);
      hide RunInv;
      RunStays(Next(s, steps[0]), steps[1..], p);
    }
  }

  lemma StreamOf(s: RelayState, p: Peer)
    requires RunInv(s) && p in s.sessions && s.sessions[p].role.InGame?
    ensures p in s.base && p in s.out && WellFiled(s.log)
    ensures StreamOk(s.base[p], s.sessions[p].delayed, Game(s.out[p]), s.log, s.turns.ready, s.feed.head,
                     s.cfg.turnLength)
  {
    assert PeerOk(s.sessions[p], s.out[p], BaseOf(s.base, p), s.log, s.turns.ready, s.feed.head, s.cfg.turnLength);
    hide StreamOk, Names, Window, Quiet, JournalOk, JoinsHeld, WellFiled, Game;
  }

  /** A starter that stays is in step with the log from the first turn on. */
  lemma StartersInStep(cfg: Config, starters: map<Peer, Session>, steps: seq<Step>, p: Peer)
    requires Starters(starters) && p in starters && forall step | step in steps :: Stays(step, p)
    ensures var s := Play(Begun(cfg, starters), steps);
            p in s.out
            && if starters[p].delayed
               then Game(s.out[p]) == Stream(s.log, INITIAL_READY_TURN, s.feed.head, cfg.turnLength)
               else InStep(Game(s.out[p]), INITIAL_READY_TURN, s.turns.ready, s.log, cfg.turnLength)
  {
    BegunKeeps(cfg, starters);
    RunStays(Begun(cfg, starters), steps, p);
    StreamOf(Play(Begun(cfg, starters), steps), p);
    hide RunInv, InStep, Stream, Game, Play;
  }

  // ---- when a joiner is in step ----

  /** What a start means: once the feed or the match has moved past it, the
      stream fits the state it was joined to exactly if that state was in time. */
  lemma StartDecides(start: Start, delayed: bool, g: seq<Msg>, log: Log, ready: nat, head: nat, default: nat)
    requires WellFiled(log) && StreamOk(start, delayed, g, log, ready, head, default)
    ensures delayed && head > start.reached ==>
      (g == Stream(log, start.loaded, head, default) <==> start.InTime())
    ensures !delayed && ready > start.reached ==>
      (InStep(g, start.loaded, ready, log, default) <==> start.InTime())
  {
    if !start.InTime() {
      if delayed && head > start.reached {
        StreamSeals(log, start.reached, head, default);
        StreamSeals(log, start.loaded, head, default);
        SealRunsDiffer(log, start.reached, start.loaded, head, default);
      }
      if !delayed && ready > start.reached {
        SealRunsDiffer(log, start.reached, start.loaded, ready, default);
      }
    }
    hide Stream, SealRun, WellFiled;
  }

  /** The answer decides a joiner's start, and whoever it is stays so started. */
  lemma AnswerStarts(s: RelayState, peer: Peer, loaded: nat, tail: seq<Step>)
    requires RunInv(s) && LoadedGame(s, peer, loaded).Ok? && forall step | step in tail :: Stays(step, peer)
    ensures var delayed, s2 := s.sessions[peer].delayed, Play(LoadedGame(s, peer, loaded).value, tail);
            && peer in s2.sessions && s2.sessions[peer].role.InGame? && s2.sessions[peer].delayed == delayed
            && peer in s2.base && peer in s2.out && WellFiled(s2.log) && s2.cfg == s.cfg
            && s2.base[peer] == Start(loaded, if delayed then s.feed.head else s.turns.ready)
            && StreamOk(s2.base[peer], delayed, Game(s2.out[peer]), s2.log, s2.turns.ready, s2.feed.head,
                        s.cfg.turnLength)
  {
    LoadKeeps(s, peer, loaded);
    LoadStarts(s, peer, loaded);
    hide RunInv, LoadedGame, Start.InTime, Start.From, StreamOk, Game, WellFiled;
    RunStays(LoadedGame(s, peer, loaded).value, tail, peer);
    StreamOf(Play(LoadedGame(s, peer, loaded).value, tail), peer);
    hide Play;
  }

  lemma LoadStarts(s: RelayState, peer: Peer, loaded: nat)
    requires LoadedGame(s, peer, loaded).Ok?
    ensures var s1, delayed := LoadedGame(s, peer, loaded).value, s.sessions[peer].delayed;
            && peer in s1.sessions && s1.sessions[peer].role.InGame? && s1.sessions[peer].delayed == delayed
            && s1.cfg == s.cfg && s1.turns.ready == s.turns.ready && s1.feed.head == s.feed.head
            && BaseOf(s1.base, peer) == Some(Start(loaded, if delayed then s.feed.head else s.turns.ready))
  {
    hide Stream, Replay;
  }

  /** A delayed joiner's stream goes on from its own turn exactly when that turn
      was not past the feed's head as it answered. One that answers before its
      JOIN was let out can fail this, and is then sent turns it already has. */
  lemma DelayedJoinExact(s: RelayState, peer: Peer, loaded: nat, tail: seq<Step>)
    requires RunInv(s) && LoadedGame(s, peer, loaded).Ok? && s.sessions[peer].delayed
    requires forall step | step in tail :: Stays(step, peer)
    ensures var s2 := Play(LoadedGame(s, peer, loaded).value, tail);
            && peer in s2.out
            && (loaded > s.feed.head ==>
                  Game(s2.out[peer]) == Stream(s2.log, s.feed.head, s2.feed.head, s.cfg.turnLength))
            && (s2.feed.head > s.feed.head ==>
                  (Game(s2.out[peer]) == Stream(s2.log, loaded, s2.feed.head, s.cfg.turnLength)
                   <==> loaded <= s.feed.head))
  {
    var s2 := Play(LoadedGame(s, peer, loaded).value, tail);
    AnswerStarts(s, peer, loaded, tail);
    StartDecides(Start(loaded, s.feed.head), true, Game(s2.out[peer]), s2.log, s2.turns.ready, s2.feed.head,
                 s.cfg.turnLength);
    hide RunInv, LoadedGame, Stream, Game, Play, WellFiled, InStep;
  }

  /** A live joiner is in step once turns have been released again exactly when
      it loaded a turn that had been released. */
  lemma LiveJoinExact(s: RelayState, peer: Peer, loaded: nat, tail: seq<Step>)
    requires RunInv(s) && LoadedGame(s, peer, loaded).Ok? && !s.sessions[peer].delayed
    requires forall step | step in tail :: Stays(step, peer)
    ensures var s2 := Play(LoadedGame(s, peer, loaded).value, tail);
            && peer in s2.out
            && (loaded > s.turns.ready ==>
                  SealsOf(Game(s2.out[peer])) == SealRun(s2.log, s.turns.ready, s2.turns.ready, s.cfg.turnLength))
            && (s2.turns.ready > s.turns.ready ==>
                  (InStep(Game(s2.out[peer]), loaded, s2.turns.ready, s2.log, s.cfg.turnLength)
                   <==> loaded <= s.turns.ready))
  {
    var s2 := Play(LoadedGame(s, peer, loaded).value, tail);
    AnswerStarts(s, peer, loaded, tail);
    StartDecides(Start(loaded, s.turns.ready), false, Game(s2.out[peer]), s2.log, s2.turns.ready, s2.feed.head,
                 s.cfg.turnLength);
    hide RunInv, LoadedGame, Stream, Game, Play, WellFiled, InStep, SealsOf, SealRun;
  }

  /** A delayed joiner that waited for its JOIN, and a live one handed a state
      no later than the released turn, answer in step, at once and from then on. */
  lemma AnswersInStep(s: RelayState, peer: Peer, loaded: nat, tail: seq<Step>)
    requires RunInv(s) && LoadedGame(s, peer, loaded).Ok? && forall step | step in tail :: Stays(step, peer)
    requires if s.sessions[peer].delayed then peer !in s.feed.joins
             else s.sessions[peer].snapshot.value.1 <= s.turns.ready
    ensures var s2 := Play(LoadedGame(s, peer, loaded).value, tail);
            peer in s2.out
            && if s.sessions[peer].delayed
               then Game(s2.out[peer]) == Stream(s2.log, loaded, s2.feed.head, s.cfg.turnLength)
               else InStep(Game(s2.out[peer]), loaded, s2.turns.ready, s2.log, s.cfg.turnLength)
  {
    AnswerStarts(s, peer, loaded, tail);
    assert JoinsHeld(s.sessions, s.feed);
    hide RunInv, Stream, Game, Play, WellFiled, InStep, SealsOf, SealRun, Entered;
  }

  // ---- an early answer, played out ----

  lemma SoloRelease(t: TurnState, q: Peer)
    requires q in t.clients && t.clients[q].IsPlayer() && !t.clients[q].aiHost
    requires t.clients[q].sealed == t.ready + 1 && forall p | p in t.clients && p != q :: t.clients[p].delayed
    ensures ReleaseCount(t, None, None, false) == 1
  {
    var n := ReleaseCount(t, None, None, false);
    assert Blocks(t.ready, t.clients[q], None) && InWay(t, None, false, q);
    assert t.(ready := t.ready) == t && AheadAt(t, None, false, t.ready);
    ReleaseIsMaximal(t, None, None, false);
    if n > 1 {
      ReleaseIsAllowed(t, None, None, false, t.ready + 1);
      assert InWay(t.(ready := t.ready + 1), None, false, q);
    }
  }

  /** One player, who has sealed no turn ahead; everyone else watches late. */
  predicate Solo(s: RelayState, q: Peer) {
    && !s.held && s.cfg.lag.None? && q in s.sessions && s.sessions[q].seated && q in s.turns.clients
    && s.turns.clients[q].IsPlayer() && !s.turns.clients[q].aiHost
    && s.turns.clients[q].sealed == s.turns.ready
    && forall p | p in s.turns.clients && p != q :: s.turns.clients[p].delayed
  }

  lemma SoloSeal(s: RelayState, q: Peer, length: nat)
    requires Solo(s, q)
    ensures var s' := Next(s, SealUp(q, s.turns.ready + 1, length, None));
            && Solo(s', q) && s'.turns.ready == s.turns.ready + 1
            && s'.turns.clients.Keys == s.turns.clients.Keys
            && s'.log == Lengthened(s.log, s.turns.ready + 1, length)
            && s'.feed.head == Max(s.feed.head, SaturatingSub(s.turns.ready + 1, s.feed.delay))
            && s'.feed.delay == s.feed.delay && s'.sessions == s.sessions && s'.cfg == s.cfg
  {
    hide Stream, DueFlares, SentTo, SealMsgs, TurnRecords, AdmitAll, ReleaseCount, AdvanceFeed;
    var turn := s.turns.ready + 1;
    var s1 := s.(turns := SealTurn(s.turns, q, turn).value);
    SoloRelease(s1.turns, q);
    var s2 := ReleaseLive(s1, length, None);
    assert LengthenedRun(s.log, turn - 1, turn - 1, length) == s.log;
    assert PlayersRemain(s2.sessions);
    SoloAdvance(s2);
  }

  lemma SoloAdvance(s: RelayState)
    requires PlayersRemain(s.sessions)
    ensures var s' := AdvanceFeed(s);
            && s' == s.(feed := s'.feed, out := s'.out) && s'.feed.delay == s.feed.delay
            && s'.feed.head == Max(s.feed.head, SaturatingSub(s.turns.ready, s.feed.delay))
  {
    hide Stream, DueFlares, SentTo, AdmitAll;
  }

  /** A delayed observer comes in, and its JOIN is held. */
  lemma WatcherWaits(s: RelayState, peer: Peer, watcher: Session, lo: nat, hi: nat, snapshot: Bytes)
    requires NewSession(s, peer, watcher) && watcher.delayed && !watcher.seated
    requires PlayersRemain(s.sessions) && Target(s.feed, s.turns.ready, false) <= s.feed.head < hi
    ensures var s2 := Next(Next(s, Connect(peer, watcher)), Deliver(peer, lo, hi, snapshot));
            && s2.sessions == s.sessions[peer := watcher.(snapshot := Some((lo, hi)))] && peer in s2.feed.joins
            && s2.turns == s.turns && s2.log == s.log && s2.cfg == s.cfg && s2.held == s.held
            && s2.feed.head == s.feed.head && s2.feed.delay == s.feed.delay
  {
    var s1 := Connected(s, peer, watcher);
    var s2 := Next(s1, Deliver(peer, lo, hi, snapshot));
    var q :| q in s.sessions && s.sessions[q].seated;
    assert s2.sessions[q].seated;
    hide Stream, DueFlares, SentTo, PlayersRemain;
  }

  lemma PlayOne(s: RelayState, step: Step)
    ensures Play(s, [step]) == Next(s, step)
  {
    hide Next;
    assert [step][1..] == [];
  }

  lemma {:induction false} PlayOn(s: RelayState, a: seq<Step>, b: seq<Step>)
    ensures Play(s, a + b) == Play(Play(s, a), b)
    decreases |a|
  {
    hide Next;
    if a == [] {
      assert a + b == b;
    } else {
      FirstOff(a, b);
      PlayOn(Next(s, a[0]), a[1..], b);
    }
  }

  lemma AnsweredSolo(s: RelayState, peer: Peer, loaded: nat, q: Peer)
    requires LoadedGame(s, peer, loaded).Ok? && s.sessions[peer].delayed && Solo(s, q) && q != peer
    ensures var s1 := LoadedGame(s, peer, loaded).value;
            && Solo(s1, q) && s1.cfg == s.cfg && s1.log == s.log && s1.turns.ready == s.turns.ready
            && s1.feed.head == s.feed.head && s1.feed.delay == s.feed.delay
  {
    hide Stream, SentTo;
  }

  /** Whoever answers early is sent, with the next seal, turns it already has. */
  lemma RepeatedBySeal(s: RelayState, peer: Peer, loaded: nat, s1: RelayState, q: Peer, length: nat)
    requires RunInv(s) && LoadedGame(s, peer, loaded) == Ok(s1) && s.sessions[peer].delayed
    requires Solo(s1, q) && s1.feed.head == s.feed.head < loaded && s1.log == s.log
    requires s1.turns.ready == s.turns.ready && s1.feed.delay == s.feed.delay
    ensures var s2 := Next(s1, SealUp(q, s.turns.ready + 1, length, None));
            peer in s2.out
            && Game(s2.out[peer])
               == Stream(Lengthened(s.log, s.turns.ready + 1, length), s.feed.head,
                         Max(s.feed.head, SaturatingSub(s.turns.ready + 1, s.feed.delay)), s.cfg.turnLength)
  {
    hide RunInv, LoadedGame, Play, Next, Stream, Solo, Game;
    DelayedJoinExact(s, peer, loaded, [SealUp(q, s.turns.ready + 1, length, None)]);
    SoloSeal(s1, q, length);
    PlayOne(s1, SealUp(q, s.turns.ready + 1, length, None));
  }

  lemma OneTurn(log: Log, turn: nat, default: nat)
    requires turn > 0 && For(log, turn) == []
    ensures Stream(log, turn - 1, turn, default) == [Seal(turn, LengthOr(log, turn, default))]
  {
    assert Stream(log, turn - 1, turn - 1, default) == [];
    assert AsMsgs([]) == [];
  }

  const Watched: Config := Config(None, 1, 200, false)

  const Alone: map<Peer, Session> := map[0 := Session(InGame, 0, true, false, false, false, None)]

  const Watcher: Session := Session(Syncing, 1, false, true, true, false, None)

  const ToTheAnswer: seq<Step> := [SealUp(0, 4, 200, None)] + [Connect(1, Watcher)] + [Deliver(1, 3, 4, [])]

  const PastTheAnswer: seq<Step> := ToTheAnswer + [Load(1, 4)] + [SealUp(0, 5, 200, None)]

  lemma FirstSeal()
    ensures var s := Play(Begun(Watched, Alone), [SealUp(0, 4, 200, None)]);
            && Solo(s, 0) && s.sessions == Alone && s.cfg == Watched
            && s.turns.ready == 4 && s.feed.head == 3 && s.feed.delay == 1 && s.log == Lengthened(EmptyLog, 4, 200)
  {
    var s0 := Begun(Watched, Alone);
    SoloSeal(s0, 0, 200);
    hide Next;
    PlayOne(s0, SealUp(0, 4, 200, None));
  }

  /** The watcher may answer with turn 4 while its JOIN is held and the feed
      is still at turn 3. */
  lemma AnswerInReach()
    ensures var s := Play(Begun(Watched, Alone), ToTheAnswer);
            && LoadedGame(s, 1, 4).Ok? && s.sessions[1] == Watcher.(snapshot := Some((3, 4)))
            && Solo(s, 0) && s.cfg == Watched && s.turns.ready == 4
            && s.feed.head == 3 && s.feed.delay == 1 && s.log == Lengthened(EmptyLog, 4, 200)
  {
    hide Play, Next, Begun, Entered;
    var s0 := Begun(Watched, Alone);
    FirstSeal();
    var s1 := Play(s0, [SealUp(0, 4, 200, None)]);
    PlayOn(s0, [SealUp(0, 4, 200, None)] + [Connect(1, Watcher)], [Deliver(1, 3, 4, [])]);
    PlayOn(s0, [SealUp(0, 4, 200, None)], [Connect(1, Watcher)]);
    PlayOne(s1, Connect(1, Watcher));
    PlayOne(Next(s1, Connect(1, Watcher)), Deliver(1, 3, 4, []));
    assert PlayersRemain(s1.sessions) by { assert s1.sessions[0].seated; }
    WatcherWaits(s1, 1, Watcher, 3, 4, []);
  }

  /** A run in which a watcher answers early with turn 4, and is then sent turn
      4 all over again. */
  lemma EarlyAnswerRepeats()
    ensures Starters(Alone)
    ensures var s := Play(Begun(Watched, Alone), PastTheAnswer);
            1 in s.out && Game(s.out[1]) == [Seal(4, 200)]
  {
    hide RunInv, LoadedGame, Play, Begun, Game, Stream, Solo, SealTurn, ReleaseTurns, SentTo, AdvanceFeed;
    var s0 := Begun(Watched, Alone);
    var s := Play(s0, ToTheAnswer);
    BegunKeeps(Watched, Alone);
    RunKeeps(s0, ToTheAnswer);
    AnswerInReach();
    AnsweredSolo(s, 1, 4, 0);
    RepeatedBySeal(s, 1, 4, LoadedGame(s, 1, 4).value, 0, 200);
    OneTurn(Lengthened(s.log, 5, 200), 4, 200);
    assert Next(s, Load(1, 4)) == LoadedGame(s, 1, 4).value;
    hide Next;
    PlayOn(s0, ToTheAnswer + [Load(1, 4)], [SealUp(0, 5, 200, None)]);
    PlayOn(s0, ToTheAnswer, [Load(1, 4)]);
    PlayOne(s, Load(1, 4));
    PlayOne(Next(s, Load(1, 4)), SealUp(0, 5, 200, None));
  }

  // ---- everyone in step ----

  /** A live joiner is handed a state of a released turn, and a delayed one
      answers once its JOIN is out, or with a turn the feed has reached. */
  predicate InOrder(s: RelayState, step: Step) {
    match step
    case Deliver(p, lo, hi, _) => p in s.sessions && !s.sessions[p].delayed ==> hi <= s.turns.ready
    case Load(p, turn) => p in s.sessions && s.sessions[p].delayed ==> p !in s.feed.joins || turn <= s.feed.head
    case _ => true
  }

  ghost predicate RunInOrder(s: RelayState, steps: seq<Step>)
    decreases |steps|
  {
    steps == [] || (InOrder(s, steps[0]) && RunInOrder(Next(s, steps[0]), steps[1..]))
  }

  ghost predicate AllInTime(s: RelayState) {
    && (forall p | p in s.base :: s.base[p].InTime())
    && (forall p | p in s.sessions && s.sessions[p].role.Syncing? && !s.sessions[p].delayed
                   && s.sessions[p].snapshot.Some? :: s.sessions[p].snapshot.value.1 <= s.turns.ready)
  }

  lemma ConnectInTime(s: RelayState, peer: Peer, session: Session)
    requires AllInTime(s)
    ensures AllInTime(Next(s, Connect(peer, session)))
  {
  }

  lemma DeliverInTime(s: RelayState, joiner: Peer, lo: nat, hi: nat, snapshot: Bytes)
    requires AllInTime(s) && InOrder(s, Deliver(joiner, lo, hi, snapshot))
    ensures AllInTime(Delivered(s, joiner, lo, hi, snapshot))
  {
    var s' := Delivered(s, joiner, lo, hi, snapshot);
    assert s'.base == s.base && s'.turns == s.turns;
    assert forall p | p in s'.sessions :: p in s.sessions && (p != joiner ==> s'.sessions[p] == s.sessions[p]);
    hide SentTo, AdvanceFeed;
  }

  lemma LoadInTime(s: RelayState, peer: Peer, turn: nat)
    requires JoinsHeld(s.sessions, s.feed) && AllInTime(s) && InOrder(s, Load(peer, turn))
    requires LoadedGame(s, peer, turn).Ok?
    ensures AllInTime(LoadedGame(s, peer, turn).value)
  {
    var s' := LoadedGame(s, peer, turn).value;
    var reached := if s.sessions[peer].delayed then s.feed.head else s.turns.ready;
    LoadStarts(s, peer, turn);
    LoadedRest(s, peer, turn);
    assert turn <= reached;
    hide LoadedGame, InOrder, JoinsHeld;
  }

  lemma LoadedRest(s: RelayState, peer: Peer, turn: nat)
    requires LoadedGame(s, peer, turn).Ok?
    ensures var s' := LoadedGame(s, peer, turn).value;
            && s'.turns.ready == s.turns.ready
            && s'.sessions.Keys == s.sessions.Keys && s'.base.Keys == s.base.Keys + {peer}
            && (forall p | p in s.sessions && p != peer :: s'.sessions[p] == s.sessions[p])
            && (forall p | p in s.base && p != peer :: s'.base[p] == s.base[p])
  {
    hide Stream, Replay, SentTo;
  }

  lemma StepInTime(s: RelayState, step: Step)
    requires RunInv(s) && AllInTime(s) && InOrder(s, step)
    ensures AllInTime(Next(s, step))
  {
    assert JoinsHeld(s.sessions, s.feed);
    if step.Connect? {
      ConnectInTime(s, step.peer, step.session);
    } else if step.Deliver? {
      DeliverInTime(s, step.peer, step.lo, step.hi, step.snapshot);
    } else if step.Load? {
      if LoadedGame(s, step.peer, step.turn).Ok? {
        LoadInTime(s, step.peer, step.turn);
      }
    } else if !step.Crash? {
      StepFrozen(s, step);
      if step.Depart? {
        DepartKeeps(s, step.peer, step.length, step.pace);
      } else {
        InsideKeeps(s, step);
      }
      hide Next, Start.InTime;
    }
    hide RunInv;
  }

  lemma {:induction false} RunInTime(s: RelayState, steps: seq<Step>)
    requires RunInv(s) && AllInTime(s) && RunInOrder(s, steps)
    ensures AllInTime(Play(s, steps))
    decreases |steps|
  {
    if steps != [] {
      StepInTime(s, steps[0]);
      StepKeeps(s, steps[0]);
      hide RunInv, AllInTime;
      RunInTime(Next(s, steps[0]), steps[1..]);
    }
  }

  /** In any run a client in game has been sent what its start says, and in a
      run in order every start is in time. */
  lemma AnyRun(cfg: Config, starters: map<Peer, Session>, steps: seq<Step>, p: Peer)
    requires Starters(starters)
    ensures var s := Play(Begun(cfg, starters), steps);
            && s.cfg == cfg && s.feed.head <= s.turns.ready
            && (p in s.sessions && s.sessions[p].role.InGame? ==>
                  && p in s.base && p in s.out && WellFiled(s.log)
                  && (RunInOrder(Begun(cfg, starters), steps) ==> s.base[p].InTime())
                  && StreamOk(s.base[p], s.sessions[p].delayed, Game(s.out[p]), s.log, s.turns.ready,
                              s.feed.head, cfg.turnLength))
  {
    BegunKeeps(cfg, starters);
    assert AllInTime(Begun(cfg, starters));
    if RunInOrder(Begun(cfg, starters), steps) {
      RunInTime(Begun(cfg, starters), steps);
    }
    RunKeeps(Begun(cfg, starters), steps);
    SameConfig(Begun(cfg, starters), steps);
    var s := Play(Begun(cfg, starters), steps);
    if p in s.sessions && s.sessions[p].role.InGame? {
      StreamOf(s, p);
    }
    assert Base(s);
    hide RunInv, Play, StreamOk, Streams, Roster, Names, LogOk, Start.InTime, RunInOrder, WellFiled;
  }

  /** Join replay joins the live stream, in any run: a live client in game,
      starter or joiner, is in step with the log from the turn it loaded on
      exactly if that turn had been released as it answered; and in a run in
      order it always had. */
  lemma JoinReplaySeamless(cfg: Config, starters: map<Peer, Session>, steps: seq<Step>, p: Peer)
    requires Starters(starters)
    ensures var s := Play(Begun(cfg, starters), steps);
            p in s.sessions && s.sessions[p].role.InGame? && !s.sessions[p].delayed ==>
              && p in s.out && p in s.base
              && var start, g := s.base[p], Game(s.out[p]);
                 && (RunInOrder(Begun(cfg, starters), steps) ==> start.loaded <= start.reached)
                 && (start.loaded <= start.reached ==>
                       InStep(g, start.loaded, s.turns.ready, s.log, cfg.turnLength))
                 && (start.loaded > start.reached && s.turns.ready > start.reached ==>
                       !InStep(g, start.loaded, s.turns.ready, s.log, cfg.turnLength))
  {
    AnyRun(cfg, starters, steps, p);
    var s := Play(Begun(cfg, starters), steps);
    hide Play, InStep, Stream, Game, RunInOrder, WellFiled;
    if p in s.sessions && s.sessions[p].role.InGame? && !s.sessions[p].delayed {
      StartDecides(s.base[p], false, Game(s.out[p]), s.log, s.turns.ready, s.feed.head, cfg.turnLength);
    }
  }

  /** The delayed feed refines the live stream, in any run: a delayed observer in
      game has been sent exactly the log from the turn it loaded to the feed's
      head, turn by turn, or from where the feed was as it answered if it had
      loaded a later turn; in a run in order it never had. */
  lemma DelayedFeedRefines(cfg: Config, starters: map<Peer, Session>, steps: seq<Step>, p: Peer)
    requires Starters(starters)
    ensures var s := Play(Begun(cfg, starters), steps);
            && s.feed.head <= s.turns.ready
            && (p in s.sessions && s.sessions[p].role.InGame? && s.sessions[p].delayed ==>
                  && p in s.out && p in s.base
                  && var start := s.base[p];
                     && (RunInOrder(Begun(cfg, starters), steps) ==> start.loaded <= start.reached)
                     && start.reached <= s.feed.head
                     && Game(s.out[p])
                        == Stream(s.log, Min(start.loaded, start.reached), s.feed.head, cfg.turnLength))
  {
    AnyRun(cfg, starters, steps, p);
    hide Play, InStep, Stream, Game, RunInOrder;
  }
}
