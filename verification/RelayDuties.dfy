/** What the relay must do, step by step and over whole runs: which commands get
    into the log, who is sent what, and that nothing is held back for longer than
    its reason lasts. */
module RelayDuties {
  import opened Prelude
  import opened Turns
  import opened Lockstep
  import opened MatchLogs
  import opened ObserverFeeds
  import opened Relay
  import opened RelayRuns
  import opened RelaySteps
  import opened RelayTheorems
  import opened RelayJoins

  // ---- commands ----

  /** A command that counts: admitted, from a peer in game, for one of the four
      turns after the released one. */
  predicate Counts(s: RelayState, peer: Peer, c: Command, admitted: bool) {
    && admitted && peer in s.sessions && s.sessions[peer].role.InGame?
    && s.turns.ready < c.turn <= s.turns.ready + 4
  }

  function TakenFor(s: RelayState, step: Step, turn: nat): seq<Command> {
    if step.Say? && step.command.turn == turn && Counts(s, step.peer, step.command, step.admitted)
    then [step.command] else []
  }

  ghost function TakenOver(s: RelayState, steps: seq<Step>, turn: nat): seq<Command>
    decreases |steps|
  {
    if steps == [] then [] else TakenFor(s, steps[0], turn) + TakenOver(Next(s, steps[0]), steps[1..], turn)
  }

  lemma ReleaseKeepsCommands(s: RelayState, length: nat, pace: Option<nat>)
    ensures ReleaseTurns(s, length, pace).log.commands == s.log.commands
  {
    if !s.held {
      var upTo := Release(s.turns, s.cfg.lag, pace).ready;
      RunLengths(s.log, s.turns.ready, upTo, length);
    }
    hide Stream, DueFlares, SentTo, SealMsgs, TurnRecords, LengthenedRun, AdmitAll, PlayersRemain, ReleaseCount;
  }

  lemma StepTakes(s: RelayState, step: Step, turn: nat)
    requires !step.Crash?
    ensures For(Next(s, step).log, turn) == For(s.log, turn) + TakenFor(s, step, turn)
  {
    hide ReleaseTurns, SentTo, LivePeers;
    match step {
      case SealUp(peer, t, length, pace) =>
        if TurnSealed(s, peer, t, length, pace).Ok? {
          ReleaseKeepsCommands(s.(turns := SealTurn(s.turns, peer, t).value), length, pace);
        }
      case Tick(length, pace) => ReleaseKeepsCommands(s, length, pace);
      case Unhold(length, pace) => ReleaseKeepsCommands(s.(held := false), length, pace);
      case Depart(peer, length, pace) => ReleaseKeepsCommands(Gone(s, peer), length, pace);
      case _ =>
        hide Stream, Replay, DueFlares, AdmitAll, PlayersRemain, StateHash;
    }
  }

  /** Over any run without a crash, a turn's commands in the log are exactly those
      that counted, in the order they came. */
  lemma {:induction false} LogIsWhatCounted(s: RelayState, steps: seq<Step>, turn: nat)
    requires forall step | step in steps :: !step.Crash?
    ensures For(Play(s, steps).log, turn) == For(s.log, turn) + TakenOver(s, steps, turn)
    decreases |steps|
  {
    if steps == [] {
      assert For(s.log, turn) + [] == For(s.log, turn);
    } else {
      assert steps[0] in steps && forall step | step in steps[1..] :: step in steps;
      StepTakes(s, steps[0], turn);
      hide Next, TakenFor, For;
      LogIsWhatCounted(Next(s, steps[0]), steps[1..], turn);
      Assoc(For(s.log, turn), TakenFor(s, steps[0], turn), TakenOver(Next(s, steps[0]), steps[1..], turn));
    }
  }

  /** A command that counts goes to every live client in game, its sender too, and
      to nobody else; one that does not changes nothing. */
  lemma CommandReaches(s: RelayState, peer: Peer, c: Command, admitted: bool, p: Peer)
    requires RunInv(s) && p in s.sessions
    ensures var s' := Next(s, Say(peer, c, admitted));
            && p in s'.out && s'.sessions == s.sessions
            && s'.out[p] == s.out[p]
                            + (if Counts(s, peer, c, admitted) && s.sessions[p].role.InGame? && !s.sessions[p].delayed
                               then [Cmd(c)] else [])
            && (!Counts(s, peer, c, admitted) ==> s' == s)
  {
    Audience(s);
    assert s.out[p] + [] == s.out[p];
    hide RunInv, Streams;
  }

  // ---- seals and hashes ----

  /** A client's next seal is taken as long as it is at most four turns ahead, and
      nothing else is. */
  lemma SealTaken(s: RelayState, peer: Peer, turn: nat, length: nat, pace: Option<nat>)
    ensures TurnSealed(s, peer, turn, length, pace).Ok?
       <==> peer in s.turns.clients && turn == s.turns.clients[peer].sealed + 1 && turn <= s.turns.ready + 4
    ensures TurnSealed(s, peer, turn, length, pace).Ok? ==>
      var s' := TurnSealed(s, peer, turn, length, pace).value;
      s'.turns == s.turns.(ready := s'.turns.ready,
                           clients := s.turns.clients[peer := s.turns.clients[peer].(sealed := turn)])
  {
    hide Stream, DueFlares, SentTo, SealMsgs, TurnRecords, LengthenedRun, AdmitAll, PlayersRemain, ReleaseCount;
  }

  /** A client's next hash is taken once its turn is released, and nothing else is. */
  lemma HashTaken(s: RelayState, peer: Peer, turn: nat, hash: Hash)
    ensures HashReported(s, peer, turn, hash).Ok?
       <==> peer in s.turns.clients && turn == s.turns.clients[peer].simulated + 1 && turn <= s.turns.ready
  {
    hide Compare, CompareObserver, ReferenceMayCome, Filed;
  }

  /** A step that lets the match go on: the seal, tick, departure or restart after
      which turns are released. */
  predicate LetsOn(s: RelayState, step: Step) {
    match step
    case SealUp(peer, turn, length, pace) => !s.held && TurnSealed(s, peer, turn, length, pace).Ok?
    case Tick(_, _) => !s.held
    case Depart(peer, _, _) => !s.held && peer in s.sessions
    case Unhold(_, _) => true
    case _ => false
  }

  function PaceOf(step: Step): Option<nat>
    requires step.SealUp? || step.Tick? || step.Depart? || step.Unhold?
  {
    step.pace
  }

  /** The clients as a step leaves them. */
  function ClientsAfter(s: RelayState, step: Step): map<Peer, Client> {
    match step
    case SealUp(peer, turn, _, _) =>
      if peer in s.turns.clients then s.turns.clients[peer := s.turns.clients[peer].(sealed := turn)]
      else s.turns.clients
    case Depart(peer, _, _) => s.turns.clients - {peer}
    case _ => s.turns.clients
  }

  lemma ReleaseStopsWhereSomebodyLags(s: RelayState, length: nat, pace: Option<nat>)
    requires !s.held && Paced(s.turns, pace.Some?)
    ensures var s' := ReleaseTurns(s, length, pace);
            && s'.turns == s.turns.(ready := s'.turns.ready) && s'.turns.ready >= s.turns.ready
            && (forall p, t: nat | p in s.turns.clients && s.turns.ready <= t < s'.turns.ready ::
                  !Lags(s.turns.clients[p], s.cfg.lag, t))
            && (pace.Some? ==> s'.turns.ready - s.turns.ready <= pace.value)
            && (pace == Some(s'.turns.ready - s.turns.ready)
                || exists p | p in s.turns.clients :: Lags(s.turns.clients[p], s.cfg.lag, s'.turns.ready))
  {
    ReleaseExactly(s.turns, s.cfg.lag, pace, pace.Some?);
    hide Stream, DueFlares, SentTo, SealMsgs, TurnRecords, LengthenedRun, AdmitAll, PlayersRemain, ReleaseCount, Paced;
  }

  /** Each such step releases every turn up to the first one somebody lags
      behind, or as many as the clock allows. */
  lemma StepReleases(s: RelayState, step: Step)
    requires LetsOn(s, step) && Paced(s.turns.(clients := ClientsAfter(s, step)), step.pace.Some?)
    ensures var s', clients, from := Next(s, step), ClientsAfter(s, step), s.turns.ready;
            && s'.turns.ready >= from && !s'.held
            && (forall p, t: nat | p in clients && from <= t < s'.turns.ready :: !Lags(clients[p], s.cfg.lag, t))
            && (step.pace.Some? ==> s'.turns.ready - from <= step.pace.value)
            && (step.pace == Some(s'.turns.ready - from)
                || exists p | p in clients :: Lags(clients[p], s.cfg.lag, s'.turns.ready))
  {
    hide ReleaseTurns, Paced, Lags;
    match step {
      case SealUp(peer, turn, length, pace) =>
        var t := SealTurn(s.turns, peer, turn).value;
        assert t == s.turns.(clients := ClientsAfter(s, step));
        StaysOpen(s.(turns := t), length, pace);
        ReleaseStopsWhereSomebodyLags(s.(turns := t), length, pace);
      case Tick(length, pace) =>
        assert s.turns == s.turns.(clients := ClientsAfter(s, step));
        StaysOpen(s, length, pace);
        ReleaseStopsWhereSomebodyLags(s, length, pace);
      case Unhold(length, pace) =>
        assert s.turns == s.turns.(clients := ClientsAfter(s, step));
        StaysOpen(s.(held := false), length, pace);
        ReleaseStopsWhereSomebodyLags(s.(held := false), length, pace);
      case Depart(peer, length, pace) => DepartReleases(s, peer, length, pace);
    }
  }

  lemma StaysOpen(s: RelayState, length: nat, pace: Option<nat>)
    ensures ReleaseTurns(s, length, pace).held == s.held
  {
    hide Stream, DueFlares, SentTo, SealMsgs, TurnRecords, LengthenedRun, AdmitAll, PlayersRemain, ReleaseCount;
  }

  lemma DepartReleases(s: RelayState, peer: Peer, length: nat, pace: Option<nat>)
    requires !s.held && peer in s.sessions && Paced(s.turns.(clients := s.turns.clients - {peer}), pace.Some?)
    ensures var s', clients, from := Next(s, Depart(peer, length, pace)), s.turns.clients - {peer}, s.turns.ready;
            && s'.turns.ready >= from && !s'.held
            && (forall p, t: nat | p in clients && from <= t < s'.turns.ready :: !Lags(clients[p], s.cfg.lag, t))
            && (pace.Some? ==> s'.turns.ready - from <= pace.value)
            && (pace == Some(s'.turns.ready - from)
                || exists p | p in clients :: Lags(clients[p], s.cfg.lag, s'.turns.ready))
  {
    var gone := Gone(s, peer);
    assert Paced(gone.turns, pace.Some?);
    assert gone.turns.clients == s.turns.clients - {peer} && gone.turns.ready == s.turns.ready && gone.cfg == s.cfg;
    hide ReleaseTurns, Paced, Lags, Gone, Next;
    StaysOpen(gone, length, pace);
    ReleaseStopsWhereSomebodyLags(gone, length, pace);
    DepartShape(s, peer, length, pace);
  }

  // ---- the delayed feed and the joiners it holds ----

  /** The feed is where it should be, and holds only joiners it has not reached. */
  ghost predicate FeedTimely(s: RelayState) {
    && s.feed.delay == s.cfg.delay
    && s.feed.head >= SaturatingSub(s.turns.ready, s.cfg.delay)
    && (!s.held && (forall p | p in s.sessions :: !s.sessions[p].seated) ==> s.feed.head >= s.turns.ready)
    && (forall p | p in s.feed.joins :: s.feed.joins[p].bound > s.feed.head)
  }

  lemma AdvanceTimely(s: RelayState)
    requires s.feed.delay == s.cfg.delay
    ensures FeedTimely(AdvanceFeed(s))
  {
    hide Stream, DueFlares, SentTo, AdmitAll;
  }

  lemma ReleaseTimely(s: RelayState, length: nat, pace: Option<nat>)
    requires s.feed.delay == s.cfg.delay && (s.held ==> FeedTimely(s))
    ensures FeedTimely(ReleaseTurns(s, length, pace))
  {
    if !s.held {
      hide FeedTimely, AdvanceFeed;
      AdvanceTimely(ReleaseLive(s, length, pace));
    }
  }

  lemma GoneTimely(s: RelayState, peer: Peer)
    requires FeedTimely(s) && s.held
    ensures FeedTimely(Gone(s, peer))
  {
  }

  lemma DepartTimely(s: RelayState, peer: Peer, length: nat, pace: Option<nat>)
    requires FeedTimely(s)
    ensures FeedTimely(Next(s, Depart(peer, length, pace)))
  {
    if peer in s.sessions {
      if s.held {
        GoneTimely(s, peer);
      }
      assert Gone(s, peer).feed.delay == s.cfg.delay;
      hide ReleaseTurns, Gone, Next;
      ReleaseTimely(Gone(s, peer), length, pace);
      DepartShape(s, peer, length, pace);
    }
  }

  lemma FeedSame(s: RelayState, s': RelayState)
    requires FeedTimely(s) && s'.feed.delay == s.feed.delay && s'.feed.head == s.feed.head
    requires s'.turns.ready == s.turns.ready && s'.cfg == s.cfg && s'.held == s.held
    requires forall p | p in s'.feed.joins :: p in s.feed.joins && s'.feed.joins[p] == s.feed.joins[p]
    requires forall p | p in s.sessions :: p in s'.sessions && s'.sessions[p].seated == s.sessions[p].seated
    ensures FeedTimely(s')
  {
  }

  lemma ConnectTimely(s: RelayState, peer: Peer, session: Session)
    requires FeedTimely(s)
    ensures FeedTimely(Next(s, Connect(peer, session)))
  {
    hide FeedTimely;
    FeedSame(s, Next(s, Connect(peer, session)));
  }

  lemma LoadTimely(s: RelayState, peer: Peer, turn: nat)
    requires FeedTimely(s)
    ensures FeedTimely(Next(s, Load(peer, turn)))
  {
    hide FeedTimely, Stream, Replay, SentTo;
    FeedSame(s, Next(s, Load(peer, turn)));
  }

  lemma StepTimely(s: RelayState, step: Step)
    requires RunInv(s) && FeedTimely(s)
    ensures FeedTimely(Next(s, step))
  {
    hide ReleaseTurns, AdvanceFeed, SentTo, RunInv;
    match step {
      case Deliver(joiner, lo, hi, snapshot) =>
        if joiner in s.sessions && s.sessions[joiner].role.Syncing? {
          var s1 := s.(sessions := s.sessions[joiner := s.sessions[joiner].(snapshot := Some((lo, hi)))]);
          AdvanceTimely(s1.(feed := Holding(s.feed, joiner, hi, snapshot)));
          SameSeats(s, joiner, (lo, hi));
        }
      case SealUp(peer, turn, length, pace) =>
        if TurnSealed(s, peer, turn, length, pace).Ok? {
          ReleaseTimely(s.(turns := SealTurn(s.turns, peer, turn).value), length, pace);
        }
      case Tick(length, pace) => ReleaseTimely(s, length, pace);
      case Unhold(length, pace) => ReleaseTimely(s.(held := false), length, pace);
      case Depart(peer, length, pace) => DepartTimely(s, peer, length, pace);
      case Crash(cut, unixMs) => hide RebuiltLog, RebuiltHashes, LastTurn;
      case Hashed(peer, turn, hash) =>
        if HashReported(s, peer, turn, hash).Ok? {
          ReportedClients(s.turns, peer, turn, hash);
        }
        hide StateHash;
      case Say(_, _, _) =>
      case Signal(_, _) =>
      case Stop(_) =>
      case Connect(peer, session) => ConnectTimely(s, peer, session);
      case Load(peer, turn) => LoadTimely(s, peer, turn);
    }
  }

  lemma SameSeats(s: RelayState, joiner: Peer, range: (nat, nat))
    requires joiner in s.sessions && FeedTimely(s)
    ensures FeedTimely(s.(sessions := s.sessions[joiner := s.sessions[joiner].(snapshot := Some(range))]))
  {
    var sessions := s.sessions[joiner := s.sessions[joiner].(snapshot := Some(range))];
    assert forall p | p in s.sessions :: p in sessions && sessions[p].seated == s.sessions[p].seated;
  }

  lemma {:induction false} RunTimely(s: RelayState, steps: seq<Step>)
    requires RunInv(s) && FeedTimely(s)
    ensures FeedTimely(Play(s, steps))
    decreases |steps|
  {
    if steps != [] {
      StepTimely(s, steps[0]);
      StepKeeps(s, steps[0]);
      hide RunInv, FeedTimely, Next;
      RunTimely(Next(s, steps[0]), steps[1..]);
    }
  }

  /** In every state of every run the feed is no further behind than its delay,
      has caught up if no player remains, and holds no joiner it has reached. */
  lemma FeedKeepsUp(cfg: Config, starters: map<Peer, Session>, steps: seq<Step>)
    requires Starters(starters)
    ensures FeedTimely(Play(Begun(cfg, starters), steps))
  {
    BegunKeeps(cfg, starters);
    RunTimely(Begun(cfg, starters), steps);
  }

  /** The JOIN a step finds held for a peer, or holds itself. */
  function HeldFor(s: RelayState, step: Step, p: Peer): Option<HeldJoin> {
    if step.Deliver? && step.peer == p then Some(HeldJoin(step.hi, step.snapshot))
    else if p in s.feed.joins then Some(s.feed.joins[p]) else None
  }

  /** A delayed joiner that has not answered yet. */
  predicate Syncing(s: RelayState, p: Peer) {
    && p in s.sessions && s.sessions[p].role.Syncing? && s.sessions[p].delayed
    && p in s.out && p !in s.turns.clients
  }

  /** One step, seen by a delayed joiner that is still syncing: its JOIN goes out
      once, the moment the feed has reached its state, and is held until then;
      it is sent nothing else. */
  ghost predicate JoinGoesOut(s: RelayState, s': RelayState, p: Peer, held: Option<HeldJoin>)
    requires p in s.out
  {
    && p in s'.sessions && s'.sessions[p].role.Syncing? && s'.sessions[p].delayed && p in s'.out
    && s'.out[p] == s.out[p] + (if held.Some? && held.value.bound <= s'.feed.head
                                then [Join(held.value.snapshot)] else [])
    && (p in s'.feed.joins <==> held.Some? && held.value.bound > s'.feed.head)
    && (p in s'.feed.joins ==> s'.feed.joins[p] == held.value)
  }

  lemma AdvanceGoesOut(s: RelayState, p: Peer)
    requires Syncing(s, p)
    ensures JoinGoesOut(s, AdvanceFeed(s), p, if p in s.feed.joins then Some(s.feed.joins[p]) else None)
  {
    var f := Advanced(s.feed, s.turns.ready, !PlayersRemain(s.sessions));
    var due := Stream(s.log, s.feed.head, f.head, s.cfg.turnLength) + Flares(DueFlares(f));
    assert SentTo(s.out, DelayedPeers(s.turns), due)[p] == s.out[p];
    assert s.out[p] + [] == s.out[p];
    hide Stream, DueFlares, Flares, PlayersRemain;
  }

  lemma QuietGoesOut(s: RelayState, s': RelayState, p: Peer)
    requires Syncing(s, p)
    requires p in s'.sessions && s'.sessions[p] == s.sessions[p] && p in s'.out && s'.out[p] == s.out[p]
    requires s'.feed.head == s.feed.head && (p in s'.feed.joins <==> p in s.feed.joins)
    requires p in s.feed.joins ==> s'.feed.joins[p] == s.feed.joins[p] && s.feed.joins[p].bound > s.feed.head
    ensures JoinGoesOut(s, s', p, if p in s.feed.joins then Some(s.feed.joins[p]) else None)
  {
    assert s.out[p] + [] == s.out[p];
  }

  lemma ReleaseGoesOut(s: RelayState, p: Peer, length: nat, pace: Option<nat>)
    requires Syncing(s, p)
    requires p in s.feed.joins ==> s.feed.joins[p].bound > s.feed.head
    ensures JoinGoesOut(s, ReleaseTurns(s, length, pace), p,
                        if p in s.feed.joins then Some(s.feed.joins[p]) else None)
  {
    if s.held {
      QuietGoesOut(s, s, p);
    } else {
      var live := ReleaseLive(s, length, pace);
      assert live.out[p] == s.out[p] && live.feed == s.feed && live.sessions == s.sessions
             && live.turns.clients == s.turns.clients by {
        hide SealMsgs, TurnRecords, LengthenedRun, ReleaseCount;
      }
      hide ReleaseLive, AdvanceFeed;
      AdvanceGoesOut(live, p);
    }
  }

  lemma InsideGoesOut(s: RelayState, step: Step, p: Peer)
    requires Syncing(s, p) && (p in s.feed.joins ==> s.feed.joins[p].bound > s.feed.head)
    requires step.Say? || step.Hashed? || step.Signal? || step.Stop?
    ensures JoinGoesOut(s, Next(s, step), p, if p in s.feed.joins then Some(s.feed.joins[p]) else None)
  {
    hide JoinGoesOut;
    assert p !in LivePeers(s) && p !in DelayedPeers(s.turns);
    var s' := Next(s, step);
    assert p in s'.sessions && s'.sessions[p] == s.sessions[p] && p in s'.out && s'.out[p] == s.out[p]
           && s'.feed.head == s.feed.head && s'.feed.joins == s.feed.joins by {
      hide StateHash, LivePeers, DelayedPeers;
    }
    hide Next;
    QuietGoesOut(s, s', p);
  }

  lemma OthersJoining(s: RelayState, step: Step, p: Peer)
    requires Syncing(s, p) && (p in s.feed.joins ==> s.feed.joins[p].bound > s.feed.head)
    requires step.Connect? || (step.Load? && step.peer != p)
    ensures JoinGoesOut(s, Next(s, step), p, if p in s.feed.joins then Some(s.feed.joins[p]) else None)
  {
    hide JoinGoesOut;
    var s' := Next(s, step);
    assert p in s'.sessions && s'.sessions[p] == s.sessions[p] && p in s'.out && s'.out[p] == s.out[p]
           && s'.feed.head == s.feed.head && (p in s'.feed.joins <==> p in s.feed.joins)
           && (p in s.feed.joins ==> s'.feed.joins[p] == s.feed.joins[p]) by {
      hide Stream, Replay, Register, MarkAiHost;
    }
    hide Next;
    QuietGoesOut(s, s', p);
  }

  lemma DeliverGoesOut(s: RelayState, joiner: Peer, lo: nat, hi: nat, snapshot: Bytes, p: Peer)
    requires Syncing(s, p) && (p in s.feed.joins ==> s.feed.joins[p].bound > s.feed.head)
    ensures JoinGoesOut(s, Next(s, Deliver(joiner, lo, hi, snapshot)), p,
                        HeldFor(s, Deliver(joiner, lo, hi, snapshot), p))
  {
    hide AdvanceFeed;
    if joiner in s.sessions && s.sessions[joiner].role.Syncing? && s.sessions[joiner].delayed {
      var s2 := s.(sessions := s.sessions[joiner := s.sessions[joiner].(snapshot := Some((lo, hi)))],
                   feed := Holding(s.feed, joiner, hi, snapshot));
      AdvanceGoesOut(s2, p);
    } else {
      QuietGoesOut(s, Next(s, Deliver(joiner, lo, hi, snapshot)), p);
    }
  }

  lemma DepartGoesOut(s: RelayState, peer: Peer, length: nat, pace: Option<nat>, p: Peer)
    requires Syncing(s, p) && p != peer && (p in s.feed.joins ==> s.feed.joins[p].bound > s.feed.head)
    ensures JoinGoesOut(s, Next(s, Depart(peer, length, pace)), p,
                        if p in s.feed.joins then Some(s.feed.joins[p]) else None)
  {
    if peer in s.sessions {
      var gone := Gone(s, peer);
      assert Syncing(gone, p) && gone.out[p] == s.out[p] && gone.feed.head == s.feed.head
             && (p in gone.feed.joins <==> p in s.feed.joins)
             && (p in s.feed.joins ==> gone.feed.joins[p] == s.feed.joins[p]);
      DepartShape(s, peer, length, pace);
      hide ReleaseTurns, Next, Gone;
      ReleaseGoesOut(gone, p, length, pace);
    } else {
      QuietGoesOut(s, s, p);
    }
  }

  lemma OthersGoOut(s: RelayState, step: Step, p: Peer)
    requires Syncing(s, p) && (p in s.feed.joins ==> s.feed.joins[p].bound > s.feed.head)
    requires Stays(step, p) && !(step.Load? && step.peer == p) && !step.Deliver?
    ensures JoinGoesOut(s, Next(s, step), p, if p in s.feed.joins then Some(s.feed.joins[p]) else None)
  {
    hide Syncing, JoinGoesOut, Next;
    match step {
      case SealUp(peer, turn, length, pace) => SealGoesOut(s, peer, turn, length, pace, p);
      case Tick(length, pace) => TickGoesOut(s, length, pace, p);
      case Unhold(length, pace) => UnholdGoesOut(s, length, pace, p);
      case Depart(peer, length, pace) => DepartGoesOut(s, peer, length, pace, p);
      case Connect(_, _) => OthersJoining(s, step, p);
      case Load(_, _) => OthersJoining(s, step, p);
      case _ => InsideGoesOut(s, step, p);
    }
  }

  lemma StepSendsHeldJoin(s: RelayState, step: Step, p: Peer)
    requires RunInv(s) && FeedTimely(s) && Stays(step, p) && !(step.Load? && step.peer == p)
    requires p in s.sessions && s.sessions[p].role.Syncing? && s.sessions[p].delayed
    ensures p in s.out && JoinGoesOut(s, Next(s, step), p, HeldFor(s, step, p))
  {
    assert Syncing(s, p) && (p in s.feed.joins ==> s.feed.joins[p].bound > s.feed.head);
    hide RunInv, FeedTimely, Syncing, JoinGoesOut, Next;
    if step.Deliver? {
      DeliverGoesOut(s, step.peer, step.lo, step.hi, step.snapshot, p);
    } else {
      OthersGoOut(s, step, p);
    }
  }

  lemma TickGoesOut(s: RelayState, length: nat, pace: Option<nat>, p: Peer)
    requires Syncing(s, p) && (p in s.feed.joins ==> s.feed.joins[p].bound > s.feed.head)
    ensures JoinGoesOut(s, Next(s, Tick(length, pace)), p, if p in s.feed.joins then Some(s.feed.joins[p]) else None)
  {
    hide ReleaseTurns, JoinGoesOut;
    ReleaseGoesOut(s, p, length, pace);
  }

  lemma SealGoesOut(s: RelayState, peer: Peer, turn: nat, length: nat, pace: Option<nat>, p: Peer)
    requires Syncing(s, p) && (p in s.feed.joins ==> s.feed.joins[p].bound > s.feed.head)
    ensures JoinGoesOut(s, Next(s, SealUp(peer, turn, length, pace)), p,
                        if p in s.feed.joins then Some(s.feed.joins[p]) else None)
  {
    hide ReleaseTurns, JoinGoesOut;
    if TurnSealed(s, peer, turn, length, pace).Ok? {
      var sealed := s.(turns := SealTurn(s.turns, peer, turn).value);
      assert peer in s.turns.clients && p !in sealed.turns.clients;
      ReleaseGoesOut(sealed, p, length, pace);
      SameForGoesOut(s, sealed, ReleaseTurns(sealed, length, pace), p);
    } else {
      QuietGoesOut(s, s, p);
    }
  }

  lemma UnholdGoesOut(s: RelayState, length: nat, pace: Option<nat>, p: Peer)
    requires Syncing(s, p) && (p in s.feed.joins ==> s.feed.joins[p].bound > s.feed.head)
    ensures JoinGoesOut(s, Next(s, Unhold(length, pace)), p,
                        if p in s.feed.joins then Some(s.feed.joins[p]) else None)
  {
    hide ReleaseTurns, JoinGoesOut;
    var open := s.(held := false);
    ReleaseGoesOut(open, p, length, pace);
    SameForGoesOut(s, open, ReleaseTurns(open, length, pace), p);
  }

  lemma SameForGoesOut(a: RelayState, b: RelayState, s': RelayState, p: Peer)
    requires p in a.out && p in b.out && a.out[p] == b.out[p] && a.feed == b.feed
    requires JoinGoesOut(b, s', p, if p in b.feed.joins then Some(b.feed.joins[p]) else None)
    ensures JoinGoesOut(a, s', p, if p in a.feed.joins then Some(a.feed.joins[p]) else None)
  {
  }

  // ---- who is told on joining ----

  /** A live joiner is sent its JOIN as soon as its state is there, once; nobody
      else is sent anything. */
  lemma LiveJoinSent(s: RelayState, joiner: Peer, lo: nat, hi: nat, snapshot: Bytes, p: Peer)
    requires RunInv(s) && joiner in s.sessions && s.sessions[joiner].role.Syncing? && !s.sessions[joiner].delayed
    requires p in s.sessions
    ensures var s' := Next(s, Deliver(joiner, lo, hi, snapshot));
            && s'.sessions == s.sessions[joiner := s.sessions[joiner].(snapshot := Some((lo, hi)))]
            && p in s'.out && s'.out[p] == s.out[p] + if p == joiner then [Join(snapshot)] else []
  {
    assert s.out[p] + [] == s.out[p];
    assert p in s.out;
    hide RunInv;
  }

  /** A match begins with turn 3 released and, for each starter, three turns sealed
      and none simulated; each is told so once, by turn 0. */
  lemma MatchBegins(cfg: Config, starters: map<Peer, Session>, p: Peer)
    requires Starters(starters) && p in starters
    ensures var s := Begun(cfg, starters);
            && s.sessions == starters && s.out[p] == [Loaded(0)] && s.saved == [] && !s.held
            && s.turns.ready == s.feed.head == 3 && s.turns.references == map[]
            && s.turns.clients[p].sealed == 3 && s.turns.clients[p].simulated == 0
            && s.turns.clients[p].id == starters[p].id && s.turns.clients.Keys == starters.Keys
  {
  }

  /** A match started over holds still, with nobody there, until it is let on; its
      feed is where the delay puts it, and its save goes on behind a mark. */
  lemma StartsOverHeld(s: RelayState, cut: nat, unixMs: int, length: nat, pace: Option<nat>)
    requires s.cfg.saving && cut <= |s.saved|
    ensures var r := Next(s, Crash(cut, unixMs));
            && r.held && r.sessions == map[] && r.out == map[] && r.turns.clients == map[] && r.cfg == s.cfg
            && r.feed.head == Max(SaturatingSub(r.turns.ready, s.cfg.delay), 3) && r.feed.joins == map[]
            && r.saved == s.saved[..cut] + [ResumedRecord(r.turns.ready, unixMs)]
            && Next(r, Tick(length, pace)) == r
  {
    hide RebuiltLog, RebuiltHashes, LastTurn;
  }

  /** A state handed out, live or delayed, is good for exactly its own turns. */
  lemma RangeIsHandedOut(s: RelayState, joiner: Peer, lo: nat, hi: nat, snapshot: Bytes, loaded: nat)
    requires joiner in s.sessions && s.sessions[joiner].role.Syncing?
    ensures LoadedGame(Next(s, Deliver(joiner, lo, hi, snapshot)), joiner, loaded).Ok? <==> lo <= loaded <= hi
  {
    var s' := Next(s, Deliver(joiner, lo, hi, snapshot));
    assert s'.sessions == s.sessions[joiner := s.sessions[joiner].(snapshot := Some((lo, hi)))] by {
      hide Stream, DueFlares, SentTo, AdmitAll, PlayersRemain;
    }
    hide Next, Entered, Stream, Replay;
  }

  /** A joiner that answers plays on from the turn it was brought to, with three
      turns sealed ahead, under its own id and in its own slot. */
  lemma AnswerRegisters(s: RelayState, peer: Peer, loaded: nat)
    requires LoadedGame(s, peer, loaded).Ok?
    ensures var s1, session := LoadedGame(s, peer, loaded).value, s.sessions[peer];
            var reached := if session.delayed then s.feed.head else s.turns.ready;
            && s1.turns == s.turns.(clients := s.turns.clients[peer := s1.turns.clients[peer]])
            && s1.turns.clients[peer] == Client(session.id, reached + 3, reached, session.observer, session.delayed,
                                                session.aiHost && !session.delayed)
            && s1.sessions == s.sessions[peer := session.(role := InGame, snapshot := None)]
  {
    hide Stream, Replay, SentTo;
  }

  lemma AnswerShape(s: RelayState, peer: Peer, loaded: nat)
    requires LoadedGame(s, peer, loaded).Ok?
    ensures var s1, delayed := LoadedGame(s, peer, loaded).value, s.sessions[peer].delayed;
            s1.out == SentTo(s.out, {peer},
                             (if delayed then Stream(s.log, loaded, s.feed.head, s.cfg.turnLength)
                              else Replay(s.log, loaded, s.turns.ready, Max(s.turns.ready + 1, LastStored(s.log)),
                                          s.cfg.turnLength))
                             + [Loaded(if delayed then s.feed.head else s.turns.ready)])
  {
    hide Stream, Replay, SentTo, Register, MarkAiHost;
  }

  /** A joiner may answer with any turn of the range its state was handed out for,
      and with no other; its answer is met by the replay, and then by the turn it
      has been brought to; nobody else is sent anything. */
  lemma AnswerMet(s: RelayState, peer: Peer, loaded: nat, p: Peer) returns (replay: seq<Msg>)
    requires peer in s.sessions && p in s.out
    requires s.sessions[peer].role.Syncing? && s.sessions[peer].snapshot.Some?
    ensures var range := s.sessions[peer].snapshot.value;
            LoadedGame(s, peer, loaded).Ok? <==> range.0 <= loaded <= range.1
    ensures forall m | m in replay :: m.IsGame()
    ensures LoadedGame(s, peer, loaded).Ok? ==>
      var s1 := LoadedGame(s, peer, loaded).value;
      && p in s1.out
      && s1.out[p] == s.out[p] + if p != peer then []
                                 else replay + [Loaded(if s.sessions[peer].delayed then s.feed.head else s.turns.ready)]
  {
    var head, ready, d := s.feed.head, s.turns.ready, s.cfg.turnLength;
    var upper := Max(ready + 1, LastStored(s.log));
    replay := if s.sessions[peer].delayed then Stream(s.log, loaded, head, d)
              else Replay(s.log, loaded, ready, upper, d);
    StreamIsGame(s.log, loaded, head, d);
    ReplayIsGame(s.log, loaded, ready, upper, d);
    assert LoadedGame(s, peer, loaded).Ok?
      <==> s.sessions[peer].snapshot.value.0 <= loaded <= s.sessions[peer].snapshot.value.1 by {
      hide Entered, Stream, Replay;
    }
    hide LoadedGame, Stream, Replay, LastStored;
    if LoadedGame(s, peer, loaded).Ok? {
      AnswerShape(s, peer, loaded);
      assert s.out[p] + [] == s.out[p];
    }
  }
}
