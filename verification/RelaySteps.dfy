/** What each handler of the relay keeps. */
module RelaySteps {
  import opened Prelude
  import opened Turns
  import opened Lockstep
  import opened MatchLogs
  import opened ObserverFeeds
  import opened Relay
  import opened RelayRuns
  import Agree = HashAgreement

  // ---- the turn manager's part ----

  function AsMatch(t: TurnState): Agree.Match { Agree.Match(t, [], t.references, {}) }

  lemma QuietIsInv(t: TurnState)
    requires Quiet(t)
    ensures Agree.Inv(AsMatch(t))
  {
    assert Agree.Told(AsMatch(t)) == [];
  }

  lemma QuietGrows(t: TurnState, ready: nat)
    requires Quiet(t) && ready >= t.ready
    ensures Quiet(t.(ready := ready))
  {
  }

  lemma ReportedClients(t: TurnState, peer: Peer, turn: nat, hash: Hash)
    requires StateHash(t, peer, turn, hash).Ok?
    ensures var t' := StateHash(t, peer, turn, hash).value.0;
            && peer in t.clients
            && t'.clients == t.clients[peer := t.clients[peer].(simulated := turn)]
            && t'.ready == t.ready
  {
    hide Comparable, Filed, Later, Disagreeing;
  }

  lemma ReportedTurns(t: TurnState, peer: Peer, turn: nat, hash: Hash)
    requires Quiet(t) && turn <= t.ready && StateHash(t, peer, turn, hash).Ok?
    ensures var t' := StateHash(t, peer, turn, hash).value.0;
            && Agree.StateInv(t')
            && Agree.ToldOnce(t'.settled, t.references, t'.references)
            && Agree.Extends(t.references, t'.references)
  {
    QuietIsInv(t);
    Agree.StepInv(AsMatch(t), Agree.Report(peer, turn, hash));
    hide Agree.StateInv, Quiet, StateHash;
    var t' := StateHash(t, peer, turn, hash).value.0;
    assert Agree.Next(AsMatch(t), Agree.Report(peer, turn, hash)).s == t';
    assert [] + t'.settled == t'.settled;
  }

  lemma {:induction false} RecheckKeepsClients(t: TurnState, turns: seq<nat>)
    ensures CompareAll(t, turns).0.clients == t.clients && CompareAll(t, turns).0.ready == t.ready
    decreases |turns|
  {
    if turns != [] {
      RecheckKeepsClients(Compare(t, turns[0]).0, turns[1..]);
    }
  }

  lemma MatchAfter(t: TurnState, o: (TurnState, set<Mismatch>))
    ensures var m := Agree.After(AsMatch(t), o);
            m.s == o.0 && Agree.Told(m) == o.0.settled && m.restored == t.references
    ensures AsMatch(t).s == t && AsMatch(t).restored == t.references
  {
    assert [] + o.0.settled == o.0.settled;
  }

  lemma RecheckedTurns(t: TurnState)
    requires Quiet(t)
    ensures var t' := Recheck(t).0;
            && Agree.StateInv(t')
            && Agree.ToldOnce(t'.settled, t.references, t'.references)
            && Agree.Extends(t.references, t'.references)
            && t'.clients == t.clients && t'.ready == t.ready
  {
    QuietIsInv(t);
    RecheckKeepsClients(t, Sorted(t.pending.Keys));
    var t' := Recheck(t).0;
    assert t'.clients == t.clients && t'.ready == t.ready;
    hide Agree.StateInv, Agree.ToldOnce, Agree.Extends, CompareAll, Quiet, Recheck, AsMatch;
    Agree.StepInv(AsMatch(t), Agree.RecheckAll);
    assert Agree.Next(AsMatch(t), Agree.RecheckAll) == Agree.After(AsMatch(t), Recheck(t));
    hide Agree.Next;
    MatchAfter(t, Recheck(t));
  }

  lemma RosterSwap(sessions: map<Peer, Session>, clients: map<Peer, Client>,
                   clients': map<Peer, Client>, out: map<Peer, seq<Msg>>, base: map<Peer, Start>,
                   joins: map<Peer, HeldJoin>)
    requires Roster(sessions, clients, out, base, joins)
    requires clients'.Keys == clients.Keys
    requires forall p | p in clients ::
      clients'[p].id == clients[p].id && clients'[p].delayed == clients[p].delayed
      && clients'[p].observer == clients[p].observer && clients'[p].aiHost == clients[p].aiHost
    ensures Roster(sessions, clients', out, base, joins)
  {
  }

  lemma HashedWindow(t: TurnState, t': TurnState, lag: Option<nat>)
    requires Window(t, lag) && t'.ready == t.ready && t'.clients.Keys == t.clients.Keys
    requires forall p | p in t.clients ::
      t'.clients[p] == t.clients[p].(simulated := t'.clients[p].simulated)
    ensures Window(t', lag)
  {
  }

  lemma QuietAfter(t: TurnState)
    requires Agree.StateInv(t)
    ensures Quiet(t.(settled := []))
  {
  }

  lemma SavedTurns(s: RelayState, t: TurnState)
    requires RunInv(s) && t.ready == s.turns.ready && t.clients.Keys == s.turns.clients.Keys
    requires forall p | p in t.clients ::
      t.clients[p] == s.turns.clients[p].(simulated := t.clients[p].simulated)
    requires Agree.StateInv(t) && Agree.ToldOnce(t.settled, s.turns.references, t.references)
    requires Agree.Extends(s.turns.references, t.references)
    ensures RunInv(SaveSettled(s.(turns := t)))
  {
    hide Roster, Names, Window, Agree.StateInv, Agree.ToldOnce, LogOk, PeerOk, JoinsHeld, JournalOk;
    RosterSwap(s.sessions, s.turns.clients, t.clients, s.out, s.base, s.feed.joins);
    HashedWindow(s.turns, t, s.cfg.lag);
    HashedWindow(s.turns, t.(settled := []), s.cfg.lag);
    QuietAfter(t);
    SavedJournal(s, t);
  }

  lemma SavedJournal(s: RelayState, t: TurnState)
    requires Base(s) && Quiet(s.turns) && t.ready == s.turns.ready
    requires s.cfg.saving ==> JournalOk(s.saved, s.log, s.turns)
    requires Agree.StateInv(t) && Agree.ToldOnce(t.settled, s.turns.references, t.references)
    requires Agree.Extends(s.turns.references, t.references)
    ensures var s' := SaveSettled(s.(turns := t));
            s'.cfg.saving ==> JournalOk(s'.saved, s'.log, s'.turns)
  {
    SettledOk(s.turns, t);
    if s.cfg.saving {
      hide Roster, Names, LogOk, Agree.StateInv, HashesTimely, HashesAgree;
      SaveSettledKeeps(s.(turns := t), s.turns.references);
    }
  }

  lemma HashKeeps(s: RelayState, peer: Peer, turn: nat, hash: Hash)
    requires RunInv(s) && HashReported(s, peer, turn, hash).Ok?
    ensures RunInv(HashReported(s, peer, turn, hash).value)
  {
    ReportedClients(s.turns, peer, turn, hash);
    ReportedTurns(s.turns, peer, turn, hash);
    SavedTurns(s, StateHash(s.turns, peer, turn, hash).value.0);
  }

  // ---- commands and flares ----

  lemma CommandKeeps(s: RelayState, peer: Peer, c: Command, admitted: bool)
    requires RunInv(s) && PlayerCommand(s, peer, c, admitted).Ok?
    ensures RunInv(PlayerCommand(s, peer, c, admitted).value)
  {
    hide PeerOk, Quiet, Window, JoinsHeld, Names, Stream, InStep, HashesTimely, HashesAgree;
    var s' := PlayerCommand(s, peer, c, admitted).value;
    if s' != s {
      Audience(s);
      forall p | p in s.sessions
        ensures PeerOk(s.sessions[p], s'.out[p], BaseOf(s.base, p), s'.log, s.turns.ready,
                       s.feed.head, s.cfg.turnLength)
      {
        PeerCommand(s.sessions[p], s.out[p], BaseOf(s.base, p), s.log, s.turns.ready, s.feed.head,
                    s.cfg.turnLength, c);
      }
      LoggedSame(s.log, s'.log, s.turns.ready);
    }
  }

  lemma SentOther(s: RelayState, peers: set<Peer>, ms: seq<Msg>)
    requires Base(s) && Streams(s) && forall m | m in ms :: !m.IsGame()
    ensures Streams(s.(out := SentTo(s.out, peers, ms)))
  {
    forall p | p in s.sessions
      ensures PeerOk(s.sessions[p], SentTo(s.out, peers, ms)[p], BaseOf(s.base, p), s.log,
                     s.turns.ready, s.feed.head, s.cfg.turnLength)
    {
      PeerOther(s.sessions[p], s.out[p], ms, BaseOf(s.base, p), s.log, s.turns.ready, s.feed.head,
                s.cfg.turnLength);
    }
  }

  lemma FlareKeeps(s: RelayState, peer: Peer, flare: Flare)
    requires RunInv(s) && FlareRaised(s, peer, flare).Ok?
    ensures RunInv(FlareRaised(s, peer, flare).value)
  {
    hide PeerOk, Names, Window, Agree.StateInv, LogOk, JournalOk;
    SentOther(s, LivePeers(s), [Flared(flare)]);
    SentOther(s.(out := SentTo(s.out, LivePeers(s), [Flared(flare)])), DelayedPeers(s.turns),
              [Flared(flare)]);
  }

  // ---- seals ----

  lemma SealedTurns(t: TurnState, peer: Peer, turn: nat, lag: Option<nat>)
    requires Quiet(t) && Window(t, lag) && turn <= t.ready + COMMAND_DELAY
    requires SealTurn(t, peer, turn).Ok?
    ensures Quiet(SealTurn(t, peer, turn).value) && Window(SealTurn(t, peer, turn).value, lag)
  {
  }

  lemma SealKeeps(s: RelayState, peer: Peer, turn: nat, length: nat, pace: Option<nat>)
    requires RunInv(s) && TurnSealed(s, peer, turn, length, pace).Ok?
    ensures RunInv(TurnSealed(s, peer, turn, length, pace).value)
  {
    hide Names, LogOk, PeerOk, JoinsHeld;
    SealedRoster(s, peer, turn);
    hide Roster, Window, Agree.StateInv;
    TickKeeps(s.(turns := SealTurn(s.turns, peer, turn).value), length, pace);
  }

  lemma SealedRoster(s: RelayState, peer: Peer, turn: nat)
    requires Roster(s.sessions, s.turns.clients, s.out, s.base, s.feed.joins)
    requires Quiet(s.turns) && Window(s.turns, s.cfg.lag)
    requires turn <= s.turns.ready + COMMAND_DELAY && SealTurn(s.turns, peer, turn).Ok?
    ensures var t := SealTurn(s.turns, peer, turn).value;
            && Roster(s.sessions, t.clients, s.out, s.base, s.feed.joins)
            && Quiet(t) && Window(t, s.cfg.lag)
            && t == s.turns.(clients := t.clients)
  {
    SealedTurns(s.turns, peer, turn, s.cfg.lag);
    hide Window, Agree.StateInv;
    RosterSwap(s.sessions, s.turns.clients, SealTurn(s.turns, peer, turn).value.clients, s.out, s.base,
               s.feed.joins);
  }

  lemma TickKeeps(s: RelayState, length: nat, pace: Option<nat>)
    requires RunInv(s)
    ensures RunInv(ReleaseTurns(s, length, pace))
  {
    hide Roster, Names, Window, Agree.StateInv, LogOk, PeerOk, JoinsHeld, JournalOk;
    ReleaseTurnsKeeps(s, length, pace);
    QuietGrows(s.turns, ReleaseTurns(s, length, pace).turns.ready);
  }

  lemma UnholdKeeps(s: RelayState, length: nat, pace: Option<nat>)
    requires RunInv(s)
    ensures RunInv(Unheld(s, length, pace))
  {
    TickKeeps(s.(held := false), length, pace);
  }

  lemma StopKeeps(s: RelayState, unixMs: int)
    requires RunInv(s)
    ensures RunInv(Stopped(s, unixMs))
  {
    hide Roster, Names, Window, Agree.StateInv, LogOk, PeerOk, JoinsHeld, HashesTimely, HashesAgree;
    if s.cfg.saving {
      var more := [StoppedRecord(s.turns.ready, unixMs)];
      TurnsAppend(s.saved, more);
      assert more[..0] == [];
      assert TurnsOf(s.saved) + [] == TurnsOf(s.saved);
      TimelyMore(s.saved, more);
      AgreeMore(s.saved, more, s.turns.references);
    }
  }

  // ---- sessions ----

  predicate NewSession(s: RelayState, peer: Peer, session: Session) {
    && peer !in s.sessions
    && session.role.Syncing? && session.snapshot.None?
    && (session.delayed ==> session.observer)
    && forall q | q in s.sessions :: s.sessions[q].id != session.id
  }

  lemma ConnectRoster(s: RelayState, peer: Peer, session: Session)
    requires Roster(s.sessions, s.turns.clients, s.out, s.base, s.feed.joins)
    requires NewSession(s, peer, session)
    ensures Roster(s.sessions[peer := session], s.turns.clients, s.out[peer := []], s.base, s.feed.joins)
    ensures peer !in s.base
  {
  }

  lemma ConnectNames(sessions: map<Peer, Session>, peer: Peer, session: Session)
    requires Names(sessions) && peer !in sessions && (session.delayed ==> session.observer)
    requires forall q | q in sessions :: sessions[q].id != session.id
    ensures Names(sessions[peer := session])
  {
  }

  lemma ConnectStreams(s: RelayState, peer: Peer, session: Session)
    requires s.out.Keys == s.sessions.Keys && Streams(s) && NewSession(s, peer, session)
    ensures Connected(s, peer, session).out.Keys == Connected(s, peer, session).sessions.Keys
    ensures Streams(Connected(s, peer, session))
  {
    assert PeerOk(session, [], BaseOf(s.base, peer), s.log, s.turns.ready, s.feed.head, s.cfg.turnLength);
    hide PeerOk;
  }

  lemma ConnectKeeps(s: RelayState, peer: Peer, session: Session)
    requires RunInv(s) && NewSession(s, peer, session)
    ensures RunInv(Connected(s, peer, session))
  {
    hide PeerOk, Window, Agree.StateInv, LogOk, JournalOk;
    ConnectRoster(s, peer, session);
    ConnectNames(s.sessions, peer, session);
    ConnectStreams(s, peer, session);
    hide PeerOk, Names, Roster, Window, Agree.StateInv, LogOk, JournalOk;
  }

  lemma SnapshotRoster(s: RelayState, joiner: Peer, range: (nat, nat), joins: map<Peer, HeldJoin>)
    requires Base(s) && Streams(s) && joiner in s.sessions && s.sessions[joiner].role.Syncing?
    requires joins.Keys <= s.feed.joins.Keys + {joiner}
    ensures var s1 := s.(sessions := s.sessions[joiner := s.sessions[joiner].(snapshot := Some(range))],
                         feed := s.feed.(joins := joins));
            Base(s1) && Streams(s1)
  {
    hide InStep, Stream, LogOk;
    var sessions := s.sessions[joiner := s.sessions[joiner].(snapshot := Some(range))];
    assert Names(sessions);
    hide Names;
    assert Roster(sessions, s.turns.clients, s.out, s.base, joins);
  }

  lemma DeliverKeeps(s: RelayState, joiner: Peer, lo: nat, hi: nat, snapshot: Bytes)
    requires RunInv(s)
    ensures RunInv(Delivered(s, joiner, lo, hi, snapshot))
  {
    if joiner in s.sessions && s.sessions[joiner].role.Syncing? {
      hide Roster, Names, Window, Agree.StateInv, LogOk, PeerOk, JournalOk;
      var s1 := s.(sessions := s.sessions[joiner := s.sessions[joiner].(snapshot := Some((lo, hi)))]);
      if s.sessions[joiner].delayed {
        var s2 := s1.(feed := Holding(s.feed, joiner, hi, snapshot));
        SnapshotRoster(s, joiner, (lo, hi), s2.feed.joins);
        AdvanceFeedKeeps(s2);
      } else {
        SnapshotRoster(s, joiner, (lo, hi), s.feed.joins);
        SentOther(s1, {joiner}, [Join(snapshot)]);
        SentRoster(s1, {joiner}, [Join(snapshot)]);
      }
    }
  }

  lemma SentRoster(s: RelayState, peers: set<Peer>, ms: seq<Msg>)
    requires Base(s)
    ensures Base(s.(out := SentTo(s.out, peers, ms)))
  {
  }

  function Gone(s: RelayState, peer: Peer): RelayState {
    s.(sessions := s.sessions - {peer}, out := s.out - {peer}, base := s.base - {peer},
       turns := Forget(s.turns, peer), feed := Released(s.feed, peer))
  }

  lemma GoneRoster(s: RelayState, peer: Peer)
    requires Base(s) && Streams(s) && peer in s.sessions
    ensures Base(Gone(s, peer)) && Streams(Gone(s, peer))
  {
    hide PeerOk, LogOk, Without;
    var s1 := Gone(s, peer);
    assert Names(s1.sessions);
    hide Names;
    assert Roster(s1.sessions, s1.turns.clients, s1.out, s1.base, s1.feed.joins);
  }

  lemma GoneTurns(t: TurnState, peer: Peer, lag: Option<nat>)
    requires Quiet(t) && Window(t, lag)
    ensures Quiet(Forget(t, peer)) && Window(Forget(t, peer), lag)
  {
    Agree.ForgetInv(t, peer);
    hide Agree.StateInv;
  }

  lemma GoneKeeps(s: RelayState, peer: Peer)
    requires RunInv(s) && peer in s.sessions
    ensures RunInv(Gone(s, peer))
  {
    GoneRoster(s, peer);
    GoneTurns(s.turns, peer, s.cfg.lag);
    hide PeerOk, Names, Roster, Window, Agree.StateInv, LogOk, HashesTimely, HashesAgree;
  }

  lemma DisconnectKeeps(s: RelayState, peer: Peer, length: nat, pace: Option<nat>)
    requires RunInv(s)
    ensures RunInv(Disconnected(s, peer, length, pace))
  {
    if peer in s.sessions {
      GoneKeeps(s, peer);
      TickKeeps(Gone(s, peer), length, pace);
      var s2 := ReleaseTurns(Gone(s, peer), length, pace);
      assert Quiet(s2.turns);
      RecheckedTurns(s2.turns);
      hide Roster, Names, Window, Agree.StateInv, LogOk, PeerOk, JoinsHeld, JournalOk, Agree.ToldOnce;
      SavedTurns(s2, Recheck(s2.turns).0);
    }
  }

  // ---- joining ----

  lemma GameOfReply(ms: seq<Msg>, replay: seq<Msg>, turn: nat)
    requires Game(ms) == [] && forall m | m in replay :: m.IsGame()
    ensures Game(ms + (replay + [Loaded(turn)])) == replay
  {
    GameIsGame(replay);
    GameOfOther([Loaded(turn)]);
    GameAppend(replay, [Loaded(turn)]);
    GameAppend(ms, replay + [Loaded(turn)]);
    assert [] + (replay + []) == replay;
  }

  lemma LiveReplayOk(s: RelayState, session: Session, ms: seq<Msg>, loaded: nat)
    requires LogOk(s.log, s.turns.ready) && Game(ms) == [] && !session.delayed
    ensures var ready := s.turns.ready;
            var replay := Replay(s.log, loaded, ready, Max(ready + 1, LastStored(s.log)), s.cfg.turnLength);
            PeerOk(session.(role := InGame, snapshot := None), ms + (replay + [Loaded(ready)]),
                   Some(Start(loaded, ready)), s.log, ready, s.feed.head, s.cfg.turnLength)
  {
    var upper := Max(s.turns.ready + 1, LastStored(s.log));
    assert forall t | t in s.log.commands :: t <= upper;
    LiveReply(s.log, s.turns.ready, loaded, upper, s.cfg.turnLength, ms);
    hide InStep, Game, Replay, LogOk;
  }

  lemma LiveReply(log: Log, ready: nat, loaded: nat, upper: nat, default: nat, ms: seq<Msg>)
    requires WellFiled(log) && Game(ms) == [] && upper > ready
    requires forall t | t in log.commands :: t <= upper
    ensures var replay := Replay(log, loaded, ready, upper, default);
            && Game(ms + (replay + [Loaded(ready)])) == replay
            && (if loaded <= ready then InStep(replay, loaded, ready, log, default)
                else SealsOf(replay) == SealRun(log, ready, ready, default))
  {
    if loaded <= ready {
      ReplayInStep(log, loaded, ready, upper, default);
    } else {
      UnsealedReplay(log, loaded, ready, upper, default);
    }
    hide InStep, Replay, WellFiled, Game;
    ReplayIsGame(log, loaded, ready, upper, default);
    GameOfReply(ms, Replay(log, loaded, ready, upper, default), ready);
  }

  lemma DelayedReplayOk(s: RelayState, session: Session, ms: seq<Msg>, loaded: nat)
    requires Game(ms) == [] && session.delayed
    ensures var head := s.feed.head;
            var replay := Stream(s.log, loaded, head, s.cfg.turnLength);
            PeerOk(session.(role := InGame, snapshot := None), ms + (replay + [Loaded(head)]),
                   Some(Start(loaded, head)), s.log, s.turns.ready, head, s.cfg.turnLength)
  {
    var head := s.feed.head;
    StreamIsGame(s.log, loaded, head, s.cfg.turnLength);
    GameOfReply(ms, Stream(s.log, loaded, head, s.cfg.turnLength), head);
    assert loaded > head ==> Stream(s.log, loaded, head, s.cfg.turnLength) == []
                             && Stream(s.log, head, head, s.cfg.turnLength) == [];
    hide Game, Stream;
  }

  lemma RosterEnter(sessions: map<Peer, Session>, clients: map<Peer, Client>,
                    out: map<Peer, seq<Msg>>, base: map<Peer, Start>, joins: map<Peer, HeldJoin>,
                    peer: Peer, client: Client, ms: seq<Msg>, base': map<Peer, Start>)
    requires Roster(sessions, clients, out, base, joins) && peer in sessions
    requires client.id == sessions[peer].id && client.delayed == sessions[peer].delayed
    requires client.observer == sessions[peer].observer
    requires !sessions[peer].delayed ==> client.aiHost == sessions[peer].aiHost
    requires base'.Keys <= base.Keys + {peer}
    ensures Roster(sessions[peer := sessions[peer].(role := InGame, snapshot := None)],
                   clients[peer := client], SentTo(out, {peer}, ms), base', joins)
  {
  }

  lemma EnteredRoster(s: RelayState, peer: Peer, msgs: seq<Msg>, sealed: nat, simulated: nat,
                      loaded: nat, reached: nat)
    requires Base(s) && peer in s.sessions && s.sessions[peer].role.Syncing?
    ensures var s' := Entered(s, peer, msgs, sealed, simulated, loaded, reached);
            && Roster(s'.sessions, s'.turns.clients, s'.out, s'.base, s'.feed.joins)
            && Names(s'.sessions)
  {
    hide LogOk, Roster;
    EnteredNames(s.sessions, peer);
    hide Names;
    var s' := Entered(s, peer, msgs, sealed, simulated, loaded, reached);
    var client := s'.turns.clients[peer];
    RosterEnter(s.sessions, s.turns.clients, s.out, s.base, s.feed.joins, peer, client, msgs, s'.base);
    assert s'.turns.clients == s.turns.clients[peer := client];
  }

  lemma EnteredNames(sessions: map<Peer, Session>, peer: Peer)
    requires Names(sessions) && peer in sessions
    ensures Names(sessions[peer := sessions[peer].(role := InGame, snapshot := None)])
  {
  }

  lemma EnteredQuiet(t: TurnState, peer: Peer, session: Session, reached: nat)
    requires Quiet(t) && peer !in t.clients && forall q | q in t.clients :: t.clients[q].id != session.id
    requires reached <= t.ready && (!session.delayed ==> reached == t.ready)
    requires session.delayed ==> session.observer
    ensures var t1 := Register(t, peer, session.id, reached + 3, reached, session.observer, session.delayed);
            Quiet(t1) && Quiet(MarkAiHost(t1, peer))
  {
    var t1 := Register(t, peer, session.id, reached + 3, reached, session.observer, session.delayed);
    QuietIsInv(t);
    var step := if session.delayed then Agree.JoinDelayed(peer, session.id, reached)
                else Agree.JoinLive(peer, session.id, session.observer);
    Agree.StepInv(AsMatch(t), step);
    assert Agree.Next(AsMatch(t), step).s == t1;
    QuietIsInv(t1);
    Agree.StepInv(AsMatch(t1), Agree.BecomeAiHost(peer));
  }

  lemma EnteredTurns(s: RelayState, peer: Peer, msgs: seq<Msg>, loaded: nat, reached: nat)
    requires Base(s) && Quiet(s.turns) && Window(s.turns, s.cfg.lag)
    requires peer in s.sessions && s.sessions[peer].role.Syncing?
    requires reached <= s.turns.ready
    requires !s.sessions[peer].delayed ==> reached == s.turns.ready
    ensures var s' := Entered(s, peer, msgs, reached + COMMAND_DELAY - 1, reached, loaded, reached);
            Quiet(s'.turns) && Window(s'.turns, s.cfg.lag)
            && s'.turns == s.turns.(clients := s'.turns.clients)
  {
    hide LogOk, Agree.StateInv;
    EnteredQuiet(s.turns, peer, s.sessions[peer], reached);
  }

  lemma LoadedOwn(s: RelayState, peer: Peer, loaded: nat, s': RelayState)
    requires Base(s) && Streams(s) && peer in s.sessions && s.sessions[peer].role.Syncing?
    requires LoadedGame(s, peer, loaded) == Ok(s')
    ensures peer in s'.sessions && peer in s'.out
    ensures PeerOk(s'.sessions[peer], s'.out[peer], BaseOf(s'.base, peer), s.log, s.turns.ready,
                   s.feed.head, s.cfg.turnLength)
  {
    hide InStep, Stream, Replay, Game, Names, WellFiled;
    if s.sessions[peer].delayed {
      DelayedReplayOk(s, s.sessions[peer], s.out[peer], loaded);
    } else {
      LiveReplayOk(s, s.sessions[peer], s.out[peer], loaded);
    }
    hide PeerOk;
  }

  lemma LoadedFrame(s: RelayState, peer: Peer, loaded: nat, s': RelayState)
    requires peer in s.sessions && LoadedGame(s, peer, loaded) == Ok(s')
    ensures s'.turns.ready == s.turns.ready && s'.feed.head == s.feed.head && s'.log == s.log && s'.cfg == s.cfg
    ensures s'.sessions.Keys == s.sessions.Keys && s'.out.Keys == s.out.Keys
  {
    hide Stream, Replay;
  }

  lemma LoadedOther(s: RelayState, peer: Peer, loaded: nat, s': RelayState, p: Peer)
    requires peer in s.sessions && LoadedGame(s, peer, loaded) == Ok(s')
    requires p in s.sessions && p in s.out && p != peer
    ensures p in s'.sessions && s'.sessions[p] == s.sessions[p]
    ensures p in s'.out && s'.out[p] == s.out[p] && BaseOf(s'.base, p) == BaseOf(s.base, p)
  {
    hide Stream, Replay;
  }

  lemma LoadedStreams(s: RelayState, peer: Peer, loaded: nat, s': RelayState)
    requires Base(s) && Streams(s) && peer in s.sessions && s.sessions[peer].role.Syncing?
    requires LoadedGame(s, peer, loaded) == Ok(s')
    ensures s'.out.Keys == s'.sessions.Keys && Streams(s')
  {
    LoadedOwn(s, peer, loaded, s');
    LoadedFrame(s, peer, loaded, s');
    hide LoadedGame, PeerOk, BaseOf, Names, LogOk;
    forall p | p in s'.sessions
      ensures PeerOk(s'.sessions[p], s'.out[p], BaseOf(s'.base, p), s'.log, s'.turns.ready,
                     s'.feed.head, s'.cfg.turnLength)
    {
      if p != peer {
        LoadedOther(s, peer, loaded, s', p);
      }
    }
  }

  lemma LoadKeeps(s: RelayState, peer: Peer, loaded: nat)
    requires RunInv(s) && LoadedGame(s, peer, loaded).Ok?
    ensures RunInv(LoadedGame(s, peer, loaded).value)
  {
    var s' := LoadedGame(s, peer, loaded).value;
    LoadedStreams(s, peer, loaded, s');
    LoadedTurns(s, peer, loaded);
    hide PeerOk, Roster, Names, Window, Agree.StateInv, LogOk, HashesTimely, HashesAgree;
    LoadedJoins(s, peer, loaded);
    hide JoinsHeld;
  }

  lemma LoadedJoins(s: RelayState, peer: Peer, loaded: nat)
    requires JoinsHeld(s.sessions, s.feed) && LoadedGame(s, peer, loaded).Ok?
    ensures var s' := LoadedGame(s, peer, loaded).value; JoinsHeld(s'.sessions, s'.feed)
  {
  }

  lemma LoadedTurns(s: RelayState, peer: Peer, loaded: nat)
    requires RunInv(s) && LoadedGame(s, peer, loaded).Ok?
    ensures var s' := LoadedGame(s, peer, loaded).value;
            && Roster(s'.sessions, s'.turns.clients, s'.out, s'.base, s'.feed.joins)
            && Names(s'.sessions)
            && Quiet(s'.turns) && Window(s'.turns, s.cfg.lag)
            && s'.turns == s.turns.(clients := s'.turns.clients)
  {
    hide PeerOk, Agree.StateInv, LogOk, Window, Names, Roster, JournalOk, JoinsHeld;
    var session := s.sessions[peer];
    if session.delayed {
      var head := s.feed.head;
      var ms := Stream(s.log, loaded, head, s.cfg.turnLength) + [Loaded(head)];
      EnteredRoster(s, peer, ms, head + COMMAND_DELAY - 1, head, loaded, head);
      EnteredTurns(s, peer, ms, loaded, head);
      JoinsFewer(Entered(s, peer, ms, head + COMMAND_DELAY - 1, head, loaded, head), peer);
    } else {
      var ready := s.turns.ready;
      var ms := Replay(s.log, loaded, ready, Max(ready + 1, LastStored(s.log)), s.cfg.turnLength)
                + [Loaded(ready)];
      EnteredRoster(s, peer, ms, ready + COMMAND_DELAY - 1, ready, loaded, ready);
      EnteredTurns(s, peer, ms, loaded, ready);
    }
  }

  lemma JoinsFewer(s: RelayState, peer: Peer)
    requires Roster(s.sessions, s.turns.clients, s.out, s.base, s.feed.joins)
    ensures Roster(s.sessions, s.turns.clients, s.out, s.base, Released(s.feed, peer).joins)
  {
  }
}
