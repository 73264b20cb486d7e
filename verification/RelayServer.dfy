/** The relay as the server runs it: handlers that update the context in place
    and loop over the released turns, their commands and the peers. Each is
    proved to do what the specification in Relay.dfy says, and to keep the
    invariant of RelayRuns.dfy. */
module RelayServer {
  import opened Prelude
  import opened Turns
  import opened Lockstep
  import opened MatchLogs
  import opened ObserverFeeds
  import opened Relay
  import opened RelayRuns
  import opened RelaySteps
  import opened CrashRestart
  import opened RelayTheorems

  lemma SentNothing(out: map<Peer, seq<Msg>>, peers: set<Peer>)
    ensures SentTo(out, peers, []) == out
  {
    assert forall p | p in out :: out[p] + [] == out[p];
  }

  lemma AdmitOne(out: map<Peer, seq<Msg>>, was: map<Peer, HeldJoin>, p: Peer, join: HeldJoin)
    requires p !in was
    ensures SentTo(AdmitAll(out, was), {p}, [Join(join.snapshot)]) == AdmitAll(out, was[p := join])
  {
  }

  lemma SentMore(out: map<Peer, seq<Msg>>, peers: set<Peer>, a: seq<Msg>, b: seq<Msg>)
    ensures SentTo(SentTo(out, peers, a), peers, b) == SentTo(out, peers, a + b)
  {
    var once, twice := SentTo(out, peers, a), SentTo(out, peers, a + b);
    forall p | p in out ensures SentTo(once, peers, b)[p] == twice[p] {
      assert out[p] + a + b == out[p] + (a + b);
    }
    assert SentTo(once, peers, b) == twice;
  }

  class Server {
    const cfg: Config
    const turns: TurnManager
    const log: MatchLog
    const feed: ObserverFeed
    var sessions: map<Peer, Session>
    var held: bool
    var out: map<Peer, seq<Msg>>
    var saved: seq<Record>
    ghost var base: map<Peer, Start>

    ghost function State(): RelayState
      reads this, turns, log, feed
    {
      RelayState(cfg, turns.State(), log.State(), feed.State(), sessions, held, out, saved, base)
    }

    ghost predicate Sound()
      reads this, turns, feed
    {
      turns.Valid() && feed.delay == cfg.delay
    }

    ghost predicate Valid()
      reads this, turns, log, feed
    {
      Sound() && RunInv(State())
    }

    /** A match begins with everyone loaded. */
    constructor Begin(cfg: Config, starters: map<Peer, Session>)
      requires Starters(starters)
      ensures Valid() && State() == Begun(cfg, starters)
    {
      var t := new TurnManager();
      var l := new MatchLog();
      var f := new ObserverFeed(cfg.delay);
      this.cfg, turns, log, feed := cfg, t, l, f;
      sessions, held, saved := starters, false, [];
      out := Greeted(starters);
      base := FromTheStart(starters);
      new;
      BegunKeeps(cfg, starters);
      hide RunInv, WellFormed, Starters, Greeted, FromTheStart;
      RegisterAll(starters);
    }

    /** A match starts over from what a crash left of its save. */
    constructor Resume(cfg: Config, records: seq<Record>, unixMs: int,
                       ghost live: RelayState, ghost cut: nat)
      requires RunInv(live) && live.cfg == cfg && cfg.saving
      requires cut <= |live.saved| && records == live.saved[..cut]
      ensures Valid() && State() == Restarted(cfg, records, unixMs)
    {
      var turn := LastTurn(records);
      var t := new TurnManager.Resume(turn, RebuiltHashes(records));
      var l := new MatchLog();
      var f := new ObserverFeed.Resume(cfg.delay, SaturatingSub(turn, cfg.delay));
      this.cfg, turns, log, feed := cfg, t, l, f;
      sessions, held, out, base := map[], true, map[], map[];
      saved := records + [ResumedRecord(turn, unixMs)];
      new;
      RestartKeeps(live, cut, unixMs);
      hide RunInv;
      RebuildLog(records);
    }

    method RebuildLog(records: seq<Record>)
      requires log.State() == EmptyLog
      modifies log
      ensures log.State() == RebuiltLog(records)
    {
      var i := 0;
      while i < |records|
        invariant 0 <= i <= |records| && log.State() == RebuiltLog(records[..i])
        modifies log
      {
        assert records[..i + 1][..i] == records[..i];
        if records[i].TurnRecord? {
          log.RecordTurnLength(records[i].turn, records[i].length);
          RecordAll(records[i].commands);
        }
        i := i + 1;
      }
      assert records[..i] == records;
    }

    method RegisterAll(starters: map<Peer, Session>)
      requires Starters(starters) && turns.State() == Fresh
      modifies turns
      ensures turns.Valid() && turns.State() == Fresh.(clients := Registered(starters))
    {
      ghost var all := Registered(starters);
      var todo := starters.Keys;
      assert starters.Keys - todo == {};
      while todo != {}
        invariant todo <= starters.Keys && turns.Valid()
        invariant turns.State() == Fresh.(clients := turns.clients)
        invariant turns.clients.Keys == starters.Keys - todo
        invariant forall p | p in turns.clients :: turns.clients[p] == all[p]
        decreases |todo|
      {
        var p :| p in todo;
        RegisterStarter(p, starters[p]);
        todo := todo - {p};
      }
      assert turns.clients == all;
    }

    method RegisterStarter(p: Peer, s: Session)
      requires turns.Valid()
      requires forall q | q in turns.clients && q != p :: turns.clients[q].id != s.id
      modifies turns
      ensures turns.Valid()
      ensures turns.State() == old(turns.State()).(clients := old(turns.clients)[p :=
                Client(s.id, INITIAL_READY_TURN, 0, s.observer, s.delayed, s.aiHost)])
    {
      turns.AddClient(p, s.id, INITIAL_READY_TURN, 0, s.observer, s.delayed);
      if s.aiHost {
        turns.SetAiHost(p);
      }
    }

    method RecordAll(cs: seq<Command>)
      modifies log
      ensures log.State() == RecordedAll(old(log.State()), cs)
    {
      ghost var before := log.State();
      var i := 0;
      while i < |cs|
        invariant 0 <= i <= |cs| && log.State() == RecordedAll(before, cs[..i])
      {
        assert cs[..i + 1][..i] == cs[..i];
        log.RecordCommand(cs[i]);
        i := i + 1;
      }
      assert cs[..i] == cs;
    }

    // ---- sending ----

    method Send(peer: Peer, m: Msg)
      modifies this`out
      ensures out == SentTo(old(out), {peer}, [m])
    {
      if peer in out {
        out := out[peer := out[peer] + [m]];
      }
    }

    method Broadcast(peers: set<Peer>, m: Msg)
      modifies this`out
      ensures out == SentTo(old(out), peers, [m])
    {
      ghost var before := out;
      var todo := peers;
      SentNothing(out, {});
      while todo != {}
        invariant todo <= peers
        invariant out == SentTo(before, peers - todo, [m])
        decreases |todo|
      {
        var p :| p in todo;
        Send(p, m);
        ghost var sent := peers - todo;
        todo := todo - {p};
        assert peers - todo == sent + {p};
      }
      assert peers - todo == peers;
    }

    method SendAll(peer: Peer, ms: seq<Msg>)
      modifies this`out
      ensures out == SentTo(old(out), {peer}, ms)
    {
      hide SentTo;
      ghost var before := out;
      var i := 0;
      SentNothing(out, {peer});
      while i < |ms|
        invariant 0 <= i <= |ms| && out == SentTo(before, {peer}, ms[..i])
      {
        SentMore(before, {peer}, ms[..i], [ms[i]]);
        assert ms[..i + 1] == ms[..i] + [ms[i]];
        Send(peer, ms[i]);
        i := i + 1;
      }
      assert ms[..i] == ms;
    }

    method LiveAudience() returns (peers: set<Peer>)
      ensures peers == LivePeers(State())
    {
      peers := set p | p in sessions && sessions[p].role.InGame?
                       && !(p in turns.clients && turns.clients[p].delayed);
    }

    // ---- release and feed ----

    method ReleaseAll(length: nat, pace: Option<nat>)
      requires Sound()
      modifies this`out, this`saved, turns, log, feed
      ensures Sound() && State() == ReleaseTurns(old(State()), length, pace)
    {
      if held {
        return;
      }
      hide AdvanceFeed, ReleaseCount, WellFormed, LengthenedRun, SealMsgs, TurnRecords, SentTo;
      var live := LiveAudience();
      var released := turns.ReleasePaced(cfg.lag, pace);
      SealAll(old(turns.readyTurn), released, live, length);
      AdvanceAll();
    }

    method SealAll(ghost from: nat, released: seq<nat>, live: set<Peer>, length: nat)
      requires released == Run(from, from + |released|)
      modifies this`out, this`saved, log
      ensures log.State() == LengthenedRun(old(log.State()), from, from + |released|, length)
      ensures out == SentTo(old(out), live, SealMsgs(from, from + |released|, length))
      ensures saved == old(saved) + (if cfg.saving
                                     then TurnRecords(old(log.State()), from, from + |released|, length)
                                     else [])
    {
      hide SentTo;
      ghost var log0, out0, saved0 := log.State(), out, saved;
      var i := 0;
      SentNothing(out, live);
      while i < |released|
        invariant 0 <= i <= |released|
        invariant log.State() == LengthenedRun(log0, from, from + i, length)
        invariant log.commands == log0.commands
        invariant out == SentTo(out0, live, SealMsgs(from, from + i, length))
        invariant saved == saved0 + (if cfg.saving then TurnRecords(log0, from, from + i, length) else [])
      {
        var turn := released[i];
        log.RecordTurnLength(turn, length);
        if cfg.saving {
          saved := saved + [TurnRecord(turn, length, For(log.State(), turn))];
        }
        SentMore(out0, live, SealMsgs(from, from + i, length), [Seal(turn, length)]);
        Broadcast(live, Seal(turn, length));
        i := i + 1;
      }
    }

    method AdvanceAll()
      requires Sound()
      modifies this`out, feed
      ensures Sound() && State() == AdvanceFeed(old(State()))
    {
      hide WellFormed, Stream, DueFlares, PlayersRemain, SentTo, Flares;
      ghost var s0 := State();
      var draining := !PlayersRemain(sessions);
      var from := feed.Advance(turns.readyTurn, draining);
      var peers := DelayedPeers(turns.State());
      SendTurns(from, feed.head, peers);
      var due := feed.TakeDueFlares();
      SendFlares(due, peers);
      SentMore(s0.out, peers, Stream(s0.log, from, feed.head, cfg.turnLength), Flares(due));
      AdmitDue();
    }

    /** The turns after `from` up to `head`, with their commands and seals. */
    method SendTurns(from: nat, head: nat, peers: set<Peer>)
      modifies this`out
      ensures out == SentTo(old(out), peers, Stream(log.State(), from, head, cfg.turnLength))
    {
      hide SentTo, Block;
      ghost var before, l := out, log.State();
      var t := from;
      SentNothing(out, peers);
      while t < head
        invariant t == from || from < t <= head
        invariant out == SentTo(before, peers, Stream(l, from, t, cfg.turnLength))
      {
        t := t + 1;
        SendBlock(t, peers);
        SentMore(before, peers, Stream(l, from, t - 1, cfg.turnLength), Block(l, t, cfg.turnLength));
      }
    }

    method SendBlock(turn: nat, peers: set<Peer>)
      modifies this`out
      ensures out == SentTo(old(out), peers, Block(log.State(), turn, cfg.turnLength))
    {
      hide SentTo;
      ghost var before := out;
      var commands := For(log.State(), turn);
      var i := 0;
      assert AsMsgs(commands[..0]) == [];
      SentNothing(out, peers);
      while i < |commands|
        invariant 0 <= i <= |commands|
        invariant out == SentTo(before, peers, AsMsgs(commands[..i]))
      {
        SentMore(before, peers, AsMsgs(commands[..i]), [Cmd(commands[i])]);
        assert AsMsgs(commands[..i + 1]) == AsMsgs(commands[..i]) + [Cmd(commands[i])];
        Broadcast(peers, Cmd(commands[i]));
        i := i + 1;
      }
      assert commands[..i] == commands;
      var seal := Seal(turn, LengthOr(log.State(), turn, cfg.turnLength));
      SentMore(before, peers, AsMsgs(commands), [seal]);
      Broadcast(peers, seal);
    }

    method SendFlares(due: seq<Flare>, peers: set<Peer>)
      modifies this`out
      ensures out == SentTo(old(out), peers, Flares(due))
    {
      hide SentTo;
      ghost var before := out;
      var i := 0;
      assert Flares(due[..0]) == [];
      SentNothing(out, peers);
      while i < |due|
        invariant 0 <= i <= |due| && out == SentTo(before, peers, Flares(due[..i]))
      {
        SentMore(before, peers, Flares(due[..i]), [Flared(due[i])]);
        assert Flares(due[..i + 1]) == Flares(due[..i]) + [Flared(due[i])];
        Broadcast(peers, Flared(due[i]));
        i := i + 1;
      }
      assert due[..i] == due;
    }

    method AdmitDue()
      modifies this`out, feed
      ensures feed.State() == Admitted(old(feed.State()))
      ensures out == AdmitAll(old(out), DueJoins(old(feed.State())))
    {
      ghost var before := out;
      var due := feed.TakeDueJoins();
      var todo := due.Keys;
      assert due - todo == map[] && AdmitAll(before, map[]) == before;
      hide DueJoins, AdmitAll, SentTo;
      while todo != {}
        invariant todo <= due.Keys && feed.State() == Admitted(old(feed.State()))
        invariant out == AdmitAll(before, due - todo)
        decreases |todo|
      {
        var p :| p in todo;
        ghost var was := due - todo;
        Send(p, Join(due[p].snapshot));
        todo := todo - {p};
        assert due - todo == was[p := due[p]];
        AdmitOne(before, was, p, due[p]);
      }
      assert due - todo == due;
    }

    method SaveSettledHashes()
      requires turns.Valid()
      modifies this`saved, turns
      ensures turns.Valid() && State() == SaveSettled(old(State()))
    {
      var taken := turns.TakeSettled();
      if cfg.saving {
        saved := saved + HashRecords(taken);
      }
    }

    // ---- the handlers ----

    method OnPlayerCommand(peer: Peer, c: Command, admitted: bool) returns (r: Result<(), RelayFault>)
      requires Valid()
      modifies this`out, log
      ensures Valid()
      ensures match PlayerCommand(old(State()), peer, c, admitted)
              case Ok(s) => r == Ok(()) && State() == s
              case Err(e) => r == Err(e) && State() == old(State())
    {
      if PlayerCommand(State(), peer, c, admitted).Ok? {
        CommandKeeps(State(), peer, c, admitted);
      }
      hide RunInv, PlayerCommand, WellFormed;
      r := RelayCommand(peer, c, admitted);
    }

    method RelayCommand(peer: Peer, c: Command, admitted: bool) returns (r: Result<(), RelayFault>)
      modifies this`out, log
      ensures match PlayerCommand(old(State()), peer, c, admitted)
              case Ok(s) => r == Ok(()) && State() == s
              case Err(e) => r == Err(e) && State() == old(State())
    {
      hide SentTo, LivePeers, Recorded;
      if peer !in sessions {
        return Err(UnknownPeer);
      }
      if !sessions[peer].role.InGame? {
        return Err(WrongPhase);
      }
      var ready := turns.readyTurn;
      if c.turn <= ready || c.turn - ready > COMMAND_DELAY || !admitted {
        return Ok(());
      }
      var live := LiveAudience();
      Broadcast(live, Cmd(c));
      log.RecordCommand(c);
      return Ok(());
    }

    method OnTurnSealed(peer: Peer, turn: nat, length: nat, pace: Option<nat>)
      returns (r: Result<(), RelayFault>)
      requires Valid()
      modifies this`out, this`saved, turns, log, feed
      ensures Valid()
      ensures match TurnSealed(old(State()), peer, turn, length, pace)
              case Ok(s) => r == Ok(()) && State() == s
              case Err(e) => r == Err(e) && State() == old(State())
    {
      if TurnSealed(State(), peer, turn, length, pace).Ok? {
        SealKeeps(State(), peer, turn, length, pace);
      }
      hide RunInv, TurnSealed, WellFormed;
      r := SealAndRelease(peer, turn, length, pace);
    }

    method SealAndRelease(peer: Peer, turn: nat, length: nat, pace: Option<nat>)
      returns (r: Result<(), RelayFault>)
      requires Sound()
      modifies this`out, this`saved, turns, log, feed
      ensures Sound()
      ensures match TurnSealed(old(State()), peer, turn, length, pace)
              case Ok(s) => r == Ok(()) && State() == s
              case Err(e) => r == Err(e) && State() == old(State())
    {
      hide ReleaseTurns, WellFormed, SealTurn;
      var ready := turns.readyTurn;
      if turn > ready + COMMAND_DELAY {
        return Err(SealAhead(turn, ready));
      }
      var sealed := turns.OnTurnSealed(peer, turn);
      if sealed.Err? {
        return Err(FromTurns(sealed.error));
      }
      ReleaseAll(length, pace);
      return Ok(());
    }

    method OnTick(length: nat, pace: Option<nat>)
      requires Valid()
      modifies this`out, this`saved, turns, log, feed
      ensures Valid() && State() == ReleaseTurns(old(State()), length, pace)
    {
      TickKeeps(State(), length, pace);
      hide RunInv;
      ReleaseAll(length, pace);
    }

    method OnStateHash(peer: Peer, turn: nat, hash: Hash) returns (r: Result<(), RelayFault>)
      requires Valid()
      modifies this`saved, turns
      ensures Valid()
      ensures match HashReported(old(State()), peer, turn, hash)
              case Ok(s) => r == Ok(()) && State() == s
              case Err(e) => r == Err(e) && State() == old(State())
    {
      ghost var s0 := State();
      if HashReported(s0, peer, turn, hash).Ok? {
        HashKeeps(s0, peer, turn, hash);
      }
      hide RunInv, StateHash;
      var ready := turns.readyTurn;
      if turn > ready {
        return Err(HashAhead(turn, ready));
      }
      var reported := turns.OnStateHash(peer, turn, hash);
      if reported.Err? {
        return Err(FromTurns(reported.error));
      }
      SaveSettledHashes();
      return Ok(());
    }

    method OnFlare(peer: Peer, flare: Flare) returns (r: Result<(), RelayFault>)
      requires Valid()
      modifies this`out, feed
      ensures Valid()
      ensures match FlareRaised(old(State()), peer, flare)
              case Ok(s) => r == Ok(()) && State() == s
              case Err(e) => r == Err(e) && State() == old(State())
    {
      if FlareRaised(State(), peer, flare).Ok? {
        FlareKeeps(State(), peer, flare);
      }
      hide RunInv, FlareRaised;
      r := RaiseFlare(peer, flare);
    }

    method RaiseFlare(peer: Peer, flare: Flare) returns (r: Result<(), RelayFault>)
      modifies this`out, feed
      ensures match FlareRaised(old(State()), peer, flare)
              case Ok(s) => r == Ok(()) && State() == s
              case Err(e) => r == Err(e) && State() == old(State())
    {
      hide SentTo, Queued, LivePeers, DelayedPeers;
      if peer !in sessions {
        return Err(UnknownPeer);
      }
      if !sessions[peer].role.InGame? {
        return Err(WrongPhase);
      }
      var live := LiveAudience();
      Broadcast(live, Flared(flare));
      var delayed := peer in turns.clients && turns.clients[peer].delayed;
      var turn := if delayed then feed.head else turns.readyTurn;
      if turn <= feed.head {
        Broadcast(DelayedPeers(turns.State()), Flared(flare));
      } else {
        feed.QueueFlare(turn, flare);
      }
      return Ok(());
    }

    method DeliverSnapshot(joiner: Peer, lo: nat, hi: nat, snapshot: Bytes)
      requires Valid()
      modifies this`out, this`sessions, feed
      ensures Valid() && State() == Delivered(old(State()), joiner, lo, hi, snapshot)
    {
      DeliverKeeps(State(), joiner, lo, hi, snapshot);
      hide RunInv, Delivered;
      Deliver(joiner, lo, hi, snapshot);
    }

    method Deliver(joiner: Peer, lo: nat, hi: nat, snapshot: Bytes)
      requires Sound()
      modifies this`out, this`sessions, feed
      ensures Sound() && State() == Delivered(old(State()), joiner, lo, hi, snapshot)
    {
      hide SentTo, Holding, AdvanceFeed, WellFormed;
      if joiner !in sessions || !sessions[joiner].role.Syncing? {
        return;
      }
      sessions := sessions[joiner := sessions[joiner].(snapshot := Some((lo, hi)))];
      if sessions[joiner].delayed {
        feed.HoldJoin(joiner, hi, snapshot);
        AdvanceAll();
      } else {
        Send(joiner, Join(snapshot));
      }
    }

    method Enter(peer: Peer, ghost msgs: seq<Msg>, ghost before: map<Peer, seq<Msg>>,
                 sealed: nat, simulated: nat, ghost loaded: nat, ghost reached: nat)
      requires turns.Valid() && peer in sessions && out == SentTo(before, {peer}, msgs)
      requires forall q | q in turns.clients && q != peer :: turns.clients[q].id != sessions[peer].id
      modifies this`sessions, this`base, turns
      ensures turns.Valid()
      ensures State() == Entered(old(State()).(out := before), peer, msgs, sealed, simulated, loaded, reached)
    {
      hide SentTo, WellFormed;
      var session := sessions[peer];
      sessions := sessions[peer := session.(role := InGame, snapshot := None)];
      turns.AddClient(peer, session.id, sealed, simulated, session.observer, session.delayed);
      if session.aiHost && !session.delayed {
        turns.SetAiHost(peer);
      }
      base := base[peer := Start(loaded, reached)];
    }

    method OnLoadedGame(peer: Peer, loaded: nat) returns (r: Result<(), RelayFault>)
      requires Valid()
      modifies this`out, this`sessions, this`base, turns, feed
      ensures Valid()
      ensures match LoadedGame(old(State()), peer, loaded)
              case Ok(s) => r == Ok(()) && State() == s
              case Err(e) => r == Err(e) && State() == old(State())
    {
      ghost var s0 := State();
      if LoadedGame(s0, peer, loaded).Ok? {
        LoadKeeps(s0, peer, loaded);
        FreshId(s0, peer);
      }
      hide RunInv;
      if peer !in sessions {
        return Err(UnknownPeer);
      }
      var session := sessions[peer];
      if !session.role.Syncing? {
        return Err(WrongPhase);
      }
      if session.snapshot.None? {
        return Err(LoadedBeforeSnapshot);
      }
      if !(session.snapshot.value.0 <= loaded <= session.snapshot.value.1) {
        return Err(LoadedOutOfRange(loaded));
      }
      if session.delayed {
        EnterDelayed(peer, loaded);
      } else {
        EnterLive(peer, loaded);
      }
      return Ok(());
    }

    method EnterLive(peer: Peer, loaded: nat)
      requires turns.Valid() && peer in sessions
      requires forall q | q in turns.clients && q != peer :: turns.clients[q].id != sessions[peer].id
      modifies this`out, this`sessions, this`base, turns
      ensures turns.Valid() && State() == ResumeLive(old(State()), peer, loaded)
    {
      hide WellFormed, Replay, SentTo, Register, MarkAiHost;
      var ready := turns.readyTurn;
      var upper := Max(ready + 1, LastStored(log.State()));
      ghost var replay := Replay(log.State(), loaded, ready, upper, cfg.turnLength);
      SendReplay(peer, loaded, ready, upper);
      Send(peer, Loaded(ready));
      SentMore(old(out), {peer}, replay, [Loaded(ready)]);
      Enter(peer, replay + [Loaded(ready)], old(out), ready + COMMAND_DELAY - 1, ready, loaded, ready);
    }

    method EnterDelayed(peer: Peer, loaded: nat)
      requires turns.Valid() && peer in sessions
      requires forall q | q in turns.clients && q != peer :: turns.clients[q].id != sessions[peer].id
      modifies this`out, this`sessions, this`base, turns, feed
      ensures turns.Valid()
      ensures State() == ResumeDelayed(old(State()), peer, loaded)
    {
      hide WellFormed, Replay, Stream, SentTo, Register, MarkAiHost;
      var head := feed.head;
      ghost var replay := Stream(log.State(), loaded, head, cfg.turnLength);
      ReplayIsStream(log.State(), loaded, head, head, cfg.turnLength);
      SendReplay(peer, loaded, head, head);
      Send(peer, Loaded(head));
      SentMore(old(out), {peer}, replay, [Loaded(head)]);
      Enter(peer, replay + [Loaded(head)], old(out), head + COMMAND_DELAY - 1, head, loaded, head);
      feed.Forget(peer);
    }

    /** Every stored turn after `from`, and the seals of those released. */
    method SendReplay(peer: Peer, from: nat, ready: nat, upper: nat)
      modifies this`out
      ensures out == SentTo(old(out), {peer}, Replay(log.State(), from, ready, upper, cfg.turnLength))
    {
      hide SentTo;
      ghost var before, l := out, log.State();
      var t := from;
      SentNothing(out, {peer});
      while t < upper
        invariant t == from || from < t <= upper
        invariant out == SentTo(before, {peer}, Replay(l, from, ready, t, cfg.turnLength))
      {
        t := t + 1;
        SendTurn(peer, t, t <= ready);
        SentMore(before, {peer}, Replay(l, from, ready, t - 1, cfg.turnLength),
                 if t <= ready then Block(l, t, cfg.turnLength) else AsMsgs(For(l, t)));
      }
    }

    method SendTurn(peer: Peer, turn: nat, sealed: bool)
      modifies this`out
      ensures out == SentTo(old(out), {peer}, if sealed then Block(log.State(), turn, cfg.turnLength)
                                              else AsMsgs(For(log.State(), turn)))
    {
      hide SentTo;
      var commands := AsMsgs(For(log.State(), turn));
      SendAll(peer, commands);
      if sealed {
        var seal := Seal(turn, LengthOr(log.State(), turn, cfg.turnLength));
        SentMore(old(out), {peer}, commands, [seal]);
        Send(peer, seal);
      }
    }

    method OnConnected(peer: Peer, session: Session)
      requires Valid() && NewSession(State(), peer, session)
      modifies this`out, this`sessions
      ensures Valid() && State() == Connected(old(State()), peer, session)
    {
      ConnectKeeps(State(), peer, session);
      hide RunInv, WellFormed, NewSession;
      sessions := sessions[peer := session];
      out := out[peer := []];
    }

    method OnDisconnected(peer: Peer, length: nat, pace: Option<nat>)
      requires Valid()
      modifies this`out, this`sessions, this`saved, this`base, turns, log, feed
      ensures Valid() && State() == Disconnected(old(State()), peer, length, pace)
    {
      DisconnectKeeps(State(), peer, length, pace);
      hide RunInv, Disconnected, WellFormed;
      Drop(peer, length, pace);
    }

    method Drop(peer: Peer, length: nat, pace: Option<nat>)
      requires Sound()
      modifies this`out, this`sessions, this`saved, this`base, turns, log, feed
      ensures Sound() && State() == Disconnected(old(State()), peer, length, pace)
    {
      hide WellFormed, Released, Forget, Recheck, ReleaseTurns, SaveSettled;
      if peer !in sessions {
        return;
      }
      sessions := sessions - {peer};
      out := out - {peer};
      base := base - {peer};
      turns.ForgetPeer(peer);
      feed.Forget(peer);
      ReleaseAll(length, pace);
      var found := turns.RecheckPending();
      SaveSettledHashes();
    }

    method Shutdown(unixMs: int)
      requires Valid()
      modifies this`saved
      ensures Valid() && State() == Stopped(old(State()), unixMs)
    {
      StopKeeps(State(), unixMs);
      hide RunInv;
      if cfg.saving {
        saved := saved + [StoppedRecord(turns.readyTurn, unixMs)];
      } else {
        assert saved + [] == saved;
      }
    }

    method ResumeMatch(length: nat, pace: Option<nat>)
      requires Valid()
      modifies this`held, this`out, this`saved, turns, log, feed
      ensures Valid() && State() == Unheld(old(State()), length, pace)
    {
      UnholdKeeps(State(), length, pace);
      hide RunInv;
      held := false;
      ReleaseAll(length, pace);
    }
  }

  lemma FreshId(s: RelayState, peer: Peer)
    requires RunInv(s) && peer in s.sessions
    ensures forall q | q in s.turns.clients && q != peer :: s.turns.clients[q].id != s.sessions[peer].id
  {
    hide Window, Quiet, JournalOk, JoinsHeld, Streams, LogOk;
  }
}
