/** Matches started over from a save whose journal and whose saved state need
    not be of the same turn: the state is written at once, the journal's last
    records can be lost. */
module RelayRestarts {
  import opened Prelude
  import opened Turns
  import opened Lockstep
  import opened MatchLogs
  import opened ObserverFeeds
  import opened Relay
  import opened RelayRuns
  import opened RelaySteps
  import opened CrashRestart
  import opened RelayTheorems
  import opened RelayJoins

  /** A step of a match nobody has restarted yet. */
  predicate Waits(step: Step) { !step.Unhold? && !step.Crash? }

  lemma WaitsInside(s: RelayState, step: Step)
    requires s.held && Waits(step) && Inside(step)
    ensures Next(s, step).held && Next(s, step).turns.ready == s.turns.ready
  {
    hide SentTo, LivePeers, DelayedPeers;
    if step.Hashed? && HashReported(s, step.peer, step.turn, step.hash).Ok? {
      ReportedClients(s.turns, step.peer, step.turn, step.hash);
      hide StateHash;
    }
  }

  lemma WaitsDepart(s: RelayState, peer: Peer, length: nat, pace: Option<nat>)
    requires s.held
    ensures var s' := Next(s, Depart(peer, length, pace)); s'.held && s'.turns.ready == s.turns.ready
  {
    if peer in s.sessions {
      var t := Gone(s, peer).turns;
      if t.outOfSync == {} {
        RecheckKeepsClients(t, Sorted(t.pending.Keys));
      }
      hide CompareAll;
    }
  }

  lemma WaitsJoin(s: RelayState, step: Step)
    requires s.held && (step.Connect? || step.Deliver? || step.Load?)
    ensures Next(s, step).held && Next(s, step).turns.ready == s.turns.ready
  {
    hide Stream, Replay, SentTo, DueFlares, AdmitAll, PlayersRemain;
  }

  /** Until it is restarted, a resumed match releases nothing. */
  lemma {:induction false} HeldWaits(s: RelayState, steps: seq<Step>)
    requires s.held && forall step | step in steps :: Waits(step)
    ensures Play(s, steps).held && Play(s, steps).turns.ready == s.turns.ready
    decreases |steps|
  {
    if steps != [] {
      assert Waits(steps[0]) && forall step | step in steps[1..] :: step in steps;
      if Inside(steps[0]) {
        WaitsInside(s, steps[0]);
      } else if steps[0].Depart? {
        WaitsDepart(s, steps[0].peer, steps[0].length, steps[0].pace);
      } else {
        WaitsJoin(s, steps[0]);
      }
      hide Next;
      HeldWaits(Next(s, steps[0]), steps[1..]);
    }
  }

  /** A live joiner that answers with a saved state's turn while a match started
      over is still held is in step, once turns are released, exactly if the
      journal that was left reached that turn. */
  lemma SavedStateExact(s: RelayState, cut: nat, unixMs: int, meanwhile: seq<Step>, peer: Peer, turn: nat,
                        tail: seq<Step>)
    requires RunInv(s) && s.cfg.saving && cut <= |s.saved|
    requires forall step | step in meanwhile :: Waits(step)
    requires var h := Play(Next(s, Crash(cut, unixMs)), meanwhile);
             LoadedGame(h, peer, turn).Ok? && !h.sessions[peer].delayed
    requires forall step | step in tail :: Stays(step, peer)
    ensures var h := Play(Next(s, Crash(cut, unixMs)), meanwhile);
            var s2 := Play(LoadedGame(h, peer, turn).value, tail);
            && peer in s2.out
            && (s2.turns.ready > LastTurn(s.saved[..cut]) ==>
                  (InStep(Game(s2.out[peer]), turn, s2.turns.ready, s2.log, s.cfg.turnLength)
                   <==> turn <= LastTurn(s.saved[..cut])))
  {
    var r := Next(s, Crash(cut, unixMs));
    var h := Play(r, meanwhile);
    RestartKeeps(s, cut, unixMs);
    assert r.held && r.turns.ready == LastTurn(s.saved[..cut]) && r.cfg == s.cfg;
    hide RunInv, LoadedGame, Play, Next, InStep, Game, Restarted, LastTurn;
    RunKeeps(r, meanwhile);
    HeldWaits(r, meanwhile);
    SameConfig(r, meanwhile);
    LiveJoinExact(h, peer, turn, tail);
  }

  /** Both logs have these turns, with the same commands and lengths. */
  ghost predicate SameUpTo(a: Log, b: Log, turn: nat) {
    forall t: nat | INITIAL_READY_TURN < t <= turn ::
      For(a, t) == For(b, t) && t in a.lengths && t in b.lengths && a.lengths[t] == b.lengths[t]
  }

  /** The log a match starts over with covers a saved state's turn, with the
      very turns the state was simulated from, exactly under the same guard. */
  lemma SavedStateCovered(s: RelayState, cut: nat, unixMs: int, turn: nat)
    requires RunInv(s) && s.cfg.saving && cut <= |s.saved| && INITIAL_READY_TURN < turn <= s.turns.ready
    ensures var r := Next(s, Crash(cut, unixMs));
            SameUpTo(r.log, s.log, turn) <==> turn <= LastTurn(s.saved[..cut])
  {
    CrashRecovers(s, cut, unixMs);
    assert LogOk(s.log, s.turns.ready);
    hide Streams, Roster, Names, Window, Quiet, JournalOk, JoinsHeld, TurnsOf, LoggedTurns, HashesTimely,
         HashesAgree, RebuiltHashes;
    var r := Next(s, Crash(cut, unixMs));
    assert r.turns.ready == LastTurn(s.saved[..cut]);
    assert turn in r.log.lengths <==> turn <= r.turns.ready;
    hide Restarted, RebuiltLog, LastTurn;
  }

  /** A match stopped and started over from its whole save goes on from the turn
      it stopped at, with every turn of its log. */
  lemma CleanStop(s: RelayState, stopMs: int, unixMs: int)
    requires RunInv(s) && s.cfg.saving
    ensures var stopped := Next(s, Stop(stopMs));
            var r := Next(stopped, Crash(|stopped.saved|, unixMs));
            && r.turns.ready == s.turns.ready && IsCut(r.log, s.log, s.turns.ready) && RunInv(r)
  {
    hide Roster, Names, Window, Quiet, JoinsHeld, PeerOk, LogOk, HashesTimely, HashesAgree, RebuiltLog,
         RebuiltHashes, IsCut, Streams;
    var stopped := Next(s, Stop(stopMs));
    StopKeeps(s, stopMs);
    assert stopped.saved[..|stopped.saved|] == stopped.saved;
    RestartKeeps(stopped, |stopped.saved|, unixMs);
    CrashRecovers(stopped, |stopped.saved|, unixMs);
    LastTurnIs(stopped.saved, s.log, s.turns.ready);
    hide RunInv, Base;
  }

  // ---- a saved state ahead of its journal, served ----

  predicate Newcomer(session: Session) {
    session.role.Syncing? && session.snapshot.None? && !session.observer && !session.delayed && !session.aiHost
  }

  /** The restarted match lets a player in, and hands it a state of any turn. */
  lemma ServedAfterCrash(s: RelayState, cut: nat, unixMs: int, peer: Peer, session: Session, turn: nat,
                         snapshot: Bytes)
    requires s.cfg.saving && cut <= |s.saved| && Newcomer(session)
    ensures var h := Play(Next(s, Crash(cut, unixMs)),
                          [Connect(peer, session)] + [Deliver(peer, turn, turn, snapshot)]);
            && LoadedGame(h, peer, turn).Ok? && h.sessions == map[peer := session.(snapshot := Some((turn, turn)))]
            && h.turns.clients == map[] && h.turns.ready == LastTurn(s.saved[..cut]) && h.cfg == s.cfg
            && h.log == RebuiltLog(s.saved[..cut])
  {
    hide RebuiltLog, RebuiltHashes, LastTurn;
    var r := Next(s, Crash(cut, unixMs));
    var r1 := Next(r, Connect(peer, session));
    assert r1.sessions == map[peer := session];
    var h := Next(r1, Deliver(peer, turn, turn, snapshot));
    hide Play, Next, Entered;
    PlayOn(r, [Connect(peer, session)], [Deliver(peer, turn, turn, snapshot)]);
    PlayOne(r, Connect(peer, session));
    PlayOne(r1, Deliver(peer, turn, turn, snapshot));
  }

  /** A sole player, sealed ahead, is let on by a restart. */
  lemma UnholdReleases(s: RelayState, peer: Peer, length: nat)
    requires s.turns.clients.Keys == {peer} && s.turns.clients[peer].IsPlayer() && !s.turns.clients[peer].aiHost
    requires s.turns.clients[peer].sealed > s.turns.ready
    ensures var s' := Next(s, Unhold(length, None));
            && s'.turns.ready > s.turns.ready && s.turns.ready + 1 in s'.log.lengths
            && s'.log.lengths[s.turns.ready + 1] == length
  {
    assert Blocks(s.turns.ready, s.turns.clients[peer], s.cfg.lag);
    assert InWay(s.turns, s.cfg.lag, false, peer) && EveryoneAhead(s.turns, s.cfg.lag, false);
    ReleaseStep(s.turns, s.cfg.lag, None, false);
    var upTo := Release(s.turns, s.cfg.lag, None).ready;
    RunLengths(s.log, s.turns.ready, upTo, length);
    hide ReleaseCount, LengthenedRun, Stream, DueFlares, SentTo, SealMsgs, TurnRecords, AdmitAll, PlayersRemain;
    assert s.(held := false).turns == s.turns;
  }

  lemma SentAgain(h: RelayState, h1: RelayState, peer: Peer, turn: nat, length: nat)
    requires RunInv(h) && LoadedGame(h, peer, turn) == Ok(h1) && !h.sessions[peer].delayed
    requires turn > h.turns.ready == h1.turns.ready && h1.cfg == h.cfg && h1.turns.clients.Keys == {peer}
    requires h1.turns.clients[peer].IsPlayer() && !h1.turns.clients[peer].aiHost
    requires h1.turns.clients[peer].sealed > h1.turns.ready
    ensures var s2 := Next(h1, Unhold(length, None));
            && peer in s2.out && SealsOf(Game(s2.out[peer])) != []
            && SealsOf(Game(s2.out[peer]))[0] == (h.turns.ready + 1, length)
            && !InStep(Game(s2.out[peer]), turn, s2.turns.ready, s2.log, h.cfg.turnLength)
  {
    hide RunInv, LoadedGame, Play, Next, InStep, Game, SealsOf, SealRun;
    var unhold := Unhold(length, None);
    var s2 := Next(h1, unhold);
    UnholdReleases(h1, peer, length);
    LiveJoinExact(h, peer, turn, [unhold]);
    PlayOne(h1, unhold);
    SealRunHead(s2.log, h.turns.ready, s2.turns.ready, h.cfg.turnLength);
  }

  /** It is then sent the first turn past the journal again, though its state
      has that turn behind it. */
  lemma SavedStateRepeats(s: RelayState, cut: nat, unixMs: int, peer: Peer, session: Session, turn: nat,
                          snapshot: Bytes, length: nat)
    requires RunInv(s) && s.cfg.saving && cut <= |s.saved| && Newcomer(session)
    requires turn > LastTurn(s.saved[..cut])
    ensures var h := Play(Next(s, Crash(cut, unixMs)),
                          [Connect(peer, session)] + [Deliver(peer, turn, turn, snapshot)]);
            var s2 := Play(h, [Load(peer, turn)] + [Unhold(length, None)]);
            && peer in s2.out && SealsOf(Game(s2.out[peer])) != []
            && SealsOf(Game(s2.out[peer]))[0] == (LastTurn(s.saved[..cut]) + 1, length)
            && !InStep(Game(s2.out[peer]), turn, s2.turns.ready, s2.log, s.cfg.turnLength)
  {
    hide Play, Next, LastTurn, RebuiltLog, Restarted, InStep, Game, SealsOf, SealRun, LoadedGame, RunInv;
    var r := Next(s, Crash(cut, unixMs));
    RestartKeeps(s, cut, unixMs);
    CrashIs(s, cut, unixMs);
    var before := [Connect(peer, session)] + [Deliver(peer, turn, turn, snapshot)];
    var h := Play(r, before);
    ServedAfterCrash(s, cut, unixMs, peer, session, turn, snapshot);
    RunKeeps(r, before);
    var h1 := LoadedGame(h, peer, turn).value;
    LoadedAlone(h, peer, turn);
    SentAgain(h, h1, peer, turn, length);
    LoadIs(h, peer, turn);
    PlayOn(h, [Load(peer, turn)], [Unhold(length, None)]);
    PlayOne(h, Load(peer, turn));
    PlayOne(h1, Unhold(length, None));
  }

  lemma CrashIs(s: RelayState, cut: nat, unixMs: int)
    requires s.cfg.saving && cut <= |s.saved|
    ensures Next(s, Crash(cut, unixMs)) == Restarted(s.cfg, s.saved[..cut], unixMs)
  {
    hide Restarted;
  }

  lemma LoadIs(s: RelayState, peer: Peer, turn: nat)
    requires LoadedGame(s, peer, turn).Ok?
    ensures Next(s, Load(peer, turn)) == LoadedGame(s, peer, turn).value
  {
    hide LoadedGame;
  }

  lemma LoadedAlone(h: RelayState, peer: Peer, turn: nat)
    requires LoadedGame(h, peer, turn).Ok? && h.turns.clients == map[]
    requires var session := h.sessions[peer]; !session.observer && !session.delayed && !session.aiHost
    ensures var h1 := LoadedGame(h, peer, turn).value;
            && h1.turns.clients.Keys == {peer} && h1.turns.clients[peer].IsPlayer() && !h1.turns.clients[peer].aiHost
            && h1.turns.clients[peer].sealed == h.turns.ready + COMMAND_DELAY - 1
            && h1.turns.ready == h.turns.ready && h1.cfg == h.cfg
  {
    hide Replay, SentTo;
  }

  // ---- played out ----

  const Saved: Config := Config(None, 1, 200, true)

  const Player: Session := Session(Syncing, 1, true, false, false, false, None)

  /** Turn 4 is released and a state saved at it, the crash leaves nothing of
      the journal, and whoever loads that state is sent turn 4 again. */
  lemma StateOutlivesJournal()
    ensures Starters(Alone)
    ensures var s := Play(Begun(Saved, Alone), [SealUp(0, 4, 200, None)]);
            var h := Play(Next(s, Crash(0, 0)), [Connect(1, Player)] + [Deliver(1, 4, 4, [])]);
            var s2 := Play(h, [Load(1, 4)] + [Unhold(200, None)]);
            && s.turns.ready == 4
            && 1 in s2.out && SealsOf(Game(s2.out[1])) != [] && SealsOf(Game(s2.out[1]))[0] == (4, 200)
  {
    var s0 := Begun(Saved, Alone);
    assert Solo(s0, 0) && s0.turns.ready == 3 && s0.cfg == Saved;
    hide RunInv, Play, Next, Begun, Game, SealsOf, InStep, Solo;
    BegunKeeps(Saved, Alone);
    SoloSeal(s0, 0, 200);
    PlayOne(s0, SealUp(0, 4, 200, None));
    var s := Play(s0, [SealUp(0, 4, 200, None)]);
    RunKeeps(s0, [SealUp(0, 4, 200, None)]);
    assert s.saved[..0] == [] && LastTurn([]) == 3;
    SavedStateRepeats(s, 0, 0, 1, Player, 4, [], 200);
  }
}
