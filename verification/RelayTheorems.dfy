/** The relay's guarantees over every run. */
module RelayTheorems {
  import opened Prelude
  import opened Turns
  import opened Lockstep
  import opened MatchLogs
  import opened ObserverFeeds
  import opened Relay
  import opened RelayRuns
  import opened RelaySteps
  import opened CrashRestart
  import Agree = HashAgreement

  datatype Step =
    | Connect(peer: Peer, session: Session)
    | Deliver(peer: Peer, lo: nat, hi: nat, snapshot: Bytes)
    | Load(peer: Peer, turn: nat)
    | Say(peer: Peer, command: Command, admitted: bool)
    | SealUp(peer: Peer, turn: nat, length: nat, pace: Option<nat>)
    | Tick(length: nat, pace: Option<nat>)
    | Hashed(peer: Peer, turn: nat, hash: Hash)
    | Signal(peer: Peer, flare: Flare)
    | Depart(peer: Peer, length: nat, pace: Option<nat>)
    | Unhold(length: nat, pace: Option<nat>)
    | Stop(unixMs: int)
    | Crash(cut: nat, unixMs: int)

  function Settled(s: RelayState, r: Result<RelayState, RelayFault>): RelayState {
    match r case Ok(s') => s' case Err(_) => s
  }

  /** A message that is refused changes nothing here; its sender is
      disconnected by a step of its own. */
  ghost function Next(s: RelayState, step: Step): RelayState {
    match step
    case Connect(peer, session) => if NewSession(s, peer, session) then Connected(s, peer, session) else s
    case Deliver(peer, lo, hi, snapshot) => Delivered(s, peer, lo, hi, snapshot)
    case Load(peer, turn) => Settled(s, LoadedGame(s, peer, turn))
    case Say(peer, c, admitted) => Settled(s, PlayerCommand(s, peer, c, admitted))
    case SealUp(peer, turn, length, pace) => Settled(s, TurnSealed(s, peer, turn, length, pace))
    case Tick(length, pace) => ReleaseTurns(s, length, pace)
    case Hashed(peer, turn, hash) => Settled(s, HashReported(s, peer, turn, hash))
    case Signal(peer, flare) => Settled(s, FlareRaised(s, peer, flare))
    case Depart(peer, length, pace) => Disconnected(s, peer, length, pace)
    case Unhold(length, pace) => Unheld(s, length, pace)
    case Stop(unixMs) => Stopped(s, unixMs)
    case Crash(cut, unixMs) =>
      if s.cfg.saving && cut <= |s.saved| then Restarted(s.cfg, s.saved[..cut], unixMs) else s
  }

  ghost function Play(s: RelayState, steps: seq<Step>): RelayState
    decreases |steps|
  {
    if steps == [] then s else Play(Next(s, steps[0]), steps[1..])
  }

  predicate Stays(step: Step, p: Peer) { !step.Crash? && !(step.Depart? && step.peer == p) }

  lemma StepKeeps(s: RelayState, step: Step)
    requires RunInv(s)
    ensures RunInv(Next(s, step))
  {
    hide RunInv;
    match step
    case Connect(peer, session) =>
      if NewSession(s, peer, session) { ConnectKeeps(s, peer, session); }
    case Deliver(peer, lo, hi, snapshot) => DeliverKeeps(s, peer, lo, hi, snapshot);
    case Load(peer, turn) => if LoadedGame(s, peer, turn).Ok? { LoadKeeps(s, peer, turn); }
    case Say(peer, c, admitted) =>
      if PlayerCommand(s, peer, c, admitted).Ok? { CommandKeeps(s, peer, c, admitted); }
    case SealUp(peer, turn, length, pace) =>
      if TurnSealed(s, peer, turn, length, pace).Ok? { SealKeeps(s, peer, turn, length, pace); }
    case Tick(length, pace) => TickKeeps(s, length, pace);
    case Hashed(peer, turn, hash) =>
      if HashReported(s, peer, turn, hash).Ok? { HashKeeps(s, peer, turn, hash); }
    case Signal(peer, flare) => if FlareRaised(s, peer, flare).Ok? { FlareKeeps(s, peer, flare); }
    case Depart(peer, length, pace) => DisconnectKeeps(s, peer, length, pace);
    case Unhold(length, pace) => UnholdKeeps(s, length, pace);
    case Stop(unixMs) => StopKeeps(s, unixMs);
    case Crash(cut, unixMs) =>
      if s.cfg.saving && cut <= |s.saved| { RestartKeeps(s, cut, unixMs); }
  }

  /** Whatever happens in a match, and however often it crashes and is started
      over, the invariant holds. */
  lemma {:induction false} RunKeeps(s: RelayState, steps: seq<Step>)
    requires RunInv(s)
    ensures RunInv(Play(s, steps))
    decreases |steps|
  {
    if steps != [] {
      StepKeeps(s, steps[0]);
      RunKeeps(Next(s, steps[0]), steps[1..]);
    }
  }

  /** A departure: everything forgotten, then a release, then a recheck. */
  lemma DepartShape(s: RelayState, peer: Peer, length: nat, pace: Option<nat>)
    requires peer in s.sessions
    ensures var s1, s' := ReleaseTurns(Gone(s, peer), length, pace), Next(s, Depart(peer, length, pace));
            && s'.out == s1.out && s'.feed == s1.feed && s'.sessions == s1.sessions && s'.log == s1.log
            && s'.turns == Recheck(s1.turns).0.(settled := [])
            && s'.turns.clients == s1.turns.clients && s'.turns.ready == s1.turns.ready
            && s'.cfg == s1.cfg && s'.held == s1.held
  {
    var t := ReleaseTurns(Gone(s, peer), length, pace).turns;
    if t.outOfSync == {} {
      RecheckKeepsClients(t, Sorted(t.pending.Keys));
    }
    assert Recheck(t).0.clients == t.clients && Recheck(t).0.ready == t.ready;
    hide ReleaseTurns, Recheck;
  }

  /** Every starter is in game, with an id of its own. */
  predicate Starters(starters: map<Peer, Session>) {
    && (forall p | p in starters ::
          && starters[p].role.InGame? && starters[p].snapshot.None?
          && (starters[p].delayed ==> starters[p].observer))
    && (forall p, q | p in starters && q in starters && p != q :: starters[p].id != starters[q].id)
  }

  lemma BegunStreams(cfg: Config, starters: map<Peer, Session>)
    ensures Streams(Begun(cfg, starters))
  {
    var s := Begun(cfg, starters);
    GameOfOther([Loaded(0)]);
    assert InStep([], INITIAL_READY_TURN, INITIAL_READY_TURN, EmptyLog, cfg.turnLength);
    hide Game, InStep;
  }

  lemma BegunKeeps(cfg: Config, starters: map<Peer, Session>)
    requires Starters(starters)
    ensures RunInv(Begun(cfg, starters))
  {
    BegunStreams(cfg, starters);
    hide Streams, PeerOk;
  }

  // ---- the theorems ----

  /** The lockstep window holds in every reachable state. */
  lemma LockstepWindow(cfg: Config, starters: map<Peer, Session>, steps: seq<Step>)
    requires Starters(starters)
    ensures Window(Play(Begun(cfg, starters), steps).turns, cfg.lag)
  {
    BegunKeeps(cfg, starters);
    RunKeeps(Begun(cfg, starters), steps);
    SameConfig(Begun(cfg, starters), steps);
    hide Window, Agree.StateInv, Base, JournalOk, JoinsHeld, Streams;
  }

  lemma StepConfig(s: RelayState, step: Step)
    ensures Next(s, step).cfg == s.cfg
  {
    hide Stream, Replay, SentTo, DueFlares, SealMsgs, LengthenedRun, TurnRecords, StateHash, AdmitAll;
  }

  lemma {:induction false} SameConfig(s: RelayState, steps: seq<Step>)
    ensures Play(s, steps).cfg == s.cfg
    decreases |steps|
  {
    if steps != [] {
      StepConfig(s, steps[0]);
      hide Next;
      SameConfig(Next(s, steps[0]), steps[1..]);
    }
  }

  /** Crash recovery: from any run, losing any tail of the save, the match that
      starts over has the live log up to some released turn, whole. */
  lemma CrashRecovery(cfg: Config, starters: map<Peer, Session>, steps: seq<Step>, cut: nat, unixMs: int)
    requires Starters(starters) && cfg.saving
    requires cut <= |Play(Begun(cfg, starters), steps).saved|
    ensures var s := Play(Begun(cfg, starters), steps);
            Recovered(s, Restarted(cfg, s.saved[..cut], unixMs))
  {
    BegunKeeps(cfg, starters);
    RunKeeps(Begun(cfg, starters), steps);
    SameConfig(Begun(cfg, starters), steps);
    CrashRecovers(Play(Begun(cfg, starters), steps), cut, unixMs);
  }

  // ---- released turns are frozen ----

  ghost predicate Frozen(a: RelayState, b: RelayState) {
    && a.turns.ready <= b.turns.ready
    && a.feed.head <= b.feed.head
    && (forall t: nat | t <= a.turns.ready :: For(b.log, t) == For(a.log, t))
    && (forall t | t in a.log.lengths :: t in b.log.lengths && b.log.lengths[t] == a.log.lengths[t])
  }

  lemma ReleaseFrozen(s: RelayState, length: nat, pace: Option<nat>)
    requires LogOk(s.log, s.turns.ready)
    ensures Frozen(s, ReleaseTurns(s, length, pace))
  {
    if !s.held {
      var ready := Release(s.turns, s.cfg.lag, pace).ready;
      RunLengths(s.log, s.turns.ready, ready, length);
    }
  }

  lemma DepartFrozen(s: RelayState, peer: Peer, length: nat, pace: Option<nat>)
    requires LogOk(s.log, s.turns.ready)
    ensures Frozen(s, Disconnected(s, peer, length, pace))
  {
    if peer in s.sessions {
      ReleaseFrozen(Gone(s, peer), length, pace);
      var t := ReleaseTurns(Gone(s, peer), length, pace).turns;
      hide LogOk;
      if t.outOfSync == {} {
        RecheckKeepsClients(t, Sorted(t.pending.Keys));
      }
    }
  }

  lemma JoinFrozen(s: RelayState, step: Step)
    requires step.Connect? || step.Deliver? || step.Load? || step.Signal? || step.Stop?
    ensures Frozen(s, Next(s, step))
  {
    hide SentTo, RunInv;
    hide Stream, Replay;
  }

  lemma SayFrozen(s: RelayState, peer: Peer, c: Command, admitted: bool)
    ensures Frozen(s, Next(s, Say(peer, c, admitted)))
  {
  }

  /** A turn that was released never gains, loses or reorders a command, and its
      length never changes, whatever is sent afterwards. */
  lemma StepFrozen(s: RelayState, step: Step)
    requires RunInv(s) && !step.Crash?
    ensures Frozen(s, Next(s, step))
  {
    hide LogOk, Streams, Roster, Names, Window, Quiet, JournalOk, JoinsHeld;
    match step
    case SealUp(peer, turn, length, pace) =>
      if TurnSealed(s, peer, turn, length, pace).Ok? {
        ReleaseFrozen(s.(turns := SealTurn(s.turns, peer, turn).value), length, pace);
      }
    case Tick(length, pace) => ReleaseFrozen(s, length, pace);
    case Unhold(length, pace) => ReleaseFrozen(s.(held := false), length, pace);
    case Depart(peer, length, pace) => DepartFrozen(s, peer, length, pace);
    case Hashed(peer, turn, hash) => HashFrozen(s, peer, turn, hash);
    case Say(peer, c, admitted) => SayFrozen(s, peer, c, admitted);
    case _ => JoinFrozen(s, step);
  }

  lemma HashFrozen(s: RelayState, peer: Peer, turn: nat, hash: Hash)
    requires RunInv(s)
    ensures Frozen(s, Next(s, Hashed(peer, turn, hash)))
  {
    hide Streams, Roster, Names, Window, JournalOk, JoinsHeld, LogOk;
    if HashReported(s, peer, turn, hash).Ok? {
      ReportedTurns(s.turns, peer, turn, hash);
    }
  }

  lemma {:induction false} ReleasedTurnsFrozen(s: RelayState, steps: seq<Step>)
    requires RunInv(s) && forall step | step in steps :: !step.Crash?
    ensures Frozen(s, Play(s, steps))
    decreases |steps|
  {
    if steps != [] {
      StepFrozen(s, steps[0]);
      StepKeeps(s, steps[0]);
      ReleasedTurnsFrozen(Next(s, steps[0]), steps[1..]);
    }
  }
}
