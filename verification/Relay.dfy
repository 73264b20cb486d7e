/** The in-match relay: the handlers that release turns, relay commands, replay
    the log to joiners and run the delayed feed. */
module Relay {
  import opened Prelude
  import opened Turns
  import opened Lockstep
  import opened MatchLogs
  import opened ObserverFeeds

  datatype Role = Syncing | InGame

  // Which feed a session watches is fixed while it lasts.
  datatype Session = Session(
    role: Role, id: nat, seated: bool, observer: bool, delayed: bool, aiHost: bool,
    snapshot: Option<(nat, nat)>)

  /** One record of the save journal, in the order things happened. */
  datatype Record =
    | TurnRecord(turn: nat, length: nat, commands: seq<Command>)
    | HashRecord(turn: nat, hash: Bytes)
    | ResumedRecord(turn: nat, unixMs: int)
    | StoppedRecord(turn: nat, unixMs: int)

  datatype Config = Config(lag: Option<nat>, delay: nat, turnLength: nat, saving: bool)

  datatype RelayFault =
    | UnknownPeer
    | WrongPhase
    | SealAhead(got: nat, ready: nat)
    | HashAhead(got: nat, ready: nat)
    | LoadedBeforeSnapshot
    | LoadedOutOfRange(got: nat)
    | FromTurns(fault: Fault)

  /** The turn a peer answered with, and the turn its stream had reached then:
      the released turn, or the delayed feed's head. */
  datatype Start = Start(loaded: nat, reached: nat) {
    predicate InTime() { loaded <= reached }

    function From(): nat { if InTime() then loaded else reached }
  }

  datatype RelayState = RelayState(
    cfg: Config,
    turns: TurnState,
    log: Log,
    feed: Feed,
    sessions: map<Peer, Session>,
    // A resumed match that nobody has restarted yet releases nothing.
    held: bool,
    // Everything sent to each connected peer, oldest first.
    out: map<Peer, seq<Msg>>,
    // Everything handed to the save writer, oldest first.
    saved: seq<Record>,
    // Where each in-game peer's state and its stream began.
    base: map<Peer, Start>)

  // ---- sending ----

  function SentTo(out: map<Peer, seq<Msg>>, peers: set<Peer>, ms: seq<Msg>): map<Peer, seq<Msg>> {
    map p | p in out :: if p in peers then out[p] + ms else out[p]
  }

  function LivePeers(s: RelayState): set<Peer> {
    set p | p in s.sessions && s.sessions[p].role.InGame?
            && !(p in s.turns.clients && s.turns.clients[p].delayed)
  }

  function DelayedPeers(t: TurnState): set<Peer> {
    set p | p in t.clients && t.clients[p].delayed
  }

  function PlayersRemain(sessions: map<Peer, Session>): bool {
    exists p | p in sessions :: sessions[p].seated
  }

  // ---- releasing ----

  function LengthenedRun(log: Log, from: nat, upTo: nat, length: nat): Log
    decreases upTo
  {
    if upTo <= from then log else Lengthened(LengthenedRun(log, from, upTo - 1, length), upTo, length)
  }

  function SealMsgs(from: nat, upTo: nat, length: nat): seq<Msg>
    decreases upTo
  {
    if upTo <= from then [] else SealMsgs(from, upTo - 1, length) + [Seal(upTo, length)]
  }

  function TurnRecords(log: Log, from: nat, upTo: nat, length: nat): seq<Record>
    decreases upTo
  {
    if upTo <= from then []
    else TurnRecords(log, from, upTo - 1, length) + [TurnRecord(upTo, length, For(log, upTo))]
  }

  function Flares(fs: seq<Flare>): seq<Msg> {
    seq(|fs|, i requires 0 <= i < |fs| => Flared(fs[i]))
  }

  function AdmitAll(out: map<Peer, seq<Msg>>, due: map<Peer, HeldJoin>): map<Peer, seq<Msg>> {
    map p | p in out :: if p in due then out[p] + [Join(due[p].snapshot)] else out[p]
  }

  /** Sends the delayed observers the turns that fell due, then due flares, and
      lets in the joiners the feed has caught up with. */
  function AdvanceFeed(s: RelayState): RelayState {
    var f := Advanced(s.feed, s.turns.ready, !PlayersRemain(s.sessions));
    var due := Stream(s.log, s.feed.head, f.head, s.cfg.turnLength) + Flares(DueFlares(f));
    s.(feed := Admitted(Flushed(f)),
       out := AdmitAll(SentTo(s.out, DelayedPeers(s.turns), due), DueJoins(f)))
  }

  /** A release, up to the point where the delayed feed is advanced. */
  function ReleaseLive(s: RelayState, length: nat, pace: Option<nat>): RelayState {
    var t := Release(s.turns, s.cfg.lag, pace);
    s.(turns := t,
       log := LengthenedRun(s.log, s.turns.ready, t.ready, length),
       out := SentTo(s.out, LivePeers(s), SealMsgs(s.turns.ready, t.ready, length)),
       saved := s.saved + (if s.cfg.saving then TurnRecords(s.log, s.turns.ready, t.ready, length)
                           else []))
  }

  function ReleaseTurns(s: RelayState, length: nat, pace: Option<nat>): RelayState {
    if s.held then s else AdvanceFeed(ReleaseLive(s, length, pace))
  }

  function HashRecords(settled: seq<(nat, Hash)>): seq<Record> {
    seq(|settled|, i requires 0 <= i < |settled| => HashRecord(settled[i].0, settled[i].1))
  }

  function SaveSettled(s: RelayState): RelayState {
    s.(turns := s.turns.(settled := []),
       saved := s.saved + (if s.cfg.saving then HashRecords(s.turns.settled) else []))
  }

  // ---- the handlers ----

  /** `admitted` is the verdict of the limits and the slot check, which no
      other part of the stream depends on. */
  function PlayerCommand(s: RelayState, peer: Peer, c: Command, admitted: bool)
    : Result<RelayState, RelayFault>
  {
    if peer !in s.sessions then Err(UnknownPeer)
    else if !s.sessions[peer].role.InGame? then Err(WrongPhase)
    else if c.turn <= s.turns.ready || c.turn - s.turns.ready > COMMAND_DELAY || !admitted then Ok(s)
    else Ok(s.(out := SentTo(s.out, LivePeers(s), [Cmd(c)]), log := Recorded(s.log, c)))
  }

  function TurnSealed(s: RelayState, peer: Peer, turn: nat, length: nat, pace: Option<nat>)
    : Result<RelayState, RelayFault>
  {
    if turn > s.turns.ready + COMMAND_DELAY then Err(SealAhead(turn, s.turns.ready))
    else match SealTurn(s.turns, peer, turn)
      case Err(e) => Err(FromTurns(e))
      case Ok(t) => Ok(ReleaseTurns(s.(turns := t), length, pace))
  }

  ghost function HashReported(s: RelayState, peer: Peer, turn: nat, hash: Hash)
    : Result<RelayState, RelayFault>
  {
    if turn > s.turns.ready then Err(HashAhead(turn, s.turns.ready))
    else match StateHash(s.turns, peer, turn, hash)
      case Err(e) => Err(FromTurns(e))
      case Ok(o) => Ok(SaveSettled(s.(turns := o.0)))
  }

  function FlareRaised(s: RelayState, peer: Peer, flare: Flare): Result<RelayState, RelayFault> {
    if peer !in s.sessions then Err(UnknownPeer)
    else if !s.sessions[peer].role.InGame? then Err(WrongPhase)
    else
      var s1 := s.(out := SentTo(s.out, LivePeers(s), [Flared(flare)]));
      var turn := if peer in s.turns.clients && s.turns.clients[peer].delayed
                  then s.feed.head else s.turns.ready;
      if turn <= s.feed.head
      then Ok(s1.(out := SentTo(s1.out, DelayedPeers(s.turns), [Flared(flare)])))
      else Ok(s1.(feed := Queued(s.feed, turn, flare)))
  }

  function Delivered(s: RelayState, joiner: Peer, lo: nat, hi: nat, snapshot: Bytes): RelayState {
    if joiner !in s.sessions || !s.sessions[joiner].role.Syncing? then s
    else
      var s1 := s.(sessions := s.sessions[joiner := s.sessions[joiner].(snapshot := Some((lo, hi)))]);
      if s.sessions[joiner].delayed
      then AdvanceFeed(s1.(feed := Holding(s.feed, joiner, hi, snapshot)))
      else s1.(out := SentTo(s.out, {joiner}, [Join(snapshot)]))
  }

  function Entered(s: RelayState, peer: Peer, msgs: seq<Msg>, sealed: nat, simulated: nat,
                   loaded: nat, reached: nat): RelayState
    requires peer in s.sessions
  {
    var session := s.sessions[peer];
    var t := Register(s.turns, peer, session.id, sealed, simulated,
                      session.observer, session.delayed);
    s.(out := SentTo(s.out, {peer}, msgs),
       sessions := s.sessions[peer := session.(role := InGame, snapshot := None)],
       turns := if session.aiHost && !session.delayed then MarkAiHost(t, peer) else t,
       base := s.base[peer := Start(loaded, reached)])
  }

  function ResumeLive(s: RelayState, peer: Peer, loaded: nat): RelayState
    requires peer in s.sessions
  {
    var ready := s.turns.ready;
    var upper := Max(ready + 1, LastStored(s.log));
    Entered(s, peer, Replay(s.log, loaded, ready, upper, s.cfg.turnLength) + [Loaded(ready)],
            ready + COMMAND_DELAY - 1, ready, loaded, ready)
  }

  function ResumeDelayed(s: RelayState, peer: Peer, loaded: nat): RelayState
    requires peer in s.sessions
  {
    var head := s.feed.head;
    var s1 := Entered(s, peer, Stream(s.log, loaded, head, s.cfg.turnLength) + [Loaded(head)],
                      head + COMMAND_DELAY - 1, head, loaded, head);
    s1.(feed := Released(s1.feed, peer))
  }

  function LoadedGame(s: RelayState, peer: Peer, loaded: nat): Result<RelayState, RelayFault> {
    if peer !in s.sessions then Err(UnknownPeer)
    else
      var session := s.sessions[peer];
      if !session.role.Syncing? then Err(WrongPhase)
      else if session.snapshot.None? then Err(LoadedBeforeSnapshot)
      else if !(session.snapshot.value.0 <= loaded <= session.snapshot.value.1) then
        Err(LoadedOutOfRange(loaded))
      else if session.delayed then Ok(ResumeDelayed(s, peer, loaded))
      else Ok(ResumeLive(s, peer, loaded))
  }

  function Connected(s: RelayState, peer: Peer, session: Session): RelayState {
    s.(sessions := s.sessions[peer := session], out := s.out[peer := []])
  }

  ghost function Disconnected(s: RelayState, peer: Peer, length: nat, pace: Option<nat>): RelayState {
    if peer !in s.sessions then s
    else
      var s1 := s.(sessions := s.sessions - {peer}, out := s.out - {peer}, base := s.base - {peer},
                   turns := Forget(s.turns, peer), feed := Released(s.feed, peer));
      var s2 := ReleaseTurns(s1, length, pace);
      SaveSettled(s2.(turns := Recheck(s2.turns).0))
  }

  function Unheld(s: RelayState, length: nat, pace: Option<nat>): RelayState {
    ReleaseTurns(s.(held := false), length, pace)
  }

  /** A server told to stop leaves a mark behind its save; the match goes on
      when it is started over from there. */
  function Stopped(s: RelayState, unixMs: int): RelayState {
    s.(saved := s.saved + (if s.cfg.saving then [StoppedRecord(s.turns.ready, unixMs)] else []))
  }

  // ---- starting, and starting over from a save ----

  function Registered(sessions: map<Peer, Session>): map<Peer, Client> {
    map p | p in sessions ::
      Client(sessions[p].id, INITIAL_READY_TURN, 0, sessions[p].observer, sessions[p].delayed,
             sessions[p].aiHost)
  }

  function Greeted(starters: map<Peer, Session>): map<Peer, seq<Msg>> {
    map p | p in starters :: [Loaded(0)]
  }

  function FromTheStart(starters: map<Peer, Session>): map<Peer, Start> {
    map p | p in starters :: Start(INITIAL_READY_TURN, INITIAL_READY_TURN)
  }

  function Begun(cfg: Config, starters: map<Peer, Session>): RelayState {
    RelayState(cfg, Fresh.(clients := Registered(starters)), EmptyLog, NewFeed(cfg.delay), starters,
               false, Greeted(starters), [], FromTheStart(starters))
  }

  function RecordedAll(log: Log, cs: seq<Command>): Log {
    if cs == [] then log else Recorded(RecordedAll(log, cs[..|cs| - 1]), cs[|cs| - 1])
  }

  /** The log as resuming rebuilds it, record by record. */
  function RebuiltLog(records: seq<Record>): Log {
    if records == [] then EmptyLog
    else
      var log := RebuiltLog(records[..|records| - 1]);
      match records[|records| - 1]
      case TurnRecord(turn, length, commands) => RecordedAll(Lengthened(log, turn, length), commands)
      case _ => log
  }

  function RebuiltHashes(records: seq<Record>): map<nat, Hash> {
    if records == [] then map[]
    else
      var hashes := RebuiltHashes(records[..|records| - 1]);
      match records[|records| - 1]
      case HashRecord(turn, hash) => hashes[turn := hash]
      case _ => hashes
  }

  /** The turn a saved match stopped at. */
  function LastTurn(records: seq<Record>): nat {
    if records == [] then INITIAL_READY_TURN
    else
      match records[|records| - 1]
      case TurnRecord(turn, _, _) => Max(turn, INITIAL_READY_TURN)
      case _ => LastTurn(records[..|records| - 1])
  }

  function Restarted(cfg: Config, records: seq<Record>, unixMs: int): RelayState {
    var turn := LastTurn(records);
    RelayState(cfg, Resumed(turn, RebuiltHashes(records)), RebuiltLog(records),
               ResumedFeed(cfg.delay, SaturatingSub(turn, cfg.delay)), map[], true, map[],
               records + [ResumedRecord(turn, unixMs)], map[])
  }
}
