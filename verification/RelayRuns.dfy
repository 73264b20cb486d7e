/** Whole runs of the relay: joins, departures, commands, seals, hashes, flares,
    and crashes that restart the match from any prefix of its save. */
module RelayRuns {
  import opened Prelude
  import opened Turns
  import opened Lockstep
  import opened MatchLogs
  import opened ObserverFeeds
  import opened Relay
  import Agree = HashAgreement

  // ---- the invariant, part by part ----

  ghost predicate Roster(sessions: map<Peer, Session>, clients: map<Peer, Client>,
                         out: map<Peer, seq<Msg>>, base: map<Peer, Start>,
                         joins: map<Peer, HeldJoin>)
  {
    && (forall p :: p in clients <==> p in sessions && sessions[p].role.InGame?)
    && (forall p | p in clients ::
          && clients[p].id == sessions[p].id
          && clients[p].delayed == sessions[p].delayed
          && clients[p].observer == sessions[p].observer
          && (!sessions[p].delayed ==> clients[p].aiHost == sessions[p].aiHost))
    && out.Keys == sessions.Keys
    && base.Keys <= clients.Keys
    && joins.Keys <= sessions.Keys
  }

  ghost predicate Names(sessions: map<Peer, Session>) {
    && (forall p, q | p in sessions && q in sessions && p != q :: sessions[p].id != sessions[q].id)
    && (forall p | p in sessions :: sessions[p].delayed ==> sessions[p].observer)
  }

  ghost predicate LogOk(log: Log, ready: nat) {
    && WellFiled(log)
    && (forall t | t in log.commands :: INITIAL_READY_TURN < t <= ready + COMMAND_DELAY)
    && (forall t :: t in log.lengths <==> INITIAL_READY_TURN < t <= ready)
  }

  /** The turn stream of a peer in game. A delayed one has the log from where
      its stream began to the head, a live one the seals from there; a live one
      that answered in time is in step with the log besides. */
  ghost predicate StreamOk(start: Start, delayed: bool, g: seq<Msg>, log: Log, ready: nat, head: nat,
                           default: nat)
  {
    if delayed then start.reached <= head && g == Stream(log, start.From(), head, default)
    else
      && start.reached <= ready
      && if start.InTime() then InStep(g, start.loaded, ready, log, default)
         else SealsOf(g) == SealRun(log, start.reached, ready, default)
  }

  /** What one session has been sent of the turn stream. */
  ghost predicate PeerOk(session: Session, ms: seq<Msg>, base: Option<Start>,
                         log: Log, ready: nat, head: nat, default: nat)
  {
    if session.role.Syncing? then Game(ms) == []
    else base.Some? && StreamOk(base.value, session.delayed, Game(ms), log, ready, head, default)
  }

  function BaseOf(base: map<Peer, Start>, p: Peer): Option<Start> {
    if p in base then Some(base[p]) else None
  }

  ghost predicate Streams(s: RelayState)
    requires s.out.Keys == s.sessions.Keys
  {
    forall p | p in s.sessions ::
      PeerOk(s.sessions[p], s.out[p], BaseOf(s.base, p), s.log, s.turns.ready, s.feed.head,
             s.cfg.turnLength)
  }

  /** A delayed joiner's JOIN is held until the feed covers its snapshot. */
  ghost predicate JoinsHeld(sessions: map<Peer, Session>, feed: Feed) {
    forall p | p in sessions && sessions[p].delayed && sessions[p].role.Syncing?
               && sessions[p].snapshot.Some? ::
      if p in feed.joins then feed.joins[p].bound == sessions[p].snapshot.value.1
      else sessions[p].snapshot.value.1 <= feed.head
  }

  function TurnsOf(records: seq<Record>): seq<Record> {
    if records == [] then []
    else TurnsOf(records[..|records| - 1])
         + (if records[|records| - 1].TurnRecord? then [records[|records| - 1]] else [])
  }

  function LoggedTurns(log: Log, upTo: nat): seq<Record> {
    if upTo <= INITIAL_READY_TURN then []
    else LoggedTurns(log, upTo - 1) + [TurnRecord(upTo, LengthOr(log, upTo, 0), For(log, upTo))]
  }

  ghost predicate HashesTimely(records: seq<Record>) {
    forall i | 0 <= i < |records| && records[i].HashRecord? ::
      records[i].turn <= LastTurn(records[..i])
  }

  ghost predicate HashesAgree(records: seq<Record>, references: map<nat, Hash>) {
    forall i | 0 <= i < |records| && records[i].HashRecord? ::
      records[i].turn in references && references[records[i].turn] == records[i].hash
  }

  /** The journal is the log: every released turn once, in order, whole, and
      every hash after the turn it is for. */
  ghost predicate JournalOk(records: seq<Record>, log: Log, t: TurnState) {
    && TurnsOf(records) == LoggedTurns(log, t.ready)
    && HashesTimely(records)
    && HashesAgree(records, t.references)
  }

  ghost predicate Base(s: RelayState) {
    && Roster(s.sessions, s.turns.clients, s.out, s.base, s.feed.joins)
    && Names(s.sessions)
    && LogOk(s.log, s.turns.ready)
    && INITIAL_READY_TURN <= s.feed.head <= s.turns.ready
  }

  ghost predicate Quiet(t: TurnState) { Agree.StateInv(t) && t.settled == [] }

  ghost predicate RunInv(s: RelayState) {
    && Base(s)
    && Streams(s)
    && JoinsHeld(s.sessions, s.feed)
    && Window(s.turns, s.cfg.lag)
    && Quiet(s.turns)
    && (s.cfg.saving ==> JournalOk(s.saved, s.log, s.turns))
  }

  // ---- one peer, one thing sent ----

  lemma PeerOther(session: Session, ms: seq<Msg>, more: seq<Msg>, base: Option<Start>,
                  log: Log, ready: nat, head: nat, default: nat)
    requires PeerOk(session, ms, base, log, ready, head, default)
    requires forall m | m in more :: !m.IsGame()
    ensures PeerOk(session, ms + more, base, log, ready, head, default)
  {
    GameAppend(ms, more);
    GameOfOther(more);
    assert Game(ms) + [] == Game(ms);
  }

  lemma PeerCommand(session: Session, ms: seq<Msg>, base: Option<Start>, log: Log,
                    ready: nat, head: nat, default: nat, c: Command)
    requires PeerOk(session, ms, base, log, ready, head, default)
    requires c.turn > ready >= head
    ensures PeerOk(session,
                   if session.role.InGame? && !session.delayed then ms + [Cmd(c)] else ms,
                   base, Recorded(log, c), ready, head, default)
  {
    if session.role.InGame? {
      var start := base.value;
      if session.delayed {
        StreamSame(log, Recorded(log, c), start.From(), head, default);
      } else {
        GameAppend(ms, [Cmd(c)]);
        GameIsGame([Cmd(c)]);
        if start.InTime() {
          InStepCommand(Game(ms), start.loaded, ready, log, default, c);
        } else {
          OneMore(Game(ms), Cmd(c), 0);
          SealRunSame(log, Recorded(log, c), start.reached, ready, default);
        }
      }
      hide InStep, Stream, Game, SealsOf, SealRun;
    }
  }

  lemma {:induction false} RunLengths(log: Log, from: nat, upTo: nat, length: nat)
    requires from <= upTo
    ensures LengthenedRun(log, from, upTo, length).commands == log.commands
    ensures forall t: nat :: t in LengthenedRun(log, from, upTo, length).lengths
                             <==> t in log.lengths || from < t <= upTo
    ensures forall t: nat | t in LengthenedRun(log, from, upTo, length).lengths ::
      LengthenedRun(log, from, upTo, length).lengths[t]
      == if from < t <= upTo then length else log.lengths[t]
    decreases upTo
  {
    if upTo > from {
      RunLengths(log, from, upTo - 1, length);
    }
  }

  lemma {:induction false} InStepSeals(g: seq<Msg>, base: nat, log: Log, from: nat, upTo: nat,
                                       length: nat, default: nat)
    requires base <= from <= upTo && InStep(g, base, from, log, default)
    requires forall t | from < t <= upTo :: t !in log.lengths
    ensures InStep(g + SealMsgs(from, upTo, length), base, upTo, LengthenedRun(log, from, upTo, length), default)
    decreases upTo
  {
    if upTo == from {
      assert g + [] == g;
    } else {
      assert LengthenedRun(log, from, upTo, length)
          == Lengthened(LengthenedRun(log, from, upTo - 1, length), upTo, length);
      assert SealMsgs(from, upTo, length) == SealMsgs(from, upTo - 1, length) + [Seal(upTo, length)];
      hide InStep, LengthenedRun, SealMsgs;
      InStepSeals(g, base, log, from, upTo - 1, length, default);
      RunLengths(log, from, upTo - 1, length);
      InStepSeal(g + SealMsgs(from, upTo - 1, length), base, upTo - 1,
                 LengthenedRun(log, from, upTo - 1, length), default, length);
      assert g + SealMsgs(from, upTo, length) == g + SealMsgs(from, upTo - 1, length) + [Seal(upTo, length)];
    }
  }

  lemma {:induction false} SealsOfSealMsgs(log: Log, from: nat, upTo: nat, length: nat, default: nat)
    requires forall t: nat | from < t <= upTo :: LengthOr(log, t, default) == length
    ensures SealsOf(SealMsgs(from, upTo, length)) == SealRun(log, from, upTo, default)
    decreases upTo
  {
    if upTo > from {
      SealsOfSealMsgs(log, from, upTo - 1, length, default);
      assert SealMsgs(from, upTo, length)[..|SealMsgs(from, upTo, length)| - 1]
          == SealMsgs(from, upTo - 1, length);
    }
  }

  lemma LateSeals(g: seq<Msg>, reached: nat, log: Log, from: nat, upTo: nat, length: nat, default: nat)
    requires reached <= from <= upTo && SealsOf(g) == SealRun(log, reached, from, default)
    requires forall t | from < t <= upTo :: t !in log.lengths
    requires forall t | t in log.lengths :: t <= from
    ensures SealsOf(g + SealMsgs(from, upTo, length))
         == SealRun(LengthenedRun(log, from, upTo, length), reached, upTo, default)
  {
    var after := LengthenedRun(log, from, upTo, length);
    RunLengths(log, from, upTo, length);
    SealsAppend(g, SealMsgs(from, upTo, length));
    SealsOfSealMsgs(after, from, upTo, length, default);
    SealRunSame(log, after, reached, from, default);
    SealRunJoin(after, reached, from, upTo, default);
    hide SealRun, SealMsgs, SealsOf, LengthenedRun;
  }

  lemma {:induction false} SealMsgsAreGame(from: nat, upTo: nat, length: nat)
    ensures forall m | m in SealMsgs(from, upTo, length) :: m.IsGame()
    decreases upTo
  {
    if upTo > from {
      SealMsgsAreGame(from, upTo - 1, length);
    }
  }

  lemma PeerRelease(session: Session, ms: seq<Msg>, base: Option<Start>, log: Log,
                    ready: nat, head: nat, default: nat, upTo: nat, length: nat)
    requires PeerOk(session, ms, base, log, ready, head, default)
    requires head <= ready <= upTo && forall t | t in log.lengths :: t <= ready
    ensures PeerOk(session,
                   if session.role.InGame? && !session.delayed
                   then ms + SealMsgs(ready, upTo, length) else ms,
                   base, LengthenedRun(log, ready, upTo, length), upTo, head, default)
  {
    RunLengths(log, ready, upTo, length);
    if session.role.InGame? {
      var start := base.value;
      if session.delayed {
        StreamSame(log, LengthenedRun(log, ready, upTo, length), start.From(), head, default);
      } else {
        SealMsgsAreGame(ready, upTo, length);
        GameAppend(ms, SealMsgs(ready, upTo, length));
        GameIsGame(SealMsgs(ready, upTo, length));
        if start.InTime() {
          InStepSeals(Game(ms), start.loaded, log, ready, upTo, length, default);
        } else {
          LateSeals(Game(ms), start.reached, log, ready, upTo, length, default);
        }
      }
      hide InStep, Stream, Game, SealsOf, SealRun, SealMsgs;
    }
  }

  lemma FlaresAreOther(fs: seq<Flare>)
    ensures forall m | m in Flares(fs) :: !m.IsGame()
  {
  }

  lemma PeerFeed(session: Session, ms: seq<Msg>, base: Option<Start>, log: Log,
                 ready: nat, head: nat, default: nat, head': nat, fs: seq<Flare>)
    requires PeerOk(session, ms, base, log, ready, head, default)
    requires head <= head' <= ready
    ensures PeerOk(session,
                   if session.role.InGame? && session.delayed
                   then ms + (Stream(log, head, head', default) + Flares(fs)) else ms,
                   base, log, ready, head', default)
  {
    if session.role.InGame? && session.delayed {
      var due := Stream(log, head, head', default);
      StreamIsGame(log, head, head', default);
      GameIsGame(due);
      GameAppend(ms, due);
      StreamJoin(log, base.value.From(), head, head', default);
      FlaresAreOther(fs);
      GameAppend(ms + due, Flares(fs));
      GameOfOther(Flares(fs));
      assert ms + (due + Flares(fs)) == ms + due + Flares(fs);
    }
  }

  // ---- sends go to the sessions the log says ----

  lemma Audience(s: RelayState)
    requires Base(s)
    ensures LivePeers(s)
         == set p | p in s.sessions && s.sessions[p].role.InGame? && !s.sessions[p].delayed
    ensures DelayedPeers(s.turns)
         == set p | p in s.sessions && s.sessions[p].role.InGame? && s.sessions[p].delayed
  {
  }

  lemma AdvancePeer(session: Session, ms: seq<Msg>, base: Option<Start>, log: Log, ready: nat,
                    head: nat, default: nat, head': nat, fs: seq<Flare>, join: Option<Bytes>)
    requires PeerOk(session, ms, base, log, ready, head, default) && head <= head' <= ready
    ensures PeerOk(session,
                   (if session.role.InGame? && session.delayed
                    then ms + (Stream(log, head, head', default) + Flares(fs)) else ms)
                   + (if join.Some? then [Join(join.value)] else []),
                   base, log, ready, head', default)
  {
    PeerFeed(session, ms, base, log, ready, head, default, head', fs);
    PeerOther(session,
              if session.role.InGame? && session.delayed
              then ms + (Stream(log, head, head', default) + Flares(fs)) else ms,
              if join.Some? then [Join(join.value)] else [], base, log, ready, head', default);
  }

  lemma AdvanceFeedPeer(s: RelayState, p: Peer)
    requires Base(s) && p in s.sessions
    requires PeerOk(s.sessions[p], s.out[p], BaseOf(s.base, p), s.log, s.turns.ready, s.feed.head,
                    s.cfg.turnLength)
    ensures PeerOk(s.sessions[p], AdvanceFeed(s).out[p], BaseOf(s.base, p), s.log, s.turns.ready,
                   AdvanceFeed(s).feed.head, s.cfg.turnLength)
  {
    var f := Advanced(s.feed, s.turns.ready, !PlayersRemain(s.sessions));
    var fs, d := DueFlares(f), s.cfg.turnLength;
    var due := Stream(s.log, s.feed.head, f.head, d) + Flares(fs);
    Audience(s);
    var join := if p in DueJoins(f) then Some(DueJoins(f)[p].snapshot) else None;
    AdvancePeer(s.sessions[p], s.out[p], BaseOf(s.base, p), s.log, s.turns.ready, s.feed.head, d,
                f.head, fs, join);
    var sent := if p in DelayedPeers(s.turns) then s.out[p] + due else s.out[p];
    assert SentTo(s.out, DelayedPeers(s.turns), due)[p] == sent;
    assert sent + [] == sent;
  }

  lemma AdvanceFeedStreams(s: RelayState)
    requires Base(s) && Streams(s)
    ensures AdvanceFeed(s).out.Keys == s.sessions.Keys
    ensures Streams(AdvanceFeed(s))
  {
    forall p | p in s.sessions
      ensures PeerOk(s.sessions[p], AdvanceFeed(s).out[p], BaseOf(s.base, p), s.log, s.turns.ready,
                     AdvanceFeed(s).feed.head, s.cfg.turnLength)
    {
      AdvanceFeedPeer(s, p);
    }
  }

  lemma AdvanceFeedKeeps(s: RelayState)
    requires Base(s) && Streams(s) && JoinsHeld(s.sessions, s.feed)
    ensures Base(AdvanceFeed(s)) && Streams(AdvanceFeed(s))
    ensures JoinsHeld(AdvanceFeed(s).sessions, AdvanceFeed(s).feed)
    ensures AdvanceFeed(s).feed.head >= s.feed.head
  {
    AdvanceFeedStreams(s);
  }

  lemma ReleaseLiveKeeps(s: RelayState, length: nat, pace: Option<nat>)
    requires Base(s) && Streams(s) && Window(s.turns, s.cfg.lag)
    ensures Base(ReleaseLive(s, length, pace)) && Streams(ReleaseLive(s, length, pace))
    ensures Window(ReleaseLive(s, length, pace).turns, s.cfg.lag)
    ensures s.turns.ready <= ReleaseLive(s, length, pace).turns.ready <= s.turns.ready + COMMAND_DELAY
  {
    var s' := ReleaseLive(s, length, pace);
    ReleaseKeepsWindow(s.turns, s.cfg.lag, pace, pace.Some?);
    RunLengths(s.log, s.turns.ready, s'.turns.ready, length);
    Audience(s);
    forall p | p in s.sessions
      ensures PeerOk(s'.sessions[p], s'.out[p], BaseOf(s'.base, p), s'.log, s'.turns.ready,
                     s'.feed.head, s'.cfg.turnLength)
    {
      PeerRelease(s.sessions[p], s.out[p], BaseOf(s.base, p), s.log, s.turns.ready, s.feed.head,
                  s.cfg.turnLength, s'.turns.ready, length);
    }
  }

  // ---- the journal ----

  lemma {:induction false} TurnsAppend(a: seq<Record>, b: seq<Record>)
    ensures TurnsOf(a + b) == TurnsOf(a) + TurnsOf(b)
    decreases |b|
  {
    if b == [] {
      assert a + b == a;
    } else {
      assert (a + b)[..|a + b| - 1] == a + b[..|b| - 1];
      TurnsAppend(a, b[..|b| - 1]);
    }
  }

  lemma {:induction false} LastTurnIs(records: seq<Record>, log: Log, ready: nat)
    requires TurnsOf(records) == LoggedTurns(log, ready) && ready >= INITIAL_READY_TURN
    ensures LastTurn(records) == ready
    decreases |records|
  {
    if records != [] {
      var front, last := records[..|records| - 1], records[|records| - 1];
      if last.TurnRecord? {
        assert TurnsOf(records)[|TurnsOf(records)| - 1] == last;
      } else {
        assert TurnsOf(records) == TurnsOf(front);
        LastTurnIs(front, log, ready);
      }
    }
  }

  lemma {:induction false} LoggedSame(a: Log, b: Log, upTo: nat)
    requires forall t: nat | t <= upTo :: For(a, t) == For(b, t) && LengthOr(a, t, 0) == LengthOr(b, t, 0)
    ensures LoggedTurns(a, upTo) == LoggedTurns(b, upTo)
    decreases upTo
  {
    if upTo > INITIAL_READY_TURN {
      LoggedSame(a, b, upTo - 1);
    }
  }

  lemma TimelyMore(a: seq<Record>, b: seq<Record>)
    requires HashesTimely(a) && forall r | r in b :: !r.HashRecord?
    ensures HashesTimely(a + b)
  {
    forall i | 0 <= i < |a + b| && (a + b)[i].HashRecord?
      ensures (a + b)[i].turn <= LastTurn((a + b)[..i])
    {
      assert (a + b)[..i] == a[..i];
    }
  }

  lemma {:induction false} TurnRecordsAreTurns(log: Log, from: nat, upTo: nat, length: nat)
    ensures forall r | r in TurnRecords(log, from, upTo, length) :: r.TurnRecord?
    decreases upTo
  {
    if upTo > from {
      TurnRecordsAreTurns(log, from, upTo - 1, length);
    }
  }

  lemma {:induction false} TurnsOfTurns(records: seq<Record>)
    requires forall r | r in records :: r.TurnRecord?
    ensures TurnsOf(records) == records
    decreases |records|
  {
    if records != [] {
      TurnsOfTurns(records[..|records| - 1]);
      assert records == records[..|records| - 1] + [records[|records| - 1]];
    }
  }

  lemma {:induction false} LoggedRun(log: Log, from: nat, upTo: nat, length: nat)
    requires INITIAL_READY_TURN <= from <= upTo
    ensures LoggedTurns(LengthenedRun(log, from, upTo, length), upTo)
         == LoggedTurns(log, from) + TurnRecords(log, from, upTo, length)
    decreases upTo
  {
    if upTo > from {
      LoggedRun(log, from, upTo - 1, length);
      RunLengths(log, from, upTo - 1, length);
      RunLengths(log, from, upTo, length);
      LoggedSame(LengthenedRun(log, from, upTo - 1, length), LengthenedRun(log, from, upTo, length),
                 upTo - 1);
    }
  }

  lemma JournalRelease(s: RelayState, length: nat, pace: Option<nat>)
    requires Base(s) && s.cfg.saving && JournalOk(s.saved, s.log, s.turns)
    ensures JournalOk(ReleaseLive(s, length, pace).saved, ReleaseLive(s, length, pace).log,
                      ReleaseLive(s, length, pace).turns)
  {
    var from, upTo := s.turns.ready, ReleaseLive(s, length, pace).turns.ready;
    var more := TurnRecords(s.log, from, upTo, length);
    TurnRecordsAreTurns(s.log, from, upTo, length);
    TurnsOfTurns(more);
    TurnsAppend(s.saved, more);
    LoggedRun(s.log, from, upTo, length);
    TimelyMore(s.saved, more);
    AgreeMore(s.saved, more, s.turns.references);
  }

  lemma AgreeMore(a: seq<Record>, b: seq<Record>, references: map<nat, Hash>)
    requires HashesAgree(a, references) && forall r | r in b :: !r.HashRecord?
    ensures HashesAgree(a + b, references)
  {
  }

  lemma ReleaseTurnsKeeps(s: RelayState, length: nat, pace: Option<nat>)
    requires Base(s) && Streams(s) && JoinsHeld(s.sessions, s.feed) && Window(s.turns, s.cfg.lag)
    requires s.cfg.saving ==> JournalOk(s.saved, s.log, s.turns)
    ensures var s' := ReleaseTurns(s, length, pace);
            && Base(s') && Streams(s') && JoinsHeld(s'.sessions, s'.feed) && Window(s'.turns, s'.cfg.lag)
            && (s'.cfg.saving ==> JournalOk(s'.saved, s'.log, s'.turns))
            && s'.turns == s.turns.(ready := s'.turns.ready)
            && s'.turns.ready >= s.turns.ready
  {
    if !s.held {
      ReleaseLiveKeeps(s, length, pace);
      if s.cfg.saving {
        JournalRelease(s, length, pace);
      }
      AdvanceFeedKeeps(ReleaseLive(s, length, pace));
    }
  }

  /** A hash the players just agreed on is for a released turn. */
  lemma SettledOk(before: TurnState, after: TurnState)
    requires Quiet(before)
    requires Agree.StateInv(after)
    requires Agree.ToldOnce(after.settled, before.references, after.references)
    ensures forall i | 0 <= i < |after.settled| ::
      && after.settled[i].0 <= after.ready
      && after.settled[i].0 in after.references
      && after.references[after.settled[i].0] == after.settled[i].1
  {
  }

  lemma {:induction false} NoTurnsInHashes(settled: seq<(nat, Hash)>)
    ensures TurnsOf(HashRecords(settled)) == []
    decreases |settled|
  {
    if settled != [] {
      var rs := HashRecords(settled);
      assert rs[..|rs| - 1] == HashRecords(settled[..|settled| - 1]);
      NoTurnsInHashes(settled[..|settled| - 1]);
    }
  }

  lemma {:induction false} LastTurnSkips(records: seq<Record>, more: seq<Record>)
    requires forall r | r in more :: !r.TurnRecord?
    ensures LastTurn(records + more) == LastTurn(records)
    decreases |more|
  {
    if more == [] {
      assert records + more == records;
    } else {
      assert (records + more)[..|records + more| - 1] == records + more[..|more| - 1];
      LastTurnSkips(records, more[..|more| - 1]);
    }
  }

  lemma SaveSettledKeeps(s: RelayState, references: map<nat, Hash>)
    requires TurnsOf(s.saved) == LoggedTurns(s.log, s.turns.ready) && HashesTimely(s.saved)
    requires HashesAgree(s.saved, references) && Agree.Extends(references, s.turns.references)
    requires s.turns.ready >= INITIAL_READY_TURN
    requires forall i | 0 <= i < |s.turns.settled| ::
      && s.turns.settled[i].0 <= s.turns.ready
      && s.turns.settled[i].0 in s.turns.references
      && s.turns.references[s.turns.settled[i].0] == s.turns.settled[i].1
    requires s.cfg.saving
    ensures JournalOk(SaveSettled(s).saved, SaveSettled(s).log, SaveSettled(s).turns)
  {
    var more := HashRecords(s.turns.settled);
    var all := s.saved + more;
    TurnsAppend(s.saved, more);
    NoTurnsInHashes(s.turns.settled);
    LastTurnIs(s.saved, s.log, s.turns.ready);
    forall i | 0 <= i < |all| && all[i].HashRecord?
      ensures all[i].turn <= LastTurn(all[..i])
      ensures all[i].turn in s.turns.references && s.turns.references[all[i].turn] == all[i].hash
    {
      if i < |s.saved| {
        assert all[..i] == s.saved[..i] && all[i] == s.saved[i];
      } else {
        assert all[..i] == s.saved + more[..i - |s.saved|];
        LastTurnSkips(s.saved, more[..i - |s.saved|]);
      }
    }
  }
}
