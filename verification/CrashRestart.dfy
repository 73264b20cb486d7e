/** Starting a match over from any prefix of its save journal. */
module CrashRestart {
  import opened Prelude
  import opened Turns
  import opened Lockstep
  import opened MatchLogs
  import opened ObserverFeeds
  import opened Relay
  import opened RelayRuns
  import Agree = HashAgreement

  lemma RecordedIs(log: Log, c: Command, t: nat)
    ensures For(Recorded(log, c), t) == For(log, t) + (if t == c.turn then [c] else [])
  {
  }

  lemma {:induction false} RecordedAllIs(log: Log, cs: seq<Command>, turn: nat)
    requires forall c | c in cs :: c.turn == turn
    ensures RecordedAll(log, cs).lengths == log.lengths
    ensures RecordedAll(log, cs).commands.Keys
         == log.commands.Keys + (if cs == [] then {} else {turn})
    ensures For(RecordedAll(log, cs), turn) == For(log, turn) + cs
    ensures forall t: nat | t != turn :: For(RecordedAll(log, cs), t) == For(log, t)
    decreases |cs|
  {
    if cs != [] {
      var front, last := cs[..|cs| - 1], cs[|cs| - 1];
      var before := RecordedAll(log, front);
      RecordedAllIs(log, front, turn);
      assert RecordedAll(log, cs) == Recorded(before, last);
      RecordedIs(before, last, turn);
      assert cs == front + [last];
      forall t: nat | t != turn ensures For(RecordedAll(log, cs), t) == For(log, t) {
        RecordedIs(before, last, t);
      }
    }
  }

  lemma {:induction false} RebuiltFromTurns(records: seq<Record>)
    ensures RebuiltLog(records) == RebuiltLog(TurnsOf(records))
    decreases |records|
  {
    if records != [] {
      var front, last := records[..|records| - 1], records[|records| - 1];
      RebuiltFromTurns(front);
      if last.TurnRecord? {
        assert TurnsOf(records)[..|TurnsOf(records)| - 1] == TurnsOf(front);
      } else {
        assert TurnsOf(records) == TurnsOf(front);
      }
    }
  }

  /** The log cut at a turn. */
  ghost predicate IsCut(cut: Log, log: Log, turn: nat) {
    && (forall t: nat :: For(cut, t) == if t <= turn then For(log, t) else [])
    && (forall t :: t in cut.lengths <==> INITIAL_READY_TURN < t <= turn)
    && (forall t | INITIAL_READY_TURN < t <= turn :: cut.lengths[t] == LengthOr(log, t, 0))
    && (forall t | t in cut.commands :: INITIAL_READY_TURN < t <= turn)
  }

  lemma CutStep(cut: Log, log: Log, turn: nat)
    requires WellFiled(log) && turn > INITIAL_READY_TURN && IsCut(cut, log, turn - 1)
    ensures IsCut(RecordedAll(Lengthened(cut, turn, LengthOr(log, turn, 0)), For(log, turn)), log, turn)
  {
    var longer := Lengthened(cut, turn, LengthOr(log, turn, 0));
    assert forall t: nat :: For(longer, t) == For(cut, t);
    RecordedAllIs(longer, For(log, turn), turn);
    hide RecordedAll;
  }

  lemma {:induction false} RebuiltIs(log: Log, turn: nat)
    requires WellFiled(log) && turn >= INITIAL_READY_TURN
    requires forall t | t in log.commands :: t > INITIAL_READY_TURN
    ensures IsCut(RebuiltLog(LoggedTurns(log, turn)), log, turn)
    decreases turn
  {
    if turn > INITIAL_READY_TURN {
      RebuiltIs(log, turn - 1);
      var before := LoggedTurns(log, turn - 1);
      assert LoggedTurns(log, turn)[..|LoggedTurns(log, turn)| - 1] == before;
      CutStep(RebuiltLog(before), log, turn);
      hide IsCut, WellFiled;
    }
  }

  lemma CutWellFiled(cut: Log, log: Log, turn: nat)
    requires IsCut(cut, log, turn) && WellFiled(log)
    ensures WellFiled(cut)
  {
    forall t, c | t in cut.commands && c in cut.commands[t] ensures c.turn == t {
      assert For(cut, t) == For(log, t);
    }
  }

  lemma {:induction false} LoggedLength(log: Log, ready: nat)
    ensures |LoggedTurns(log, ready)| == SaturatingSub(ready, INITIAL_READY_TURN)
    decreases ready
  {
    if ready > INITIAL_READY_TURN {
      LoggedLength(log, ready - 1);
    }
  }

  lemma {:induction false} LoggedPrefix(log: Log, ready: nat, n: nat)
    requires n <= |LoggedTurns(log, ready)|
    ensures LoggedTurns(log, ready)[..n] == LoggedTurns(log, INITIAL_READY_TURN + n)
    decreases ready
  {
    LoggedLength(log, ready);
    if n < |LoggedTurns(log, ready)| {
      LoggedPrefix(log, ready - 1, n);
      assert LoggedTurns(log, ready)[..n] == LoggedTurns(log, ready - 1)[..n];
    }
  }

  /** Any prefix of the journal stops at some released turn, and holds exactly
      the turns up to it. */
  lemma PrefixStopsAt(records: seq<Record>, log: Log, ready: nat, cut: nat)
    requires TurnsOf(records) == LoggedTurns(log, ready) && ready >= INITIAL_READY_TURN
    requires cut <= |records|
    ensures INITIAL_READY_TURN <= LastTurn(records[..cut]) <= ready
    ensures TurnsOf(records[..cut]) == LoggedTurns(log, LastTurn(records[..cut]))
    ensures LastTurn(records[..cut]) == INITIAL_READY_TURN + |TurnsOf(records[..cut])|
  {
    assert records == records[..cut] + records[cut..];
    TurnsAppend(records[..cut], records[cut..]);
    var n := |TurnsOf(records[..cut])|;
    assert TurnsOf(records[..cut]) == TurnsOf(records)[..n];
    LoggedPrefix(log, ready, n);
    LoggedLength(log, ready);
    LastTurnIs(records[..cut], log, INITIAL_READY_TURN + n);
  }

  lemma PrefixGrows(records: seq<Record>, i: nat, j: nat)
    requires i <= j <= |records|
    ensures |TurnsOf(records[..i])| <= |TurnsOf(records[..j])|
  {
    assert records[..j] == records[..i] + records[i..j];
    TurnsAppend(records[..i], records[i..j]);
  }

  lemma {:induction false} RebuiltHashesAre(records: seq<Record>, references: map<nat, Hash>)
    requires HashesAgree(records, references)
    ensures forall i | 0 <= i < |records| && records[i].HashRecord? ::
      records[i].turn in RebuiltHashes(records)
    ensures forall t | t in RebuiltHashes(records) ::
      && t in references && RebuiltHashes(records)[t] == references[t]
      && exists i :: 0 <= i < |records| && records[i].HashRecord? && records[i].turn == t
    decreases |records|
  {
    if records != [] {
      var front, last := records[..|records| - 1], records[|records| - 1];
      assert HashesAgree(front, references);
      RebuiltHashesAre(front, references);
      forall t | t in RebuiltHashes(records)
        ensures exists i :: 0 <= i < |records| && records[i].HashRecord? && records[i].turn == t
      {
        if t in RebuiltHashes(front) {
          var i :| 0 <= i < |front| && front[i].HashRecord? && front[i].turn == t;
          assert records[i].turn == t;
        } else {
          assert records[|records| - 1].turn == t;
        }
      }
    }
  }

  /** What survives a crash that leaves the first `cut` records: the log up to
      some released turn, whole, and agreed hashes for no later turn. */
  ghost predicate Recovered(s: RelayState, r: RelayState) {
    && INITIAL_READY_TURN <= r.turns.ready <= s.turns.ready
    && IsCut(r.log, s.log, r.turns.ready)
    && (forall t | t in r.turns.references ::
          && t <= r.turns.ready
          && t in s.turns.references && r.turns.references[t] == s.turns.references[t])
    && r.feed.head == Max(SaturatingSub(r.turns.ready, r.cfg.delay), INITIAL_READY_TURN)
    && r.sessions == map[] && r.held
  }

  lemma CrashRecovers(s: RelayState, cut: nat, unixMs: int)
    requires RunInv(s) && s.cfg.saving && cut <= |s.saved|
    ensures Recovered(s, Restarted(s.cfg, s.saved[..cut], unixMs))
    ensures HashesTimely(s.saved[..cut])
    ensures HashesAgree(s.saved[..cut], RebuiltHashes(s.saved[..cut]))
    ensures TurnsOf(s.saved[..cut]) == LoggedTurns(s.log, LastTurn(s.saved[..cut]))
  {
    hide Streams, PeerOk, Roster, Names, Window, Agree.StateInv, JoinsHeld;
    var records := s.saved[..cut];
    var k := LastTurn(records);
    PrefixStopsAt(s.saved, s.log, s.turns.ready, cut);
    RebuiltFromTurns(records);
    RebuiltIs(s.log, k);
    assert HashesAgree(records, s.turns.references);
    RebuiltHashesAre(records, s.turns.references);
    forall i | 0 <= i < |records| && records[i].HashRecord?
      ensures records[i].turn <= LastTurn(records[..i]) <= k
    {
      assert records[..i] == s.saved[..i];
      assert records[i] == s.saved[i];
      PrefixStopsAt(s.saved, s.log, s.turns.ready, i);
      PrefixGrows(s.saved, i, cut);
    }
  }

  lemma RestartJournal(records: seq<Record>, log: Log, cut: Log, k: nat, references: map<nat, Hash>,
                       unixMs: int)
    requires TurnsOf(records) == LoggedTurns(log, k) && IsCut(cut, log, k)
    requires k >= INITIAL_READY_TURN
    requires HashesTimely(records) && HashesAgree(records, references)
    ensures JournalOk(records + [ResumedRecord(k, unixMs)], cut, Resumed(k, references))
  {
    var more := [ResumedRecord(k, unixMs)];
    TurnsAppend(records, more);
    assert more[..0] == [];
    assert TurnsOf(records) + [] == TurnsOf(records);
    LoggedSameAbove(log, cut, k);
    TimelyMore(records, more);
    AgreeMore(records, more, references);
  }

  lemma {:induction false} LoggedSameAbove(a: Log, b: Log, k: nat)
    requires forall t: nat | INITIAL_READY_TURN < t <= k ::
      For(a, t) == For(b, t) && LengthOr(a, t, 0) == LengthOr(b, t, 0)
    ensures LoggedTurns(a, k) == LoggedTurns(b, k)
    decreases k
  {
    if k > INITIAL_READY_TURN {
      LoggedSameAbove(a, b, k - 1);
    }
  }

  /** A restarted match is a match like any other: it can crash again. */
  lemma RestartKeeps(s: RelayState, cut: nat, unixMs: int)
    requires RunInv(s) && s.cfg.saving && cut <= |s.saved|
    ensures RunInv(Restarted(s.cfg, s.saved[..cut], unixMs))
  {
    hide Streams, PeerOk, Roster, Names, Window, Agree.StateInv, JoinsHeld;
    var r := Restarted(s.cfg, s.saved[..cut], unixMs);
    CrashRecovers(s, cut, unixMs);
    RestartJournal(s.saved[..cut], s.log, r.log, r.turns.ready, r.turns.references, unixMs);
    CutWellFiled(r.log, s.log, r.turns.ready);
    RestartedParts(r);
  }

  lemma RestartedParts(r: RelayState)
    requires r.sessions == map[] && r.out == map[] && r.base == map[] && r.feed.joins == map[]
    requires exists refs :: r.turns == Resumed(r.turns.ready, refs)
    requires forall t | t in r.turns.references :: t <= r.turns.ready
    ensures Roster(r.sessions, r.turns.clients, r.out, r.base, r.feed.joins) && Names(r.sessions)
    ensures Streams(r) && JoinsHeld(r.sessions, r.feed) && Window(r.turns, r.cfg.lag) && Quiet(r.turns)
  {
  }
}
