/** Hashes over whole runs of the relay: none is left uncompared, and the journal
    holds each agreed one, so that a save restores exactly what it holds. */
module RelayHashes {
  import opened Prelude
  import opened Turns
  import opened Lockstep
  import opened MatchLogs
  import opened ObserverFeeds
  import opened Relay
  import opened RelayRuns
  import opened RelaySteps
  import opened CrashRestart
  import opened RelayTheorems
  import opened HashLaws
  import Agree = HashAgreement

  // ---- nothing complete is left ----

  lemma ReleasedTurns(s: RelayState, length: nat, pace: Option<nat>)
    ensures var s' := ReleaseTurns(s, length, pace);
            s'.turns == s.turns.(ready := s'.turns.ready)
  {
    hide Stream, DueFlares, SentTo, SealMsgs, TurnRecords, LengthenedRun, AdmitAll, PlayersRemain;
  }

  lemma ReleaseLeavesNone(t: TurnState, s: RelayState, length: nat, pace: Option<nat>)
    requires NoneLeft(t) && s.turns.pending == t.pending && s.turns.outOfSync == t.outOfSync
    requires forall p | p in t.clients ::
      p in s.turns.clients && s.turns.clients[p] == t.clients[p].(sealed := s.turns.clients[p].sealed)
    ensures NoneLeft(ReleaseTurns(s, length, pace).turns)
  {
    ReleasedTurns(s, length, pace);
    hide ReleaseTurns, NoneLeft;
    StillNone(t, ReleaseTurns(s, length, pace).turns);
  }

  lemma StepLeavesNone(s: RelayState, step: Step)
    requires RunInv(s) && NoneLeft(s.turns)
    ensures NoneLeft(Next(s, step).turns)
  {
    hide ReleaseTurns, NoneLeft, StateHash, Recheck, RunInv;
    match step {
      case SealUp(peer, turn, length, pace) =>
        if TurnSealed(s, peer, turn, length, pace).Ok? {
          ReleaseLeavesNone(s.turns, s.(turns := SealTurn(s.turns, peer, turn).value), length, pace);
        }
      case Tick(length, pace) => ReleaseLeavesNone(s.turns, s, length, pace);
      case Unhold(length, pace) => ReleaseLeavesNone(s.turns, s.(held := false), length, pace);
      case Hashed(peer, turn, hash) =>
        if HashReported(s, peer, turn, hash).Ok? {
          ReportLeavesNone(s.turns, peer, turn, hash);
          StillNone(StateHash(s.turns, peer, turn, hash).value.0, Next(s, step).turns);
        }
      case Depart(peer, length, pace) =>
        if peer in s.sessions {
          var t := ReleaseTurns(Gone(s, peer), length, pace).turns;
          RecheckLeavesNone(t);
          StillNone(Recheck(t).0, Next(s, step).turns);
        }
      case Load(peer, turn) => LoadLeavesNone(s, peer, turn);
      case _ => OthersKeepTurns(s, step);
    }
  }

  lemma LoadedTurns(s: RelayState, peer: Peer, turn: nat)
    requires LoadedGame(s, peer, turn).Ok?
    ensures var t := LoadedGame(s, peer, turn).value.turns;
            && t == s.turns.(clients := t.clients)
            && forall p | p in s.turns.clients && p != peer :: p in t.clients && t.clients[p] == s.turns.clients[p]
  {
    hide Stream, Replay, SentTo;
  }

  lemma LoadLeavesNone(s: RelayState, peer: Peer, turn: nat)
    requires RunInv(s) && NoneLeft(s.turns)
    ensures NoneLeft(Next(s, Load(peer, turn)).turns)
  {
    if LoadedGame(s, peer, turn).Ok? {
      assert Base(s) && peer !in s.turns.clients;
      LoadedTurns(s, peer, turn);
      hide RunInv, Base, LoadedGame, NoneLeft;
      StillNone(s.turns, LoadedGame(s, peer, turn).value.turns);
    }
  }

  lemma OthersKeepTurns(s: RelayState, step: Step)
    requires NoneLeft(s.turns)
    requires step.Connect? || step.Deliver? || step.Say? || step.Signal? || step.Stop? || step.Crash?
    ensures NoneLeft(Next(s, step).turns)
  {
    hide Stream, DueFlares, SentTo, AdmitAll, PlayersRemain, RebuiltLog, RebuiltHashes, LastTurn;
  }

  /** In every state of every run, crashes included: as long as nobody is out of
      sync, every turn somebody has reported still lacks a report that is owed. */
  lemma {:induction false} NoneLeftOver(s: RelayState, steps: seq<Step>)
    requires RunInv(s) && NoneLeft(s.turns)
    ensures NoneLeft(Play(s, steps).turns)
    decreases |steps|
  {
    if steps != [] {
      StepLeavesNone(s, steps[0]);
      StepKeeps(s, steps[0]);
      hide RunInv, NoneLeft, Next;
      NoneLeftOver(Next(s, steps[0]), steps[1..]);
    }
  }

  lemma EveryTurnIsCompared(cfg: Config, starters: map<Peer, Session>, steps: seq<Step>)
    requires Starters(starters)
    ensures NoneLeft(Play(Begun(cfg, starters), steps).turns)
  {
    BegunKeeps(cfg, starters);
    NoneLeftOver(Begun(cfg, starters), steps);
  }

  /** A departure agrees the lowest turn that only the one who left was holding
      up, with the hash of the lowest of those who are left. */
  lemma DepartAgrees(s: RelayState, peer: Peer, length: nat, pace: Option<nat>, turn: nat)
    requires RunInv(s) && peer in s.sessions && s.turns.outOfSync - {peer} == {} && turn in s.turns.pending
    requires Complete(s.turns.clients - {peer}, s.turns.pending[turn] - {peer}, turn)
    requires forall t | t in s.turns.pending && t < turn ::
      !Complete(s.turns.clients - {peer}, s.turns.pending[t] - {peer}, t)
    ensures var references := Next(s, Depart(peer, length, pace)).turns.references;
            && turn in references
            && Agree.AgreedBy(s.turns.clients - {peer}, s.turns.pending[turn] - {peer}, turn, references[turn])
  {
    var t := ReleaseTurns(Gone(s, peer), length, pace).turns;
    GoneKeeps(s, peer);
    TickKeeps(Gone(s, peer), length, pace);
    ReleaseTurnsKeeps(Gone(s, peer), length, pace);
    QuietGrows(s.turns, t.ready);
    var later := s.turns.(ready := t.ready);
    assert t == Forget(later, peer);
    assert Quiet(s.turns);
    DepartShape(s, peer, length, pace);
    hide RunInv, Complete, Agree.AgreedBy, Recheck, ReleaseTurns, Quiet, Next, Agree.Inv;
    QuietIsInv(later);
    DepartureAgrees(AsMatch(later), peer, turn);
  }

  // ---- the hashes in the journal ----

  function HashesOf(records: seq<Record>): seq<(nat, Hash)> {
    if records == [] then []
    else HashesOf(records[..|records| - 1])
         + (if records[|records| - 1].HashRecord?
            then [(records[|records| - 1].turn, records[|records| - 1].hash)] else [])
  }

  lemma {:induction false} HashesAppend(a: seq<Record>, b: seq<Record>)
    ensures HashesOf(a + b) == HashesOf(a) + HashesOf(b)
    decreases |b|
  {
    if b == [] {
      assert a + b == a;
    } else {
      assert (a + b)[..|a + b| - 1] == a + b[..|b| - 1];
      HashesAppend(a, b[..|b| - 1]);
    }
  }

  lemma {:induction false} HashesOfHashes(settled: seq<(nat, Hash)>)
    ensures HashesOf(HashRecords(settled)) == settled
    decreases |settled|
  {
    if settled != [] {
      var rs := HashRecords(settled);
      assert rs[..|rs| - 1] == HashRecords(settled[..|settled| - 1]);
      HashesOfHashes(settled[..|settled| - 1]);
      assert settled == settled[..|settled| - 1] + [settled[|settled| - 1]];
    }
  }

  lemma {:induction false} NoHashes(records: seq<Record>)
    requires forall r | r in records :: !r.HashRecord?
    ensures HashesOf(records) == []
    decreases |records|
  {
    if records != [] {
      NoHashes(records[..|records| - 1]);
    }
  }

  lemma ToldThen(a: seq<(nat, Hash)>, b: seq<(nat, Hash)>, r0: map<nat, Hash>, r1: map<nat, Hash>,
                 r2: map<nat, Hash>)
    requires Agree.ToldOnce(a, r0, r1) && Agree.ToldOnce(b, r1, r2)
    ensures Agree.ToldOnce(a + b, r0, r2)
  {
    var all := a + b;
    forall i | 0 <= i < |all|
      ensures all[i].0 !in r0 && all[i].0 in r2 && r2[all[i].0] == all[i].1
    {
      if i < |a| {
        assert all[i] == a[i];
      } else {
        assert all[i] == b[i - |a|];
      }
    }
    forall i, j | 0 <= i < j < |all| ensures all[i].0 != all[j].0 {
      if j < |a| {
        assert all[i] == a[i] && all[j] == a[j];
      } else if i < |a| {
        assert all[i] == a[i] && all[j] == b[j - |a|];
      } else {
        assert all[i] == b[i - |a|] && all[j] == b[j - |a|];
      }
    }
    forall t | t in r2 ensures t in r0 || exists i | 0 <= i < |all| :: all[i].0 == t {
      if t in r1 && t !in r0 {
        var i :| 0 <= i < |a| && a[i].0 == t;
        assert all[i].0 == t;
      } else if t !in r1 {
        var i :| 0 <= i < |b| && b[i].0 == t;
        assert all[|a| + i].0 == t;
      }
    }
  }

  predicate TurnsAscend(hashes: seq<(nat, Hash)>) {
    forall i, j | 0 <= i < j < |hashes| :: hashes[i].0 < hashes[j].0
  }

  lemma CompareSettles(s: TurnState, turn: nat)
    ensures var s' := Compare(s, turn).0;
            s'.settled == s.settled || (|s'.settled| == |s.settled| + 1 && s'.settled[..|s.settled|] == s.settled
                                        && s'.settled[|s.settled|].0 == turn)
  {
    hide Comparable, Reference, Later, Disagreeing;
  }

  lemma {:induction false} CompareAllSettles(s: TurnState, turns: seq<nat>) returns (added: seq<(nat, Hash)>)
    requires Ascending(turns)
    ensures CompareAll(s, turns).0.settled == s.settled + added
    ensures TurnsAscend(added) && forall x | x in added :: x.0 in turns
    decreases |turns|
  {
    if turns == [] {
      added := [];
      assert s.settled == s.settled + [];
    } else {
      CompareSettles(s, turns[0]);
      var s1 := Compare(s, turns[0]).0;
      assert CompareAll(s, turns).0 == CompareAll(s1, turns[1..]).0;
      assert forall i | 0 <= i < |turns| - 1 :: turns[1..][i] == turns[i + 1];
      hide Compare, CompareAll, TurnsAscend;
      added := CompareAllSettles(s1, turns[1..]);
      if s1.settled != s.settled {
        var first := s1.settled[|s.settled|];
        assert s1.settled == s.settled + [first];
        FirstAscends(first, added, turns);
        Assoc(s.settled, [first], added);
        added := [first] + added;
      }
    }
  }

  lemma FirstAscends(x: (nat, Hash), later: seq<(nat, Hash)>, turns: seq<nat>)
    requires Ascending(turns) && turns != [] && x.0 == turns[0]
    requires TurnsAscend(later) && forall y | y in later :: y.0 in turns[1..]
    ensures TurnsAscend([x] + later) && forall y | y in [x] + later :: y.0 in turns
  {
    forall i | 0 <= i < |later| ensures later[i].0 > x.0 {
      assert later[i] in later;
      var j :| 0 <= j < |turns| - 1 && turns[1..][j] == later[i].0;
    }
  }

  /** What one step adds to the journal: each hash it agrees, once, by turn. */
  ghost predicate Journals(s: RelayState, s': RelayState) {
    && |s.saved| <= |s'.saved| && s'.saved[..|s.saved|] == s.saved
    && Agree.ToldOnce(HashesOf(s'.saved[|s.saved|..]), s.turns.references, s'.turns.references)
    && TurnsAscend(HashesOf(s'.saved[|s.saved|..]))
  }

  lemma NothingTold(references: map<nat, Hash>)
    ensures Agree.ToldOnce([], references, references)
  {
  }

  lemma JournalsQuietly(s: RelayState, s': RelayState, more: seq<Record>)
    requires s'.saved == s.saved + more && s'.turns.references == s.turns.references
    requires forall r | r in more :: !r.HashRecord?
    ensures Journals(s, s')
  {
    assert s'.saved[|s.saved|..] == more;
    NoHashes(more);
    NothingTold(s.turns.references);
  }

  lemma ReleaseJournals(s: RelayState, length: nat, pace: Option<nat>)
    requires s.cfg.saving
    ensures Journals(s, ReleaseTurns(s, length, pace))
  {
    var s' := ReleaseTurns(s, length, pace);
    ReleasedTurns(s, length, pace);
    if s.held {
      assert s.saved + [] == s.saved;
      JournalsQuietly(s, s', []);
    } else {
      var more := TurnRecords(s.log, s.turns.ready, s'.turns.ready, length);
      TurnRecordsAreTurns(s.log, s.turns.ready, s'.turns.ready, length);
      hide Stream, DueFlares, SentTo, SealMsgs, LengthenedRun, AdmitAll, PlayersRemain, Journals;
      JournalsQuietly(s, s', more);
    }
  }

  lemma SettledJournals(s: RelayState, s1: RelayState, t: TurnState)
    requires s.cfg.saving && s1.cfg == s.cfg && Journals(s, s1) && HashesOf(s1.saved[|s.saved|..]) == []
    requires s1.turns.references == s.turns.references
    requires Agree.ToldOnce(t.settled, s.turns.references, t.references) && TurnsAscend(t.settled)
    ensures Journals(s, SaveSettled(s1.(turns := t)))
  {
    var s2 := SaveSettled(s1.(turns := t));
    var more := HashRecords(t.settled);
    assert s2.saved == s1.saved + more;
    assert s2.saved[|s.saved|..] == s1.saved[|s.saved|..] + more;
    assert s2.saved[..|s.saved|] == s1.saved[..|s.saved|];
    HashesAppend(s1.saved[|s.saved|..], more);
    HashesOfHashes(t.settled);
    assert [] + t.settled == t.settled;
  }

  lemma HashJournals(s: RelayState, peer: Peer, turn: nat, hash: Hash)
    requires RunInv(s) && s.cfg.saving && HashReported(s, peer, turn, hash).Ok?
    ensures Journals(s, HashReported(s, peer, turn, hash).value)
  {
    var t := StateHash(s.turns, peer, turn, hash).value.0;
    ReportedTurns(s.turns, peer, turn, hash);
    ReportSettles(s.turns, peer, turn, hash);
    assert s.turns.settled == [];
    hide RunInv, StateHash, Agree.ToldOnce, TurnsAscend, HashesOf, Journals;
    assert s.saved + [] == s.saved;
    JournalsQuietly(s, s, []);
    assert s.saved[|s.saved|..] == [];
    NoHashes([]);
    SettledJournals(s, s, t);
  }

  lemma ReportSettles(s: TurnState, peer: Peer, turn: nat, hash: Hash)
    requires StateHash(s, peer, turn, hash).Ok? && s.settled == []
    ensures TurnsAscend(StateHash(s, peer, turn, hash).value.0.settled)
  {
    var s1 := s.(clients := s.clients[peer := s.clients[peer].(simulated := turn)],
                 pending := Filed(s.pending, turn, peer, hash));
    CompareSettles(s1, turn);
    hide Compare, Filed, ReferenceMayCome;
  }

  lemma DepartJournals(s: RelayState, peer: Peer, length: nat, pace: Option<nat>)
    requires RunInv(s) && s.cfg.saving && peer in s.sessions
    ensures Journals(s, Disconnected(s, peer, length, pace))
  {
    var gone := Gone(s, peer);
    GoneKeeps(s, peer);
    TickKeeps(gone, length, pace);
    var s1 := ReleaseTurns(gone, length, pace);
    ReleaseJournals(gone, length, pace);
    ReleasedTurns(gone, length, pace);
    RecheckedTurns(s1.turns);
    assert s1.turns.settled == [];
    RecheckSettles(s1.turns);
    ReleaseSaysNoHash(gone, length, pace);
    assert gone.saved == s.saved && gone.turns.references == s.turns.references && s1.cfg == s.cfg;
    assert Journals(s, s1);
    assert Disconnected(s, peer, length, pace) == SaveSettled(s1.(turns := Recheck(s1.turns).0));
    hide RunInv, Recheck, Disconnected, ReleaseTurns, SaveSettled, Journals, Agree.ToldOnce, TurnsAscend, HashesOf;
    SettledJournals(s, s1, Recheck(s1.turns).0);
  }

  lemma ReleaseSaysNoHash(s: RelayState, length: nat, pace: Option<nat>)
    ensures var s' := ReleaseTurns(s, length, pace);
            && s'.cfg == s.cfg && |s'.saved| >= |s.saved| && HashesOf(s'.saved[|s.saved|..]) == []
  {
    var upTo := Release(s.turns, s.cfg.lag, pace).ready;
    TurnRecordsAreTurns(s.log, s.turns.ready, upTo, length);
    var more := TurnRecords(s.log, s.turns.ready, upTo, length);
    NoHashes(more);
    NoHashes([]);
    assert (s.saved + more)[|s.saved|..] == more && (s.saved + [])[|s.saved|..] == [] && s.saved[|s.saved|..] == [];
    hide Stream, DueFlares, SentTo, SealMsgs, LengthenedRun, AdmitAll, PlayersRemain, TurnRecords, ReleaseCount;
  }

  lemma RecheckSettles(s: TurnState)
    requires s.settled == []
    ensures TurnsAscend(Recheck(s).0.settled)
  {
    if s.outOfSync == {} {
      var added := CompareAllSettles(s, Sorted(s.pending.Keys));
      assert [] + added == added;
    }
    hide CompareAll;
  }

  /** No step but a crash takes anything out of the journal, and each adds exactly
      the hashes it agrees. */
  lemma StepJournals(s: RelayState, step: Step)
    requires RunInv(s) && s.cfg.saving && !step.Crash?
    ensures Journals(s, Next(s, step))
  {
    assert s.saved + [] == s.saved;
    JournalsQuietly(s, s, []);
    match step {
      case SealUp(peer, turn, length, pace) =>
        hide Journals;
        if TurnSealed(s, peer, turn, length, pace).Ok? {
          var sealed := s.(turns := SealTurn(s.turns, peer, turn).value);
          ReleaseJournals(sealed, length, pace);
          SameStart(s, sealed, ReleaseTurns(sealed, length, pace));
        }
      case Tick(length, pace) => ReleaseJournals(s, length, pace);
      case Unhold(length, pace) =>
        hide Journals, ReleaseTurns;
        var open := s.(held := false);
        ReleaseJournals(open, length, pace);
        SameStart(s, open, ReleaseTurns(open, length, pace));
      case Hashed(peer, turn, hash) =>
        hide Journals;
        if HashReported(s, peer, turn, hash).Ok? {
          HashJournals(s, peer, turn, hash);
        }
      case Depart(peer, length, pace) =>
        hide Journals;
        if peer in s.sessions {
          DepartJournals(s, peer, length, pace);
        }
      case Stop(unixMs) =>
        hide Journals;
        JournalsQuietly(s, Stopped(s, unixMs), [StoppedRecord(s.turns.ready, unixMs)]);
      case _ =>
        OthersSaveNothing(s, step);
        hide Journals, Next;
        JournalsQuietly(s, Next(s, step), []);
    }
  }

  lemma SameStart(a: RelayState, b: RelayState, s': RelayState)
    requires Journals(b, s') && a.saved == b.saved && a.turns.references == b.turns.references
    ensures Journals(a, s')
  {
  }

  lemma OthersSaveNothing(s: RelayState, step: Step)
    requires step.Connect? || step.Deliver? || step.Say? || step.Signal? || step.Load?
    ensures Next(s, step).saved == s.saved && Next(s, step).turns.references == s.turns.references
  {
    hide Stream, Replay, DueFlares, SentTo, AdmitAll, PlayersRemain;
  }

  // ---- over runs ----

  /** The journal's hashes are the agreed ones, each once. */
  ghost predicate Journalled(s: RelayState) {
    s.cfg.saving ==> Agree.ToldOnce(HashesOf(s.saved), map[], s.turns.references)
  }

  lemma JournalsThen(s: RelayState, s': RelayState)
    requires Journalled(s) && s.cfg.saving && Journals(s, s')
    ensures Agree.ToldOnce(HashesOf(s'.saved), map[], s'.turns.references)
  {
    var more := s'.saved[|s.saved|..];
    assert s'.saved == s.saved + more;
    HashesAppend(s.saved, more);
    hide HashesOf, Agree.ToldOnce;
    ToldThen(HashesOf(s.saved), HashesOf(more), map[], s.turns.references, s'.turns.references);
  }

  lemma {:induction false} RebuiltTold(records: seq<Record>)
    requires forall i, j | 0 <= i < j < |HashesOf(records)| :: HashesOf(records)[i].0 != HashesOf(records)[j].0
    ensures Agree.ToldOnce(HashesOf(records), map[], RebuiltHashes(records))
    decreases |records|
  {
    if records != [] {
      var front, last := records[..|records| - 1], records[|records| - 1];
      var hs, fs := HashesOf(records), HashesOf(front);
      assert forall i | 0 <= i < |fs| :: hs[i] == fs[i];
      RebuiltTold(front);
      if last.HashRecord? {
        NotTold(fs, hs, RebuiltHashes(front), last.turn);
        Agree.ToldSnoc(fs, map[], RebuiltHashes(front), last.turn, last.hash);
      }
      hide Agree.ToldOnce;
    }
  }

  lemma NotTold(fs: seq<(nat, Hash)>, hs: seq<(nat, Hash)>, references: map<nat, Hash>, turn: nat)
    requires Agree.ToldOnce(fs, map[], references)
    requires |hs| == |fs| + 1 && hs[..|fs|] == fs && hs[|fs|].0 == turn
    requires forall i, j | 0 <= i < j < |hs| :: hs[i].0 != hs[j].0
    ensures turn !in references
  {
    forall i | 0 <= i < |fs| ensures fs[i].0 != turn {
      assert hs[..|fs|][i] == hs[i];
    }
  }

  /** What a save restores: exactly the hashes recorded before the cut. */
  lemma RestoresWhatItHolds(s: RelayState, cut: nat, unixMs: int)
    requires Journalled(s) && s.cfg.saving && cut <= |s.saved|
    ensures var r := Restarted(s.cfg, s.saved[..cut], unixMs);
            && Journalled(r)
            && Agree.ToldOnce(HashesOf(s.saved[..cut]), map[], r.turns.references)
            && (cut == |s.saved| ==> r.turns.references == s.turns.references)
  {
    var records := s.saved[..cut];
    var r := Restarted(s.cfg, records, unixMs);
    assert s.saved == records + s.saved[cut..];
    HashesAppend(records, s.saved[cut..]);
    var hs, all := HashesOf(records), HashesOf(s.saved);
    assert forall i | 0 <= i < |hs| :: hs[i] == all[i];
    RebuiltTold(records);
    HashesAppend(records, [ResumedRecord(r.turns.ready, unixMs)]);
    NoHashes([ResumedRecord(r.turns.ready, unixMs)]);
    hide RebuiltHashes, RebuiltLog, LastTurn;
    assert hs + [] == hs;
    if cut == |s.saved| {
      assert records == s.saved;
      SameTold(hs, r.turns.references, s.turns.references);
    }
    hide HashesOf, Agree.ToldOnce;
  }

  lemma SameTold(told: seq<(nat, Hash)>, a: map<nat, Hash>, b: map<nat, Hash>)
    requires Agree.ToldOnce(told, map[], a) && Agree.ToldOnce(told, map[], b)
    ensures a == b
  {
    forall t ensures t in a <==> t in b {
    }
  }

  lemma StepJournalled(s: RelayState, step: Step)
    requires RunInv(s) && Journalled(s)
    ensures Journalled(Next(s, step))
  {
    hide RunInv, Agree.ToldOnce, HashesOf, Restarted, Journals;
    StepConfig(s, step);
    if s.cfg.saving {
      if step.Crash? {
        if step.cut <= |s.saved| {
          RestoresWhatItHolds(s, step.cut, step.unixMs);
        }
      } else {
        StepJournals(s, step);
        hide Next;
        JournalsThen(s, Next(s, step));
      }
    }
    hide Next;
  }

  lemma {:induction false} RunJournals(s: RelayState, steps: seq<Step>)
    requires RunInv(s) && Journalled(s)
    ensures Journalled(Play(s, steps))
    decreases |steps|
  {
    if steps != [] {
      hide RunInv, Journalled, Next;
      StepKeeps(s, steps[0]);
      StepJournalled(s, steps[0]);
      RunJournals(Next(s, steps[0]), steps[1..]);
    }
  }

  /** In any run of a saving match, crashes and all: the journal holds every
      agreed hash exactly once and no other, and starting over from any part of
      it restores exactly the hashes in that part. */
  lemma JournalHoldsHashes(cfg: Config, starters: map<Peer, Session>, steps: seq<Step>, cut: nat, unixMs: int)
    requires Starters(starters) && cfg.saving && cut <= |Play(Begun(cfg, starters), steps).saved|
    ensures var s := Play(Begun(cfg, starters), steps);
            var r := Restarted(cfg, s.saved[..cut], unixMs);
            && Agree.ToldOnce(HashesOf(s.saved), map[], s.turns.references)
            && Agree.ToldOnce(HashesOf(s.saved[..cut]), map[], r.turns.references)
            && (cut == |s.saved| ==> r.turns.references == s.turns.references)
  {
    var s0 := Begun(cfg, starters);
    BegunKeeps(cfg, starters);
    NothingTold(map[]);
    assert Journalled(s0);
    hide RunInv, Agree.ToldOnce, HashesOf, Begun, Play, Restarted;
    RunJournals(s0, steps);
    SameConfig(s0, steps);
    RestoresWhatItHolds(Play(s0, steps), cut, unixMs);
  }

  // ---- the marks in the journal ----

  predicate IsMark(r: Record) { r.ResumedRecord? || r.StoppedRecord? }

  /** Every mark of a stop or a restart names the turn the save had reached there. */
  ghost predicate MarksTell(records: seq<Record>) {
    forall i | 0 <= i < |records| && IsMark(records[i]) :: records[i].turn == LastTurn(records[..i])
  }

  lemma MarksThen(a: seq<Record>, b: seq<Record>)
    requires MarksTell(a) && (b == [] || (forall r | r in b :: !IsMark(r)) || (|b| == 1 && b[0].turn == LastTurn(a)))
    ensures MarksTell(a + b)
  {
    hide LastTurn, IsMark;
    var all := a + b;
    forall i | 0 <= i < |all| && IsMark(all[i]) ensures all[i].turn == LastTurn(all[..i]) {
      if i < |a| {
        assert all[..i] == a[..i];
      } else {
        assert all[i] == b[i - |a|] && all[i] in b && all[..|a|] == a;
      }
    }
  }

  lemma MarksCut(records: seq<Record>, cut: nat)
    requires MarksTell(records) && cut <= |records|
    ensures MarksTell(records[..cut])
  {
    hide LastTurn;
    forall i | 0 <= i < cut && IsMark(records[..cut][i]) ensures records[i].turn == LastTurn(records[..cut][..i]) {
      assert records[..cut][..i] == records[..i];
    }
  }

  lemma ReleaseMarks(s: RelayState, length: nat, pace: Option<nat>)
    requires MarksTell(s.saved)
    ensures MarksTell(ReleaseTurns(s, length, pace).saved)
  {
    var upTo := Release(s.turns, s.cfg.lag, pace).ready;
    var more := TurnRecords(s.log, s.turns.ready, upTo, length);
    TurnRecordsAreTurns(s.log, s.turns.ready, upTo, length);
    assert s.saved + [] == s.saved;
    MarksThen(s.saved, more);
    hide Stream, DueFlares, SentTo, SealMsgs, LengthenedRun, AdmitAll, PlayersRemain, TurnRecords, ReleaseCount,
         MarksTell;
  }

  lemma SettledMarks(s: RelayState)
    requires MarksTell(s.saved)
    ensures MarksTell(SaveSettled(s).saved)
  {
    assert s.saved + [] == s.saved;
    MarksThen(s.saved, HashRecords(s.turns.settled));
    hide MarksTell;
  }

  lemma StepMarks(s: RelayState, step: Step)
    requires RunInv(s) && s.cfg.saving && MarksTell(s.saved)
    ensures MarksTell(Next(s, step).saved)
  {
    hide ReleaseTurns, MarksTell, StateHash, Recheck, LastTurn;
    match step {
      case SealUp(peer, turn, length, pace) =>
        if TurnSealed(s, peer, turn, length, pace).Ok? {
          ReleaseMarks(s.(turns := SealTurn(s.turns, peer, turn).value), length, pace);
        }
      case Tick(length, pace) => ReleaseMarks(s, length, pace);
      case Unhold(length, pace) => ReleaseMarks(s.(held := false), length, pace);
      case Hashed(peer, turn, hash) =>
        if HashReported(s, peer, turn, hash).Ok? {
          SettledMarks(s.(turns := StateHash(s.turns, peer, turn, hash).value.0));
        }
      case Depart(peer, length, pace) =>
        if peer in s.sessions {
          ReleaseMarks(Gone(s, peer), length, pace);
          var s1 := ReleaseTurns(Gone(s, peer), length, pace);
          SettledMarks(s1.(turns := Recheck(s1.turns).0));
        }
      case Stop(unixMs) =>
        LastTurnIs(s.saved, s.log, s.turns.ready);
        MarksThen(s.saved, [StoppedRecord(s.turns.ready, unixMs)]);
      case Crash(cut, unixMs) =>
        hide RebuiltLog, RebuiltHashes;
        if cut <= |s.saved| {
          MarksCut(s.saved, cut);
          MarksThen(s.saved[..cut], [ResumedRecord(LastTurn(s.saved[..cut]), unixMs)]);
        }
      case _ => OthersSaveNothing(s, step);
    }
  }

  lemma {:induction false} RunMarks(s: RelayState, steps: seq<Step>)
    requires RunInv(s) && s.cfg.saving && MarksTell(s.saved)
    ensures MarksTell(Play(s, steps).saved)
    decreases |steps|
  {
    if steps != [] {
      hide RunInv, MarksTell, Next;
      StepKeeps(s, steps[0]);
      StepConfig(s, steps[0]);
      StepMarks(s, steps[0]);
      RunMarks(Next(s, steps[0]), steps[1..]);
    }
  }

  /** In any run of a saving match, every mark of a stop or a restart in the save
      names the turn the save had reached there; a stop leaves one, and nothing else. */
  lemma MarksInSave(cfg: Config, starters: map<Peer, Session>, steps: seq<Step>, unixMs: int)
    requires Starters(starters) && cfg.saving
    ensures var s := Play(Begun(cfg, starters), steps);
            && MarksTell(s.saved)
            && Next(s, Stop(unixMs)) == s.(saved := s.saved + [StoppedRecord(s.turns.ready, unixMs)])
  {
    var s0 := Begun(cfg, starters);
    BegunKeeps(cfg, starters);
    assert MarksTell(s0.saved);
    hide Play, Begun, RunInv, MarksTell;
    SameConfig(s0, steps);
    RunMarks(s0, steps);
  }
}
