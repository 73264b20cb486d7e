/** Whole runs of the hash comparison: what is agreed is agreed once, and
    observers have no part in it. */
module HashAgreement {
  import opened Prelude
  import opened Turns

  /** The manager with the history no field of it keeps: every hash already
      handed to the caller, the hashes a resumed match began with, and the
      mismatches reported to the players. */
  datatype Match = Match(
    s: TurnState,
    emitted: seq<(nat, Hash)>,
    restored: map<nat, Hash>,
    alarms: set<Mismatch>)

  const Start: Match := Match(Fresh, [], map[], {})

  function Restart(ready: nat, references: map<nat, Hash>): Match {
    Match(Resumed(ready, references), [], references, {})
  }

  datatype Step =
    | Starter(peer: Peer, id: nat, observer: bool, delayed: bool)
    | JoinLive(peer: Peer, id: nat, observer: bool)
    | JoinDelayed(peer: Peer, id: nat, head: nat)
    | BecomeAiHost(peer: Peer)
    | Leave(peer: Peer)
    | Seal(peer: Peer, turn: nat)
    | ReleaseTurns(n: nat)
    | Report(peer: Peer, turn: nat, hash: Hash)
    | RecheckAll
    | TakeAll

  predicate FreshPeer(s: TurnState, peer: Peer, id: nat) {
    peer !in s.clients && forall q | q in s.clients :: s.clients[q].id != id
  }

  /** What the server's handlers establish before they call the manager. */
  predicate Enabled(m: Match, step: Step) {
    match step
    case Starter(peer, id, _, _) =>
      FreshPeer(m.s, peer, id) && m.s.ready == INITIAL_READY_TURN && m.s.references == map[]
    case JoinLive(peer, id, _) => FreshPeer(m.s, peer, id)
    case JoinDelayed(peer, id, head) => FreshPeer(m.s, peer, id) && head <= m.s.ready
    case _ => true
  }

  function ToPlayers(found: set<Mismatch>): set<Mismatch> {
    set x | x in found && x.recipient.None?
  }

  ghost function After(m: Match, outcome: (TurnState, set<Mismatch>)): Match {
    m.(s := outcome.0, alarms := m.alarms + ToPlayers(outcome.1))
  }

  ghost function Next(m: Match, step: Step): Match {
    match step
    case Starter(peer, id, observer, delayed) =>
      m.(s := Register(m.s, peer, id, INITIAL_READY_TURN, 0, observer, delayed))
    case JoinLive(peer, id, observer) =>
      m.(s := Register(m.s, peer, id, m.s.ready + 3, m.s.ready, observer, false))
    case JoinDelayed(peer, id, head) =>
      m.(s := Register(m.s, peer, id, head + 3, head, true, true))
    case BecomeAiHost(peer) => m.(s := MarkAiHost(m.s, peer))
    case Leave(peer) => m.(s := Forget(m.s, peer))
    case Seal(peer, turn) =>
      (match SealTurn(m.s, peer, turn) case Ok(s) => m.(s := s) case Err(_) => m)
    case ReleaseTurns(n) => m.(s := m.s.(ready := m.s.ready + n))
    case Report(peer, turn, hash) =>
      if turn > m.s.ready then m
      else (match StateHash(m.s, peer, turn, hash) case Ok(o) => After(m, o) case Err(_) => m)
    case RecheckAll => After(m, Recheck(m.s))
    case TakeAll => m.(emitted := m.emitted + m.s.settled, s := m.s.(settled := []))
  }

  ghost predicate Legal(m: Match, steps: seq<Step>)
    decreases |steps|
  {
    steps == [] || (Enabled(m, steps[0]) && Legal(Next(m, steps[0]), steps[1..]))
  }

  ghost function Play(m: Match, steps: seq<Step>): Match
    decreases |steps|
  {
    if steps == [] then m else Play(Next(m, steps[0]), steps[1..])
  }

  // ---- the invariant ----

  /** A player has hashed every agreed turn it was registered for; only the AI
      host skips any, and only full ones. */
  ghost predicate CaughtUp(s: TurnState) {
    forall p, t | p in s.clients && s.clients[p].IsPlayer() && t in s.references
                  && t > s.clients[p].simulated :: s.clients[p].Exempt(t)
  }

  ghost predicate PendingOpen(s: TurnState) {
    && (forall t | t in s.pending :: t <= s.ready && t !in s.references)
    && (forall t, p | t in s.pending && p in s.pending[t] ::
          p in s.clients && s.clients[p].IsPlayer() && t <= s.clients[p].simulated)
  }

  ghost predicate Bounded(s: TurnState) {
    && (forall t | t in s.references :: t <= s.ready)
    && (forall p | p in s.outOfSync :: p in s.clients && s.clients[p].IsPlayer())
  }

  ghost predicate StateInv(s: TurnState) {
    DistinctIds(s.clients) && Bounded(s) && CaughtUp(s) && PendingOpen(s)
  }

  function Told(m: Match): seq<(nat, Hash)> { m.emitted + m.s.settled }

  /** Every agreed hash not restored from a save is told to the caller exactly
      once, and what was told is what is kept. */
  ghost predicate ToldOnce(told: seq<(nat, Hash)>, restored: map<nat, Hash>,
                           references: map<nat, Hash>)
  {
    && (forall i, j | 0 <= i < j < |told| :: told[i].0 != told[j].0)
    && (forall i | 0 <= i < |told| ::
          told[i].0 !in restored && told[i].0 in references && references[told[i].0] == told[i].1)
    && (forall t | t in restored :: t in references && references[t] == restored[t])
    && (forall t | t in references :: t in restored || exists i | 0 <= i < |told| :: told[i].0 == t)
  }

  ghost predicate Inv(m: Match) {
    StateInv(m.s) && ToldOnce(Told(m), m.restored, m.s.references)
  }

  ghost predicate Extends(before: map<nat, Hash>, after: map<nat, Hash>) {
    forall t | t in before :: t in after && after[t] == before[t]
  }

  lemma StartInv()
    ensures Inv(Start)
  {
  }

  lemma RestartInv(ready: nat, references: map<nat, Hash>)
    requires forall t | t in references :: t <= ready
    ensures Inv(Restart(ready, references))
  {
  }

  /** One agreement: the turn was open, and it is closed for good. */
  lemma SettleStep(s: TurnState, turn: nat, reference: Hash)
    requires StateInv(s) && Comparable(s, turn)
    ensures StateInv(Settle(s, turn, reference).0)
    ensures turn !in s.references
  {
  }

  lemma ToldSnoc(told: seq<(nat, Hash)>, restored: map<nat, Hash>, references: map<nat, Hash>,
                 turn: nat, hash: Hash)
    requires ToldOnce(told, restored, references) && turn !in references
    ensures ToldOnce(told + [(turn, hash)], restored, references[turn := hash])
  {
    var more := told + [(turn, hash)];
    forall t | t in references[turn := hash]
      ensures t in restored || exists i | 0 <= i < |more| :: more[i].0 == t
    {
      if t == turn {
        assert more[|told|].0 == t;
      } else if t !in restored {
        var i :| 0 <= i < |told| && told[i].0 == t;
        assert more[i].0 == t;
      }
    }
  }

  lemma CompareStep(m: Match, turn: nat)
    requires Inv(m)
    ensures Inv(After(m, Compare(m.s, turn)))
    ensures Extends(m.s.references, Compare(m.s, turn).0.references)
    ensures Compare(m.s, turn).0.clients == m.s.clients
  {
    if Comparable(m.s, turn) {
      var hash := Reference(m.s, turn);
      SettleStep(m.s, turn, hash);
      ToldSnoc(Told(m), m.restored, m.s.references, turn, hash);
      assert Told(After(m, Compare(m.s, turn))) == Told(m) + [(turn, hash)];
    } else {
      assert Told(After(m, Compare(m.s, turn))) == Told(m);
    }
  }

  lemma {:induction false} CompareAllStep(m: Match, turns: seq<nat>)
    requires Inv(m)
    ensures Inv(After(m, CompareAll(m.s, turns)))
    ensures Extends(m.s.references, CompareAll(m.s, turns).0.references)
    decreases |turns|
  {
    if turns == [] {
      assert Told(After(m, CompareAll(m.s, turns))) == Told(m);
    } else {
      CompareStep(m, turns[0]);
      var m1 := After(m, Compare(m.s, turns[0]));
      CompareAllStep(m1, turns[1..]);
      assert Told(After(m1, CompareAll(m1.s, turns[1..]))) == Told(After(m, CompareAll(m.s, turns)));
    }
  }

  /** A player's next hash is never for a turn already agreed on. */
  lemma ReportOpen(s: TurnState, peer: Peer, turn: nat)
    requires StateInv(s) && peer in s.clients && s.clients[peer].Owes(turn)
    requires turn == s.clients[peer].simulated + 1
    ensures turn !in s.references
  {
  }

  lemma FiledInv(s: TurnState, peer: Peer, turn: nat, hash: Hash)
    requires StateInv(s) && peer in s.clients && turn == s.clients[peer].simulated + 1
    requires turn <= s.ready
    ensures var s1 := s.(clients := s.clients[peer := s.clients[peer].(simulated := turn)]);
            && StateInv(s1)
            && (s.clients[peer].Owes(turn)
                ==> StateInv(s1.(pending := Filed(s1.pending, turn, peer, hash))))
  {
    var s1 := s.(clients := s.clients[peer := s.clients[peer].(simulated := turn)]);
    assert DistinctIds(s1.clients);
    if s.clients[peer].Owes(turn) {
      ReportOpen(s, peer, turn);
      var s2 := s1.(pending := Filed(s1.pending, turn, peer, hash));
      assert CaughtUp(s2) && PendingOpen(s2);
    }
  }

  /** A report that agrees nothing only moves its sender on. */
  lemma QuietReport(m: Match, m': Match, peer: Peer, turn: nat)
    requires Inv(m) && turn <= m.s.ready
    requires peer in m.s.clients && turn == m.s.clients[peer].simulated + 1
    requires m'.s.clients == m.s.clients[peer := m.s.clients[peer].(simulated := turn)]
    requires m'.s.references == m.s.references && m'.s.pending == m.s.pending
    requires m'.s.outOfSync == m.s.outOfSync && m'.s.ready == m.s.ready
    requires m'.restored == m.restored && Told(m') == Told(m)
    ensures Inv(m')
  {
    FiledInv(m.s, peer, turn, []);
  }

  lemma PlayerReport(m: Match, peer: Peer, turn: nat, hash: Hash)
    requires Inv(m) && turn <= m.s.ready && m.s.outOfSync == {}
    requires peer in m.s.clients && m.s.clients[peer].Owes(turn)
    requires turn == m.s.clients[peer].simulated + 1
    ensures var s1 := m.s.(
                clients := m.s.clients[peer := m.s.clients[peer].(simulated := turn)],
                pending := Filed(m.s.pending, turn, peer, hash));
            && Inv(m.(s := s1))
            && Next(m, Report(peer, turn, hash)) == After(m.(s := s1), Compare(s1, turn))
            && s1.references == m.s.references
  {
    FiledInv(m.s, peer, turn, hash);
    var s1 := m.s.(clients := m.s.clients[peer := m.s.clients[peer].(simulated := turn)],
                   pending := Filed(m.s.pending, turn, peer, hash));
    assert Told(m.(s := s1)) == Told(m);
  }

  /** An observer's report, an exempt one, or one after a desync. */
  lemma OtherReport(m: Match, peer: Peer, turn: nat, hash: Hash)
    requires Inv(m) && turn <= m.s.ready && peer in m.s.clients
    requires turn == m.s.clients[peer].simulated + 1
    requires !m.s.clients[peer].Owes(turn) || m.s.outOfSync != {}
    ensures Inv(Next(m, Report(peer, turn, hash)))
    ensures Next(m, Report(peer, turn, hash)).s.references == m.s.references
  {
    hide StateInv, ToldOnce, Comparable, Disagreeing;
    QuietReport(m, Next(m, Report(peer, turn, hash)), peer, turn);
  }

  lemma ReportStep(m: Match, peer: Peer, turn: nat, hash: Hash)
    requires Inv(m)
    ensures Inv(Next(m, Report(peer, turn, hash)))
    ensures Extends(m.s.references, Next(m, Report(peer, turn, hash)).s.references)
  {
    if peer in m.s.clients && turn == m.s.clients[peer].simulated + 1 && turn <= m.s.ready {
      if m.s.clients[peer].Owes(turn) && m.s.outOfSync == {} {
        PlayerReport(m, peer, turn, hash);
        var s1 := m.s.(clients := m.s.clients[peer := m.s.clients[peer].(simulated := turn)],
                       pending := Filed(m.s.pending, turn, peer, hash));
        CompareStep(m.(s := s1), turn);
      } else {
        OtherReport(m, peer, turn, hash);
      }
    }
  }

  lemma ForgetInv(s: TurnState, peer: Peer)
    requires StateInv(s)
    ensures StateInv(Forget(s, peer))
  {
  }

  lemma JoinInv(m: Match, step: Step)
    requires Inv(m) && Enabled(m, step) && (step.Starter? || step.JoinLive? || step.JoinDelayed?)
    ensures Inv(Next(m, step)) && Next(m, step).s.references == m.s.references
  {
    hide ToldOnce, StateHash, Recheck;
    assert Told(Next(m, step)) == Told(m);
  }

  lemma RestInv(m: Match, step: Step)
    requires Inv(m) && (step.BecomeAiHost? || step.Seal? || step.ReleaseTurns? || step.TakeAll? || step.Leave?)
    ensures Inv(Next(m, step)) && Next(m, step).s.references == m.s.references
  {
    hide ToldOnce, StateHash, Recheck;
    assert Told(Next(m, step)) == Told(m);
    if step.Leave? {
      ForgetInv(m.s, step.peer);
    }
  }

  lemma StepInv(m: Match, step: Step)
    requires Inv(m) && Enabled(m, step)
    ensures Inv(Next(m, step)) && Next(m, step).restored == m.restored
    ensures Extends(m.s.references, Next(m, step).s.references)
  {
    hide StateInv, ToldOnce, StateHash;
    match step
    case Report(peer, turn, hash) => ReportStep(m, peer, turn, hash);
    case RecheckAll =>
      if m.s.outOfSync == {} {
        CompareAllStep(m, Sorted(m.s.pending.Keys));
      } else {
        assert Told(Next(m, step)) == Told(m);
      }
    case Starter(_, _, _, _) => JoinInv(m, step);
    case JoinLive(_, _, _) => JoinInv(m, step);
    case JoinDelayed(_, _, _) => JoinInv(m, step);
    case _ => RestInv(m, step);
  }

  /** In every run, an agreed hash is written once, never changed, and told
      to the caller once. */
  lemma {:induction false} AgreedOnce(m: Match, steps: seq<Step>)
    requires Inv(m) && Legal(m, steps)
    ensures Inv(Play(m, steps))
    ensures Extends(m.s.references, Play(m, steps).s.references)
    ensures Play(m, steps).restored == m.restored
    decreases |steps|
  {
    if steps != [] {
      StepInv(m, steps[0]);
      hide Inv, Next;
      AgreedOnce(Next(m, steps[0]), steps[1..]);
    }
  }

  /** A match started over from a save tells of each newly agreed hash once, and
      never again of one it restored; a new match restores none. */
  lemma RestartedAgreesOnce(ready: nat, references: map<nat, Hash>, steps: seq<Step>)
    requires forall t | t in references :: t <= ready
    ensures Legal(Restart(ready, references), steps) ==>
      var m := Play(Restart(ready, references), steps);
      ToldOnce(Told(m), references, m.s.references)
    ensures Legal(Start, steps) ==> ToldOnce(Told(Play(Start, steps)), map[], Play(Start, steps).s.references)
  {
    RestartInv(ready, references);
    StartInv();
    hide StateInv, ToldOnce, Legal, Play;
    if Legal(Restart(ready, references), steps) {
      AgreedOnce(Restart(ready, references), steps);
    }
    if Legal(Start, steps) {
      AgreedOnce(Start, steps);
    }
  }

  /** What is agreed on is the report of the lowest reporter, and walking the
      reports in another order cannot change it. */
  lemma AgreedIsLowest(s: TurnState, turn: nat, p: Peer)
    requires StateInv(s) && Comparable(s, turn) && IsLowest(s.pending[turn], s.clients, p)
    ensures var s' := Compare(s, turn).0;
            && s'.references == s.references[turn := s.pending[turn][p]]
            && s'.settled == s.settled + [(turn, s.pending[turn][p])]
            && s'.outOfSync == (set q | q in s.pending[turn] && s.pending[turn][q] != s.pending[turn][p])
    ensures s.clients[p].aiHost ==> forall q | q in s.pending[turn] :: s.clients[q].aiHost
  {
    LowestUnique(s.pending[turn], s.clients, p);
  }

  // ---- where an agreed hash came from ----

  /** Each of these was sent, as that peer's hash for that turn. */
  ghost predicate SentFor(reports: map<Peer, Hash>, turn: nat, history: seq<Step>) {
    forall p | p in reports :: Report(p, turn, reports[p]) in history
  }

  ghost predicate AllSent(pending: map<nat, map<Peer, Hash>>, history: seq<Step>) {
    forall t | t in pending :: SentFor(pending[t], t, history)
  }

  /** Everyone who owed a report is among the reporters, every reporter is still
      registered, and the hash is the lowest one's. */
  ghost predicate AgreedBy(clients: map<Peer, Client>, reports: map<Peer, Hash>, turn: nat, hash: Hash) {
    && (forall p | p in clients && clients[p].Owes(turn) :: p in reports)
    && reports.Keys <= clients.Keys
    && exists p :: IsLowest(reports, clients, p) && reports[p] == hash
  }

  lemma CompareAgrees(s: TurnState, compared: nat, turn: nat)
    requires StateInv(s)
    ensures var s' := Compare(s, compared).0;
            && s'.clients == s.clients
            && (forall t | t in s'.pending :: t in s.pending && s'.pending[t] == s.pending[t])
            && (turn in s'.references && turn !in s.references ==>
                  turn in s.pending && AgreedBy(s.clients, s.pending[turn], turn, s'.references[turn]))
  {
    if Comparable(s, compared) {
      var p := Lowest(s.pending[compared], s.clients);
      assert IsLowest(s.pending[compared], s.clients, p);
      hide Disagreeing;
    }
  }

  lemma {:induction false} CompareAllAgrees(m: Match, turns: seq<nat>, turn: nat)
    requires Inv(m)
    ensures var s' := CompareAll(m.s, turns).0;
            && s'.clients == m.s.clients
            && (forall t | t in s'.pending :: t in m.s.pending && s'.pending[t] == m.s.pending[t])
            && (turn in s'.references && turn !in m.s.references ==>
                  turn in m.s.pending && AgreedBy(m.s.clients, m.s.pending[turn], turn, s'.references[turn]))
    decreases |turns|
  {
    if turns != [] {
      CompareAgrees(m.s, turns[0], turn);
      CompareStep(m, turns[0]);
      var m1 := After(m, Compare(m.s, turns[0]));
      CompareAllStep(m1, turns[1..]);
      hide Inv, AgreedBy, Compare;
      CompareAllAgrees(m1, turns[1..], turn);
    }
  }

  /** The reports a turn would be compared by in this step. */
  function Reports(m: Match, step: Step, turn: nat): map<Peer, Hash> {
    var pending := if step.Report? then Filed(m.s.pending, step.turn, step.peer, step.hash) else m.s.pending;
    if turn in pending then pending[turn] else map[]
  }

  lemma SentMore(m: Match, step: Step, history: seq<Step>)
    requires AllSent(m.s.pending, history)
    ensures AllSent(m.s.pending, history + [step])
    ensures forall t: nat :: SentFor(Reports(m, step, t), t, history + [step])
    ensures step.Report? ==>
      AllSent(Filed(m.s.pending, step.turn, step.peer, step.hash), history + [step])
  {
    assert forall x | x in history :: x in history + [step];
    assert step in history + [step];
    hide Filed;
    if step.Report? {
      FiledIs(m.s.pending, step.turn, step.peer, step.hash);
    }
  }

  lemma FiledIs(pending: map<nat, map<Peer, Hash>>, turn: nat, peer: Peer, hash: Hash)
    ensures var after := Filed(pending, turn, peer, hash);
            && (forall t :: t in after <==> t in pending || t == turn)
            && (forall t | t in pending && t != turn :: after[t] == pending[t])
            && (forall p | p in after[turn] ::
                  if p == peer then after[turn][p] == hash
                  else turn in pending && p in pending[turn] && after[turn][p] == pending[turn][p])
  {
  }

  lemma ReportAgrees(m: Match, step: Step, turn: nat)
    requires Inv(m) && step.Report?
    ensures var m' := Next(m, step);
            && (forall t | t in m'.s.pending ::
                  (t in m.s.pending && m'.s.pending[t] == m.s.pending[t])
                  || (t in Filed(m.s.pending, step.turn, step.peer, step.hash)
                      && m'.s.pending[t] == Filed(m.s.pending, step.turn, step.peer, step.hash)[t]))
            && (turn in m'.s.references && turn !in m.s.references ==>
                  AgreedBy(m'.s.clients, Reports(m, step, turn), turn, m'.s.references[turn]))
  {
    var peer, t, hash := step.peer, step.turn, step.hash;
    if peer in m.s.clients && t == m.s.clients[peer].simulated + 1 && t <= m.s.ready {
      if m.s.clients[peer].Owes(t) && m.s.outOfSync == {} {
        PlayerReport(m, peer, t, hash);
        var s1 := m.s.(clients := m.s.clients[peer := m.s.clients[peer].(simulated := t)],
                       pending := Filed(m.s.pending, t, peer, hash));
        hide Next, StateHash, Filed, ToldOnce;
        CompareAgrees(s1, t, turn);
      } else {
        OtherPending(m, peer, t, hash);
      }
    }
    hide Inv, AgreedBy, Compare;
  }

  lemma OtherPending(m: Match, peer: Peer, turn: nat, hash: Hash)
    requires Inv(m) && turn <= m.s.ready && peer in m.s.clients && turn == m.s.clients[peer].simulated + 1
    requires !m.s.clients[peer].Owes(turn) || m.s.outOfSync != {}
    ensures Next(m, Report(peer, turn, hash)).s.pending == m.s.pending
    ensures Next(m, Report(peer, turn, hash)).s.references == m.s.references
  {
    hide Inv, Filed, Compare;
  }

  /** A step that agrees a turn agrees it by reports that were sent. */
  lemma StepAgrees(m: Match, step: Step, history: seq<Step>, turn: nat)
    requires Inv(m) && Enabled(m, step) && AllSent(m.s.pending, history)
    ensures AllSent(Next(m, step).s.pending, history + [step])
    ensures turn in Next(m, step).s.references && turn !in m.s.references ==>
      && AgreedBy(Next(m, step).s.clients, Reports(m, step, turn), turn, Next(m, step).s.references[turn])
      && SentFor(Reports(m, step, turn), turn, history + [step])
  {
    SentMore(m, step, history);
    hide AgreedBy, StateHash, Filed;
    match step
    case Report(_, _, _) =>
      ReportAgrees(m, step, turn);
      hide Next;
    case RecheckAll =>
      if m.s.outOfSync == {} {
        CompareAllAgrees(m, Sorted(m.s.pending.Keys), turn);
      }
      hide CompareAll;
    case Starter(_, _, _, _) => JoinInv(m, step);
    case JoinLive(_, _, _) => JoinInv(m, step);
    case JoinDelayed(_, _, _) => JoinInv(m, step);
    case _ => RestInv(m, step);
  }

  /** The turn is agreed in step i, for good, by these reports. */
  ghost predicate Agrees(m: Match, history: seq<Step>, steps: seq<Step>, i: nat, reports: map<Peer, Hash>,
                         turn: nat)
  {
    && i < |steps| && turn in Play(m, steps).s.references
    && SentFor(reports, turn, history + steps[..i + 1])
    && AgreedBy(Play(m, steps[..i + 1]).s.clients, reports, turn, Play(m, steps).s.references[turn])
  }

  lemma {:induction false} AgreedSince(m: Match, history: seq<Step>, steps: seq<Step>, turn: nat)
    returns (i: nat, reports: map<Peer, Hash>)
    requires Inv(m) && Legal(m, steps) && AllSent(m.s.pending, history)
    requires turn !in m.s.references && turn in Play(m, steps).s.references
    ensures Agrees(m, history, steps, i, reports, turn)
    decreases |steps|
  {
    var step, rest, m1 := steps[0], steps[1..], Next(m, steps[0]);
    hide Inv, Next, Enabled, AgreedBy, SentFor, AllSent, Reports, Agrees;
    StepInv(m, step);
    StepAgrees(m, step, history, turn);
    if turn in m1.s.references {
      AgreedOnce(m1, rest);
      i, reports := 0, Reports(m, step, turn);
      AgreesNow(m, history, steps, reports, turn);
    } else {
      i, reports := AgreedSince(m1, history + [step], rest, turn);
      AgreesLater(m, history, steps, i, reports, turn);
      i := i + 1;
    }
  }

  lemma AgreesNow(m: Match, history: seq<Step>, steps: seq<Step>, reports: map<Peer, Hash>, turn: nat)
    requires steps != [] && turn in Next(m, steps[0]).s.references
    requires SentFor(reports, turn, history + [steps[0]])
    requires AgreedBy(Next(m, steps[0]).s.clients, reports, turn, Next(m, steps[0]).s.references[turn])
    requires Extends(Next(m, steps[0]).s.references, Play(m, steps).s.references)
    ensures Agrees(m, history, steps, 0, reports, turn)
  {
    hide Next, AgreedBy, SentFor;
    var first := [steps[0]];
    assert steps[..1] == first && first[1..] == [];
    assert Play(m, first) == Play(Next(m, first[0]), first[1..]) == Next(m, steps[0]);
  }

  lemma AgreesLater(m: Match, history: seq<Step>, steps: seq<Step>, i: nat, reports: map<Peer, Hash>, turn: nat)
    requires steps != []
    requires Agrees(Next(m, steps[0]), history + [steps[0]], steps[1..], i, reports, turn)
    ensures Agrees(m, history, steps, i + 1, reports, turn)
  {
    hide Next, AgreedBy, SentFor;
    assert steps[..i + 2][0] == steps[0] && steps[..i + 2][1..] == steps[1..][..i + 1];
    assert history + steps[..i + 2] == history + [steps[0]] + steps[1..][..i + 1];
  }

  /** Over any run: an agreed hash is the one that was sent, before it was
      agreed, by the lowest reporter, stock clients before the AI host and then
      by id, once everyone who owed one had reported. */
  lemma AgreedFromReports(m: Match, steps: seq<Step>, turn: nat)
    requires Inv(m) && Legal(m, steps) && m.s.pending == map[]
    requires turn !in m.s.references && turn in Play(m, steps).s.references
    ensures exists i: nat, reports :: Agrees(m, [], steps, i, reports, turn)
  {
    var i, reports := AgreedSince(m, [], steps, turn);
  }

  // ---- observers ----

  function PlayersOf(clients: map<Peer, Client>): map<Peer, Client> {
    map p | p in clients && clients[p].IsPlayer() :: clients[p]
  }

  function Erase(s: TurnState): TurnState {
    s.(clients := PlayersOf(s.clients), observerPending := map[], observersOutOfSync := {})
  }

  function EraseMatch(m: Match): Match { m.(s := Erase(m.s)) }

  predicate JoinsAsObserver(step: Step) {
    match step
    case Starter(_, _, observer, delayed) => observer || delayed
    case JoinLive(_, _, observer) => observer
    case JoinDelayed(_, _, _) => true
    case _ => false
  }

  function PlayersOnly(steps: seq<Step>): seq<Step> {
    if steps == [] then []
    else (if JoinsAsObserver(steps[0]) then [] else [steps[0]]) + PlayersOnly(steps[1..])
  }

  lemma EraseReference(s: TurnState, turn: nat)
    requires StateInv(s) && turn in s.pending && s.pending[turn] != map[]
    ensures Reference(Erase(s), turn) == Reference(s, turn)
  {
    var p := Lowest(s.pending[turn], s.clients);
    assert s.pending[turn].Keys <= PlayersOf(s.clients).Keys;
    assert forall q | q in s.pending[turn] :: Key(PlayersOf(s.clients), q) == Key(s.clients, q);
    LowestUnique(s.pending[turn], PlayersOf(s.clients), p);
  }

  lemma EraseSettle(s: TurnState, turn: nat, reference: Hash)
    requires StateInv(s) && Comparable(s, turn)
    ensures Erase(Settle(s, turn, reference).0) == Settle(Erase(s), turn, reference).0
    ensures ToPlayers(Settle(s, turn, reference).1) == ToPlayers(Settle(Erase(s), turn, reference).1)
  {
  }

  lemma EraseCompare(m: Match, turn: nat)
    requires Inv(m)
    ensures EraseMatch(After(m, Compare(m.s, turn))) == After(EraseMatch(m), Compare(Erase(m.s), turn))
  {
    var s, e := m.s, Erase(m.s);
    assert forall p | p in s.clients && s.clients[p].Owes(turn) :: p in e.clients;
    assert Comparable(s, turn) <==> Comparable(e, turn);
    if Comparable(s, turn) {
      EraseReference(s, turn);
      EraseSettle(s, turn, Reference(s, turn));
      hide StateInv, Settle, ToldOnce;
    }
  }

  lemma {:induction false} EraseCompareAll(m: Match, turns: seq<nat>)
    requires Inv(m)
    ensures EraseMatch(After(m, CompareAll(m.s, turns)))
         == After(EraseMatch(m), CompareAll(Erase(m.s), turns))
    decreases |turns|
  {
    if turns != [] {
      var m1 := After(m, Compare(m.s, turns[0]));
      CompareStep(m, turns[0]);
      EraseCompare(m, turns[0]);
      EraseCompareAll(m1, turns[1..]);
      var e := EraseMatch(m);
      AfterBoth(m, turns);
      AfterBoth(e, turns);
    }
  }

  lemma AfterBoth(m: Match, turns: seq<nat>)
    requires turns != []
    ensures var m1 := After(m, Compare(m.s, turns[0]));
            After(m, CompareAll(m.s, turns)) == After(m1, CompareAll(m1.s, turns[1..]))
  {
  }

  lemma PlayersUpdate(clients: map<Peer, Client>, peer: Peer, c: Client)
    ensures PlayersOf(clients[peer := c])
         == if c.IsPlayer() then PlayersOf(clients)[peer := c] else PlayersOf(clients) - {peer}
  {
  }

  /** A player whose report is not kept only moves on, erased or not. */
  lemma EraseDropped(m: Match, peer: Peer, turn: nat, hash: Hash)
    requires turn <= m.s.ready && peer in m.s.clients && turn == m.s.clients[peer].simulated + 1
    requires m.s.clients[peer].IsPlayer()
    requires !m.s.clients[peer].Owes(turn) || m.s.outOfSync != {}
    ensures EraseMatch(Next(m, Report(peer, turn, hash)))
         == Next(EraseMatch(m), Report(peer, turn, hash))
  {
    PlayersUpdate(m.s.clients, peer, m.s.clients[peer].(simulated := turn));
  }

  lemma EraseKept(m: Match, peer: Peer, turn: nat, hash: Hash)
    requires Inv(m) && turn <= m.s.ready && m.s.outOfSync == {}
    requires peer in m.s.clients && m.s.clients[peer].Owes(turn)
    requires turn == m.s.clients[peer].simulated + 1
    ensures EraseMatch(Next(m, Report(peer, turn, hash)))
         == Next(EraseMatch(m), Report(peer, turn, hash))
  {
    var c := m.s.clients[peer].(simulated := turn);
    var s1 := m.s.(clients := m.s.clients[peer := c], pending := Filed(m.s.pending, turn, peer, hash));
    PlayersUpdate(m.s.clients, peer, c);
    PlayerReport(m, peer, turn, hash);
    EraseCompare(m.(s := s1), turn);
    EraseInv(m);
    PlayerReport(EraseMatch(m), peer, turn, hash);
  }

  lemma EraseReport(m: Match, peer: Peer, turn: nat, hash: Hash)
    requires Inv(m)
    ensures EraseMatch(Next(m, Report(peer, turn, hash)))
         == Next(EraseMatch(m), Report(peer, turn, hash))
  {
    if turn <= m.s.ready && peer in m.s.clients && turn == m.s.clients[peer].simulated + 1 {
      var c := m.s.clients[peer];
      if !c.IsPlayer() {
        ObserverReport(m, peer, turn, hash);
      } else if c.Owes(turn) && m.s.outOfSync == {} {
        EraseKept(m, peer, turn, hash);
      } else {
        EraseDropped(m, peer, turn, hash);
      }
    }
  }

  lemma ObserverHash(s: TurnState, peer: Peer, turn: nat, hash: Hash)
    requires peer in s.clients && !s.clients[peer].IsPlayer()
    requires turn == s.clients[peer].simulated + 1
    ensures match StateHash(s, peer, turn, hash)
            case Err(_) => false
            case Ok((s', found)) =>
              && ToPlayers(found) == {}
              && s' == s.(clients := s.clients[peer := s.clients[peer].(simulated := turn)],
                          observerPending := s'.observerPending,
                          observersOutOfSync := s'.observersOutOfSync)
  {
  }

  lemma ObserverReport(m: Match, peer: Peer, turn: nat, hash: Hash)
    requires Inv(m) && turn <= m.s.ready && peer in m.s.clients && !m.s.clients[peer].IsPlayer()
    requires turn == m.s.clients[peer].simulated + 1
    ensures EraseMatch(Next(m, Report(peer, turn, hash))) == EraseMatch(m)
  {
    PlayersUpdate(m.s.clients, peer, m.s.clients[peer].(simulated := turn));
    ObserverHash(m.s, peer, turn, hash);
    assert PlayersOf(m.s.clients) - {peer} == PlayersOf(m.s.clients);
  }

  lemma EraseForget(s: TurnState, peer: Peer)
    requires StateInv(s)
    ensures Erase(Forget(s, peer)) == Forget(Erase(s), peer)
  {
    assert PlayersOf(s.clients - {peer}) == PlayersOf(s.clients) - {peer};
    assert Without(map[], peer) == map[];
  }

  lemma EraseJoin(m: Match, step: Step)
    requires Inv(m) && Enabled(m, step) && (step.Starter? || step.JoinLive? || step.JoinDelayed?)
    ensures JoinsAsObserver(step) ==> EraseMatch(Next(m, step)) == EraseMatch(m)
    ensures !JoinsAsObserver(step) ==>
      Enabled(EraseMatch(m), step) && EraseMatch(Next(m, step)) == Next(EraseMatch(m), step)
  {
    hide StateInv, ToldOnce, StateHash;
    PlayersUpdate(m.s.clients, step.peer, Next(m, step).s.clients[step.peer]);
  }

  lemma EraseChange(m: Match, step: Step)
    requires Inv(m) && (step.BecomeAiHost? || step.Seal?)
    ensures EraseMatch(Next(m, step)) == Next(EraseMatch(m), step)
  {
    hide StateInv, ToldOnce, StateHash;
    if step.peer in m.s.clients {
      PlayersUpdate(m.s.clients, step.peer, Next(m, step).s.clients[step.peer]);
    }
  }

  lemma EraseStep(m: Match, step: Step)
    requires Inv(m) && Enabled(m, step)
    ensures JoinsAsObserver(step) ==> EraseMatch(Next(m, step)) == EraseMatch(m)
    ensures !JoinsAsObserver(step) ==>
      Enabled(EraseMatch(m), step) && EraseMatch(Next(m, step)) == Next(EraseMatch(m), step)
  {
    match step
    case Report(peer, turn, hash) => EraseReport(m, peer, turn, hash);
    case RecheckAll =>
      if m.s.outOfSync == {} {
        EraseCompareAll(m, Sorted(m.s.pending.Keys));
      }
    case Leave(peer) => EraseForget(m.s, peer);
    case BecomeAiHost(_) => EraseChange(m, step);
    case Seal(_, _) => EraseChange(m, step);
    case ReleaseTurns(_) =>
    case TakeAll =>
    case _ => EraseJoin(m, step);
  }

  lemma EraseInv(m: Match)
    requires Inv(m)
    ensures Inv(EraseMatch(m))
  {
    assert Told(EraseMatch(m)) == Told(m);
  }

  /** Any run with its observers taken out gives the same agreed hashes, the
      same latch, the same hashes told and the same alarms to the players. */
  lemma {:induction false} ObserversHaveNoPart(m: Match, steps: seq<Step>)
    requires Inv(m) && Legal(m, steps)
    ensures Legal(EraseMatch(m), PlayersOnly(steps))
    ensures EraseMatch(Play(m, steps)) == Play(EraseMatch(m), PlayersOnly(steps))
    decreases |steps|
  {
    if steps != [] {
      StepInv(m, steps[0]);
      EraseStep(m, steps[0]);
      ObserversHaveNoPart(Next(m, steps[0]), steps[1..]);
      if !JoinsAsObserver(steps[0]) {
        assert PlayersOnly(steps)[1..] == PlayersOnly(steps[1..]);
      } else {
        assert PlayersOnly(steps) == PlayersOnly(steps[1..]);
      }
    }
  }
}
