/** The turn manager: which clients hold a turn back, and which state hash the
    players agree on for it. Everything the manager keeps in a hash map is a map
    or a set here, so no contract can depend on an iteration order. */
module Turns {
  import opened Prelude

  // One below the four-turn command delay, so turn 4 is the first release.
  const INITIAL_READY_TURN: nat := 3

  const FULL_HASH_EVERY: nat := 20

  type Hash = Bytes

  predicate NeedsFullHash(turn: nat) {
    turn == 1 || turn % FULL_HASH_EVERY == 0
  }

  datatype Client = Client(
    id: nat, sealed: nat, simulated: nat, observer: bool, delayed: bool, aiHost: bool)
  {
    predicate IsPlayer() { !observer && !delayed }

    // Only the AI host's quick hashes can ever agree with anyone's.
    predicate Exempt(turn: nat) { aiHost && NeedsFullHash(turn) }

    predicate Owes(turn: nat) { IsPlayer() && !Exempt(turn) }
  }

  datatype Fault =
    | NoSession
    | SealOutOfSequence(got: nat, want: nat)
    | HashOutOfSequence(got: nat, want: nat)

  datatype Mismatch = Mismatch(
    turn: nat, reference: Hash, mismatched: set<Peer>, recipient: Option<Peer>)

  datatype TurnState = TurnState(
    ready: nat,
    clients: map<Peer, Client>,
    pending: map<nat, map<Peer, Hash>>,
    outOfSync: set<Peer>,
    lastCompared: nat,
    references: map<nat, Hash>,
    observerPending: map<nat, map<Peer, Hash>>,
    observersOutOfSync: set<Peer>,
    settled: seq<(nat, Hash)>)

  const Fresh: TurnState :=
    TurnState(INITIAL_READY_TURN, map[], map[], {}, 0, map[], map[], {}, [])

  function Resumed(ready: nat, references: map<nat, Hash>): TurnState {
    Fresh.(ready := ready, references := references, lastCompared := Greatest(references.Keys))
  }

  // ---- who is asked first ----

  /** Sort key of a reporter: stock clients before the AI host, then by id. */
  function Key(clients: map<Peer, Client>, p: Peer): (bool, nat) {
    if p in clients then (clients[p].aiHost, clients[p].id) else (true, 65535)
  }

  predicate KeyLe(a: (bool, nat), b: (bool, nat)) {
    (!a.0 && b.0) || (a.0 == b.0 && a.1 <= b.1)
  }

  ghost predicate IsLowest(reported: map<Peer, Hash>, clients: map<Peer, Client>, p: Peer) {
    p in reported && forall q | q in reported :: KeyLe(Key(clients, p), Key(clients, q))
  }

  lemma {:induction false} LowestExists(reported: map<Peer, Hash>, clients: map<Peer, Client>)
    requires reported != map[]
    ensures exists p :: IsLowest(reported, clients, p)
    decreases |reported|
  {
    var x :| x in reported;
    var rest := reported - {x};
    assert reported.Keys == rest.Keys + {x};
    if rest == map[] {
      assert IsLowest(reported, clients, x);
    } else {
      assert |reported.Keys| == |rest.Keys| + 1;
      LowestExists(rest, clients);
      var m :| IsLowest(rest, clients, m);
      var least := if KeyLe(Key(clients, x), Key(clients, m)) then x else m;
      forall q | q in reported ensures KeyLe(Key(clients, least), Key(clients, q)) {
        assert q == x || q in rest;
      }
      assert IsLowest(reported, clients, least);
    }
  }

  ghost function Lowest(reported: map<Peer, Hash>, clients: map<Peer, Client>): (p: Peer)
    requires reported != map[]
    ensures IsLowest(reported, clients, p)
  {
    LowestExists(reported, clients);
    var p :| IsLowest(reported, clients, p);
    p
  }

  ghost predicate DistinctIds(clients: map<Peer, Client>) {
    forall p, q | p in clients && q in clients && p != q :: clients[p].id != clients[q].id
  }

  ghost predicate ReportersRegistered(s: TurnState) {
    forall t, p | t in s.pending && p in s.pending[t] :: p in s.clients
  }

  /** The manager's own invariant: client ids are issued once, and only a
      registered client has a report waiting. */
  ghost predicate WellFormed(s: TurnState) {
    DistinctIds(s.clients) && ReportersRegistered(s)
  }

  /** Whatever order the reports are walked in, one reporter is the lowest. */
  lemma LowestUnique(reported: map<Peer, Hash>, clients: map<Peer, Client>, p: Peer)
    requires DistinctIds(clients) && reported.Keys <= clients.Keys
    requires IsLowest(reported, clients, p)
    ensures p == Lowest(reported, clients)
  {
    var q := Lowest(reported, clients);
    assert KeyLe(Key(clients, p), Key(clients, q)) && KeyLe(Key(clients, q), Key(clients, p));
  }

  // ---- registration ----

  function Register(s: TurnState, peer: Peer, id: nat, sealed: nat, simulated: nat,
                    observer: bool, delayed: bool): TurnState
  {
    s.(clients := s.clients[peer := Client(id, sealed, simulated, observer, delayed, false)])
  }

  function MarkAiHost(s: TurnState, peer: Peer): TurnState {
    if peer in s.clients
    then s.(clients := s.clients[peer := s.clients[peer].(aiHost := true)])
    else s
  }

  function Without(reports: map<nat, map<Peer, Hash>>, peer: Peer): map<nat, map<Peer, Hash>> {
    map t | t in reports :: reports[t] - {peer}
  }

  function Forget(s: TurnState, peer: Peer): TurnState {
    s.(clients := s.clients - {peer},
       outOfSync := s.outOfSync - {peer},
       observersOutOfSync := s.observersOutOfSync - {peer},
       pending := Without(s.pending, peer),
       observerPending := Without(s.observerPending, peer))
  }

  // ---- sealing and release ----

  function SealTurn(s: TurnState, peer: Peer, turn: nat): Result<TurnState, Fault> {
    if peer !in s.clients then Err(NoSession)
    else if turn != s.clients[peer].sealed + 1 then
      Err(SealOutOfSequence(turn, s.clients[peer].sealed + 1))
    else Ok(s.(clients := s.clients[peer := s.clients[peer].(sealed := turn)]))
  }

  predicate Blocks(ready: nat, c: Client, lag: Option<nat>) {
    if c.delayed then false
    else if !c.observer then true
    else lag.Some? && SaturatingSub(ready, c.sealed) >= lag.value
  }

  predicate HumansBlock(s: TurnState, lag: Option<nat>) {
    exists p | p in s.clients :: !s.clients[p].aiHost && Blocks(s.ready, s.clients[p], lag)
  }

  predicate AiAlone(s: TurnState, lag: Option<nat>, clocked: bool) {
    && !clocked
    && !HumansBlock(s, lag)
    && exists p | p in s.clients :: s.clients[p].aiHost && Blocks(s.ready, s.clients[p], lag)
  }

  predicate InWay(s: TurnState, lag: Option<nat>, clocked: bool, p: Peer)
    requires p in s.clients
  {
    AiAlone(s, lag, clocked) || Blocks(s.ready, s.clients[p], lag)
  }

  predicate EveryoneAhead(s: TurnState, lag: Option<nat>, clocked: bool) {
    && !(AiAlone(s, lag, clocked) && forall p | p in s.clients :: s.clients[p].aiHost)
    && (exists p | p in s.clients :: InWay(s, lag, clocked, p))
    && (forall p | p in s.clients :: InWay(s, lag, clocked, p) ==> s.clients[p].sealed > s.ready)
  }

  function Seals(clients: map<Peer, Client>): set<nat> {
    set p | p in clients :: clients[p].sealed
  }

  function HighestSeal(s: TurnState): nat {
    Greatest(Seals(s.clients))
  }

  lemma SealBelowHighest(s: TurnState, p: Peer)
    requires p in s.clients
    ensures s.clients[p].sealed <= HighestSeal(s)
  {
    assert s.clients[p].sealed in Seals(s.clients);
  }

  lemma AheadHasSeal(s: TurnState, lag: Option<nat>, clocked: bool)
    requires EveryoneAhead(s, lag, clocked)
    ensures s.ready < HighestSeal(s)
  {
    var p :| p in s.clients && InWay(s, lag, clocked, p);
    SealBelowHighest(s, p);
  }

  function Less(pace: Option<nat>, n: nat): Option<nat> {
    if pace.Some? then Some(SaturatingSub(pace.value, n)) else None
  }

  /** How many turns one pass releases. The set of blockers is worked out
      again before every turn, because an observer can fall behind on the way. */
  function ReleaseCount(s: TurnState, lag: Option<nat>, pace: Option<nat>, clocked: bool): nat
    decreases SaturatingSub(HighestSeal(s), s.ready)
  {
    if (pace.Some? && pace.value == 0) || !EveryoneAhead(s, lag, clocked) then 0
    else
      AheadHasSeal(s, lag, clocked);
      1 + ReleaseCount(s.(ready := s.ready + 1), lag, Less(pace, 1), clocked)
  }

  lemma ReleaseStep(s: TurnState, lag: Option<nat>, pace: Option<nat>, clocked: bool)
    requires EveryoneAhead(s, lag, clocked) && pace != Some(0)
    ensures s.ready < HighestSeal(s)
    ensures ReleaseCount(s, lag, pace, clocked)
         == 1 + ReleaseCount(s.(ready := s.ready + 1), lag, Less(pace, 1), clocked)
  {
    AheadHasSeal(s, lag, clocked);
  }

  function Release(s: TurnState, lag: Option<nat>, pace: Option<nat>): TurnState {
    s.(ready := s.ready + ReleaseCount(s, lag, pace, pace.Some?))
  }

  /** The turns from, exclusive, to, inclusive. */
  function Run(from: nat, to: nat): (ts: seq<nat>)
    requires from <= to
    ensures |ts| == to - from
    ensures forall i | 0 <= i < |ts| :: ts[i] == from + 1 + i
  {
    seq(to - from, i requires 0 <= i => from + 1 + i)
  }

  // ---- hash comparison ----

  function Later(reports: map<nat, map<Peer, Hash>>, turn: nat): map<nat, map<Peer, Hash>> {
    map t | t in reports && t > turn :: reports[t]
  }

  function Filed(reports: map<nat, map<Peer, Hash>>, turn: nat, peer: Peer, hash: Hash)
    : map<nat, map<Peer, Hash>>
  {
    var filed: map<Peer, Hash> := if turn in reports then reports[turn] else map[];
    reports[turn := filed[peer := hash]]
  }

  /** Everyone who owes a hash for the turn has reported it, and somebody did. */
  predicate Comparable(s: TurnState, turn: nat) {
    && s.outOfSync == {}
    && turn in s.pending
    && (forall p | p in s.clients :: s.clients[p].Owes(turn) ==> p in s.pending[turn])
    && s.pending[turn] != map[]
  }

  ghost function Reference(s: TurnState, turn: nat): Hash
    requires turn in s.pending && s.pending[turn] != map[]
  {
    s.pending[turn][Lowest(s.pending[turn], s.clients)]
  }

  function Disagreeing(reported: map<Peer, Hash>, reference: Hash): set<Peer> {
    set p | p in reported && reported[p] != reference
  }

  function LateMismatches(turn: nat, reference: Hash, late: set<Peer>): set<Mismatch> {
    set p | p in late :: Mismatch(turn, reference, {p}, Some(p))
  }

  lemma LateAdd(turn: nat, reference: Hash, late: set<Peer>, p: Peer)
    ensures LateMismatches(turn, reference, late + {p})
         == LateMismatches(turn, reference, late) + {Mismatch(turn, reference, {p}, Some(p))}
  {
  }

  lemma OneJudged(wrong: set<Peer>, todo: set<Peer>, judged: set<Peer>, p: Peer)
    requires p in todo
    ensures wrong - (todo - {p}) - judged
         == wrong - todo - judged + (if p in wrong && p !in judged then {p} else {})
  {
  }

  function Settle(s: TurnState, turn: nat, reference: Hash): (TurnState, set<Mismatch>)
    requires turn in s.pending
  {
    var bad := Disagreeing(s.pending[turn], reference);
    var waiting := if turn in s.observerPending then s.observerPending[turn] else map[];
    var late := Disagreeing(waiting, reference) - s.observersOutOfSync;
    (s.(pending := Later(s.pending, turn),
        lastCompared := Max(s.lastCompared, turn),
        references := s.references[turn := reference],
        settled := s.settled + [(turn, reference)],
        outOfSync := s.outOfSync + bad,
        observersOutOfSync := s.observersOutOfSync + late,
        observerPending := Later(s.observerPending, turn)),
     (if bad == {} then {} else {Mismatch(turn, reference, bad, None)})
     + LateMismatches(turn, reference, late))
  }

  lemma SettleWellFormed(s: TurnState, turn: nat, reference: Hash)
    requires WellFormed(s) && turn in s.pending
    ensures WellFormed(Settle(s, turn, reference).0)
  {
  }

  ghost function Compare(s: TurnState, turn: nat): (TurnState, set<Mismatch>) {
    if !Comparable(s, turn) then (s, {}) else Settle(s, turn, Reference(s, turn))
  }

  function CompareObserver(s: TurnState, peer: Peer, turn: nat, hash: Hash)
    : (TurnState, Option<Mismatch>)
  {
    if peer in s.observersOutOfSync || turn !in s.references || s.references[turn] == hash
    then (s, None)
    else (s.(observersOutOfSync := s.observersOutOfSync + {peer}),
          Some(Mismatch(turn, s.references[turn], {peer}, Some(peer))))
  }

  function AsSet(found: Option<Mismatch>): set<Mismatch> {
    if found.Some? then {found.value} else {}
  }

  predicate ReferenceMayCome(s: TurnState, turn: nat) {
    && s.outOfSync == {}
    && turn > s.lastCompared
    && exists p | p in s.clients :: s.clients[p].IsPlayer()
  }

  ghost function StateHash(s: TurnState, peer: Peer, turn: nat, hash: Hash)
    : Result<(TurnState, set<Mismatch>), Fault>
  {
    if peer !in s.clients then Err(NoSession)
    else
      var c := s.clients[peer];
      if turn != c.simulated + 1 then Err(HashOutOfSequence(turn, c.simulated + 1))
      else
        var s1 := s.(clients := s.clients[peer := c.(simulated := turn)]);
        if !c.IsPlayer() then
          if turn in s.references then
            var (s2, found) := CompareObserver(s1, peer, turn, hash);
            Ok((s2, AsSet(found)))
          else if peer !in s.observersOutOfSync && ReferenceMayCome(s1, turn) then
            Ok((s1.(observerPending := Filed(s1.observerPending, turn, peer, hash)), {}))
          else Ok((s1, {}))
        else if c.Exempt(turn) || s.outOfSync != {} then Ok((s1, {}))
        else Ok(Compare(s1.(pending := Filed(s1.pending, turn, peer, hash)), turn))
  }

  ghost function CompareAll(s: TurnState, turns: seq<nat>): (TurnState, set<Mismatch>)
    decreases |turns|
  {
    if turns == [] then (s, {})
    else
      var (s1, found) := Compare(s, turns[0]);
      var (s2, rest) := CompareAll(s1, turns[1..]);
      (s2, found + rest)
  }

  ghost function Recheck(s: TurnState): (TurnState, set<Mismatch>) {
    if s.outOfSync != {} then (s, {}) else CompareAll(s, Sorted(s.pending.Keys))
  }

  // ---- the manager itself ----

  class TurnManager {
    var readyTurn: nat
    var clients: map<Peer, Client>
    var pending: map<nat, map<Peer, Hash>>
    var outOfSync: set<Peer>
    var lastCompared: nat
    var references: map<nat, Hash>
    var observerPending: map<nat, map<Peer, Hash>>
    var observersOutOfSync: set<Peer>
    var settled: seq<(nat, Hash)>

    function State(): TurnState
      reads this
    {
      TurnState(readyTurn, clients, pending, outOfSync, lastCompared, references,
                observerPending, observersOutOfSync, settled)
    }

    ghost predicate Valid()
      reads this
    {
      WellFormed(State())
    }

    constructor ()
      ensures Valid() && State() == Fresh
    {
      readyTurn, clients, pending, outOfSync := INITIAL_READY_TURN, map[], map[], {};
      lastCompared, references := 0, map[];
      observerPending, observersOutOfSync, settled := map[], {}, [];
    }

    constructor Resume(ready: nat, agreed: map<nat, Hash>)
      ensures Valid() && State() == Resumed(ready, agreed)
    {
      readyTurn, clients, pending, outOfSync := ready, map[], map[], {};
      references := agreed;
      lastCompared := Greatest(agreed.Keys);
      observerPending, observersOutOfSync, settled := map[], {}, [];
    }

    method TakeSettled() returns (taken: seq<(nat, Hash)>)
      modifies this`settled
      ensures taken == old(settled) && settled == []
    {
      taken := settled;
      settled := [];
    }

    method AddClient(peer: Peer, id: nat, sealed: nat, simulated: nat,
                     observer: bool, delayed: bool)
      requires Valid()
      requires forall q | q in clients && q != peer :: clients[q].id != id
      modifies this`clients
      ensures Valid()
      ensures State() == Register(old(State()), peer, id, sealed, simulated, observer, delayed)
    {
      clients := clients[peer := Client(id, sealed, simulated, observer, delayed, false)];
    }

    method SetAiHost(peer: Peer)
      requires Valid()
      modifies this`clients
      ensures Valid() && State() == MarkAiHost(old(State()), peer)
    {
      if peer in clients {
        clients := clients[peer := clients[peer].(aiHost := true)];
      }
    }

    method ForgetPeer(peer: Peer)
      requires Valid()
      modifies this
      ensures Valid() && State() == Forget(old(State()), peer)
    {
      clients := clients - {peer};
      outOfSync := outOfSync - {peer};
      observersOutOfSync := observersOutOfSync - {peer};
      pending := map t | t in pending :: pending[t] - {peer};
      observerPending := map t | t in observerPending :: observerPending[t] - {peer};
    }

    method OnTurnSealed(peer: Peer, turn: nat) returns (r: Result<(), Fault>)
      requires Valid()
      modifies this`clients
      ensures Valid()
      ensures match SealTurn(old(State()), peer, turn)
              case Ok(s) => r == Ok(()) && State() == s
              case Err(e) => r == Err(e) && State() == old(State())
    {
      if peer !in clients {
        return Err(NoSession);
      }
      var want := clients[peer].sealed + 1;
      if turn != want {
        return Err(SealOutOfSequence(turn, want));
      }
      clients := clients[peer := clients[peer].(sealed := turn)];
      return Ok(());
    }

    method ReleasePaced(lag: Option<nat>, pace: Option<nat>) returns (released: seq<nat>)
      requires Valid()
      modifies this`readyTurn
      ensures Valid() && State() == Release(old(State()), lag, pace)
      ensures released == Run(old(readyTurn), readyTurn)
    {
      hide EveryoneAhead, Greatest, Seals;
      released := [];
      ghost var s0 := State();
      while (pace.None? || |released| < pace.value) && EveryoneAhead(State(), lag, pace.Some?)
        invariant |released| == readyTurn - s0.ready
        invariant forall i | 0 <= i < |released| :: released[i] == s0.ready + 1 + i
        invariant State() == s0.(ready := readyTurn)
        invariant pace.Some? ==> |released| <= pace.value
        invariant ReleaseCount(s0, lag, pace, pace.Some?)
               == |released| + ReleaseCount(State(), lag, Less(pace, |released|), pace.Some?)
        decreases SaturatingSub(HighestSeal(State()), readyTurn)
      {
        ghost var before, left := State(), Less(pace, |released|);
        ReleaseStep(before, lag, left, pace.Some?);
        readyTurn := readyTurn + 1;
        released := released + [readyTurn];
        assert State() == before.(ready := before.ready + 1);
        assert Less(left, 1) == Less(pace, |released|);
      }
    }

    /** One pass over the reports, in whatever order the map gives them. */
    method LowestReporter(reported: map<Peer, Hash>) returns (low: Peer)
      requires reported != map[]
      ensures IsLowest(reported, clients, low)
    {
      low :| low in reported;
      var todo := reported.Keys - {low};
      while todo != {}
        invariant low in reported && todo <= reported.Keys
        invariant forall q | q in reported.Keys - todo :: KeyLe(Key(clients, low), Key(clients, q))
        decreases |todo|
      {
        var q :| q in todo;
        if !KeyLe(Key(clients, low), Key(clients, q)) {
          low := q;
        }
        todo := todo - {q};
      }
      assert reported.Keys - todo == reported.Keys;
    }

    method ComparePending(turn: nat) returns (found: set<Mismatch>)
      requires Valid()
      modifies this
      ensures Valid() && (State(), found) == Compare(old(State()), turn)
      ensures clients == old(clients)
    {
      ghost var s0 := State();
      found := {};
      if outOfSync != {} || turn !in pending {
        return;
      }
      var reported := pending[turn];
      if exists p | p in clients :: clients[p].Owes(turn) && p !in reported {
        return;
      }
      if reported == map[] {
        return;
      }
      var low := LowestReporter(reported);
      LowestUnique(reported, clients, low);
      var reference := reported[low];
      SettleWellFormed(s0, turn, reference);
      hide WellFormed;
      found := SettleTurn(turn, reference);
    }

    method SettleTurn(turn: nat, reference: Hash) returns (found: set<Mismatch>)
      requires turn in pending
      modifies this
      ensures (State(), found) == Settle(old(State()), turn, reference)
    {
      hide Later, Disagreeing, LateMismatches;
      var mismatched := Disagreeing(pending[turn], reference);
      pending := Later(pending, turn);
      lastCompared := Max(lastCompared, turn);
      references := references[turn := reference];
      settled := settled + [(turn, reference)];
      outOfSync := outOfSync + mismatched;
      found := if mismatched == {} then {} else {Mismatch(turn, reference, mismatched, None)};
      var waiting: map<Peer, Hash> :=
        if turn in observerPending then observerPending[turn] else map[];
      var late := JudgeWaiting(turn, waiting);
      found := found + late;
      observerPending := Later(observerPending, turn);
    }

    /** Judges the observers that were waiting on the turn's reference. */
    method JudgeWaiting(turn: nat, waiting: map<Peer, Hash>) returns (found: set<Mismatch>)
      requires turn in references
      modifies this`observersOutOfSync
      ensures observersOutOfSync
           == old(observersOutOfSync) + (Disagreeing(waiting, references[turn]) - old(observersOutOfSync))
      ensures found == LateMismatches(turn, references[turn],
                         Disagreeing(waiting, references[turn]) - old(observersOutOfSync))
    {
      found := {};
      var todo := waiting.Keys;
      ghost var judged, late := observersOutOfSync, {};
      ghost var wrong := Disagreeing(waiting, references[turn]);
      assert LateMismatches(turn, references[turn], {}) == {};
      hide LateMismatches, State, CompareObserver, KeyLe, Key;
      while todo != {}
        invariant todo <= waiting.Keys
        invariant late == wrong - todo - judged
        invariant forall q :: q in observersOutOfSync <==> q in judged || q in late
        invariant found == LateMismatches(turn, references[turn], late)
        decreases |todo|
      {
        var p :| p in todo;
        var more := JudgeObserver(p, turn, waiting[p]);
        OneJudged(wrong, todo, judged, p);
        if more.Some? {
          LateAdd(turn, references[turn], late, p);
          late := late + {p};
          found := found + {more.value};
        }
        todo := todo - {p};
      }
      assert late == wrong - judged;
      assert observersOutOfSync == judged + late;
    }

    method JudgeObserver(peer: Peer, turn: nat, hash: Hash) returns (found: Option<Mismatch>)
      modifies this`observersOutOfSync
      ensures (State(), found) == CompareObserver(old(State()), peer, turn, hash)
      ensures found == if peer in old(observersOutOfSync) || turn !in references
                          || references[turn] == hash
                       then None else Some(Mismatch(turn, references[turn], {peer}, Some(peer)))
      ensures observersOutOfSync == old(observersOutOfSync) + (if found.Some? then {peer} else {})
    {
      if peer in observersOutOfSync || turn !in references || references[turn] == hash {
        return None;
      }
      observersOutOfSync := observersOutOfSync + {peer};
      return Some(Mismatch(turn, references[turn], {peer}, Some(peer)));
    }

    method OnStateHash(peer: Peer, turn: nat, hash: Hash)
      returns (r: Result<set<Mismatch>, Fault>)
      requires Valid()
      modifies this
      ensures Valid()
      ensures match StateHash(old(State()), peer, turn, hash)
              case Ok((s, found)) => r == Ok(found) && State() == s
              case Err(e) => r == Err(e) && State() == old(State())
    {
      if peer !in clients {
        return Err(NoSession);
      }
      var client := clients[peer];
      var want := client.simulated + 1;
      if turn != want {
        return Err(HashOutOfSequence(turn, want));
      }
      clients := clients[peer := client.(simulated := turn)];
      if client.observer || client.delayed {
        if turn in references {
          var found := JudgeObserver(peer, turn, hash);
          return Ok(AsSet(found));
        }
        if peer !in observersOutOfSync && outOfSync == {} && turn > lastCompared
           && exists p | p in clients :: clients[p].IsPlayer() {
          observerPending := Filed(observerPending, turn, peer, hash);
        }
        return Ok({});
      }
      if client.aiHost && NeedsFullHash(turn) {
        return Ok({});
      }
      if outOfSync != {} {
        return Ok({});
      }
      pending := Filed(pending, turn, peer, hash);
      var found := ComparePending(turn);
      return Ok(found);
    }

    method RecheckPending() returns (found: set<Mismatch>)
      requires Valid()
      modifies this
      ensures Valid() && (State(), found) == Recheck(old(State()))
    {
      found := {};
      if outOfSync != {} {
        return;
      }
      ghost var s0 := State();
      var turns := Sorted(pending.Keys);
      var i := 0;
      assert turns[i..] == turns;
      while i < |turns|
        invariant 0 <= i <= |turns| && Valid()
        invariant CompareAll(s0, turns).0 == CompareAll(State(), turns[i..]).0
        invariant CompareAll(s0, turns).1 == found + CompareAll(State(), turns[i..]).1
      {
        var more := ComparePending(turns[i]);
        assert turns[i..][1..] == turns[i + 1..];
        found := found + more;
        i := i + 1;
      }
      assert turns[i..] == [];
    }
  }
}
