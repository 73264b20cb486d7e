/** What the hash comparison must do: a turn everyone owing has reported is agreed
    at once, and whoever disagrees is told. */
module HashLaws {
  import opened Prelude
  import opened Turns
  import opened HashAgreement

  /** Players owe a hash for every turn, but the AI host none for a full one. */
  predicate MustReport(c: Client, turn: nat) {
    !c.observer && !c.delayed && !(c.aiHost && (turn == 1 || turn % 20 == 0))
  }

  /** Somebody has reported the turn, and nobody still owes a report. */
  predicate Complete(clients: map<Peer, Client>, reports: map<Peer, Hash>, turn: nat) {
    reports != map[] && forall p | p in clients && MustReport(clients[p], turn) :: p in reports
  }

  /** No turn but these is left uncompared though everything it needs is there. */
  ghost predicate NoneLeftBut(s: TurnState, turns: set<nat>) {
    s.outOfSync == {} ==>
      forall t | t in s.pending && t !in turns :: !Complete(s.clients, s.pending[t], t)
  }

  ghost predicate NoneLeft(s: TurnState) { NoneLeftBut(s, {}) }

  lemma CompareLeavesNone(s: TurnState, turn: nat, turns: set<nat>)
    requires NoneLeftBut(s, turns + {turn})
    ensures NoneLeftBut(Compare(s, turn).0, turns)
  {
    assert forall p | p in s.clients :: s.clients[p].Owes(turn) <==> MustReport(s.clients[p], turn);
  }

  lemma {:induction false} CompareAllLeavesNone(s: TurnState, turns: seq<nat>)
    requires NoneLeftBut(s, set t | t in turns)
    ensures NoneLeft(CompareAll(s, turns).0)
    decreases |turns|
  {
    if turns != [] {
      var rest := set t | t in turns[1..];
      assert (set t | t in turns) == rest + {turns[0]};
      CompareLeavesNone(s, turns[0], rest);
      hide Compare, NoneLeftBut;
      CompareAllLeavesNone(Compare(s, turns[0]).0, turns[1..]);
    } else {
      assert (set t | t in turns) == {};
    }
  }

  /** Whatever was left before, nothing is after a recheck. */
  lemma RecheckLeavesNone(s: TurnState)
    ensures NoneLeft(Recheck(s).0)
  {
    if s.outOfSync == {} {
      var turns := Sorted(s.pending.Keys);
      assert NoneLeftBut(s, set t | t in turns);
      hide CompareAll;
      CompareAllLeavesNone(s, turns);
    }
  }

  lemma ReportLeavesNone(s: TurnState, peer: Peer, turn: nat, hash: Hash)
    requires NoneLeft(s) && StateHash(s, peer, turn, hash).Ok?
    ensures NoneLeft(StateHash(s, peer, turn, hash).value.0)
  {
    var c := s.clients[peer];
    var s1 := s.(clients := s.clients[peer := c.(simulated := turn)]);
    StillNone(s, s1);
    if c.Owes(turn) && s.outOfSync == {} {
      var s2 := s1.(pending := Filed(s1.pending, turn, peer, hash));
      assert NoneLeftBut(s2, {turn});
      CompareLeavesNone(s2, turn, {});
    }
    hide Compare, CompareObserver, ReferenceMayCome, Filed;
  }

  /** Nothing changes if the same clients owe the same. */
  lemma StillNone(s: TurnState, s': TurnState)
    requires NoneLeft(s) && s'.pending == s.pending && s'.outOfSync == s.outOfSync
    requires forall p | p in s.clients ::
      p in s'.clients && s'.clients[p].observer == s.clients[p].observer
      && s'.clients[p].delayed == s.clients[p].delayed && s'.clients[p].aiHost == s.clients[p].aiHost
    ensures NoneLeft(s')
  {
    if s.outOfSync == {} {
      forall t | t in s.pending ensures !Complete(s'.clients, s'.pending[t], t) {
        if s.pending[t] != map[] {
          var p :| p in s.clients && MustReport(s.clients[p], t) && p !in s.pending[t];
          assert MustReport(s'.clients[p], t);
        }
      }
    }
  }

  /** A player's hash in sequence is not lost: if nobody is out of sync it waits
      for the others, or it is what makes its turn agreed. */
  lemma ReportCounts(s: TurnState, peer: Peer, turn: nat, hash: Hash)
    requires StateInv(s) && peer in s.clients && turn == s.clients[peer].simulated + 1 && turn <= s.ready
    requires MustReport(s.clients[peer], turn) && s.outOfSync == {}
    ensures StateHash(s, peer, turn, hash).Ok?
    ensures var s', reports := StateHash(s, peer, turn, hash).value.0, Filed(s.pending, turn, peer, hash)[turn];
            && reports[peer] == hash
            && (forall p | turn in s.pending && p in s.pending[turn] && p != peer ::
                  p in reports && reports[p] == s.pending[turn][p])
            && if Complete(s.clients, reports, turn)
               then turn in s'.references && AgreedBy(s'.clients, reports, turn, s'.references[turn])
               else turn in s'.pending && s'.pending[turn] == reports
  {
    var s1 := s.(clients := s.clients[peer := s.clients[peer].(simulated := turn)],
                 pending := Filed(s.pending, turn, peer, hash));
    FiledInv(s, peer, turn, hash);
    ReportOpen(s, peer, turn);
    hide Settle, Reference, StateInv;
    assert forall p | p in s.clients :: s1.clients[p].Owes(turn) <==> MustReport(s.clients[p], turn);
    assert Comparable(s1, turn) <==> Complete(s.clients, s1.pending[turn], turn);
    assert StateHash(s, peer, turn, hash) == Ok(Compare(s1, turn));
    hide StateHash, Filed;
    CompareAgrees(s1, turn, turn);
  }

  // ---- when somebody leaves ----

  lemma {:induction false} FirstComplete(m: Match, turns: seq<nat>, turn: nat)
    requires Inv(m) && m.s.outOfSync == {} && Ascending(turns) && turn in turns
    requires turn in m.s.pending && Complete(m.s.clients, m.s.pending[turn], turn)
    requires forall t | t in turns && t < turn :: t in m.s.pending && !Complete(m.s.clients, m.s.pending[t], t)
    ensures var s' := CompareAll(m.s, turns).0;
            turn in s'.references && AgreedBy(m.s.clients, m.s.pending[turn], turn, s'.references[turn])
    decreases |turns|
  {
    var first := turns[0];
    assert forall t, p | p in m.s.clients :: m.s.clients[p].Owes(t) <==> MustReport(m.s.clients[p], t);
    if first < turn {
      assert !Comparable(m.s, first);
      assert forall i | 0 <= i < |turns| - 1 :: turns[1..][i] == turns[i + 1];
      hide Inv, Complete, AgreedBy;
      FirstComplete(m, turns[1..], turn);
    } else {
      assert first == turn by {
        var i :| 0 <= i < |turns| && turns[i] == turn;
      }
      assert turn !in m.s.references && Comparable(m.s, turn);
      CompareAgrees(m.s, turn, turn);
      CompareStep(m, turn);
      CompareAllStep(After(m, Compare(m.s, turn)), turns[1..]);
      hide Inv, AgreedBy, Complete, Comparable;
    }
  }

  /** A departure agrees the lowest turn that only it was holding up, with the
      hash of the lowest of those who are left. */
  lemma DepartureAgrees(m: Match, peer: Peer, turn: nat)
    requires Inv(m) && m.s.outOfSync - {peer} == {}
    requires turn in m.s.pending
    requires Complete(m.s.clients - {peer}, m.s.pending[turn] - {peer}, turn)
    requires forall t | t in m.s.pending && t < turn ::
      !Complete(m.s.clients - {peer}, m.s.pending[t] - {peer}, t)
    ensures var s' := Recheck(Forget(m.s, peer)).0;
            && turn in s'.references
            && AgreedBy(m.s.clients - {peer}, m.s.pending[turn] - {peer}, turn, s'.references[turn])
  {
    var m1 := m.(s := Forget(m.s, peer));
    ForgetInv(m.s, peer);
    assert Told(m1) == Told(m);
    hide Complete, AgreedBy, StateInv, ToldOnce, CompareAll;
    FirstComplete(m1, Sorted(m1.s.pending.Keys), turn);
  }

  // ---- who is told ----

  /** Agreeing a turn marks exactly those who disagree, players and waiting
      observers, and tells of the players once and of each observer once; no
      earlier turn is waited for any more, and every later one still is. */
  lemma AgreementTells(s: TurnState, turn: nat)
    requires StateInv(s) && s.outOfSync == {} && turn in s.pending
    requires Complete(s.clients, s.pending[turn], turn)
    ensures var (s', found) := Compare(s, turn);
            var waiting: map<Peer, Hash> := if turn in s.observerPending then s.observerPending[turn] else map[];
            && turn in s'.references && AgreedBy(s.clients, s.pending[turn], turn, s'.references[turn])
            && var reference := s'.references[turn];
               && s'.settled == s.settled + [(turn, reference)]
               && (forall t :: t in s'.pending <==> t in s.pending && t > turn)
               && (forall t :: t in s'.observerPending <==> t in s.observerPending && t > turn)
               && (forall p :: p in s'.outOfSync <==> p in s.pending[turn] && s.pending[turn][p] != reference)
               && (forall p :: p in s'.observersOutOfSync
                     <==> p in s.observersOutOfSync || (p in waiting && waiting[p] != reference))
               && (forall x | x in found :: x.turn == turn && x.reference == reference)
               && (forall x | x in found && x.recipient.None? :: x.mismatched == s'.outOfSync != {})
               && (s'.outOfSync != {} ==> Mismatch(turn, reference, s'.outOfSync, None) in found)
               && (forall p :: Mismatch(turn, reference, {p}, Some(p)) in found
                     <==> p in s'.observersOutOfSync && p !in s.observersOutOfSync)
               && (forall x | x in found && x.recipient.Some? :: x.mismatched == {x.recipient.value})
  {
    assert forall p | p in s.clients :: s.clients[p].Owes(turn) <==> MustReport(s.clients[p], turn);
    assert Comparable(s, turn) && turn !in s.references;
    CompareAgrees(s, turn, turn);
    assert Compare(s, turn) == Settle(s, turn, Reference(s, turn));
    hide StateInv, AgreedBy, Complete, Comparable, Settle, Compare, Reference;
    SettlingTells(s, turn, Reference(s, turn));
  }

  lemma SettlingTells(s: TurnState, turn: nat, reference: Hash)
    requires s.outOfSync == {} && turn in s.pending
    ensures var (s', found) := Settle(s, turn, reference);
            var waiting: map<Peer, Hash> := if turn in s.observerPending then s.observerPending[turn] else map[];
            && turn in s'.references && s'.references[turn] == reference
            && s'.settled == s.settled + [(turn, reference)]
            && (forall t :: t in s'.pending <==> t in s.pending && t > turn)
            && (forall t :: t in s'.observerPending <==> t in s.observerPending && t > turn)
            && (forall p :: p in s'.outOfSync <==> p in s.pending[turn] && s.pending[turn][p] != reference)
            && (forall p :: p in s'.observersOutOfSync
                  <==> p in s.observersOutOfSync || (p in waiting && waiting[p] != reference))
            && (forall x | x in found :: x.turn == turn && x.reference == reference)
            && (forall x | x in found && x.recipient.None? :: x.mismatched == s'.outOfSync != {})
            && (s'.outOfSync != {} ==> Mismatch(turn, reference, s'.outOfSync, None) in found)
            && (forall p :: Mismatch(turn, reference, {p}, Some(p)) in found
                  <==> p in s'.observersOutOfSync && p !in s.observersOutOfSync)
            && (forall x | x in found && x.recipient.Some? :: x.mismatched == {x.recipient.value})
  {
  }

  /** An observer is judged against a hash already agreed, and waits for one that
      may still come; it is told once, and never affects anyone else. */
  lemma ObserverJudged(s: TurnState, peer: Peer, turn: nat, hash: Hash)
    requires peer in s.clients && (s.clients[peer].observer || s.clients[peer].delayed)
    requires turn == s.clients[peer].simulated + 1
    ensures StateHash(s, peer, turn, hash).Ok?
    ensures var (s', found) := StateHash(s, peer, turn, hash).value;
            var wrong := turn in s.references && s.references[turn] != hash && peer !in s.observersOutOfSync;
            && s' == s.(clients := s'.clients, observersOutOfSync := s'.observersOutOfSync,
                        observerPending := s'.observerPending)
            && s'.clients == s.clients[peer := s.clients[peer].(simulated := turn)]
            && s'.observersOutOfSync == (if wrong then s.observersOutOfSync + {peer} else s.observersOutOfSync)
            && found == (if wrong then {Mismatch(turn, s.references[turn], {peer}, Some(peer))} else {})
            && (turn !in s.references && peer !in s.observersOutOfSync && s.outOfSync == {} && turn > s.lastCompared
                && (exists p | p in s.clients :: !s.clients[p].observer && !s.clients[p].delayed) ==>
                  turn in s'.observerPending && peer in s'.observerPending[turn]
                  && s'.observerPending[turn][peer] == hash)
  {
    var s1 := s.(clients := s.clients[peer := s.clients[peer].(simulated := turn)]);
    if p :| p in s.clients && !s.clients[p].observer && !s.clients[p].delayed {
      assert p in s1.clients && s1.clients[p].IsPlayer();
    }
  }

  // ---- what is kept of observers ----

  /** Only observers still there are marked or waiting, and they wait only for
      turns past every one agreed. */
  ghost predicate ObserversKept(s: TurnState) {
    && (forall p | p in s.observersOutOfSync :: p in s.clients && !s.clients[p].IsPlayer())
    && (forall t | t in s.observerPending :: t > s.lastCompared)
    && (forall t | t in s.references :: t <= s.lastCompared)
    && (forall t, p | t in s.observerPending && p in s.observerPending[t] ::
          p in s.clients && !s.clients[p].IsPlayer())
  }

  lemma CompareObservers(s: TurnState, turn: nat)
    requires ObserversKept(s)
    ensures ObserversKept(Compare(s, turn).0) && Compare(s, turn).0.clients == s.clients
  {
    if Comparable(s, turn) {
      hide Comparable, Reference;
      SettleObservers(s, turn, Reference(s, turn));
    }
  }

  lemma SettleObservers(s: TurnState, turn: nat, reference: Hash)
    requires ObserversKept(s) && turn in s.pending
    ensures ObserversKept(Settle(s, turn, reference).0) && Settle(s, turn, reference).0.clients == s.clients
  {
    hide LateMismatches;
  }

  lemma {:induction false} CompareAllObservers(s: TurnState, turns: seq<nat>)
    requires ObserversKept(s)
    ensures ObserversKept(CompareAll(s, turns).0)
    decreases |turns|
  {
    if turns != [] {
      CompareObservers(s, turns[0]);
      hide ObserversKept, Compare;
      CompareAllObservers(Compare(s, turns[0]).0, turns[1..]);
    }
  }

  lemma ReportObservers(s: TurnState, peer: Peer, turn: nat, hash: Hash)
    requires ObserversKept(s) && StateHash(s, peer, turn, hash).Ok?
    ensures ObserversKept(StateHash(s, peer, turn, hash).value.0)
  {
    hide Compare;
    var s1 := s.(clients := s.clients[peer := s.clients[peer].(simulated := turn)]);
    assert ObserversKept(s1);
    if s.clients[peer].IsPlayer() {
      CompareObservers(s1.(pending := Filed(s1.pending, turn, peer, hash)), turn);
      hide ObserversKept, Filed;
    }
  }

  lemma StepObservers(m: Match, step: Step)
    requires Enabled(m, step) && ObserversKept(m.s)
    ensures ObserversKept(Next(m, step).s)
  {
    match step {
      case Report(peer, turn, hash) =>
        hide StateHash, ObserversKept;
        if turn <= m.s.ready && StateHash(m.s, peer, turn, hash).Ok? {
          ReportObservers(m.s, peer, turn, hash);
        }
      case RecheckAll =>
        hide CompareAll, ObserversKept;
        CompareAllObservers(m.s, Sorted(m.s.pending.Keys));
      case _ => hide StateHash, Recheck;
    }
  }

  /** In any run, begun or resumed, nothing is kept of an observer that has left,
      and none waits for a turn that will not be agreed any more. */
  lemma {:induction false} ObserversLeaveNothing(m: Match, steps: seq<Step>)
    requires Legal(m, steps) && ObserversKept(m.s)
    ensures ObserversKept(Play(m, steps).s)
    decreases |steps|
  {
    if steps != [] {
      StepObservers(m, steps[0]);
      hide ObserversKept, Next, Enabled;
      ObserversLeaveNothing(Next(m, steps[0]), steps[1..]);
    }
  }

  lemma OpensWithoutObservers(ready: nat, references: map<nat, Hash>)
    ensures ObserversKept(Start.s) && ObserversKept(Restart(ready, references).s)
  {
  }
}
