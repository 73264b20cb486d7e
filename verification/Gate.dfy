/** The gate in front of the phase handlers: rejoins and wrong passwords are
    charged to the address and to the lobby name. */
module Gates {
  import opened Prelude
  import opened Ledgers
  import Runs = LedgerRuns

  datatype Caller = Caller(
    addr: Identity, loopback: bool, lobbyName: Option<Identity>, admitted: bool)

  datatype Decision = Pass | RefusedGuessing | RefusedJoinRate

  datatype GateState = GateState(
    joinByAddr: LedgerState, joinByName: LedgerState,
    failByAddr: LedgerState, failByName: LedgerState)

  function Ticked(g: GateState, now: int): GateState {
    GateState(Pruned(g.joinByAddr, now), Pruned(g.joinByName, now),
              Pruned(g.failByAddr, now), Pruned(g.failByName, now))
  }

  // Loopback is never asked nor charged, and neither is a missing name.
  function AskedUnless(l: LedgerState, key: Option<Identity>, now: int): (LedgerState, bool) {
    if key.None? then (l, true) else Asked(l, key.value, now)
  }

  function SpentUnless(l: LedgerState, key: Option<Identity>, now: int): LedgerState {
    if key.None? then l else Spent(l, key.value, now)
  }

  function AddrKey(c: Caller): Option<Identity> { if c.loopback then None else Some(c.addr) }

  /** An authentication attempt, before any handler sees it. */
  function Checked(g: GateState, c: Caller, rejoinable: bool, now: int): (GateState, Decision) {
    if c.admitted then (g, Pass)
    else
      var (failByAddr, addrClear) := AskedUnless(g.failByAddr, AddrKey(c), now);
      var (failByName, nameClear) := AskedUnless(g.failByName, c.lobbyName, now);
      var g1 := g.(failByAddr := failByAddr, failByName := failByName);
      if !addrClear || !nameClear then (g1, RefusedGuessing)
      else if !rejoinable then (g1, Pass)
      else
        var (joinByAddr, addrOk) := AskedUnless(g.joinByAddr, AddrKey(c), now);
        var (joinByName, nameOk) := AskedUnless(g.joinByName, c.lobbyName, now);
        (g1.(joinByAddr := joinByAddr, joinByName := joinByName),
         if addrOk && nameOk then Pass else RefusedJoinRate)
  }

  function Rejoined(g: GateState, c: Caller, now: int): GateState {
    g.(joinByAddr := SpentUnless(g.joinByAddr, AddrKey(c), now),
       joinByName := SpentUnless(g.joinByName, c.lobbyName, now))
  }

  function PasswordRejected(g: GateState, c: Caller, now: int): GateState {
    g.(failByAddr := SpentUnless(g.failByAddr, AddrKey(c), now),
       failByName := SpentUnless(g.failByName, c.lobbyName, now))
  }

  class Gate {
    const joinByAddr: Ledger
    const joinByName: Ledger
    const failByAddr: Ledger
    const failByName: Ledger

    ghost function State(): GateState
      reads joinByAddr, joinByName, failByAddr, failByName
    {
      GateState(joinByAddr.State(), joinByName.State(), failByAddr.State(), failByName.State())
    }

    ghost predicate Valid() {
      |{joinByAddr, joinByName, failByAddr, failByName}| == 4
    }

    constructor (joinBurst: nat, joinInterval: Option<int>, failAddrBurst: nat, failBurst: nat,
                 failInterval: Option<int>)
      ensures Valid()
      ensures State() == GateState(NewLedger(joinBurst, joinInterval), NewLedger(joinBurst, joinInterval),
                                   NewLedger(failAddrBurst, failInterval), NewLedger(failBurst, failInterval))
    {
      joinByAddr := new Ledger(joinBurst, joinInterval);
      joinByName := new Ledger(joinBurst, joinInterval);
      failByAddr := new Ledger(failAddrBurst, failInterval);
      failByName := new Ledger(failBurst, failInterval);
    }

    method Tick(now: int)
      requires Valid()
      modifies joinByAddr, joinByName, failByAddr, failByName
      ensures State() == Ticked(old(State()), now)
    {
      joinByAddr.Prune(now);
      joinByName.Prune(now);
      failByAddr.Prune(now);
      failByName.Prune(now);
    }

    method Check(c: Caller, rejoinable: bool, now: int) returns (d: Decision)
      requires Valid()
      modifies joinByAddr, joinByName, failByAddr, failByName
      ensures (State(), d) == Checked(old(State()), c, rejoinable, now)
    {
      hide Asked;
      if c.admitted {
        return Pass;
      }
      var addrClear, nameClear := true, true;
      if !c.loopback {
        addrClear := failByAddr.HasToken(c.addr, now);
      }
      if c.lobbyName.Some? {
        nameClear := failByName.HasToken(c.lobbyName.value, now);
      }
      if !addrClear || !nameClear {
        return RefusedGuessing;
      }
      if !rejoinable {
        return Pass;
      }
      var addrOk, nameOk := true, true;
      if !c.loopback {
        addrOk := joinByAddr.HasToken(c.addr, now);
      }
      if c.lobbyName.Some? {
        nameOk := joinByName.HasToken(c.lobbyName.value, now);
      }
      return if addrOk && nameOk then Pass else RefusedJoinRate;
    }

    method ObserveRejoin(c: Caller, now: int)
      requires Valid()
      modifies joinByAddr, joinByName
      ensures State() == Rejoined(old(State()), c, now)
    {
      if !c.loopback {
        joinByAddr.Spend(c.addr, now);
      }
      if c.lobbyName.Some? {
        joinByName.Spend(c.lobbyName.value, now);
      }
    }

    method ObservePasswordRejected(c: Caller, now: int)
      requires Valid()
      modifies failByAddr, failByName
      ensures State() == PasswordRejected(old(State()), c, now)
    {
      if !c.loopback {
        failByAddr.Spend(c.addr, now);
      }
      if c.lobbyName.Some? {
        failByName.Spend(c.lobbyName.value, now);
      }
    }
  }

  // ---- the decision ----

  /** Nobody to ask for, nothing to ask, or a whole token left. */
  predicate Spared(l: LedgerState, key: Option<Identity>, now: int) {
    l.interval.None? || key.None? || Runs.Credit(l, key.value, now) >= Runs.TokenTime(l.interval.value)
  }

  ghost predicate Ready(l: LedgerState, now: int) { Runs.Sound(l, now) && l.burst > 0 }

  lemma AskedSpared(l: LedgerState, key: Option<Identity>, now: int)
    requires Ready(l, now)
    ensures AskedUnless(l, key, now).1 <==> Spared(l, key, now)
  {
    if l.interval.Some? && key.Some? {
      Runs.AskKeeps(l, key.value, now);
      Runs.TokenIsQuantum(l.interval.value);
    }
  }

  /** An attempt is refused for guessing exactly if the address or the name is out
      of wrong passwords, and for joining too often exactly if a match can be
      rejoined and one of them is out of joins; loopback counts as no address. */
  lemma DecisionIs(g: GateState, c: Caller, rejoinable: bool, now: int)
    requires Ready(g.joinByAddr, now) && Ready(g.joinByName, now)
    requires Ready(g.failByAddr, now) && Ready(g.failByName, now)
    ensures var addr := if c.loopback then None else Some(c.addr);
            Checked(g, c, rejoinable, now).1
            == if c.admitted then Pass
               else if !Spared(g.failByAddr, addr, now) || !Spared(g.failByName, c.lobbyName, now)
               then RefusedGuessing
               else if rejoinable && (!Spared(g.joinByAddr, addr, now) || !Spared(g.joinByName, c.lobbyName, now))
               then RefusedJoinRate
               else Pass
  {
    AskedSpared(g.failByAddr, AddrKey(c), now);
    AskedSpared(g.failByName, c.lobbyName, now);
    AskedSpared(g.joinByAddr, AddrKey(c), now);
    AskedSpared(g.joinByName, c.lobbyName, now);
    hide AskedUnless, Spared;
  }

  // ---- runs ----

  // What the handlers made of an attempt the gate let through.
  datatype Outcome = Rejoins | BadPassword | Neither

  datatype Event =
    | Tick(now: int)
    // The handlers may learn the lobby name only while they answer, so the
    // caller that is charged can differ in its name.
    | Attempt(now: int, caller: Caller, rejoinable: bool, outcome: Outcome, name: Option<Identity>)

  predicate Rejoining(g: GateState, e: Event) {
    && e.Attempt? && e.rejoinable && !e.caller.admitted && e.outcome.Rejoins?
    && Checked(g, e.caller, e.rejoinable, e.now).1.Pass?
  }

  predicate Guessing(g: GateState, e: Event) {
    e.Attempt? && e.outcome.BadPassword? && Checked(g, e.caller, e.rejoinable, e.now).1.Pass?
  }

  function Next(g: GateState, e: Event): GateState {
    match e
    case Tick(now) => Ticked(g, now)
    case Attempt(now, caller, rejoinable, outcome, name) =>
      var (g1, d) := Checked(g, caller, rejoinable, now);
      var charged := caller.(lobbyName := name);
      if Rejoining(g, e) then Rejoined(g1, charged, now)
      else if Guessing(g, e) then PasswordRejected(g1, charged, now)
      else g1
  }

  function Play(g: GateState, es: seq<Event>): GateState
    decreases |es|
  {
    if es == [] then g else Play(Next(g, es[0]), es[1..])
  }

  predicate Timed(from: int, es: seq<Event>)
    decreases |es|
  {
    es == [] || (from <= es[0].now && Timed(es[0].now, es[1..]))
  }

  // ---- one of the four ledgers ----

  datatype Which = JoinAddr | JoinName | FailAddr | FailName

  function Of(g: GateState, w: Which): LedgerState {
    match w
    case JoinAddr => g.joinByAddr
    case JoinName => g.joinByName
    case FailAddr => g.failByAddr
    case FailName => g.failByName
  }

  /** Who an attempt is counted against before it is let on, and after. */
  function AskKey(c: Caller, w: Which): Option<Identity> {
    if w.JoinAddr? || w.FailAddr? then (if c.loopback then None else Some(c.addr)) else c.lobbyName
  }

  function ChargeKey(e: Event, w: Which): Option<Identity>
    requires e.Attempt?
  {
    AskKey(e.caller.(lobbyName := e.name), w)
  }

  predicate IsAsked(g: GateState, e: Event, w: Which)
    requires e.Attempt?
  {
    && !e.caller.admitted
    && (w.FailAddr? || w.FailName?
        || (e.rejoinable && !Checked(g, e.caller, e.rejoinable, e.now).1.RefusedGuessing?))
  }

  predicate IsCharged(g: GateState, e: Event, w: Which) {
    if w.JoinAddr? || w.JoinName? then Rejoining(g, e) else Guessing(g, e)
  }

  /** Let on, and counted against the one that was asked for. */
  predicate LetOn(g: GateState, e: Event, w: Which, key: Identity) {
    && e.Attempt? && !e.caller.admitted && IsCharged(g, e, w)
    && AskKey(e.caller, w) == Some(key) && ChargeKey(e, w) == Some(key)
  }

  /** What one event is to one of the ledgers. */
  function Asks(g: GateState, e: Event, w: Which): seq<Runs.Event> {
    if e.Tick? then [Runs.Event(e.now, Runs.Prune)]
    else
      var asked := if IsAsked(g, e, w) then AskKey(e.caller, w) else None;
      var charged := if IsCharged(g, e, w) then ChargeKey(e, w) else None;
      if asked.Some? && asked == charged then [Runs.Event(e.now, Runs.Admit(asked.value))]
      else
        (if asked.Some? then [Runs.Event(e.now, Runs.Ask(asked.value))] else [])
        + (if charged.Some? then [Runs.Event(e.now, Runs.Spend(charged.value))] else [])
  }

  function AllAsks(g: GateState, es: seq<Event>, w: Which): seq<Runs.Event>
    decreases |es|
  {
    if es == [] then [] else Asks(g, es[0], w) + AllAsks(Next(g, es[0]), es[1..], w)
  }

  /** How often one identity was let on and counted for it. */
  function LetOnTimes(g: GateState, es: seq<Event>, w: Which, key: Identity): nat
    decreases |es|
  {
    if es == [] then 0
    else (if LetOn(g, es[0], w, key) then 1 else 0) + LetOnTimes(Next(g, es[0]), es[1..], w, key)
  }

  function RunOn(l: LedgerState, es: seq<Runs.Event>): LedgerState
    decreases |es|
  {
    if es == [] then l else RunOn(Runs.Step(l, es[0]).0, es[1..])
  }

  lemma RunOne(l: LedgerState, a: Runs.Event, key: Identity)
    ensures RunOn(l, [a]) == Runs.Step(l, a).0
    ensures Runs.Admissions(l, [a], key) == if a.op == Runs.Admit(key) && Runs.Step(l, a).1 == [true] then 1 else 0
  {
    hide Runs.Step;
    assert [a][1..] == [];
    assert Runs.Admissions(Runs.Step(l, a).0, [], key) == 0;
  }

  lemma RunTwo(l: LedgerState, a: Runs.Event, b: Runs.Event, key: Identity)
    requires !a.op.Admit? && !b.op.Admit?
    ensures RunOn(l, [a] + [b]) == Runs.Step(Runs.Step(l, a).0, b).0
    ensures Runs.Admissions(l, [a] + [b], key) == 0
  {
    RunOne(Runs.Step(l, a).0, b, key);
    hide Runs.Step;
    assert ([a] + [b])[0] == a && ([a] + [b])[1..] == [b];
  }

  lemma TickAsks(g: GateState, e: Event, w: Which)
    requires e.Tick?
    ensures Of(Next(g, e), w) == RunOn(Of(g, w), Asks(g, e, w))
  {
    hide Pruned;
    RunOne(Of(g, w), Asks(g, e, w)[0], 0);
  }

  /** The ledger after an attempt, by what it was asked and charged. */
  function AfterAttempt(l: LedgerState, asked: Option<Identity>, charged: Option<Identity>, now: int): LedgerState {
    SpentUnless(AskedUnless(l, asked, now).0, charged, now)
  }

  lemma AttemptIs(g: GateState, e: Event, w: Which)
    requires e.Attempt?
    ensures var asked := if IsAsked(g, e, w) then AskKey(e.caller, w) else None;
            var charged := if IsCharged(g, e, w) then ChargeKey(e, w) else None;
            && Of(Next(g, e), w) == AfterAttempt(Of(g, w), asked, charged, e.now)
            && (asked.Some? && charged.Some? ==> Asked(Of(g, w), asked.value, e.now).1)
  {
    hide Asked, Spent;
  }

  lemma AttemptRuns(l: LedgerState, asked: Option<Identity>, charged: Option<Identity>, now: int, key: Identity)
    requires asked.Some? && charged.Some? ==> Asked(l, asked.value, now).1
    ensures var es := if asked.Some? && asked == charged then [Runs.Event(now, Runs.Admit(asked.value))]
                      else (if asked.Some? then [Runs.Event(now, Runs.Ask(asked.value))] else [])
                           + (if charged.Some? then [Runs.Event(now, Runs.Spend(charged.value))] else []);
            && AfterAttempt(l, asked, charged, now) == RunOn(l, es)
            && Runs.Admissions(l, es, key) == if asked == charged == Some(key) then 1 else 0
  {
    hide Asked, Spent;
    if asked.Some? && asked == charged {
      RunOne(l, Runs.Event(now, Runs.Admit(asked.value)), key);
    } else if asked.Some? && charged.Some? {
      RunTwo(l, Runs.Event(now, Runs.Ask(asked.value)), Runs.Event(now, Runs.Spend(charged.value)), key);
    } else if asked.Some? {
      var ask := Runs.Event(now, Runs.Ask(asked.value));
      RunOne(l, ask, key);
      assert [ask] + [] == [ask];
    } else if charged.Some? {
      var spend := Runs.Event(now, Runs.Spend(charged.value));
      RunOne(l, spend, key);
      assert [] + [spend] == [spend];
    }
  }

  lemma AsksAre(g: GateState, e: Event, w: Which, key: Identity)
    ensures Of(Next(g, e), w) == RunOn(Of(g, w), Asks(g, e, w))
    ensures Runs.Admissions(Of(g, w), Asks(g, e, w), key) == if LetOn(g, e, w, key) then 1 else 0
  {
    if e.Tick? {
      TickAsks(g, e, w);
      RunOne(Of(g, w), Asks(g, e, w)[0], key);
    } else {
      AttemptIs(g, e, w);
      ChargedAreAsked(g, e, w);
      hide Checked, Next;
      AttemptRuns(Of(g, w), if IsAsked(g, e, w) then AskKey(e.caller, w) else None,
                  if IsCharged(g, e, w) then ChargeKey(e, w) else None, e.now, key);
    }
    hide RunOn, Of, Runs.Admissions, Runs.Step;
  }

  lemma ChargedAreAsked(g: GateState, e: Event, w: Which)
    requires e.Attempt?
    ensures IsCharged(g, e, w) && !e.caller.admitted ==> IsAsked(g, e, w)
    ensures e.caller.admitted ==> !IsAsked(g, e, w)
  {
    hide Asked;
  }

  lemma {:induction false} AdmissionsAppend(l: LedgerState, a: seq<Runs.Event>, b: seq<Runs.Event>, key: Identity)
    ensures Runs.Admissions(l, a + b, key) == Runs.Admissions(l, a, key) + Runs.Admissions(RunOn(l, a), b, key)
    decreases |a|
  {
    hide Runs.Step;
    if a == [] {
      assert a + b == b;
    } else {
      FirstOff(a, b);
      assert (a + b)[0] == a[0] && (a + b)[1..] == a[1..] + b;
      AdmissionsAppend(Runs.Step(l, a[0]).0, a[1..], b, key);
    }
  }

  lemma AsksNow(g: GateState, e: Event, w: Which)
    ensures forall a | a in Asks(g, e, w) :: a.now == e.now
  {
    hide IsAsked, IsCharged, AskKey, ChargeKey;
  }

  lemma {:induction false} TimedAppend(from: int, now: int, a: seq<Runs.Event>, b: seq<Runs.Event>)
    requires from <= now && (forall x | x in a :: x.now == now) && Runs.Timed(now, b)
    ensures Runs.Timed(from, a + b)
    decreases |a|
  {
    if a == [] {
      assert a + b == b;
    } else {
      assert (a + b)[0] == a[0] && (a + b)[1..] == a[1..] + b && a[0] in a;
      assert forall x | x in a[1..] :: x in a;
      TimedAppend(now, now, a[1..], b);
    }
  }

  lemma {:induction false} EndsBy(from: int, es: seq<Event>, upTo: int)
    requires Timed(from, es) && (es != [] ==> es[|es| - 1].now <= upTo)
    ensures es != [] ==> from <= upTo
    decreases |es|
  {
    if es != [] {
      EndsBy(es[0].now, es[1..], upTo);
    }
  }

  /** A run of the gate is, to each of its ledgers, a run of that ledger: who is
      let on and counted is who the ledger admits. */
  lemma {:induction false} GateIsLedgers(g: GateState, es: seq<Event>, w: Which, key: Identity, from: int, upTo: int)
    requires Timed(from, es) && from <= upTo && (es != [] ==> es[|es| - 1].now <= upTo)
    ensures LetOnTimes(g, es, w, key) == Runs.Admissions(Of(g, w), AllAsks(g, es, w), key)
    ensures Runs.Timed(from, AllAsks(g, es, w))
    ensures forall a | a in AllAsks(g, es, w) :: a.now <= upTo
    ensures Of(Play(g, es), w) == RunOn(Of(g, w), AllAsks(g, es, w))
    decreases |es|
  {
    if es != [] {
      var e, asks, rest := es[0], Asks(g, es[0], w), AllAsks(Next(g, es[0]), es[1..], w);
      AsksAre(g, e, w, key);
      AsksNow(g, e, w);
      EndsBy(e.now, es[1..], upTo);
      assert e.now <= upTo;
      hide Next, Asks, LetOn, Of, Runs.Admissions;
      GateIsLedgers(Next(g, e), es[1..], w, key, e.now, upTo);
      AdmissionsAppend(Of(g, w), asks, rest, key);
      RunAppend(Of(g, w), asks, rest);
      TimedAppend(from, e.now, asks, rest);
      assert AllAsks(g, es, w) == asks + rest;
    }
  }

  lemma {:induction false} RunAppend(l: LedgerState, a: seq<Runs.Event>, b: seq<Runs.Event>)
    ensures RunOn(l, a + b) == RunOn(RunOn(l, a), b)
    decreases |a|
  {
    hide Runs.Step;
    if a == [] {
      assert a + b == b;
    } else {
      assert (a + b)[0] == a[0] && (a + b)[1..] == a[1..] + b;
      RunAppend(Runs.Step(l, a[0]).0, a[1..], b);
    }
  }

  lemma {:induction false} StaysSound(l: LedgerState, es: seq<Runs.Event>, from: int, upTo: int)
    requires Runs.Sound(l, from) && l.burst > 0 && Runs.Timed(from, es) && from <= upTo
    requires forall a | a in es :: a.now <= upTo
    ensures Runs.Sound(RunOn(l, es), upTo)
    ensures RunOn(l, es).burst == l.burst && RunOn(l, es).interval == l.interval
    decreases |es|
  {
    Runs.SoundLater(l, from, upTo);
    if es != [] {
      assert es[0] in es && forall a | a in es[1..] :: a in es;
      Runs.SoundLater(l, from, es[0].now);
      Runs.StepKeeps(l, es[0]);
      hide Runs.Step, Runs.Sound;
      StaysSound(Runs.Step(l, es[0]).0, es[1..], es[0].now, upTo);
    }
  }

  /** However attempts, wrong passwords and ticks interleave, before and during a
      window of length T, each of the four ledgers lets one identity on and counts
      it in that window at most burst + T / token times. */
  lemma LetOnBound(g: GateState, before: seq<Event>, es: seq<Event>, w: Which, key: Identity,
                   start: int, from: int, upTo: int)
    requires Of(g, w).interval.Some? && Of(g, w).burst > 0 && Runs.Sound(Of(g, w), start)
    requires start <= from <= upTo
    requires Timed(start, before) && (before != [] ==> before[|before| - 1].now <= from)
    requires Timed(from, es) && (es != [] ==> es[|es| - 1].now <= upTo)
    ensures LetOnTimes(Play(g, before), es, w, key)
         <= Of(g, w).burst + (upTo - from) / Runs.TokenTime(Of(g, w).interval.value)
  {
    hide Play, Next, Of, Runs.Sound, LetOnTimes, AllAsks, RunOn, Runs.Admissions;
    GateIsLedgers(g, before, w, key, start, from);
    StaysSound(Of(g, w), AllAsks(g, before, w), start, from);
    var h := Play(g, before);
    GateIsLedgers(h, es, w, key, from, upTo);
    LastBy(AllAsks(h, es, w), upTo);
    assert Of(g, w).interval.value > 0 by { Positivity(Of(g, w), start); }
    Runs.TokenIsQuantum(Of(g, w).interval.value);
    Runs.WindowBound(Of(h, w), AllAsks(h, es, w), key, from, upTo);
  }

  lemma Positivity(l: LedgerState, now: int)
    requires Runs.Sound(l, now) && l.interval.Some?
    ensures l.interval.value > 0
  {
  }

  lemma LastBy(es: seq<Runs.Event>, upTo: int)
    requires forall a | a in es :: a.now <= upTo
    ensures es != [] ==> es[|es| - 1].now <= upTo
  {
    if es != [] {
      assert es[|es| - 1] in es;
    }
  }

  // ---- rejoins and guesses ----

  /** How often an address that is not loopback rejoined a running match. */
  function Rejoins(g: GateState, es: seq<Event>, addr: Identity): nat
    decreases |es|
  {
    if es == [] then 0
    else (if Rejoining(g, es[0]) && !es[0].caller.loopback && es[0].caller.addr == addr then 1 else 0)
         + Rejoins(Next(g, es[0]), es[1..], addr)
  }

  /** How often an address that is not loopback, or a lobby name known when it was
      asked for, gave a wrong password. */
  function Guesses(g: GateState, es: seq<Event>, byName: bool, key: Identity): nat
    decreases |es|
  {
    if es == [] then 0
    else
      (if Guessing(g, es[0]) && !es[0].caller.admitted
          && (if byName then es[0].caller.lobbyName == es[0].name == Some(key)
              else !es[0].caller.loopback && es[0].caller.addr == key) then 1 else 0)
      + Guesses(Next(g, es[0]), es[1..], byName, key)
  }

  lemma {:induction false} RejoinsAreAdmissions(g: GateState, es: seq<Event>, addr: Identity)
    ensures Rejoins(g, es, addr) == LetOnTimes(g, es, JoinAddr, addr)
    decreases |es|
  {
    if es != [] {
      assert LetOn(g, es[0], JoinAddr, addr)
        <==> Rejoining(g, es[0]) && !es[0].caller.loopback && es[0].caller.addr == addr;
      hide Next, Rejoining, LetOn;
      RejoinsAreAdmissions(Next(g, es[0]), es[1..], addr);
    }
  }

  lemma {:induction false} GuessesAreAdmissions(g: GateState, es: seq<Event>, byName: bool, key: Identity)
    ensures Guesses(g, es, byName, key) == LetOnTimes(g, es, if byName then FailName else FailAddr, key)
    decreases |es|
  {
    if es != [] {
      hide Next, Checked;
      GuessesAreAdmissions(Next(g, es[0]), es[1..], byName, key);
    }
  }

  /** An address that is not loopback rejoins at most burst + T / token times in a
      window of length T. */
  lemma RejoinBound(g: GateState, before: seq<Event>, es: seq<Event>, addr: Identity,
                    start: int, from: int, upTo: int)
    requires g.joinByAddr.interval.Some? && g.joinByAddr.burst > 0
    requires Runs.Sound(g.joinByAddr, start)
    requires start <= from <= upTo
    requires Timed(start, before) && (before != [] ==> before[|before| - 1].now <= from)
    requires Timed(from, es) && (es != [] ==> es[|es| - 1].now <= upTo)
    ensures Rejoins(Play(g, before), es, addr)
         <= g.joinByAddr.burst + (upTo - from) / Runs.TokenTime(g.joinByAddr.interval.value)
  {
    RejoinsAreAdmissions(Play(g, before), es, addr);
    hide Play, Rejoins, LetOnTimes;
    LetOnBound(g, before, es, JoinAddr, addr, start, from, upTo);
  }

  /** So for wrong passwords, by address and by name. */
  lemma GuessBound(g: GateState, before: seq<Event>, es: seq<Event>, byName: bool, key: Identity,
                   start: int, from: int, upTo: int)
    requires var l := if byName then g.failByName else g.failByAddr;
             l.interval.Some? && l.burst > 0 && Runs.Sound(l, start)
    requires start <= from <= upTo
    requires Timed(start, before) && (before != [] ==> before[|before| - 1].now <= from)
    requires Timed(from, es) && (es != [] ==> es[|es| - 1].now <= upTo)
    ensures var l := if byName then g.failByName else g.failByAddr;
            Guesses(Play(g, before), es, byName, key)
            <= l.burst + (upTo - from) / Runs.TokenTime(l.interval.value)
  {
    GuessesAreAdmissions(Play(g, before), es, byName, key);
    hide Play, Guesses, LetOnTimes;
    LetOnBound(g, before, es, if byName then FailName else FailAddr, key, start, from, upTo);
  }
}
