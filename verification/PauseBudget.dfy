/** The pause quota: manual pauses and absences draw on the same budget. Times
    and quotas are nanoseconds. */
module PauseBudgets {
  import opened Prelude

  // A player, by the UUID it authenticated under.
  type Guid = nat

  datatype Event =
    | CoordinatedStarted
    | CoordinatedEnded
    | Expired(uuids: set<Guid>)
    | AbsentExpired(uuid: Guid)
    | AutoPauseStarted(awaited: seq<Guid>)
    | AutoPauseEnded

  datatype BudgetState = BudgetState(
    budget: int, minCharge: int,
    pausing: set<Guid>,
    remaining: map<Guid, int>,
    pausedAt: map<Guid, int>,
    lastCheck: Option<int>,
    coordinated: bool,
    autoPaused: bool)

  function NewBudget(budget: int, minCharge: int): BudgetState {
    BudgetState(budget, minCharge, {}, map[], map[], None, false, false)
  }

  function Left(remaining: map<Guid, int>, budget: int, u: Guid): int {
    if u in remaining then remaining[u] else budget
  }

  function ShortfallCharged(s: BudgetState, u: Guid): BudgetState {
    if u !in s.pausedAt || s.lastCheck.None? then s.(pausedAt := s.pausedAt - {u})
    else
      var held := Max(s.lastCheck.value - s.pausedAt[u], 0);
      var shortfall := s.minCharge - held;
      s.(pausedAt := s.pausedAt - {u},
         remaining := if shortfall > 0
                      then s.remaining[u := Max(Left(s.remaining, s.budget, u) - shortfall, 0)]
                      else s.remaining)
  }

  function PausingSet(s: BudgetState, u: Guid, pausing: bool): (BudgetState, bool) {
    if pausing then
      if u in s.pausing then (s, false)
      else (s.(pausing := s.pausing + {u},
               pausedAt := if s.lastCheck.Some? then s.pausedAt[u := s.lastCheck.value] else s.pausedAt), true)
    else if u !in s.pausing then (s, false)
    else (ShortfallCharged(s.(pausing := s.pausing - {u}), u), true)
  }

  function Cleared(s: BudgetState, u: Guid): BudgetState { PausingSet(s, u, false).0 }

  function Inherited(s: BudgetState, former: Guid, heir: Guid): BudgetState {
    if former !in s.remaining then s
    else s.(remaining := (s.remaining - {former})[heir := s.remaining[former]])
  }

  function Elapsed(s: BudgetState, now: int): nat {
    if s.lastCheck.None? then 0 else Max(now - s.lastCheck.value, 0)
  }

  function Drained(remaining: map<Guid, int>, budget: int, pausing: set<Guid>, elapsed: nat): map<Guid, int> {
    map u | u in remaining.Keys + pausing ::
      if u in pausing then Max(Left(remaining, budget, u) - elapsed, 0) else remaining[u]
  }

  datatype Absence = Absence(remaining: map<Guid, int>, waiting: seq<Guid>, expired: seq<Guid>)

  function AwayOne(a: Absence, budget: int, u: Guid, elapsed: nat): Absence {
    var left := Left(a.remaining, budget, u);
    if left <= 0 then a.(remaining := a.remaining[u := left])
    else
      var after := Max(left - elapsed, 0);
      if after <= 0 then a.(remaining := a.remaining[u := after], expired := a.expired + [u])
      else a.(remaining := a.remaining[u := after], waiting := a.waiting + [u])
  }

  /** Charges the absent in turn; whoever has something left is waited for. */
  function Away(remaining: map<Guid, int>, budget: int, absent: seq<Guid>, elapsed: nat): Absence {
    if absent == [] then Absence(remaining, [], [])
    else AwayOne(Away(remaining, budget, absent[..|absent| - 1], elapsed), budget, absent[|absent| - 1], elapsed)
  }

  function Spent(remaining: map<Guid, int>, budget: int, pausing: set<Guid>): set<Guid> {
    set u | u in pausing && Left(remaining, budget, u) <= 0
  }

  function AbsentEvents(expired: seq<Guid>): seq<Event> {
    if expired == [] then []
    else AbsentEvents(expired[..|expired| - 1]) + [AbsentExpired(expired[|expired| - 1])]
  }

  function IsCoordinated(s: BudgetState, players: nat): bool { players >= 2 && |s.pausing| == players }

  /** The first half of a check: the pausing players. */
  function PausersChecked(s: BudgetState, now: int, players: nat): (BudgetState, seq<Event>) {
    var coordinated := IsCoordinated(s, players);
    var remaining := if coordinated then s.remaining
                     else Drained(s.remaining, s.budget, s.pausing, Elapsed(s, now));
    var spent := Spent(remaining, s.budget, s.pausing);
    (s.(lastCheck := Some(now), coordinated := coordinated, remaining := remaining,
        pausing := s.pausing - spent, pausedAt := s.pausedAt - spent),
     (if coordinated == s.coordinated then []
      else if coordinated then [CoordinatedStarted] else [CoordinatedEnded])
     + (if spent == {} then [] else [Expired(spent)]))
  }

  /** The second half: the absent players, charged even while everyone present
      has agreed to a pause. */
  function AbsentChecked(s: BudgetState, absent: seq<Guid>, elapsed: nat): (BudgetState, seq<Event>) {
    var a := Away(s.remaining, s.budget, absent, elapsed);
    (s.(remaining := a.remaining, autoPaused := a.waiting != []),
     AbsentEvents(a.expired)
     + (if a.waiting != [] && !s.autoPaused then [AutoPauseStarted(a.waiting)]
        else if a.waiting == [] && s.autoPaused then [AutoPauseEnded] else []))
  }

  function Checked(s: BudgetState, now: int, players: nat, absent: seq<Guid>): (BudgetState, seq<Event>) {
    var (s1, first) := PausersChecked(s, now, players);
    var (s2, rest) := AbsentChecked(s1, absent, Elapsed(s, now));
    (s2, first + rest)
  }

  class PauseBudget {
    const budget: int
    const minCharge: int
    var pausing: set<Guid>
    var remaining: map<Guid, int>
    var pausedAt: map<Guid, int>
    var lastCheck: Option<int>
    var coordinated: bool
    var autoPaused: bool

    function State(): BudgetState
      reads this
    {
      BudgetState(budget, minCharge, pausing, remaining, pausedAt, lastCheck, coordinated, autoPaused)
    }

    constructor (budget: int, minCharge: int)
      ensures State() == NewBudget(budget, minCharge)
    {
      this.budget, this.minCharge := budget, minCharge;
      pausing, remaining, pausedAt := {}, map[], map[];
      lastCheck, coordinated, autoPaused := None, false, false;
    }

    method SetPausing(u: Guid, on: bool) returns (changed: bool)
      modifies this
      ensures (State(), changed) == PausingSet(old(State()), u, on)
    {
      if on {
        if u in pausing {
          return false;
        }
        pausing := pausing + {u};
        if lastCheck.Some? {
          pausedAt := pausedAt[u := lastCheck.value];
        }
        return true;
      }
      if u !in pausing {
        return false;
      }
      pausing := pausing - {u};
      ChargeShortfall(u);
      return true;
    }

    method ChargeShortfall(u: Guid)
      modifies this
      ensures State() == ShortfallCharged(old(State()), u)
    {
      if u !in pausedAt || lastCheck.None? {
        pausedAt := pausedAt - {u};
        return;
      }
      var held := Max(lastCheck.value - pausedAt[u], 0);
      pausedAt := pausedAt - {u};
      var shortfall := minCharge - held;
      if shortfall > 0 {
        if u !in remaining {
          remaining := remaining[u := budget];
        }
        ghost var was := old(remaining);
        remaining := remaining[u := Max(remaining[u] - shortfall, 0)];
        assert remaining == was[u := remaining[u]];
      }
    }

    method ClearPausing(u: Guid)
      modifies this
      ensures State() == Cleared(old(State()), u)
    {
      if u in pausing {
        pausing := pausing - {u};
        ChargeShortfall(u);
      }
    }

    method Inherit(former: Guid, heir: Guid)
      modifies this
      ensures State() == Inherited(old(State()), former, heir)
    {
      if former in remaining {
        var left := remaining[former];
        remaining := remaining - {former};
        remaining := remaining[heir := left];
      }
    }

    method Check(now: int, players: nat, absent: seq<Guid>) returns (events: seq<Event>)
      modifies this
      ensures (State(), events) == Checked(old(State()), now, players, absent)
    {
      hide Away, Drained, Spent, AbsentEvents;
      var elapsed := Elapsed(State(), now);
      events := CheckPausers(now, players);
      var rest := CheckAbsent(absent, elapsed);
      events := events + rest;
    }

    method CheckPausers(now: int, players: nat) returns (events: seq<Event>)
      modifies this
      ensures (State(), events) == PausersChecked(old(State()), now, players)
    {
      hide Drained, Spent;
      var elapsed := Elapsed(State(), now);
      lastCheck := Some(now);
      var agreed := IsCoordinated(State(), players);
      events := if agreed == coordinated then []
                else if agreed then [CoordinatedStarted] else [CoordinatedEnded];
      coordinated := agreed;
      if !agreed {
        Drain(elapsed);
      }
      var spent := Spent(remaining, budget, pausing);
      pausing := pausing - spent;
      pausedAt := pausedAt - spent;
      events := events + (if spent == {} then [] else [Expired(spent)]);
    }

    method Drain(elapsed: nat)
      modifies this`remaining
      ensures remaining == Drained(old(remaining), budget, pausing, elapsed)
    {
      var todo := pausing;
      ghost var was, done: set<Guid> := remaining, {};
      DrainNone(was, budget, elapsed);
      hide Drained;
      while todo != {}
        invariant done + todo == pausing && done !! todo
        invariant remaining == Drained(was, budget, done, elapsed)
        decreases |todo|
      {
        var u :| u in todo;
        DrainOne(was, budget, done, u, elapsed);
        remaining := remaining[u := Max(Left(remaining, budget, u) - elapsed, 0)];
        todo := todo - {u};
        done := done + {u};
      }
    }

    method CheckAbsent(absent: seq<Guid>, elapsed: nat) returns (events: seq<Event>)
      modifies this`remaining, this`autoPaused
      ensures (State(), events) == AbsentChecked(old(State()), absent, elapsed)
    {
      var a := ChargeAway(absent, elapsed);
      remaining := a.remaining;
      events := AbsentEvents(a.expired);
      if a.waiting != [] && !autoPaused {
        autoPaused := true;
        events := events + [AutoPauseStarted(a.waiting)];
      } else if a.waiting == [] && autoPaused {
        autoPaused := false;
        events := events + [AutoPauseEnded];
      } else {
        assert events + [] == events;
      }
    }

    method ChargeAway(absent: seq<Guid>, elapsed: nat) returns (a: Absence)
      ensures a == Away(remaining, budget, absent, elapsed)
    {
      a := Absence(remaining, [], []);
      var i := 0;
      while i < |absent|
        invariant 0 <= i <= |absent| && a == Away(remaining, budget, absent[..i], elapsed)
      {
        assert absent[..i + 1][..i] == absent[..i];
        var u := absent[i];
        var left := Left(a.remaining, budget, u);
        if left > 0 {
          left := Max(left - elapsed, 0);
          if left <= 0 {
            a := a.(expired := a.expired + [u]);
          } else {
            a := a.(waiting := a.waiting + [u]);
          }
        }
        a := a.(remaining := a.remaining[u := left]);
        i := i + 1;
      }
      assert absent[..i] == absent;
    }
  }

  lemma DrainNone(was: map<Guid, int>, budget: int, elapsed: nat)
    ensures Drained(was, budget, {}, elapsed) == was
  {
  }

  lemma DrainOne(was: map<Guid, int>, budget: int, done: set<Guid>, u: Guid, elapsed: nat)
    requires u !in done
    ensures Drained(was, budget, done + {u}, elapsed)
         == Drained(was, budget, done, elapsed)[u := Max(Left(was, budget, u) - elapsed, 0)]
    ensures Left(Drained(was, budget, done, elapsed), budget, u) == Left(was, budget, u)
  {
  }
}
