/** Whole runs of the pause quota: how long absences can hold a match, what a
    pause costs, and that every start is followed by its end. */
module PauseRuns {
  import opened Arith
  import opened Prelude
  import opened PauseBudgets

  datatype Step =
    | SetPausing(u: Guid, on: bool)
    | Clear(u: Guid)
    | Inherit(former: Guid, heir: Guid)
    | Check(now: int, players: nat, absent: seq<Guid>)

  function Next(s: BudgetState, step: Step): BudgetState {
    match step
    case SetPausing(u, on) => PausingSet(s, u, on).0
    case Clear(u) => Cleared(s, u)
    case Inherit(former, heir) => Inherited(s, former, heir)
    case Check(now, players, absent) => Checked(s, now, players, absent).0
  }

  function Play(s: BudgetState, steps: seq<Step>): BudgetState
    decreases |steps|
  {
    if steps == [] then s else Play(Next(s, steps[0]), steps[1..])
  }

  // ---- how long a match is held ----

  function Waited(s: BudgetState, step: Step): nat {
    if step.Check? && Next(s, step).autoPaused then Elapsed(s, step.now) else 0
  }

  /** The time that ended in checks that left the match held for someone. */
  function HeldFor(s: BudgetState, steps: seq<Step>): nat
    decreases |steps|
  {
    if steps == [] then 0 else Waited(s, steps[0]) + HeldFor(Next(s, steps[0]), steps[1..])
  }

  predicate Solvent(s: BudgetState) {
    s.budget >= 0 && forall u | u in s.remaining :: s.remaining[u] >= 0
  }

  function Quota(remaining: map<Guid, int>, u: Guid): int {
    if u in remaining then remaining[u] else 0
  }

  predicate Distinct(us: seq<Guid>) {
    forall i, j | 0 <= i < j < |us| :: us[i] != us[j]
  }

  function Total(remaining: map<Guid, int>, us: seq<Guid>): int {
    if us == [] then 0 else Quota(remaining, us[0]) + Total(remaining, us[1..])
  }

  /** How many of them were handed a fresh quota. */
  function Fresh(before: map<Guid, int>, after: map<Guid, int>, us: seq<Guid>): nat {
    if us == [] then 0
    else (if us[0] !in before && us[0] in after then 1 else 0) + Fresh(before, after, us[1..])
  }

  function Given(s: BudgetState, step: Step, us: seq<Guid>): nat {
    if step.Inherit? then 0 else Fresh(s.remaining, Next(s, step).remaining, us)
  }

  function FreshOver(s: BudgetState, steps: seq<Step>, us: seq<Guid>): nat
    decreases |steps|
  {
    if steps == [] then 0 else Given(s, steps[0], us) + FreshOver(Next(s, steps[0]), steps[1..], us)
  }

  /** Quotas only shrink, except a fresh one, which is at most the budget. */
  ghost predicate OnlySpends(before: map<Guid, int>, after: map<Guid, int>, budget: int) {
    && before.Keys <= after.Keys
    && forall u | u in after :: 0 <= after[u] <= Left(before, budget, u)
  }

  lemma {:induction false} TotalSpends(before: map<Guid, int>, after: map<Guid, int>, budget: int, us: seq<Guid>)
    requires budget >= 0 && OnlySpends(before, after, budget)
    ensures Total(after, us) <= Total(before, us) + budget * Fresh(before, after, us)
    decreases |us|
  {
    if us != [] {
      TotalSpends(before, after, budget, us[1..]);
      Distributes(budget, if us[0] !in before && us[0] in after then 1 else 0, Fresh(before, after, us[1..]));
    }
  }

  /** And if one of them paid `amount`, so did the total. */
  lemma {:induction false} TotalPays(before: map<Guid, int>, after: map<Guid, int>, budget: int, us: seq<Guid>,
                                     payer: Guid, amount: nat)
    requires budget >= 0 && OnlySpends(before, after, budget)
    requires payer in us && payer in after && after[payer] + amount <= Left(before, budget, payer)
    ensures Total(after, us) + amount <= Total(before, us) + budget * Fresh(before, after, us)
    decreases |us|
  {
    var rest := us[1..];
    Distributes(budget, if us[0] !in before && us[0] in after then 1 else 0, Fresh(before, after, rest));
    if us[0] == payer {
      TotalSpends(before, after, budget, rest);
    } else {
      TotalPays(before, after, budget, rest, payer, amount);
    }
  }

  lemma {:induction false} TotalPut(m: map<Guid, int>, us: seq<Guid>, u: Guid, v: int)
    requires Distinct(us)
    ensures Total(m[u := v], us) == Total(m, us) + (if u in us then v - Quota(m, u) else 0)
    decreases |us|
  {
    if us != [] {
      assert forall i | 0 <= i < |us| - 1 :: us[1..][i] == us[i + 1];
      TotalPut(m, us[1..], u, v);
    }
  }

  lemma {:induction false} TotalDrop(m: map<Guid, int>, us: seq<Guid>, u: Guid)
    requires Distinct(us)
    ensures Total(m - {u}, us) == Total(m, us) - (if u in us then Quota(m, u) else 0)
    decreases |us|
  {
    if us != [] {
      assert forall i | 0 <= i < |us| - 1 :: us[1..][i] == us[i + 1];
      TotalDrop(m, us[1..], u);
    }
  }

  // ---- one step ----

  lemma {:induction false} AwaySpends(remaining: map<Guid, int>, budget: int, absent: seq<Guid>, elapsed: nat)
    requires budget >= 0 && forall u | u in remaining :: remaining[u] >= 0
    ensures var a := Away(remaining, budget, absent, elapsed);
            && OnlySpends(remaining, a.remaining, budget)
            && (forall w | w in a.waiting ::
                  w in absent && w in a.remaining
                  && a.remaining[w] + elapsed <= Left(remaining, budget, w))
    decreases |absent|
  {
    if absent != [] {
      AwaySpends(remaining, budget, absent[..|absent| - 1], elapsed);
    }
  }

  lemma DrainSpends(remaining: map<Guid, int>, budget: int, pausing: set<Guid>, elapsed: nat)
    requires budget >= 0 && forall u | u in remaining :: remaining[u] >= 0
    ensures OnlySpends(remaining, Drained(remaining, budget, pausing, elapsed), budget)
  {
    var after := Drained(remaining, budget, pausing, elapsed);
    forall u | u in after ensures 0 <= after[u] <= Left(remaining, budget, u) {
      if u in pausing {
        assert after[u] == Max(Left(remaining, budget, u) - elapsed, 0);
      }
    }
  }

  lemma PausersSpend(s: BudgetState, now: int, players: nat)
    requires Solvent(s)
    ensures var after := PausersChecked(s, now, players).0;
            Solvent(after) && after.budget == s.budget && OnlySpends(s.remaining, after.remaining, s.budget)
  {
    hide Spent, Drained;
    DrainSpends(s.remaining, s.budget, s.pausing, Elapsed(s, now));
  }

  lemma CheckSpends(s: BudgetState, now: int, players: nat, absent: seq<Guid>)
    requires Solvent(s)
    ensures var after := Next(s, Check(now, players, absent));
            && Solvent(after) && after.budget == s.budget
            && OnlySpends(s.remaining, after.remaining, s.budget)
            && (after.autoPaused ==>
                  exists w :: w in absent && w in after.remaining
                              && after.remaining[w] + Elapsed(s, now) <= Left(s.remaining, s.budget, w))
  {
    hide Away, PausersChecked;
    var s1 := PausersChecked(s, now, players).0;
    PausersSpend(s, now, players);
    AwaySpends(s1.remaining, s.budget, absent, Elapsed(s, now));
    var a := Away(s1.remaining, s.budget, absent, Elapsed(s, now));
    if a.waiting != [] {
      assert a.waiting[0] in a.waiting;
    }
  }

  lemma PauseSpends(s: BudgetState, u: Guid, on: bool)
    requires Solvent(s)
    ensures var after := PausingSet(s, u, on).0;
            Solvent(after) && after.budget == s.budget && OnlySpends(s.remaining, after.remaining, s.budget)
  {
  }

  // An heir is waited for only if the one it inherited from was.
  predicate Covers(us: seq<Guid>, step: Step) {
    match step
    case Check(_, _, absent) => forall u | u in absent :: u in us
    case Inherit(former, heir) => heir in us ==> former in us
    case _ => true
  }

  lemma InheritMoves(s: BudgetState, former: Guid, heir: Guid, us: seq<Guid>)
    requires Solvent(s) && Distinct(us) && (heir in us ==> former in us)
    ensures var after := Inherited(s, former, heir);
            Solvent(after) && after.budget == s.budget && Total(after.remaining, us) <= Total(s.remaining, us)
  {
    if former in s.remaining {
      TotalDrop(s.remaining, us, former);
      TotalPut(s.remaining - {former}, us, heir, s.remaining[former]);
    }
  }

  lemma {:induction false} HoldingCosts(s: BudgetState, steps: seq<Step>, us: seq<Guid>)
    requires Solvent(s) && Distinct(us) && forall step | step in steps :: Covers(us, step)
    ensures HeldFor(s, steps) + Total(Play(s, steps).remaining, us)
         <= Total(s.remaining, us) + s.budget * FreshOver(s, steps, us)
    ensures Solvent(Play(s, steps))
    decreases |steps|
  {
    if steps == [] {
      assert s.budget * 0 == 0;
    } else {
      hide Next, Total, Fresh, HeldFor, FreshOver, Solvent, Covers, Distinct;
      var step, after := steps[0], Next(s, steps[0]);
      assert Covers(us, step) && forall t | t in steps[1..] :: t in steps;
      StepCosts(s, step, us);
      HoldingCosts(after, steps[1..], us);
      HoldingOn(s, steps, us);
    }
  }

  lemma HoldingOn(s: BudgetState, steps: seq<Step>, us: seq<Guid>)
    requires steps != []
    requires Waited(s, steps[0]) + Total(Next(s, steps[0]).remaining, us)
          <= Total(s.remaining, us) + s.budget * Given(s, steps[0], us)
    requires HeldFor(Next(s, steps[0]), steps[1..]) + Total(Play(s, steps).remaining, us)
          <= Total(Next(s, steps[0]).remaining, us) + s.budget * FreshOver(Next(s, steps[0]), steps[1..], us)
    ensures HeldFor(s, steps) + Total(Play(s, steps).remaining, us)
         <= Total(s.remaining, us) + s.budget * FreshOver(s, steps, us)
  {
    var step, after := steps[0], Next(s, steps[0]);
    assert FreshOver(s, steps, us) == Given(s, step, us) + FreshOver(after, steps[1..], us);
    assert HeldFor(s, steps) == Waited(s, step) + HeldFor(after, steps[1..]);
    hide *;
    AddUp(s.budget, Waited(s, step), HeldFor(after, steps[1..]), Total(s.remaining, us), Total(after.remaining, us),
          Total(Play(s, steps).remaining, us), Given(s, step, us), FreshOver(after, steps[1..], us),
          FreshOver(s, steps, us));
  }

  lemma AddUp(budget: int, waited: int, later: int, t0: int, t1: int, t2: int, given: int, more: int, all: int)
    requires waited + t1 <= t0 + budget * given && later + t2 <= t1 + budget * more && all == given + more
    ensures waited + later + t2 <= t0 + budget * all
  {
    Distributes(budget, given, more);
  }

  lemma StepCosts(s: BudgetState, step: Step, us: seq<Guid>)
    requires Solvent(s) && Distinct(us) && Covers(us, step)
    ensures var after := Next(s, step);
            && Solvent(after) && after.budget == s.budget
            && Waited(s, step) + Total(after.remaining, us)
               <= Total(s.remaining, us) + s.budget * Given(s, step, us)
  {
    hide Away, Total, Fresh;
    match step {
      case SetPausing(u, on) =>
        PauseSpends(s, u, on);
        TotalSpends(s.remaining, Next(s, step).remaining, s.budget, us);
      case Clear(u) =>
        PauseSpends(s, u, false);
        TotalSpends(s.remaining, Next(s, step).remaining, s.budget, us);
      case Inherit(former, heir) => InheritMoves(s, former, heir, us);
      case Check(now, players, absent) =>
        CheckSpends(s, now, players, absent);
        hide Next;
        var after := Next(s, step);
        if after.autoPaused {
          var w :| w in absent && w in after.remaining
                   && after.remaining[w] + Elapsed(s, now) <= Left(s.remaining, s.budget, w);
          TotalPays(s.remaining, after.remaining, s.budget, us, w, Elapsed(s, now));
        } else {
          TotalSpends(s.remaining, after.remaining, s.budget, us);
        }
    }
  }

  lemma {:induction false} TotalNone(us: seq<Guid>)
    ensures Total(map[], us) == 0
    decreases |us|
  {
    if us != [] {
      TotalNone(us[1..]);
    }
  }

  lemma {:induction false} TotalOwed(remaining: map<Guid, int>, us: seq<Guid>)
    requires forall u | u in remaining :: remaining[u] >= 0
    ensures Total(remaining, us) >= 0
    decreases |us|
  {
    if us != [] {
      TotalOwed(remaining, us[1..]);
    }
  }

  /** Over any run, whatever the clock does, a match is held for its absent
      players no longer than the quotas they were handed. A quota inherited
      with a slot is not a new one. */
  lemma HoldingIsBounded(budget: int, minCharge: int, steps: seq<Step>, us: seq<Guid>)
    requires budget >= 0 && Distinct(us) && forall step | step in steps :: Covers(us, step)
    ensures HeldFor(NewBudget(budget, minCharge), steps)
         <= budget * FreshOver(NewBudget(budget, minCharge), steps, us)
  {
    var s := NewBudget(budget, minCharge);
    HoldingCosts(s, steps, us);
    TotalNone(us);
    TotalOwed(Play(s, steps).remaining, us);
  }

  // ---- one quota for each who was ever away ----

  function Charged(s: BudgetState, step: Step): set<Guid> {
    match step
    case SetPausing(u, _) => {u}
    case Clear(u) => {u}
    case Inherit(_, heir) => {heir}
    case Check(_, _, absent) => s.pausing + set u | u in absent
  }

  predicate HandsOver(s: BudgetState, step: Step) { step.Inherit? && step.former in s.remaining }

  /** A UUID that was inherited from is not heard of again, and an heir is new:
      a player who reconnects authenticates afresh. */
  predicate NoReturn(s: BudgetState, gone: set<Guid>, steps: seq<Step>)
    decreases |steps|
  {
    steps == []
    || (&& Charged(s, steps[0]) !! gone
        && (HandsOver(s, steps[0]) ==> steps[0].heir !in s.remaining && steps[0].heir != steps[0].former)
        && NoReturn(Next(s, steps[0]),
                    if HandsOver(s, steps[0]) then gone + {steps[0].former} else gone, steps[1..]))
  }

  function HeirsOver(s: BudgetState, steps: seq<Step>, us: seq<Guid>): nat
    decreases |steps|
  {
    if steps == [] then 0
    else (if HandsOver(s, steps[0]) && steps[0].heir in us then 1 else 0)
         + HeirsOver(Next(s, steps[0]), steps[1..], us)
  }

  function Known(us: seq<Guid>, known: set<Guid>): nat {
    if us == [] then 0 else (if us[0] in known then 1 else 0) + Known(us[1..], known)
  }

  lemma {:induction false} KnownBound(us: seq<Guid>, known: set<Guid>)
    ensures Known(us, known) <= |us|
    decreases |us|
  {
    if us != [] {
      KnownBound(us[1..], known);
    }
  }

  lemma {:induction false} FreshIsKnown(before: map<Guid, int>, after: map<Guid, int>, gone: set<Guid>,
                                        us: seq<Guid>)
    requires before.Keys <= after.Keys && (after.Keys - before.Keys) !! gone
    ensures Fresh(before, after, us) + Known(us, before.Keys + gone) == Known(us, after.Keys + gone)
    decreases |us|
  {
    if us != [] {
      FreshIsKnown(before, after, gone, us[1..]);
    }
  }

  lemma {:induction false} HeirIsKnown(us: seq<Guid>, known: set<Guid>, heir: Guid)
    requires Distinct(us) && heir !in known
    ensures Known(us, known + {heir}) == Known(us, known) + (if heir in us then 1 else 0)
    decreases |us|
  {
    if us != [] {
      assert forall i | 0 <= i < |us| - 1 :: us[1..][i] == us[i + 1];
      HeirIsKnown(us[1..], known, heir);
    }
  }

  lemma {:induction false} AwayKeys(remaining: map<Guid, int>, budget: int, absent: seq<Guid>, elapsed: nat)
    ensures Away(remaining, budget, absent, elapsed).remaining.Keys == remaining.Keys + set u | u in absent
    decreases |absent|
  {
    if absent != [] {
      var front, u := absent[..|absent| - 1], absent[|absent| - 1];
      AwayKeys(remaining, budget, front, elapsed);
      assert absent == front + [u];
    }
  }

  lemma OnlyChargedAreNew(s: BudgetState, step: Step)
    requires !step.Inherit?
    ensures s.remaining.Keys <= Next(s, step).remaining.Keys <= s.remaining.Keys + Charged(s, step)
  {
    hide Away, Spent;
    if step.Check? {
      var s1 := PausersChecked(s, step.now, step.players).0;
      AwayKeys(s1.remaining, s.budget, step.absent, Elapsed(s, step.now));
    }
  }

  lemma {:induction false} FreshOnce(s: BudgetState, gone: set<Guid>, steps: seq<Step>, us: seq<Guid>)
    requires Distinct(us) && NoReturn(s, gone, steps)
    ensures FreshOver(s, steps, us) + HeirsOver(s, steps, us) + Known(us, s.remaining.Keys + gone) <= |us|
    decreases |steps|
  {
    if steps == [] {
      KnownBound(us, s.remaining.Keys + gone);
    } else {
      var step, after := steps[0], Next(s, steps[0]);
      var more := if HandsOver(s, step) then gone + {step.former} else gone;
      FreshOnce(after, more, steps[1..], us);
      if HandsOver(s, step) {
        assert after.remaining.Keys + more == s.remaining.Keys + gone + {step.heir};
        HeirIsKnown(us, s.remaining.Keys + gone, step.heir);
      } else if step.Inherit? {
        assert after == s;
      } else {
        OnlyChargedAreNew(s, step);
        FreshIsKnown(s.remaining, after.remaining, gone, us);
      }
    }
  }

  /** So with `us` everyone who was ever waited for, and everyone they inherited
      from, a match is held at most one budget for each of them, less one for
      each who inherited another's. */
  lemma HoldingPerLineage(budget: int, minCharge: int, steps: seq<Step>, us: seq<Guid>)
    requires budget >= 0 && Distinct(us) && forall step | step in steps :: Covers(us, step)
    requires NoReturn(NewBudget(budget, minCharge), {}, steps)
    ensures HeldFor(NewBudget(budget, minCharge), steps)
         <= budget * (|us| - HeirsOver(NewBudget(budget, minCharge), steps, us))
  {
    hide HeldFor, FreshOver, HeirsOver, NoReturn, Known, Distinct, Covers;
    var s := NewBudget(budget, minCharge);
    HoldingIsBounded(budget, minCharge, steps, us);
    FreshOnce(s, {}, steps, us);
    MulLe(FreshOver(s, steps, us), |us| - HeirsOver(s, steps, us), budget);
  }

  // ---- what a pause costs ----

  /** The players there, at least two, have all paused. */
  predicate AllPausing(s: BudgetState, players: nat) { |s.pausing| == players > 1 }

  /** Nothing but the clock touches this pause. */
  predicate Undisturbed(s: BudgetState, step: Step, u: Guid) {
    match step
    case SetPausing(v, _) => v != u
    case Clear(v) => v != u
    case Inherit(former, heir) => former != u && heir != u
    case Check(now, players, absent) =>
      u !in absent && !AllPausing(s, players) && s.lastCheck.Some? && s.lastCheck.value <= now
  }

  predicate UndisturbedRun(s: BudgetState, steps: seq<Step>, u: Guid)
    decreases |steps|
  {
    steps == [] || (Undisturbed(s, steps[0], u) && UndisturbedRun(Next(s, steps[0]), steps[1..], u))
  }

  /** While it lasts, a pause has cost the time since it began. */
  predicate PausedSince(s: BudgetState, u: Guid, start: int, had: int) {
    && s.lastCheck.Some? && start <= s.lastCheck.value
    && (if u in s.pausing
        then && u in s.pausedAt && s.pausedAt[u] == start
             && Left(s.remaining, s.budget, u) == Max(had - (s.lastCheck.value - start), 0)
        else Left(s.remaining, s.budget, u) == 0 && had <= s.lastCheck.value - start)
  }

  lemma {:induction false} AwayLeaves(remaining: map<Guid, int>, budget: int, absent: seq<Guid>,
                                      elapsed: nat, u: Guid)
    requires u !in absent
    ensures var after := Away(remaining, budget, absent, elapsed).remaining;
            Left(after, budget, u) == Left(remaining, budget, u)
    decreases |absent|
  {
    if absent != [] {
      AwayLeaves(remaining, budget, absent[..|absent| - 1], elapsed, u);
    }
  }

  lemma PauseGoesOn(s: BudgetState, step: Step, u: Guid, start: int, had: int)
    requires PausedSince(s, u, start, had) && Undisturbed(s, step, u) && had >= 0
    ensures PausedSince(Next(s, step), u, start, had) && Next(s, step).minCharge == s.minCharge
  {
    hide Away, PausersChecked, Drained, Elapsed;
    if step.Check? {
      var mid := PausersChecked(s, step.now, step.players).0;
      PauserGoesOn(s, step.now, step.players, u, start, had);
      AwayLeaves(mid.remaining, s.budget, step.absent, Elapsed(s, step.now), u);
    }
  }

  lemma PauserGoesOn(s: BudgetState, now: int, players: nat, u: Guid, start: int, had: int)
    requires PausedSince(s, u, start, had) && had >= 0
    requires !AllPausing(s, players) && s.lastCheck.value <= now
    ensures var mid := PausersChecked(s, now, players).0;
            PausedSince(mid, u, start, had) && mid.minCharge == s.minCharge && mid.budget == s.budget
  {
    DrainTakes(s.remaining, s.budget, s.pausing, Elapsed(s, now), u);
    hide Drained, Left;
  }

  lemma DrainTakes(remaining: map<Guid, int>, budget: int, pausing: set<Guid>, elapsed: nat, u: Guid)
    ensures Left(Drained(remaining, budget, pausing, elapsed), budget, u)
         == if u in pausing then Max(Left(remaining, budget, u) - elapsed, 0) else Left(remaining, budget, u)
  {
  }

  lemma {:induction false} PauseRuns(s: BudgetState, steps: seq<Step>, u: Guid, start: int, had: int)
    requires PausedSince(s, u, start, had) && UndisturbedRun(s, steps, u) && had >= 0
    ensures PausedSince(Play(s, steps), u, start, had) && Play(s, steps).minCharge == s.minCharge
    decreases |steps|
  {
    if steps != [] {
      PauseGoesOn(s, steps[0], u, start, had);
      PauseRuns(Next(s, steps[0]), steps[1..], u, start, had);
    }
  }

  /** An uncoordinated pause by a player who is present costs exactly the time it
      was held, or the minimum if that is more, and never more than was left. */
  lemma PauseCostsExactly(s: BudgetState, steps: seq<Step>, u: Guid)
    requires s.lastCheck.Some? && u !in s.pausing && Left(s.remaining, s.budget, u) >= 0
    requires UndisturbedRun(PausingSet(s, u, true).0, steps, u)
    ensures var before := Play(PausingSet(s, u, true).0, steps);
            var after := PausingSet(before, u, false).0;
            && before.lastCheck.Some?
            && var held := before.lastCheck.value - s.lastCheck.value;
               Left(after.remaining, after.budget, u)
               == Max(Left(s.remaining, s.budget, u) - Max(held, s.minCharge), 0)
  {
    PauseRuns(PausingSet(s, u, true).0, steps, u, s.lastCheck.value, Left(s.remaining, s.budget, u));
  }

  function Times(us: seq<Guid>, u: Guid): nat {
    if us == [] then 0 else Times(us[..|us| - 1], u) + (if us[|us| - 1] == u then 1 else 0)
  }

  lemma {:induction false} AwayCharges(remaining: map<Guid, int>, budget: int, absent: seq<Guid>,
                                       elapsed: nat, u: Guid)
    requires Left(remaining, budget, u) >= 0
    ensures var after := Away(remaining, budget, absent, elapsed).remaining;
            Left(after, budget, u) == Max(Left(remaining, budget, u) - Times(absent, u) * elapsed, 0)
    decreases |absent|
  {
    if absent != [] {
      var front := absent[..|absent| - 1];
      AwayCharges(remaining, budget, front, elapsed, u);
      assert (Times(front, u) + 1) * elapsed == Times(front, u) * elapsed + elapsed;
    }
  }

  /** What one check costs one player: the time since the last one, once for
      pausing on its own account and once more each time it is awaited. */
  lemma CheckCosts(s: BudgetState, now: int, players: nat, absent: seq<Guid>, u: Guid)
    requires Left(s.remaining, s.budget, u) >= 0
    ensures var after := Checked(s, now, players, absent).0;
            var shares := (if u in s.pausing && !AllPausing(s, players) then 1 else 0) + Times(absent, u);
            Left(after.remaining, after.budget, u)
            == Max(Left(s.remaining, s.budget, u) - shares * Elapsed(s, now), 0)
  {
    hide Away, Times, Elapsed, PausersChecked, AllPausing;
    PausersPay(s, now, players, u);
    assert Checked(s, now, players, absent).0.remaining
        == Away(PausersChecked(s, now, players).0.remaining, s.budget, absent, Elapsed(s, now)).remaining;
    hide Checked, AbsentChecked, Left;
    var e, n, left := Elapsed(s, now), Times(absent, u), Left(s.remaining, s.budget, u);
    var first := if u in s.pausing && !AllPausing(s, players) then 1 else 0;
    AwayCharges(PausersChecked(s, now, players).0.remaining, s.budget, absent, e, u);
    TwoBills(left, first, n, e);
  }

  lemma PausersPay(s: BudgetState, now: int, players: nat, u: Guid)
    requires Left(s.remaining, s.budget, u) >= 0
    ensures var s1 := PausersChecked(s, now, players).0;
            && s1.budget == s.budget
            && Left(s1.remaining, s.budget, u)
               == Max(Left(s.remaining, s.budget, u)
                      - (if u in s.pausing && !AllPausing(s, players) then 1 else 0) * Elapsed(s, now), 0)
  {
  }

  lemma TwoBills(left: int, a: nat, b: nat, elapsed: nat)
    requires left >= 0
    ensures Max(Max(left - a * elapsed, 0) - b * elapsed, 0) == Max(left - (a + b) * elapsed, 0)
  {
    assert (a + b) * elapsed == a * elapsed + b * elapsed;
    assert b * elapsed >= 0;
  }

  /** A player both pausing and absent pays twice for the same time. */
  lemma PausingAndAbsentPaysTwice(s: BudgetState, now: int, players: nat, absent: seq<Guid>, u: Guid)
    requires Left(s.remaining, s.budget, u) >= 0 && u in s.pausing && !AllPausing(s, players)
    requires Distinct(absent) && u in absent
    ensures var after := Checked(s, now, players, absent).0;
            Left(after.remaining, after.budget, u)
            == Max(Left(s.remaining, s.budget, u) - 2 * Elapsed(s, now), 0)
  {
    CheckCosts(s, now, players, absent, u);
    OnceEach(absent, u);
  }

  lemma {:induction false} OnceEach(us: seq<Guid>, u: Guid)
    requires Distinct(us)
    ensures Times(us, u) == if u in us then 1 else 0
    decreases |us|
  {
    if us != [] {
      var front := us[..|us| - 1];
      assert us == front + [us[|us| - 1]];
      OnceEach(front, u);
    }
  }

  // ---- who is waited for ----

  lemma OneWaits(a: Absence, budget: int, last: Guid, elapsed: nat, u: Guid)
    ensures var after := AwayOne(a, budget, last, elapsed);
            && (u in after.waiting <==> u in a.waiting || (u == last && Left(after.remaining, budget, u) > 0))
            && (u in after.expired <==>
                  u in a.expired
                  || (u == last && Left(a.remaining, budget, u) > 0 && Left(after.remaining, budget, u) <= 0))
            && (u != last ==> Left(after.remaining, budget, u) == Left(a.remaining, budget, u))
  {
  }

  lemma {:induction false} AwayWaits(remaining: map<Guid, int>, budget: int, absent: seq<Guid>, elapsed: nat, u: Guid)
    requires Distinct(absent)
    ensures var a := Away(remaining, budget, absent, elapsed);
            && (u in a.waiting <==> u in absent && Left(a.remaining, budget, u) > 0)
            && (u in a.expired <==> u in absent && Left(remaining, budget, u) > 0 && Left(a.remaining, budget, u) <= 0)
    decreases |absent|
  {
    if absent != [] {
      var front, last := absent[..|absent| - 1], absent[|absent| - 1];
      assert absent == front + [last];
      AwayWaits(remaining, budget, front, elapsed, u);
      AwayLeaves(remaining, budget, front, elapsed, last);
      OneWaits(Away(remaining, budget, front, elapsed), budget, last, elapsed, u);
      hide AwayOne, Left;
    }
  }

  lemma {:induction false} ExpiredTold(expired: seq<Guid>, u: Guid)
    ensures AbsentExpired(u) in AbsentEvents(expired) <==> u in expired
    decreases |expired|
  {
    if expired != [] {
      var front, last := expired[..|expired| - 1], expired[|expired| - 1];
      ExpiredTold(front, u);
      assert expired == front + [last];
    }
  }

  /** Those of the absent who have quota left, in the order they are listed. */
  function Owing(absent: seq<Guid>, remaining: map<Guid, int>, budget: int): seq<Guid> {
    if absent == [] then []
    else
      var front, last := absent[..|absent| - 1], absent[|absent| - 1];
      Owing(front, remaining, budget) + if Left(remaining, budget, last) > 0 then [last] else []
  }

  lemma {:induction false} OwingSame(absent: seq<Guid>, a: map<Guid, int>, b: map<Guid, int>, budget: int)
    requires forall u | u in absent :: Left(a, budget, u) == Left(b, budget, u)
    ensures Owing(absent, a, budget) == Owing(absent, b, budget)
    decreases |absent|
  {
    if absent != [] {
      OwingSame(absent[..|absent| - 1], a, b, budget);
    }
  }

  lemma {:induction false} AwayOwes(remaining: map<Guid, int>, budget: int, absent: seq<Guid>, elapsed: nat)
    requires Distinct(absent)
    ensures var a := Away(remaining, budget, absent, elapsed);
            a.waiting == Owing(absent, a.remaining, budget)
    decreases |absent|
  {
    if absent != [] {
      var front := absent[..|absent| - 1];
      AwayOwes(remaining, budget, front, elapsed);
      OwingSame(front, Away(remaining, budget, front, elapsed).remaining,
                Away(remaining, budget, absent, elapsed).remaining, budget);
    }
  }

  lemma {:induction false} OwingIs(absent: seq<Guid>, remaining: map<Guid, int>, budget: int, u: Guid)
    ensures u in Owing(absent, remaining, budget) <==> u in absent && Left(remaining, budget, u) > 0
    decreases |absent|
  {
    if absent != [] {
      var front, last := absent[..|absent| - 1], absent[|absent| - 1];
      assert absent == front + [last];
      OwingIs(front, remaining, budget, u);
    }
  }

  lemma {:induction false} OnlyAbsences(expired: seq<Guid>)
    ensures forall e | e in AbsentEvents(expired) :: e.AbsentExpired?
    decreases |expired|
  {
    if expired != [] {
      OnlyAbsences(expired[..|expired| - 1]);
    }
  }

  /** After a check the match is held exactly if somebody absent has quota left,
      whoever is pausing has quota left, and an absent player is told of exactly
      as its quota runs out. */
  lemma HeldWhileOwed(s: BudgetState, now: int, players: nat, absent: seq<Guid>, u: Guid)
    requires Distinct(absent)
    ensures var (after, events) := Checked(s, now, players, absent);
            var mid := PausersChecked(s, now, players).0;
            && (after.autoPaused <==> exists w :: w in absent && Left(after.remaining, after.budget, w) > 0)
            && (u in after.pausing <==> u in s.pausing && Left(mid.remaining, mid.budget, u) > 0)
            && (AbsentExpired(u) in events
                <==> u in absent && Left(mid.remaining, mid.budget, u) > 0
                     && Left(after.remaining, after.budget, u) <= 0)
  {
    hide Drained;
    var (mid, first) := PausersChecked(s, now, players);
    var a := Away(mid.remaining, mid.budget, absent, Elapsed(s, now));
    AwayWaits(mid.remaining, mid.budget, absent, Elapsed(s, now), u);
    ExpiredTold(a.expired, u);
    forall w ensures w in a.waiting <==> w in absent && Left(a.remaining, mid.budget, w) > 0 {
      AwayWaits(mid.remaining, mid.budget, absent, Elapsed(s, now), w);
    }
    assert a.waiting != [] ==> a.waiting[0] in a.waiting;
    hide Away, AbsentEvents, Elapsed;
  }

  lemma PausersTell(s: BudgetState, now: int, players: nat, us: set<Guid>)
    ensures var (mid, first) := PausersChecked(s, now, players);
            && (CoordinatedStarted in first <==> AllPausing(s, players) && !s.coordinated)
            && (CoordinatedEnded in first <==> !AllPausing(s, players) && s.coordinated)
            && (Expired(us) in first <==> us == s.pausing - mid.pausing != {})
            && (forall e | e in first :: e.CoordinatedStarted? || e.CoordinatedEnded? || e.Expired?)
            && (mid.coordinated <==> AllPausing(s, players))
            && mid.autoPaused == s.autoPaused && mid.budget == s.budget
  {
    hide Drained, Elapsed;
    var mid := PausersChecked(s, now, players).0;
    assert Spent(mid.remaining, s.budget, s.pausing) == s.pausing - mid.pausing;
    hide Spent;
  }

  lemma AbsentTell(s: BudgetState, absent: seq<Guid>, elapsed: nat, awaited: seq<Guid>)
    requires Distinct(absent)
    ensures var (after, rest) := AbsentChecked(s, absent, elapsed);
            var owing := Owing(absent, after.remaining, after.budget);
            && (AutoPauseStarted(awaited) in rest <==> awaited == owing != [] && !s.autoPaused)
            && (AutoPauseEnded in rest <==> owing == [] && s.autoPaused)
            && (forall e | e in rest :: e.AbsentExpired? || e.AutoPauseStarted? || e.AutoPauseEnded?)
            && after == s.(remaining := after.remaining, autoPaused := owing != [])
  {
    var a := Away(s.remaining, s.budget, absent, elapsed);
    AwayOwes(s.remaining, s.budget, absent, elapsed);
    OnlyAbsences(a.expired);
    hide Away, AbsentEvents, Owing;
  }

  /** And what a check tells: of an agreed pause as it begins and ends, of those
      whose pause it ended, and of a match it holds, for whom, or lets go. */
  lemma CheckTells(s: BudgetState, now: int, players: nat, absent: seq<Guid>, us: set<Guid>, awaited: seq<Guid>)
    requires Distinct(absent)
    ensures var (after, events) := Checked(s, now, players, absent);
            var owing := Owing(absent, after.remaining, after.budget);
            && (CoordinatedStarted in events <==> AllPausing(s, players) && !s.coordinated)
            && (CoordinatedEnded in events <==> !AllPausing(s, players) && s.coordinated)
            && (Expired(us) in events <==> us == s.pausing - after.pausing != {})
            && (AutoPauseStarted(awaited) in events <==> awaited == owing != [] && !s.autoPaused)
            && (AutoPauseEnded in events <==> owing == [] && s.autoPaused)
            && (after.coordinated <==> AllPausing(s, players))
            && (after.autoPaused <==> owing != [])
  {
    hide PausersChecked, AbsentChecked, Elapsed, Owing, AllPausing;
    var mid := PausersChecked(s, now, players).0;
    PausersTell(s, now, players, us);
    AbsentTell(mid, absent, Elapsed(s, now), awaited);
  }

  /** Only a player who is pausing has a pause to answer for, in any run. */
  lemma OnlyPausersAnswer(budget: int, minCharge: int, steps: seq<Step>)
    ensures var s := Play(NewBudget(budget, minCharge), steps); s.pausedAt.Keys <= s.pausing
  {
    AnswersKept(NewBudget(budget, minCharge), steps);
  }

  lemma {:induction false} AnswersKept(s: BudgetState, steps: seq<Step>)
    requires s.pausedAt.Keys <= s.pausing
    ensures Play(s, steps).pausedAt.Keys <= Play(s, steps).pausing
    decreases |steps|
  {
    if steps != [] {
      hide Drained, Away, Spent;
      AnswersKept(Next(s, steps[0]), steps[1..]);
    }
  }

  // ---- starts and ends ----

  function Marks(events: seq<Event>): seq<bool> {
    if events == [] then []
    else
      Marks(events[..|events| - 1])
      + (match events[|events| - 1]
         case AutoPauseStarted(_) => [true]
         case AutoPauseEnded => [false]
         case _ => [])
  }

  function Told(s: BudgetState, steps: seq<Step>): seq<bool>
    decreases |steps|
  {
    if steps == [] then []
    else
      (match steps[0]
       case Check(now, players, absent) => Marks(Checked(s, now, players, absent).1)
       case _ => [])
      + Told(Next(s, steps[0]), steps[1..])
  }

  /** Each mark says the opposite of what held before it. */
  predicate Toggles(before: bool, marks: seq<bool>, after: bool)
    decreases |marks|
  {
    if marks == [] then before == after
    else marks[0] != before && Toggles(marks[0], marks[1..], after)
  }

  lemma {:induction false} MarksAppend(a: seq<Event>, b: seq<Event>)
    ensures Marks(a + b) == Marks(a) + Marks(b)
    decreases |b|
  {
    if b == [] {
      assert a + b == a;
    } else {
      assert (a + b)[..|a + b| - 1] == a + b[..|b| - 1];
      MarksAppend(a, b[..|b| - 1]);
    }
  }

  lemma {:induction false} AbsentMarks(expired: seq<Guid>)
    ensures Marks(AbsentEvents(expired)) == []
    decreases |expired|
  {
    if expired != [] {
      AbsentMarks(expired[..|expired| - 1]);
    }
  }

  lemma AwayMarks(s: BudgetState, absent: seq<Guid>, elapsed: nat)
    ensures var (after, events) := AbsentChecked(s, absent, elapsed);
            Marks(events) == if after.autoPaused == s.autoPaused then [] else [after.autoPaused]
  {
    hide Away;
    var a := Away(s.remaining, s.budget, absent, elapsed);
    AbsentMarks(a.expired);
    var last := if a.waiting != [] && !s.autoPaused then [AutoPauseStarted(a.waiting)]
                else if a.waiting == [] && s.autoPaused then [AutoPauseEnded] else [];
    assert last != [] ==> last[..|last| - 1] == [];
    hide AbsentEvents;
    MarksAppend(AbsentEvents(a.expired), last);
  }

  lemma CheckMarks(s: BudgetState, now: int, players: nat, absent: seq<Guid>)
    ensures var (after, events) := Checked(s, now, players, absent);
            Marks(events) == if after.autoPaused == s.autoPaused then [] else [after.autoPaused]
  {
    hide PausersChecked, AbsentChecked, Marks;
    var (s1, first) := PausersChecked(s, now, players);
    PauserMarks(s, now, players);
    AwayMarks(s1, absent, Elapsed(s, now));
    MarksAppend(first, AbsentChecked(s1, absent, Elapsed(s, now)).1);
  }

  lemma PauserMarks(s: BudgetState, now: int, players: nat)
    ensures Marks(PausersChecked(s, now, players).1) == []
    ensures PausersChecked(s, now, players).0.autoPaused == s.autoPaused
  {
    hide Spent, Drained;
    var events := PausersChecked(s, now, players).1;
    assert |events| <= 2;
    if |events| == 2 {
      assert events[..1][..0] == [];
      assert Marks(events[..1]) == [];
    } else if |events| == 1 {
      assert events[..0] == [];
    }
  }

  lemma {:induction false} TogglesThen(a: bool, first: seq<bool>, b: bool, rest: seq<bool>, c: bool)
    requires Toggles(a, first, b) && Toggles(b, rest, c)
    ensures Toggles(a, first + rest, c)
    decreases |first|
  {
    if first == [] {
      assert first + rest == rest;
    } else {
      TogglesThen(first[0], first[1..], b, rest, c);
      assert (first + rest)[1..] == first[1..] + rest;
    }
  }

  /** Over any run, the messages that a match is held and that it goes on again
      take turns, and say what the quota module itself has settled on. */
  lemma {:induction false} StartsAndEndsAlternate(s: BudgetState, steps: seq<Step>)
    ensures Toggles(s.autoPaused, Told(s, steps), Play(s, steps).autoPaused)
    decreases |steps|
  {
    if steps != [] {
      var step, after := steps[0], Next(s, steps[0]);
      StartsAndEndsAlternate(after, steps[1..]);
      var marks := match step
                   case Check(now, players, absent) => Marks(Checked(s, now, players, absent).1)
                   case _ => [];
      if step.Check? {
        CheckMarks(s, step.now, step.players, step.absent);
        hide Checked;
      }
      assert Toggles(s.autoPaused, marks, after.autoPaused);
      TogglesThen(s.autoPaused, marks, after.autoPaused, Told(after, steps[1..]), Play(s, steps).autoPaused);
    }
  }
}
