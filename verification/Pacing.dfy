/** The wall-clock pace of a scripted match: how many turns the clock has made
    due, and how the anchor it is counted from moves. Times are nanoseconds. */
module Pacing {
  import opened Arith
  import opened Prelude
  import opened Turns
  import opened Lockstep

  const PACE_BACKLOG_TURNS: int := 2
  const US: int := 1000

  datatype Pace = Pace(interval: int, anchor: Option<int>)

  function IntervalUs(interval: int): int { Max(interval / US, 1) }

  /** How many turns are due, and the anchor they are counted from. */
  function Allowance(p: Pace, now: Option<int>): (Pace, nat)
    requires p.interval > 0
  {
    if now.None? then (p, 0)
    else
      var anchor := if p.anchor.Some? then p.anchor.value else now.value;
      var elapsed := now.value - anchor;
      // A clock that stepped back starts over rather than stalling.
      if elapsed < 0 then (p.(anchor := now), 0)
      else if elapsed > p.interval * PACE_BACKLOG_TURNS then
        (p.(anchor := Some(now.value - p.interval)), 1)
      else (p.(anchor := Some(anchor)), Min(elapsed / US / IntervalUs(p.interval), PACE_BACKLOG_TURNS))
  }

  function Advanced(p: Pace, released: nat): Pace {
    if p.anchor.None? then p else p.(anchor := Some(p.anchor.value + p.interval * released))
  }

  /** One paced release: the anchor afterwards, and the turns released. */
  function PacedRelease(p: Pace, now: Option<int>, t: TurnState, lag: Option<nat>): (Pace, nat)
    requires p.interval > 0
  {
    var (p1, due) := Allowance(p, now);
    var released := ReleaseCount(t, lag, Some(due), true);
    (Advanced(p1, released), released)
  }

  class Pacer {
    const interval: int
    var anchor: Option<int>

    function State(): Pace
      reads this
    {
      Pace(interval, anchor)
    }

    constructor (interval: int)
      ensures State() == Pace(interval, None)
    {
      this.interval, anchor := interval, None;
    }

    method ClockAllowance(now: Option<int>) returns (due: nat)
      requires interval > 0
      modifies this
      ensures (State(), due) == Allowance(old(State()), now)
    {
      if now.None? {
        return 0;
      }
      if anchor.None? {
        anchor := now;
      }
      var elapsed := now.value - anchor.value;
      if elapsed < 0 {
        anchor := now;
        return 0;
      }
      if elapsed > interval * PACE_BACKLOG_TURNS {
        anchor := Some(now.value - interval);
        return 1;
      }
      return Min(elapsed / US / IntervalUs(interval), PACE_BACKLOG_TURNS);
    }

    method ReleaseTurns(turns: TurnManager, now: Option<int>, lag: Option<nat>) returns (released: seq<nat>)
      requires interval > 0 && turns.Valid()
      modifies this, turns
      ensures turns.Valid()
      ensures turns.State() == old(turns.State()).(ready := turns.readyTurn)
      ensures old(turns.readyTurn) <= turns.readyTurn
      ensures released == Run(old(turns.readyTurn), turns.readyTurn)
      ensures (State(), |released|) == PacedRelease(old(State()), now, old(turns.State()), lag)
    {
      hide WellFormed, EveryoneAhead;
      var due := ClockAllowance(now);
      released := turns.ReleasePaced(lag, Some(due));
      if anchor.Some? {
        anchor := Some(anchor.value + interval * |released|);
      }
    }
  }

  // ---- one release ----

  predicate WholeUs(interval: int) { interval > 0 && interval % US == 0 }

  lemma DueFits(elapsed: int, interval: int, n: nat)
    requires WholeUs(interval) && elapsed >= 0 && n <= elapsed / US / IntervalUs(interval)
    ensures n * interval <= elapsed
  {
    DivModIs(interval, US);
    assert interval / US > 0 && interval / US * US == interval;
    DivDiv(elapsed, US, interval / US);
    DivModIs(elapsed, interval);
    MulLe(n, elapsed / interval, interval);
  }

  /** The anchor never passes the clock and never moves back, and each turn
      released moves it a whole interval on from no further back than two. */
  lemma AnchorMoves(p: Pace, now: int, t: TurnState, lag: Option<nat>)
    requires WholeUs(p.interval) && (p.anchor.Some? ==> p.anchor.value <= now)
    ensures var (after, n) := PacedRelease(p, Some(now), t, lag);
            && after.interval == p.interval && after.anchor.Some?
            && after.anchor.value <= now
            && (p.anchor.Some? ==> p.anchor.value <= after.anchor.value)
            && n <= PACE_BACKLOG_TURNS
            && after.anchor.value
               >= n * p.interval + Max(if p.anchor.Some? then p.anchor.value else now,
                                       now - PACE_BACKLOG_TURNS * p.interval)
  {
    var (p1, due) := Allowance(p, Some(now));
    var n := ReleaseCount(t, lag, Some(due), true);
    ReleaseBelowSeals(t, lag, Some(due), true);
    var anchor := if p.anchor.Some? then p.anchor.value else now;
    var elapsed := now - anchor;
    MulLe(0, n, p.interval);
    if elapsed <= p.interval * PACE_BACKLOG_TURNS {
      DueFits(elapsed, p.interval, n);
    } else {
      MulLe(n, 1, p.interval);
    }
  }

  /** Time lost beyond two intervals is not made up: one turn is due at once, and
      the next only a whole interval later. */
  lemma LostTimeIsLost(p: Pace, now: int, t: TurnState, lag: Option<nat>, later: int)
    requires WholeUs(p.interval) && p.anchor.Some?
    requires now - p.anchor.value > PACE_BACKLOG_TURNS * p.interval
    requires now <= later
    ensures var (after, n) := PacedRelease(p, Some(now), t, lag);
            && n <= 1
            && (n == 1 && later < now + p.interval ==> Allowance(after, Some(later)).1 == 0)
  {
    ReleaseBelowSeals(t, lag, Some(1), true);
    var (after, n) := PacedRelease(p, Some(now), t, lag);
    if n == 1 && later < now + p.interval {
      var due := Allowance(after, Some(later)).1;
      DueFits(later - now, p.interval, due);
      if due >= 1 {
        MulLe(1, due, p.interval);
      }
    }
  }

  // ---- runs ----

  // What the other handlers have made of the turns by then is arbitrary.
  datatype Tick = Tick(now: int, turns: TurnState, lag: Option<nat>)

  predicate Timed(from: int, ticks: seq<Tick>)
    decreases |ticks|
  {
    ticks == [] || (from <= ticks[0].now && Timed(ticks[0].now, ticks[1..]))
  }

  /** The turns released over a run. */
  function TurnsOver(p: Pace, ticks: seq<Tick>): nat
    requires p.interval > 0
    decreases |ticks|
  {
    if ticks == [] then 0
    else
      var (after, n) := PacedRelease(p, Some(ticks[0].now), ticks[0].turns, ticks[0].lag);
      n + TurnsOver(after, ticks[1..])
  }

  function AnchorFrom(p: Pace, from: int): int {
    Max(if p.anchor.Some? then p.anchor.value else from, from - PACE_BACKLOG_TURNS * p.interval)
  }

  lemma {:induction false} TurnsCostTime(p: Pace, ticks: seq<Tick>, from: int, upTo: int)
    requires WholeUs(p.interval) && (p.anchor.Some? ==> p.anchor.value <= from)
    requires Timed(from, ticks) && from <= upTo && (ticks != [] ==> ticks[|ticks| - 1].now <= upTo)
    ensures TurnsOver(p, ticks) * p.interval <= upTo - AnchorFrom(p, from)
    decreases |ticks|
  {
    if ticks != [] {
      var tick, rest := ticks[0], ticks[1..];
      AnchorMoves(p, tick.now, tick.turns, tick.lag);
      hide PacedRelease;
      var (after, n) := PacedRelease(p, Some(tick.now), tick.turns, tick.lag);
      EndsBy(tick.now, rest, upTo);
      TurnsCostTime(after, rest, tick.now, upTo);
      var more := TurnsOver(after, rest);
      assert (n + more) * p.interval == n * p.interval + more * p.interval;
    }
  }

  lemma {:induction false} EndsBy(from: int, ticks: seq<Tick>, upTo: int)
    requires Timed(from, ticks) && (ticks != [] ==> ticks[|ticks| - 1].now <= upTo)
    ensures ticks != [] ==> from <= upTo
    decreases |ticks|
  {
    if ticks != [] {
      EndsBy(ticks[0].now, ticks[1..], upTo);
    }
  }

  /** In any window of length T a scripted match releases at most T / interval + 2
      turns, whatever its clients do. */
  lemma PaceBound(p: Pace, ticks: seq<Tick>, from: int, upTo: int)
    requires WholeUs(p.interval) && (p.anchor.Some? ==> p.anchor.value <= from)
    requires Timed(from, ticks) && from <= upTo && (ticks != [] ==> ticks[|ticks| - 1].now <= upTo)
    ensures TurnsOver(p, ticks) <= (upTo - from) / p.interval + PACE_BACKLOG_TURNS
  {
    TurnsCostTime(p, ticks, from, upTo);
    Floor(TurnsOver(p, ticks), PACE_BACKLOG_TURNS, upTo - from, p.interval);
  }

  // ---- keeping pace ----

  /** Somebody plays, and nobody lags behind either of the next two turns. */
  ghost predicate Ample(t: TurnState, lag: Option<nat>) {
    Paced(t, true) && forall p | p in t.clients :: !Lags(t.clients[p], lag, t.ready + 1)
  }

  lemma AmpleReleases(t: TurnState, lag: Option<nat>, due: nat)
    requires Ample(t, lag) && due <= 2
    ensures ReleaseCount(t, lag, Some(due), true) == due
  {
    hide ReleaseCount;
    assert forall p | p in t.clients && Lags(t.clients[p], lag, t.ready) :: Lags(t.clients[p], lag, t.ready + 1);
    ReleaseExactly(t, lag, Some(due), true);
  }

  /** No tick comes later than two intervals after the last turn that was due. */
  predicate OnTime(start: int, interval: int, from: int, ticks: seq<Tick>)
    requires interval > 0
    decreases |ticks|
  {
    ticks == []
    || (ticks[0].now <= start + ((from - start) / interval + 2) * interval
        && OnTime(start, interval, ticks[0].now, ticks[1..]))
  }

  lemma Shift(x: int, n: int, interval: int)
    requires interval > 0
    ensures (x - n * interval) / interval == x / interval - n
  {
    DivModIs(x, interval);
    DivModIs(x - n * interval, interval);
    var q, r := x / interval, (x - n * interval) / interval;
    assert (q - n - r) * interval == (x - n * interval) % interval - x % interval;
    if q - n - r >= 1 {
      MulLe(1, q - n - r, interval);
    } else if q - n - r <= -1 {
      MulLe(q - n - r, -1, interval);
    }
  }

  lemma {:induction false} OnTimeShifts(start: int, n: int, interval: int, from: int, ticks: seq<Tick>)
    requires interval > 0 && OnTime(start, interval, from, ticks)
    ensures OnTime(start + n * interval, interval, from, ticks)
    decreases |ticks|
  {
    if ticks != [] {
      OnTimeShifts(start, n, interval, ticks[0].now, ticks[1..]);
      Shift(from - start, n, interval);
      var k := (from - start) / interval;
      assert (k - n + 2) * interval + n * interval == (k + 2) * interval;
    }
  }

  /** What is due within two intervals is every whole interval gone by. */
  lemma DueIsWhole(p: Pace, now: int)
    requires WholeUs(p.interval) && p.anchor.Some? && 0 <= now - p.anchor.value <= 2 * p.interval
    ensures Allowance(p, Some(now)).0 == p
    ensures Allowance(p, Some(now)).1 == (now - p.anchor.value) / p.interval <= 2
  {
    var elapsed := now - p.anchor.value;
    DivModIs(p.interval, US);
    assert p.interval / US > 0 && p.interval / US * US == p.interval;
    DivDiv(elapsed, US, p.interval / US);
    DivModIs(elapsed, p.interval);
    if elapsed / p.interval >= 3 {
      MulLe(3, elapsed / p.interval, p.interval);
    }
  }

  /** As long as turns enough are sealed and the clock is looked at in time, every
      interval gone by has released its turn, neither more nor less. */
  lemma {:induction false} PaceKept(p: Pace, ticks: seq<Tick>, from: int)
    requires WholeUs(p.interval) && p.anchor.Some? && p.anchor.value <= from < p.anchor.value + p.interval
    requires Timed(from, ticks) && OnTime(p.anchor.value, p.interval, from, ticks)
    requires forall t | t in ticks :: Ample(t.turns, t.lag)
    ensures TurnsOver(p, ticks)
         == ((if ticks == [] then from else ticks[|ticks| - 1].now) - p.anchor.value) / p.interval
    decreases |ticks|
  {
    var a, i := p.anchor.value, p.interval;
    DivModIs(from - a, i);
    Whole(from - a, i);
    if ticks != [] {
      var tick, rest := ticks[0], ticks[1..];
      assert tick in ticks && forall t | t in rest :: t in ticks;
      assert tick.now <= a + 2 * i;
      DueIsWhole(p, tick.now);
      var n := (tick.now - a) / i;
      AmpleReleases(tick.turns, tick.lag, n);
      hide Allowance, ReleaseCount, Ample;
      var after := Advanced(p, n);
      assert PacedRelease(p, Some(tick.now), tick.turns, tick.lag) == (after, n);
      DivModIs(tick.now - a, i);
      OnTimeShifts(a, n, i, tick.now, rest);
      PaceKept(after, rest, tick.now);
      var last := ticks[|ticks| - 1].now;
      assert last == if rest == [] then tick.now else rest[|rest| - 1].now;
      assert TurnsOver(p, ticks) == n + TurnsOver(after, rest);
      hide TurnsOver, OnTime, Timed, PacedRelease;
      Shift(last - a, n, i);
      assert last - after.anchor.value == last - a - n * i;
    }
  }

  lemma Whole(x: int, interval: int)
    requires 0 <= x < interval
    ensures x / interval == 0
  {
  }

  /** After a stop of more than two intervals exactly one turn is due at once. */
  lemma OneAfterAStop(p: Pace, now: int)
    requires p.interval > 0 && p.anchor.Some? && now - p.anchor.value > 2 * p.interval
    ensures Allowance(p, Some(now)) == (p.(anchor := Some(now - p.interval)), 1)
  {
  }

  /** Whatever the clock did before, a turn is due an interval after any look,
      and none at the first. */
  lemma DueAfterAnyLook(p: Pace, now: int)
    requires WholeUs(p.interval)
    ensures var (p1, due) := Allowance(p, Some(now));
            && p1.anchor.Some? && p1.anchor.value <= now && p1.interval == p.interval
            && (p.anchor.None? ==> due == 0 && p1.anchor == Some(now))
            && (p.anchor.Some? && p.anchor.value > now ==> due == 0)
            && 1 <= Allowance(p1, Some(now + p.interval)).1 <= 2
  {
    var p1 := Allowance(p, Some(now)).0;
    var elapsed := now + p.interval - p1.anchor.value;
    DivDiv(elapsed, US, p.interval / US);
    assert US * (p.interval / US) == p.interval;
    DivModIs(elapsed, p.interval);
  }

  // ---- intervals that are no whole number of microseconds ----

  ghost predicate AnchorStaysBehind(interval: int)
    requires interval > 0
  {
    forall elapsed: nat | elapsed <= PACE_BACKLOG_TURNS * interval ::
      Allowance(Pace(interval, Some(0)), Some(elapsed)).1 * interval <= elapsed
  }

  /** The anchor can pass the clock exactly when the interval is over a
      microsecond and not a whole number of them; the configuration rounds it. */
  lemma AnchorStaysBehindIff(interval: int)
    requires interval > 0
    ensures AnchorStaysBehind(interval) <==> interval % US == 0 || interval < US
  {
    if interval % US == 0 {
      forall elapsed: nat | elapsed <= PACE_BACKLOG_TURNS * interval
        ensures Allowance(Pace(interval, Some(0)), Some(elapsed)).1 * interval <= elapsed
      {
        DueFits(elapsed, interval, Allowance(Pace(interval, Some(0)), Some(elapsed)).1);
      }
    } else if interval < US {
      forall elapsed: nat | elapsed <= PACE_BACKLOG_TURNS * interval
        ensures Allowance(Pace(interval, Some(0)), Some(elapsed)).1 * interval <= elapsed
      {
        assert elapsed / US <= 1;
      }
    } else {
      var us := interval / US;
      DivModIs(interval, US);
      var elapsed := us * US;
      assert elapsed < interval && elapsed / US == us && us / us == 1;
      assert Allowance(Pace(interval, Some(0)), Some(elapsed)).1 == 1;
      assert elapsed <= PACE_BACKLOG_TURNS * interval && elapsed >= 0;
    }
  }
}
