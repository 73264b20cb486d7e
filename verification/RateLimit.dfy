/** Flood limits on one connection: a token bucket in thousandths of a message,
    and a quota for each turn still open to commands. */
module RateLimits {
  import opened Arith
  import opened Prelude

  const COST: int := 1000
  const MS: int := 1_000_000

  datatype Verdict = Pass | Drop | Kick

  // ---- the bucket ----

  // Times are nanoseconds on the wall clock.
  datatype BucketState = BucketState(milli: int, rate: nat, burst: nat, last: Option<int>)

  function NewBucket(rate: nat, burst: nat): BucketState {
    BucketState(burst * COST, rate, burst, None)
  }

  /** Whole milliseconds gone by; a clock that stepped back counts for none. */
  function ElapsedMs(last: Option<int>, now: Option<int>): nat {
    if last.Some? && now.Some? && now.value > last.value then (now.value - last.value) / MS else 0
  }

  function Refilled(b: BucketState, now: Option<int>): BucketState {
    if now.None? then b
    else if b.last.None? then b.(last := now)
    else b.(milli := Min(b.milli + ElapsedMs(b.last, now) * b.rate, b.burst * COST), last := now)
  }

  function Taken(b: BucketState, now: Option<int>, kick: nat): (BucketState, Verdict) {
    if b.rate == 0 then (b, Pass)
    else
      var r := Refilled(b, now);
      if r.milli >= COST then (r.(milli := r.milli - COST), Pass)
      else if kick == 0 then (r.(milli := Max(r.milli, 0)), Drop)
      else
        var owed := r.milli - COST;
        (r.(milli := owed), if owed <= -(r.burst * COST * (kick - 1)) then Kick else Drop)
  }

  class TokenBucket {
    var milli: int
    const rate: nat
    const burst: nat
    var last: Option<int>

    function State(): BucketState
      reads this
    {
      BucketState(milli, rate, burst, last)
    }

    constructor (rate: nat, burst: nat)
      ensures State() == NewBucket(rate, burst)
    {
      this.rate, this.burst := rate, burst;
      milli, last := burst * COST, None;
    }

    method Take(now: Option<int>, kick: nat) returns (v: Verdict)
      modifies this
      ensures (State(), v) == Taken(old(State()), now, kick)
    {
      if rate == 0 {
        return Pass;
      }
      var full := burst * COST;
      if now.Some? {
        if last.Some? {
          var refill := ElapsedMs(last, now) * rate;
          milli := Min(milli + refill, full);
        }
        last := now;
      }
      if milli >= COST {
        milli := milli - COST;
        return Pass;
      }
      if kick == 0 {
        milli := Max(milli, 0);
        return Drop;
      }
      milli := milli - COST;
      var floor := -(full * (kick - 1));
      return if milli <= floor then Kick else Drop;
    }
  }

  // ---- runs of the bucket ----

  datatype Take = Take(now: Option<int>, kick: nat)

  function AfterTakes(b: BucketState, ts: seq<Take>): BucketState {
    if ts == [] then b
    else Taken(AfterTakes(b, ts[..|ts| - 1]), ts[|ts| - 1].now, ts[|ts| - 1].kick).0
  }

  function VerdictAt(b: BucketState, ts: seq<Take>, i: nat): Verdict
    requires i < |ts|
  {
    Taken(AfterTakes(b, ts[..i]), ts[i].now, ts[i].kick).1
  }

  function Passes(b: BucketState, ts: seq<Take>): nat {
    if ts == [] then 0
    else
      Passes(b, ts[..|ts| - 1])
      + (if Taken(AfterTakes(b, ts[..|ts| - 1]), ts[|ts| - 1].now, ts[|ts| - 1].kick).1.Pass? then 1 else 0)
  }

  /** The time that went by, steps back not counted. */
  function TimeRun(b: BucketState, ts: seq<Take>): nat {
    if ts == [] then 0
    else TimeRun(b, ts[..|ts| - 1]) + ElapsedMs(AfterTakes(b, ts[..|ts| - 1]).last, ts[|ts| - 1].now)
  }

  lemma TakeStep(b: BucketState, now: Option<int>, kick: nat)
    requires b.rate > 0 && b.milli <= b.burst * COST
    ensures var (e, v) := Taken(b, now, kick);
            && e.rate == b.rate && e.burst == b.burst && e.milli <= e.burst * COST
            && Max(e.milli, 0) + (if v.Pass? then COST else 0)
               <= Max(b.milli, 0) + b.rate * ElapsedMs(b.last, now)
            && e.milli >= b.milli - COST
            && (v.Kick? ==> kick > 0 && e.milli <= -(b.burst * COST * (kick - 1)))
  {
    assert ElapsedMs(b.last, now) * b.rate == b.rate * ElapsedMs(b.last, now) >= 0;
  }

  lemma {:induction false} BucketRun(rate: nat, burst: nat, ts: seq<Take>)
    requires rate > 0
    ensures var b, e := NewBucket(rate, burst), AfterTakes(NewBucket(rate, burst), ts);
            && e.rate == rate && e.burst == burst && e.milli <= burst * COST
            && Passes(b, ts) * COST + Max(e.milli, 0) <= burst * COST + rate * TimeRun(b, ts)
            && e.milli >= burst * COST - |ts| * COST
    decreases |ts|
  {
    if ts != [] {
      var b, front := NewBucket(rate, burst), ts[..|ts| - 1];
      BucketRun(rate, burst, front);
      var e, t := AfterTakes(b, front), ts[|ts| - 1];
      TakeStep(e, t.now, t.kick);
      hide Taken, ElapsedMs;
      Distributes(rate, TimeRun(b, front), ElapsedMs(e.last, t.now));
    }
  }

  /** In every run, clock steps back and changes of the kick multiple included,
      no more gets through than the burst and the rate allow. */
  lemma PassBound(rate: nat, burst: nat, ts: seq<Take>)
    requires rate > 0
    ensures Passes(NewBucket(rate, burst), ts) * COST
         <= burst * COST + rate * TimeRun(NewBucket(rate, burst), ts)
  {
    BucketRun(rate, burst, ts);
  }

  /** Only a flood is kicked: at least the multiple times the burst was sent. */
  lemma KickMeansFlood(rate: nat, burst: nat, ts: seq<Take>, i: nat)
    requires i < |ts| && VerdictAt(NewBucket(rate, burst), ts, i).Kick?
    ensures i + 1 >= ts[i].kick * burst && rate > 0 && ts[i].kick > 0
  {
    var b, k := NewBucket(rate, burst), ts[i].kick;
    if rate == 0 {
      NeverLimited(b, ts[..i]);
    } else {
      BucketRun(rate, burst, ts[..i]);
      TakeStep(AfterTakes(b, ts[..i]), ts[i].now, k);
      hide Taken, AfterTakes;
      Distributes(burst * COST, k, -1);
      FloodSize(burst, k, i + 1);
    }
  }

  lemma FloodSize(burst: nat, kick: nat, n: nat)
    requires burst * COST * kick <= n * COST
    ensures kick * burst <= n
  {
    assert burst * COST * kick == kick * burst * COST;
  }

  lemma {:induction false} NeverLimited(b: BucketState, ts: seq<Take>)
    requires b.rate == 0
    ensures AfterTakes(b, ts) == b
    decreases |ts|
  {
    if ts != [] {
      NeverLimited(b, ts[..|ts| - 1]);
    }
  }

  // ---- who is let through ----

  /** What was sent from j to k keeps to the burst and the rate. */
  predicate Keeps(rate: nat, burst: nat, ts: seq<Take>, j: nat, k: nat)
    requires j <= k < |ts|
  {
    var b := NewBucket(rate, burst);
    (k - j + 1) * COST <= burst * COST + rate * (TimeRun(b, ts[..k + 1]) - TimeRun(b, ts[..j + 1]))
  }

  ghost predicate WithinRate(rate: nat, burst: nat, ts: seq<Take>) {
    forall j, k | 0 <= j <= k < |ts| :: Keeps(rate, burst, ts, j, k)
  }

  lemma WithinFront(rate: nat, burst: nat, ts: seq<Take>)
    requires ts != [] && WithinRate(rate, burst, ts)
    ensures WithinRate(rate, burst, ts[..|ts| - 1])
  {
    var front := ts[..|ts| - 1];
    forall j, k | 0 <= j <= k < |front| ensures Keeps(rate, burst, front, j, k) {
      assert Keeps(rate, burst, ts, j, k);
      assert front[..k + 1] == ts[..k + 1] && front[..j + 1] == ts[..j + 1];
    }
    hide TimeRun;
  }

  lemma RefilledIs(b: BucketState, now: Option<int>)
    requires b.milli <= b.burst * COST
    ensures Refilled(b, now).milli == Min(b.milli + b.rate * ElapsedMs(b.last, now), b.burst * COST)
  {
    assert ElapsedMs(b.last, now) * b.rate == b.rate * ElapsedMs(b.last, now) >= 0;
  }

  lemma TakenPasses(b: BucketState, now: Option<int>, kick: nat)
    requires b.rate > 0 && b.milli <= b.burst * COST
    ensures var level := Min(b.milli + b.rate * ElapsedMs(b.last, now), b.burst * COST);
            level >= COST ==> Taken(b, now, kick).1.Pass? && Taken(b, now, kick).0.milli == level - COST
  {
    RefilledIs(b, now);
  }

  /** How the level goes on from a stretch that began at `t0`. */
  lemma LevelOn(rate: nat, full: int, n: nat, i: nat, level: int, t0: int, t1: int, dt: nat) returns (j: nat)
    requires i < n && level == full - (n - i) * COST + rate * (t1 - t0) && full >= COST
    requires (n - i + 1) * COST <= full + rate * (t1 + dt - t0)
    ensures Min(level + rate * dt, full) >= COST
    ensures j == i || j == n
    ensures Min(level + rate * dt, full) - COST
         == full - (n + 1 - j) * COST + if j == i then rate * (t1 + dt - t0) else 0
  {
    assert rate * (t1 + dt - t0) == rate * (t1 - t0) + rate * dt;
    j := if level + rate * dt <= full then i else n;
  }

  ghost predicate LevelIs(rate: nat, burst: nat, ts: seq<Take>, j: nat) {
    var b := NewBucket(rate, burst);
    && Passes(b, ts) == |ts| && j < |ts|
    && AfterTakes(b, ts).milli
       == burst * COST - (|ts| - j) * COST + rate * (TimeRun(b, ts) - TimeRun(b, ts[..j + 1]))
  }

  lemma OneMoreTake(rate: nat, burst: nat, ts: seq<Take>)
    requires rate > 0 && ts != []
    ensures var b, front, last := NewBucket(rate, burst), ts[..|ts| - 1], ts[|ts| - 1];
            var e := AfterTakes(b, front);
            var level := Min(e.milli + rate * ElapsedMs(e.last, last.now), burst * COST);
            && TimeRun(b, ts) == TimeRun(b, front) + ElapsedMs(e.last, last.now)
            && (level >= COST ==> AfterTakes(b, ts).milli == level - COST && Passes(b, ts) == Passes(b, front) + 1)
  {
    var b, front, last := NewBucket(rate, burst), ts[..|ts| - 1], ts[|ts| - 1];
    BucketRun(rate, burst, front);
    TakenPasses(AfterTakes(b, front), last.now, last.kick);
    hide Taken, ElapsedMs;
  }

  lemma FirstTake(b: BucketState, now: Option<int>)
    ensures AfterTakes(b, []) == b && Passes(b, []) == 0 && TimeRun(b, []) == 0
    ensures b.last.None? ==> ElapsedMs(b.last, now) == 0
  {
  }

  lemma LevelFirst(rate: nat, burst: nat, ts: seq<Take>)
    requires rate > 0 && |ts| == 1 && burst > 0
    ensures LevelIs(rate, burst, ts, 0)
  {
    var b := NewBucket(rate, burst);
    assert ts[..0] == [] && ts[..1] == ts;
    OneMoreTake(rate, burst, ts);
    FirstTake(b, ts[0].now);
    hide AfterTakes, Passes, TimeRun, ElapsedMs;
    assert burst * COST >= COST;
    assert rate * (TimeRun(b, ts) - TimeRun(b, ts)) == 0;
  }

  lemma LevelStands(rate: nat, burst: nat, ts: seq<Take>, j: nat, time: int)
    requires j < |ts| && Passes(NewBucket(rate, burst), ts) == |ts|
    requires time == TimeRun(NewBucket(rate, burst), ts) - TimeRun(NewBucket(rate, burst), ts[..j + 1])
    requires AfterTakes(NewBucket(rate, burst), ts).milli
          == burst * COST - (|ts| - j) * COST + if j == |ts| - 1 then 0 else rate * time
    ensures LevelIs(rate, burst, ts, j)
  {
    hide AfterTakes, Passes, TimeRun;
    assert ts[..|ts|] == ts;
    assert rate * 0 == 0;
  }

  lemma LevelNext(rate: nat, burst: nat, ts: seq<Take>, i: nat) returns (j: nat)
    requires rate > 0 && |ts| > 1 && burst > 0
    requires LevelIs(rate, burst, ts[..|ts| - 1], i) && Keeps(rate, burst, ts, i, |ts| - 1)
    ensures LevelIs(rate, burst, ts, j)
  {
    var b, n, front := NewBucket(rate, burst), |ts| - 1, ts[..|ts| - 1];
    var e := AfterTakes(b, front);
    OneMoreTake(rate, burst, ts);
    hide AfterTakes, Passes, TimeRun, ElapsedMs;
    assert ts[..n + 1] == ts && front[..i + 1] == ts[..i + 1];
    assert burst * COST >= COST;
    var t0: int, t1: int, dt := TimeRun(b, ts[..i + 1]), TimeRun(b, front), ElapsedMs(e.last, ts[n].now);
    assert i < n && Passes(b, front) == n;
    assert e.milli == burst * COST - (n - i) * COST + rate * (t1 - t0);
    assert (n - i + 1) * COST <= burst * COST + rate * (t1 + dt - t0);
    hide LevelIs, Keeps;
    j := LevelOn(rate, burst * COST, n, i, e.milli, t0, t1, dt);
    LevelStands(rate, burst, ts, j, if j == i then t1 + dt - t0 else 0);
  }

  /** In a run that keeps to the burst and the rate nothing is dropped; the level
      is then what the stretch since the bucket was last full has left of it. */
  lemma {:induction false} AllPass(rate: nat, burst: nat, ts: seq<Take>) returns (j: nat)
    requires rate > 0 && ts != [] && WithinRate(rate, burst, ts)
    ensures LevelIs(rate, burst, ts, j)
    decreases |ts|
  {
    var n := |ts| - 1;
    assert Keeps(rate, burst, ts, n, n);
    assert burst > 0;
    hide LevelIs;
    if n == 0 {
      LevelFirst(rate, burst, ts);
      j := 0;
    } else {
      WithinFront(rate, burst, ts);
      var i := AllPass(rate, burst, ts[..n]);
      assert i < n by { LevelInside(rate, burst, ts[..n], i); }
      assert Keeps(rate, burst, ts, i, n);
      hide Keeps;
      j := LevelNext(rate, burst, ts, i);
    }
  }

  lemma LevelInside(rate: nat, burst: nat, ts: seq<Take>, j: nat)
    requires LevelIs(rate, burst, ts, j)
    ensures j < |ts|
  {
  }

  /** A sender that keeps to the burst and the rate is never dropped. */
  lemma KeptRatePasses(rate: nat, burst: nat, ts: seq<Take>, i: nat)
    requires rate > 0 && i < |ts| && WithinRate(rate, burst, ts)
    ensures VerdictAt(NewBucket(rate, burst), ts, i).Pass?
  {
    WithinPrefix(rate, burst, ts, i + 1);
    var b, upTo := NewBucket(rate, burst), ts[..i + 1];
    var j := AllPass(rate, burst, upTo);
    assert upTo[..|upTo| - 1] == ts[..i] && upTo[|upTo| - 1] == ts[i];
    PassesAtMost(b, ts[..i]);
    assert Passes(b, upTo) == Passes(b, ts[..i]) + (if VerdictAt(b, ts, i).Pass? then 1 else 0);
    hide Taken, WithinRate, AfterTakes;
  }

  lemma WithinPrefix(rate: nat, burst: nat, ts: seq<Take>, n: nat)
    requires n <= |ts| && WithinRate(rate, burst, ts)
    ensures WithinRate(rate, burst, ts[..n])
  {
    forall j, k | 0 <= j <= k < n ensures Keeps(rate, burst, ts[..n], j, k) {
      assert Keeps(rate, burst, ts, j, k);
      assert ts[..n][..k + 1] == ts[..k + 1] && ts[..n][..j + 1] == ts[..j + 1];
    }
    hide TimeRun;
  }

  lemma {:induction false} PassesAtMost(b: BucketState, ts: seq<Take>)
    ensures Passes(b, ts) <= |ts|
    decreases |ts|
  {
    if ts != [] {
      PassesAtMost(b, ts[..|ts| - 1]);
    }
  }

  /** A message that is dropped makes no odds to the next one where nobody is
      kicked, and owes a token where somebody may be; a clock that stepped back
      is counted from where it went. */
  lemma DropMakesNoOdds(b: BucketState, now: Option<int>, kick: nat, later: Option<int>, kickLater: nat)
    requires b.rate > 0 && b.burst > 0 && b.milli <= b.burst * COST && (kick > 0 || b.milli >= 0)
    requires b.last.Some? && now.Some? && !Taken(b, now, kick).1.Pass?
    ensures var owed := if kick > 0 then COST else 0;
            Taken(Taken(b, now, kick).0, later, kickLater).1.Pass?
            <==> b.milli - owed + b.rate * (ElapsedMs(b.last, now) + ElapsedMs(now, later)) >= COST
  {
    var e := Taken(b, now, kick).0;
    RefilledIs(b, now);
    assert b.rate * ElapsedMs(b.last, now) >= 0 && b.burst * COST >= COST;
    assert e.last == now && e.milli <= e.burst * COST;
    RefilledIs(e, later);
    Distributes(b.rate, ElapsedMs(b.last, now), ElapsedMs(now, later));
    hide ElapsedMs, Refilled;
  }

  // ---- all at once ----

  ghost predicate AllAt(ts: seq<Take>, now: Option<int>, kick: nat) {
    forall t | t in ts :: t == Take(now, kick)
  }

  lemma FrontAt(ts: seq<Take>, i: nat, now: Option<int>, kick: nat)
    requires AllAt(ts, now, kick) && i <= |ts|
    ensures AllAt(ts[..i], now, kick)
  {
    assert forall t | t in ts[..i] :: t in ts;
  }

  lemma {:induction false} AtOnceLevel(rate: nat, burst: nat, ts: seq<Take>, now: Option<int>, kick: nat)
    requires rate > 0 && AllAt(ts, now, kick)
    ensures var e := AfterTakes(NewBucket(rate, burst), ts);
            && e.rate == rate && e.burst == burst && (e.last.None? || e.last == now)
            && e.milli == (if kick == 0 then Max(burst - |ts|, 0) else burst - |ts|) * COST
    decreases |ts|
  {
    if ts != [] {
      assert ts[|ts| - 1] in ts;
      FrontAt(ts, |ts| - 1, now, kick);
      AtOnceLevel(rate, burst, ts[..|ts| - 1], now, kick);
    }
  }

  /** Of what is sent at one moment exactly the burst passes; the rest is dropped,
      and kicked for from the kick multiple of the burst on. */
  lemma AtOnce(rate: nat, burst: nat, ts: seq<Take>, now: Option<int>, kick: nat, i: nat)
    requires rate > 0 && AllAt(ts, now, kick) && i < |ts|
    ensures VerdictAt(NewBucket(rate, burst), ts, i)
         == if i < burst then Pass else if kick > 0 && i + 1 >= kick * burst then Kick else Drop
  {
    FrontAt(ts, i, now, kick);
    AtOnceLevel(rate, burst, ts[..i], now, kick);
    assert ts[i] in ts;
    AtOnceVerdict(AfterTakes(NewBucket(rate, burst), ts[..i]), rate, burst, now, kick, i);
    hide Taken, AfterTakes;
  }

  lemma AtOnceVerdict(e: BucketState, rate: nat, burst: nat, now: Option<int>, kick: nat, i: nat)
    requires rate > 0 && e.rate == rate && e.burst == burst && (e.last.None? || e.last == now)
    requires e.milli == (if kick == 0 then Max(burst - i, 0) else burst - i) * COST
    ensures Taken(e, now, kick).1
         == if i < burst then Pass else if kick > 0 && i + 1 >= kick * burst then Kick else Drop
  {
    var r := Refilled(e, now);
    assert r.milli == e.milli && r.rate == rate && r.burst == burst by {
      assert ElapsedMs(e.last, now) == 0;
      RefilledIs(e, now);
    }
    hide Refilled;
    KickAt(burst, kick, i + 1);
  }

  lemma KickAt(burst: nat, kick: nat, n: nat)
    ensures (burst - n) * COST <= -(burst * COST * (kick - 1)) <==> n >= kick * burst
  {
    assert burst * COST * (kick - 1) == burst * (kick - 1) * COST == (kick * burst - burst) * COST;
  }

  // ---- the quota of a turn ----

  datatype TurnUse = TurnUse(turn: nat, count: nat, bytes: nat)

  datatype Caps = Caps(count: nat, bytes: nat, kick: nat)

  predicate Over(used: nat, cap: nat) { cap != 0 && used > cap }

  function Judged(u: TurnUse, caps: Caps): Verdict {
    if !Over(u.count, caps.count) && !Over(u.bytes, caps.bytes) then Pass
    else if caps.kick != 0
            && (Over(u.count, caps.count * caps.kick) || Over(u.bytes, caps.bytes * caps.kick)) then Kick
    else Drop
  }

  // The turns in use, each with what was sent for it.
  type Quota = map<nat, TurnUse>

  function UsedFor(q: Quota, turn: nat): TurnUse {
    if turn in q then q[turn] else TurnUse(turn, 0, 0)
  }

  function StillOpen(q: Quota, ready: nat): Quota { map t | t in q && t > ready :: q[t] }

  /** A command counts for its turn whatever becomes of it, and every turn
      already released is dropped. */
  function Charged(q: Quota, turn: nat, bytes: nat, ready: nat): Quota {
    var used := UsedFor(StillOpen(q, ready), turn);
    StillOpen(q, ready)[turn := used.(count := used.count + 1, bytes := used.bytes + bytes)]
  }

  predicate OncePerTurn(uses: seq<TurnUse>) {
    forall i, j | 0 <= i < j < |uses| :: uses[i].turn != uses[j].turn
  }

  function AsQuota(uses: seq<TurnUse>): Quota {
    if uses == [] then map[]
    else AsQuota(uses[..|uses| - 1])[uses[|uses| - 1].turn := uses[|uses| - 1]]
  }

  lemma {:induction false} QuotaHolds(uses: seq<TurnUse>)
    requires OncePerTurn(uses)
    ensures forall i | 0 <= i < |uses| :: uses[i].turn in AsQuota(uses) && AsQuota(uses)[uses[i].turn] == uses[i]
    ensures forall t | t in AsQuota(uses) :: exists i :: 0 <= i < |uses| && uses[i].turn == t
    decreases |uses|
  {
    if uses != [] {
      var front := uses[..|uses| - 1];
      QuotaHolds(front);
      forall t | t in AsQuota(uses) ensures exists i :: 0 <= i < |uses| && uses[i].turn == t {
        if t in AsQuota(front) {
          var i :| 0 <= i < |front| && front[i].turn == t;
          assert uses[i].turn == t;
        } else {
          assert uses[|uses| - 1].turn == t;
        }
      }
    }
  }

  class TurnQuota {
    var open: seq<TurnUse>

    ghost predicate Valid()
      reads this
    {
      OncePerTurn(open)
    }

    ghost function State(): Quota
      reads this
    {
      AsQuota(open)
    }

    constructor ()
      ensures Valid() && State() == map[]
    {
      open := [];
    }

    method Charge(turn: nat, bytes: nat, ready: nat, caps: Caps) returns (v: Verdict)
      requires Valid()
      modifies this
      ensures Valid() && State() == Charged(old(State()), turn, bytes, ready)
      ensures v == Judged(State()[turn], caps)
    {
      Retain(ready);
      ghost var kept := State();
      var i := FindOrOpen(turn);
      hide AsQuota, StillOpen;
      var used := open[i].(count := open[i].count + 1, bytes := open[i].bytes + bytes);
      UpdatedQuota(open, i, used);
      assert State()[turn := used] == kept[turn := used];
      open := open[i := used];
      if !Over(used.count, caps.count) && !Over(used.bytes, caps.bytes) {
        return Pass;
      }
      if caps.kick != 0
         && (Over(used.count, caps.count * caps.kick) || Over(used.bytes, caps.bytes * caps.kick)) {
        return Kick;
      }
      return Drop;
    }

    method Retain(ready: nat)
      requires Valid()
      modifies this
      ensures Valid() && State() == StillOpen(old(State()), ready)
    {
      var kept: seq<TurnUse> := [];
      var i := 0;
      assert AsQuota(kept) == StillOpen(AsQuota(open[..0]), ready);
      hide AsQuota, StillOpen;
      while i < |open|
        invariant 0 <= i <= |open| && open == old(open)
        invariant OncePerTurn(kept) && forall u | u in kept :: u in open[..i]
        invariant AsQuota(kept) == StillOpen(AsQuota(open[..i]), ready)
      {
        var u := open[i];
        assert open[..i + 1] == open[..i] + [u];
        RetainOne(kept, open[..i], u, ready);
        if u.turn > ready {
          kept := kept + [u];
        }
        i := i + 1;
      }
      assert open[..i] == open;
      open := kept;
    }

    method FindOrOpen(turn: nat) returns (i: nat)
      requires Valid()
      modifies this
      ensures Valid() && i < |open| && open[i].turn == turn && open[i] == UsedFor(old(State()), turn)
      ensures State() == old(State())[turn := open[i]]
    {
      i := Position(turn);
      QuotaHolds(open);
      if i == |open| {
        open := open + [TurnUse(turn, 0, 0)];
        assert open[..i] == old(open);
      }
    }

    method Position(turn: nat) returns (i: nat)
      ensures i <= |open| && (i < |open| ==> open[i].turn == turn)
      ensures forall j | 0 <= j < i :: open[j].turn != turn
    {
      i := 0;
      while i < |open| && open[i].turn != turn
        invariant 0 <= i <= |open|
        invariant forall j | 0 <= j < i :: open[j].turn != turn
      {
        i := i + 1;
      }
    }
  }

  lemma RetainOne(kept: seq<TurnUse>, looked: seq<TurnUse>, u: TurnUse, ready: nat)
    requires OncePerTurn(kept) && OncePerTurn(looked + [u])
    requires forall x | x in kept :: x in looked
    ensures OncePerTurn(kept + [u])
    ensures AsQuota(kept + [u]) == AsQuota(kept)[u.turn := u]
    ensures StillOpen(AsQuota(looked + [u]), ready)
         == if u.turn > ready then StillOpen(AsQuota(looked), ready)[u.turn := u]
            else StillOpen(AsQuota(looked), ready)
  {
    assert (kept + [u])[..|kept|] == kept && (looked + [u])[..|looked|] == looked;
    forall x | x in looked ensures x.turn != u.turn {
      var i :| 0 <= i < |looked| && looked[i] == x;
      assert (looked + [u])[i] == x && (looked + [u])[|looked|] == u;
    }
    forall i, j | 0 <= i < j < |looked| ensures looked[i].turn != looked[j].turn {
      assert (looked + [u])[i] == looked[i] && (looked + [u])[j] == looked[j];
    }
    QuotaHolds(looked);
    forall i | 0 <= i < |kept| ensures kept[i].turn != u.turn {
      assert kept[i] in kept;
    }
  }

  lemma UpdatedQuota(uses: seq<TurnUse>, i: nat, u: TurnUse)
    requires OncePerTurn(uses) && i < |uses| && uses[i].turn == u.turn
    ensures AsQuota(uses[i := u]) == AsQuota(uses)[u.turn := u]
  {
    QuotaHolds(uses);
    QuotaHolds(uses[i := u]);
    var after := uses[i := u];
    forall t ensures t in AsQuota(after) <==> t in AsQuota(uses)[u.turn := u] {
      if t in AsQuota(after) {
        var j :| 0 <= j < |after| && after[j].turn == t;
        assert uses[j].turn == t;
      }
      if t in AsQuota(uses) {
        var j :| 0 <= j < |uses| && uses[j].turn == t;
        assert after[j].turn == t;
      }
    }
    forall t | t in AsQuota(after) ensures AsQuota(after)[t] == AsQuota(uses)[u.turn := u][t] {
      var j :| 0 <= j < |after| && after[j].turn == t;
      assert uses[j].turn == t;
    }
  }

  // ---- runs of the quota ----

  datatype Sent = Sent(turn: nat, bytes: nat, ready: nat)

  /** What the caller sees to: a turn past the ready one, and a ready turn that
      never goes back. */
  predicate Played(ss: seq<Sent>) {
    && (forall i | 0 <= i < |ss| :: ss[i].turn > ss[i].ready)
    && (forall i, j | 0 <= i < j < |ss| :: ss[i].ready <= ss[j].ready)
  }

  function AfterSent(ss: seq<Sent>): Quota {
    if ss == [] then map[]
    else
      var last := ss[|ss| - 1];
      Charged(AfterSent(ss[..|ss| - 1]), last.turn, last.bytes, last.ready)
  }

  /** Everything one peer ever sent for a turn. */
  function Total(ss: seq<Sent>, turn: nat): TurnUse {
    if ss == [] then TurnUse(turn, 0, 0)
    else
      var u := Total(ss[..|ss| - 1], turn);
      if ss[|ss| - 1].turn == turn
      then u.(count := u.count + 1, bytes := u.bytes + ss[|ss| - 1].bytes) else u
  }

  function AcceptedFor(ss: seq<Sent>, caps: Caps, turn: nat): TurnUse {
    if ss == [] then TurnUse(turn, 0, 0)
    else
      var last := ss[|ss| - 1];
      var u := AcceptedFor(ss[..|ss| - 1], caps, turn);
      if last.turn == turn && Judged(UsedFor(AfterSent(ss), turn), caps).Pass?
      then u.(count := u.count + 1, bytes := u.bytes + last.bytes) else u
  }

  /** An evicted turn is never opened again, so what the quota holds for an open
      turn is everything ever sent for it. */
  lemma {:induction false} QuotaIsTotal(ss: seq<Sent>, turn: nat)
    requires Played(ss)
    ensures ss == [] || turn > ss[|ss| - 1].ready ==> UsedFor(AfterSent(ss), turn) == Total(ss, turn)
    decreases |ss|
  {
    if ss != [] {
      var front := ss[..|ss| - 1];
      QuotaIsTotal(front, turn);
      if front != [] {
        assert ss[|front| - 1].ready <= ss[|ss| - 1].ready;
      }
    }
  }

  /** Accepted commands and bytes of a turn stay within the caps, in every run. */
  lemma {:induction false} TurnStaysCapped(ss: seq<Sent>, caps: Caps, turn: nat)
    requires Played(ss)
    ensures var a := AcceptedFor(ss, caps, turn);
            && a.count <= Total(ss, turn).count && a.bytes <= Total(ss, turn).bytes
            && !Over(a.count, caps.count) && !Over(a.bytes, caps.bytes)
    decreases |ss|
  {
    if ss != [] {
      TurnStaysCapped(ss[..|ss| - 1], caps, turn);
      QuotaIsTotal(ss, turn);
    }
  }

  /** A command over a cap is kicked for exactly when it is over the kick multiple
      of one, and dropped otherwise. */
  lemma KickedOverMultiple(ss: seq<Sent>, caps: Caps)
    requires Played(ss) && ss != []
    ensures var last := ss[|ss| - 1];
            var u := Total(ss, last.turn);
            Judged(UsedFor(AfterSent(ss), last.turn), caps).Kick?
            <==> caps.kick > 0
                 && ((caps.count > 0 && u.count > caps.count * caps.kick)
                     || (caps.bytes > 0 && u.bytes > caps.bytes * caps.kick))
  {
    hide Total, AfterSent, Over;
    QuotaIsTotal(ss, ss[|ss| - 1].turn);
    var u := Total(ss, ss[|ss| - 1].turn);
    if caps.kick > 0 {
      OverMultiple(u.count, caps.count, caps.kick);
      OverMultiple(u.bytes, caps.bytes, caps.kick);
    }
  }

  lemma OverMultiple(used: nat, cap: nat, kick: nat)
    requires kick > 0
    ensures Over(used, cap * kick) <==> cap > 0 && used > cap * kick
    ensures Over(used, cap * kick) ==> Over(used, cap)
  {
    if cap == 0 {
      assert cap * kick == 0;
    } else {
      assert cap * kick >= cap;
    }
  }

  /** A command passes exactly while everything sent so far for its turn is
      within both caps. */
  lemma PassesWhileWithin(ss: seq<Sent>, caps: Caps)
    requires Played(ss) && ss != []
    ensures var last := ss[|ss| - 1];
            var u := Total(ss, last.turn);
            Judged(UsedFor(AfterSent(ss), last.turn), caps).Pass?
            <==> (caps.count == 0 || u.count <= caps.count) && (caps.bytes == 0 || u.bytes <= caps.bytes)
  {
    QuotaIsTotal(ss, ss[|ss| - 1].turn);
  }

  // ---- a ready turn that steps back ----

  /** How much of a run came before the turn was last dropped: all but the
      last message that found it released, and what followed. */
  function Dropped(ss: seq<Sent>, turn: nat): (n: nat)
    ensures n <= |ss|
  {
    if ss == [] then 0
    else if ss[|ss| - 1].ready >= turn then |ss| - 1
    else Dropped(ss[..|ss| - 1], turn)
  }

  /** In any run, whatever its ready turns do, the quota holds for a turn what
      was sent for it since it was last dropped. */
  lemma {:induction false} UsedSinceDropped(ss: seq<Sent>, turn: nat)
    ensures UsedFor(AfterSent(ss), turn) == Total(ss[Dropped(ss, turn)..], turn)
    decreases |ss|
  {
    if ss != [] {
      var front, n := ss[..|ss| - 1], Dropped(ss, turn);
      if ss[|ss| - 1].ready >= turn {
        assert ss[n..][..0] == [];
      } else {
        UsedSinceDropped(front, turn);
        assert ss[n..][..|ss[n..]| - 1] == front[n..];
      }
    }
  }

  lemma {:induction false} TotalSplits(ss: seq<Sent>, n: nat, turn: nat)
    requires n <= |ss|
    ensures Total(ss, turn).count == Total(ss[..n], turn).count + Total(ss[n..], turn).count
    ensures Total(ss, turn).bytes == Total(ss[..n], turn).bytes + Total(ss[n..], turn).bytes
    ensures Total(ss, turn).turn == turn
    decreases |ss| - n
  {
    if n == |ss| {
      assert ss[..n] == ss;
      TotalIsFor(ss, turn);
    } else {
      TotalSplits(ss[..|ss| - 1], n, turn);
      assert ss[..|ss| - 1][..n] == ss[..n];
      assert ss[n..][..|ss[n..]| - 1] == ss[..|ss| - 1][n..];
    }
  }

  lemma {:induction false} TotalIsFor(ss: seq<Sent>, turn: nat)
    ensures Total(ss, turn).turn == turn
    ensures Total(ss, turn).count > 0 <==> exists i :: 0 <= i < |ss| && ss[i].turn == turn
    ensures Total(ss, turn).count == 0 ==> Total(ss, turn).bytes == 0
    decreases |ss|
  {
    if ss != [] {
      var front := ss[..|ss| - 1];
      TotalIsFor(front, turn);
      if i :| 0 <= i < |ss| && ss[i].turn == turn {
        assert i < |front| ==> front[i].turn == turn;
      }
      if i :| 0 <= i < |front| && front[i].turn == turn {
        assert ss[i].turn == turn;
      }
      if ss[|ss| - 1].turn == turn {
        assert ss[|ss| - 1].turn == turn;
      }
    }
  }

  lemma {:induction false} DroppedIs(ss: seq<Sent>, turn: nat)
    ensures Dropped(ss, turn) > 0 ==> Dropped(ss, turn) < |ss| && ss[Dropped(ss, turn)].ready >= turn
    ensures forall j | Dropped(ss, turn) < j < |ss| :: ss[j].ready < turn
    decreases |ss|
  {
    if ss != [] && ss[|ss| - 1].ready < turn {
      DroppedIs(ss[..|ss| - 1], turn);
    }
  }

  /** A turn something was sent for. */
  predicate SentFor(ss: seq<Sent>, i: nat, turn: nat) { i < |ss| && ss[i].turn == turn }

  predicate Finds(ss: seq<Sent>, j: nat, turn: nat) { j < |ss| && ss[j].ready >= turn }

  /** A turn is opened afresh, and what it had used forgotten, exactly when
      something was sent for it and a later message found it released. */
  lemma SteppingBackReopens(ss: seq<Sent>, turn: nat)
    ensures UsedFor(AfterSent(ss), turn) != Total(ss, turn)
       <==> exists i: nat, j: nat :: i < j && SentFor(ss, i, turn) && Finds(ss, j, turn)
  {
    var n := Dropped(ss, turn);
    UsedSinceDropped(ss, turn);
    TotalSplits(ss, n, turn);
    TotalIsFor(ss[..n], turn);
    TotalIsFor(ss[n..], turn);
    DroppedIs(ss, turn);
    if i: nat, j: nat :| i < j && SentFor(ss, i, turn) && Finds(ss, j, turn) {
      assert j <= n && ss[..n][i].turn == turn;
    }
    if Total(ss[..n], turn).count > 0 {
      var i :| 0 <= i < |ss[..n]| && ss[..n][i].turn == turn;
      assert SentFor(ss, i, turn) && Finds(ss, n, turn);
    }
    hide Total, AfterSent, Dropped, UsedFor;
  }
}
