/** Per-identity allowances that outlive a connection. Times are nanoseconds on
    the wall clock, which a token is refilled on in whole milliseconds. */
module Ledgers {
  import opened Arith
  import opened Prelude

  const MS: int := 1_000_000

  // An address, or a lobby name in lower case.
  type Identity = nat

  datatype Bucket = Bucket(tokens: nat, anchor: int)

  datatype LedgerState = LedgerState(
    burst: nat, interval: Option<int>, buckets: map<Identity, Bucket>)

  function Positive(interval: Option<int>): Option<int> {
    if interval.Some? && interval.value > 0 then interval else None
  }

  function NewLedger(burst: nat, interval: Option<int>): LedgerState {
    LedgerState(burst, Positive(interval), map[])
  }

  function IntervalMs(interval: int): int { Max(interval / MS, 1) }

  /** What one token is worth, in nanoseconds. */
  function Quantum(interval: int): int { IntervalMs(interval) * MS }

  function Refill(b: Bucket, burst: nat, interval: int, now: int): Bucket {
    var elapsed := now - b.anchor;
    // A clock that stepped back refills nothing.
    if elapsed < 0 then b.(anchor := now)
    else
      var steps := elapsed / MS / IntervalMs(interval);
      if steps == 0 then b
      else
        var tokens := Min(b.tokens + steps, burst);
        Bucket(tokens, if tokens >= burst then now else b.anchor + steps * IntervalMs(interval) * MS)
  }

  function Asked(l: LedgerState, key: Identity, now: int): (LedgerState, bool) {
    if l.interval.None? || key !in l.buckets then (l, true)
    else
      var b := Refill(l.buckets[key], l.burst, l.interval.value, now);
      (l.(buckets := l.buckets[key := b]), b.tokens > 0)
  }

  function Spent(l: LedgerState, key: Identity, now: int): LedgerState {
    if l.interval.None? then l
    else
      var held := if key in l.buckets then l.buckets[key] else Bucket(l.burst, now);
      var b := Refill(held, l.burst, l.interval.value, now);
      var anchor := if b.tokens >= l.burst then now else b.anchor;
      l.(buckets := l.buckets[key := Bucket(SaturatingSub(b.tokens, 1), anchor)])
  }

  function Pruned(l: LedgerState, now: int): LedgerState {
    if l.interval.None? then l
    else
      l.(buckets := map k | k in l.buckets
                            && Refill(l.buckets[k], l.burst, l.interval.value, now).tokens < l.burst
                    :: Refill(l.buckets[k], l.burst, l.interval.value, now))
  }

  class Ledger {
    const burst: nat
    const interval: Option<int>
    var buckets: map<Identity, Bucket>

    function State(): LedgerState
      reads this
    {
      LedgerState(burst, interval, buckets)
    }

    constructor (burst: nat, interval: Option<int>)
      ensures State() == NewLedger(burst, interval)
    {
      this.burst := burst;
      this.interval := Positive(interval);
      buckets := map[];
    }

    method HasToken(key: Identity, now: int) returns (has: bool)
      modifies this
      ensures (State(), has) == Asked(old(State()), key, now)
    {
      if interval.None? || key !in buckets {
        return true;
      }
      buckets := buckets[key := Refill(buckets[key], burst, interval.value, now)];
      return buckets[key].tokens > 0;
    }

    method Spend(key: Identity, now: int)
      modifies this
      ensures State() == Spent(old(State()), key, now)
    {
      if interval.None? {
        return;
      }
      if key !in buckets {
        buckets := buckets[key := Bucket(burst, now)];
      }
      var b := Refill(buckets[key], burst, interval.value, now);
      if b.tokens >= burst {
        b := b.(anchor := now);
      }
      buckets := buckets[key := b.(tokens := SaturatingSub(b.tokens, 1))];
    }

    method Prune(now: int)
      modifies this
      ensures State() == Pruned(old(State()), now)
    {
      if interval.None? {
        return;
      }
      var kept: map<Identity, Bucket> := map[];
      var todo := buckets.Keys;
      while todo != {}
        invariant todo <= buckets.Keys && buckets == old(buckets)
        invariant kept == map k | k in buckets && k !in todo
                                  && Refill(buckets[k], burst, interval.value, now).tokens < burst
                          :: Refill(buckets[k], burst, interval.value, now)
        decreases |todo|
      {
        var k :| k in todo;
        var b := Refill(buckets[k], burst, interval.value, now);
        if b.tokens < burst {
          kept := kept[k := b];
        }
        todo := todo - {k};
      }
      buckets := kept;
    }
  }

  // ---- what a bucket is worth ----

  predicate BucketOk(b: Bucket, burst: nat, now: int) {
    b.tokens <= burst && b.anchor <= now
  }

  /** The credit of a bucket in nanoseconds, exact between refills. */
  function Worth(b: Bucket, burst: nat, interval: int, now: int): int {
    Min(burst * Quantum(interval), b.tokens * Quantum(interval) + (now - b.anchor))
  }

  /** Refilling never changes what a bucket is worth, now or later, however
      often it is done: no fraction of a token is lost to rounding. */
  lemma RefillKeepsWorth(b: Bucket, burst: nat, interval: int, now: int, later: int)
    requires interval > 0 && BucketOk(b, burst, now) && now <= later
    ensures var r := Refill(b, burst, interval, now);
            && BucketOk(r, burst, now)
            && Worth(r, burst, interval, later) == Worth(b, burst, interval, later)
            && (r.tokens < burst ==> now - r.anchor < Quantum(interval))
  {
    var q := Quantum(interval);
    var elapsed := now - b.anchor;
    DivDiv(elapsed, MS, IntervalMs(interval));
    var steps := elapsed / q;
    assert MS * IntervalMs(interval) == q;
    DivModIs(elapsed, q);
    if steps != 0 {
      assert (b.tokens + steps) * q == b.tokens * q + steps * q;
      if b.tokens + steps >= burst {
        MulLe(burst, b.tokens + steps, q);
      }
    }
  }

  /** Whatever the clock did before, tokens come back at one an interval from
      any look at a bucket; and one just filled is counted from then. */
  lemma TokensComeBack(b: Bucket, burst: nat, interval: int, now: int, k: nat)
    requires interval > 0 && b.tokens <= burst
    ensures var r := Refill(b, burst, interval, now);
            && b.tokens <= r.tokens <= burst && r.anchor <= now
            && (b.tokens < r.tokens == burst ==> r.anchor == now)
            && (b.anchor > now ==> r.tokens == b.tokens)
            && Refill(r, burst, interval, now + k * Quantum(interval)).tokens >= Min(b.tokens + k, burst)
  {
    var r, q := Refill(b, burst, interval, now), Quantum(interval);
    LookAt(b, burst, interval, now);
    MulLe(0, k, q);
    LookAt(r, burst, interval, now + k * q);
    if k > 0 {
      AtLeast(now + k * q - r.anchor, k, q);
    }
    hide Refill, Quantum;
  }

  lemma LookAt(b: Bucket, burst: nat, interval: int, now: int)
    requires interval > 0 && b.tokens <= burst
    ensures var r, q := Refill(b, burst, interval, now), Quantum(interval);
            && q > 0 && b.tokens <= r.tokens <= burst && r.anchor <= now
            && (b.tokens < r.tokens == burst ==> r.anchor == now)
            && (b.anchor > now ==> r.tokens == b.tokens)
            && (b.anchor <= now ==> r.tokens == Min(b.tokens + (now - b.anchor) / q, burst))
  {
    var q := Quantum(interval);
    assert MS * IntervalMs(interval) == q;
    if b.anchor <= now {
      DivDiv(now - b.anchor, MS, IntervalMs(interval));
      DivModIs(now - b.anchor, q);
    }
  }

  lemma AtLeast(n: int, k: nat, q: int)
    requires q > 0 && n >= k * q
    ensures n / q >= k
  {
    DivModIs(n, q);
    if n / q < k {
      MulLe(n / q + 1, k, q);
    }
  }

  /** A bucket just refilled holds the whole tokens it is worth. */
  lemma TokensAreWorth(b: Bucket, burst: nat, interval: int, now: int)
    requires interval > 0 && BucketOk(b, burst, now)
    requires b.tokens < burst ==> now - b.anchor < Quantum(interval)
    ensures b.tokens >= burst <==> Worth(b, burst, interval, now) == burst * Quantum(interval)
    ensures burst > 0 ==> (b.tokens > 0 <==> Worth(b, burst, interval, now) >= Quantum(interval))
    ensures 0 <= Worth(b, burst, interval, now)
  {
    var q := Quantum(interval);
    MulLe(0, b.tokens, q);
    if b.tokens < burst {
      MulLe(b.tokens + 1, burst, q);
      assert (b.tokens + 1) * q == b.tokens * q + q;
    } else {
      assert b.tokens == burst;
    }
    if b.tokens > 0 {
      MulLe(1, b.tokens, q);
    }
    if burst > 0 {
      MulLe(1, burst, q);
    }
  }
}
