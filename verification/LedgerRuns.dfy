/** Whole runs of a ledger: forgetting full buckets cannot be observed, and how
    many times one identity can be let through in a window of time. */
module LedgerRuns {
  import opened Arith
  import opened Prelude
  import opened Ledgers

  function Full(l: LedgerState): int
    requires l.interval.Some?
  {
    l.burst * Quantum(l.interval.value)
  }

  /** What an identity is owed, in nanoseconds. One never seen is owed its whole
      burst. */
  function Credit(l: LedgerState, key: Identity, now: int): int
    requires l.interval.Some?
  {
    if key in l.buckets then Worth(l.buckets[key], l.burst, l.interval.value, now) else Full(l)
  }

  ghost predicate Sound(l: LedgerState, now: int) {
    l.interval.Some? ==>
      && l.interval.value > 0
      && forall k | k in l.buckets :: BucketOk(l.buckets[k], l.burst, now)
  }

  ghost predicate SameCredits(a: LedgerState, b: LedgerState, now: int) {
    && a.burst == b.burst && a.interval == b.interval
    && (a.interval.Some? ==>
          forall k: Identity, t | t >= now :: Credit(a, k, t) == Credit(b, k, t))
  }

  lemma CreditLater(l: LedgerState, key: Identity, now: int, later: int)
    requires l.interval.Some? && l.interval.value > 0 && now <= later
    ensures Credit(l, key, later) == Min(Full(l), Credit(l, key, now) + (later - now))
  {
  }

  lemma CreditBounds(l: LedgerState, key: Identity, now: int)
    requires l.interval.Some? && Sound(l, now)
    ensures 0 <= Credit(l, key, now) <= Full(l)
  {
    var q := Quantum(l.interval.value);
    MulLe(0, l.burst, q);
    if key in l.buckets {
      MulLe(0, l.buckets[key].tokens, q);
    }
  }

  lemma AskKeeps(l: LedgerState, key: Identity, now: int)
    requires Sound(l, now)
    ensures Sound(Asked(l, key, now).0, now)
    ensures SameCredits(Asked(l, key, now).0, l, now)
    ensures l.interval.Some? && l.burst > 0 ==>
      (Asked(l, key, now).1 <==> Credit(l, key, now) >= Quantum(l.interval.value))
  {
    if l.interval.Some? {
      if key in l.buckets {
        var b := l.buckets[key];
        forall t | t >= now
          ensures Credit(Asked(l, key, now).0, key, t) == Credit(l, key, t)
        {
          RefillKeepsWorth(b, l.burst, l.interval.value, now, t);
        }
        RefillKeepsWorth(b, l.burst, l.interval.value, now, now);
        TokensAreWorth(Refill(b, l.burst, l.interval.value, now), l.burst, l.interval.value, now);
      } else if l.burst > 0 {
        MulLe(1, l.burst, Quantum(l.interval.value));
      }
    }
  }

  lemma SpendBucket(b: Bucket, burst: nat, interval: int, now: int)
    requires interval > 0 && burst > 0 && BucketOk(b, burst, now)
    requires b.tokens < burst ==> now - b.anchor < Quantum(interval)
    ensures var q, after := Quantum(interval),
                            Bucket(SaturatingSub(b.tokens, 1), if b.tokens >= burst then now else b.anchor);
            && BucketOk(after, burst, now)
            && Worth(after, burst, interval, now)
               == if Worth(b, burst, interval, now) >= q then Worth(b, burst, interval, now) - q
                  else Worth(b, burst, interval, now)
  {
    var q := Quantum(interval);
    TokensAreWorth(b, burst, interval, now);
    if b.tokens > 0 {
      assert b.tokens * q == (b.tokens - 1) * q + q;
      MulLe(b.tokens, burst, q);
      if b.tokens < burst {
        MulLe(b.tokens + 1, burst, q);
        assert (b.tokens + 1) * q == b.tokens * q + q;
      }
    }
  }

  /** A spend costs exactly one token's worth, and nothing when none is left. */
  lemma SpendCosts(l: LedgerState, key: Identity, now: int)
    requires Sound(l, now) && l.burst > 0
    ensures Sound(Spent(l, key, now), now)
    ensures Spent(l, key, now).burst == l.burst && Spent(l, key, now).interval == l.interval
    ensures l.interval.Some? ==>
      && Credit(Spent(l, key, now), key, now)
         == (if Credit(l, key, now) >= Quantum(l.interval.value)
             then Credit(l, key, now) - Quantum(l.interval.value) else Credit(l, key, now))
      && forall k: Identity, t | k != key && t >= now :: Credit(Spent(l, key, now), k, t) == Credit(l, k, t)
  {
    if l.interval.Some? {
      var held := if key in l.buckets then l.buckets[key] else Bucket(l.burst, now);
      RefillKeepsWorth(held, l.burst, l.interval.value, now, now);
      SpendBucket(Refill(held, l.burst, l.interval.value, now), l.burst, l.interval.value, now);
      hide Refill;
    }
  }

  lemma PruneKeeps(l: LedgerState, now: int)
    requires Sound(l, now)
    ensures Sound(Pruned(l, now), now)
    ensures SameCredits(Pruned(l, now), l, now)
  {
    if l.interval.Some? {
      forall k: Identity, t | t >= now
        ensures Credit(Pruned(l, now), k, t) == Credit(l, k, t)
      {
        if k in l.buckets {
          var b := Refill(l.buckets[k], l.burst, l.interval.value, now);
          RefillKeepsWorth(l.buckets[k], l.burst, l.interval.value, now, now);
          RefillKeepsWorth(l.buckets[k], l.burst, l.interval.value, now, t);
          TokensAreWorth(b, l.burst, l.interval.value, now);
          CreditLater(l, k, now, t);
        }
      }
      forall k | k in Pruned(l, now).buckets
        ensures BucketOk(Pruned(l, now).buckets[k], l.burst, now)
      {
        RefillKeepsWorth(l.buckets[k], l.burst, l.interval.value, now, now);
      }
    }
  }

  // ---- runs ----

  datatype Op =
    | Prune
    | Ask(key: Identity)
    | Spend(key: Identity)
    // Asked, and spent only if there was a token.
    | Admit(key: Identity)

  datatype Event = Event(now: int, op: Op)

  function Step(l: LedgerState, e: Event): (LedgerState, seq<bool>) {
    match e.op
    case Prune => (Pruned(l, e.now), [])
    case Ask(key) => var (l1, has) := Asked(l, key, e.now); (l1, [has])
    case Spend(key) => (Spent(l, key, e.now), [])
    case Admit(key) =>
      var (l1, has) := Asked(l, key, e.now);
      (if has then Spent(l1, key, e.now) else l1, [has])
  }

  /** Everything a run answers, in order. */
  function Answers(l: LedgerState, es: seq<Event>): seq<bool>
    decreases |es|
  {
    if es == [] then []
    else var (l1, a) := Step(l, es[0]); a + Answers(l1, es[1..])
  }

  function WithoutPrunes(es: seq<Event>): seq<Event> {
    if es == [] then []
    else (if es[0].op.Prune? then [] else [es[0]]) + WithoutPrunes(es[1..])
  }

  predicate Timed(from: int, es: seq<Event>)
    decreases |es|
  {
    es == [] || (from <= es[0].now && Timed(es[0].now, es[1..]))
  }

  lemma SoundLater(l: LedgerState, now: int, later: int)
    requires Sound(l, now) && now <= later
    ensures Sound(l, later)
  {
  }

  lemma StepKeeps(l: LedgerState, e: Event)
    requires Sound(l, e.now) && l.burst > 0
    ensures Sound(Step(l, e).0, e.now) && Step(l, e).0.burst == l.burst
    ensures Step(l, e).0.interval == l.interval
  {
    match e.op {
      case Prune => PruneKeeps(l, e.now);
      case Ask(key) => AskKeeps(l, key, e.now);
      case Spend(key) => SpendCosts(l, key, e.now);
      case Admit(key) =>
        AskKeeps(l, key, e.now);
        SpendCosts(Asked(l, key, e.now).0, key, e.now);
    }
  }

  /** Ledgers that owe everyone the same answer alike and go on owing the same. */
  lemma SpendSame(a: LedgerState, b: LedgerState, key: Identity, now: int)
    requires Sound(a, now) && Sound(b, now) && SameCredits(a, b, now) && a.burst > 0
    ensures SameCredits(Spent(a, key, now), Spent(b, key, now), now)
  {
    SpendCosts(a, key, now);
    SpendCosts(b, key, now);
    if a.interval.Some? {
      var a', b' := Spent(a, key, now), Spent(b, key, now);
      assert Credit(a, key, now) == Credit(b, key, now);
      forall k: Identity, t | t >= now ensures Credit(a', k, t) == Credit(b', k, t) {
        if k == key {
          CreditLater(a', key, now, t);
          CreditLater(b', key, now, t);
        } else {
          assert Credit(a, k, t) == Credit(b, k, t);
        }
      }
    }
  }

  lemma AskSame(a: LedgerState, b: LedgerState, key: Identity, now: int)
    requires Sound(a, now) && Sound(b, now) && SameCredits(a, b, now) && a.burst > 0
    ensures SameCredits(Asked(a, key, now).0, Asked(b, key, now).0, now)
    ensures Asked(a, key, now).1 == Asked(b, key, now).1
  {
    AskKeeps(a, key, now);
    AskKeeps(b, key, now);
    if a.interval.Some? {
      assert Credit(a, key, now) == Credit(b, key, now);
    }
  }

  lemma {:induction false} PrunesUnseen(a: LedgerState, b: LedgerState, es: seq<Event>, from: int)
    requires Sound(a, from) && Sound(b, from) && SameCredits(a, b, from) && a.burst > 0
    requires Timed(from, es)
    ensures Answers(a, es) == Answers(b, WithoutPrunes(es))
    decreases |es|
  {
    if es != [] {
      var e, rest := es[0], es[1..];
      SoundLater(a, from, e.now);
      SoundLater(b, from, e.now);
      StepKeeps(a, e);
      StepKeeps(b, e);
      match e.op {
        case Prune =>
          PruneKeeps(a, e.now);
          PrunesUnseen(Pruned(a, e.now), b, rest, e.now);
          assert [] + WithoutPrunes(rest) == WithoutPrunes(rest);
        case Ask(key) =>
          AskSame(a, b, key, e.now);
          PrunesUnseen(Step(a, e).0, Step(b, e).0, rest, e.now);
          assert WithoutPrunes(es)[1..] == WithoutPrunes(rest);
        case Spend(key) =>
          SpendSame(a, b, key, e.now);
          PrunesUnseen(Step(a, e).0, Step(b, e).0, rest, e.now);
          assert WithoutPrunes(es)[1..] == WithoutPrunes(rest);
        case Admit(key) =>
          AskSame(a, b, key, e.now);
          AskKeeps(a, key, e.now);
          AskKeeps(b, key, e.now);
          SpendSame(Asked(a, key, e.now).0, Asked(b, key, e.now).0, key, e.now);
          PrunesUnseen(Step(a, e).0, Step(b, e).0, rest, e.now);
          assert WithoutPrunes(es)[1..] == WithoutPrunes(rest);
      }
    }
  }

  /** With no burst a bucket is always full and always empty, so forgetting it
      turns a refusal into a pass. */
  lemma PruneSeen(interval: int)
    requires interval > 0
    ensures var l, es := NewLedger(0, Some(interval)),
                         [Event(0, Spend(0)), Event(0, Prune), Event(0, Ask(0))];
            Timed(0, es) && Answers(l, es) == [true] && Answers(l, WithoutPrunes(es)) == [false]
  {
    var l := NewLedger(0, Some(interval));
    var spend, prune, ask := Event(0, Spend(0)), Event(0, Prune), Event(0, Ask(0));
    var es := [spend, prune, ask];
    assert es[1..] == [prune, ask] && [prune, ask][1..] == [ask] && [ask][1..] == [];
    var l1 := Step(l, spend).0;
    assert l1 == l.(buckets := map[0 := Bucket(0, 0)]);
    assert Step(l1, prune).0 == l;
    assert WithoutPrunes([ask]) == [ask] && WithoutPrunes([prune, ask]) == [ask];
    assert WithoutPrunes(es) == [spend, ask] && [spend, ask][1..] == [ask];
    assert Answers(l, [ask]) == [true] && Answers(l1, [ask]) == [false];
    assert Answers(l, es) == [] + Answers(l1, [prune, ask]);
    assert Answers(l1, [prune, ask]) == [] + Answers(l, [ask]);
    assert Answers(l, [spend, ask]) == [] + Answers(l1, [ask]);
  }

  ghost predicate PrunesUnobserved(l: LedgerState) {
    forall from, es | Timed(from, es) :: Answers(l, es) == Answers(l, WithoutPrunes(es))
  }

  /** Forgetting full buckets is unobservable, in every run of a clock that does
      not step back, exactly when the burst is not zero or the ledger is off. */
  lemma PruneUnobservable(burst: nat, interval: Option<int>)
    ensures PrunesUnobserved(NewLedger(burst, interval)) <==> burst > 0 || Positive(interval).None?
  {
    var l := NewLedger(burst, interval);
    if burst > 0 {
      forall from, es | Timed(from, es) ensures Answers(l, es) == Answers(l, WithoutPrunes(es)) {
        PrunesUnseen(l, l, es, from);
      }
    } else if Positive(interval).None? {
      forall from, es | Timed(from, es) ensures Answers(l, es) == Answers(l, WithoutPrunes(es)) {
        OffAnswers(l, es);
      }
    } else {
      PruneSeen(interval.value);
      assert l == NewLedger(0, Some(interval.value));
      var es := [Event(0, Spend(0)), Event(0, Prune), Event(0, Ask(0))];
      assert Timed(0, es) && Answers(l, es) != Answers(l, WithoutPrunes(es));
      assert !PrunesUnobserved(l);
    }
  }

  lemma {:induction false} OffAnswers(l: LedgerState, es: seq<Event>)
    requires l.interval.None?
    ensures Answers(l, es) == Answers(l, WithoutPrunes(es))
    decreases |es|
  {
    if es != [] {
      OffAnswers(l, es[1..]);
      assert Step(l, es[0]).0 == l;
      if es[0].op.Prune? {
        assert [] + WithoutPrunes(es[1..]) == WithoutPrunes(es[1..]);
        assert [] + Answers(l, es[1..]) == Answers(l, es[1..]);
      } else {
        assert WithoutPrunes(es)[1..] == WithoutPrunes(es[1..]);
      }
    }
  }

  // ---- an allowance that flows ----

  /** What each identity has left, in nanoseconds, and when that was so; one that
      is not here has its whole burst. */
  type Levels = map<Identity, (int, int)>

  function LevelAt(i: Levels, key: Identity, full: int, now: int): int {
    if key in i then Min(full, i[key].0 + (now - i[key].1)) else full
  }

  /** Time flows in up to the burst; asking changes nothing; a token is taken
      whole, or not at all. */
  function Flow(i: Levels, e: Event, full: int, token: int): (Levels, seq<bool>) {
    match e.op
    case Prune => (i, [])
    case Ask(key) => (i, [LevelAt(i, key, full, e.now) >= token])
    case Spend(key) =>
      var level := LevelAt(i, key, full, e.now);
      (if level >= token then i[key := (level - token, e.now)] else i, [])
    case Admit(key) =>
      var level := LevelAt(i, key, full, e.now);
      (if level >= token then i[key := (level - token, e.now)] else i, [level >= token])
  }

  function FlowAnswers(i: Levels, es: seq<Event>, full: int, token: int): seq<bool>
    decreases |es|
  {
    if es == [] then []
    else var (i1, a) := Flow(i, es[0], full, token); a + FlowAnswers(i1, es[1..], full, token)
  }

  /** What a token is worth: the interval in whole milliseconds, one at least. */
  function TokenTime(interval: int): int {
    (if interval < 1_000_000 then 1 else interval / 1_000_000) * 1_000_000
  }

  ghost predicate Follows(l: LedgerState, i: Levels, now: int)
    requires l.interval.Some?
  {
    forall k: Identity, t | t >= now :: Credit(l, k, t) == LevelAt(i, k, l.burst * TokenTime(l.interval.value), t)
  }

  lemma TokenIsQuantum(interval: int)
    requires interval > 0
    ensures TokenTime(interval) == Quantum(interval) > 0
  {
  }

  lemma TokenTaken(l: LedgerState, i: Levels, key: Identity, now: int)
    requires Sound(l, now) && l.interval.Some? && l.burst > 0 && Follows(l, i, now)
    ensures Asked(l, key, now).0.interval == l.interval && Asked(l, key, now).0.burst == l.burst
    ensures Spent(l, key, now).interval == l.interval && Spent(l, key, now).burst == l.burst
    ensures var full, token := l.burst * TokenTime(l.interval.value), TokenTime(l.interval.value);
            var level := LevelAt(i, key, full, now);
            && (Asked(l, key, now).1 <==> level >= token)
            && Follows(Asked(l, key, now).0, i, now)
            && Follows(Spent(l, key, now), if level >= token then i[key := (level - token, now)] else i, now)
  {
    var full, token := l.burst * TokenTime(l.interval.value), TokenTime(l.interval.value);
    TokenIsQuantum(l.interval.value);
    AskKeeps(l, key, now);
    SpendCosts(l, key, now);
    assert Credit(l, key, now) == LevelAt(i, key, full, now);
    var level, l1 := LevelAt(i, key, full, now), Spent(l, key, now);
    var i1 := if level >= token then i[key := (level - token, now)] else i;
    hide Asked, Spent, Credit, Quantum, TokenTime;
    forall k: Identity, t | t >= now ensures Credit(l1, k, t) == LevelAt(i1, k, full, t) {
      assert Credit(l, k, t) == LevelAt(i, k, full, t);
      if k == key {
        CreditLater(l1, key, now, t);
        CreditLater(l, key, now, t);
      }
    }
  }

  lemma FollowsLater(l: LedgerState, i: Levels, now: int, later: int)
    requires l.interval.Some? && Follows(l, i, now) && now <= later
    ensures Follows(l, i, later)
  {
  }

  lemma AdmitFollows(l: LedgerState, i: Levels, key: Identity, now: int)
    requires Sound(l, now) && l.interval.Some? && l.burst > 0 && Follows(l, i, now)
    ensures var (l1, has) := Asked(l, key, now);
            var full, token := l.burst * TokenTime(l.interval.value), TokenTime(l.interval.value);
            var level := LevelAt(i, key, full, now);
            && l1.interval == l.interval && l1.burst == l.burst && (has <==> level >= token)
            && Spent(l1, key, now).interval == l.interval && Spent(l1, key, now).burst == l.burst
            && Follows(if has then Spent(l1, key, now) else l1, if has then i[key := (level - token, now)] else i, now)
  {
    assert Asked(l, key, now).0.interval == l.interval && Asked(l, key, now).0.burst == l.burst;
    AskKeeps(l, key, now);
    hide Asked, Spent, Credit, LevelAt, TokenTime, Sound, Follows;
    TokenTaken(l, i, key, now);
    TokenTaken(Asked(l, key, now).0, i, key, now);
  }

  lemma StepFollows(l: LedgerState, i: Levels, e: Event)
    requires Sound(l, e.now) && l.interval.Some? && l.burst > 0 && Follows(l, i, e.now)
    ensures var (l1, a) := Step(l, e);
            var (i1, b) := Flow(i, e, l.burst * TokenTime(l.interval.value), TokenTime(l.interval.value));
            l1.interval == l.interval && l1.burst == l.burst && Follows(l1, i1, e.now) && a == b
  {
    hide Asked, Spent, Pruned, Credit, LevelAt, TokenTime, Sound, Follows;
    match e.op {
      case Prune => PrunedFollows(l, i, e.now);
      case Ask(key) => TokenTaken(l, i, key, e.now);
      case Spend(key) => TokenTaken(l, i, key, e.now);
      case Admit(key) => AdmitFollows(l, i, key, e.now);
    }
  }

  lemma PrunedFollows(l: LedgerState, i: Levels, now: int)
    requires Sound(l, now) && l.interval.Some? && Follows(l, i, now)
    ensures Pruned(l, now).interval == l.interval && Pruned(l, now).burst == l.burst
    ensures Follows(Pruned(l, now), i, now)
  {
    PruneKeeps(l, now);
    hide Pruned, Credit, LevelAt, TokenTime, Sound;
  }

  lemma {:induction false} FlowsAlike(l: LedgerState, i: Levels, es: seq<Event>, from: int)
    requires Sound(l, from) && l.interval.Some? && l.burst > 0 && Follows(l, i, from) && Timed(from, es)
    ensures Answers(l, es)
         == FlowAnswers(i, es, l.burst * TokenTime(l.interval.value), TokenTime(l.interval.value))
    decreases |es|
  {
    if es != [] {
      var e, full, token := es[0], l.burst * TokenTime(l.interval.value), TokenTime(l.interval.value);
      hide Step, Flow, Sound, Follows;
      TimedRest(from, es);
      SoundLater(l, from, e.now);
      FollowsLater(l, i, from, e.now);
      StepKeeps(l, e);
      StepFollows(l, i, e);
      FlowsAlike(Step(l, e).0, Flow(i, e, full, token).0, es[1..], e.now);
    }
  }

  lemma TimedRest(from: int, es: seq<Event>)
    requires es != [] && Timed(from, es)
    ensures from <= es[0].now && Timed(es[0].now, es[1..])
  {
  }

  /** Buckets, refills in whole tokens, anchors and forgetting come to this: in any
      run of a clock that does not step back, a ledger with a burst answers as an
      allowance that flows without a break. */
  lemma LedgerFlows(burst: nat, interval: int, es: seq<Event>, from: int)
    requires burst > 0 && interval > 0 && Timed(from, es)
    ensures Answers(NewLedger(burst, Some(interval)), es)
         == FlowAnswers(map[], es, burst * TokenTime(interval), TokenTime(interval))
  {
    TokenIsQuantum(interval);
    FlowsAlike(NewLedger(burst, Some(interval)), map[], es, from);
  }

  // ---- the window ----

  /** How often one identity was let through. */
  function Admissions(l: LedgerState, es: seq<Event>, key: Identity): nat
    decreases |es|
  {
    if es == [] then 0
    else
      var (l1, a) := Step(l, es[0]);
      (if es[0].op == Admit(key) && a == [true] then 1 else 0) + Admissions(l1, es[1..], key)
  }

  lemma StepCredit(l: LedgerState, e: Event, key: Identity)
    requires l.interval.Some? && Sound(l, e.now) && l.burst > 0
    ensures Step(l, e).0.interval == l.interval
    ensures Credit(Step(l, e).0, key, e.now)
         <= Credit(l, key, e.now)
            - (if e.op == Admit(key) && Step(l, e).1 == [true] then Quantum(l.interval.value) else 0)
  {
    match e.op {
      case Prune => PruneKeeps(l, e.now);
      case Ask(k) => AskKeeps(l, k, e.now);
      case Spend(k) => SpendCosts(l, k, e.now);
      case Admit(k) =>
        AskKeeps(l, k, e.now);
        SpendCosts(Asked(l, k, e.now).0, k, e.now);
        assert Credit(Asked(l, k, e.now).0, k, e.now) == Credit(l, k, e.now);
    }
  }

  lemma {:induction false} AdmissionsCost(l: LedgerState, es: seq<Event>, key: Identity, from: int, upTo: int)
    requires l.interval.Some? && Sound(l, from) && l.burst > 0
    requires Timed(from, es) && from <= upTo && (es != [] ==> es[|es| - 1].now <= upTo)
    ensures Admissions(l, es, key) * Quantum(l.interval.value) <= Credit(l, key, from) + (upTo - from)
    decreases |es|
  {
    hide Quantum, Refill, Worth, Asked, Spent, Pruned;
    var q := Quantum(l.interval.value);
    if es == [] {
      CreditBounds(l, key, from);
    } else {
      var e, rest := es[0], es[1..];
      SoundLater(l, from, e.now);
      StepKeeps(l, e);
      StepCredit(l, e, key);
      CreditLater(l, key, from, e.now);
      TimedEnds(e.now, rest, upTo, e.now);
      AdmissionsCost(Step(l, e).0, rest, key, e.now, upTo);
      var n := Admissions(Step(l, e).0, rest, key);
      assert (n + 1) * q == n * q + q;
    }
  }

  lemma {:induction false} TimedEnds(from: int, es: seq<Event>, upTo: int, now: int)
    requires Timed(from, es) && now <= from
    ensures es != [] ==> from <= es[|es| - 1].now
    decreases |es|
  {
    if es != [] {
      TimedEnds(es[0].now, es[1..], upTo, now);
    }
  }

  /** In a window of length T, from any state a run can be in, one identity is
      let through at most burst + T / quantum times: spending from a full bucket
      starts its wait afresh, so there is no one more. */
  lemma WindowBound(l: LedgerState, es: seq<Event>, key: Identity, from: int, upTo: int)
    requires l.interval.Some? && Sound(l, from) && l.burst > 0
    requires Timed(from, es) && from <= upTo && (es != [] ==> es[|es| - 1].now <= upTo)
    ensures Admissions(l, es, key) <= l.burst + (upTo - from) / Quantum(l.interval.value)
  {
    AdmissionsCost(l, es, key, from, upTo);
    CreditBounds(l, key, from);
    Floor(Admissions(l, es, key), l.burst, upTo - from, Quantum(l.interval.value));
  }
}
