/** One transfer end to end: the sender and the receiver of Transfer.dfy over a
    first-in first-out channel, with acknowledgements batched in any way. */
module TransferLink {
  import opened Prelude
  import opened Transfers

  datatype Packet = Response(length: nat) | Chunk(data: Bytes)

  datatype Link = Link(
    tx: Option<Outgoing>,
    wire: seq<Packet>,
    rx: Option<Incoming>,
    // Chunks received and not acknowledged yet.
    unacked: nat,
    acks: seq<nat>,
    delivered: seq<(Purpose, Bytes)>,
    faults: nat)

  datatype Step = Receive | Acknowledge(count: nat) | HearAck

  function AsChunks(cs: seq<Bytes>): seq<Packet> {
    if cs == [] then [] else [Chunk(cs[0])] + AsChunks(cs[1..])
  }

  /** The receiver expects the transfer, and the request has just been granted. */
  function Start(data: Bytes, purpose: Purpose): Link {
    Link(Begun(data).0, [Response(|data|)] + AsChunks(Begun(data).1),
         Some(Incoming(purpose, 0, [])), 0, [], [], 0)
  }

  predicate Enabled(l: Link, step: Step) {
    match step
    case Receive => l.wire != []
    case Acknowledge(count) => 0 < count <= l.unacked
    case HearAck => l.acks != []
  }

  function Received(l: Link): Link
    requires l.wire != []
  {
    var after := l.(wire := l.wire[1..]);
    match l.wire[0]
    case Response(length) =>
      (match Responded(l.rx, length)
       case Ok(rx) => after.(rx := Some(rx))
       case Err(_) => after.(faults := l.faults + 1))
    case Chunk(data) =>
      // A chunk of no known transfer gets no acknowledgement.
      if l.rx.None? then after.(faults := l.faults + 1)
      else
        var (rx, done) := Chunked(l.rx, data);
        match done
        case Err(_) => after.(rx := rx, unacked := l.unacked + 1, faults := l.faults + 1)
        case Ok(payload) =>
          after.(rx := rx, unacked := l.unacked + 1,
                 delivered := l.delivered + (if payload.Some? then [payload.value] else []))
  }

  function Next(l: Link, step: Step): Link
    requires Enabled(l, step)
  {
    match step
    case Receive => Received(l)
    case Acknowledge(count) => l.(unacked := l.unacked - count, acks := l.acks + [count])
    case HearAck =>
      var (tx, chunks) := Acked(l.tx, l.acks[0]);
      l.(tx := tx, wire := l.wire + AsChunks(chunks), acks := l.acks[1..])
  }

  predicate Legal(l: Link, steps: seq<Step>)
    decreases |steps|
  {
    steps == [] || (Enabled(l, steps[0]) && Legal(Next(l, steps[0]), steps[1..]))
  }

  function Play(l: Link, steps: seq<Step>): Link
    requires Legal(l, steps)
    decreases |steps|
  {
    if steps == [] then l else Play(Next(l, steps[0]), steps[1..])
  }

  // ---- the invariant ----

  function Sum(xs: seq<nat>): nat { if xs == [] then 0 else xs[0] + Sum(xs[1..]) }

  function Offset(tx: Option<Outgoing>, data: Bytes): nat {
    if tx.Some? then tx.value.offset else |data|
  }

  function InFlight(tx: Option<Outgoing>): nat {
    if tx.Some? then tx.value.inFlight else 0
  }

  predicate SenderOk(tx: Option<Outgoing>, data: Bytes) {
    tx.Some? ==> tx.value.data == data && Flowing(tx.value)
  }

  predicate ReceiverOk(rx: Option<Incoming>, data: Bytes, purpose: Purpose, announced: bool) {
    if rx.None? then announced
    else
      && rx.value.purpose == purpose
      && rx.value.declared == (if announced then |data| else 0)
      && (if announced then |rx.value.buf| < |data| else rx.value.buf == [])
  }

  function Held(rx: Option<Incoming>, data: Bytes): Bytes {
    if rx.Some? then rx.value.buf else data
  }

  predicate OnWire(wire: seq<Packet>, data: Bytes, announced: bool, cs: seq<Bytes>) {
    wire == (if announced then [] else [Response(|data|)]) + AsChunks(cs)
  }

  /** What is received and what is on the wire are together what was sent. */
  predicate Conserved(tx: Option<Outgoing>, rx: Option<Incoming>, data: Bytes, cs: seq<Bytes>) {
    && Offset(tx, data) <= |data|
    && Held(rx, data) + Flat(cs) == data[..Offset(tx, data)]
    && (forall c | c in cs :: c != [])
  }

  /** Every chunk in flight is on the wire, unacknowledged or in an ack. */
  predicate Counted(tx: Option<Outgoing>, cs: seq<Bytes>, unacked: nat, acks: seq<nat>) {
    && InFlight(tx) == |cs| + unacked + Sum(acks)
    && (forall k | k in acks :: k > 0)
  }

  predicate InvWith(l: Link, data: Bytes, purpose: Purpose, announced: bool, cs: seq<Bytes>) {
    && l.faults == 0
    && OnWire(l.wire, data, announced, cs)
    && SenderOk(l.tx, data)
    && ReceiverOk(l.rx, data, purpose, announced)
    && Conserved(l.tx, l.rx, data, cs)
    && Counted(l.tx, cs, l.unacked, l.acks)
    && l.delivered == (if l.rx.None? then [(purpose, data)] else [])
  }

  ghost predicate Inv(l: Link, data: Bytes, purpose: Purpose) {
    exists announced, cs :: InvWith(l, data, purpose, announced, cs)
  }

  lemma {:induction false} FlatAppend(a: seq<Bytes>, b: seq<Bytes>)
    ensures Flat(a + b) == Flat(a) + Flat(b)
    decreases |a|
  {
    if a == [] {
      assert a + b == b;
    } else {
      FlatAppend(a[1..], b);
      assert (a + b)[0] == a[0] && (a + b)[1..] == a[1..] + b;
    }
  }

  lemma {:induction false} ChunksAppend(a: seq<Bytes>, b: seq<Bytes>)
    ensures AsChunks(a + b) == AsChunks(a) + AsChunks(b)
    decreases |a|
  {
    if a == [] {
      assert a + b == b;
    } else {
      ChunksAppend(a[1..], b);
      assert (a + b)[0] == a[0] && (a + b)[1..] == a[1..] + b;
    }
  }

  lemma {:induction false} ChunksLength(cs: seq<Bytes>)
    ensures |AsChunks(cs)| == |cs|
    decreases |cs|
  {
    if cs != [] {
      ChunksLength(cs[1..]);
    }
  }

  lemma {:induction false} SumAppend(xs: seq<nat>, x: nat)
    ensures Sum(xs + [x]) == Sum(xs) + x
    decreases |xs|
  {
    if xs != [] {
      SumAppend(xs[1..], x);
      assert (xs + [x])[1..] == xs[1..] + [x];
    }
  }

  /** An ack that frees a slot puts the next bytes on the wire. */
  lemma PumpedIs(tx: Outgoing)
    requires tx.offset <= |tx.data| && tx.inFlight <= WINDOW
    ensures var (after, chunks) := Pumped(tx);
            && SenderOk(after, tx.data)
            && tx.offset <= Offset(after, tx.data) <= |tx.data|
            && Flat(chunks) == tx.data[tx.offset..Offset(after, tx.data)]
            && (forall c | c in chunks :: c != [])
            && InFlight(after) == tx.inFlight + |chunks|
            && Offset(after, tx.data) - tx.offset >= |chunks|
  {
    PumpIs(tx);
  }

  lemma StartInv(data: Bytes, purpose: Purpose)
    requires Servable(|data|)
    ensures Inv(Start(data, purpose), data, purpose)
  {
    PumpedIs(Outgoing(data, 0, 0));
    var cs := Begun(data).1;
    assert Held(Start(data, purpose).rx, data) + Flat(cs) == Flat(cs);
    assert InvWith(Start(data, purpose), data, purpose, false, cs);
  }

  lemma ResponseStep(l: Link, data: Bytes, purpose: Purpose, cs: seq<Bytes>)
    requires Servable(|data|) && InvWith(l, data, purpose, false, cs)
    ensures l.wire != [] && InvWith(Next(l, Receive), data, purpose, true, cs)
  {
    assert l.wire[1..] == AsChunks(cs);
    assert [] + AsChunks(cs) == AsChunks(cs);
  }

  /** Receiving a chunk completes the transfer exactly when it is the last. */
  lemma ChunkStep(l: Link, data: Bytes, purpose: Purpose, cs: seq<Bytes>)
    requires InvWith(l, data, purpose, true, cs) && l.wire != []
    ensures cs != [] && l.rx.Some? && InvWith(Next(l, Receive), data, purpose, true, cs[1..])
    ensures Next(l, Receive).delivered != [] <==> Offset(l.tx, data) == |data| && |cs| == 1
  {
    assert l.wire == AsChunks(cs);
    assert cs != [] && l.wire[0] == Chunk(cs[0]) && l.wire[1..] == AsChunks(cs[1..]);
    assert [] + AsChunks(cs[1..]) == AsChunks(cs[1..]);
    var rest := Flat(cs[1..]);
    assert cs[0] in cs && forall c | c in cs[1..] :: c in cs;
    assert Flat(cs) == cs[0] + rest;
    assert |Held(l.rx, data)| + |Flat(cs)| == Offset(l.tx, data) <= |data|;
    var buf := l.rx.value.buf;
    assert buf + (cs[0] + rest) == buf + cs[0] + rest;
    if cs[1..] != [] {
      assert cs[1] in cs && rest == cs[1] + Flat(cs[1..][1..]);
    }
    if |buf + cs[0]| == |data| {
      assert rest == [] && buf + cs[0] == data;
    }
  }

  lemma AckStep(l: Link, data: Bytes, purpose: Purpose, announced: bool, cs: seq<Bytes>, count: nat)
    requires InvWith(l, data, purpose, announced, cs) && 0 < count <= l.unacked
    ensures InvWith(Next(l, Acknowledge(count)), data, purpose, announced, cs)
  {
    SumAppend(l.acks, count);
  }

  /** An ack of nothing, or of more than is in flight, changes nothing. */
  lemma StrayAck(tx: Outgoing, count: nat)
    requires Flowing(tx)
    ensures Acked(Some(tx), count) == (Some(tx), []) <==> count == 0 || count > tx.inFlight
  {
    if 0 < count <= tx.inFlight {
      AckedIs(tx, count);
    }
  }

  lemma AckedIs(tx: Outgoing, count: nat)
    requires Flowing(tx) && 0 < count <= tx.inFlight
    ensures var (after, chunks) := Acked(Some(tx), count);
            && SenderOk(after, tx.data)
            && tx.offset <= Offset(after, tx.data) <= |tx.data|
            && Flat(chunks) == tx.data[tx.offset..Offset(after, tx.data)]
            && (forall c | c in chunks :: c != [])
            && InFlight(after) == tx.inFlight - count + |chunks|
            && Offset(after, tx.data) - tx.offset >= |chunks|
  {
    var less := tx.(inFlight := tx.inFlight - count);
    if !Finished(less) {
      PumpedIs(less);
    }
  }

  lemma HearStep(l: Link, data: Bytes, purpose: Purpose, announced: bool, cs: seq<Bytes>)
    requires InvWith(l, data, purpose, announced, cs) && l.acks != []
    ensures var more := Acked(l.tx, l.acks[0]).1;
            && InvWith(Next(l, HearAck), data, purpose, announced, cs + more)
            && Offset(Next(l, HearAck).tx, data) - Offset(l.tx, data) >= |more|
  {
    hide OnWire, Conserved, AsChunks, Flat, Sum, Acked, Chunked, Responded;
    var count := l.acks[0];
    AcksLess(l.tx, cs, l.unacked, l.acks);
    AckedIs(l.tx.value, count);
    var (after, more) := Acked(l.tx, count);
    MoreOnWire(l.wire, data, announced, cs, more);
    MoreConserved(l.tx, after, l.rx, data, cs, more);
  }

  lemma AcksLess(tx: Option<Outgoing>, cs: seq<Bytes>, unacked: nat, acks: seq<nat>)
    requires Counted(tx, cs, unacked, acks) && acks != []
    ensures tx.Some? && 0 < acks[0] <= tx.value.inFlight
    ensures InFlight(tx) - acks[0] == |cs| + unacked + Sum(acks[1..])
    ensures forall k | k in acks[1..] :: k > 0
  {
    assert acks[0] in acks && forall k | k in acks[1..] :: k in acks;
  }

  lemma MoreOnWire(wire: seq<Packet>, data: Bytes, announced: bool, cs: seq<Bytes>, more: seq<Bytes>)
    requires OnWire(wire, data, announced, cs)
    ensures OnWire(wire + AsChunks(more), data, announced, cs + more)
  {
    ChunksAppend(cs, more);
    hide AsChunks;
    var head := if announced then [] else [Response(|data|)];
    assert head + AsChunks(cs) + AsChunks(more) == head + (AsChunks(cs) + AsChunks(more));
  }

  lemma MoreConserved(before: Option<Outgoing>, after: Option<Outgoing>, rx: Option<Incoming>,
                      data: Bytes, cs: seq<Bytes>, more: seq<Bytes>)
    requires Conserved(before, rx, data, cs)
    requires Offset(before, data) <= Offset(after, data) <= |data|
    requires Flat(more) == data[Offset(before, data)..Offset(after, data)]
    requires forall c | c in more :: c != []
    ensures Conserved(after, rx, data, cs + more)
  {
    hide Flat;
    FlatAppend(cs, more);
    Joined(data, Offset(before, data), Offset(after, data), Held(rx, data), Flat(cs));
  }

  lemma Joined(data: Bytes, from: nat, upTo: nat, held: Bytes, a: Bytes)
    requires from <= upTo <= |data| && held + a == data[..from]
    ensures held + (a + data[from..upTo]) == data[..upTo]
  {
    assert held + (a + data[from..upTo]) == held + a + data[from..upTo];
  }

  // ---- progress ----

  function Measure(l: Link, data: Bytes): int {
    4 * (|data| - Offset(l.tx, data)) + 3 * |l.wire| + 2 * l.unacked + |l.acks|
  }

  /** Every step keeps the invariant and brings the transfer closer to its end. */
  lemma StepKeeps(l: Link, data: Bytes, purpose: Purpose, step: Step)
    requires Servable(|data|) && Inv(l, data, purpose) && Enabled(l, step)
    ensures Inv(Next(l, step), data, purpose)
    ensures Measure(Next(l, step), data) < Measure(l, data)
  {
    var announced, cs :| InvWith(l, data, purpose, announced, cs);
    hide InvWith, Acked, Offset;
    match step {
      case Receive =>
        if announced {
          ChunkStep(l, data, purpose, cs);
        } else {
          ResponseStep(l, data, purpose, cs);
        }
      case Acknowledge(count) => AckStep(l, data, purpose, announced, cs, count);
      case HearAck =>
        HearStep(l, data, purpose, announced, cs);
        ChunksLength(Acked(l.tx, l.acks[0]).1);
    }
  }

  lemma {:induction false} RunKeeps(l: Link, data: Bytes, purpose: Purpose, steps: seq<Step>)
    requires Servable(|data|) && Inv(l, data, purpose) && Legal(l, steps)
    ensures Inv(Play(l, steps), data, purpose)
    ensures |steps| <= Measure(l, data) - Measure(Play(l, steps), data)
    decreases |steps|
  {
    if steps != [] {
      StepKeeps(l, data, purpose, steps[0]);
      RunKeeps(Next(l, steps[0]), data, purpose, steps[1..]);
    }
  }

  lemma MeasureNeverNegative(l: Link, data: Bytes, purpose: Purpose)
    requires Inv(l, data, purpose)
    ensures Measure(l, data) >= 0
  {
  }

  /** In every run: no fault, at most a window unacknowledged, nothing delivered
      but the payload itself and at most once; and a live send has a full
      window or nothing left to send. */
  lemma TransferSafe(data: Bytes, purpose: Purpose, steps: seq<Step>)
    requires 0 < |data| <= 8 * 1024 * 1024 && Legal(Start(data, purpose), steps)
    ensures var l := Play(Start(data, purpose), steps);
            && l.faults == 0
            && l.delivered in [[], [(purpose, data)]]
            && l.unacked + Sum(l.acks) <= InFlight(l.tx) <= 32
            && (l.tx.Some? ==> l.tx.value.inFlight == 32 || l.tx.value.offset == |data|)
  {
    StartInv(data, purpose);
    RunKeeps(Start(data, purpose), data, purpose, steps);
  }

  /** No run goes on for ever, and a run that can go no further has delivered
      the payload and closed the send. */
  lemma TransferCompletes(data: Bytes, purpose: Purpose, steps: seq<Step>)
    requires 0 < |data| <= 8 * 1024 * 1024 && Legal(Start(data, purpose), steps)
    ensures |steps| <= Measure(Start(data, purpose), data)
    ensures var l := Play(Start(data, purpose), steps);
            (forall step :: !Enabled(l, step)) <==> l.delivered == [(purpose, data)] && l.tx.None?
  {
    StartInv(data, purpose);
    RunKeeps(Start(data, purpose), data, purpose, steps);
    var l := Play(Start(data, purpose), steps);
    MeasureNeverNegative(l, data, purpose);
    StillHolds(l, data, purpose);
  }

  lemma StillHolds(l: Link, data: Bytes, purpose: Purpose)
    requires Servable(|data|) && Inv(l, data, purpose)
    ensures (forall step :: !Enabled(l, step)) <==> l.delivered == [(purpose, data)] && l.tx.None?
  {
    var announced, cs :| InvWith(l, data, purpose, announced, cs);
    ChunksLength(cs);
    assert l.acks != [] ==> l.acks[0] in l.acks;
    if forall step :: !Enabled(l, step) {
      assert !Enabled(l, Receive) && !Enabled(l, HearAck) && !Enabled(l, Acknowledge(1));
      assert Flat(cs) == [];
      assert Held(l.rx, data) + [] == Held(l.rx, data);
    }
    if l.tx.None? {
      assert Sum(l.acks) == 0;
    }
  }
}
