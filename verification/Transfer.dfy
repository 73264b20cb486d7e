/** Gamestate transfers: a windowed sender and an accumulating receiver, keyed
    by peer and request. */
module Transfers {
  import opened Prelude

  const CHUNK_SIZE: nat := 1024
  const WINDOW: nat := 32
  const MAX_TRANSFER: nat := 8 * 1024 * 1024

  type Key = (Peer, nat)

  datatype Purpose =
    | JoinSnapshot(joiner: Peer, floor: nat)
    | SaveSnapshot(floor: nat)
    | AiSnapshot(floor: nat)
    | Savegame

  datatype Outgoing = Outgoing(data: Bytes, offset: nat, inFlight: nat)

  datatype Incoming = Incoming(purpose: Purpose, declared: nat, buf: Bytes)

  datatype TransferFault = WrongPhase | TransferOverrun

  datatype TransferState = TransferState(
    outgoing: map<Key, Outgoing>, incoming: map<Key, Incoming>, granted: map<Peer, Bytes>)

  predicate Servable(length: nat) { 0 < length <= MAX_TRANSFER }

  function Put<V>(m: map<Key, V>, key: Key, v: Option<V>): map<Key, V> {
    if v.Some? then m[key := v.value] else m - {key}
  }

  function Get<V>(m: map<Key, V>, key: Key): Option<V> {
    if key in m then Some(m[key]) else None
  }

  // ---- one send ----

  /** Fills the window with whatever is left to send. */
  function Pump(tx: Outgoing): (Outgoing, seq<Bytes>)
    decreases |tx.data| - tx.offset
  {
    if tx.inFlight < WINDOW && tx.offset < |tx.data| then
      var end := Min(tx.offset + CHUNK_SIZE, |tx.data|);
      var rest := Pump(tx.(offset := end, inFlight := tx.inFlight + 1));
      (rest.0, [tx.data[tx.offset..end]] + rest.1)
    else (tx, [])
  }

  predicate Finished(tx: Outgoing) { tx.offset >= |tx.data| && tx.inFlight == 0 }

  function Pumped(tx: Outgoing): (Option<Outgoing>, seq<Bytes>) {
    var (after, chunks) := Pump(tx);
    (if Finished(after) then None else Some(after), chunks)
  }

  function Begun(data: Bytes): (Option<Outgoing>, seq<Bytes>) { Pumped(Outgoing(data, 0, 0)) }

  /** What an ack of `count` chunks does to a send, if there is one. */
  function Acked(tx: Option<Outgoing>, count: nat): (Option<Outgoing>, seq<Bytes>) {
    if tx.None? || count == 0 || count > tx.value.inFlight then (tx, [])
    else
      var less := tx.value.(inFlight := tx.value.inFlight - count);
      if Finished(less) then (None, []) else Pumped(less)
  }

  function Flat(chunks: seq<Bytes>): Bytes {
    if chunks == [] then [] else chunks[0] + Flat(chunks[1..])
  }

  /** The chunks are the next bytes of the payload, none of them empty, and
      afterwards the window is full or the payload is out. */
  lemma {:induction false} PumpIs(tx: Outgoing)
    requires tx.offset <= |tx.data| && tx.inFlight <= WINDOW
    ensures var (after, chunks) := Pump(tx);
            && after.data == tx.data
            && tx.offset <= after.offset <= |tx.data|
            && Flat(chunks) == tx.data[tx.offset..after.offset]
            && (forall c | c in chunks :: 0 < |c| <= CHUNK_SIZE)
            && after.inFlight == tx.inFlight + |chunks| <= WINDOW
            && (after.inFlight == WINDOW || after.offset == |tx.data|)
            && after.offset - tx.offset >= |chunks|
    decreases |tx.data| - tx.offset
  {
    if tx.inFlight < WINDOW && tx.offset < |tx.data| {
      var end := Min(tx.offset + CHUNK_SIZE, |tx.data|);
      var next := tx.(offset := end, inFlight := tx.inFlight + 1);
      PumpIs(next);
      var (after, rest) := Pump(next);
      var first := tx.data[tx.offset..end];
      assert ([first] + rest)[1..] == rest;
      assert tx.data[tx.offset..after.offset] == first + tx.data[end..after.offset];
    }
  }

  /** Every chunk is 1024 bytes long, but for the last of the payload. */
  lemma {:induction false} PumpFills(tx: Outgoing)
    ensures var (after, chunks) := Pump(tx);
            forall i | 0 <= i < |chunks| ::
              |chunks[i]| == 1024 || (i == |chunks| - 1 && after.offset == |tx.data|)
    decreases |tx.data| - tx.offset
  {
    if tx.inFlight < WINDOW && tx.offset < |tx.data| {
      var end := Min(tx.offset + CHUNK_SIZE, |tx.data|);
      var next := tx.(offset := end, inFlight := tx.inFlight + 1);
      PumpFills(next);
      var first, rest := tx.data[tx.offset..end], Pump(next).1;
      assert end < |tx.data| ==> |first| == 1024;
      assert end == |tx.data| ==> rest == [] && Pump(next).0 == next;
      PumpKeepsData(next);
      var all: seq<Bytes> := [first] + rest;
      assert Pump(tx).0 == Pump(next).0 && Pump(tx).1 == all;
      hide Pump;
      forall i: nat | i < |all|
        ensures |all[i]| == 1024 || (i == |all| - 1 && Pump(next).0.offset == |tx.data|)
      {
        assert i > 0 ==> all[i] == rest[i - 1];
      }
    }
  }

  lemma {:induction false} PumpKeepsData(tx: Outgoing)
    ensures Pump(tx).0.data == tx.data
    decreases |tx.data| - tx.offset
  {
    if tx.inFlight < WINDOW && tx.offset < |tx.data| {
      PumpKeepsData(tx.(offset := Min(tx.offset + CHUNK_SIZE, |tx.data|), inFlight := tx.inFlight + 1));
    }
  }

  // ---- one receive ----

  function Responded(rx: Option<Incoming>, length: nat): Result<Incoming, TransferFault> {
    if rx.None? then Err(WrongPhase)
    else if length == 0 || length > MAX_TRANSFER then Err(TransferOverrun)
    else Ok(rx.value.(declared := length, buf := []))
  }

  /** The receive that goes on, if any, and the payload if it is complete. */
  function Chunked(rx: Option<Incoming>, data: Bytes)
    : (Option<Incoming>, Result<Option<(Purpose, Bytes)>, TransferFault>)
  {
    if rx.None? then (None, Err(WrongPhase))
    else
      var more := rx.value.(buf := rx.value.buf + data);
      if |more.buf| > more.declared then (None, Err(TransferOverrun))
      else if |more.buf| < more.declared then (Some(more), Ok(None))
      else (None, Ok(Some((more.purpose, more.buf))))
  }

  /** A transfer completes exactly when the bytes so far reach the length that
      was declared, and is gone once they do or pass it; the payload is empty only if no response ever came. */
  lemma CompletesAtDeclared(rx: Incoming, data: Bytes)
    requires |rx.buf| <= rx.declared
    ensures var (next, done) := Chunked(Some(rx), data);
            && (next.Some? <==> |rx.buf| + |data| < rx.declared)
            && (done.Ok? && done.value.Some? <==> |rx.buf| + |data| == rx.declared)
            && (done == Ok(Some((rx.purpose, []))) <==> rx.declared == 0 && data == [])
            && (done.Err? <==> |rx.buf| + |data| > rx.declared)
  {
    if rx.declared == 0 && data == [] {
      assert rx.buf + data == [];
    }
  }

  /** Once it is answered a receive starts over: what came before the answer is
      forgotten, and exactly the length it declares completes it. */
  lemma AnswerStartsOver(rx: Incoming, length: nat, data: Bytes)
    ensures Responded(Some(rx), length).Ok? <==> 1 <= length <= 8 * 1024 * 1024
    ensures match Responded(Some(rx), length)
            case Err(_) => true
            case Ok(again) =>
              Chunked(Some(again), data)
              == if |data| < length then (Some(again.(buf := data)), Ok(None))
                 else (None, if |data| == length then Ok(Some((rx.purpose, data))) else Err(TransferOverrun))
  {
    var nothing: Bytes := [];
    assert nothing + data == data;
  }

  /** So an empty chunk ahead of the response completes with nothing. */
  lemma EmptyPayload(purpose: Purpose)
    ensures Chunked(Some(Incoming(purpose, 0, [])), []) == (None, Ok(Some((purpose, []))))
  {
    var nothing: Bytes := [];
    assert nothing + [] == [];
  }

  // ---- all of a peer's transfers ----

  predicate Involves(peer: Peer, key: Key, rx: Incoming) {
    key.0 == peer || (rx.purpose.JoinSnapshot? && rx.purpose.joiner == peer)
  }

  function WithoutPeer(incoming: map<Key, Incoming>, peer: Peer): map<Key, Incoming> {
    map k | k in incoming && !Involves(peer, k, incoming[k]) :: incoming[k]
  }

  function Forgotten(s: TransferState, peer: Peer): TransferState {
    TransferState(map k | k in s.outgoing && k.0 != peer :: s.outgoing[k],
                  WithoutPeer(s.incoming, peer),
                  s.granted - {peer})
  }

  predicate Sources(peer: Peer, key: Key, rx: Incoming) {
    key.0 == peer && rx.purpose.JoinSnapshot? && rx.purpose.joiner != peer
  }

  /** The other peers whose snapshot this one was sourcing. */
  function Orphaned(incoming: map<Key, Incoming>, peer: Peer): set<Peer> {
    set k | k in incoming && Sources(peer, k, incoming[k]) :: incoming[k].purpose.joiner
  }

  /** What goes when a peer leaves: its transfers either way, its grant and the
      snapshots made for it. The others told are the joiners that lose one so. */
  lemma ForgetLeavesNothing(s: TransferState, peer: Peer, key: Key, joiner: Peer)
    ensures var after := Forgotten(s, peer);
            && (key in after.outgoing <==> key in s.outgoing && key.0 != peer)
            && (key in after.incoming
                <==> key in s.incoming && key.0 != peer
                     && !(s.incoming[key].purpose.JoinSnapshot? && s.incoming[key].purpose.joiner == peer))
            && (joiner in after.granted <==> joiner in s.granted && joiner != peer)
            && (key in after.outgoing ==> after.outgoing[key] == s.outgoing[key])
            && (key in after.incoming ==> after.incoming[key] == s.incoming[key])
            && (joiner in after.granted ==> after.granted[joiner] == s.granted[joiner])
            && (joiner in Orphaned(s.incoming, peer)
                <==> joiner != peer
                     && exists k | k in s.incoming && k !in after.incoming ::
                          s.incoming[k].purpose.JoinSnapshot? && s.incoming[k].purpose.joiner == joiner)
  {
  }

  lemma OneLooked(done: map<Key, Incoming>, peer: Peer, k: Key, rx: Incoming)
    requires k !in done
    ensures WithoutPeer(done[k := rx], peer)
         == if Involves(peer, k, rx) then WithoutPeer(done, peer) else WithoutPeer(done, peer)[k := rx]
    ensures Orphaned(done[k := rx], peer)
         == Orphaned(done, peer) + (if Sources(peer, k, rx) then {rx.purpose.joiner} else {})
  {
    var more := done[k := rx];
    forall j | j in Orphaned(done, peer) ensures j in Orphaned(more, peer) {
      var i :| i in done && Sources(peer, i, done[i]) && done[i].purpose.joiner == j;
      assert more[i] == done[i];
    }
    if Sources(peer, k, rx) {
      assert more[k] == rx;
    }
  }

  /** Something is still to be acknowledged, and the window is full or the
      payload is out: the send cannot stall while acks arrive. */
  predicate Flowing(tx: Outgoing) {
    && tx.offset <= |tx.data|
    && 0 < tx.inFlight <= WINDOW
    && (tx.inFlight == WINDOW || tx.offset == |tx.data|)
  }

  predicate Filling(rx: Incoming) {
    |rx.buf| < rx.declared || (rx.declared == 0 && rx.buf == [])
  }

  ghost predicate Sound(s: TransferState) {
    && (forall k | k in s.outgoing :: Flowing(s.outgoing[k]))
    && (forall k | k in s.incoming :: Filling(s.incoming[k]))
  }

  class TransferTable {
    var nextRequestId: nat
    var outgoing: map<Key, Outgoing>
    var incoming: map<Key, Incoming>
    var granted: map<Peer, Bytes>

    ghost function State(): TransferState
      reads this
    {
      TransferState(outgoing, incoming, granted)
    }

    ghost predicate Valid()
      reads this
    {
      Sound(State())
    }

    constructor ()
      ensures Valid() && State() == TransferState(map[], map[], map[])
    {
      nextRequestId, outgoing, incoming, granted := 0, map[], map[], map[];
    }

    method Allocate() returns (id: nat)
      modifies this`nextRequestId
      ensures id == nextRequestId == old(nextRequestId) + 1
    {
      nextRequestId := nextRequestId + 1;
      return nextRequestId;
    }

    method Expect(peer: Peer, id: nat, purpose: Purpose)
      requires Valid()
      modifies this`incoming
      ensures Valid()
      ensures incoming == old(incoming)[(peer, id) := Incoming(purpose, 0, [])]
    {
      incoming := incoming[(peer, id) := Incoming(purpose, 0, [])];
    }

    method Grant(peer: Peer, data: Bytes)
      requires Valid()
      modifies this`granted
      ensures Valid() && granted == old(granted)[peer := data]
    {
      granted := granted[peer := data];
    }

    /** A grant is good for one download. */
    method TakeGrant(peer: Peer) returns (data: Option<Bytes>)
      requires Valid()
      modifies this`granted
      ensures Valid() && granted == old(granted) - {peer}
      ensures data == if peer in old(granted) then Some(old(granted)[peer]) else None
    {
      if peer !in granted {
        return None;
      }
      data := Some(granted[peer]);
      granted := granted - {peer};
    }

    method Abandon(peer: Peer, id: nat)
      requires Valid()
      modifies this`incoming
      ensures Valid() && incoming == old(incoming) - {(peer, id)}
    {
      incoming := incoming - {(peer, id)};
    }

    method BeginSend(peer: Peer, id: nat, data: Bytes) returns (r: Option<(nat, seq<Bytes>)>)
      requires Valid()
      modifies this`outgoing
      ensures Valid()
      ensures if Servable(|data|)
              then && r == Some((|data|, Begun(data).1))
                   && outgoing == Put(old(outgoing), (peer, id), Begun(data).0)
              else r == None && outgoing == old(outgoing)
    {
      if |data| == 0 || |data| > MAX_TRANSFER {
        return None;
      }
      outgoing := outgoing[(peer, id) := Outgoing(data, 0, 0)];
      var chunks := PumpOut(peer, id);
      assert forall v: Option<Outgoing> ::
        Put(old(outgoing)[(peer, id) := Outgoing(data, 0, 0)], (peer, id), v) == Put(old(outgoing), (peer, id), v);
      return Some((|data|, chunks));
    }

    method PumpOut(peer: Peer, id: nat) returns (chunks: seq<Bytes>)
      requires (peer, id) in outgoing ==>
        outgoing[(peer, id)].offset <= |outgoing[(peer, id)].data|
        && outgoing[(peer, id)].inFlight <= WINDOW
      requires forall k | k in outgoing && k != (peer, id) :: Flowing(outgoing[k])
      requires forall k | k in incoming :: Filling(incoming[k])
      modifies this`outgoing
      ensures Valid()
      ensures if (peer, id) in old(outgoing)
              then && chunks == Pumped(old(outgoing)[(peer, id)]).1
                   && outgoing == Put(old(outgoing), (peer, id), Pumped(old(outgoing)[(peer, id)]).0)
              else chunks == [] && outgoing == old(outgoing)
    {
      chunks := [];
      if (peer, id) !in outgoing {
        assert outgoing - {(peer, id)} == outgoing;
        return;
      }
      var tx := outgoing[(peer, id)];
      PumpIs(tx);
      hide Pump;
      tx, chunks := Fill(tx);
      outgoing := outgoing[(peer, id) := tx];
      if tx.offset >= |tx.data| && tx.inFlight == 0 {
        outgoing := outgoing - {(peer, id)};
      }
    }

    static method Fill(first: Outgoing) returns (tx: Outgoing, chunks: seq<Bytes>)
      requires first.offset <= |first.data|
      ensures (tx, chunks) == Pump(first)
    {
      tx, chunks := first, [];
      assert [] + Pump(first).1 == Pump(first).1;
      while tx.inFlight < WINDOW && tx.offset < |tx.data|
        invariant tx.offset <= |tx.data|
        invariant Pump(first).0 == Pump(tx).0 && Pump(first).1 == chunks + Pump(tx).1
        decreases |tx.data| - tx.offset
      {
        var end := Min(tx.offset + CHUNK_SIZE, |tx.data|);
        var chunk := tx.data[tx.offset..end];
        ghost var next := tx.(offset := end, inFlight := tx.inFlight + 1);
        assert chunks + ([chunk] + Pump(next).1) == chunks + [chunk] + Pump(next).1;
        chunks := chunks + [chunk];
        tx := tx.(offset := end, inFlight := tx.inFlight + 1);
      }
      assert chunks + [] == chunks;
    }

    method OnAck(peer: Peer, id: nat, count: nat) returns (chunks: seq<Bytes>)
      requires Valid()
      modifies this`outgoing
      ensures Valid()
      ensures chunks == Acked(Get(old(outgoing), (peer, id)), count).1
      ensures outgoing
           == Put(old(outgoing), (peer, id), Acked(Get(old(outgoing), (peer, id)), count).0)
    {
      if (peer, id) !in outgoing {
        assert outgoing - {(peer, id)} == outgoing;
        return [];
      }
      var tx := outgoing[(peer, id)];
      if count == 0 || count > tx.inFlight {
        assert outgoing[(peer, id) := tx] == outgoing;
        return [];
      }
      var less := tx.(inFlight := tx.inFlight - count);
      outgoing := outgoing[(peer, id) := less];
      if less.offset >= |less.data| && less.inFlight == 0 {
        outgoing := outgoing - {(peer, id)};
        assert outgoing == old(outgoing) - {(peer, id)};
        return [];
      }
      chunks := PumpOut(peer, id);
      assert forall v: Option<Outgoing> ::
        Put(old(outgoing)[(peer, id) := less], (peer, id), v) == Put(old(outgoing), (peer, id), v);
    }

    method OnResponse(peer: Peer, id: nat, length: nat) returns (r: Result<(), TransferFault>)
      requires Valid()
      modifies this`incoming
      ensures Valid()
      ensures match Responded(Get(old(incoming), (peer, id)), length)
              case Ok(rx) => r == Ok(()) && incoming == old(incoming)[(peer, id) := rx]
              case Err(e) => r == Err(e) && incoming == old(incoming)
    {
      if (peer, id) !in incoming {
        return Err(WrongPhase);
      }
      if length == 0 || length > MAX_TRANSFER {
        return Err(TransferOverrun);
      }
      incoming := incoming[(peer, id) := incoming[(peer, id)].(declared := length, buf := [])];
      return Ok(());
    }

    method OnChunk(peer: Peer, id: nat, data: Bytes)
      returns (r: Result<Option<(Purpose, Bytes)>, TransferFault>)
      requires Valid()
      modifies this`incoming
      ensures Valid()
      ensures r == Chunked(Get(old(incoming), (peer, id)), data).1
      ensures incoming
           == Put(old(incoming), (peer, id), Chunked(Get(old(incoming), (peer, id)), data).0)
    {
      if (peer, id) !in incoming {
        assert incoming - {(peer, id)} == incoming;
        return Err(WrongPhase);
      }
      var rx := incoming[(peer, id)];
      rx := rx.(buf := rx.buf + data);
      incoming := incoming[(peer, id) := rx];
      if |rx.buf| > rx.declared {
        incoming := incoming - {(peer, id)};
        assert incoming == old(incoming) - {(peer, id)};
        return Err(TransferOverrun);
      }
      if |rx.buf| < rx.declared {
        return Ok(None);
      }
      incoming := incoming - {(peer, id)};
      assert incoming == old(incoming) - {(peer, id)};
      return Ok(Some((rx.purpose, rx.buf)));
    }

    method Forget(peer: Peer) returns (orphaned: set<Peer>)
      requires Valid()
      modifies this`outgoing, this`incoming, this`granted
      ensures Valid() && State() == Forgotten(old(State()), peer)
      ensures orphaned == Orphaned(old(incoming), peer)
    {
      outgoing := map k | k in outgoing && k.0 != peer :: outgoing[k];
      orphaned := DropIncoming(peer);
      granted := granted - {peer};
    }

    method DropIncoming(peer: Peer) returns (orphaned: set<Peer>)
      modifies this`incoming
      ensures incoming == WithoutPeer(old(incoming), peer)
      ensures orphaned == Orphaned(old(incoming), peer)
    {
      hide WithoutPeer, Orphaned;
      orphaned := {};
      var kept: map<Key, Incoming> := map[];
      var todo := incoming.Keys;
      ghost var done: map<Key, Incoming> := map[];
      NoneLooked(peer);
      while todo != {}
        invariant todo <= incoming.Keys && incoming == old(incoming)
        invariant done == incoming - todo
        invariant kept == WithoutPeer(done, peer) && orphaned == Orphaned(done, peer)
        decreases |todo|
      {
        var k :| k in todo;
        var rx := incoming[k];
        OneLooked(done, peer, k, rx);
        done := done[k := rx];
        todo := todo - {k};
        if rx.purpose.JoinSnapshot? && rx.purpose.joiner == peer {
        } else if rx.purpose.JoinSnapshot? && k.0 == peer {
          orphaned := orphaned + {rx.purpose.joiner};
        } else if k.0 != peer {
          kept := kept[k := rx];
        }
      }
      assert done == incoming;
      incoming := kept;
    }
  }

  lemma NoneLooked(peer: Peer)
    ensures WithoutPeer(map[], peer) == map[] && Orphaned(map[], peer) == {}
  {
  }
}
