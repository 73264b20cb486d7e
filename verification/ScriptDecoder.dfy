/** The decoder as the relay runs it: a cursor, a table of containers and two
    running costs, updated in place. */
module ScriptDecoders {
  import opened Prelude
  import opened Wire
  import opened ScriptValues

  type Parts = Result<(seq<Text>, seq<Value>, Decoding), Fault>

  function InFront(keys: seq<Text>, values: seq<Value>, rest: Parts): Parts {
    match rest
    case Err(e) => Err(e)
    case Ok(p) => Ok((keys + p.0, values + p.1, p.2))
  }

  lemma InFrontMore(keys: seq<Text>, values: seq<Value>, key: seq<Text>, v: Value, rest: Parts)
    ensures InFront(keys, values, InFront(key, [v], rest)) == InFront(keys + key, values + [v], rest)
  {
    if rest.Ok? {
      assert keys + (key + rest.value.0) == keys + key + rest.value.0;
      assert values + ([v] + rest.value.1) == values + [v] + rest.value.1;
    }
  }

  lemma InFrontNone(keys: seq<Text>, values: seq<Value>, rest: Parts, s: Decoding)
    ensures InFront([], [], rest) == rest
    ensures InFront(keys, values, Ok(([], [], s))) == Ok((keys, values, s))
  {
    if rest.Ok? {
      assert [] + rest.value.0 == rest.value.0 && [] + rest.value.1 == rest.value.1;
    }
    assert keys + [] == keys && values + [] == values;
  }

  class Decoder {
    const data: Bytes
    var pos: nat
    var refs: Refs
    var tree: Cost
    var spent: Cost

    function State(): Decoding
      reads this
    {
      Decoding(pos, refs, tree, spent)
    }

    constructor (data: Bytes)
      ensures this.data == data && State() == Decoding(0, [], NOTHING, NOTHING)
    {
      this.data := data;
      pos, refs, tree, spent := 0, [], NOTHING, NOTHING;
    }

    method ChargeCopy(c: Cost) returns (r: Result<(), Fault>)
      modifies this
      ensures match ChargedCopy(old(State()), c)
              case Ok(s) => r == Ok(()) && State() == s
              case Err(e) => r == Err(e)
    {
      spent := Plus(spent, c);
      if spent.nodes > MAX_NODES || spent.bytes > MAX_BYTES {
        return Err(TooLarge);
      }
      return Ok(());
    }

    method Charge(c: Cost) returns (r: Result<(), Fault>)
      modifies this
      ensures match Charged(old(State()), c)
              case Ok(s) => r == Ok(()) && State() == s
              case Err(e) => r == Err(e)
    {
      tree := Plus(tree, c);
      r := ChargeCopy(c);
    }

    method TakeByte() returns (r: Result<Byte, Fault>)
      modifies this
      ensures match ReadByte(data, old(State()))
              case Ok(t) => r == Ok(t.0) && State() == t.1
              case Err(e) => r == Err(e)
    {
      if pos >= |data| {
        return Err(Truncated);
      }
      r := Ok(data[pos]);
      pos := pos + 1;
    }

    method Take(n: nat) returns (r: Result<Bytes, Fault>)
      modifies this
      ensures match ReadBytes(data, old(State()), n)
              case Ok(t) => r == Ok(t.0) && State() == t.1
              case Err(e) => r == Err(e)
    {
      var end := pos + n;
      if end > |data| {
        return Err(Truncated);
      }
      r := Ok(data[pos..end]);
      pos := end;
    }

    method TakeU32() returns (r: Result<nat, Fault>)
      modifies this
      ensures match ReadUint(data, old(State()), 4)
              case Ok(t) => r == Ok(t.0) && State() == t.1
              case Err(e) => r == Err(e)
    {
      var bytes := Take(4);
      if bytes.Err? { return Err(bytes.error); }
      return Ok(FromLe(bytes.value));
    }

    method TakeCharged(n: nat) returns (r: Result<Bytes, Fault>)
      modifies this
      ensures match ReadCharged(data, old(State()), n)
              case Ok(t) => r == Ok(t.0) && State() == t.1
              case Err(e) => r == Err(e)
    {
      r := Take(n);
      if r.Err? { return; }
      var paid := Charge(Cost(0, n));
      if paid.Err? { return Err(paid.error); }
    }

    method TakeText() returns (r: Result<Text, Fault>)
      modifies this
      ensures match ReadText(data, old(State()))
              case Ok(t) => r == Ok(t.0) && State() == t.1
              case Err(e) => r == Err(e)
    {
      hide ReadCharged, FromLe;
      var b := TakeByte();
      if b.Err? { return Err(b.error); }
      var len := TakeU32();
      if len.Err? { return Err(len.error); }
      var body := TakeCharged(if b.value != 0 then len.value else 2 * len.value);
      if body.Err? { return Err(body.error); }
      return Ok(Text(if b.value != 0 then 1 else 0, body.value));
    }

    method TakeBool() returns (r: Result<bool, Fault>)
      modifies this
      ensures match ReadBool(data, old(State()))
              case Ok(t) => r == Ok(t.0) && State() == t.1
              case Err(e) => r == Err(e)
    {
      var b := TakeByte();
      if b.Err? { return Err(b.error); }
      if b.value == 0 { return Ok(false); }
      if b.value == 1 { return Ok(true); }
      return Err(BadBoolean(b.value));
    }

    method TakeLeaf(tag: Byte) returns (r: Result<Leaf, Fault>)
      requires LeafTag(tag)
      modifies this
      ensures match ReadLeaf(data, old(State()), tag)
              case Ok(t) => r == Ok(t.0) && State() == t.1
              case Err(e) => r == Err(e)
    {
      hide ReadText, ReadBool, ReadUint, ReadBytes;
      if tag == TAG_VOID { return Ok(Undefined); }
      if tag == TAG_NULL { return Ok(Null); }
      if tag == TAG_BOOLEAN || tag == TAG_OBJECT_BOOLEAN {
        var b := TakeBool();
        if b.Err? { return Err(b.error); }
        return Ok(if tag == TAG_BOOLEAN then Bool(b.value) else BooleanObject(b.value));
      }
      if tag == TAG_INT {
        var n := TakeU32();
        if n.Err? { return Err(n.error); }
        return Ok(Int(Signed(n.value, U32)));
      }
      if tag == TAG_DOUBLE || tag == TAG_OBJECT_NUMBER {
        var bits := Take(8);
        if bits.Err? { return Err(bits.error); }
        return Ok(if tag == TAG_DOUBLE then Double(bits.value) else NumberObject(bits.value));
      }
      var t := TakeText();
      if t.Err? { return Err(t.error); }
      return Ok(if tag == TAG_STRING then Str(t.value) else StringObject(t.value));
    }

    method TakeBack() returns (r: Result<Value, Fault>)
      modifies this
      ensures match ReadBack(data, old(State()))
              case Ok(t) => r == Ok(t.0) && State() == t.1
              case Err(e) => r == Err(e)
    {
      var n := TakeU32();
      if n.Err? { return Err(n.error); }
      if !(1 <= n.value <= |refs|) || refs[n.value - 1].None? {
        return Err(BadBackref(n.value));
      }
      // Paid for before the copy is made.
      var paid := Charge(refs[n.value - 1].value.1);
      if paid.Err? { return Err(paid.error); }
      return Ok(refs[n.value - 1].value.0);
    }

    method ReserveRef() returns (slot: nat)
      modifies this
      ensures State() == Reserved(old(State())) && slot == |refs| - 1
    {
      slot := |refs|;
      refs := refs + [None];
    }

    method FillRef(slot: nat, v: Value, cost: Cost) returns (r: Result<(), Fault>)
      requires slot < |refs|
      modifies this
      ensures match Filled(old(State()), slot, v, cost)
              case Ok(s) => r == Ok(()) && State() == s
              case Err(e) => r == Err(e)
    {
      r := ChargeCopy(cost);
      if r.Err? { return; }
      refs := refs[slot := Some((v, cost))];
    }

    method TakeHead(tag: Byte) returns (r: Result<(Head, nat), Fault>)
      requires HeadTag(tag)
      modifies this
      ensures match ReadHead(data, old(State()), tag)
              case Ok(t) => r == Ok((t.0, t.1)) && State() == t.2
              case Err(e) => r == Err(e)
    {
      hide ReadCharged, ReadUint;
      if tag == TAG_TYPED_ARRAY {
        var elementType := TakeByte();
        if elementType.Err? { return Err(elementType.error); }
        var offset := TakeU32();
        if offset.Err? { return Err(offset.error); }
        var length := TakeU32();
        if length.Err? { return Err(length.error); }
        return Ok((TypedArrayOf(elementType.value, offset.value, length.value), 1));
      }
      var n := TakeU32();
      if n.Err? { return Err(n.error); }
      if tag == TAG_ARRAY {
        var count := TakeU32();
        if count.Err? { return Err(count.error); }
        return Ok((ArrayOf(n.value), count.value));
      }
      if tag == TAG_ARRAY_BUFFER {
        var bytes := TakeCharged(n.value);
        if bytes.Err? { return Err(bytes.error); }
        return Ok((BufferOf(bytes.value), 0));
      }
      if tag == TAG_OBJECT { return Ok((ObjectOf, n.value)); }
      if tag == TAG_OBJECT_MAP { return Ok((MapOf, 2 * n.value)); }
      return Ok((SetOf, n.value));
    }

    method TakeValue(depth: nat) returns (r: Result<Value, Fault>)
      requires depth <= MAX_DEPTH + 1
      modifies this
      ensures match ReadValue(data, old(State()), depth)
              case Ok(t) => r == Ok(t.0) && State() == t.1
              case Err(e) => r == Err(e)
      decreases MAX_DEPTH + 1 - depth, 0
    {
      hide ReadLeaf, ReadBack, ReadContainer, ReadByte;
      if depth > MAX_DEPTH {
        return Err(TooDeep);
      }
      var start := tree;
      var paid := Charge(NODE);
      if paid.Err? { return Err(paid.error); }
      var t := TakeByte();
      if t.Err? { return Err(t.error); }
      var tag := t.value;
      if LeafTag(tag) {
        var leaf := TakeLeaf(tag);
        if leaf.Err? { return Err(leaf.error); }
        return Ok(Plain(leaf.value));
      }
      if tag == TAG_PRIOR_OBJECT {
        r := TakeBack();
        return;
      }
      if HeadTag(tag) {
        var slot := ReserveRef();
        r := TakeContainer(start, slot, depth, tag);
        return;
      }
      if tag == TAG_OBJECT_PROTOTYPE {
        return Err(Unsupported(TAG_OBJECT_PROTOTYPE));
      }
      return Err(UnknownTag(tag));
    }

    method TakeContainer(start: Cost, slot: nat, depth: nat, tag: Byte) returns (r: Result<Value, Fault>)
      requires depth <= MAX_DEPTH && HeadTag(tag) && refs != [] && slot == |refs| - 1
      modifies this
      ensures match ReadContainer(data, start, old(State()), depth, tag)
              case Ok(t) => r == Ok(t.0) && State() == t.1
              case Err(e) => r == Err(e)
      decreases MAX_DEPTH - depth, 2
    {
      hide ReadHead, ReadParts, Filled;
      var head := TakeHead(tag);
      if head.Err? { return Err(head.error); }
      var parts := TakeParts(depth + 1, head.value.0.Keyed(), head.value.1);
      if parts.Err? { return Err(parts.error); }
      var v := Container(head.value.0, parts.value.0, parts.value.1);
      var filled := FillRef(slot, v, Since(tree, start));
      if filled.Err? { return Err(filled.error); }
      return Ok(v);
    }

    method TakeParts(depth: nat, keyed: bool, count: nat) returns (r: Result<(seq<Text>, seq<Value>), Fault>)
      requires depth <= MAX_DEPTH + 1
      modifies this
      ensures match ReadParts(data, old(State()), depth, keyed, count)
              case Ok(t) => r == Ok((t.0, t.1)) && State() == t.2
              case Err(e) => r == Err(e)
      decreases MAX_DEPTH + 1 - depth, 1
    {
      hide ReadValue, ReadText;
      ghost var s0 := State();
      var keys: seq<Text>, values: seq<Value> := [], [];
      var i := 0;
      InFrontNone([], [], ReadParts(data, s0, depth, keyed, count), s0);
      while i < count
        invariant 0 <= i <= count
        invariant ReadParts(data, s0, depth, keyed, count)
               == InFront(keys, values, ReadParts(data, State(), depth, keyed, count - i))
      {
        ghost var s1 := State();
        var key: seq<Text> := [];
        if keyed {
          var text := TakeText();
          if text.Err? { return Err(text.error); }
          key := [text.value];
        }
        var v := TakeValue(depth);
        if v.Err? { return Err(v.error); }
        ghost var rest := ReadParts(data, State(), depth, keyed, count - i - 1);
        assert ReadParts(data, s1, depth, keyed, count - i) == InFront(key, [v.value], rest);
        InFrontMore(keys, values, key, v.value, rest);
        keys, values := keys + key, values + [v.value];
        i := i + 1;
      }
      InFrontNone(keys, values, Ok(([], [], State())), State());
      return Ok((keys, values));
    }
  }

  method DecodeBytes(bytes: Bytes) returns (r: Result<Value, Fault>)
    ensures r == Decode(bytes)
  {
    hide ReadValue;
    var decoder := new Decoder(bytes);
    r := decoder.TakeValue(0);
    if r.Ok? && decoder.pos < |bytes| {
      r := Err(TrailingBytes(|bytes| - decoder.pos));
    }
  }
}
