/** The decoder of structured-clone values: what it reads, what it charges for
    it, and the table a back-reference is looked up in. */
module ScriptValues {
  import opened Prelude
  import opened Wire

  const TAG_VOID: Byte := 0x00
  const TAG_NULL: Byte := 0x01
  const TAG_ARRAY: Byte := 0x02
  const TAG_OBJECT: Byte := 0x03
  const TAG_STRING: Byte := 0x04
  const TAG_INT: Byte := 0x05
  const TAG_DOUBLE: Byte := 0x06
  const TAG_BOOLEAN: Byte := 0x07
  const TAG_PRIOR_OBJECT: Byte := 0x08
  const TAG_TYPED_ARRAY: Byte := 0x09
  const TAG_ARRAY_BUFFER: Byte := 0x0a
  const TAG_OBJECT_PROTOTYPE: Byte := 0x0b
  const TAG_OBJECT_NUMBER: Byte := 0x0c
  const TAG_OBJECT_STRING: Byte := 0x0d
  const TAG_OBJECT_BOOLEAN: Byte := 0x0e
  const TAG_OBJECT_MAP: Byte := 0x0f
  const TAG_OBJECT_SET: Byte := 0x10

  const MAX_DEPTH: nat := 64
  const MAX_NODES: nat := 100_000
  const MAX_BYTES: nat := 0x10_0000

  // A string by its bytes: Latin-1, or UTF-16 if the flag is zero.
  datatype Text = Text(flag: Byte, body: Bytes)

  datatype Leaf =
    | Undefined
    | Null
    | Bool(value: bool)
    | Int(n: int)
    | Double(bits: Bytes)
    | Str(text: Text)
    | NumberObject(bits: Bytes)
    | StringObject(text: Text)
    | BooleanObject(value: bool)

  /** What a container holds besides its parts. The parts of an array or an
      object are its property values, those of a map its keys and values in
      turn, and the one part of a typed array its buffer. */
  datatype Head =
    | ArrayOf(length: nat)
    | ObjectOf
    | MapOf
    | SetOf
    | TypedArrayOf(elementType: Byte, offset: nat, length: nat)
    | BufferOf(bytes: Bytes)
  {
    predicate Keyed() { ArrayOf? || ObjectOf? }
  }

  datatype Value = Plain(leaf: Leaf) | Container(head: Head, keys: seq<Text>, parts: seq<Value>)

  datatype Fault =
    | Truncated
    | UnknownTag(tag: Byte)
    | Unsupported(tag: Byte)
    | BadBoolean(b: Byte)
    | BadBackref(n: nat)
    | TooDeep
    | TooLarge
    | TrailingBytes(n: nat)

  // ---- costs ----

  datatype Cost = Cost(nodes: nat, bytes: nat)

  const NOTHING: Cost := Cost(0, 0)
  const NODE: Cost := Cost(1, 0)

  function Plus(a: Cost, b: Cost): Cost { Cost(a.nodes + b.nodes, a.bytes + b.bytes) }

  function Since(a: Cost, start: Cost): Cost {
    Cost(SaturatingSub(a.nodes, start.nodes), SaturatingSub(a.bytes, start.bytes))
  }

  predicate AtMost(a: Cost, b: Cost) { a.nodes <= b.nodes && a.bytes <= b.bytes }

  predicate InBudget(c: Cost) { c.nodes <= MAX_NODES && c.bytes <= MAX_BYTES }

  // ---- the decoder ----

  /** A slot is empty while its value is still being read. */
  type Refs = seq<Option<(Value, Cost)>>

  datatype Decoding = Decoding(pos: nat, refs: Refs, tree: Cost, spent: Cost)

  function ChargedCopy(s: Decoding, c: Cost): Result<Decoding, Fault> {
    var spent := Plus(s.spent, c);
    if InBudget(spent) then Ok(s.(spent := spent)) else Err(TooLarge)
  }

  function Charged(s: Decoding, c: Cost): Result<Decoding, Fault> {
    ChargedCopy(s.(tree := Plus(s.tree, c)), c)
  }

  function Reserved(s: Decoding): Decoding { s.(refs := s.refs + [None]) }

  function Filled(s: Decoding, slot: nat, v: Value, cost: Cost): Result<Decoding, Fault>
    requires slot < |s.refs|
  {
    match ChargedCopy(s, cost)
    case Err(e) => Err(e)
    case Ok(s1) => Ok(s1.(refs := s1.refs[slot := Some((v, cost))]))
  }

  function ReadByte(data: Bytes, s: Decoding): Result<(Byte, Decoding), Fault> {
    if s.pos < |data| then Ok((data[s.pos], s.(pos := s.pos + 1))) else Err(Truncated)
  }

  function ReadUint(data: Bytes, s: Decoding, width: nat): Result<(nat, Decoding), Fault> {
    match TakeUint(data, s.pos, width)
    case None => Err(Truncated)
    case Some(t) => Ok((t.0, s.(pos := t.1)))
  }

  function ReadBytes(data: Bytes, s: Decoding, n: nat): Result<(Bytes, Decoding), Fault> {
    match TakeBytes(data, s.pos, n)
    case None => Err(Truncated)
    case Some(t) => Ok((t.0, s.(pos := t.1)))
  }

  function ReadCharged(data: Bytes, s: Decoding, n: nat): Result<(Bytes, Decoding), Fault> {
    match ReadBytes(data, s, n)
    case Err(e) => Err(e)
    case Ok(t) =>
      match Charged(t.1, Cost(0, n))
      case Err(e) => Err(e)
      case Ok(s1) => Ok((t.0, s1))
  }

  function ReadText(data: Bytes, s: Decoding): Result<(Text, Decoding), Fault> {
    match ReadByte(data, s)
    case Err(e) => Err(e)
    case Ok(flag) =>
      match ReadUint(data, flag.1, 4)
      case Err(e) => Err(e)
      case Ok(len) =>
        match ReadCharged(data, len.1, if flag.0 != 0 then len.0 else 2 * len.0)
        case Err(e) => Err(e)
        case Ok(body) => Ok((Text(if flag.0 != 0 then 1 else 0, body.0), body.1))
  }

  function ReadBool(data: Bytes, s: Decoding): Result<(bool, Decoding), Fault> {
    match ReadByte(data, s)
    case Err(e) => Err(e)
    case Ok(b) =>
      if b.0 == 0 then Ok((false, b.1))
      else if b.0 == 1 then Ok((true, b.1))
      else Err(BadBoolean(b.0))
  }

  predicate LeafTag(tag: Byte) {
    tag in {TAG_VOID, TAG_NULL, TAG_STRING, TAG_INT, TAG_DOUBLE, TAG_BOOLEAN, TAG_OBJECT_NUMBER,
            TAG_OBJECT_STRING, TAG_OBJECT_BOOLEAN}
  }

  function ReadLeaf(data: Bytes, s: Decoding, tag: Byte): (r: Result<(Leaf, Decoding), Fault>)
    requires LeafTag(tag)
    ensures r.Ok? ==> r.value.1.refs == s.refs
  {
    if tag == TAG_VOID then Ok((Undefined, s))
    else if tag == TAG_NULL then Ok((Null, s))
    else if tag == TAG_BOOLEAN then
      match ReadBool(data, s) case Err(e) => Err(e) case Ok(b) => Ok((Bool(b.0), b.1))
    else if tag == TAG_OBJECT_BOOLEAN then
      match ReadBool(data, s) case Err(e) => Err(e) case Ok(b) => Ok((BooleanObject(b.0), b.1))
    else if tag == TAG_INT then
      match ReadUint(data, s, 4) case Err(e) => Err(e) case Ok(n) => Ok((Int(Signed(n.0, U32)), n.1))
    else if tag == TAG_DOUBLE then
      match ReadBytes(data, s, 8) case Err(e) => Err(e) case Ok(b) => Ok((Double(b.0), b.1))
    else if tag == TAG_OBJECT_NUMBER then
      match ReadBytes(data, s, 8) case Err(e) => Err(e) case Ok(b) => Ok((NumberObject(b.0), b.1))
    else if tag == TAG_STRING then
      match ReadText(data, s) case Err(e) => Err(e) case Ok(t) => Ok((Str(t.0), t.1))
    else
      match ReadText(data, s) case Err(e) => Err(e) case Ok(t) => Ok((StringObject(t.0), t.1))
  }

  function ReadBack(data: Bytes, s: Decoding): (r: Result<(Value, Decoding), Fault>)
    ensures r.Ok? ==> r.value.1.refs == s.refs
  {
    match ReadUint(data, s, 4)
    case Err(e) => Err(e)
    case Ok(n) =>
      if !(1 <= n.0 <= |s.refs|) || s.refs[n.0 - 1].None? then Err(BadBackref(n.0))
      else
        match Charged(n.1, s.refs[n.0 - 1].value.1)
        case Err(e) => Err(e)
        case Ok(s1) => Ok((s.refs[n.0 - 1].value.0, s1))
  }

  predicate HeadTag(tag: Byte) {
    tag in {TAG_ARRAY, TAG_OBJECT, TAG_TYPED_ARRAY, TAG_ARRAY_BUFFER, TAG_OBJECT_MAP, TAG_OBJECT_SET}
  }

  /** A container's head, and how many parts follow. */
  function ReadHead(data: Bytes, s: Decoding, tag: Byte): (r: Result<(Head, nat, Decoding), Fault>)
    requires HeadTag(tag)
    ensures r.Ok? ==> r.value.2.refs == s.refs
  {
    if tag == TAG_ARRAY then
      match ReadUint(data, s, 4)
      case Err(e) => Err(e)
      case Ok(length) =>
        (match ReadUint(data, length.1, 4)
         case Err(e) => Err(e)
         case Ok(count) => Ok((ArrayOf(length.0), count.0, count.1)))
    else if tag == TAG_OBJECT then
      match ReadUint(data, s, 4) case Err(e) => Err(e) case Ok(count) => Ok((ObjectOf, count.0, count.1))
    else if tag == TAG_TYPED_ARRAY then
      match ReadByte(data, s)
      case Err(e) => Err(e)
      case Ok(et) =>
        (match ReadUint(data, et.1, 4)
         case Err(e) => Err(e)
         case Ok(offset) =>
           match ReadUint(data, offset.1, 4)
           case Err(e) => Err(e)
           case Ok(length) =>
             Ok((TypedArrayOf(et.0, offset.0, length.0), 1, length.1)))
    else if tag == TAG_ARRAY_BUFFER then
      match ReadUint(data, s, 4)
      case Err(e) => Err(e)
      case Ok(len) =>
        (match ReadCharged(data, len.1, len.0)
         case Err(e) => Err(e)
         case Ok(bytes) => Ok((BufferOf(bytes.0), 0, bytes.1)))
    else if tag == TAG_OBJECT_MAP then
      match ReadUint(data, s, 4) case Err(e) => Err(e) case Ok(count) => Ok((MapOf, 2 * count.0, count.1))
    else
      match ReadUint(data, s, 4) case Err(e) => Err(e) case Ok(count) => Ok((SetOf, count.0, count.1))
  }

  function ReadValue(data: Bytes, s: Decoding, depth: nat): (r: Result<(Value, Decoding), Fault>)
    requires depth <= MAX_DEPTH + 1
    ensures r.Ok? ==> |r.value.1.refs| >= |s.refs|
    decreases MAX_DEPTH + 1 - depth, 0
  {
    if depth > MAX_DEPTH then Err(TooDeep)
    else
      match Charged(s, NODE)
      case Err(e) => Err(e)
      case Ok(s1) =>
        match ReadByte(data, s1)
        case Err(e) => Err(e)
        case Ok(tag) =>
          if LeafTag(tag.0) then
            (match ReadLeaf(data, tag.1, tag.0)
             case Err(e) => Err(e)
             case Ok(l) => Ok((Plain(l.0), l.1)))
          else if tag.0 == TAG_PRIOR_OBJECT then
            ReadBack(data, tag.1)
          else if HeadTag(tag.0) then ReadContainer(data, s.tree, Reserved(tag.1), depth, tag.0)
          else if tag.0 == TAG_OBJECT_PROTOTYPE then Err(Unsupported(TAG_OBJECT_PROTOTYPE))
          else Err(UnknownTag(tag.0))
  }

  /** A container whose slot is the last one reserved. */
  function ReadContainer(data: Bytes, start: Cost, s: Decoding, depth: nat, tag: Byte)
    : (r: Result<(Value, Decoding), Fault>)
    requires depth <= MAX_DEPTH && HeadTag(tag) && s.refs != []
    ensures r.Ok? ==> |r.value.1.refs| >= |s.refs|
    decreases MAX_DEPTH - depth, 2, 0
  {
    match ReadHead(data, s, tag)
    case Err(e) => Err(e)
    case Ok(h) =>
      match ReadParts(data, h.2, depth + 1, h.0.Keyed(), h.1)
      case Err(e) => Err(e)
      case Ok(p) =>
        var v := Container(h.0, p.0, p.1);
        match Filled(p.2, |s.refs| - 1, v, Since(p.2.tree, start))
        case Err(e) => Err(e)
        case Ok(s1) => Ok((v, s1))
  }

  function ReadParts(data: Bytes, s: Decoding, depth: nat, keyed: bool, count: nat)
    : (r: Result<(seq<Text>, seq<Value>, Decoding), Fault>)
    requires depth <= MAX_DEPTH + 1
    ensures r.Ok? ==> |r.value.2.refs| >= |s.refs|
    decreases MAX_DEPTH + 1 - depth, 1, count
  {
    if count == 0 then Ok(([], [], s))
    else
      match ReadKey(data, s, keyed)
      case Err(e) => Err(e)
      case Ok(key) =>
        match ReadValue(data, key.1, depth)
        case Err(e) => Err(e)
        case Ok(v) =>
          match ReadParts(data, v.1, depth, keyed, count - 1)
          case Err(e) => Err(e)
          case Ok(rest) => Ok((key.0 + rest.0, [v.0] + rest.1, rest.2))
  }

  function ReadKey(data: Bytes, s: Decoding, keyed: bool): (r: Result<(seq<Text>, Decoding), Fault>)
    ensures r.Ok? ==> r.value.1.refs == s.refs
  {
    if !keyed then Ok(([], s))
    else match ReadText(data, s) case Err(e) => Err(e) case Ok(t) => Ok(([t.0], t.1))
  }

  function Decode(bytes: Bytes): Result<Value, Fault> {
    match ReadValue(bytes, Decoding(0, [], NOTHING, NOTHING), 0)
    case Err(e) => Err(e)
    case Ok(v) => if v.1.pos < |bytes| then Err(TrailingBytes(|bytes| - v.1.pos)) else Ok(v.0)
  }
}
