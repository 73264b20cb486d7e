/** The grammar of the structured-clone format and what its values mean, apart
    from how the decoder reads them. A back-reference names a container by its
    number in the order the containers were opened. */
module ScriptGrammar {
  import opened Prelude
  import opened Wire
  import opened ScriptValues

  datatype Syntax =
    | Told(leaf: Leaf)
    | Prior(n: nat)
    | Built(head: Head, keys: seq<Text>, parts: seq<Syntax>)

  // ---- well-formed syntax, and its bytes ----

  predicate TextFits(t: Text) {
    if t.flag != 0 then |t.body| < U32 else |t.body| % 2 == 0 && |t.body| / 2 < U32
  }

  function TextLength(t: Text): nat { if t.flag != 0 then |t.body| else |t.body| / 2 }

  function SpelledText(t: Text): Bytes { [t.flag] + Le(TextLength(t), 4) + t.body }

  // Any flag but zero reads as Latin-1.
  function PlainText(t: Text): Text { t.(flag := if t.flag != 0 then 1 else 0) }

  predicate LeafFits(l: Leaf) {
    match l
    case Int(n) => Fits(n, U32)
    case Double(bits) => |bits| == 8
    case NumberObject(bits) => |bits| == 8
    case Str(t) => TextFits(t)
    case StringObject(t) => TextFits(t)
    case _ => true
  }

  function LeafTagOf(l: Leaf): Byte {
    match l
    case Undefined => TAG_VOID
    case Null => TAG_NULL
    case Bool(_) => TAG_BOOLEAN
    case Int(_) => TAG_INT
    case Double(_) => TAG_DOUBLE
    case Str(_) => TAG_STRING
    case NumberObject(_) => TAG_OBJECT_NUMBER
    case StringObject(_) => TAG_OBJECT_STRING
    case BooleanObject(_) => TAG_OBJECT_BOOLEAN
  }

  function SpelledLeaf(l: Leaf): Bytes {
    match l
    case Undefined => []
    case Null => []
    case Bool(b) => [if b then 1 else 0]
    case Int(n) => Le(Unsigned(n, U32), 4)
    case Double(bits) => bits
    case Str(t) => SpelledText(t)
    case NumberObject(bits) => bits
    case StringObject(t) => SpelledText(t)
    case BooleanObject(b) => [if b then 1 else 0]
  }

  function PlainLeaf(l: Leaf): Leaf {
    match l
    case Str(t) => Str(PlainText(t))
    case StringObject(t) => StringObject(PlainText(t))
    case _ => l
  }

  function TextCost(t: Text): Cost { Cost(0, |t.body|) }

  function LeafCost(l: Leaf): Cost {
    match l
    case Str(t) => TextCost(t)
    case StringObject(t) => TextCost(t)
    case _ => NOTHING
  }

  predicate HeadFits(h: Head, parts: nat) {
    match h
    case ArrayOf(length) => length < U32 && parts < U32
    case ObjectOf => parts < U32
    case MapOf => parts % 2 == 0 && parts / 2 < U32
    case SetOf => parts < U32
    case TypedArrayOf(_, offset, length) => offset < U32 && length < U32 && parts == 1
    case BufferOf(bytes) => |bytes| < U32 && parts == 0
  }

  function HeadTagOf(h: Head): Byte {
    match h
    case ArrayOf(_) => TAG_ARRAY
    case ObjectOf => TAG_OBJECT
    case MapOf => TAG_OBJECT_MAP
    case SetOf => TAG_OBJECT_SET
    case TypedArrayOf(_, _, _) => TAG_TYPED_ARRAY
    case BufferOf(_) => TAG_ARRAY_BUFFER
  }

  function SpelledHead(h: Head, parts: nat): Bytes {
    match h
    case ArrayOf(length) => Le(length, 4) + Le(parts, 4)
    case ObjectOf => Le(parts, 4)
    case MapOf => Le(parts / 2, 4)
    case SetOf => Le(parts, 4)
    case TypedArrayOf(elementType, offset, length) => [elementType] + Le(offset, 4) + Le(length, 4)
    case BufferOf(bytes) => Le(|bytes|, 4) + bytes
  }

  function HeadCost(h: Head): Cost { if h.BufferOf? then Cost(0, |h.bytes|) else NOTHING }

  ghost predicate WellFormed(w: Syntax) {
    match w
    case Told(l) => LeafFits(l)
    case Prior(n) => n < U32
    case Built(h, keys, parts) =>
      && HeadFits(h, |parts|)
      && KeysFit(h.Keyed(), keys, |parts|)
      && forall p | p in parts :: WellFormed(p)
  }

  predicate KeysFit(keyed: bool, keys: seq<Text>, parts: nat) {
    && |keys| == (if keyed then parts else 0)
    && forall k | k in keys :: TextFits(k)
  }

  function Rest(keys: seq<Text>): seq<Text> { if keys == [] then [] else keys[1..] }

  function SpelledKey(keys: seq<Text>): Bytes { if keys == [] then [] else SpelledText(keys[0]) }

  function Spelled(w: Syntax): Bytes
    decreases w, 0
  {
    match w
    case Told(l) => [LeafTagOf(l)] + SpelledLeaf(l)
    case Prior(n) => [TAG_PRIOR_OBJECT] + Le(n, 4)
    case Built(h, keys, parts) =>
      [HeadTagOf(h)] + (SpelledHead(h, |parts|) + SpelledParts(keys, parts))
  }

  function SpelledParts(keys: seq<Text>, parts: seq<Syntax>): Bytes
    decreases parts, 1
  {
    if parts == [] then []
    else SpelledKey(keys) + (Spelled(parts[0]) + SpelledParts(Rest(keys), parts[1..]))
  }

  function Height(w: Syntax): nat
    decreases w, 0
  {
    if w.Built? && w.parts != [] then 1 + HeightAll(w.parts) else 0
  }

  function HeightAll(parts: seq<Syntax>): nat
    decreases parts, 1
  {
    if parts == [] then 0 else Max(Height(parts[0]), HeightAll(parts[1..]))
  }

  // ---- meaning ----

  datatype Meaning = Meaning(value: Value, refs: Refs, tree: Cost, spent: Cost)

  datatype PartsMeaning = PartsMeaning(values: seq<Value>, refs: Refs, tree: Cost, spent: Cost)

  function KeyCost(keys: seq<Text>): Cost { if keys == [] then NOTHING else TextCost(keys[0]) }

  function PlainTexts(keys: seq<Text>): seq<Text> {
    if keys == [] then [] else [PlainText(keys[0])] + PlainTexts(keys[1..])
  }

  /** A container fills its own slot last, with a copy that is paid for again. */
  function BuiltMeaning(h: Head, keys: seq<Text>, p: PartsMeaning, slot: nat): Meaning
    requires slot < |p.refs|
  {
    var v := Container(h, PlainTexts(keys), p.values);
    var tree := Plus(Plus(NODE, HeadCost(h)), p.tree);
    Meaning(v, p.refs[slot := Some((v, tree))], tree,
            Plus(Plus(Plus(NODE, HeadCost(h)), p.spent), tree))
  }

  /** The value, the containers opened so far with the ones it opened after
      them, what it costs, and what was spent on it and on the kept copies. */
  function Meant(w: Syntax, refs: Refs): (m: Option<Meaning>)
    ensures m.Some? ==> |m.value.refs| >= |refs|
    decreases w, 0
  {
    match w
    case Told(l) =>
      var cost := Plus(NODE, LeafCost(l));
      Some(Meaning(Plain(PlainLeaf(l)), refs, cost, cost))
    case Prior(n) =>
      if !(1 <= n <= |refs|) || refs[n - 1].None? then None
      else
        var cost := Plus(NODE, refs[n - 1].value.1);
        Some(Meaning(refs[n - 1].value.0, refs, cost, cost))
    case Built(h, keys, parts) =>
      match MeantParts(keys, parts, refs + [None])
      case None => None
      case Some(p) => Some(BuiltMeaning(h, keys, p, |refs|))
  }

  function MeantParts(keys: seq<Text>, parts: seq<Syntax>, refs: Refs): (m: Option<PartsMeaning>)
    ensures m.Some? ==> |m.value.refs| >= |refs|
    decreases parts, 1
  {
    if parts == [] then Some(PartsMeaning([], refs, NOTHING, NOTHING))
    else
      match Meant(parts[0], refs)
      case None => None
      case Some(m) =>
        match MeantParts(Rest(keys), parts[1..], m.refs)
        case None => None
        case Some(rest) =>
          Some(PartsMeaning([m.value] + rest.values, rest.refs,
                            Plus(KeyCost(keys), Plus(m.tree, rest.tree)),
                            Plus(KeyCost(keys), Plus(m.spent, rest.spent))))
  }

  // ---- what a value takes, and what was paid for it ----

  function TextsCost(keys: seq<Text>): Cost {
    if keys == [] then NOTHING else Plus(TextCost(keys[0]), TextsCost(keys[1..]))
  }

  /** The nodes of a value, and the payload bytes in it. */
  function TrueCost(v: Value): Cost
    decreases v, 0
  {
    match v
    case Plain(l) => Plus(NODE, LeafCost(l))
    case Container(h, keys, parts) =>
      Plus(Plus(NODE, HeadCost(h)), Plus(TextsCost(keys), PartsCost(parts)))
  }

  function PartsCost(parts: seq<Value>): Cost
    decreases parts, 1
  {
    if parts == [] then NOTHING else Plus(TrueCost(parts[0]), PartsCost(parts[1..]))
  }

  /** Every copy kept for a back-reference. */
  function CopiesCost(refs: Refs): Cost {
    if refs == [] then NOTHING
    else Plus(CopiesCost(refs[..|refs| - 1]), KeptCost(refs[|refs| - 1]))
  }

  function KeptCost(slot: Option<(Value, Cost)>): Cost {
    if slot.Some? then TrueCost(slot.value.0) else NOTHING
  }

  ghost predicate Paid(refs: Refs) {
    forall i | 0 <= i < |refs| && refs[i].Some? :: AtMost(TrueCost(refs[i].value.0), refs[i].value.1)
  }

  // ---- the numbering ----

  /** The containers of a syntax in the order they are opened, itself first. */
  function Opened(w: Syntax): seq<Syntax>
    decreases w, 0
  {
    if w.Built? then [w] + OpenedAll(w.parts) else []
  }

  function OpenedAll(parts: seq<Syntax>): seq<Syntax>
    decreases parts, 1
  {
    if parts == [] then [] else Opened(parts[0]) + OpenedAll(parts[1..])
  }

  /** Every back-reference in it names a filled slot. */
  predicate Closed(w: Syntax, refs: Refs)
    decreases w, 0
  {
    match w
    case Told(_) => true
    case Prior(n) => 1 <= n <= |refs| && refs[n - 1].Some?
    case Built(_, _, parts) => AllClosed(parts, refs)
  }

  predicate AllClosed(parts: seq<Syntax>, refs: Refs)
    decreases parts, 1
  {
    parts == [] || (Closed(parts[0], refs) && AllClosed(parts[1..], refs))
  }

  /** What a syntax stands for by one finished table: nothing is numbered here,
      a back-reference just names its slot. */
  function Resolved(w: Syntax, refs: Refs): Value
    decreases w, 0
  {
    match w
    case Told(l) => Plain(PlainLeaf(l))
    case Prior(n) => if Closed(w, refs) then refs[n - 1].value.0 else Plain(Undefined)
    case Built(h, keys, parts) => Container(h, PlainTexts(keys), AllResolved(parts, refs))
  }

  function AllResolved(parts: seq<Syntax>, refs: Refs): seq<Value>
    decreases parts, 1
  {
    if parts == [] then [] else [Resolved(parts[0], refs)] + AllResolved(parts[1..], refs)
  }

  /** What is filled stays filled, with the same. */
  ghost predicate Keeps(before: Refs, after: Refs) {
    |before| <= |after| && forall i | 0 <= i < |before| && before[i].Some? :: after[i] == before[i]
  }

  /** Slot k holds what this container stands for, and nothing within it names
      slot k, which was empty for as long as it was open. */
  ghost predicate Holds(refs: Refs, k: nat, w: Syntax) {
    && k < |refs| && refs[k].Some? && refs[k].value.0 == Resolved(w, refs)
    && Closed(w, refs[k := None])
  }

  /** Slots once given out keep what they hold, an open one stays open, and each
      new slot holds the container opened in its turn. */
  ghost predicate Numbered(before: Refs, after: Refs, containers: seq<Syntax>) {
    && |after| == |before| + |containers|
    && after[..|before|] == before
    && forall i | 0 <= i < |containers| :: Holds(after, |before| + i, containers[i])
  }

  lemma {:induction false} ResolvedKept(w: Syntax, before: Refs, after: Refs)
    requires Closed(w, before) && Keeps(before, after)
    ensures Closed(w, after) && Resolved(w, after) == Resolved(w, before)
    decreases w, 0
  {
    if w.Built? {
      AllKept(w.parts, before, after);
    }
  }

  lemma {:induction false} AllKept(parts: seq<Syntax>, before: Refs, after: Refs)
    requires AllClosed(parts, before) && Keeps(before, after)
    ensures AllClosed(parts, after) && AllResolved(parts, after) == AllResolved(parts, before)
    decreases parts, 1
  {
    if parts != [] {
      ResolvedKept(parts[0], before, after);
      AllKept(parts[1..], before, after);
    }
  }

  lemma HoldsKept(before: Refs, after: Refs, k: nat, w: Syntax)
    requires Holds(before, k, w) && Keeps(before, after)
    ensures Holds(after, k, w)
  {
    hide Resolved, Closed;
    ResolvedKept(w, before[k := None], before);
    ResolvedKept(w, before, after);
    ResolvedKept(w, before[k := None], after[k := None]);
  }

  lemma NumberedThen(a: Refs, b: Refs, c: Refs, first: seq<Syntax>, rest: seq<Syntax>)
    requires Numbered(a, b, first) && Numbered(b, c, rest)
    ensures Numbered(a, c, first + rest) && Keeps(b, c)
  {
    assert c[..|a|] == c[..|b|][..|a|];
    assert forall i | 0 <= i < |b| :: c[i] == c[..|b|][i];
    hide Holds;
    forall i | 0 <= i < |first + rest| ensures Holds(c, |a| + i, (first + rest)[i]) {
      if i < |first| {
        HoldsKept(b, c, |a| + i, first[i]);
      } else {
        assert Holds(c, |b| + (i - |first|), rest[i - |first|]);
      }
    }
  }

  lemma NumberedBuilt(refs: Refs, after: Refs, h: Head, keys: seq<Text>, parts: seq<Syntax>, c: Cost)
    requires Numbered(refs + [None], after, OpenedAll(parts)) && AllClosed(parts, after)
    ensures after[|refs|].None?
    ensures var w, v := Built(h, keys, parts), Container(h, PlainTexts(keys), AllResolved(parts, after));
            var full := after[|refs| := Some((v, c))];
            && Numbered(refs, full, Opened(w)) && Closed(w, full) && Resolved(w, full) == v
  {
    var n, w := |refs|, Built(h, keys, parts);
    var v := Container(h, PlainTexts(keys), AllResolved(parts, after));
    var full := after[n := Some((v, c))];
    assert after[n] == after[..n + 1][n];
    assert full[..n] == after[..n + 1][..n] == refs;
    assert full[n := None] == after;
    assert Resolved(w, after) == v && Closed(w, after);
    hide Resolved, Closed, AllResolved, AllClosed, PlainTexts;
    ResolvedKept(w, after, full);
    assert Holds(full, n, w);
    hide Holds;
    forall i | 0 <= i < |Opened(w)| ensures Holds(full, n + i, Opened(w)[i]) {
      if i > 0 {
        HoldsKept(after, full, n + i, OpenedAll(parts)[i - 1]);
      }
    }
  }

  /** Reading in order, with slots filled as containers close, comes to what the
      finished table says: the n-th slot holds the n-th container opened, and a
      back-reference stands for the container of its number, never an open one. */
  lemma {:induction false} Numbers(w: Syntax, refs: Refs)
    requires Meant(w, refs).Some?
    ensures var m := Meant(w, refs).value;
            Numbered(refs, m.refs, Opened(w)) && Closed(w, m.refs) && m.value == Resolved(w, m.refs)
    decreases w, 0
  {
    match w {
      case Told(l) =>
      case Prior(n) =>
      case Built(h, keys, parts) =>
        NumbersAll(keys, parts, refs + [None]);
        var p := MeantParts(keys, parts, refs + [None]).value;
        NumberedBuilt(refs, p.refs, h, keys, parts, Plus(Plus(NODE, HeadCost(h)), p.tree));
        hide Numbered, Closed, Resolved;
    }
  }

  lemma {:induction false} NumbersAll(keys: seq<Text>, parts: seq<Syntax>, refs: Refs)
    requires MeantParts(keys, parts, refs).Some?
    ensures var m := MeantParts(keys, parts, refs).value;
            Numbered(refs, m.refs, OpenedAll(parts)) && AllClosed(parts, m.refs)
            && m.values == AllResolved(parts, m.refs)
    decreases parts, 1
  {
    if parts != [] {
      var m := Meant(parts[0], refs).value;
      Numbers(parts[0], refs);
      NumbersAll(Rest(keys), parts[1..], m.refs);
      var rest := MeantParts(Rest(keys), parts[1..], m.refs).value;
      NumberedThen(refs, m.refs, rest.refs, Opened(parts[0]), OpenedAll(parts[1..]));
      ResolvedKept(parts[0], m.refs, rest.refs);
      hide Numbered, Closed, Resolved, Keeps;
    }
  }

  // ---- what was paid ----

  /** What was spent covers the value and every copy kept on the way. */
  ghost predicate Covers(before: Refs, after: Refs, tree: Cost, spent: Cost) {
    AtMost(Plus(tree, CopiesCost(after)), Plus(spent, CopiesCost(before)))
  }

  lemma {:induction false} CopiesAppend(refs: Refs)
    ensures CopiesCost(refs + [None]) == CopiesCost(refs)
  {
    assert (refs + [None])[..|refs|] == refs;
  }

  lemma {:induction false} CopiesFilled(refs: Refs, i: nat, v: Value, c: Cost)
    requires i < |refs| && refs[i].None?
    ensures CopiesCost(refs[i := Some((v, c))]) == Plus(CopiesCost(refs), TrueCost(v))
    decreases |refs|
  {
    hide TrueCost;
    var after, front := refs[i := Some((v, c))], refs[..|refs| - 1];
    if i == |refs| - 1 {
      assert after[..i] == front;
    } else {
      CopiesFilled(front, i, v, c);
      assert after[..|refs| - 1] == front[i := Some((v, c))];
      assert CopiesCost(refs) == Plus(CopiesCost(front), KeptCost(refs[|refs| - 1]));
      assert CopiesCost(after) == Plus(CopiesCost(front[i := Some((v, c))]), KeptCost(refs[|refs| - 1]));
      hide CopiesCost, KeptCost;
    }
  }

  lemma PlainCosts(t: Text, l: Leaf)
    ensures TextCost(PlainText(t)) == TextCost(t) && LeafCost(PlainLeaf(l)) == LeafCost(l)
  {
  }

  /** A value's stored cost is at least its true size, and the whole spend covers
      the value and every copy the reference table keeps. */
  lemma {:induction false} Accounts(w: Syntax, refs: Refs)
    requires WellFormed(w) && Meant(w, refs).Some? && Paid(refs)
    ensures var m := Meant(w, refs).value;
            && AtMost(TrueCost(m.value), m.tree)
            && Paid(m.refs)
            && Numbered(refs, m.refs, Opened(w))
            && Covers(refs, m.refs, m.tree, m.spent)
    decreases w, 0
  {
    Numbers(w, refs);
    var m := Meant(w, refs).value;
    match w {
      case Told(l) =>
        PlainCosts(Text(0, []), l);
      case Prior(n) =>
      case Built(h, keys, parts) =>
        AccountsParts(keys, parts, refs + [None]);
        NumbersAll(keys, parts, refs + [None]);
        var p := MeantParts(keys, parts, refs + [None]).value;
        NumberedBuilt(refs, p.refs, h, keys, parts, NOTHING);
        AccountsBuilt(h, keys, p, refs);
        hide BuiltMeaning, Paid, Covers;
    }
    hide Numbered, Opened;
  }

  lemma AccountsBuilt(h: Head, keys: seq<Text>, p: PartsMeaning, refs: Refs)
    requires AtMost(Plus(TextsCost(PlainTexts(keys)), PartsCost(p.values)), p.tree)
    requires Paid(p.refs) && |p.refs| > |refs| && p.refs[|refs|].None?
    requires Covers(refs + [None], p.refs, p.tree, p.spent)
    ensures var m := BuiltMeaning(h, keys, p, |refs|);
            && AtMost(TrueCost(m.value), m.tree)
            && Paid(m.refs)
            && Covers(refs, m.refs, m.tree, m.spent)
  {
    var m := BuiltMeaning(h, keys, p, |refs|);
    assert TrueCost(m.value)
        == Plus(Plus(NODE, HeadCost(h)), Plus(TextsCost(PlainTexts(keys)), PartsCost(p.values)));
    hide TrueCost, PartsCost, TextsCost, HeadCost, PlainTexts;
    CopiesAppend(refs);
    CopiesFilled(p.refs, |refs|, m.value, m.tree);
    hide CopiesCost;
  }

  lemma {:induction false} AccountsParts(keys: seq<Text>, parts: seq<Syntax>, refs: Refs)
    requires MeantParts(keys, parts, refs).Some? && Paid(refs) && |keys| <= |parts|
    requires forall p | p in parts :: WellFormed(p)
    ensures var m := MeantParts(keys, parts, refs).value;
            && AtMost(Plus(TextsCost(PlainTexts(keys)), PartsCost(m.values)), m.tree)
            && Paid(m.refs)
            && Covers(refs, m.refs, m.tree, m.spent)
    decreases parts, 1
  {
    if parts != [] {
      var m := Meant(parts[0], refs).value;
      Accounts(parts[0], refs);
      AccountsParts(Rest(keys), parts[1..], m.refs);
      hide Numbered, Paid, TrueCost, CopiesCost;
      if keys != [] {
        PlainCosts(keys[0], Undefined);
      }
    }
  }
}
