/** The decoder reads exactly the grammar: what it decodes is what the bytes
    mean, and it refuses only what is malformed, too deep or over budget. */
module ScriptDecoding {
  import opened Prelude
  import opened Wire
  import opened ScriptValues
  import opened ScriptGrammar

  function Moved(s: Decoding, n: nat, c: Cost): Decoding {
    s.(pos := s.pos + n, tree := Plus(s.tree, c), spent := Plus(s.spent, c))
  }

  lemma ByteAt(data: Bytes, pos: nat, b: Byte)
    ensures At(data, pos, [b]) <==> pos < |data| && data[pos] == b
  {
    if pos < |data| {
      assert data[pos..pos + 1] == [data[pos]];
      assert [data[pos]] == [b] <==> data[pos] == b by {
        assert [data[pos]][0] == data[pos] && [b][0] == b;
      }
    }
  }

  lemma UintReads(data: Bytes, s: Decoding, n: nat)
    requires n < U32 && At(data, s.pos, Le(n, 4))
    ensures ReadUint(data, s, 4) == Ok((n, s.(pos := s.pos + 4)))
  {
    Spans();
    UintAt(data, s.pos, 4, n, s.pos + 4);
  }

  lemma UintRead(data: Bytes, s: Decoding)
    requires ReadUint(data, s, 4).Ok?
    ensures var n := ReadUint(data, s, 4).value.0;
            n < U32 && At(data, s.pos, Le(n, 4)) && ReadUint(data, s, 4).value.1 == s.(pos := s.pos + 4)
  {
    Spans();
    var t := ReadUint(data, s, 4).value;
    UintAt(data, s.pos, 4, t.0, s.pos + 4);
  }

  // ---- texts ----

  lemma TextReads(data: Bytes, s: Decoding, t: Text)
    requires TextFits(t) && At(data, s.pos, SpelledText(t))
    requires InBudget(Plus(s.spent, TextCost(t)))
    ensures ReadText(data, s) == Ok((PlainText(t), Moved(s, |SpelledText(t)|, TextCost(t))))
  {
    hide Le, FromLe, Unsigned;
    AtBoth(data, s.pos, [t.flag] + Le(TextLength(t), 4), t.body);
    AtBoth(data, s.pos, [t.flag], Le(TextLength(t), 4));
    ByteAt(data, s.pos, t.flag);
    UintReads(data, s.(pos := s.pos + 1), TextLength(t));
  }

  lemma TextRead(data: Bytes, s: Decoding) returns (t: Text)
    requires ReadText(data, s).Ok?
    ensures TextFits(t) && At(data, s.pos, SpelledText(t))
    ensures InBudget(Plus(s.spent, TextCost(t)))
    ensures ReadText(data, s) == Ok((PlainText(t), Moved(s, |SpelledText(t)|, TextCost(t))))
  {
    hide Le, FromLe, Unsigned;
    var flag := data[s.pos];
    var s1 := s.(pos := s.pos + 1);
    UintRead(data, s1);
    t := Text(flag, ReadText(data, s).value.0.body);
    AtBoth(data, s.pos, [t.flag] + Le(TextLength(t), 4), t.body);
    AtBoth(data, s.pos, [t.flag], Le(TextLength(t), 4));
    ByteAt(data, s.pos, t.flag);
  }

  // ---- leaves ----

  lemma LeafReads(data: Bytes, s: Decoding, l: Leaf)
    requires LeafFits(l) && At(data, s.pos, SpelledLeaf(l))
    requires InBudget(Plus(s.spent, LeafCost(l)))
    ensures ReadLeaf(data, s, LeafTagOf(l))
         == Ok((PlainLeaf(l), Moved(s, |SpelledLeaf(l)|, LeafCost(l))))
  {
    hide Le, FromLe, Unsigned;
    match l {
      case Bool(b) => ByteAt(data, s.pos, if b then 1 else 0);
      case BooleanObject(b) => ByteAt(data, s.pos, if b then 1 else 0);
      case Int(n) =>
        UintReads(data, s, Unsigned(n, U32));
        SignedRound(n, U32);
      case Str(t) => TextReads(data, s, t);
      case StringObject(t) => TextReads(data, s, t);
      case _ =>
    }
  }

  lemma LeafRead(data: Bytes, s: Decoding, tag: Byte) returns (l: Leaf)
    requires LeafTag(tag) && ReadLeaf(data, s, tag).Ok? && InBudget(s.spent) && s.pos <= |data|
    ensures LeafTagOf(l) == tag && LeafFits(l) && At(data, s.pos, SpelledLeaf(l))
    ensures InBudget(Plus(s.spent, LeafCost(l)))
    ensures ReadLeaf(data, s, tag)
         == Ok((PlainLeaf(l), Moved(s, |SpelledLeaf(l)|, LeafCost(l))))
  {
    hide Le, FromLe, Unsigned;
    l := ReadLeaf(data, s, tag).value.0;
    if tag == TAG_STRING || tag == TAG_OBJECT_STRING {
      var t := TextRead(data, s);
      l := if tag == TAG_STRING then Str(t) else StringObject(t);
    } else if tag == TAG_INT {
      UintRead(data, s);
      UnsignedRound(ReadUint(data, s, 4).value.0, U32);
    } else if tag == TAG_BOOLEAN || tag == TAG_OBJECT_BOOLEAN {
      ByteAt(data, s.pos, data[s.pos]);
    }
  }

  // ---- heads ----

  lemma HeadReads(data: Bytes, s: Decoding, h: Head, parts: nat)
    requires HeadFits(h, parts) && At(data, s.pos, SpelledHead(h, parts))
    requires InBudget(Plus(s.spent, HeadCost(h)))
    ensures ReadHead(data, s, HeadTagOf(h))
         == Ok((h, parts, Moved(s, |SpelledHead(h, parts)|, HeadCost(h))))
  {
    hide Le, FromLe, Unsigned;
    match h {
      case ArrayOf(length) =>
        AtBoth(data, s.pos, Le(length, 4), Le(parts, 4));
        UintReads(data, s, length);
        UintReads(data, s.(pos := s.pos + 4), parts);
      case ObjectOf => UintReads(data, s, parts);
      case MapOf => UintReads(data, s, parts / 2);
      case SetOf => UintReads(data, s, parts);
      case TypedArrayOf(et, offset, length) =>
        AtBoth(data, s.pos, [et] + Le(offset, 4), Le(length, 4));
        AtBoth(data, s.pos, [et], Le(offset, 4));
        ByteAt(data, s.pos, et);
        UintReads(data, s.(pos := s.pos + 1), offset);
        UintReads(data, s.(pos := s.pos + 5), length);
      case BufferOf(bytes) =>
        AtBoth(data, s.pos, Le(|bytes|, 4), bytes);
        UintReads(data, s, |bytes|);
    }
  }

  lemma TypedHeadRead(data: Bytes, s: Decoding)
    requires ReadHead(data, s, TAG_TYPED_ARRAY).Ok?
    ensures var (h, parts, after) := ReadHead(data, s, TAG_TYPED_ARRAY).value;
            && h.TypedArrayOf? && HeadFits(h, parts) && At(data, s.pos, SpelledHead(h, parts))
            && after == s.(pos := s.pos + 9)
  {
    hide Le, FromLe;
    var (h, parts, after) := ReadHead(data, s, TAG_TYPED_ARRAY).value;
    ByteAt(data, s.pos, h.elementType);
    UintRead(data, s.(pos := s.pos + 1));
    UintRead(data, s.(pos := s.pos + 5));
    AtBoth(data, s.pos, [h.elementType], Le(h.offset, 4));
    AtBoth(data, s.pos, [h.elementType] + Le(h.offset, 4), Le(h.length, 4));
  }

  lemma HeadRead(data: Bytes, s: Decoding, tag: Byte)
    requires HeadTag(tag) && ReadHead(data, s, tag).Ok? && InBudget(s.spent)
    ensures var (h, parts, after) := ReadHead(data, s, tag).value;
            && HeadTagOf(h) == tag && HeadFits(h, parts) && At(data, s.pos, SpelledHead(h, parts))
            && InBudget(Plus(s.spent, HeadCost(h)))
            && after == Moved(s, |SpelledHead(h, parts)|, HeadCost(h))
  {
    hide Le, FromLe, Unsigned;
    var (h, parts, after) := ReadHead(data, s, tag).value;
    match h {
      case ArrayOf(length) =>
        UintRead(data, s);
        UintRead(data, s.(pos := s.pos + 4));
        AtBoth(data, s.pos, Le(length, 4), Le(parts, 4));
      case ObjectOf => UintRead(data, s);
      case MapOf => UintRead(data, s);
      case SetOf => UintRead(data, s);
      case TypedArrayOf(et, offset, length) => TypedHeadRead(data, s);
      case BufferOf(bytes) =>
        UintRead(data, s);
        AtBoth(data, s.pos, Le(|bytes|, 4), bytes);
    }
  }

  // ---- values, from the grammar to the decoder ----

  /** Where the decoder stands after a value that took `n` bytes. */
  function After(s: Decoding, n: nat, refs: Refs, tree: Cost, spent: Cost): Decoding {
    Decoding(s.pos + n, refs, Plus(s.tree, tree), Plus(s.spent, spent))
  }

  lemma PartsStep(data: Bytes, s: Decoding, depth: nat, keyed: bool, count: nat)
    requires depth <= MAX_DEPTH + 1 && count > 0 && ReadKey(data, s, keyed).Ok?
    requires ReadValue(data, ReadKey(data, s, keyed).value.1, depth).Ok?
    ensures var (key, s1) := ReadKey(data, s, keyed).value;
            var (v, s2) := ReadValue(data, s1, depth).value;
            ReadParts(data, s, depth, keyed, count)
            == match ReadParts(data, s2, depth, keyed, count - 1)
               case Err(e) => Err(e)
               case Ok(rest) => Ok((key + rest.0, [v] + rest.1, rest.2))
  {
    hide ReadValue, ReadKey;
  }

  lemma MeantStep(keys: seq<Text>, parts: seq<Syntax>, refs: Refs)
    requires parts != [] && MeantParts(keys, parts, refs).Some?
    ensures Meant(parts[0], refs).Some?
    ensures var m := Meant(parts[0], refs).value;
            && MeantParts(Rest(keys), parts[1..], m.refs).Some?
            && var rest := MeantParts(Rest(keys), parts[1..], m.refs).value;
               MeantParts(keys, parts, refs).value
               == PartsMeaning([m.value] + rest.values, rest.refs,
                               Plus(KeyCost(keys), Plus(m.tree, rest.tree)),
                               Plus(KeyCost(keys), Plus(m.spent, rest.spent)))
  {
    hide Meant;
  }

  lemma PartsCompose(data: Bytes, s: Decoding, depth: nat, keyed: bool, count: nat,
                     key: seq<Text>, keyed1: Decoding, m: Meaning, s2: Decoding,
                     rest: (seq<Text>, seq<Value>, Decoding))
    requires depth <= MAX_DEPTH + 1 && count > 0 && ReadKey(data, s, keyed) == Ok((key, keyed1))
    requires ReadValue(data, keyed1, depth) == Ok((m.value, s2))
    requires ReadParts(data, s2, depth, keyed, count - 1) == Ok(rest)
    ensures ReadParts(data, s, depth, keyed, count) == Ok((key + rest.0, [m.value] + rest.1, rest.2))
  {
    PartsStep(data, s, depth, keyed, count);
  }

  lemma SpelledUnfolds(keys: seq<Text>, parts: seq<Syntax>)
    requires parts != []
    ensures SpelledParts(keys, parts)
         == SpelledKey(keys) + (Spelled(parts[0]) + SpelledParts(Rest(keys), parts[1..]))
  {
    hide Spelled, SpelledKey;
  }

  lemma PartsStand(data: Bytes, pos: nat, keys: seq<Text>, parts: seq<Syntax>)
    requires parts != [] && At(data, pos, SpelledParts(keys, parts))
    ensures var key, first := |SpelledKey(keys)|, |Spelled(parts[0])|;
            && At(data, pos, SpelledKey(keys))
            && At(data, pos + key, Spelled(parts[0]))
            && At(data, pos + key + first, SpelledParts(Rest(keys), parts[1..]))
            && |SpelledParts(keys, parts)| == key + first + |SpelledParts(Rest(keys), parts[1..])|
  {
    hide SpelledParts, Spelled, SpelledKey, At;
    var key, first, rest := SpelledKey(keys), Spelled(parts[0]), SpelledParts(Rest(keys), parts[1..]);
    SpelledUnfolds(keys, parts);
    AtBoth(data, pos, key, first + rest);
    AtBoth(data, pos + |key|, first, rest);
  }

  lemma PartsBudget(s: Decoding, keys: seq<Text>, parts: seq<Syntax>)
    requires parts != [] && MeantParts(keys, parts, s.refs).Some?
    requires InBudget(Plus(s.spent, MeantParts(keys, parts, s.refs).value.spent))
    ensures InBudget(Plus(s.spent, KeyCost(keys))) && Meant(parts[0], s.refs).Some?
    ensures var m, all := Meant(parts[0], s.refs).value, MeantParts(keys, parts, s.refs).value;
            var spent := Plus(Plus(s.spent, KeyCost(keys)), m.spent);
            && InBudget(spent)
            && MeantParts(Rest(keys), parts[1..], m.refs).Some?
            && var r := MeantParts(Rest(keys), parts[1..], m.refs).value;
               && InBudget(Plus(spent, r.spent))
               && Plus(spent, r.spent) == Plus(s.spent, all.spent)
               && Plus(Plus(Plus(s.tree, KeyCost(keys)), m.tree), r.tree) == Plus(s.tree, all.tree)
               && all.values == [m.value] + r.values && all.refs == r.refs
  {
    hide Meant, MeantParts, KeyCost;
    MeantStep(keys, parts, s.refs);
  }

  /** The first part and the rest of them, each where it stands and in budget. */
  lemma PartsSplit(data: Bytes, s: Decoding, keys: seq<Text>, parts: seq<Syntax>)
    requires parts != [] && At(data, s.pos, SpelledParts(keys, parts))
    requires MeantParts(keys, parts, s.refs).Some?
    requires InBudget(Plus(s.spent, MeantParts(keys, parts, s.refs).value.spent))
    ensures At(data, s.pos, SpelledKey(keys)) && InBudget(Plus(s.spent, KeyCost(keys)))
    ensures Meant(parts[0], s.refs).Some?
    ensures var m, s1 := Meant(parts[0], s.refs).value, Moved(s, |SpelledKey(keys)|, KeyCost(keys));
            var s2 := After(s1, |Spelled(parts[0])|, m.refs, m.tree, m.spent);
            && At(data, s1.pos, Spelled(parts[0])) && InBudget(Plus(s1.spent, m.spent))
            && At(data, s2.pos, SpelledParts(Rest(keys), parts[1..]))
            && MeantParts(Rest(keys), parts[1..], m.refs).Some?
            && var r, all := MeantParts(Rest(keys), parts[1..], m.refs).value,
                             MeantParts(keys, parts, s.refs).value;
               && InBudget(Plus(s2.spent, r.spent))
               && After(s2, |SpelledParts(Rest(keys), parts[1..])|, r.refs, r.tree, r.spent)
                  == After(s, |SpelledParts(keys, parts)|, r.refs, all.tree, all.spent)
               && all.values == [m.value] + r.values && all.refs == r.refs
  {
    hide SpelledParts, Spelled, Meant, MeantParts, SpelledKey, KeyCost, At, InBudget;
    PartsStand(data, s.pos, keys, parts);
    PartsBudget(s, keys, parts);
    hide Plus;
  }

  lemma {:induction false} PartsReadBack(data: Bytes, s: Decoding, depth: nat, keyed: bool,
                                         keys: seq<Text>, parts: seq<Syntax>)
    requires KeysFit(keyed, keys, |parts|) && forall p | p in parts :: WellFormed(p)
    requires At(data, s.pos, SpelledParts(keys, parts))
    requires depth <= MAX_DEPTH + 1 && (parts != [] ==> depth + HeightAll(parts) <= MAX_DEPTH)
    requires MeantParts(keys, parts, s.refs).Some?
    requires InBudget(Plus(s.spent, MeantParts(keys, parts, s.refs).value.spent))
    ensures var m := MeantParts(keys, parts, s.refs).value;
            ReadParts(data, s, depth, keyed, |parts|)
            == Ok((PlainTexts(keys), m.values,
                   After(s, |SpelledParts(keys, parts)|, m.refs, m.tree, m.spent)))
    decreases parts, 1
  {
    hide ReadValue, ReadParts, ReadKey, ReadText, ReadHead, ReadLeaf, At, Le, FromLe, InBudget, Meant,
         MeantParts, SpelledParts, Spelled, WellFormed, SpelledKey, KeyCost, PlainTexts;
    if parts == [] {
      NoPartsRead(data, s, depth, keyed, keys);
    } else {
      assert HeightAll(parts) == Max(Height(parts[0]), HeightAll(parts[1..]));
      hide HeightAll, Height;
      PartsSplit(data, s, keys, parts);
      KeyReads(data, s, keyed, keys, |parts|);
      hide KeysFit, Rest, After, Moved;
      var s1 := Moved(s, |SpelledKey(keys)|, KeyCost(keys));
      ValueReads(data, s1, depth, parts[0]);
      var m := Meant(parts[0], s.refs).value;
      var s2 := After(s1, |Spelled(parts[0])|, m.refs, m.tree, m.spent);
      PartsReadBack(data, s2, depth, keyed, Rest(keys), parts[1..]);
      PartsCompose(data, s, depth, keyed, |parts|, if keyed then [PlainText(keys[0])] else [], s1, m, s2,
                   ReadParts(data, s2, depth, keyed, |parts| - 1).value);
    }
  }

  lemma NoPartsRead(data: Bytes, s: Decoding, depth: nat, keyed: bool, keys: seq<Text>)
    requires depth <= MAX_DEPTH + 1 && keys == []
    ensures MeantParts(keys, [], s.refs) == Some(PartsMeaning([], s.refs, NOTHING, NOTHING))
    ensures ReadParts(data, s, depth, keyed, 0)
         == Ok((PlainTexts(keys), [], After(s, |SpelledParts(keys, [])|, s.refs, NOTHING, NOTHING)))
  {
  }

  lemma KeyReads(data: Bytes, s: Decoding, keyed: bool, keys: seq<Text>, parts: nat)
    requires KeysFit(keyed, keys, parts) && parts > 0
    requires At(data, s.pos, SpelledKey(keys)) && InBudget(Plus(s.spent, KeyCost(keys)))
    ensures ReadKey(data, s, keyed)
         == Ok((if keyed then [PlainText(keys[0])] else [], Moved(s, |SpelledKey(keys)|, KeyCost(keys))))
    ensures KeysFit(keyed, Rest(keys), parts - 1)
    ensures PlainTexts(keys) == (if keyed then [PlainText(keys[0])] else []) + PlainTexts(Rest(keys))
  {
    if keyed {
      TextReads(data, s, keys[0]);
    }
  }

  lemma ContainerStep(data: Bytes, s: Decoding, depth: nat, h: Head, keys: seq<Text>, p: PartsMeaning,
                      parts: nat, size: nat)
    requires depth <= MAX_DEPTH && |p.refs| > |s.refs|
    requires var s1 := Reserved(Moved(s, 1, NODE));
             var s2 := Moved(s1, |SpelledHead(h, parts)|, HeadCost(h));
             && ReadHead(data, s1, HeadTagOf(h)) == Ok((h, parts, s2))
             && ReadParts(data, s2, depth + 1, h.Keyed(), parts)
                == Ok((PlainTexts(keys), p.values, After(s2, size, p.refs, p.tree, p.spent)))
    requires InBudget(Plus(s.spent, BuiltMeaning(h, keys, p, |s.refs|).spent))
    ensures var m := BuiltMeaning(h, keys, p, |s.refs|);
            ReadContainer(data, s.tree, Reserved(Moved(s, 1, NODE)), depth, HeadTagOf(h))
            == Ok((m.value, After(s, 1 + |SpelledHead(h, parts)| + size, m.refs, m.tree, m.spent)))
  {
    hide ReadHead, ReadParts, SpelledHead, HeadCost, PlainTexts;
  }

  lemma ContainerReads(data: Bytes, s: Decoding, depth: nat, h: Head, keys: seq<Text>, parts: seq<Syntax>)
    requires HeadFits(h, |parts|) && KeysFit(h.Keyed(), keys, |parts|)
    requires forall p | p in parts :: WellFormed(p)
    requires At(data, s.pos + 1, SpelledHead(h, |parts|) + SpelledParts(keys, parts))
    requires depth <= MAX_DEPTH && (parts != [] ==> depth + 1 + HeightAll(parts) <= MAX_DEPTH)
    requires MeantParts(keys, parts, s.refs + [None]).Some?
    requires var m := BuiltMeaning(h, keys, MeantParts(keys, parts, s.refs + [None]).value, |s.refs|);
             InBudget(Plus(s.spent, m.spent))
    ensures var m := BuiltMeaning(h, keys, MeantParts(keys, parts, s.refs + [None]).value, |s.refs|);
            ReadContainer(data, s.tree, Reserved(Moved(s, 1, NODE)), depth, HeadTagOf(h))
            == Ok((m.value, After(s, 1 + |SpelledHead(h, |parts|)| + |SpelledParts(keys, parts)|,
                                  m.refs, m.tree, m.spent)))
    decreases parts, 2
  {
    hide SpelledHead, SpelledParts, HeightAll, MeantParts, WellFormed, ReadContainer, ReadParts, At,
         HeadFits, PlainTexts, HeadCost, ReadHead;
    var s1 := Reserved(Moved(s, 1, NODE));
    var p := MeantParts(keys, parts, s.refs + [None]).value;
    AtBoth(data, s1.pos, SpelledHead(h, |parts|), SpelledParts(keys, parts));
    HeadReads(data, s1, h, |parts|);
    var s2 := Moved(s1, |SpelledHead(h, |parts|)|, HeadCost(h));
    PartsReadBack(data, s2, depth + 1, h.Keyed(), keys, parts);
    ContainerStep(data, s, depth, h, keys, p, |parts|, |SpelledParts(keys, parts)|);
  }

  lemma TagReads(data: Bytes, s: Decoding, depth: nat, tag: Byte, rest: Bytes)
    requires At(data, s.pos, [tag] + rest) && depth <= MAX_DEPTH && InBudget(Plus(s.spent, NODE))
    ensures At(data, s.pos + 1, rest)
    ensures LeafTag(tag) ==>
      ReadValue(data, s, depth)
      == match ReadLeaf(data, Moved(s, 1, NODE), tag)
         case Err(e) => Err(e)
         case Ok(l) => Ok((Plain(l.0), l.1))
    ensures tag == TAG_PRIOR_OBJECT ==> ReadValue(data, s, depth) == ReadBack(data, Moved(s, 1, NODE))
    ensures HeadTag(tag) ==>
      ReadValue(data, s, depth)
      == ReadContainer(data, s.tree, Reserved(Moved(s, 1, NODE)), depth, tag)
  {
    AtBoth(data, s.pos, [tag], rest);
    ByteAt(data, s.pos, tag);
    hide ReadLeaf, ReadBack, ReadContainer, At;
  }

  lemma LeafValueReads(data: Bytes, s: Decoding, depth: nat, l: Leaf)
    requires LeafFits(l) && At(data, s.pos, [LeafTagOf(l)] + SpelledLeaf(l)) && depth <= MAX_DEPTH
    requires InBudget(Plus(s.spent, Plus(NODE, LeafCost(l))))
    ensures ReadValue(data, s, depth)
         == Ok((Plain(PlainLeaf(l)), Moved(s, 1 + |SpelledLeaf(l)|, Plus(NODE, LeafCost(l)))))
  {
    hide ReadLeaf, ReadValue, ReadContainer, ReadHead, ReadText, ReadBack, ReadParts, SpelledLeaf, LeafCost,
         LeafFits, At, PlainLeaf, Le, FromLe;
    TagReads(data, s, depth, LeafTagOf(l), SpelledLeaf(l));
    LeafReads(data, Moved(s, 1, NODE), l);
  }

  lemma BackReads(data: Bytes, s: Decoding, depth: nat, n: nat)
    requires 1 <= n <= |s.refs| && s.refs[n - 1].Some? && n < U32
    requires At(data, s.pos, [TAG_PRIOR_OBJECT] + Le(n, 4)) && depth <= MAX_DEPTH
    requires InBudget(Plus(s.spent, Plus(NODE, s.refs[n - 1].value.1)))
    ensures ReadValue(data, s, depth)
         == Ok((s.refs[n - 1].value.0, Moved(s, 5, Plus(NODE, s.refs[n - 1].value.1))))
  {
    hide ReadValue, ReadLeaf, ReadContainer, ReadHead, ReadText, Le, FromLe, At;
    TagReads(data, s, depth, TAG_PRIOR_OBJECT, Le(n, 4));
    UintReads(data, Moved(s, 1, NODE), n);
  }

  lemma ToldReads(data: Bytes, s: Decoding, depth: nat, w: Syntax)
    requires w.Told? && WellFormed(w) && At(data, s.pos, Spelled(w)) && depth <= MAX_DEPTH
    requires InBudget(Plus(s.spent, Meant(w, s.refs).value.spent))
    ensures var m := Meant(w, s.refs).value;
            ReadValue(data, s, depth) == Ok((m.value, After(s, |Spelled(w)|, m.refs, m.tree, m.spent)))
  {
    hide ReadValue, At, SpelledLeaf, LeafCost, LeafFits, Le, FromLe, ReadHead, ReadLeaf, ReadText, ReadBack;
    LeafValueReads(data, s, depth, w.leaf);
  }

  lemma PriorReads(data: Bytes, s: Decoding, depth: nat, w: Syntax)
    requires w.Prior? && WellFormed(w) && At(data, s.pos, Spelled(w)) && depth <= MAX_DEPTH
    requires Meant(w, s.refs).Some? && InBudget(Plus(s.spent, Meant(w, s.refs).value.spent))
    ensures var m := Meant(w, s.refs).value;
            ReadValue(data, s, depth) == Ok((m.value, After(s, |Spelled(w)|, m.refs, m.tree, m.spent)))
  {
    hide ReadValue, At, Le, FromLe, ReadHead, ReadLeaf, ReadText, ReadBack;
    BackReads(data, s, depth, w.n);
  }

  lemma BuiltUnfolds(w: Syntax, refs: Refs)
    requires w.Built?
    ensures WellFormed(w) ==>
      HeadFits(w.head, |w.parts|) && KeysFit(w.head.Keyed(), w.keys, |w.parts|)
      && forall p | p in w.parts :: WellFormed(p)
    ensures Spelled(w) == [HeadTagOf(w.head)] + (SpelledHead(w.head, |w.parts|) + SpelledParts(w.keys, w.parts))
    ensures Height(w) == if w.parts == [] then 0 else 1 + HeightAll(w.parts)
    ensures Meant(w, refs)
         == match MeantParts(w.keys, w.parts, refs + [None])
            case None => None
            case Some(p) => Some(BuiltMeaning(w.head, w.keys, p, |refs|))
  {
    hide HeadFits, KeysFit, SpelledHead, SpelledParts, HeightAll, MeantParts, BuiltMeaning;
  }

  /** Well-formed bytes whose references resolve are decoded to what they mean,
      unless they nest too deep or cost too much. */
  lemma {:induction false} ValueReads(data: Bytes, s: Decoding, depth: nat, w: Syntax)
    requires WellFormed(w) && At(data, s.pos, Spelled(w)) && depth + Height(w) <= MAX_DEPTH
    requires Meant(w, s.refs).Some? && InBudget(Plus(s.spent, Meant(w, s.refs).value.spent))
    ensures var m := Meant(w, s.refs).value;
            ReadValue(data, s, depth)
            == Ok((m.value, After(s, |Spelled(w)|, m.refs, m.tree, m.spent)))
    decreases w, 0
  {
    hide WellFormed, At, Spelled, Height, Meant, InBudget, ReadValue, ReadHead, ReadLeaf, ReadText, ReadBack,
         ReadContainer, HeadFits, KeysFit, SpelledHead, SpelledParts, HeightAll, MeantParts, BuiltMeaning;
    if w.Told? {
      ToldReads(data, s, depth, w);
    } else if w.Prior? {
      PriorReads(data, s, depth, w);
    } else {
      BuiltUnfolds(w, s.refs);
      BuiltReads(data, s, depth, w.head, w.keys, w.parts);
    }
  }

  lemma BuiltReads(data: Bytes, s: Decoding, depth: nat, h: Head, keys: seq<Text>, parts: seq<Syntax>)
    requires HeadFits(h, |parts|) && KeysFit(h.Keyed(), keys, |parts|)
    requires forall p | p in parts :: WellFormed(p)
    requires At(data, s.pos, [HeadTagOf(h)] + (SpelledHead(h, |parts|) + SpelledParts(keys, parts)))
    requires depth <= MAX_DEPTH && (parts != [] ==> depth + 1 + HeightAll(parts) <= MAX_DEPTH)
    requires MeantParts(keys, parts, s.refs + [None]).Some?
    requires var m := BuiltMeaning(h, keys, MeantParts(keys, parts, s.refs + [None]).value, |s.refs|);
             InBudget(Plus(s.spent, m.spent))
    ensures var m := BuiltMeaning(h, keys, MeantParts(keys, parts, s.refs + [None]).value, |s.refs|);
            ReadValue(data, s, depth)
            == Ok((m.value, After(s, 1 + |SpelledHead(h, |parts|)| + |SpelledParts(keys, parts)|,
                                  m.refs, m.tree, m.spent)))
    decreases parts, 3
  {
    hide ReadValue, ReadContainer, SpelledHead, SpelledParts, MeantParts, At, HeightAll, HeadFits, KeysFit,
         WellFormed, Le, FromLe, ReadHead, ReadLeaf, ReadText, ReadBack, ReadParts, HeadCost, PlainTexts;
    TagReads(data, s, depth, HeadTagOf(h), SpelledHead(h, |parts|) + SpelledParts(keys, parts));
    ContainerReads(data, s, depth, h, keys, parts);
  }
}
