/** From the decoder back to the grammar, and what a decode is worth: the
    decoded value is what the bytes mean, within every limit. */
module ScriptSoundness {
  import opened Prelude
  import opened Wire
  import opened ScriptValues
  import opened ScriptGrammar
  import opened ScriptDecoding

  /** The syntax stands at the decoder's position, and reading it is within the
      limits. */
  ghost predicate Stands(data: Bytes, s: Decoding, depth: nat, w: Syntax) {
    && WellFormed(w) && At(data, s.pos, Spelled(w)) && depth + Height(w) <= MAX_DEPTH
    && Meant(w, s.refs).Some? && InBudget(Plus(s.spent, Meant(w, s.refs).value.spent))
  }

  ghost predicate PartsStandHere(data: Bytes, s: Decoding, depth: nat, keyed: bool,
                                 keys: seq<Text>, parts: seq<Syntax>)
  {
    && KeysFit(keyed, keys, |parts|) && (forall p | p in parts :: WellFormed(p))
    && At(data, s.pos, SpelledParts(keys, parts))
    && (parts != [] ==> depth + HeightAll(parts) <= MAX_DEPTH)
    && MeantParts(keys, parts, s.refs).Some?
    && InBudget(Plus(s.spent, MeantParts(keys, parts, s.refs).value.spent))
  }

  lemma StandsReads(data: Bytes, s: Decoding, depth: nat, w: Syntax)
    requires Stands(data, s, depth, w)
    ensures var m := Meant(w, s.refs).value;
            var after := After(s, |Spelled(w)|, m.refs, m.tree, m.spent);
            && ReadValue(data, s, depth) == Ok((m.value, after))
            && after.pos <= |data| && InBudget(after.spent)
  {
    ValueReads(data, s, depth, w);
  }

  lemma PartsStandReads(data: Bytes, s: Decoding, depth: nat, keyed: bool, keys: seq<Text>, parts: seq<Syntax>)
    requires PartsStandHere(data, s, depth, keyed, keys, parts) && depth <= MAX_DEPTH + 1
    ensures var m := MeantParts(keys, parts, s.refs).value;
            var after := After(s, |SpelledParts(keys, parts)|, m.refs, m.tree, m.spent);
            && ReadParts(data, s, depth, keyed, |parts|) == Ok((PlainTexts(keys), m.values, after))
            && after.pos <= |data| && InBudget(after.spent)
  {
    PartsReadBack(data, s, depth, keyed, keys, parts);
  }

  lemma NoPartsStand(data: Bytes, s: Decoding, depth: nat, keyed: bool)
    requires s.pos <= |data| && InBudget(s.spent)
    ensures PartsStandHere(data, s, depth, keyed, [], [])
  {
  }

  /** One more part in front of those that follow. */
  lemma PartsJoin(data: Bytes, s: Decoding, depth: nat, keyed: bool, first: seq<Text>, w: Syntax,
                  keys: seq<Text>, parts: seq<Syntax>)
    requires |first| == (if keyed then 1 else 0) && (forall k | k in first :: TextFits(k))
    requires At(data, s.pos, SpelledKey(first)) && (!keyed ==> keys == [])
    requires Stands(data, Moved(s, |SpelledKey(first)|, KeyCost(first)), depth, w)
    requires var m, s1 := Meant(w, s.refs).value, Moved(s, |SpelledKey(first)|, KeyCost(first));
             PartsStandHere(data, After(s1, |Spelled(w)|, m.refs, m.tree, m.spent), depth, keyed, keys, parts)
    ensures PartsStandHere(data, s, depth, keyed, first + keys, [w] + parts)
  {
    hide SpelledParts, Spelled, HeightAll, Height, Meant, MeantParts, SpelledKey, KeyCost, At, KeysFit,
         WellFormed;
    JoinSpelled(data, s.pos, first, w, keys, parts);
    JoinShape(depth, keyed, first, w, keys, parts);
    JoinMeant(s, first, w, keys, parts);
  }

  lemma SpelledJoin(first: seq<Text>, w: Syntax, keys: seq<Text>, parts: seq<Syntax>)
    requires |first| <= 1 && (first == [] ==> keys == [])
    ensures SpelledParts(first + keys, [w] + parts)
         == SpelledKey(first) + (Spelled(w) + SpelledParts(keys, parts))
  {
    hide Spelled;
    var allKeys, all := first + keys, [w] + parts;
    assert all[0] == w && all[1..] == parts && Rest(allKeys) == keys;
    assert SpelledKey(allKeys) == SpelledKey(first);
  }

  lemma JoinSpelled(data: Bytes, pos: nat, first: seq<Text>, w: Syntax, keys: seq<Text>, parts: seq<Syntax>)
    requires |first| <= 1 && (first == [] ==> keys == [])
    requires At(data, pos, SpelledKey(first)) && At(data, pos + |SpelledKey(first)|, Spelled(w))
    requires At(data, pos + |SpelledKey(first)| + |Spelled(w)|, SpelledParts(keys, parts))
    ensures At(data, pos, SpelledParts(first + keys, [w] + parts))
  {
    hide SpelledParts, Spelled, SpelledKey, At;
    SpelledJoin(first, w, keys, parts);
    AtBoth(data, pos, SpelledKey(first), Spelled(w) + SpelledParts(keys, parts));
    AtBoth(data, pos + |SpelledKey(first)|, Spelled(w), SpelledParts(keys, parts));
  }

  lemma JoinShape(depth: nat, keyed: bool, first: seq<Text>, w: Syntax, keys: seq<Text>, parts: seq<Syntax>)
    requires |first| == (if keyed then 1 else 0) && (forall k | k in first :: TextFits(k))
    requires KeysFit(keyed, keys, |parts|) && WellFormed(w) && forall p | p in parts :: WellFormed(p)
    requires depth + Height(w) <= MAX_DEPTH && (parts != [] ==> depth + HeightAll(parts) <= MAX_DEPTH)
    ensures KeysFit(keyed, first + keys, |[w] + parts|)
    ensures forall p | p in [w] + parts :: WellFormed(p)
    ensures depth + HeightAll([w] + parts) <= MAX_DEPTH
  {
    hide WellFormed, Height;
    assert ([w] + parts)[1..] == parts;
  }

  lemma JoinMeant(s: Decoding, first: seq<Text>, w: Syntax, keys: seq<Text>, parts: seq<Syntax>)
    requires |first| <= 1 && (first == [] ==> keys == [])
    requires Meant(w, s.refs).Some? && MeantParts(keys, parts, Meant(w, s.refs).value.refs).Some?
    ensures MeantParts(first + keys, [w] + parts, s.refs).Some?
    ensures MeantParts(first + keys, [w] + parts, s.refs).value.spent
         == Plus(KeyCost(first),
                 Plus(Meant(w, s.refs).value.spent,
                      MeantParts(keys, parts, Meant(w, s.refs).value.refs).value.spent))
  {
    hide Meant;
    var allKeys, all := first + keys, [w] + parts;
    assert all[0] == w && all[1..] == parts && Rest(allKeys) == keys;
    assert KeyCost(allKeys) == KeyCost(first);
  }

  lemma KeyRead(data: Bytes, s: Decoding, keyed: bool) returns (first: seq<Text>)
    requires ReadKey(data, s, keyed).Ok? && s.pos <= |data|
    ensures |first| == (if keyed then 1 else 0) && (forall k | k in first :: TextFits(k))
    ensures At(data, s.pos, SpelledKey(first))
    ensures ReadKey(data, s, keyed).value.1 == Moved(s, |SpelledKey(first)|, KeyCost(first))
  {
    if keyed {
      var t := TextRead(data, s);
      first := [t];
    } else {
      first := [];
    }
  }

  lemma ContainerStands(data: Bytes, s: Decoding, depth: nat, h: Head, keys: seq<Text>, parts: seq<Syntax>)
    requires HeadFits(h, |parts|) && depth <= MAX_DEPTH
    requires At(data, s.pos, [HeadTagOf(h)]) && At(data, s.pos + 1, SpelledHead(h, |parts|))
    requires var s1 := Reserved(Moved(s, 1, NODE));
             PartsStandHere(data, Moved(s1, |SpelledHead(h, |parts|)|, HeadCost(h)), depth + 1, h.Keyed(),
                            keys, parts)
    requires InBudget(Plus(s.spent, BuiltMeaning(h, keys, MeantParts(keys, parts, s.refs + [None]).value,
                                                 |s.refs|).spent))
    ensures Stands(data, s, depth, Built(h, keys, parts))
  {
    hide SpelledParts, SpelledHead, HeightAll, MeantParts, At, HeadFits, KeysFit, BuiltMeaning, HeadTagOf,
         HeadCost;
    var rest := SpelledHead(h, |parts|) + SpelledParts(keys, parts);
    AtBoth(data, s.pos + 1, SpelledHead(h, |parts|), SpelledParts(keys, parts));
    AtBoth(data, s.pos, [HeadTagOf(h)], rest);
  }

  lemma TagRead(data: Bytes, s: Decoding, depth: nat)
    requires depth <= MAX_DEPTH + 1 && ReadValue(data, s, depth).Ok?
    ensures depth <= MAX_DEPTH && InBudget(Plus(s.spent, NODE)) && s.pos < |data|
    ensures var tag, s1 := data[s.pos], Moved(s, 1, NODE);
            && At(data, s.pos, [tag])
            && (LeafTag(tag) ==> ReadLeaf(data, s1, tag).Ok?)
            && (tag == TAG_PRIOR_OBJECT ==> ReadBack(data, s1).Ok?)
            && (HeadTag(tag) ==> ReadContainer(data, s.tree, Reserved(s1), depth, tag).Ok?)
            && (LeafTag(tag) || tag == TAG_PRIOR_OBJECT || HeadTag(tag))
  {
    hide ReadLeaf, ReadBack, ReadContainer;
    ByteAt(data, s.pos, data[s.pos]);
  }

  lemma BackRead(data: Bytes, s: Decoding, depth: nat) returns (w: Syntax)
    requires At(data, s.pos, [TAG_PRIOR_OBJECT]) && depth <= MAX_DEPTH
    requires ReadBack(data, Moved(s, 1, NODE)).Ok?
    ensures Stands(data, s, depth, w)
  {
    hide Le, FromLe, At;
    var s1 := Moved(s, 1, NODE);
    UintRead(data, s1);
    var n := ReadUint(data, s1, 4).value.0;
    w := Prior(n);
    AtBoth(data, s.pos, [TAG_PRIOR_OBJECT], Le(n, 4));
  }

  lemma PlainRead(data: Bytes, s: Decoding, depth: nat, tag: Byte) returns (w: Syntax)
    requires At(data, s.pos, [tag]) && depth <= MAX_DEPTH && LeafTag(tag)
    requires InBudget(Plus(s.spent, NODE)) && ReadLeaf(data, Moved(s, 1, NODE), tag).Ok?
    ensures Stands(data, s, depth, w)
  {
    hide Le, FromLe, ReadLeaf, SpelledLeaf, LeafCost, LeafFits;
    var l := LeafRead(data, Moved(s, 1, NODE), tag);
    w := Told(l);
    AtBoth(data, s.pos, [tag], SpelledLeaf(l));
  }

  /** Whatever the decoder reads stands there as well-formed syntax, and is what
      the syntax means. */
  lemma {:induction false} ValueRead(data: Bytes, s: Decoding, depth: nat) returns (w: Syntax)
    requires depth <= MAX_DEPTH + 1 && ReadValue(data, s, depth).Ok?
    ensures Stands(data, s, depth, w)
    decreases MAX_DEPTH + 1 - depth, 0, 0
  {
    hide Stands, ReadLeaf, ReadBack, ReadContainer, ReadValue, At;
    TagRead(data, s, depth);
    var tag := data[s.pos];
    if LeafTag(tag) {
      w := PlainRead(data, s, depth, tag);
    } else if tag == TAG_PRIOR_OBJECT {
      w := BackRead(data, s, depth);
    } else {
      w := ContainerRead(data, s, depth, tag);
    }
  }

  lemma ContainerParts(data: Bytes, s: Decoding, depth: nat, tag: Byte)
    requires depth <= MAX_DEPTH && HeadTag(tag) && InBudget(Plus(s.spent, NODE))
    requires ReadContainer(data, s.tree, Reserved(Moved(s, 1, NODE)), depth, tag).Ok?
    ensures var s1 := Reserved(Moved(s, 1, NODE));
            && ReadHead(data, s1, tag).Ok?
            && var (h, count, s2) := ReadHead(data, s1, tag).value;
               && ReadParts(data, s2, depth + 1, h.Keyed(), count).Ok?
               && var p := ReadParts(data, s2, depth + 1, h.Keyed(), count).value;
                  InBudget(Plus(p.2.spent, Since(p.2.tree, s.tree)))
  {
    hide ReadHead, ReadParts;
  }

  lemma ContainerRead(data: Bytes, s: Decoding, depth: nat, tag: Byte) returns (w: Syntax)
    requires depth <= MAX_DEPTH && HeadTag(tag) && At(data, s.pos, [tag]) && InBudget(Plus(s.spent, NODE))
    requires ReadContainer(data, s.tree, Reserved(Moved(s, 1, NODE)), depth, tag).Ok?
    ensures Stands(data, s, depth, w)
    decreases MAX_DEPTH - depth, 2, 0
  {
    hide ReadContainer, ReadHead, ReadParts, At, Stands, SpelledHead, HeadFits, HeadCost, PartsStandHere,
         MeantParts, SpelledParts, PlainTexts;
    ContainerParts(data, s, depth, tag);
    var s1 := Reserved(Moved(s, 1, NODE));
    HeadRead(data, s1, tag);
    var (h, count, s2) := ReadHead(data, s1, tag).value;
    HeadIn(data, s1.pos, h, count);
    var keys, parts := PartsRead(data, s2, depth + 1, h.Keyed(), count);
    PartsStandReads(data, s2, depth + 1, h.Keyed(), keys, parts);
    MeantHere(data, s2, depth + 1, h.Keyed(), keys, parts);
    ContainerStands(data, s, depth, h, keys, parts);
    w := Built(h, keys, parts);
  }

  lemma HeadIn(data: Bytes, pos: nat, h: Head, count: nat)
    requires At(data, pos, SpelledHead(h, count))
    ensures pos + |SpelledHead(h, count)| <= |data|
  {
  }

  lemma MeantHere(data: Bytes, s: Decoding, depth: nat, keyed: bool, keys: seq<Text>, parts: seq<Syntax>)
    requires PartsStandHere(data, s, depth, keyed, keys, parts)
    ensures MeantParts(keys, parts, s.refs).Some?
  {
  }

  lemma {:induction false} PartsRead(data: Bytes, s: Decoding, depth: nat, keyed: bool, count: nat)
    returns (keys: seq<Text>, parts: seq<Syntax>)
    requires depth <= MAX_DEPTH + 1 && s.pos <= |data| && InBudget(s.spent)
    requires ReadParts(data, s, depth, keyed, count).Ok?
    ensures |parts| == count && PartsStandHere(data, s, depth, keyed, keys, parts)
    decreases MAX_DEPTH + 1 - depth, 1, count
  {
    hide ReadParts, ReadValue, ReadKey, Stands, PartsStandHere, At, SpelledKey, KeyCost, SpelledParts,
         MeantParts, Spelled, Meant, ReadText, ReadLeaf, ReadHead, ReadContainer, Le, FromLe;
    if count == 0 {
      NoPartsStand(data, s, depth, keyed);
      keys, parts := [], [];
    } else {
      FirstRead(data, s, depth, keyed, count);
      var first := KeyRead(data, s, keyed);
      var s1 := Moved(s, |SpelledKey(first)|, KeyCost(first));
      var w := ValueRead(data, s1, depth);
      StandsReads(data, s1, depth, w);
      var s2 := ReadValue(data, s1, depth).value.1;
      keys, parts := PartsRead(data, s2, depth, keyed, count - 1);
      NoKeys(data, s2, depth, keyed, keys, parts);
      PartsJoin(data, s, depth, keyed, first, w, keys, parts);
      keys, parts := first + keys, [w] + parts;
    }
  }

  lemma NoKeys(data: Bytes, s: Decoding, depth: nat, keyed: bool, keys: seq<Text>, parts: seq<Syntax>)
    requires PartsStandHere(data, s, depth, keyed, keys, parts)
    ensures !keyed ==> keys == []
  {
  }

  lemma FirstRead(data: Bytes, s: Decoding, depth: nat, keyed: bool, count: nat)
    requires depth <= MAX_DEPTH + 1 && count > 0 && ReadParts(data, s, depth, keyed, count).Ok?
    ensures ReadKey(data, s, keyed).Ok?
    ensures var s1 := ReadKey(data, s, keyed).value.1;
            && ReadValue(data, s1, depth).Ok?
            && ReadParts(data, ReadValue(data, s1, depth).value.1, depth, keyed, count - 1).Ok?
  {
    hide ReadValue, ReadKey;
  }

  // ---- the whole ----

  const START: Decoding := Decoding(0, [], NOTHING, NOTHING)

  /** These bytes are a value's whole encoding, within every limit. */
  ghost predicate Encodes(bytes: Bytes, w: Syntax) {
    && WellFormed(w) && Spelled(w) == bytes && Height(w) <= MAX_DEPTH
    && Meant(w, []).Some? && InBudget(Meant(w, []).value.spent)
  }

  /** Decoding succeeds exactly on the well-formed encodings within the limits,
      and gives exactly what they mean. */
  lemma DecodesItsGrammar(bytes: Bytes, v: Value)
    ensures Decode(bytes) == Ok(v) <==> exists w :: Encodes(bytes, w) && Meant(w, []).value.value == v
  {
    if Decode(bytes) == Ok(v) {
      var w := ValueRead(bytes, START, 0);
      StandsReads(bytes, START, 0, w);
      assert bytes[0..|Spelled(w)|] == bytes;
      assert Encodes(bytes, w);
    }
    if w :| Encodes(bytes, w) && Meant(w, []).value.value == v {
      assert bytes[0..|bytes|] == bytes;
      ValueReads(bytes, START, 0, w);
    }
  }

  lemma WithinSpent(size: Cost, tree: Cost, copies: Cost, spent: Cost)
    requires AtMost(size, tree) && AtMost(Plus(tree, copies), Plus(spent, NOTHING)) && InBudget(spent)
    ensures InBudget(Plus(size, copies))
  {
  }

  /** The nodes and the payload bytes of a decoded value, together with every
      copy the reference table holds, are within the limits. */
  lemma DecodeStaysInBudget(bytes: Bytes, w: Syntax)
    requires Encodes(bytes, w)
    ensures var m := Meant(w, []).value;
            && Decode(bytes) == Ok(m.value)
            && InBudget(Plus(TrueCost(m.value), CopiesCost(m.refs)))
            && Numbered([], m.refs, Opened(w)) && m.value == Resolved(w, m.refs)
  {
    assert CopiesCost([]) == NOTHING;
    assert Paid([]);
    hide Resolved, Closed, Numbered, Meant, Spelled, Height, Opened, TrueCost, CopiesCost, Decode, Plus, InBudget,
         AtMost, Paid, WellFormed;
    var m := Meant(w, []).value;
    DecodesItsGrammar(bytes, m.value);
    Accounts(w, []);
    Numbers(w, []);
    WithinSpent(TrueCost(m.value), m.tree, CopiesCost(m.refs), m.spent);
  }
}
