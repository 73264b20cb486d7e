/** The save journal's bytes: records framed by a length and a checksum, and a
    reader that stops at the torn tail of a crash. */
module Journal {
  import opened Prelude
  import opened Wire
  import opened MatchLogs
  import opened Relay

  const KIND_TURN: Byte := 1
  const KIND_HASH: Byte := 2
  const KIND_RESUMED: Byte := 3
  const KIND_STOPPED: Byte := 4

  const LEN_BYTES: nat := 4
  const CHECKSUM_BYTES: nat := 16
  const COMMAND_HEAD: nat := 12

  type Sum = s: Bytes | |s| == CHECKSUM_BYTES witness seq(CHECKSUM_BYTES, _ => 0)

  // Blake2b is any function from a body to sixteen bytes.
  type Digest = Bytes -> Sum

  // ---- commands ----

  function CommandBytes(c: Command): (b: Bytes)
    ensures |b| == COMMAND_HEAD + |c.data|
  {
    Le(c.client, 4) + Le(Unsigned(c.player, U32), 4) + Le(c.turn, 4) + c.data
  }

  function CommandOf(b: Bytes): Option<Command> {
    if |b| < COMMAND_HEAD then None
    else Some(Command(FromLe(b[..4]), Signed(FromLe(b[4..8]), U32), FromLe(b[8..12]), b[12..]))
  }

  predicate CommandFits(c: Command) {
    c.client < U32 && Fits(c.player, U32) && c.turn < U32 && COMMAND_HEAD + |c.data| < U32
  }

  lemma CommandRound(c: Command)
    requires CommandFits(c)
    ensures CommandOf(CommandBytes(c)) == Some(c)
  {
    var b := CommandBytes(c);
    Spans();
    assert b[..4] == Le(c.client, 4) && b[8..12] == Le(c.turn, 4) && b[12..] == c.data;
    assert b[4..8] == Le(Unsigned(c.player, U32), 4);
    LeRound(c.client, 4);
    LeRound(Unsigned(c.player, U32), 4);
    LeRound(c.turn, 4);
    SignedRound(c.player, U32);
  }

  lemma CommandCanonical(b: Bytes)
    requires COMMAND_HEAD <= |b| < U32
    ensures CommandFits(CommandOf(b).value) && CommandBytes(CommandOf(b).value) == b
  {
    Spans();
    LeCanonical(b[..4]);
    LeCanonical(b[4..8]);
    LeCanonical(b[8..12]);
    UnsignedRound(FromLe(b[4..8]), U32);
    assert b == b[..4] + b[4..8] + b[8..12] + b[12..];
  }

  /** Each command behind its own length. */
  function Packed(c: Command): Bytes { Le(|CommandBytes(c)|, 4) + CommandBytes(c) }

  function CommandsBytes(cs: seq<Command>): Bytes {
    if cs == [] then [] else Packed(cs[0]) + CommandsBytes(cs[1..])
  }

  function TakeCommand(buf: Bytes, pos: nat): Option<(Command, nat)> {
    match TakeUint(buf, pos, 4)
    case None => None
    case Some(len) =>
      match TakeBytes(buf, len.1, len.0)
      case None => None
      case Some(bytes) =>
        match CommandOf(bytes.0)
        case None => None
        case Some(c) => Some((c, bytes.1))
  }

  function TakeCommands(buf: Bytes, pos: nat, count: nat): Option<(seq<Command>, nat)>
    decreases count
  {
    if count == 0 then Some(([], pos))
    else
      match TakeCommand(buf, pos)
      case None => None
      case Some(first) =>
        match TakeCommands(buf, first.1, count - 1)
        case None => None
        case Some(rest) => Some(([first.0] + rest.0, rest.1))
  }

  /** A command is read exactly where it was packed. */
  lemma CommandAt(buf: Bytes, pos: nat, c: Command, p: nat)
    ensures TakeCommand(buf, pos) == Some((c, p))
       <==> CommandFits(c) && p == pos + |Packed(c)| && At(buf, pos, Packed(c))
  {
    Spans();
    var b := CommandBytes(c);
    AtBoth(buf, pos, Le(|b|, 4), b);
    if CommandFits(c) && At(buf, pos, Packed(c)) {
      UintAt(buf, pos, 4, |b|, pos + 4);
      CommandRound(c);
    }
    if TakeCommand(buf, pos) == Some((c, p)) {
      var len := TakeUint(buf, pos, 4).value;
      UintAt(buf, pos, 4, len.0, len.1);
      CommandCanonical(buf[len.1..len.1 + len.0]);
    }
  }

  lemma {:induction false} CommandsAt(buf: Bytes, pos: nat, count: nat, cs: seq<Command>, p: nat)
    requires pos <= |buf|
    ensures TakeCommands(buf, pos, count) == Some((cs, p))
       <==> |cs| == count && (forall c | c in cs :: CommandFits(c))
            && p == pos + |CommandsBytes(cs)| && At(buf, pos, CommandsBytes(cs))
    decreases count
  {
    if count > 0 && cs != [] {
      var next := pos + |Packed(cs[0])|;
      CommandAt(buf, pos, cs[0], next);
      AtBoth(buf, pos, Packed(cs[0]), CommandsBytes(cs[1..]));
      assert cs == [cs[0]] + cs[1..];
      if next <= |buf| {
        CommandsAt(buf, next, count - 1, cs[1..], p);
      }
      if TakeCommands(buf, pos, count) == Some((cs, p)) {
        var first := TakeCommand(buf, pos).value;
        CommandAt(buf, pos, first.0, first.1);
      }
    }
  }

  // ---- records ----

  const MAX_COMMANDS: nat := 0xFFFF
  const MAX_HASH: nat := 0xFF

  /** The record as far as its count bytes reach. */
  function Truncated(r: Record): Record {
    match r
    case TurnRecord(turn, length, commands) =>
      TurnRecord(turn, length, commands[..Min(|commands|, MAX_COMMANDS)])
    case HashRecord(turn, hash) => HashRecord(turn, hash[..Min(|hash|, MAX_HASH)])
    case _ => r
  }

  function BodyOf(r: Record): Bytes {
    match r
    case TurnRecord(turn, length, commands) =>
      var kept := commands[..Min(|commands|, MAX_COMMANDS)];
      [KIND_TURN] + Le(turn, 4) + Le(length, 2) + Le(|kept|, 2) + CommandsBytes(kept)
    case HashRecord(turn, hash) =>
      var kept := hash[..Min(|hash|, MAX_HASH)];
      [KIND_HASH] + Le(turn, 4) + Le(|kept|, 1) + kept
    case ResumedRecord(turn, unixMs) => [KIND_RESUMED] + Le(turn, 4) + Le(Unsigned(unixMs, U64), 8)
    case StoppedRecord(turn, unixMs) => [KIND_STOPPED] + Le(turn, 4) + Le(Unsigned(unixMs, U64), 8)
  }

  /** The fields are in their machine types. */
  predicate InRange(r: Record) {
    match r
    case TurnRecord(turn, length, commands) =>
      turn < U32 && length < U16 && forall c | c in commands :: CommandFits(c)
    case HashRecord(turn, hash) => turn < U32
    case ResumedRecord(turn, unixMs) => turn < U32 && Fits(unixMs, U64)
    case StoppedRecord(turn, unixMs) => turn < U32 && Fits(unixMs, U64)
  }

  /** In range, and within what the count bytes can say. */
  predicate Whole(r: Record) { InRange(r) && Truncated(r) == r }

  lemma TruncatedWhole(r: Record)
    requires InRange(r)
    ensures Whole(Truncated(r)) && BodyOf(Truncated(r)) == BodyOf(r)
  {
    match r {
      case TurnRecord(turn, length, commands) =>
        var kept := commands[..Min(|commands|, MAX_COMMANDS)];
        assert kept[..Min(|kept|, MAX_COMMANDS)] == kept;
      case HashRecord(turn, hash) =>
        var kept := hash[..Min(|hash|, MAX_HASH)];
        assert kept[..Min(|kept|, MAX_HASH)] == kept;
      case _ =>
    }
  }

  /** The bytes of a number, low byte first. */
  predicate LowFirst(b: Bytes, n: nat) {
    && (|b| >= 1 ==> b[0] == n % 256)
    && (|b| >= 2 ==> b[1] == n / 256 % 256)
    && (|b| >= 3 ==> b[2] == n / 256 / 256 % 256)
    && (|b| >= 4 ==> b[3] == n / 256 / 256 / 256 % 256)
  }

  lemma LeIsLowFirst(n: nat, width: nat)
    ensures LowFirst(Le(n, width), n)
  {
    if width >= 1 {
      assert Le(n, width)[1..] == Le(n / 256, width - 1);
    }
    if width >= 2 {
      assert Le(n / 256, width - 1)[1..] == Le(n / 256 / 256, width - 2);
    }
    if width >= 3 {
      assert Le(n / 256 / 256, width - 2)[1..] == Le(n / 256 / 256 / 256, width - 3);
    }
  }

  /** Where each field stands in a command, and in a record's body. */
  lemma CommandLayout(c: Command)
    ensures var b := CommandBytes(c);
            && LowFirst(b[..4], c.client)
            && LowFirst(b[4..8], c.player % U32)
            && LowFirst(b[8..12], c.turn) && b[12..] == c.data
  {
    var b := CommandBytes(c);
    LeIsLowFirst(c.client, 4);
    LeIsLowFirst(Unsigned(c.player, U32), 4);
    LeIsLowFirst(c.turn, 4);
    assert b[..4] == Le(c.client, 4) && b[4..8] == Le(Unsigned(c.player, U32), 4) && b[8..12] == Le(c.turn, 4);
    hide LowFirst;
  }

  lemma BodyLayout(r: Record)
    ensures var b := BodyOf(r);
            && |b| >= 6 && LowFirst(b[1..5], r.turn)
            && match r
               case TurnRecord(_, length, commands) =>
                 && b[0] == 1 && |b| >= 9 && LowFirst(b[5..7], length)
                 && LowFirst(b[7..9], Min(|commands|, 65535))
                 && b[9..] == CommandsBytes(commands[..Min(|commands|, 65535)])
               case HashRecord(_, hash) =>
                 b[0] == 2 && b[5] == Min(|hash|, 255) && b[6..] == hash[..Min(|hash|, 255)]
               case ResumedRecord(_, _) => b[0] == 3 && |b| == 13
               case StoppedRecord(_, _) => b[0] == 4 && |b| == 13
  {
    LeIsLowFirst(r.turn, 4);
    assert BodyOf(r)[1..5] == Le(r.turn, 4);
    match r {
      case TurnRecord(_, length, commands) =>
        var n := Min(|commands|, 65535);
        LeIsLowFirst(length, 2);
        LeIsLowFirst(n, 2);
        assert BodyOf(r)[5..7] == Le(length, 2) && BodyOf(r)[7..9] == Le(n, 2);
      case HashRecord(_, hash) =>
        var n := Min(|hash|, 255);
        LeIsLowFirst(n, 1);
        assert BodyOf(r)[5..6] == Le(n, 1) && BodyOf(r)[5] == BodyOf(r)[5..6][0];
      case _ =>
    }
    hide LowFirst, Le, CommandsBytes;
  }

  function TurnFrom(body: Bytes): (r: Option<(Record, nat)>)
    ensures r.Some? ==> r.value.0.TurnRecord?
  {
    match TakeUint(body, 1, 4)
    case None => None
    case Some(turn) =>
      match TakeUint(body, turn.1, 2)
      case None => None
      case Some(length) =>
        match TakeUint(body, length.1, 2)
        case None => None
        case Some(count) =>
          match TakeCommands(body, count.1, count.0)
          case None => None
          case Some(cs) => Some((TurnRecord(turn.0, length.0, cs.0), cs.1))
  }

  function HashFrom(body: Bytes): (r: Option<(Record, nat)>)
    ensures r.Some? ==> r.value.0.HashRecord?
  {
    match TakeUint(body, 1, 4)
    case None => None
    case Some(turn) =>
      match TakeUint(body, turn.1, 1)
      case None => None
      case Some(len) =>
        match TakeBytes(body, len.1, len.0)
        case None => None
        case Some(hash) => Some((HashRecord(turn.0, hash.0), hash.1))
  }

  function TimeFrom(body: Bytes): Option<((nat, int), nat)> {
    match TakeUint(body, 1, 4)
    case None => None
    case Some(turn) =>
      match TakeUint(body, turn.1, 8)
      case None => None
      case Some(ms) => Some(((turn.0, Signed(ms.0, U64)), ms.1))
  }

  function RecordFrom(body: Bytes): Option<(Record, nat)> {
    if body == [] then None
    else if body[0] == KIND_TURN then TurnFrom(body)
    else if body[0] == KIND_HASH then HashFrom(body)
    else if body[0] == KIND_RESUMED then
      match TimeFrom(body) case None => None case Some(t) => Some((ResumedRecord(t.0.0, t.0.1), t.1))
    else if body[0] == KIND_STOPPED then
      match TimeFrom(body) case None => None case Some(t) => Some((StoppedRecord(t.0.0, t.0.1), t.1))
    else None
  }

  /** The record of a body, if the body is exactly one. */
  function FromBody(body: Bytes): Option<Record> {
    match RecordFrom(body)
    case Some(r) => if r.1 == |body| then Some(r.0) else None
    case None => None
  }

  lemma TurnAt(body: Bytes, turn: nat, length: nat, cs: seq<Command>, p: nat)
    requires body != []
    ensures TurnFrom(body) == Some((TurnRecord(turn, length, cs), p))
       <==> && turn < U32 && length < U16 && |cs| < U16
            && (forall c | c in cs :: CommandFits(c))
            && p == 9 + |CommandsBytes(cs)|
            && At(body, 1, Le(turn, 4) + Le(length, 2) + Le(|cs|, 2) + CommandsBytes(cs))
  {
    hide TakeCommands, CommandsBytes, At, Le, FromLe, CommandFits;
    Spans();
    AtBoth(body, 1, Le(turn, 4) + Le(length, 2) + Le(|cs|, 2), CommandsBytes(cs));
    AtBoth(body, 1, Le(turn, 4) + Le(length, 2), Le(|cs|, 2));
    AtBoth(body, 1, Le(turn, 4), Le(length, 2));
    UintAt(body, 1, 4, turn, 5);
    UintAt(body, 5, 2, length, 7);
    UintAt(body, 7, 2, |cs|, 9);
    if |body| >= 9 {
      CommandsAt(body, 9, FromLe(body[7..9]), cs, p);
    }
  }

  lemma HashAt(body: Bytes, turn: nat, hash: Bytes, p: nat)
    requires body != []
    ensures HashFrom(body) == Some((HashRecord(turn, hash), p))
       <==> && turn < U32 && |hash| < U8 && p == 6 + |hash|
            && At(body, 1, Le(turn, 4) + Le(|hash|, 1) + hash)
  {
    hide Le, FromLe;
    Spans();
    AtBoth(body, 1, Le(turn, 4) + Le(|hash|, 1), hash);
    AtBoth(body, 1, Le(turn, 4), Le(|hash|, 1));
    UintAt(body, 1, 4, turn, 5);
    UintAt(body, 5, 1, |hash|, 6);
  }

  lemma TimeAt(body: Bytes, turn: nat, unixMs: int, p: nat)
    requires body != []
    ensures TimeFrom(body) == Some(((turn, unixMs), p))
       <==> && turn < U32 && Fits(unixMs, U64) && p == 13
            && At(body, 1, Le(turn, 4) + Le(Unsigned(unixMs, U64), 8))
  {
    hide Le, FromLe, At, Unsigned;
    Spans();
    AtBoth(body, 1, Le(turn, 4), Le(Unsigned(unixMs, U64), 8));
    UintAt(body, 1, 4, turn, 5);
    UintAt(body, 5, 8, Unsigned(unixMs, U64), 13);
    if Fits(unixMs, U64) {
      SignedRound(unixMs, U64);
    }
    if |body| >= 13 {
      UintAt(body, 5, 8, FromLe(body[5..13]), 13);
      UnsignedRound(FromLe(body[5..13]), U64);
    }
  }

  lemma Behind(body: Bytes, kind: Byte, rest: Bytes)
    requires body != []
    ensures body == [kind] + rest <==> body[0] == kind && At(body, 1, rest) && |body| == 1 + |rest|
  {
    if body[0] == kind && |body| == 1 + |rest| {
      assert body[1..1 + |rest|] == body[1..];
    }
  }

  /** Reading a body back gives the record it was written from, and only what
      this code writes is read as a record. */
  lemma BodyReadsBack(body: Bytes, r: Record)
    ensures FromBody(body) == Some(r) <==> Whole(r) && BodyOf(r) == body
  {
    hide At, Le, FromLe, CommandsBytes, TurnFrom, HashFrom, TimeFrom, Fits, Unsigned;
    if body != [] {
      match r {
        case TurnRecord(turn, length, cs) =>
          var rest := Le(turn, 4) + Le(length, 2) + Le(|cs|, 2) + CommandsBytes(cs);
          TurnAt(body, turn, length, cs, |body|);
          Behind(body, KIND_TURN, rest);
          assert |cs| <= MAX_COMMANDS ==> cs[..Min(|cs|, MAX_COMMANDS)] == cs;
          assert [KIND_TURN] + Le(turn, 4) + Le(length, 2) + Le(|cs|, 2) + CommandsBytes(cs)
              == [KIND_TURN] + rest;
        case HashRecord(turn, hash) =>
          var rest := Le(turn, 4) + Le(|hash|, 1) + hash;
          HashAt(body, turn, hash, |body|);
          Behind(body, KIND_HASH, rest);
          assert |hash| <= MAX_HASH ==> hash[..Min(|hash|, MAX_HASH)] == hash;
          assert [KIND_HASH] + Le(turn, 4) + Le(|hash|, 1) + hash == [KIND_HASH] + rest;
        case ResumedRecord(turn, unixMs) =>
          var rest := Le(turn, 4) + Le(Unsigned(unixMs, U64), 8);
          TimeAt(body, turn, unixMs, |body|);
          Behind(body, KIND_RESUMED, rest);
          assert [KIND_RESUMED] + Le(turn, 4) + Le(Unsigned(unixMs, U64), 8) == [KIND_RESUMED] + rest;
        case StoppedRecord(turn, unixMs) =>
          var rest := Le(turn, 4) + Le(Unsigned(unixMs, U64), 8);
          TimeAt(body, turn, unixMs, |body|);
          Behind(body, KIND_STOPPED, rest);
          assert [KIND_STOPPED] + Le(turn, 4) + Le(Unsigned(unixMs, U64), 8) == [KIND_STOPPED] + rest;
      }
    }
  }

  lemma BodyOfTruncates(r: Record)
    requires InRange(r)
    ensures FromBody(BodyOf(r)) == Some(Truncated(r))
  {
    TruncatedWhole(r);
    BodyReadsBack(BodyOf(r), Truncated(r));
  }

  // ---- frames ----

  function Frame(digest: Digest, r: Record): (b: Bytes)
    ensures |b| == LEN_BYTES + |BodyOf(r)| + CHECKSUM_BYTES
  {
    Le(|BodyOf(r)|, LEN_BYTES) + BodyOf(r) + digest(BodyOf(r))
  }

  function Frames(digest: Digest, rs: seq<Record>): Bytes {
    if rs == [] then [] else Frame(digest, rs[0]) + Frames(digest, rs[1..])
  }

  /** What the length field of a frame can say, on top of the body's own limits. */
  predicate Framable(r: Record) { Whole(r) && |BodyOf(r)| < U32 }

  /** The record that `bytes` starts with, and how many bytes it takes. */
  function ReadOne(digest: Digest, bytes: Bytes): (r: Option<(Record, nat)>)
    ensures r.Some? ==> LEN_BYTES + CHECKSUM_BYTES <= r.value.1 <= |bytes|
  {
    if |bytes| < LEN_BYTES then None
    else
      var end := LEN_BYTES + FromLe(bytes[..LEN_BYTES]);
      if |bytes| < end + CHECKSUM_BYTES then None
      else if bytes[end..end + CHECKSUM_BYTES] != digest(bytes[LEN_BYTES..end]) then None
      else
        match FromBody(bytes[LEN_BYTES..end])
        case None => None
        case Some(r) => Some((r, end + CHECKSUM_BYTES))
  }

  /** Every whole record from the start, and how many bytes they take. */
  function ReadAll(digest: Digest, bytes: Bytes): (r: (seq<Record>, nat))
    ensures r.1 <= |bytes|
    decreases |bytes|
  {
    match ReadOne(digest, bytes)
    case None => ([], 0)
    case Some(first) =>
      var rest := ReadAll(digest, bytes[first.1..]);
      ([first.0] + rest.0, first.1 + rest.1)
  }

  /** A record is read exactly where its frame stands. */
  lemma ReadsOneFrame(digest: Digest, bytes: Bytes, r: Record, used: nat)
    ensures ReadOne(digest, bytes) == Some((r, used))
       <==> Framable(r) && used == |Frame(digest, r)| && At(bytes, 0, Frame(digest, r))
  {
    hide FromBody, BodyOf, Le, FromLe, Whole;
    var b := BodyOf(r);
    var n := |b|;
    Spans();
    AtBoth(bytes, 0, Le(n, LEN_BYTES) + b, digest(b));
    AtBoth(bytes, 0, Le(n, LEN_BYTES), b);
    BodyReadsBack(b, r);
    UintAt(bytes, 0, LEN_BYTES, n, LEN_BYTES);
    if |bytes| >= LEN_BYTES {
      var end := LEN_BYTES + FromLe(bytes[..LEN_BYTES]);
      if end <= |bytes| {
        BodyReadsBack(bytes[LEN_BYTES..end], r);
      }
    }
  }

  // ---- writing and reading, byte by byte ----

  method WriteBody(r: Record) returns (body: Bytes)
    ensures body == BodyOf(r)
  {
    match r {
      case TurnRecord(turn, length, commands) =>
        body := [KIND_TURN];
        body := body + Le(turn, 4);
        body := body + Le(length, 2);
        var kept := commands[..Min(|commands|, MAX_COMMANDS)];
        body := body + Le(|kept|, 2);
        var i := 0;
        assert kept[i..] == kept;
        while i < |kept|
          invariant 0 <= i <= |kept|
          invariant body + CommandsBytes(kept[i..]) == BodyOf(r)
        {
          var bytes := CommandBytes(kept[i]);
          ghost var rest := CommandsBytes(kept[i + 1..]);
          assert kept[i..][1..] == kept[i + 1..];
          assert body + (Le(|bytes|, 4) + bytes + rest) == body + Le(|bytes|, 4) + bytes + rest;
          body := body + Le(|bytes|, 4);
          body := body + bytes;
          i := i + 1;
        }
      case HashRecord(turn, hash) =>
        body := [KIND_HASH];
        body := body + Le(turn, 4);
        var len := Min(|hash|, MAX_HASH);
        body := body + Le(len, 1);
        body := body + hash[..len];
      case ResumedRecord(turn, unixMs) =>
        body := [KIND_RESUMED];
        body := body + Le(turn, 4);
        body := body + Le(Unsigned(unixMs, U64), 8);
      case StoppedRecord(turn, unixMs) =>
        body := [KIND_STOPPED];
        body := body + Le(turn, 4);
        body := body + Le(Unsigned(unixMs, U64), 8);
    }
  }

  function After(done: seq<Command>, t: Option<(seq<Command>, nat)>): Option<(seq<Command>, nat)> {
    match t
    case Some(t) => Some((done + t.0, t.1))
    case None => None
  }

  lemma AfterMore(done: seq<Command>, c: Command, t: Option<(seq<Command>, nat)>)
    ensures After([], t) == t
    ensures After(done, After([c], t)) == After(done + [c], t)
  {
    if t.Some? {
      assert [] + t.value.0 == t.value.0;
      assert done + ([c] + t.value.0) == done + [c] + t.value.0;
    }
  }

  method ReadCommands(reader: Reader, count: nat) returns (r: Option<seq<Command>>)
    modifies reader
    ensures match TakeCommands(reader.buf, old(reader.pos), count)
            case Some(t) => r == Some(t.0) && reader.pos == t.1
            case None => r == None
  {
    ghost var start := reader.pos;
    var commands := [];
    var i := 0;
    AfterMore([], Command(0, 0, 0, []), TakeCommands(reader.buf, start, count));
    while i < count
      invariant 0 <= i <= count
      invariant TakeCommands(reader.buf, start, count)
             == After(commands, TakeCommands(reader.buf, reader.pos, count - i))
    {
      ghost var from := reader.pos;
      var len := reader.Uint(4);
      if len.None? {
        return None;
      }
      var bytes := reader.Take(len.value);
      if bytes.None? {
        return None;
      }
      var c := CommandOf(bytes.value);
      if c.None? {
        return None;
      }
      ghost var rest := TakeCommands(reader.buf, reader.pos, count - i - 1);
      assert TakeCommand(reader.buf, from) == Some((c.value, reader.pos));
      assert TakeCommands(reader.buf, from, count - i) == After([c.value], rest);
      AfterMore(commands, c.value, rest);
      commands := commands + [c.value];
      i := i + 1;
    }
    assert commands + [] == commands;
    return Some(commands);
  }

  method ReadBody(body: Bytes) returns (r: Option<Record>)
    ensures r == FromBody(body)
  {
    var reader := new Reader(body);
    var kind := reader.Uint(1);
    if kind.None? {
      return None;
    }
    assert FromLe(body[0..1]) == body[0];
    var record: Record;
    if kind.value == KIND_TURN {
      var turn := reader.Uint(4);
      if turn.None? { return None; }
      var length := reader.Uint(2);
      if length.None? { return None; }
      var count := reader.Uint(2);
      if count.None? { return None; }
      var commands := ReadCommands(reader, count.value);
      if commands.None? { return None; }
      record := TurnRecord(turn.value, length.value, commands.value);
    } else if kind.value == KIND_HASH {
      var turn := reader.Uint(4);
      if turn.None? { return None; }
      var len := reader.Uint(1);
      if len.None? { return None; }
      var hash := reader.Take(len.value);
      if hash.None? { return None; }
      record := HashRecord(turn.value, hash.value);
    } else if kind.value == KIND_RESUMED || kind.value == KIND_STOPPED {
      var turn := reader.Uint(4);
      if turn.None? { return None; }
      var ms := reader.Uint(8);
      if ms.None? { return None; }
      var unixMs := Signed(ms.value, U64);
      record := if kind.value == KIND_RESUMED then ResumedRecord(turn.value, unixMs)
                else StoppedRecord(turn.value, unixMs);
    } else {
      return None;
    }
    return if reader.pos == |body| then Some(record) else None;
  }

  lemma ReadMore(digest: Digest, bytes: Bytes, pos: nat, records: seq<Record>)
    requires pos <= |bytes| && ReadOne(digest, bytes[pos..]).Some?
    ensures var next := ReadOne(digest, bytes[pos..]).value;
            var here, there := ReadAll(digest, bytes[pos..]), ReadAll(digest, bytes[pos + next.1..]);
            && records + here.0 == records + [next.0] + there.0
            && here.1 == next.1 + there.1
  {
    var next := ReadOne(digest, bytes[pos..]).value;
    assert bytes[pos..][next.1..] == bytes[pos + next.1..];
  }

  lemma ReadDone(digest: Digest, bytes: Bytes, records: seq<Record>)
    requires ReadOne(digest, bytes).None?
    ensures records + ReadAll(digest, bytes).0 == records && ReadAll(digest, bytes).1 == 0
  {
  }

  method Read(digest: Digest, bytes: Bytes) returns (records: seq<Record>, pos: nat)
    ensures records == ReadAll(digest, bytes).0 && pos == ReadAll(digest, bytes).1
  {
    hide ReadAll;
    records, pos := [], 0;
    var next := ReadOne(digest, bytes);
    assert bytes[0..] == bytes;
    while next.Some?
      invariant pos <= |bytes| && next == ReadOne(digest, bytes[pos..])
      invariant ReadAll(digest, bytes).0 == records + ReadAll(digest, bytes[pos..]).0
      invariant ReadAll(digest, bytes).1 == pos + ReadAll(digest, bytes[pos..]).1
      decreases |bytes| - pos
    {
      ReadMore(digest, bytes, pos, records);
      records := records + [next.value.0];
      pos := pos + next.value.1;
      next := ReadOne(digest, bytes[pos..]);
    }
    ReadDone(digest, bytes[pos..], records);
  }
}
