/** Fixed-width little-endian integers, and reading them off a buffer. */
module Wire {
  import opened Arith
  import opened Prelude

  const U8: nat := 0x100
  const U16: nat := 0x1_0000
  const U32: nat := 0x1_0000_0000
  const U64: nat := 0x1_0000_0000_0000_0000

  function Span(width: nat): (n: nat)
    ensures n > 0
  {
    if width == 0 then 1 else 256 * Span(width - 1)
  }

  lemma Spans()
    ensures Span(1) == U8 && Span(2) == U16 && Span(4) == U32 && Span(8) == U64
  {
    assert Span(3) == 256 * Span(2);
    assert Span(5) == 256 * Span(4) && Span(6) == 256 * Span(5) && Span(7) == 256 * Span(6);
  }

  /** The low bytes of `n`; the rest is cut off, as a narrowing cast does. */
  function Le(n: nat, width: nat): (b: Bytes)
    ensures |b| == width
  {
    if width == 0 then [] else [n % 256] + Le(n / 256, width - 1)
  }

  function FromLe(b: Bytes): (n: nat)
    ensures n < Span(|b|)
  {
    if b == [] then 0 else b[0] + 256 * FromLe(b[1..])
  }

  lemma {:induction false} LeRound(n: nat, width: nat)
    requires n < Span(width)
    ensures FromLe(Le(n, width)) == n
    decreases width
  {
    if width > 0 {
      LeRound(n / 256, width - 1);
      assert Le(n, width)[1..] == Le(n / 256, width - 1);
    }
  }

  lemma {:induction false} LeCanonical(b: Bytes)
    ensures Le(FromLe(b), |b|) == b
    decreases |b|
  {
    if b != [] {
      LeCanonical(b[1..]);
      assert FromLe(b) / 256 == FromLe(b[1..]) && FromLe(b) % 256 == b[0];
      assert b == [b[0]] + b[1..];
    }
  }

  // Two's complement.
  function Unsigned(i: int, span: nat): (n: nat)
    requires span > 0
    ensures n < span
  {
    i % span
  }

  function Signed(n: nat, span: nat): int { if 2 * n >= span then n - span else n }

  predicate Fits(i: int, span: int) { -span <= 2 * i < span }

  lemma SignedRound(i: int, span: nat)
    requires Fits(i, span) && span > 0
    ensures Signed(Unsigned(i, span), span) == i
  {
    if i < 0 {
      DivMod(i, -1, i + span, span);
    } else {
      DivMod(i, 0, i, span);
    }
  }

  lemma UnsignedRound(n: nat, span: nat)
    requires n < span && span % 2 == 0
    ensures Fits(Signed(n, span), span) && Unsigned(Signed(n, span), span) == n
  {
    if 2 * n >= span {
      DivMod(n - span, -1, n, span);
    } else {
      DivMod(n, 0, n, span);
    }
  }

  // ---- taking bytes off a buffer ----

  function TakeBytes(buf: Bytes, pos: nat, n: nat): Option<(Bytes, nat)> {
    if pos + n <= |buf| then Some((buf[pos..pos + n], pos + n)) else None
  }

  function TakeUint(buf: Bytes, pos: nat, width: nat): Option<(nat, nat)> {
    match TakeBytes(buf, pos, width)
    case None => None
    case Some(t) => Some((FromLe(t.0), t.1))
  }

  predicate At(buf: Bytes, pos: nat, x: Bytes) {
    pos + |x| <= |buf| && buf[pos..pos + |x|] == x
  }

  lemma AtBoth(buf: Bytes, pos: nat, a: Bytes, b: Bytes)
    ensures At(buf, pos, a + b) <==> At(buf, pos, a) && At(buf, pos + |a|, b)
  {
    if At(buf, pos, a + b) {
      assert buf[pos..pos + |a|] == buf[pos..pos + |a + b|][..|a|];
      assert buf[pos + |a|..pos + |a| + |b|] == buf[pos..pos + |a + b|][|a|..];
    }
  }

  /** An integer is read exactly where its bytes stand. */
  lemma UintAt(buf: Bytes, pos: nat, width: nat, n: nat, p: nat)
    ensures TakeUint(buf, pos, width) == Some((n, p))
       <==> n < Span(width) && p == pos + width && At(buf, pos, Le(n, width))
  {
    if pos + width <= |buf| {
      LeCanonical(buf[pos..pos + width]);
    }
    if n < Span(width) {
      LeRound(n, width);
    }
  }

  /** A cursor over a buffer. */
  class Reader {
    const buf: Bytes
    var pos: nat

    constructor (buf: Bytes)
      ensures this.buf == buf && pos == 0
    {
      this.buf, pos := buf, 0;
    }

    method Take(n: nat) returns (r: Option<Bytes>)
      modifies this
      ensures match TakeBytes(buf, old(pos), n)
              case Some(t) => r == Some(t.0) && pos == t.1
              case None => r == None && pos == old(pos)
    {
      var end := pos + n;
      if end > |buf| {
        return None;
      }
      var from := pos;
      pos := end;
      return Some(buf[from..end]);
    }

    method Uint(width: nat) returns (r: Option<nat>)
      modifies this
      ensures match TakeUint(buf, old(pos), width)
              case Some(t) => r == Some(t.0) && pos == t.1
              case None => r == None && pos == old(pos)
    {
      var bytes := Take(width);
      if bytes.None? {
        return None;
      }
      return Some(FromLe(bytes.value));
    }
  }
}
