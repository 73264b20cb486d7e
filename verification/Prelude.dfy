/** Values and set facts shared by the models. */
module Prelude {

  datatype Option<+T> = None | Some(value: T)

  datatype Result<+T, +E> = Ok(value: T) | Err(error: E)

  /** One octet of a payload, a hash or a file. */
  type Byte = b: int | 0 <= b < 256

  type Bytes = seq<Byte>

  /** ENet's peer number. */
  type Peer = nat

  function Max(a: int, b: int): int { if a >= b then a else b }

  function Min(a: int, b: int): int { if a <= b then a else b }

  /** Subtraction that stops at zero, as `saturating_sub` on unsigned integers does. */
  function SaturatingSub(a: nat, b: nat): nat { if a >= b then a - b else 0 }

  ghost predicate IsLeast(xs: set<nat>, m: nat) {
    m in xs && forall y | y in xs :: m <= y
  }

  ghost predicate IsGreatest(xs: set<nat>, m: nat) {
    m in xs && forall y | y in xs :: y <= m
  }

  lemma {:induction false} LeastExists(xs: set<nat>) returns (m: nat)
    requires xs != {}
    ensures IsLeast(xs, m)
  {
    m :| m in xs;
    if xs != {m} {
      var rest := LeastExists(xs - {m});
      assert forall y | y in xs :: y == m || y in xs - {m};
      m := Min(m, rest);
    }
  }

  lemma {:induction false} GreatestExists(xs: set<nat>) returns (m: nat)
    requires xs != {}
    ensures IsGreatest(xs, m)
  {
    m :| m in xs;
    if xs != {m} {
      var rest := GreatestExists(xs - {m});
      assert forall y | y in xs :: y == m || y in xs - {m};
      m := Max(m, rest);
    }
  }

  function Least(xs: set<nat>): (m: nat)
    requires xs != {}
    ensures IsLeast(xs, m)
  {
    assert exists x :: IsLeast(xs, x) by { var w := LeastExists(xs); }
    var x :| x in xs && forall y | y in xs :: x <= y;
    x
  }

  /** The largest element, or zero when there is none. */
  function Greatest(xs: set<nat>): (m: nat)
    ensures forall y | y in xs :: y <= m
    ensures xs != {} ==> m in xs
  {
    if xs == {} then 0 else
      assert exists x :: IsGreatest(xs, x) by { var w := GreatestExists(xs); }
      var x :| x in xs && forall y | y in xs :: y <= x;
      x
  }

  ghost predicate Ascending(xs: seq<nat>) {
    forall i, j | 0 <= i < j < |xs| :: xs[i] < xs[j]
  }

  /** A set of turns in ascending order, as collecting and sorting it gives. */
  function Sorted(xs: set<nat>): (s: seq<nat>)
    ensures Ascending(s)
    ensures forall x :: x in s <==> x in xs
    decreases |xs|
  {
    if xs == {} then [] else
      var m := Least(xs);
      [m] + Sorted(xs - {m})
  }

  // ---- sequences ----

  lemma Assoc<T>(a: seq<T>, b: seq<T>, c: seq<T>)
    ensures a + (b + c) == a + b + c
  {
  }

  lemma FirstOff<T>(a: seq<T>, b: seq<T>)
    requires a != []
    ensures a == [a[0]] + a[1..] && a + b == [a[0]] + (a[1..] + b)
  {
  }
}
