/** The intrusive circular list under the packet queues: every node is linked
    both ways, and the list is the nodes after its sentinel. */
module EnetList {

  class Node {
    var next: Node
    var previous: Node
    // What the command around this node carries.
    const fragmentLength: nat

    constructor (fragmentLength: nat)
      ensures next == this && previous == this && this.fragmentLength == fragmentLength
    {
      this.fragmentLength := fragmentLength;
      next, previous := this, this;
    }
  }

  ghost predicate Linked(a: Node, b: Node)
    reads a, b
  {
    a.next == b && b.previous == a
  }

  ghost predicate Distinct(ring: seq<Node>) {
    forall i, j | 0 <= i < j < |ring| :: ring[i] != ring[j]
  }

  /** The node at an index, the sentinel standing past the last. */
  function At(ring: seq<Node>, i: nat): (n: Node)
    requires i <= |ring| && ring != []
    ensures n in ring
  {
    if i == |ring| then ring[0] else ring[i]
  }

  /** The sentinel first, and back to it after the last. */
  ghost predicate Ring(ring: seq<Node>)
    reads ring
  {
    && ring != [] && Distinct(ring)
    && forall i | 0 < i <= |ring| :: Linked(ring[i - 1], At(ring, i))
  }

  method Clear(sentinel: Node)
    modifies sentinel
    ensures Ring([sentinel])
  {
    sentinel.next := sentinel;
    sentinel.previous := sentinel;
  }

  /** Puts a node in front of a position, wherever in the list that is. */
  method Insert(position: Node, data: Node, ghost ring: seq<Node>, ghost i: nat)
    requires Ring(ring) && 0 < i <= |ring| && position == At(ring, i) && data !in ring
    modifies ring, data
    ensures Ring(ring[..i] + [data] + ring[i..])
  {
    assert Linked(ring[i - 1], At(ring, i));
    ghost var longer := ring[..i] + [data] + ring[i..];
    data.previous := position.previous;
    data.next := position;
    data.previous.next := data;
    position.previous := data;
    forall k | 0 < k <= |longer| ensures Linked(longer[k - 1], At(longer, k)) {
      if k < i {
        assert old(Linked(ring[k - 1], At(ring, k)));
      } else if k > i + 1 {
        assert old(Linked(ring[k - 2], At(ring, k - 1)));
      }
    }
  }

  method Remove(position: Node, ghost ring: seq<Node>, ghost i: nat)
    requires Ring(ring) && 0 < i < |ring| && position == ring[i]
    modifies ring
    ensures Ring(ring[..i] + ring[i + 1..])
    ensures position.next == old(position.next) && position.previous == old(position.previous)
  {
    assert Linked(ring[i - 1], At(ring, i)) && Linked(ring[i], At(ring, i + 1));
    ghost var shorter := ring[..i] + ring[i + 1..];
    position.previous.next := position.next;
    position.next.previous := position.previous;
    forall k | 0 < k <= |shorter| ensures Linked(shorter[k - 1], At(shorter, k)) {
      if k < i {
        assert old(Linked(ring[k - 1], At(ring, k)));
      } else if k > i {
        assert old(Linked(ring[k], At(ring, k + 1)));
      }
    }
  }

  /** Two lists with no node in common, or one list and a position outside the
      range that moves. */
  ghost predicate Apart(from: seq<Node>, i: nat, j: nat, into: seq<Node>, k: nat) {
    if from == into then k < i || k >= j else forall n | n in from :: n !in into
  }

  function Cut(from: seq<Node>, i: nat, j: nat): seq<Node>
    requires i <= j <= |from|
  {
    from[..i] + from[j..]
  }

  function Spliced(into: seq<Node>, k: nat, range: seq<Node>): seq<Node>
    requires k <= |into|
  {
    into[..k] + range + into[k..]
  }

  /** A list with one of its own ranges moved in front of another position. */
  function Shifted(ring: seq<Node>, i: nat, j: nat, k: nat): seq<Node>
    requires i <= j <= |ring| && k <= |ring| && (k < i || k >= j)
  {
    if k < i then ring[..k] + ring[i..j] + ring[k..i] + ring[j..]
    else ring[..i] + ring[j..k] + ring[i..j] + ring[k..]
  }

  lemma {:induction false} DistinctCut(from: seq<Node>, i: nat, j: nat)
    requires Distinct(from) && i <= j <= |from|
    ensures Distinct(Cut(from, i, j))
  {
    var cut := Cut(from, i, j);
    forall a, b | 0 <= a < b < |cut| ensures cut[a] != cut[b] {
      assert cut[a] == from[if a < i then a else a + j - i];
      assert cut[b] == from[if b < i then b else b + j - i];
    }
  }

  lemma DistinctSpliced(into: seq<Node>, k: nat, range: seq<Node>)
    requires Distinct(into) && Distinct(range) && k <= |into| && forall n | n in range :: n !in into
    ensures Distinct(Spliced(into, k, range))
  {
    var all, m := Spliced(into, k, range), |range|;
    assert forall a | 0 <= a < m :: range[a] in range;
    forall a, b | 0 <= a < b < |all| ensures all[a] != all[b] {
      if k <= a < k + m {
        assert all[a] == range[a - k];
        if b < k + m {
          assert all[b] == range[b - k];
        } else {
          assert all[b] == into[b - m];
        }
      } else {
        assert all[a] == into[if a < k then a else a - m];
        if k <= b < k + m {
          assert all[b] == range[b - k];
        } else {
          assert all[b] == into[if b < k then b else b - m];
        }
      }
    }
  }

  lemma ShiftedIsSpliced(ring: seq<Node>, i: nat, j: nat, k: nat)
    requires i <= j <= |ring| && k <= |ring| && (k < i || k >= j)
    ensures Shifted(ring, i, j, k) == Spliced(Cut(ring, i, j), if k < i then k else k - (j - i), ring[i..j])
  {
  }

  lemma CutLeavesOut(ring: seq<Node>, i: nat, j: nat)
    requires Distinct(ring) && i <= j <= |ring|
    ensures forall n | n in ring[i..j] :: n !in Cut(ring, i, j)
  {
    var cut := Cut(ring, i, j);
    forall n | n in ring[i..j] ensures n !in cut {
      var a :| i <= a < j && ring[a] == n;
      assert forall b | 0 <= b < |cut| :: cut[b] == ring[if b < i then b else b + j - i];
    }
  }

  lemma DistinctShifted(ring: seq<Node>, i: nat, j: nat, k: nat)
    requires Distinct(ring) && i <= j <= |ring| && k <= |ring| && (k < i || k >= j)
    ensures Distinct(Shifted(ring, i, j, k))
  {
    DistinctCut(ring, i, j);
    CutLeavesOut(ring, i, j);
    ShiftedIsSpliced(ring, i, j, k);
    hide Shifted, Cut, Spliced;
    DistinctSpliced(Cut(ring, i, j), if k < i then k else k - (j - i), ring[i..j]);
  }

  // ---- the links of several nodes at one moment ----

  datatype Web = Web(next: map<Node, Node>, previous: map<Node, Node>)

  ghost function WebOf(nodes: set<Node>): Web
    reads nodes
  {
    Web(map n | n in nodes :: n.next, map n | n in nodes :: n.previous)
  }

  ghost predicate Joined(w: Web, a: Node, b: Node) {
    a in w.next && w.next[a] == b && b in w.previous && w.previous[b] == a
  }

  ghost predicate Chain(w: Web, s: seq<Node>) {
    forall t | 0 < t < |s| :: Joined(w, s[t - 1], s[t])
  }

  function Closed(ring: seq<Node>): seq<Node>
    requires ring != []
  {
    ring + [ring[0]]
  }

  lemma RingIsChain(ring: seq<Node>, nodes: set<Node>)
    requires ring != [] && forall n | n in ring :: n in nodes
    ensures Ring(ring) <==> Distinct(ring) && Chain(WebOf(nodes), Closed(ring))
  {
    var c, w := Closed(ring), WebOf(nodes);
    assert forall t | 0 <= t < |ring| :: c[t] == ring[t] && ring[t] in ring;
    if Ring(ring) {
      forall t | 0 < t < |c| ensures Joined(w, c[t - 1], c[t]) {
        assert Linked(ring[t - 1], At(ring, t));
      }
    }
    if Distinct(ring) && Chain(w, c) {
      forall t | 0 < t <= |ring| ensures Linked(ring[t - 1], At(ring, t)) {
        assert Joined(w, c[t - 1], c[t]);
      }
    }
  }

  lemma ChainJoin(w: Web, x: seq<Node>, y: seq<Node>)
    requires Chain(w, x) && Chain(w, y) && x != [] && y != [] && Joined(w, x[|x| - 1], y[0])
    ensures Chain(w, x + y)
  {
    var z := x + y;
    forall t | 0 < t < |z| ensures Joined(w, z[t - 1], z[t]) {
      if t > |x| {
        assert Joined(w, y[t - |x| - 1], y[t - |x|]);
      }
    }
  }

  /** The links after a range was moved: the gap is closed, and the range hung in
      behind the node that was in front of the position. */
  function Rewired(w: Web, position: Node, first: Node, last: Node): Web
    requires first in w.previous && last in w.next && position in w.previous
  {
    var left, right := w.previous[first], w.next[last];
    var before := if position == right then left else w.previous[position];
    Web(w.next[left := right][last := position][before := first],
        w.previous[right := left][first := before][position := last])
  }

  /** Moving changes only the links out of three nodes and into three others, so
      a stretch with those at its ends at most stays as it was. */
  lemma StretchKept(w: Web, position: Node, first: Node, last: Node, s: seq<Node>, a: nat, b: nat)
    requires first in w.previous && last in w.next && position in w.previous
    requires Chain(w, s) && a <= b <= |s|
    requires var left, right := w.previous[first], w.next[last];
             var before := if position == right then left else w.previous[position];
             && (forall t | a <= t < b - 1 :: s[t] != left && s[t] != last && s[t] != before)
             && (forall t | a < t < b :: s[t] != right && s[t] != first && s[t] != position)
    ensures Chain(Rewired(w, position, first, last), s[a..b])
  {
    forall t | 0 < t < b - a ensures Joined(Rewired(w, position, first, last), s[a..b][t - 1], s[a..b][t]) {
      assert Joined(w, s[a + t - 1], s[a + t]);
    }
  }

  lemma EndsJoined(w: Web, position: Node, first: Node, last: Node)
    requires first in w.previous && last in w.next && position in w.previous
    requires position != first
    ensures var after, left, right := Rewired(w, position, first, last), w.previous[first], w.next[last];
            var before := if position == right then left else w.previous[position];
            && (before != last ==> Joined(after, before, first))
            && (before != last ==> Joined(after, last, position))
            && (position != right && left != before && left != last && right != first
                ==> Joined(after, left, right))
  {
  }

  /** Closing brings back the sentinel and no other node. */
  lemma ClosedDistinct(ring: seq<Node>)
    requires ring != [] && Distinct(ring)
    ensures |Closed(ring)| == |ring| + 1
    ensures forall a, b | 0 <= a < b <= |ring| && (a > 0 || b < |ring|) :: Closed(ring)[a] != Closed(ring)[b]
  {
  }

  lemma ClosedParts(ring: seq<Node>, i: nat, j: nat, k: nat, range: seq<Node>)
    requires 0 < i <= j <= |ring| && 0 < k <= |ring|
    ensures var c := Closed(ring);
            && c[i..j] == ring[i..j]
            && Closed(Cut(ring, i, j)) == c[0..i] + c[j..|c|]
            && Closed(Spliced(ring, k, range)) == c[0..k] + range + c[k..|c|]
  {
  }

  lemma RingAt(w: Web, ring: seq<Node>, i: nat)
    requires ring != [] && Chain(w, Closed(ring)) && 0 < i <= |ring|
    ensures Joined(w, Closed(ring)[i - 1], Closed(ring)[i]) && Closed(ring)[i] == At(ring, i)
    ensures Closed(ring)[i - 1] == ring[i - 1]
  {
  }

  /** Closing the gap leaves a ring, wherever outside it the range goes. */
  lemma CutChain(w: Web, position: Node, first: Node, last: Node, from: seq<Node>, i: nat, j: nat,
                 into: seq<Node>, k: nat)
    requires first in w.previous && last in w.next && position in w.previous
    requires from != [] && into != [] && Distinct(from)
    requires Chain(w, Closed(from)) && Chain(w, Closed(into))
    requires 0 < i < j <= |from| && first == from[i] && last == from[j - 1]
    requires 0 < k <= |into| && position == At(into, k)
    requires forall n | n in from :: n !in into
    ensures Chain(Rewired(w, position, first, last), Closed(Cut(from, i, j)))
  {
    var c := Closed(from);
    RingAt(w, from, i);
    RingAt(w, from, j);
    RingAt(w, into, k);
    assert forall t | 0 <= t < |c| :: c[t] in from;
    StretchKept(w, position, first, last, c, 0, i);
    StretchKept(w, position, first, last, c, j, |c|);
    ClosedParts(from, i, j, i, []);
    EndsJoined(w, position, first, last);
    ChainJoin(Rewired(w, position, first, last), c[0..i], c[j..|c|]);
  }

  lemma SplicedChain(w: Web, position: Node, first: Node, last: Node, from: seq<Node>, i: nat, j: nat,
                     into: seq<Node>, k: nat)
    requires first in w.previous && last in w.next && position in w.previous
    requires from != [] && into != [] && Distinct(from) && Distinct(into)
    requires Chain(w, Closed(from)) && Chain(w, Closed(into))
    requires 0 < i < j <= |from| && first == from[i] && last == from[j - 1]
    requires 0 < k <= |into| && position == At(into, k)
    requires forall n | n in from :: n !in into
    ensures Chain(Rewired(w, position, first, last), Closed(Spliced(into, k, from[i..j])))
  {
    var cf, ci, after := Closed(from), Closed(into), Rewired(w, position, first, last);
    RingAt(w, from, i);
    RingAt(w, from, j);
    RingAt(w, into, k);
    assert forall t | 0 <= t < |cf| :: cf[t] in from;
    assert forall t | 0 <= t < |ci| :: ci[t] in into;
    StretchKept(w, position, first, last, cf, i, j);
    StretchKept(w, position, first, last, ci, 0, k);
    StretchKept(w, position, first, last, ci, k, |ci|);
    EndsJoined(w, position, first, last);
    ClosedParts(from, i, j, i, []);
    ClosedParts(into, k, k, k, from[i..j]);
    hide Rewired, Closed, Spliced, Distinct;
    ChainJoin(after, ci[0..k], cf[i..j]);
    ChainJoin(after, ci[0..k] + cf[i..j], ci[k..|ci|]);
  }

  lemma ClosedBack(ring: seq<Node>, i: nat, j: nat, k: nat)
    requires 0 < k < i <= j <= |ring|
    ensures var c := Closed(ring);
            Closed(Shifted(ring, i, j, k)) == c[0..k] + c[i..j] + c[k..i] + c[j..|c|]
  {
    var c := Closed(ring);
    assert c[0..k] == ring[..k] && c[i..j] == ring[i..j] && c[k..i] == ring[k..i];
    assert c[j..|c|] == ring[j..] + [ring[0]];
  }

  lemma ClosedOn(ring: seq<Node>, i: nat, j: nat, k: nat)
    requires 0 < i <= j <= k <= |ring|
    ensures var c := Closed(ring);
            Closed(Shifted(ring, i, j, k)) == c[0..i] + c[j..k] + c[i..j] + c[k..|c|]
  {
    var c := Closed(ring);
    assert c[0..i] == ring[..i] && c[i..j] == ring[i..j] && c[j..k] == ring[j..k];
    assert c[k..|c|] == ring[k..] + [ring[0]];
  }

  /** Three or four stretches in a row, where each joins on to the next. */
  lemma ChainJoinAll(w: Web, a: seq<Node>, b: seq<Node>, c: seq<Node>, d: seq<Node>)
    requires Chain(w, a) && Chain(w, b) && Chain(w, c) && Chain(w, d)
    requires a != [] && c != [] && d != []
    requires if b == [] then Joined(w, a[|a| - 1], c[0])
             else Joined(w, a[|a| - 1], b[0]) && Joined(w, b[|b| - 1], c[0])
    requires Joined(w, c[|c| - 1], d[0])
    ensures Chain(w, a + b + c + d)
  {
    if b == [] {
      assert a + b == a;
    } else {
      ChainJoin(w, a, b);
    }
    ChainJoin(w, a + b, c);
    ChainJoin(w, a + b + c, d);
  }

  /** A range moved back within its own list. */
  lemma ShiftedBack(w: Web, position: Node, first: Node, last: Node, ring: seq<Node>, i: nat, j: nat, k: nat)
    requires first in w.previous && last in w.next && position in w.previous
    requires ring != [] && Distinct(ring) && Chain(w, Closed(ring))
    requires 0 < k < i < j <= |ring| && first == ring[i] && last == ring[j - 1] && position == ring[k]
    ensures Chain(Rewired(w, position, first, last), Closed(Shifted(ring, i, j, k)))
  {
    hide Shifted, Chain;
    var c, after := Closed(ring), Rewired(w, position, first, last);
    RingAt(w, ring, i);
    RingAt(w, ring, j);
    RingAt(w, ring, k);
    ClosedDistinct(ring);
    assert c[j - 1] == ring[j - 1] && c[i] == ring[i] && c[k] == ring[k];
    hide Closed, Distinct, Rewired;
    StretchKept(w, position, first, last, c, 0, k);
    StretchKept(w, position, first, last, c, k, i);
    StretchKept(w, position, first, last, c, i, j);
    StretchKept(w, position, first, last, c, j, |c|);
    EndsJoined(w, position, first, last);
    ClosedBack(ring, i, j, k);
    ChainJoinAll(after, c[0..k], c[i..j], c[k..i], c[j..|c|]);
  }

  /** A range moved on within its own list, or to where it is already. */
  lemma ShiftedOn(w: Web, position: Node, first: Node, last: Node, ring: seq<Node>, i: nat, j: nat, k: nat)
    requires first in w.previous && last in w.next && position in w.previous
    requires ring != [] && Distinct(ring) && Chain(w, Closed(ring))
    requires 0 < i < j <= k <= |ring| && first == ring[i] && last == ring[j - 1] && position == At(ring, k)
    ensures Chain(Rewired(w, position, first, last), Closed(Shifted(ring, i, j, k)))
  {
    hide Shifted, Chain;
    var c, after := Closed(ring), Rewired(w, position, first, last);
    RingAt(w, ring, i);
    RingAt(w, ring, j);
    RingAt(w, ring, k);
    ClosedDistinct(ring);
    assert c[j - 1] == ring[j - 1] && c[i] == ring[i];
    hide Closed, Distinct, Rewired;
    StretchKept(w, position, first, last, c, 0, i);
    StretchKept(w, position, first, last, c, i, j);
    StretchKept(w, position, first, last, c, j, k);
    StretchKept(w, position, first, last, c, k, |c|);
    EndsJoined(w, position, first, last);
    ClosedOn(ring, i, j, k);
    ChainJoinAll(after, c[0..i], c[j..k], c[i..j], c[k..|c|]);
  }

  /** The six writes of a move, whatever their nodes may share. */
  method Relink(position: Node, first: Node, last: Node, ghost nodes: set<Node>)
    requires first in nodes && last in nodes && position in nodes
    requires first.previous in nodes && last.next in nodes && position.previous in nodes
    modifies nodes
    ensures WebOf(nodes) == Rewired(old(WebOf(nodes)), position, first, last)
  {
    ghost var w := WebOf(nodes);
    SetNext(first.previous, last.next, nodes);
    SetPrevious(last.next, first.previous, nodes);
    SetPrevious(first, position.previous, nodes);
    SetNext(last, position, nodes);
    SetNext(first.previous, first, nodes);
    SetPrevious(position, last, nodes);
  }

  method SetNext(n: Node, m: Node, ghost nodes: set<Node>)
    requires n in nodes
    modifies n`next
    ensures WebOf(nodes) == Web(old(WebOf(nodes)).next[n := m], old(WebOf(nodes)).previous)
    ensures n.next == m
  {
    n.next := m;
  }

  method SetPrevious(n: Node, m: Node, ghost nodes: set<Node>)
    requires n in nodes
    modifies n`previous
    ensures WebOf(nodes) == Web(old(WebOf(nodes)).next, old(WebOf(nodes)).previous[n := m])
    ensures n.previous == m
  {
    n.previous := m;
  }

  /** Moves the nodes from `first` to `last` in front of a position. */
  method Move(position: Node, first: Node, last: Node,
              ghost from: seq<Node>, ghost i: nat, ghost j: nat, ghost into: seq<Node>, ghost k: nat)
    requires Ring(from) && 0 < i < j <= |from| && first == from[i] && last == from[j - 1]
    requires Ring(into) && 0 < k <= |into| && position == At(into, k)
    requires Apart(from, i, j, into, k)
    modifies from, into
    ensures if from == into then Ring(Shifted(from, i, j, k))
            else Ring(Cut(from, i, j)) && Ring(Spliced(into, k, from[i..j]))
  {
    ghost var nodes := (set n | n in from) + (set n | n in into);
    ghost var w := WebOf(nodes);
    RingIsChain(from, nodes);
    RingIsChain(into, nodes);
    RangeEnds(from, i, j, into, k);
    Relink(position, first, last, nodes);
    hide Ring, Rewired, WebOf, Chain, Closed, Distinct;
    MovedRings(w, WebOf(nodes), position, first, last, from, i, j, into, k);
    if from == into {
      RingIsChain(Shifted(from, i, j, k), nodes);
    } else {
      RingIsChain(Cut(from, i, j), nodes);
      RingIsChain(Spliced(into, k, from[i..j]), nodes);
    }
  }

  /** Both neighbours of a range, and the node in front of a position, are in
      their lists. */
  lemma RangeEnds(from: seq<Node>, i: nat, j: nat, into: seq<Node>, k: nat)
    requires Ring(from) && 0 < i < j <= |from| && Ring(into) && 0 < k <= |into|
    ensures from[i].previous == from[i - 1] && from[j - 1].next == At(from, j)
    ensures At(into, k).previous == into[k - 1] && into[k - 1].next == At(into, k)
  {
    assert Linked(from[i - 1], At(from, i)) && Linked(from[j - 1], At(from, j));
    assert Linked(into[k - 1], At(into, k));
  }

  lemma MovedRings(w: Web, after: Web, position: Node, first: Node, last: Node,
                   from: seq<Node>, i: nat, j: nat, into: seq<Node>, k: nat)
    requires first in w.previous && last in w.next && position in w.previous
    requires after == Rewired(w, position, first, last)
    requires from != [] && into != [] && Distinct(from) && Distinct(into)
    requires Chain(w, Closed(from)) && Chain(w, Closed(into))
    requires 0 < i < j <= |from| && first == from[i] && last == from[j - 1]
    requires 0 < k <= |into| && position == At(into, k)
    requires Apart(from, i, j, into, k)
    ensures if from == into
            then Distinct(Shifted(from, i, j, k)) && Chain(after, Closed(Shifted(from, i, j, k)))
                 && forall n | n in Shifted(from, i, j, k) :: n in from
            else && Distinct(Cut(from, i, j)) && Chain(after, Closed(Cut(from, i, j)))
                 && Distinct(Spliced(into, k, from[i..j]))
                 && Chain(after, Closed(Spliced(into, k, from[i..j])))
                 && (forall n | n in Cut(from, i, j) :: n in from)
                 && forall n | n in Spliced(into, k, from[i..j]) :: n in from || n in into
  {
    hide Chain, Rewired, Closed;
    if from == into {
      DistinctShifted(from, i, j, k);
      if k < i {
        ShiftedBack(w, position, first, last, from, i, j, k);
      } else {
        ShiftedOn(w, position, first, last, from, i, j, k);
      }
    } else {
      DistinctCut(from, i, j);
      DistinctSpliced(into, k, from[i..j]);
      CutChain(w, position, first, last, from, i, j, into, k);
      SplicedChain(w, position, first, last, from, i, j, into, k);
    }
  }

  function Bytes(nodes: seq<Node>): nat {
    if nodes == [] then 0 else Bytes(nodes[..|nodes| - 1]) + nodes[|nodes| - 1].fragmentLength
  }

  /** The walk over a queue ends, with the bytes of every node in it. */
  method QueueBytes(sentinel: Node, ghost ring: seq<Node>) returns (total: nat)
    requires Ring(ring) && ring[0] == sentinel
    ensures total == Bytes(ring[1..])
  {
    total := 0;
    var node := sentinel.next;
    assert Linked(ring[0], At(ring, 1));
    ghost var i := 1;
    while node != sentinel
      invariant 1 <= i <= |ring| && node == At(ring, i)
      invariant total == Bytes(ring[1..i])
      decreases |ring| - i
    {
      assert i < |ring| && Linked(ring[i], At(ring, i + 1));
      assert ring[1..i + 1][..i - 1] == ring[1..i];
      total := total + node.fragmentLength;
      node := node.next;
      i := i + 1;
    }
    assert ring[1..i] == ring[1..];
  }

  lemma {:induction false} BytesAppend(a: seq<Node>, b: seq<Node>)
    ensures Bytes(a + b) == Bytes(a) + Bytes(b)
    decreases |b|
  {
    if b == [] {
      assert a + b == a;
    } else {
      assert (a + b)[..|a + b| - 1] == a + b[..|b| - 1];
      BytesAppend(a, b[..|b| - 1]);
    }
  }

  /** Moving a range takes its bytes from one queue to the other. */
  lemma MoveKeepsBytes(from: seq<Node>, i: nat, j: nat, into: seq<Node>, k: nat)
    requires i <= j <= |from| && k <= |into|
    ensures Bytes(Cut(from, i, j)) + Bytes(from[i..j]) == Bytes(from)
    ensures Bytes(Spliced(into, k, from[i..j])) == Bytes(into) + Bytes(from[i..j])
  {
    hide Bytes;
    assert from[..i] + from[i..j] == from[..j];
    assert from == from[..j] + from[j..];
    assert into == into[..k] + into[k..];
    BytesAppend(from[..i], from[i..j]);
    BytesAppend(from[..i] + from[i..j], from[j..]);
    BytesAppend(from[..i], from[j..]);
    BytesAppend(into[..k], into[k..]);
    BytesAppend(into[..k], from[i..j]);
    BytesAppend(into[..k] + from[i..j], into[k..]);
  }
}
