/** The chain of checkpoints a replay can start from: pruned as the delayed feed
    moves on, and asked for the newest one that is not past a turn. */
module Checkpoints {
  import opened Prelude

  datatype BaseState = BaseState(turn: nat, state: Bytes)

  /** The newest that is not past `turn`, looking from the newest back. */
  function AtOrBefore(states: seq<BaseState>, turn: nat): Option<BaseState> {
    if states == [] then None
    else if states[|states| - 1].turn <= turn then Some(states[|states| - 1])
    else AtOrBefore(states[..|states| - 1], turn)
  }

  /** The chain with nothing ever dropped for being old. A state no newer than
      the last is refused. */
  function Kept(states: seq<BaseState>, base: BaseState): seq<BaseState> {
    if states != [] && states[|states| - 1].turn >= base.turn then states else states + [base]
  }

  /** From the newest state the feed has reached onward. */
  function Pruned(states: seq<BaseState>, head: nat): seq<BaseState> {
    if states == [] then []
    else if states[|states| - 1].turn <= head then [states[|states| - 1]]
    else
      var front := Pruned(states[..|states| - 1], head);
      front + [states[|states| - 1]]
  }

  function Stored(states: seq<BaseState>, base: BaseState, head: nat): seq<BaseState> {
    if states != [] && states[|states| - 1].turn >= base.turn then states
    else Pruned(states + [base], head)
  }

  class CheckpointChain {
    var states: seq<BaseState>

    constructor ()
      ensures states == []
    {
      states := [];
    }

    method Store(base: BaseState, head: nat)
      modifies this
      ensures states == Stored(old(states), base, head)
    {
      hide Pruned;
      if states != [] && states[|states| - 1].turn >= base.turn {
        return;
      }
      states := states + [base];
      ghost var all := states;
      // The newest the feed has reached, from the back.
      var i := |states|;
      PruneWhole(all, head);
      while i > 0 && states[i - 1].turn > head
        invariant 0 <= i <= |states| && states == all
        invariant Pruned(all, head) == Pruned(all[..i], head) + all[i..]
      {
        i := i - 1;
        PruneOne(all, i, head);
      }
      PruneStop(all, i, head);
      if i > 0 {
        states := states[i - 1..];
      }
      assert states == Pruned(all, head);
    }
  }

  lemma PruneOne(states: seq<BaseState>, i: nat, head: nat)
    requires i < |states| && states[i].turn > head
    ensures Pruned(states[..i + 1], head) + states[i + 1..] == Pruned(states[..i], head) + states[i..]
  {
    assert states[..i + 1][..i] == states[..i];
    assert [states[i]] + states[i + 1..] == states[i..];
  }

  lemma PruneStop(states: seq<BaseState>, i: nat, head: nat)
    requires i <= |states| && (i > 0 ==> states[i - 1].turn <= head)
    ensures Pruned(states[..i], head) + states[i..] == if i > 0 then states[i - 1..] else states
  {
    if i > 0 {
      assert [states[i - 1]] + states[i..] == states[i - 1..];
    }
  }

  lemma PruneWhole(states: seq<BaseState>, head: nat)
    ensures Pruned(states, head) == Pruned(states[..|states|], head) + states[|states|..]
  {
    assert states[..|states|] == states;
  }

  // ---- pruning is not observed ----

  predicate Rising(states: seq<BaseState>) {
    forall i, j | 0 <= i < j < |states| :: states[i].turn < states[j].turn
  }

  lemma {:induction false} AtOrBeforeIs(states: seq<BaseState>, turn: nat)
    requires Rising(states)
    ensures match AtOrBefore(states, turn)
            case Some(b) => b in states && b.turn <= turn
                            && forall c | c in states && c.turn <= turn :: c.turn <= b.turn
            case None => forall c | c in states :: c.turn > turn
    decreases |states|
  {
    if states != [] && states[|states| - 1].turn > turn {
      AtOrBeforeIs(states[..|states| - 1], turn);
    }
  }

  /** What is left is a suffix that starts no later than the feed has reached,
      unless nothing was dropped. */
  ghost predicate Suffix(pruned: seq<BaseState>, full: seq<BaseState>, head: nat) {
    && Rising(full) && |pruned| <= |full|
    && pruned == full[|full| - |pruned|..]
    && (full != [] ==> pruned != [])
    && (|pruned| < |full| ==> pruned[0].turn <= head)
  }

  lemma {:induction false} PrunedIs(states: seq<BaseState>, head: nat)
    requires Rising(states)
    ensures Suffix(Pruned(states, head), states, head)
    decreases |states|
  {
    if states != [] && states[|states| - 1].turn > head {
      var front := states[..|states| - 1];
      PrunedIs(front, head);
      assert Pruned(states, head) == states[|states| - |Pruned(states, head)|..];
    }
  }

  datatype Store = Store(base: BaseState, head: nat)

  /** The feed never moves back. */
  predicate HeadsRise(stores: seq<Store>) {
    forall i, j | 0 <= i < j < |stores| :: stores[i].head <= stores[j].head
  }

  function After(stores: seq<Store>): seq<BaseState> {
    if stores == [] then []
    else Stored(After(stores[..|stores| - 1]), stores[|stores| - 1].base, stores[|stores| - 1].head)
  }

  function AllKept(stores: seq<Store>): seq<BaseState> {
    if stores == [] then [] else Kept(AllKept(stores[..|stores| - 1]), stores[|stores| - 1].base)
  }

  lemma StoreKeeps(pruned: seq<BaseState>, full: seq<BaseState>, before: nat, base: BaseState, head: nat)
    requires Suffix(pruned, full, before) && before <= head
    ensures Suffix(Stored(pruned, base, head), Kept(full, base), head)
  {
    hide Pruned;
    if full != [] {
      assert pruned[|pruned| - 1] == full[|full| - 1];
    }
    if Kept(full, base) != full {
      var more, all := pruned + [base], full + [base];
      AddedIs(pruned, full, base);
      PrunedIs(more, head);
      SuffixThen(Pruned(more, head), more, all);
    }
  }

  lemma AddedIs(pruned: seq<BaseState>, full: seq<BaseState>, base: BaseState)
    requires Rising(full) && |pruned| <= |full| && pruned == full[|full| - |pruned|..]
    requires full != [] ==> full[|full| - 1].turn < base.turn
    ensures Rising(full + [base]) && Rising(pruned + [base])
    ensures pruned + [base] == (full + [base])[|full| - |pruned|..]
  {
  }

  lemma SuffixThen(a: seq<BaseState>, b: seq<BaseState>, c: seq<BaseState>)
    requires |a| <= |b| <= |c| && a == b[|b| - |a|..] && b == c[|c| - |b|..]
    ensures a == c[|c| - |a|..]
  {
  }

  lemma {:induction false} AfterIsSuffix(stores: seq<Store>, head: nat)
    requires HeadsRise(stores) && (stores != [] ==> stores[|stores| - 1].head <= head)
    ensures Suffix(After(stores), AllKept(stores), head)
    decreases |stores|
  {
    if stores != [] {
      var front, last := stores[..|stores| - 1], stores[|stores| - 1];
      AfterIsSuffix(front, last.head);
      StoreKeeps(After(front), AllKept(front), last.head, last.base, last.head);
    }
  }

  lemma {:induction false} SuffixAnswers(pruned: seq<BaseState>, full: seq<BaseState>, turn: nat)
    requires |pruned| <= |full| && pruned == full[|full| - |pruned|..]
    requires |pruned| < |full| ==> pruned != [] && pruned[0].turn <= turn
    ensures AtOrBefore(pruned, turn) == AtOrBefore(full, turn)
    decreases |pruned|
  {
    if |pruned| == |full| {
      assert pruned == full;
    } else if pruned[|pruned| - 1].turn > turn {
      SuffixAnswers(pruned[..|pruned| - 1], full[..|full| - 1], turn);
    }
  }

  /** Taking a state in leaves at most one the feed has reached, the newest of
      them, and every one it has not. */
  lemma StoreDropsTheOld(states: seq<BaseState>, base: BaseState, head: nat)
    requires Rising(states) && (states != [] ==> states[|states| - 1].turn < base.turn)
    ensures var after := Stored(states, base, head);
            && after != [] && after[|after| - 1] == base
            && (forall i | 0 < i < |after| :: after[i].turn > head)
            && (forall b | b in states && b.turn > head :: b in after)
            && (|after| <= |states| ==> after[0].turn <= head)
  {
    hide Pruned;
    var more := states + [base];
    PrunedLater(more, head);
    forall b | b in states && b.turn > head ensures b in Stored(states, base, head) {
      assert b in more;
    }
  }

  lemma {:induction false} PrunedLater(states: seq<BaseState>, head: nat)
    requires Rising(states)
    ensures var after := Pruned(states, head);
            && (forall i | 0 < i < |after| :: after[i].turn > head)
            && (forall b | b in states && b.turn > head :: b in after)
            && (states != [] ==> after != [] && after[|after| - 1] == states[|states| - 1])
            && (|after| < |states| ==> after[0].turn <= head)
    decreases |states|
  {
    if states != [] && states[|states| - 1].turn > head {
      PrunedLater(states[..|states| - 1], head);
      assert states == states[..|states| - 1] + [states[|states| - 1]];
    }
  }

  /** However many states were stored, asking for a turn the feed has reached
      gives what a chain that never dropped one would give. */
  lemma PruningUnobserved(stores: seq<Store>, turn: nat)
    requires HeadsRise(stores) && (stores != [] ==> stores[|stores| - 1].head <= turn)
    ensures AtOrBefore(After(stores), turn) == AtOrBefore(AllKept(stores), turn)
    ensures match AtOrBefore(After(stores), turn)
            case Some(b) => b in AllKept(stores) && b.turn <= turn
                            && forall c | c in AllKept(stores) && c.turn <= turn :: c.turn <= b.turn
            case None => forall c | c in AllKept(stores) :: c.turn > turn
  {
    AfterIsSuffix(stores, turn);
    SuffixAnswers(After(stores), AllKept(stores), turn);
    AtOrBeforeIs(AllKept(stores), turn);
  }

  /** Exactly when the answers agree, for any turn: nothing was dropped, or the
      turn is not before what is left, or it is before everything. */
  lemma PruningObservedIff(stores: seq<Store>, turn: nat)
    requires HeadsRise(stores)
    ensures AtOrBefore(After(stores), turn) == AtOrBefore(AllKept(stores), turn)
       <==> var pruned, full := After(stores), AllKept(stores);
            |pruned| == |full| || pruned[0].turn <= turn || full[0].turn > turn
  {
    var pruned, full := After(stores), AllKept(stores);
    AfterIsSuffix(stores, if stores == [] then 0 else stores[|stores| - 1].head);
    hide After, AllKept;
    if |pruned| == |full| || pruned[0].turn <= turn {
      SuffixAnswers(pruned, full, turn);
    } else {
      BeforeSuffix(pruned, full, turn);
    }
  }

  /** A turn before what is left has no answer there, and one in the full chain
      exactly when that chain starts no later. */
  lemma BeforeSuffix(pruned: seq<BaseState>, full: seq<BaseState>, turn: nat)
    requires Rising(full) && 0 < |pruned| < |full| && pruned == full[|full| - |pruned|..]
    requires pruned[0].turn > turn
    ensures AtOrBefore(pruned, turn) == None
    ensures AtOrBefore(full, turn) == None <==> full[0].turn > turn
  {
    hide AtOrBefore;
    assert forall i | 0 <= i < |pruned| :: pruned[i] == full[|full| - |pruned| + i];
    AtOrBeforeIs(pruned, turn);
    AtOrBeforeIs(full, turn);
    assert full[0] in full;
  }
}
