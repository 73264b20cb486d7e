/** Whole runs of the delayed feed: where its head can be, and what becomes of
    the flares. */
module FeedRuns {
  import opened Prelude
  import opened Turns
  import opened MatchLogs
  import opened ObserverFeeds

  /** The feed, with what was raised for each turn and everything shown so far,
      in the order it was shown, under the turn it was raised for. */
  datatype History = History(
    feed: Feed, live: nat, everDrained: bool,
    raised: map<nat, seq<Flare>>, shown: seq<(nat, Flare)>)

  datatype Event =
    | Advance(live: nat, draining: bool)
    | Raise(byDelayed: bool, flare: Flare)

  function At(m: map<nat, seq<Flare>>, turn: nat): seq<Flare> { if turn in m then m[turn] else [] }

  function Added(m: map<nat, seq<Flare>>, turn: nat, flare: Flare): map<nat, seq<Flare>> {
    m[turn := At(m, turn) + [flare]]
  }

  function Tagged(turn: nat, flares: seq<Flare>): seq<(nat, Flare)> {
    if flares == [] then [] else [(turn, flares[0])] + Tagged(turn, flares[1..])
  }

  /** Those of several turns, turn by turn. */
  function TaggedAll(flares: map<nat, seq<Flare>>, turns: seq<nat>): seq<(nat, Flare)>
    requires forall t | t in turns :: t in flares
  {
    if turns == [] then [] else Tagged(turns[0], flares[turns[0]]) + TaggedAll(flares, turns[1..])
  }

  function Untagged(shown: seq<(nat, Flare)>): seq<Flare> {
    if shown == [] then [] else [shown[0].1] + Untagged(shown[1..])
  }

  function OfTurn(shown: seq<(nat, Flare)>, turn: nat): seq<Flare> {
    if shown == [] then []
    else (if shown[0].0 == turn then [shown[0].1] else []) + OfTurn(shown[1..], turn)
  }

  /** What an advance to where the feed now is shows. */
  function DueTagged(f: Feed): seq<(nat, Flare)> { TaggedAll(f.flares, Sorted(DueTurns(f))) }

  /** The live turn only grows. A flare belongs to the turn its sender is
      watching, and goes out at once when the feed is already there. */
  function Step(h: History, e: Event): History {
    match e
    case Advance(live, draining) =>
      var live' := Max(h.live, live);
      var f := Advanced(h.feed, live', draining);
      h.(feed := Flushed(f), live := live', everDrained := h.everDrained || draining,
         shown := h.shown + DueTagged(f))
    case Raise(byDelayed, flare) =>
      var turn := if byDelayed then h.feed.head else h.live;
      if turn <= h.feed.head
      then h.(raised := Added(h.raised, turn, flare), shown := h.shown + [(turn, flare)])
      else h.(raised := Added(h.raised, turn, flare), feed := Queued(h.feed, turn, flare))
  }

  function Steps(h: History, es: seq<Event>): History
    decreases |es|
  {
    if es == [] then h else Steps(Step(h, es[0]), es[1..])
  }

  function Begin(delay: nat): History {
    History(NewFeed(delay), INITIAL_READY_TURN, false, map[], [])
  }

  ghost predicate FeedInv(h: History) {
    && INITIAL_READY_TURN <= h.feed.head <= h.live
    && (!h.everDrained ==>
          h.feed.head <= Max(INITIAL_READY_TURN, SaturatingSub(h.live, h.feed.delay)))
    && (forall t | t in h.feed.flares :: t > h.feed.head)
    && (forall x | x in h.shown :: x.0 <= h.feed.head)
    && (forall t: nat :: At(h.raised, t) == OfTurn(h.shown, t) + FlaresAt(h.feed, t))
  }

  function Own(x: (nat, Flare), turn: nat): seq<Flare> { if x.0 == turn then [x.1] else [] }

  lemma {:induction false} OfTurnAppend(a: seq<(nat, Flare)>, b: seq<(nat, Flare)>, turn: nat)
    ensures OfTurn(a + b, turn) == OfTurn(a, turn) + OfTurn(b, turn)
    decreases |a|
  {
    if a == [] {
      assert a + b == b;
    } else {
      OfTurnAppend(a[1..], b, turn);
      assert (a + b)[0] == a[0] && (a + b)[1..] == a[1..] + b;
      assert OfTurn(a + b, turn) == Own(a[0], turn) + OfTurn(a[1..] + b, turn);
      assert OfTurn(a, turn) == Own(a[0], turn) + OfTurn(a[1..], turn);
      hide OfTurn, Own;
      Assoc(Own(a[0], turn), OfTurn(a[1..], turn), OfTurn(b, turn));
    }
  }

  lemma {:induction false} UntaggedAppend(a: seq<(nat, Flare)>, b: seq<(nat, Flare)>)
    ensures Untagged(a + b) == Untagged(a) + Untagged(b)
    decreases |a|
  {
    if a == [] {
      assert a + b == b;
    } else {
      UntaggedAppend(a[1..], b);
      assert (a + b)[0] == a[0] && (a + b)[1..] == a[1..] + b;
      assert Untagged(a + b) == [a[0].1] + Untagged(a[1..] + b);
      assert Untagged(a) == [a[0].1] + Untagged(a[1..]);
      hide Untagged;
      Assoc([a[0].1], Untagged(a[1..]), Untagged(b));
    }
  }

  lemma {:induction false} TaggedIs(turn: nat, flares: seq<Flare>, t: nat)
    ensures OfTurn(Tagged(turn, flares), t) == if t == turn then flares else []
    ensures Untagged(Tagged(turn, flares)) == flares
    ensures forall x | x in Tagged(turn, flares) :: x.0 == turn
    decreases |flares|
  {
    if flares != [] {
      TaggedIs(turn, flares[1..], t);
      assert flares == [flares[0]] + flares[1..];
      assert Tagged(turn, flares)[1..] == Tagged(turn, flares[1..]);
    }
  }

  lemma {:induction false} TaggedAllIs(flares: map<nat, seq<Flare>>, turns: seq<nat>, t: nat)
    requires Ascending(turns) && forall u | u in turns :: u in flares
    ensures OfTurn(TaggedAll(flares, turns), t) == if t in turns then flares[t] else []
    ensures Untagged(TaggedAll(flares, turns)) == Collect(flares, turns)
    ensures forall x | x in TaggedAll(flares, turns) :: x.0 in turns
    decreases |turns|
  {
    if turns != [] {
      var first, rest := Tagged(turns[0], flares[turns[0]]), TaggedAll(flares, turns[1..]);
      assert forall i | 0 <= i < |turns| - 1 :: turns[1..][i] == turns[i + 1];
      TaggedAllIs(flares, turns[1..], t);
      TaggedIs(turns[0], flares[turns[0]], t);
      OfTurnAppend(first, rest, t);
      UntaggedAppend(first, rest);
      assert turns == [turns[0]] + turns[1..];
    }
  }

  /** What falls due is shown turn by turn, each turn's whole. */
  lemma DueTaggedIs(f: Feed, t: nat)
    ensures OfTurn(DueTagged(f), t) == if t in DueTurns(f) then FlaresAt(f, t) else []
    ensures Untagged(DueTagged(f)) == DueFlares(f)
    ensures forall x | x in DueTagged(f) :: x.0 <= f.head
  {
    TaggedAllIs(f.flares, Sorted(DueTurns(f)), t);
  }

  lemma AdvanceKeeps(h: History, live: nat, draining: bool)
    requires FeedInv(h)
    ensures FeedInv(Step(h, Advance(live, draining)))
  {
    var h' := Step(h, Advance(live, draining));
    var f := Advanced(h.feed, h'.live, draining);
    DueTaggedIs(f, 0);
    hide DueTagged;
    forall t: nat ensures At(h'.raised, t) == OfTurn(h'.shown, t) + FlaresAt(h'.feed, t) {
      assert At(h.raised, t) == OfTurn(h.shown, t) + FlaresAt(h.feed, t);
      OfTurnAppend(h.shown, DueTagged(f), t);
      DueTaggedIs(f, t);
      if t in DueTurns(f) {
        assert FlaresAt(h'.feed, t) == [];
      } else {
        assert FlaresAt(h'.feed, t) == FlaresAt(h.feed, t);
      }
    }
  }

  lemma RaiseKeeps(h: History, byDelayed: bool, flare: Flare)
    requires FeedInv(h)
    ensures FeedInv(Step(h, Raise(byDelayed, flare)))
  {
    hide Collect, Sorted;
    var h' := Step(h, Raise(byDelayed, flare));
    forall t: nat ensures At(h'.raised, t) == OfTurn(h'.shown, t) + FlaresAt(h'.feed, t) {
      RaisedAt(h, byDelayed, flare, t);
    }
  }

  lemma RaisedAt(h: History, byDelayed: bool, flare: Flare, t: nat)
    requires At(h.raised, t) == OfTurn(h.shown, t) + FlaresAt(h.feed, t)
    requires t <= h.feed.head ==> t !in h.feed.flares
    ensures var h' := Step(h, Raise(byDelayed, flare));
            At(h'.raised, t) == OfTurn(h'.shown, t) + FlaresAt(h'.feed, t)
  {
    var turn := if byDelayed then h.feed.head else h.live;
    var h' := Step(h, Raise(byDelayed, flare));
    var more: seq<Flare> := if t == turn then [flare] else [];
    assert At(h'.raised, t) == At(h.raised, t) + more;
    if turn <= h.feed.head {
      OfTurnAppend(h.shown, [(turn, flare)], t);
      assert [(turn, flare)][1..] == [];
      assert OfTurn([(turn, flare)], t) == more;
      assert FlaresAt(h'.feed, t) == FlaresAt(h.feed, t);
      hide OfTurn, At, Step, Added;
      if t == turn {
        assert FlaresAt(h.feed, t) == [];
      }
    } else {
      assert FlaresAt(h'.feed, t) == FlaresAt(h.feed, t) + more;
      hide OfTurn, At, Step, Added;
      Assoc(OfTurn(h.shown, t), FlaresAt(h.feed, t), more);
    }
  }

  lemma StepFeed(h: History, e: Event)
    requires FeedInv(h)
    ensures FeedInv(Step(h, e))
    ensures h.feed.head <= Step(h, e).feed.head && h.shown <= Step(h, e).shown
  {
    match e
    case Advance(live, draining) => AdvanceKeeps(h, live, draining);
    case Raise(byDelayed, flare) => RaiseKeeps(h, byDelayed, flare);
  }

  /** In every run the head only moves forward and never past the live turn,
      keeps its distance while a player remains, and every flare raised for a
      turn is shown exactly once, in order, and not before the feed is there. */
  lemma {:induction false} FeedRuns(h: History, es: seq<Event>)
    requires FeedInv(h)
    ensures FeedInv(Steps(h, es))
    ensures h.feed.head <= Steps(h, es).feed.head && h.shown <= Steps(h, es).shown
    decreases |es|
  {
    if es != [] {
      StepFeed(h, es[0]);
      FeedRuns(Step(h, es[0]), es[1..]);
    }
  }

  /** A feed that drained stays where it drained to, delay or no delay. */
  lemma DrainingReachesLive(h: History, live: nat)
    requires FeedInv(h) && live >= h.live
    ensures Step(h, Advance(live, true)).feed.head == live
    ensures forall t: nat :: OfTurn(Step(h, Advance(live, true)).shown, t) == if t <= live then At(h.raised, t) else []
  {
    var h' := Step(h, Advance(live, true));
    StepFeed(h, Advance(live, true));
    forall t: nat ensures OfTurn(h'.shown, t) == if t <= live then At(h.raised, t) else [] {
      assert At(h'.raised, t) == OfTurn(h'.shown, t) + FlaresAt(h'.feed, t);
      if t > live {
        NoneLater(h'.shown, live, t);
      }
    }
  }

  lemma {:induction false} NoneLater(shown: seq<(nat, Flare)>, head: nat, t: nat)
    requires t > head && forall x | x in shown :: x.0 <= head
    ensures OfTurn(shown, t) == []
    decreases |shown|
  {
    if shown != [] {
      NoneLater(shown[1..], head, t);
    }
  }
}
