/** The lockstep window: how far the released turn and the clients' seals can
    be apart. */
module Lockstep {
  import opened Prelude
  import opened Turns

  const COMMAND_DELAY: nat := 4

  /** No player is behind the released turn, no live observer is behind it by
      more than the lag limit, and nobody is ahead by more than the delay. */
  ghost predicate Window(s: TurnState, lag: Option<nat>) {
    forall p | p in s.clients ::
      && s.clients[p].sealed <= s.ready + COMMAND_DELAY
      && (s.clients[p].IsPlayer() ==> s.ready <= s.clients[p].sealed)
      && (!s.clients[p].delayed && s.clients[p].observer && lag.Some?
          ==> s.ready <= s.clients[p].sealed + lag.value)
  }

  lemma {:induction false} ReleaseBelowSeals(
      s: TurnState, lag: Option<nat>, pace: Option<nat>, clocked: bool)
    ensures ReleaseCount(s, lag, pace, clocked) > 0 ==>
      s.ready + ReleaseCount(s, lag, pace, clocked) <= HighestSeal(s)
    ensures pace.Some? ==> ReleaseCount(s, lag, pace, clocked) <= pace.value
    decreases SaturatingSub(HighestSeal(s), s.ready)
  {
    if pace != Some(0) && EveryoneAhead(s, lag, clocked) {
      ReleaseStep(s, lag, pace, clocked);
      ReleaseBelowSeals(s.(ready := s.ready + 1), lag, Less(pace, 1), clocked);
    }
  }

  predicate AheadAt(s: TurnState, lag: Option<nat>, clocked: bool, ready: nat) {
    EveryoneAhead(s.(ready := ready), lag, clocked)
  }

  lemma AheadIgnoresReady(s: TurnState, lag: Option<nat>, clocked: bool, ready: nat, t: nat)
    ensures AheadAt(s.(ready := ready), lag, clocked, t) == AheadAt(s, lag, clocked, t)
  {
    assert s.(ready := ready).(ready := t) == s.(ready := t);
  }

  /** Every turn a pass releases had everyone ahead of it. */
  lemma {:induction false} ReleaseIsAllowed(
      s: TurnState, lag: Option<nat>, pace: Option<nat>, clocked: bool, t: nat)
    requires s.ready <= t < s.ready + ReleaseCount(s, lag, pace, clocked)
    ensures AheadAt(s, lag, clocked, t)
    decreases SaturatingSub(HighestSeal(s), s.ready)
  {
    ReleaseStep(s, lag, pace, clocked);
    if t == s.ready {
      assert s.(ready := t) == s;
    } else {
      ReleaseIsAllowed(s.(ready := s.ready + 1), lag, Less(pace, 1), clocked, t);
      AheadIgnoresReady(s, lag, clocked, s.ready + 1, t);
    }
  }

  /** A pass stops only because the clock ran out or somebody is not ahead. */
  lemma {:induction false} ReleaseIsMaximal(
      s: TurnState, lag: Option<nat>, pace: Option<nat>, clocked: bool)
    ensures var n := ReleaseCount(s, lag, pace, clocked);
            pace == Some(n) || !AheadAt(s, lag, clocked, s.ready + n)
    decreases SaturatingSub(HighestSeal(s), s.ready)
  {
    if pace != Some(0) && EveryoneAhead(s, lag, clocked) {
      ReleaseStep(s, lag, pace, clocked);
      var s1 := s.(ready := s.ready + 1);
      ReleaseIsMaximal(s1, lag, Less(pace, 1), clocked);
      ReleaseBelowSeals(s1, lag, Less(pace, 1), clocked);
      AheadIgnoresReady(s, lag, clocked, s1.ready,
                        s1.ready + ReleaseCount(s1, lag, Less(pace, 1), clocked));
    } else {
      assert s.(ready := s.ready) == s;
    }
  }

  lemma AheadKeepsWindow(s: TurnState, lag: Option<nat>, clocked: bool)
    requires Window(s, lag) && EveryoneAhead(s, lag, clocked)
    ensures forall p | p in s.clients ::
      var c := s.clients[p];
      && (c.IsPlayer() ==> s.ready + 1 <= c.sealed)
      && (!c.delayed && c.observer && lag.Some? ==> s.ready + 1 <= c.sealed + lag.value)
  {
    forall p | p in s.clients
      ensures s.clients[p].IsPlayer() ==> s.ready + 1 <= s.clients[p].sealed
      ensures !s.clients[p].delayed && s.clients[p].observer && lag.Some?
        ==> s.ready + 1 <= s.clients[p].sealed + lag.value
    {
      var c := s.clients[p];
      if c.IsPlayer() {
        assert InWay(s, lag, clocked, p);
      } else if !c.delayed && lag.Some? && s.ready + 1 > c.sealed + lag.value {
        assert Blocks(s.ready, c, lag);
        assert InWay(s, lag, clocked, p);
      }
    }
  }

  /** However many turns one pass releases, it keeps the window, and it never
      releases more than the command delay at once. */
  lemma {:induction false} ReleaseKeepsWindow(
      s: TurnState, lag: Option<nat>, pace: Option<nat>, clocked: bool)
    requires Window(s, lag)
    ensures Window(s.(ready := s.ready + ReleaseCount(s, lag, pace, clocked)), lag)
    ensures ReleaseCount(s, lag, pace, clocked) <= COMMAND_DELAY
    decreases SaturatingSub(HighestSeal(s), s.ready)
  {
    if pace != Some(0) && EveryoneAhead(s, lag, clocked) {
      ReleaseStep(s, lag, pace, clocked);
      AheadKeepsWindow(s, lag, clocked);
      var s1 := s.(ready := s.ready + 1);
      assert Window(s1, lag);
      ReleaseKeepsWindow(s1, lag, Less(pace, 1), clocked);
      var n := ReleaseCount(s1, lag, Less(pace, 1), clocked);
      assert s1.(ready := s1.ready + n) == s.(ready := s.ready + (1 + n));
      ReleaseBelowSeals(s, lag, pace, clocked);
      var p :| p in s.clients && s.clients[p].sealed == HighestSeal(s);
    } else {
      assert s.(ready := s.ready + 0) == s;
    }
  }

  /** Without a clock, a match whose clients have all sealed ahead is held
      exactly if nobody is in the way, or nobody but AI hosts is there. */
  lemma HeldWithoutHumans(s: TurnState, lag: Option<nat>, pace: Option<nat>)
    requires pace != Some(0) && forall p | p in s.clients :: s.clients[p].sealed > s.ready
    ensures ReleaseCount(s, lag, pace, false) == 0
      <==> (forall p | p in s.clients :: s.clients[p].aiHost)
           || (forall p | p in s.clients :: !Blocks(s.ready, s.clients[p], lag))
  {
    if r :| r in s.clients && Blocks(s.ready, s.clients[r], lag) {
      assert InWay(s, lag, false, r);
      if forall p | p in s.clients :: s.clients[p].aiHost {
        assert AiAlone(s, lag, false);
      }
    }
  }

  // ---- what a pass releases, in the clients' own terms ----

  /** A player that has not sealed past the turn, or a live observer that has
      fallen behind it by the whole lag limit. */
  predicate Lags(c: Client, lag: Option<nat>, turn: nat) {
    !c.delayed && if c.observer then lag.Some? && c.sealed + lag.value <= turn else c.sealed <= turn
  }

  /** Somebody plays who is not left out for being the AI host. */
  predicate Paced(s: TurnState, clocked: bool) {
    exists p | p in s.clients :: !s.clients[p].observer && !s.clients[p].delayed && (clocked || !s.clients[p].aiHost)
  }

  lemma AheadIsNobodyLags(s: TurnState, lag: Option<nat>, clocked: bool)
    requires Paced(s, clocked)
    ensures EveryoneAhead(s, lag, clocked) <==> forall p | p in s.clients :: !Lags(s.clients[p], lag, s.ready)
  {
    var q :| q in s.clients && !s.clients[q].observer && !s.clients[q].delayed && (clocked || !s.clients[q].aiHost);
    assert Blocks(s.ready, s.clients[q], lag) && !AiAlone(s, lag, clocked);
    assert InWay(s, lag, clocked, q);
    forall p | p in s.clients
      ensures (InWay(s, lag, clocked, p) ==> s.clients[p].sealed > s.ready) <==> !Lags(s.clients[p], lag, s.ready)
    {
    }
  }

  /** While a player other than the AI host is there, or the clock paces the
      match, a pass releases every turn up to the first one somebody lags
      behind, or as many as its pace allows. */
  lemma {:induction false} ReleaseExactly(s: TurnState, lag: Option<nat>, pace: Option<nat>, clocked: bool)
    requires Paced(s, clocked)
    ensures var n := ReleaseCount(s, lag, pace, clocked);
            && (forall p, t: nat | p in s.clients && s.ready <= t < s.ready + n :: !Lags(s.clients[p], lag, t))
            && (pace.Some? ==> n <= pace.value)
            && (pace == Some(n) || exists p | p in s.clients :: Lags(s.clients[p], lag, s.ready + n))
    decreases SaturatingSub(HighestSeal(s), s.ready)
  {
    AheadIsNobodyLags(s, lag, clocked);
    if pace != Some(0) && EveryoneAhead(s, lag, clocked) {
      ReleaseStep(s, lag, pace, clocked);
      var s1 := s.(ready := s.ready + 1);
      assert Paced(s1, clocked);
      ReleaseExactly(s1, lag, Less(pace, 1), clocked);
    }
    hide EveryoneAhead, ReleaseCount, Paced;
  }

  /** With no clock and no player but the AI host, everyone there paces the
      match, watchers of the delayed feed too; and the AI host alone holds it. A
      lag limit of nothing makes every live observer a player. */
  lemma AheadWithAiHost(s: TurnState, lag: Option<nat>)
    requires !Paced(s, false) && Paced(s, true)
    ensures EveryoneAhead(s, lag, false) <==>
      (if lag == Some(0) && exists p | p in s.clients ::
            s.clients[p].observer && !s.clients[p].delayed && !s.clients[p].aiHost
       then forall p | p in s.clients && !s.clients[p].delayed :: s.clients[p].sealed > s.ready
       else && (exists p | p in s.clients :: !s.clients[p].aiHost)
            && forall p | p in s.clients :: s.clients[p].sealed > s.ready)
  {
    var q :| q in s.clients && !s.clients[q].observer && !s.clients[q].delayed;
    assert s.clients[q].aiHost && Blocks(s.ready, s.clients[q], lag) && InWay(s, lag, false, q);
    if lag == Some(0) && exists p | p in s.clients ::
         s.clients[p].observer && !s.clients[p].delayed && !s.clients[p].aiHost
    {
      var o :| o in s.clients && s.clients[o].observer && !s.clients[o].delayed && !s.clients[o].aiHost;
      assert Blocks(s.ready, s.clients[o], lag) && !AiAlone(s, lag, false);
      forall p | p in s.clients ensures InWay(s, lag, false, p) <==> !s.clients[p].delayed {
      }
    } else if o :| o in s.clients && !s.clients[o].aiHost && Blocks(s.ready, s.clients[o], lag) {
      assert InWay(s, lag, false, o) && s.clients[o].sealed <= s.ready;
    } else {
      assert AiAlone(s, lag, false);
    }
  }

  /** With no player at all nothing is released, but for a lag limit of nothing. */
  lemma NoPlayersNoRelease(s: TurnState, lag: Option<nat>, pace: Option<nat>, clocked: bool)
    requires !Paced(s, true) && lag != Some(0)
    ensures ReleaseCount(s, lag, pace, clocked) == 0
  {
    if AiAlone(s, lag, clocked) {
      var q :| q in s.clients && s.clients[q].aiHost && Blocks(s.ready, s.clients[q], lag);
      assert InWay(s, lag, clocked, q) && s.clients[q].sealed <= s.ready;
    }
    assert !EveryoneAhead(s, lag, clocked);
  }

  // ---- delayed observers ----

  function WithSeal(s: TurnState, p: Peer, sealed: nat): TurnState
    requires p in s.clients
  {
    s.(clients := s.clients[p := s.clients[p].(sealed := sealed)])
  }

  lemma DelayedBlocksNobody(s: TurnState, lag: Option<nat>, clocked: bool, p: Peer, sealed: nat)
    requires p in s.clients && s.clients[p].delayed
    ensures HumansBlock(WithSeal(s, p, sealed), lag) == HumansBlock(s, lag)
    ensures AiAlone(WithSeal(s, p, sealed), lag, clocked) == AiAlone(s, lag, clocked)
  {
    var s' := WithSeal(s, p, sealed);
    assert forall q | q in s.clients ::
      Blocks(s.ready, s'.clients[q], lag) == Blocks(s.ready, s.clients[q], lag)
      && s'.clients[q].aiHost == s.clients[q].aiHost && (q != p ==> s'.clients[q] == s.clients[q]);
    if r :| r in s.clients && !s.clients[r].aiHost && Blocks(s.ready, s.clients[r], lag) {
      assert Blocks(s.ready, s'.clients[r], lag);
    }
    if r :| r in s.clients && s.clients[r].aiHost && Blocks(s.ready, s.clients[r], lag) {
      assert Blocks(s.ready, s'.clients[r], lag);
    }
  }

  /** Its seal is not looked at unless the AI host alone is in the way. */
  lemma DelayedNotAsked(s: TurnState, lag: Option<nat>, clocked: bool, p: Peer, sealed: nat)
    requires p in s.clients && s.clients[p].delayed && !AiAlone(s, lag, clocked)
    ensures EveryoneAhead(WithSeal(s, p, sealed), lag, clocked) == EveryoneAhead(s, lag, clocked)
  {
    var s' := WithSeal(s, p, sealed);
    DelayedBlocksNobody(s, lag, clocked, p, sealed);
    forall q | q in s.clients
      ensures InWay(s', lag, clocked, q) == InWay(s, lag, clocked, q)
      ensures InWay(s, lag, clocked, q) ==> s'.clients[q] == s.clients[q]
    {
    }
    hide AiAlone;
  }

  /** Who was in the way stays in the way, so the AI host is not left alone
      by releasing a turn. */
  lemma NotLeftAlone(s: TurnState, lag: Option<nat>, clocked: bool)
    requires EveryoneAhead(s, lag, clocked) && !AiAlone(s, lag, clocked)
    ensures !AiAlone(s.(ready := s.ready + 1), lag, clocked)
  {
    if !clocked {
      var r :| r in s.clients && InWay(s, lag, clocked, r);
      var q :| q in s.clients && !s.clients[q].aiHost && Blocks(s.ready, s.clients[q], lag);
      assert Blocks(s.ready + 1, s.clients[q], lag);
    }
  }

  lemma {:induction false} DelayedMakesNoOdds(s: TurnState, lag: Option<nat>, pace: Option<nat>, clocked: bool,
                                              p: Peer, sealed: nat)
    requires p in s.clients && s.clients[p].delayed && !AiAlone(s, lag, clocked)
    ensures ReleaseCount(WithSeal(s, p, sealed), lag, pace, clocked) == ReleaseCount(s, lag, pace, clocked)
    decreases SaturatingSub(HighestSeal(s), s.ready)
  {
    var s' := WithSeal(s, p, sealed);
    DelayedNotAsked(s, lag, clocked, p, sealed);
    if pace != Some(0) && EveryoneAhead(s, lag, clocked) {
      ReleaseStep(s, lag, pace, clocked);
      ReleaseStep(s', lag, pace, clocked);
      NotLeftAlone(s, lag, clocked);
      var s1 := s.(ready := s.ready + 1);
      assert WithSeal(s1, p, sealed) == s'.(ready := s'.ready + 1);
      DelayedMakesNoOdds(s1, lag, Less(pace, 1), clocked, p, sealed);
    }
  }

  /** The AI host is left alone with watchers, and the others have all sealed. */
  predicate Decides(s: TurnState, lag: Option<nat>, pace: Option<nat>, clocked: bool, p: Peer) {
    && pace != Some(0) && AiAlone(s, lag, clocked)
    && (exists q | q in s.clients :: !s.clients[q].aiHost)
    && (forall q | q in s.clients && q != p :: s.clients[q].sealed > s.ready)
  }

  lemma UndecidedHolds(s: TurnState, lag: Option<nat>, pace: Option<nat>, clocked: bool, p: Peer, sealed: nat)
    requires p in s.clients && s.clients[p].delayed
    requires AiAlone(s, lag, clocked) && !Decides(s, lag, pace, clocked, p)
    ensures ReleaseCount(WithSeal(s, p, sealed), lag, pace, clocked) == 0
  {
    var s' := WithSeal(s, p, sealed);
    DelayedBlocksNobody(s, lag, clocked, p, sealed);
    if EveryoneAhead(s', lag, clocked) && pace != Some(0) {
      var q :| q in s'.clients && !s'.clients[q].aiHost;
      assert q in s.clients && !s.clients[q].aiHost;
      forall r | r in s.clients && r != p ensures s.clients[r].sealed > s.ready {
        assert InWay(s', lag, clocked, r);
      }
    }
    hide AiAlone;
  }

  lemma DecidedEitherWay(s: TurnState, lag: Option<nat>, pace: Option<nat>, clocked: bool, p: Peer)
    requires p in s.clients && s.clients[p].delayed && Decides(s, lag, pace, clocked, p)
    ensures ReleaseCount(WithSeal(s, p, s.ready), lag, pace, clocked) == 0
    ensures ReleaseCount(WithSeal(s, p, s.ready + 1), lag, pace, clocked) > 0
  {
    var q :| q in s.clients && !s.clients[q].aiHost;
    var a, b := WithSeal(s, p, s.ready), WithSeal(s, p, s.ready + 1);
    DelayedBlocksNobody(s, lag, clocked, p, s.ready);
    DelayedBlocksNobody(s, lag, clocked, p, s.ready + 1);
    assert InWay(a, lag, clocked, p) && InWay(b, lag, clocked, p);
    assert q in b.clients && !b.clients[q].aiHost;
    hide AiAlone;
    assert EveryoneAhead(b, lag, clocked);
    ReleaseStep(b, lag, pace, clocked);
  }

  /** Whether the seals of a delayed observer can make a difference to a pass:
      exactly when, with no clock, only the AI host is in the way, somebody
      else is there, and everyone but that observer has sealed ahead. */
  lemma DelayedDecidesExactly(s: TurnState, lag: Option<nat>, pace: Option<nat>, clocked: bool, p: Peer)
    requires p in s.clients && s.clients[p].delayed
    ensures (exists a: nat, b: nat :: ReleaseCount(WithSeal(s, p, a), lag, pace, clocked)
                                      != ReleaseCount(WithSeal(s, p, b), lag, pace, clocked))
       <==> Decides(s, lag, pace, clocked, p)
  {
    if Decides(s, lag, pace, clocked, p) {
      DecidedEitherWay(s, lag, pace, clocked, p);
    } else {
      forall a: nat, b: nat ensures ReleaseCount(WithSeal(s, p, a), lag, pace, clocked)
                                 == ReleaseCount(WithSeal(s, p, b), lag, pace, clocked)
      {
        if AiAlone(s, lag, clocked) {
          UndecidedHolds(s, lag, pace, clocked, p, a);
          UndecidedHolds(s, lag, pace, clocked, p, b);
        } else {
          DelayedMakesNoOdds(s, lag, pace, clocked, p, a);
          DelayedMakesNoOdds(s, lag, pace, clocked, p, b);
        }
      }
    }
    hide ReleaseCount, Decides;
  }

  /** An AI host with one delayed observer: the observer's next seal releases
      the turn. */
  lemma DelayedPacesAiHost()
    ensures var s := Fresh.(clients := map[0 := Client(0, 4, 3, false, false, true),
                                           1 := Client(1, 3, 3, true, true, false)]);
            && ReleaseCount(s, None, None, false) == 0
            && ReleaseCount(WithSeal(s, 1, 4), None, None, false) > 0
  {
    var s := Fresh.(clients := map[0 := Client(0, 4, 3, false, false, true),
                                   1 := Client(1, 3, 3, true, true, false)]);
    assert Blocks(3, s.clients[0], None) && !s.clients[1].aiHost;
    assert WithSeal(s, 1, 3) == s;
    DecidedEitherWay(s, None, None, false, 1);
  }
}
