/** Flares over whole runs of the relay: every live client is sent each flare as
    it is raised, and every delayed observer exactly what the feed shows. */
module RelayFlares {
  import opened Prelude
  import opened Turns
  import opened Lockstep
  import opened MatchLogs
  import opened ObserverFeeds
  import opened Relay
  import opened RelayRuns
  import opened RelaySteps
  import opened RelayTheorems
  import Feeds = FeedRuns

  /** The flares within everything a peer was sent. */
  function FlaresOf(ms: seq<Msg>): seq<Flare> {
    if ms == [] then []
    else FlaresOf(ms[..|ms| - 1]) + (if ms[|ms| - 1].Flared? then [ms[|ms| - 1].flare] else [])
  }

  lemma {:induction false} FlaresAppend(a: seq<Msg>, b: seq<Msg>)
    ensures FlaresOf(a + b) == FlaresOf(a) + FlaresOf(b)
    decreases |b|
  {
    if b == [] {
      assert a + b == a;
    } else {
      assert (a + b)[..|a + b| - 1] == a + b[..|b| - 1];
      FlaresAppend(a, b[..|b| - 1]);
    }
  }

  lemma {:induction false} NoFlares(ms: seq<Msg>)
    requires forall m | m in ms :: !m.Flared?
    ensures FlaresOf(ms) == []
    decreases |ms|
  {
    if ms != [] {
      NoFlares(ms[..|ms| - 1]);
    }
  }

  lemma {:induction false} AllFlares(fs: seq<Flare>)
    ensures FlaresOf(Flares(fs)) == fs
    decreases |fs|
  {
    if fs != [] {
      AllFlares(fs[..|fs| - 1]);
      assert Flares(fs)[..|fs| - 1] == Flares(fs[..|fs| - 1]);
      assert fs == fs[..|fs| - 1] + [fs[|fs| - 1]];
    }
  }

  lemma Quietly(ms: seq<Msg>, more: seq<Msg>)
    requires forall m | m in more :: !m.Flared?
    ensures FlaresOf(ms + more) == FlaresOf(ms)
  {
    FlaresAppend(ms, more);
    NoFlares(more);
  }

  /** In game, and registered for the feed its session says. */
  predicate Watching(s: RelayState, p: Peer) {
    && p in s.sessions && s.sessions[p].role.InGame? && p in s.out
    && p in s.turns.clients && s.turns.clients[p].delayed == s.sessions[p].delayed
  }

  lemma InGameWatches(s: RelayState, p: Peer)
    requires RunInv(s) && p in s.sessions && s.sessions[p].role.InGame?
    ensures Watching(s, p)
  {
  }

  // ---- the relay's feed is the feed of FeedRuns.dfy ----

  predicate Mirrors(h: Feeds.History, s: RelayState) {
    h.feed.(joins := s.feed.joins) == s.feed && h.live == s.turns.ready
  }

  /** The state in which a step has the feed advanced, if it does. */
  function Advancing(s: RelayState, step: Step): Option<RelayState> {
    match step
    case Deliver(joiner, lo, hi, snapshot) =>
      if joiner in s.sessions && s.sessions[joiner].role.Syncing? && s.sessions[joiner].delayed
      then Some(s.(sessions := s.sessions[joiner := s.sessions[joiner].(snapshot := Some((lo, hi)))],
                   feed := Holding(s.feed, joiner, hi, snapshot)))
      else None
    case SealUp(peer, turn, length, pace) =>
      if s.held || TurnSealed(s, peer, turn, length, pace).Err? then None
      else Some(ReleaseLive(s.(turns := SealTurn(s.turns, peer, turn).value), length, pace))
    case Tick(length, pace) => if s.held then None else Some(ReleaseLive(s, length, pace))
    case Depart(peer, length, pace) =>
      if s.held || peer !in s.sessions then None else Some(ReleaseLive(Gone(s, peer), length, pace))
    case Unhold(length, pace) => Some(ReleaseLive(s.(held := false), length, pace))
    case _ => None
  }

  function Raised(s: RelayState, step: Step): seq<Flare> {
    if step.Signal? && step.peer in s.sessions && s.sessions[step.peer].role.InGame? then [step.flare] else []
  }

  /** What a step is to the feed. */
  function Heard(s: RelayState, step: Step): Option<Feeds.Event> {
    if step.Signal? then
      if !(step.peer in s.sessions && s.sessions[step.peer].role.InGame?) then None
      else Some(Feeds.Raise(step.peer in s.turns.clients && s.turns.clients[step.peer].delayed, step.flare))
    else
      match Advancing(s, step)
      case None => None
      case Some(a) => Some(Feeds.Advance(a.turns.ready, !PlayersRemain(a.sessions)))
  }

  function Listed(e: Option<Feeds.Event>): seq<Feeds.Event> { if e.None? then [] else [e.value] }

  function After(h: Feeds.History, e: Option<Feeds.Event>): Feeds.History {
    if e.None? then h else Feeds.Step(h, e.value)
  }

  /** One step, seen by one peer that stays: a live one has been sent what was
      raised, a delayed one what was shown. */
  ghost predicate Shows(s: RelayState, h: Feeds.History, s': RelayState, h': Feeds.History, p: Peer,
                        raised: seq<Flare>)
    requires Watching(s, p)
  {
    && Watching(s', p) && s'.sessions[p].delayed == s.sessions[p].delayed
    && h.shown <= h'.shown
    && FlaresOf(s'.out[p])
       == FlaresOf(s.out[p])
          + (if s.sessions[p].delayed then Feeds.Untagged(h'.shown[|h.shown|..]) else raised)
  }

  lemma DueSame(f: Feed, g: Feed)
    requires f.flares == g.flares && f.head == g.head
    ensures DueFlares(f) == DueFlares(g)
  {
    assert DueTurns(f) == DueTurns(g);
  }

  lemma DueSent(ms: seq<Msg>, stream: seq<Msg>, fs: seq<Flare>)
    requires forall m | m in stream :: !m.Flared?
    ensures FlaresOf(ms + (stream + Flares(fs))) == FlaresOf(ms) + fs
  {
    hide Flares, FlaresOf;
    assert ms + (stream + Flares(fs)) == ms + stream + Flares(fs);
    FlaresAppend(ms + stream, Flares(fs));
    Quietly(ms, stream);
    AllFlares(fs);
  }

  lemma AdvanceSent(a: RelayState, p: Peer)
    requires Watching(a, p)
    ensures var f := Advanced(a.feed, a.turns.ready, !PlayersRemain(a.sessions));
            && Watching(AdvanceFeed(a), p)
            && FlaresOf(AdvanceFeed(a).out[p])
               == FlaresOf(a.out[p]) + (if a.sessions[p].delayed then DueFlares(f) else [])
  {
    hide FlaresOf, Flares, PlayersRemain, Stream, DueFlares;
    var f := Advanced(a.feed, a.turns.ready, !PlayersRemain(a.sessions));
    var fs, stream := DueFlares(f), Stream(a.log, a.feed.head, f.head, a.cfg.turnLength);
    var sent := if a.sessions[p].delayed then a.out[p] + (stream + Flares(fs)) else a.out[p];
    assert SentTo(a.out, DelayedPeers(a.turns), stream + Flares(fs))[p] == sent;
    var join := if p in DueJoins(f) then [Join(DueJoins(f)[p].snapshot)] else [];
    assert AdvanceFeed(a).out[p] == sent + join by {
      assert sent + [] == sent;
    }
    Quietly(sent, join);
    StreamIsGame(a.log, a.feed.head, f.head, a.cfg.turnLength);
    DueSent(a.out[p], stream, fs);
    hide Advanced, AdvanceFeed, DelayedPeers, SentTo, DueJoins;
  }

  lemma AdvanceShows(s: RelayState, a: RelayState, h: Feeds.History, p: Peer)
    requires Watching(s, p) && Watching(a, p) && a.sessions[p].delayed == s.sessions[p].delayed
    requires FlaresOf(a.out[p]) == FlaresOf(s.out[p])
    requires h.feed.(joins := a.feed.joins) == a.feed && h.live <= a.turns.ready
    ensures Shows(s, h, AdvanceFeed(a), Feeds.Step(h, Feeds.Advance(a.turns.ready, !PlayersRemain(a.sessions))),
                  p, [])
  {
    var draining := !PlayersRemain(a.sessions);
    var f, g := Advanced(a.feed, a.turns.ready, draining), Advanced(h.feed, a.turns.ready, draining);
    AdvanceSent(a, p);
    DueSame(f, g);
    Feeds.DueTaggedIs(g, 0);
    hide DueFlares, FlaresOf, PlayersRemain, Stream, Flares, Feeds.DueTagged, Feeds.Untagged;
    var h' := Feeds.Step(h, Feeds.Advance(a.turns.ready, draining));
    assert h'.shown[|h.shown|..] == Feeds.DueTagged(g);
  }

  lemma ReleaseLiveWatching(s: RelayState, p: Peer, length: nat, pace: Option<nat>)
    requires Watching(s, p)
    ensures Watching(ReleaseLive(s, length, pace), p)
    ensures FlaresOf(ReleaseLive(s, length, pace).out[p]) == FlaresOf(s.out[p])
    ensures s.turns.ready <= ReleaseLive(s, length, pace).turns.ready
  {
    hide FlaresOf, TurnRecords, LengthenedRun;
    var upTo := Release(s.turns, s.cfg.lag, pace).ready;
    SealMsgsAreGame(s.turns.ready, upTo, length);
    Quietly(s.out[p], SealMsgs(s.turns.ready, upTo, length));
  }

  lemma ReleaseShows(s: RelayState, before: RelayState, h: Feeds.History, p: Peer, length: nat, pace: Option<nat>)
    requires Watching(s, p) && Watching(before, p) && before.sessions[p].delayed == s.sessions[p].delayed
    requires before.out[p] == s.out[p] && !before.held
    requires h.feed.(joins := before.feed.joins) == before.feed && h.live == before.turns.ready
    ensures var a := ReleaseLive(before, length, pace);
            Shows(s, h, ReleaseTurns(before, length, pace),
                  Feeds.Step(h, Feeds.Advance(a.turns.ready, !PlayersRemain(a.sessions))), p, [])
  {
    hide FlaresOf, Shows, PlayersRemain, AdvanceFeed;
    ReleaseLiveWatching(before, p, length, pace);
    AdvanceShows(s, ReleaseLive(before, length, pace), h, p);
  }

  /** A step that neither raises a flare nor advances the feed. */
  lemma NothingShows(s: RelayState, s': RelayState, h: Feeds.History, p: Peer)
    requires Watching(s, p) && Watching(s', p) && s'.sessions[p].delayed == s.sessions[p].delayed
    requires FlaresOf(s'.out[p]) == FlaresOf(s.out[p])
    ensures Shows(s, h, s', h, p, [])
  {
    hide FlaresOf;
    assert h.shown[|h.shown|..] == [];
  }

  lemma FlareSent(out: map<Peer, seq<Msg>>, to: set<Peer>, p: Peer, flare: Flare)
    requires p in out
    ensures p in SentTo(out, to, [Flared(flare)])
    ensures p in to ==> FlaresOf(SentTo(out, to, [Flared(flare)])[p]) == FlaresOf(out[p]) + [flare]
    ensures p !in to ==> SentTo(out, to, [Flared(flare)])[p] == out[p]
  {
    if p in to {
      FlaresAppend(out[p], [Flared(flare)]);
      assert [Flared(flare)][..0] == [];
      assert FlaresOf([Flared(flare)]) == [flare];
    }
  }

  lemma RaiseShows(h: Feeds.History, byDelayed: bool, flare: Flare)
    ensures var h' := Feeds.Step(h, Feeds.Raise(byDelayed, flare));
            var turn := if byDelayed then h.feed.head else h.live;
            && h.shown <= h'.shown && h'.live == h.live
            && h'.feed == (if turn <= h.feed.head then h.feed else Queued(h.feed, turn, flare))
            && Feeds.Untagged(h'.shown[|h.shown|..]) == if turn <= h.feed.head then [flare] else []
  {
    var h' := Feeds.Step(h, Feeds.Raise(byDelayed, flare));
    var turn := if byDelayed then h.feed.head else h.live;
    if turn <= h.feed.head {
      assert h'.shown[|h.shown|..] == [(turn, flare)];
      assert [(turn, flare)][1..] == [];
    } else {
      assert h'.shown[|h.shown|..] == [];
    }
  }

  /** A flare goes out at once to the live, and to the delayed when they are
      already watching its turn; otherwise it waits. */
  lemma SignalSent(s: RelayState, p: Peer, peer: Peer, flare: Flare)
    requires Base(s) && Watching(s, p) && FlareRaised(s, peer, flare).Ok?
    ensures var s' := FlareRaised(s, peer, flare).value;
            var byDelayed := peer in s.turns.clients && s.turns.clients[peer].delayed;
            var turn := if byDelayed then s.feed.head else s.turns.ready;
            && s' == s.(out := s'.out, feed := s'.feed) && p in s'.out
            && s'.feed == (if turn <= s.feed.head then s.feed else Queued(s.feed, turn, flare))
            && FlaresOf(s'.out[p])
               == if s.sessions[p].delayed && turn > s.feed.head then FlaresOf(s.out[p])
                  else FlaresOf(s.out[p]) + [flare]
  {
    Audience(s);
    assert (p in LivePeers(s) <==> !s.sessions[p].delayed) && (p in DelayedPeers(s.turns) <==> s.sessions[p].delayed);
    hide Base, LivePeers, DelayedPeers, SentTo, FlaresOf;
    FlareSent(s.out, LivePeers(s), p, flare);
    FlareSent(SentTo(s.out, LivePeers(s), [Flared(flare)]), DelayedPeers(s.turns), p, flare);
  }

  lemma SignalShows(s: RelayState, h: Feeds.History, p: Peer, peer: Peer, flare: Flare)
    requires Base(s) && Mirrors(h, s) && Watching(s, p) && FlareRaised(s, peer, flare).Ok?
    ensures Shows(s, h, Next(s, Signal(peer, flare)),
                  Feeds.Step(h, Feeds.Raise(peer in s.turns.clients && s.turns.clients[peer].delayed, flare)),
                  p, [flare])
  {
    hide Base, FlaresOf, Feeds.Untagged;
    SignalSent(s, p, peer, flare);
    var s' := FlareRaised(s, peer, flare).value;
    assert Next(s, Signal(peer, flare)) == s';
    RaiseShows(h, peer in s.turns.clients && s.turns.clients[peer].delayed, flare);
    hide FlareRaised, Feeds.Step, Queued;
    assert FlaresOf(s.out[p]) + [] == FlaresOf(s.out[p]);
  }

  lemma StepShows(s: RelayState, h: Feeds.History, step: Step, p: Peer)
    requires Base(s) && Mirrors(h, s) && Watching(s, p) && Stays(step, p)
    ensures Shows(s, h, Next(s, step), After(h, Heard(s, step)), p, Raised(s, step))
  {
    hide Shows, FlaresOf, Feeds.Step, AdvanceFeed, ReleaseLive, PlayersRemain, Base, Stream, Replay;
    match step {
      case Signal(peer, flare) =>
        if FlareRaised(s, peer, flare).Ok? {
          SignalShows(s, h, p, peer, flare);
        } else {
          NothingShows(s, s, h, p);
        }
      case Deliver(joiner, lo, hi, snapshot) => DeliverShows(s, h, p, joiner, lo, hi, snapshot);
      case SealUp(peer, turn, length, pace) => SealShows(s, h, p, peer, turn, length, pace);
      case Tick(length, pace) =>
        if s.held {
          NothingShows(s, s, h, p);
        } else {
          ReleaseShows(s, s, h, p, length, pace);
        }
      case Depart(peer, length, pace) => DepartShows(s, h, p, peer, length, pace);
      case Unhold(length, pace) => ReleaseShows(s, s.(held := false), h, p, length, pace);
      case Connect(peer, session) => ConnectShows(s, h, p, peer, session);
      case Load(peer, turn) => LoadShows(s, h, p, peer, turn);
      case Say(peer, c, admitted) => SayShows(s, h, p, peer, c, admitted);
      case Hashed(peer, turn, hash) => HashShows(s, h, p, peer, turn, hash);
      case Stop(unixMs) => NothingShows(s, Stopped(s, unixMs), h, p);
    }
  }

  lemma ConnectShows(s: RelayState, h: Feeds.History, p: Peer, peer: Peer, session: Session)
    requires Mirrors(h, s) && Watching(s, p)
    ensures Shows(s, h, Next(s, Connect(peer, session)), h, p, [])
  {
    hide FlaresOf, Shows;
    NothingShows(s, Next(s, Connect(peer, session)), h, p);
  }

  lemma DeliverShows(s: RelayState, h: Feeds.History, p: Peer, joiner: Peer, lo: nat, hi: nat, snapshot: Bytes)
    requires Mirrors(h, s) && Watching(s, p)
    ensures var step := Deliver(joiner, lo, hi, snapshot);
            match Advancing(s, step)
            case None => Shows(s, h, Next(s, step), h, p, [])
            case Some(a) =>
              Shows(s, h, Next(s, step),
                    Feeds.Step(h, Feeds.Advance(a.turns.ready, !PlayersRemain(a.sessions))), p, [])
  {
    hide FlaresOf, Shows, PlayersRemain, AdvanceFeed;
    var step := Deliver(joiner, lo, hi, snapshot);
    match Advancing(s, step) {
      case None =>
        assert Next(s, step).out[p] == s.out[p];
        NothingShows(s, Next(s, step), h, p);
      case Some(a) => AdvanceShows(s, a, h, p);
    }
  }

  lemma SealShows(s: RelayState, h: Feeds.History, p: Peer, peer: Peer, turn: nat, length: nat, pace: Option<nat>)
    requires Mirrors(h, s) && Watching(s, p)
    ensures var step := SealUp(peer, turn, length, pace);
            match Advancing(s, step)
            case None => Shows(s, h, Next(s, step), h, p, [])
            case Some(a) =>
              Shows(s, h, Next(s, step),
                    Feeds.Step(h, Feeds.Advance(a.turns.ready, !PlayersRemain(a.sessions))), p, [])
  {
    hide FlaresOf, Shows, PlayersRemain, AdvanceFeed, ReleaseLive;
    if TurnSealed(s, peer, turn, length, pace).Ok? {
      var sealed := s.(turns := SealTurn(s.turns, peer, turn).value);
      if s.held {
        NothingShows(s, sealed, h, p);
      } else {
        ReleaseShows(s, sealed, h, p, length, pace);
      }
    } else {
      NothingShows(s, s, h, p);
    }
  }

  lemma DepartShows(s: RelayState, h: Feeds.History, p: Peer, peer: Peer, length: nat, pace: Option<nat>)
    requires Mirrors(h, s) && Watching(s, p) && peer != p
    ensures var step := Depart(peer, length, pace);
            match Advancing(s, step)
            case None => Shows(s, h, Next(s, step), h, p, [])
            case Some(a) =>
              Shows(s, h, Next(s, step),
                    Feeds.Step(h, Feeds.Advance(a.turns.ready, !PlayersRemain(a.sessions))), p, [])
  {
    hide FlaresOf, PlayersRemain, AdvanceFeed, ReleaseLive;
    if peer in s.sessions {
      var gone := Gone(s, peer);
      if !s.held {
        ReleaseShows(s, gone, h, p, length, pace);
      } else {
        NothingShows(s, gone, h, p);
      }
      var t := ReleaseTurns(gone, length, pace).turns;
      if t.outOfSync == {} {
        RecheckKeepsClients(t, Sorted(t.pending.Keys));
      }
      hide ReleaseTurns, CompareAll, Gone;
    } else {
      NothingShows(s, s, h, p);
    }
  }

  lemma EnteredOther(s: RelayState, p: Peer, peer: Peer, msgs: seq<Msg>, sealed: nat, simulated: nat,
                     loaded: nat, reached: nat)
    requires Watching(s, p) && peer in s.sessions && peer != p
    ensures var s' := Entered(s, peer, msgs, sealed, simulated, loaded, reached);
            && Watching(s', p) && s'.sessions[p] == s.sessions[p] && s'.out[p] == s.out[p]
            && s'.turns.ready == s.turns.ready && s'.feed == s.feed
  {
  }

  lemma LoadShows(s: RelayState, h: Feeds.History, p: Peer, peer: Peer, turn: nat)
    requires Mirrors(h, s) && Watching(s, p)
    ensures Shows(s, h, Next(s, Load(peer, turn)), h, p, [])
  {
    hide FlaresOf, Shows, Stream, Replay, Entered;
    if LoadedGame(s, peer, turn).Ok? {
      if s.sessions[peer].delayed {
        var head := s.feed.head;
        EnteredOther(s, p, peer, Stream(s.log, turn, head, s.cfg.turnLength) + [Loaded(head)],
                     head + COMMAND_DELAY - 1, head, turn, head);
      } else {
        var ready := s.turns.ready;
        EnteredOther(s, p, peer, Replay(s.log, turn, ready, Max(ready + 1, LastStored(s.log)), s.cfg.turnLength)
                                 + [Loaded(ready)], ready + COMMAND_DELAY - 1, ready, turn, ready);
      }
    }
    NothingShows(s, Next(s, Load(peer, turn)), h, p);
  }

  lemma SayShows(s: RelayState, h: Feeds.History, p: Peer, peer: Peer, c: Command, admitted: bool)
    requires Mirrors(h, s) && Watching(s, p)
    ensures Shows(s, h, Next(s, Say(peer, c, admitted)), h, p, [])
  {
    hide FlaresOf, Shows;
    Quietly(s.out[p], [Cmd(c)]);
    NothingShows(s, Next(s, Say(peer, c, admitted)), h, p);
  }

  lemma HashShows(s: RelayState, h: Feeds.History, p: Peer, peer: Peer, turn: nat, hash: Hash)
    requires Mirrors(h, s) && Watching(s, p)
    ensures Shows(s, h, Next(s, Hashed(peer, turn, hash)), h, p, [])
  {
    hide FlaresOf, Shows, StateHash;
    if HashReported(s, peer, turn, hash).Ok? {
      ReportedClients(s.turns, peer, turn, hash);
    }
    NothingShows(s, Next(s, Hashed(peer, turn, hash)), h, p);
  }

  lemma AdvanceMirrors(a: RelayState, h: Feeds.History)
    requires h.feed.(joins := a.feed.joins) == a.feed && h.live <= a.turns.ready
    ensures Mirrors(Feeds.Step(h, Feeds.Advance(a.turns.ready, !PlayersRemain(a.sessions))), AdvanceFeed(a))
  {
    hide DueFlares, PlayersRemain, Stream, Flares, Feeds.DueTagged;
  }

  lemma ReleaseMirrors(s: RelayState, h: Feeds.History, length: nat, pace: Option<nat>)
    requires h.feed.(joins := s.feed.joins) == s.feed && h.live == s.turns.ready && !s.held
    ensures var a := ReleaseLive(s, length, pace);
            Mirrors(Feeds.Step(h, Feeds.Advance(a.turns.ready, !PlayersRemain(a.sessions))),
                    ReleaseTurns(s, length, pace))
  {
    hide PlayersRemain, AdvanceFeed, Mirrors, Feeds.Step, SealMsgs, TurnRecords, LengthenedRun;
    var a := ReleaseLive(s, length, pace);
    assert a.feed == s.feed && a.turns.ready >= s.turns.ready;
    hide ReleaseLive;
    AdvanceMirrors(a, h);
  }

  lemma RecheckedKeeps(s: RelayState)
    ensures var s' := SaveSettled(s.(turns := Recheck(s.turns).0));
            s'.feed == s.feed && s'.turns.ready == s.turns.ready
  {
    if s.turns.outOfSync == {} {
      RecheckKeepsClients(s.turns, Sorted(s.turns.pending.Keys));
    }
    hide CompareAll;
  }

  lemma DepartMirrors(s: RelayState, h: Feeds.History, peer: Peer, length: nat, pace: Option<nat>)
    requires Mirrors(h, s)
    ensures var step := Depart(peer, length, pace); Mirrors(After(h, Heard(s, step)), Next(s, step))
  {
    hide PlayersRemain, AdvanceFeed, ReleaseLive, Feeds.Step, Recheck;
    if peer in s.sessions {
      var gone := Gone(s, peer);
      assert gone.held == s.held && gone.turns.ready == s.turns.ready && h.feed.(joins := gone.feed.joins) == gone.feed;
      if !s.held {
        ReleaseMirrors(gone, h, length, pace);
      }
      RecheckedKeeps(ReleaseTurns(gone, length, pace));
      assert Next(s, Depart(peer, length, pace))
          == var s2 := ReleaseTurns(gone, length, pace); SaveSettled(s2.(turns := Recheck(s2.turns).0));
      hide SaveSettled, Gone;
    }
  }

  lemma SignalMirrors(s: RelayState, h: Feeds.History, peer: Peer, flare: Flare)
    requires Mirrors(h, s)
    ensures var step := Signal(peer, flare); Mirrors(After(h, Heard(s, step)), Next(s, step))
  {
    hide SentTo, LivePeers, DelayedPeers, AdvanceFeed, ReleaseLive;
  }

  lemma QuietMirrors(s: RelayState, h: Feeds.History, step: Step)
    requires Mirrors(h, s) && (step.Connect? || step.Load? || step.Say? || step.Hashed? || step.Stop?)
    ensures Heard(s, step) == None && Mirrors(h, Next(s, step))
  {
    hide AdvanceFeed, ReleaseLive, SentTo, LivePeers, DelayedPeers, Stream, Replay, FlareRaised;
  }

  /** With or without anyone watching, the relay's feed stays the one whose
      history is kept. */
  lemma StepMirrors(s: RelayState, h: Feeds.History, step: Step)
    requires Mirrors(h, s) && !step.Crash?
    ensures Mirrors(After(h, Heard(s, step)), Next(s, step))
  {
    hide AdvanceFeed, ReleaseLive, PlayersRemain, Feeds.Step, FlareRaised, PlayerCommand, HashReported, LoadedGame;
    match step {
      case Deliver(joiner, lo, hi, snapshot) =>
        if Advancing(s, step).Some? {
          AdvanceMirrors(Advancing(s, step).value, h);
        }
      case SealUp(peer, turn, length, pace) =>
        if TurnSealed(s, peer, turn, length, pace).Ok? && !s.held {
          ReleaseMirrors(s.(turns := SealTurn(s.turns, peer, turn).value), h, length, pace);
        }
      case Tick(length, pace) =>
        if !s.held {
          ReleaseMirrors(s, h, length, pace);
        }
      case Unhold(length, pace) => ReleaseMirrors(s.(held := false), h, length, pace);
      case Depart(peer, length, pace) => DepartMirrors(s, h, peer, length, pace);
      case Signal(peer, flare) => SignalMirrors(s, h, peer, flare);
      case _ => QuietMirrors(s, h, step);
    }
  }

  // ---- runs ----

  ghost function EventsOver(s: RelayState, steps: seq<Step>): seq<Feeds.Event>
    decreases |steps|
  {
    if steps == [] then [] else Listed(Heard(s, steps[0])) + EventsOver(Next(s, steps[0]), steps[1..])
  }

  /** Every flare a run accepts, in order. */
  ghost function RaisedOver(s: RelayState, steps: seq<Step>): seq<Flare>
    decreases |steps|
  {
    if steps == [] then [] else Raised(s, steps[0]) + RaisedOver(Next(s, steps[0]), steps[1..])
  }

  lemma StepsThen(h: Feeds.History, e: Option<Feeds.Event>, rest: seq<Feeds.Event>)
    ensures Feeds.Steps(h, Listed(e) + rest) == Feeds.Steps(After(h, e), rest)
  {
    hide Feeds.Step;
    if e.None? {
      assert Listed(e) + rest == rest;
    } else {
      assert (Listed(e) + rest)[0] == e.value && (Listed(e) + rest)[1..] == rest;
    }
  }

  lemma ShowsThen(s: RelayState, h: Feeds.History, s1: RelayState, h1: Feeds.History, s2: RelayState,
                  h2: Feeds.History, p: Peer, first: seq<Flare>, rest: seq<Flare>)
    requires Watching(s, p) && Shows(s, h, s1, h1, p, first) && Shows(s1, h1, s2, h2, p, rest)
    ensures Shows(s, h, s2, h2, p, first + rest)
  {
    var a, b := h1.shown[|h.shown|..], h2.shown[|h1.shown|..];
    assert h2.shown[|h.shown|..] == a + b;
    Feeds.UntaggedAppend(a, b);
    hide FlaresOf, Feeds.Untagged;
    Assoc(FlaresOf(s.out[p]), Feeds.Untagged(a), Feeds.Untagged(b));
    Assoc(FlaresOf(s.out[p]), first, rest);
  }

  lemma {:induction false} RunShows(s: RelayState, h: Feeds.History, steps: seq<Step>, p: Peer)
    requires RunInv(s) && Mirrors(h, s) && Watching(s, p) && forall step | step in steps :: Stays(step, p)
    ensures Shows(s, h, Play(s, steps), Feeds.Steps(h, EventsOver(s, steps)), p, RaisedOver(s, steps))
    decreases |steps|
  {
    if steps == [] {
      NothingShows(s, s, h, p);
    } else {
      var step, s1 := steps[0], Next(s, steps[0]);
      var h1 := After(h, Heard(s, step));
      assert Stays(step, p) && forall t | t in steps[1..] :: t in steps;
      StepShows(s, h, step, p);
      StepMirrors(s, h, step);
      StepKeeps(s, step);
      StepsThen(h, Heard(s, step), EventsOver(s1, steps[1..]));
      RunShows(s1, h1, steps[1..], p);
      ShowsThen(s, h, s1, h1, Play(s, steps), Feeds.Steps(h, EventsOver(s, steps)), p,
                Raised(s, step), RaisedOver(s1, steps[1..]));
    }
  }

  /** The history of a feed nothing has been raised for yet. */
  function Opening(s: RelayState): Feeds.History { Feeds.History(s.feed, s.turns.ready, false, map[], []) }

  /** A match begins so, and so does one started over from a save. */
  lemma MatchOpens(cfg: Config, starters: map<Peer, Session>, records: seq<Record>, unixMs: int)
    ensures var s := Begun(cfg, starters); Mirrors(Opening(s), s) && Feeds.FeedInv(Opening(s))
    ensures var s := Restarted(cfg, records, unixMs); Mirrors(Opening(s), s) && Feeds.FeedInv(Opening(s))
  {
    hide RebuiltLog, RebuiltHashes, Registered;
    LastTurnStarts(records);
  }

  lemma {:induction false} LastTurnStarts(records: seq<Record>)
    ensures LastTurn(records) >= INITIAL_READY_TURN
    decreases |records|
  {
    if records != [] && !records[|records| - 1].TurnRecord? {
      LastTurnStarts(records[..|records| - 1]);
    }
  }

  lemma {:induction false} RunMirrors(s: RelayState, h: Feeds.History, steps: seq<Step>)
    requires Mirrors(h, s) && forall step | step in steps :: !step.Crash?
    ensures Mirrors(Feeds.Steps(h, EventsOver(s, steps)), Play(s, steps))
    decreases |steps|
  {
    if steps != [] {
      var s1 := Next(s, steps[0]);
      StepMirrors(s, h, steps[0]);
      StepsThen(h, Heard(s, steps[0]), EventsOver(s1, steps[1..]));
      RunMirrors(s1, After(h, Heard(s, steps[0])), steps[1..]);
    }
  }

  /** Flares, from any point between a match's start, or restart, and its next
      crash, for as long as a client stays in game: a live one is sent every
      flare raised, once and in order; a delayed one is sent exactly what its
      feed shows. What the feed has shown and what it still holds are, turn by
      turn, what was raised; and nothing is shown before the feed reaches its
      turn. */
  lemma FlaresReach(s0: RelayState, before: seq<Step>, after: seq<Step>, p: Peer)
    requires RunInv(s0) && Feeds.FeedInv(Opening(s0)) && forall step | step in before :: !step.Crash?
    requires forall step | step in after :: Stays(step, p)
    ensures var s, h := Play(s0, before), Feeds.Steps(Opening(s0), EventsOver(s0, before));
            var s', h' := Play(s, after), Feeds.Steps(h, EventsOver(s, after));
            && Mirrors(h', s') && Feeds.FeedInv(h') && h.shown <= h'.shown
            && (p in s.sessions && s.sessions[p].role.InGame? ==>
                  && p in s.out && p in s'.out
                  && FlaresOf(s'.out[p])
                     == FlaresOf(s.out[p])
                        + (if s.sessions[p].delayed then Feeds.Untagged(h'.shown[|h.shown|..])
                           else RaisedOver(s, after)))
  {
    var h0 := Opening(s0);
    var s, h := Play(s0, before), Feeds.Steps(h0, EventsOver(s0, before));
    RunKeeps(s0, before);
    RunMirrors(s0, h0, before);
    Feeds.FeedRuns(h0, EventsOver(s0, before));
    Feeds.FeedRuns(h, EventsOver(s, after));
    RunMirrors(s, h, after);
    if p in s.sessions && s.sessions[p].role.InGame? {
      InGameWatches(s, p);
      RunShows(s, h, after, p);
    }
    hide RunInv, Feeds.FeedInv, Mirrors, FlaresOf, Feeds.Untagged, Feeds.Steps, Play;
  }

  // ---- turns ahead of flares ----

  predicate TurnsFirst(ms: seq<Msg>) {
    forall i, j | 0 <= i < j < |ms| && ms[i].Flared? :: !ms[j].IsGame()
  }

  /** What one step adds to a stream: no turn or command behind a flare. */
  ghost predicate AddsTurnsFirst(before: seq<Msg>, after: seq<Msg>) {
    before <= after && TurnsFirst(after[|before|..])
  }

  lemma Adds(before: seq<Msg>, more: seq<Msg>)
    requires TurnsFirst(more)
    ensures AddsTurnsFirst(before, before + more)
  {
    assert (before + more)[|before|..] == more;
  }

  lemma AddsNothing(ms: seq<Msg>)
    ensures AddsTurnsFirst(ms, ms)
  {
  }

  lemma AdvanceTurnsFirst(a: RelayState, p: Peer)
    requires Watching(a, p) && a.sessions[p].delayed
    ensures p in AdvanceFeed(a).out && AddsTurnsFirst(a.out[p], AdvanceFeed(a).out[p])
  {
    hide PlayersRemain, Stream, DueFlares, AddsTurnsFirst;
    var f := Advanced(a.feed, a.turns.ready, !PlayersRemain(a.sessions));
    var fs, stream := DueFlares(f), Stream(a.log, a.feed.head, f.head, a.cfg.turnLength);
    var join: seq<Msg> := if p in DueJoins(f) then [Join(DueJoins(f)[p].snapshot)] else [];
    var sent := a.out[p] + (stream + Flares(fs));
    assert SentTo(a.out, DelayedPeers(a.turns), stream + Flares(fs))[p] == sent;
    assert AdvanceFeed(a).out[p] == sent + join by {
      assert sent + [] == sent;
    }
    assert sent + join == a.out[p] + (stream + Flares(fs) + join);
    StreamIsGame(a.log, a.feed.head, f.head, a.cfg.turnLength);
    GameThenFlares(stream, Flares(fs), join);
    Adds(a.out[p], stream + Flares(fs) + join);
    hide AdvanceFeed;
  }

  lemma GameThenFlares(game: seq<Msg>, flares: seq<Msg>, joins: seq<Msg>)
    requires forall m | m in game :: m.IsGame()
    requires forall m | m in flares :: m.Flared?
    requires forall m | m in joins :: m.Join?
    ensures TurnsFirst(game + flares + joins)
  {
    var ms := game + flares + joins;
    assert forall k | 0 <= k < |game| :: ms[k] in game;
    assert forall k | |game| <= k < |ms| :: ms[k] in flares || ms[k] in joins;
  }

  lemma ReleaseTurnsFirst(s: RelayState, p: Peer, length: nat, pace: Option<nat>)
    requires Watching(s, p) && s.sessions[p].delayed
    ensures p in ReleaseTurns(s, length, pace).out && AddsTurnsFirst(s.out[p], ReleaseTurns(s, length, pace).out[p])
  {
    if s.held {
      AddsNothing(s.out[p]);
    } else {
      var live := ReleaseLive(s, length, pace);
      assert Watching(live, p) && live.out[p] == s.out[p] && live.sessions == s.sessions by {
        hide SealMsgs, TurnRecords, LengthenedRun, ReleaseCount;
      }
      hide ReleaseLive, AdvanceFeed, AddsTurnsFirst;
      AdvanceTurnsFirst(live, p);
    }
  }

  lemma DepartTurnsFirst(s: RelayState, peer: Peer, p: Peer, length: nat, pace: Option<nat>)
    requires Watching(s, p) && s.sessions[p].delayed && peer != p
    ensures var s' := Next(s, Depart(peer, length, pace)); p in s'.out && AddsTurnsFirst(s.out[p], s'.out[p])
  {
    if peer in s.sessions {
      var gone := Gone(s, peer);
      assert Watching(gone, p) && gone.out[p] == s.out[p] && gone.sessions[p] == s.sessions[p];
      DepartShape(s, peer, length, pace);
      hide ReleaseTurns, Next, Gone, AddsTurnsFirst;
      ReleaseTurnsFirst(gone, p, length, pace);
    } else {
      AddsNothing(s.out[p]);
    }
  }

  lemma SealTurnsFirst(s: RelayState, p: Peer, peer: Peer, turn: nat, length: nat, pace: Option<nat>)
    requires Watching(s, p) && s.sessions[p].delayed
    ensures var s' := Next(s, SealUp(peer, turn, length, pace)); p in s'.out && AddsTurnsFirst(s.out[p], s'.out[p])
  {
    hide ReleaseTurns, AddsTurnsFirst;
    if TurnSealed(s, peer, turn, length, pace).Ok? {
      var sealed := s.(turns := SealTurn(s.turns, peer, turn).value);
      assert Watching(sealed, p);
      ReleaseTurnsFirst(sealed, p, length, pace);
    } else {
      AddsNothing(s.out[p]);
    }
  }

  lemma DeliverTurnsFirst(s: RelayState, p: Peer, joiner: Peer, lo: nat, hi: nat, snapshot: Bytes)
    requires Watching(s, p) && s.sessions[p].delayed
    ensures var s' := Next(s, Deliver(joiner, lo, hi, snapshot)); p in s'.out && AddsTurnsFirst(s.out[p], s'.out[p])
  {
    hide AdvanceFeed, AddsTurnsFirst;
    if joiner in s.sessions && s.sessions[joiner].role.Syncing? && s.sessions[joiner].delayed {
      AdvanceTurnsFirst(s.(sessions := s.sessions[joiner := s.sessions[joiner].(snapshot := Some((lo, hi)))],
                           feed := Holding(s.feed, joiner, hi, snapshot)), p);
    } else {
      AddsNothing(s.out[p]);
    }
  }

  lemma SignalTurnsFirst(s: RelayState, p: Peer, peer: Peer, flare: Flare)
    requires Watching(s, p) && s.sessions[p].delayed
    ensures var s' := Next(s, Signal(peer, flare)); p in s'.out && AddsTurnsFirst(s.out[p], s'.out[p])
  {
    var s' := Next(s, Signal(peer, flare));
    assert s'.out[p] == s.out[p] || s'.out[p] == s.out[p] + [Flared(flare)];
    AddsNothing(s.out[p]);
    Adds(s.out[p], [Flared(flare)]);
    hide Next, AddsTurnsFirst;
  }

  lemma OthersTurnsFirst(s: RelayState, step: Step, p: Peer)
    requires RunInv(s) && Watching(s, p) && s.sessions[p].delayed
    requires step.Connect? || step.Load? || step.Say? || step.Hashed? || step.Stop?
    ensures var s' := Next(s, step); p in s'.out && AddsTurnsFirst(s.out[p], s'.out[p])
  {
    hide AddsTurnsFirst;
    if step.Load? {
      assert Next(s, step).out[p] == s.out[p] by {
        hide Stream, Replay, Register, MarkAiHost, RunInv;
      }
    } else {
      assert p in Next(s, step).out && Next(s, step).out[p] == s.out[p] by {
        hide StateHash, RunInv;
      }
    }
    hide RunInv, Next;
    AddsNothing(s.out[p]);
  }

  /** Whatever step is taken, a delayed observer in game is sent the turns that
      fall due ahead of the flares that do. */
  lemma StepTurnsFirst(s: RelayState, step: Step, p: Peer)
    requires RunInv(s) && p in s.sessions && s.sessions[p].role.InGame? && s.sessions[p].delayed
    requires Stays(step, p)
    ensures var s' := Next(s, step); p in s.out && p in s'.out && AddsTurnsFirst(s.out[p], s'.out[p])
  {
    InGameWatches(s, p);
    hide RunInv, Watching, AddsTurnsFirst, ReleaseTurns, Gone, SentTo;
    match step {
      case SealUp(peer, turn, length, pace) => SealTurnsFirst(s, p, peer, turn, length, pace);
      case Tick(length, pace) => ReleaseTurnsFirst(s, p, length, pace);
      case Unhold(length, pace) => UnholdTurnsFirst(s, p, length, pace);
      case Depart(peer, length, pace) => DepartTurnsFirst(s, peer, p, length, pace);
      case Deliver(joiner, lo, hi, snapshot) => DeliverTurnsFirst(s, p, joiner, lo, hi, snapshot);
      case Signal(peer, flare) => SignalTurnsFirst(s, p, peer, flare);
      case _ => OthersTurnsFirst(s, step, p);
    }
  }

  lemma UnholdTurnsFirst(s: RelayState, p: Peer, length: nat, pace: Option<nat>)
    requires Watching(s, p) && s.sessions[p].delayed
    ensures var s' := Next(s, Unhold(length, pace)); p in s'.out && AddsTurnsFirst(s.out[p], s'.out[p])
  {
    hide ReleaseTurns, AddsTurnsFirst;
    ReleaseTurnsFirst(s.(held := false), p, length, pace);
  }
}
