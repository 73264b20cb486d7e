/** The delayed observers' feed: how far it has got, the flares it holds for
    later turns, and the joiners it makes wait. */
module ObserverFeeds {
  import opened Prelude
  import opened Turns
  import opened MatchLogs

  datatype HeldJoin = HeldJoin(bound: nat, snapshot: Bytes)

  datatype Feed = Feed(
    delay: nat, head: nat, flares: map<nat, seq<Flare>>, joins: map<Peer, HeldJoin>)

  function NewFeed(delay: nat): Feed { Feed(delay, INITIAL_READY_TURN, map[], map[]) }

  function ResumedFeed(delay: nat, head: nat): Feed {
    NewFeed(delay).(head := Max(head, INITIAL_READY_TURN))
  }

  function Target(f: Feed, live: nat, draining: bool): nat {
    if draining then live else SaturatingSub(live, f.delay)
  }

  function Advanced(f: Feed, live: nat, draining: bool): Feed {
    f.(head := Max(f.head, Target(f, live, draining)))
  }

  function Queued(f: Feed, turn: nat, flare: Flare): Feed {
    f.(flares := f.flares[turn := FlaresAt(f, turn) + [flare]])
  }

  function FlaresAt(f: Feed, turn: nat): seq<Flare> {
    if turn in f.flares then f.flares[turn] else []
  }

  function DueTurns(f: Feed): set<nat> { set t | t in f.flares && t <= f.head }

  function Collect(flares: map<nat, seq<Flare>>, turns: seq<nat>): seq<Flare>
    requires forall t | t in turns :: t in flares
  {
    if turns == [] then [] else flares[turns[0]] + Collect(flares, turns[1..])
  }

  /** The due flares, by turn and in the order they were raised. */
  function DueFlares(f: Feed): seq<Flare> { Collect(f.flares, Sorted(DueTurns(f))) }

  function Flushed(f: Feed): Feed {
    f.(flares := map t | t in f.flares && t > f.head :: f.flares[t])
  }

  function Holding(f: Feed, joiner: Peer, bound: nat, snapshot: Bytes): Feed {
    f.(joins := f.joins[joiner := HeldJoin(bound, snapshot)])
  }

  function DueJoins(f: Feed): map<Peer, HeldJoin> {
    map p | p in f.joins && f.joins[p].bound <= f.head :: f.joins[p]
  }

  function Admitted(f: Feed): Feed { f.(joins := f.joins - DueJoins(f).Keys) }

  function Released(f: Feed, peer: Peer): Feed { f.(joins := f.joins - {peer}) }

  class ObserverFeed {
    const delay: nat
    var head: nat
    var flares: map<nat, seq<Flare>>
    var joins: map<Peer, HeldJoin>

    function State(): Feed
      reads this
    {
      Feed(delay, head, flares, joins)
    }

    constructor (delay: nat)
      ensures State() == NewFeed(delay)
    {
      this.delay := delay;
      head, flares, joins := INITIAL_READY_TURN, map[], map[];
    }

    constructor Resume(delay: nat, head: nat)
      ensures State() == ResumedFeed(delay, head)
    {
      this.delay := delay;
      this.head := Max(head, INITIAL_READY_TURN);
      flares, joins := map[], map[];
    }

    /** Moves the head on; the turns past `from` have become due. */
    method Advance(live: nat, draining: bool) returns (from: nat)
      modifies this`head
      ensures from == old(head) && State() == Advanced(old(State()), live, draining)
    {
      var target := if draining then live else SaturatingSub(live, delay);
      from := head;
      head := Max(head, target);
    }

    method QueueFlare(turn: nat, flare: Flare)
      modifies this`flares
      ensures State() == Queued(old(State()), turn, flare)
    {
      var at := if turn in flares then flares[turn] else [];
      flares := flares[turn := at + [flare]];
    }

    method TakeDueFlares() returns (due: seq<Flare>)
      modifies this`flares
      ensures due == DueFlares(old(State())) && State() == Flushed(old(State()))
    {
      var turns := Sorted(DueTurns(State()));
      due := [];
      var i := 0;
      assert turns[0..] == turns;
      while i < |turns|
        invariant 0 <= i <= |turns|
        invariant forall t | t in turns :: t in flares
        invariant Collect(flares, turns) == due + Collect(flares, turns[i..])
      {
        assert turns[i..][1..] == turns[i + 1..];
        due := due + flares[turns[i]];
        i := i + 1;
      }
      flares := map t | t in flares && t > head :: flares[t];
    }

    method HoldJoin(joiner: Peer, bound: nat, snapshot: Bytes)
      modifies this`joins
      ensures State() == Holding(old(State()), joiner, bound, snapshot)
    {
      joins := joins[joiner := HeldJoin(bound, snapshot)];
    }

    method TakeDueJoins() returns (due: map<Peer, HeldJoin>)
      modifies this`joins
      ensures due == DueJoins(old(State())) && State() == Admitted(old(State()))
    {
      due := map p | p in joins && joins[p].bound <= head :: joins[p];
      joins := joins - due.Keys;
    }

    method Forget(peer: Peer)
      modifies this`joins
      ensures State() == Released(old(State()), peer)
    {
      joins := joins - {peer};
    }
  }
}
