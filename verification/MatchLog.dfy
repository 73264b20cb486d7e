/** Commands, the match log, and the turn stream a client is sent from it. */
module MatchLogs {
  import opened Prelude

  datatype Command = Command(client: nat, player: int, turn: nat, data: Bytes)

  datatype Flare = Flare(sender: nat, x: int, y: int)

  datatype Msg =
    | Cmd(command: Command)
    | Seal(turn: nat, length: nat)
    | Loaded(turn: nat)
    | Join(snapshot: Bytes)
    | Flared(flare: Flare)
  {
    // Only these two make up the turn stream.
    predicate IsGame() { Cmd? || Seal? }
  }

  datatype Log = Log(commands: map<nat, seq<Command>>, lengths: map<nat, nat>)

  const EmptyLog: Log := Log(map[], map[])

  function For(log: Log, turn: nat): seq<Command> {
    if turn in log.commands then log.commands[turn] else []
  }

  function LengthOr(log: Log, turn: nat, default: nat): nat {
    if turn in log.lengths then log.lengths[turn] else default
  }

  function LastStored(log: Log): nat { Greatest(log.commands.Keys) }

  function Recorded(log: Log, c: Command): Log {
    log.(commands := log.commands[c.turn := For(log, c.turn) + [c]])
  }

  function Lengthened(log: Log, turn: nat, length: nat): Log {
    log.(lengths := log.lengths[turn := length])
  }

  /** Every command is filed under its own turn. */
  ghost predicate WellFiled(log: Log) {
    forall t, c | t in log.commands && c in log.commands[t] :: c.turn == t
  }

  class MatchLog {
    var commands: map<nat, seq<Command>>
    var lengths: map<nat, nat>

    function State(): Log
      reads this
    {
      Log(commands, lengths)
    }

    constructor ()
      ensures State() == EmptyLog
    {
      commands, lengths := map[], map[];
    }

    method RecordCommand(c: Command)
      modifies this`commands
      ensures State() == Recorded(old(State()), c)
    {
      var filed := if c.turn in commands then commands[c.turn] else [];
      commands := commands[c.turn := filed + [c]];
    }

    method RecordTurnLength(turn: nat, length: nat)
      modifies this`lengths
      ensures State() == Lengthened(old(State()), turn, length)
    {
      lengths := lengths[turn := length];
    }
  }

  // ---- the turn stream ----

  function AsMsgs(cs: seq<Command>): seq<Msg> {
    seq(|cs|, i requires 0 <= i < |cs| => Cmd(cs[i]))
  }

  function Block(log: Log, turn: nat, default: nat): seq<Msg> {
    AsMsgs(For(log, turn)) + [Seal(turn, LengthOr(log, turn, default))]
  }

  /** Turns from, exclusive, to upTo, inclusive: each turn's commands, then its seal. */
  function Stream(log: Log, from: nat, upTo: nat, default: nat): seq<Msg> {
    if upTo <= from then [] else Stream(log, from, upTo - 1, default) + Block(log, upTo, default)
  }

  /** What a joiner is replayed: sealed turns whole, later ones unsealed. */
  function Replay(log: Log, from: nat, ready: nat, upTo: nat, default: nat): seq<Msg> {
    if upTo <= from then []
    else
      Replay(log, from, ready, upTo - 1, default)
      + (if upTo <= ready then Block(log, upTo, default) else AsMsgs(For(log, upTo)))
  }

  /** The turn stream within everything a peer was sent. */
  function Game(ms: seq<Msg>): seq<Msg> {
    if ms == [] then []
    else Game(ms[..|ms| - 1]) + (if ms[|ms| - 1].IsGame() then [ms[|ms| - 1]] else [])
  }

  function SealsOf(ms: seq<Msg>): seq<(nat, nat)> {
    if ms == [] then []
    else SealsOf(ms[..|ms| - 1])
         + (if ms[|ms| - 1].Seal? then [(ms[|ms| - 1].turn, ms[|ms| - 1].length)] else [])
  }

  function CommandsOf(ms: seq<Msg>, turn: nat): seq<Command> {
    if ms == [] then []
    else CommandsOf(ms[..|ms| - 1], turn)
         + (if ms[|ms| - 1].Cmd? && ms[|ms| - 1].command.turn == turn
            then [ms[|ms| - 1].command] else [])
  }

  function SealAt(log: Log, turn: nat, default: nat): (nat, nat) {
    (turn, LengthOr(log, turn, default))
  }

  function SealRun(log: Log, from: nat, upTo: nat, default: nat): seq<(nat, nat)> {
    if upTo <= from then []
    else SealRun(log, from, upTo - 1, default) + [SealAt(log, upTo, default)]
  }

  lemma {:induction false} SealRunSame(a: Log, b: Log, from: nat, upTo: nat, default: nat)
    requires forall t | from < t <= upTo :: LengthOr(a, t, default) == LengthOr(b, t, default)
    ensures SealRun(a, from, upTo, default) == SealRun(b, from, upTo, default)
    decreases upTo
  {
    if upTo > from {
      SealRunSame(a, b, from, upTo - 1, default);
    }
  }

  lemma {:induction false} SealRunJoin(log: Log, from: nat, mid: nat, upTo: nat, default: nat)
    requires from <= mid <= upTo
    ensures SealRun(log, from, upTo, default)
         == SealRun(log, from, mid, default) + SealRun(log, mid, upTo, default)
    decreases upTo
  {
    if upTo > mid {
      SealRunJoin(log, from, mid, upTo - 1, default);
      var a, b, last := SealRun(log, from, mid, default), SealRun(log, mid, upTo - 1, default),
                        SealAt(log, upTo, default);
      assert SealRun(log, from, upTo, default) == a + b + [last] && SealRun(log, mid, upTo, default) == b + [last];
      hide SealRun;
      assert a + b + [last] == a + (b + [last]);
    } else {
      assert SealRun(log, mid, upTo, default) == [];
    }
  }

  lemma {:induction false} SealRunLength(log: Log, from: nat, upTo: nat, default: nat)
    ensures |SealRun(log, from, upTo, default)| == SaturatingSub(upTo, from)
    decreases upTo
  {
    if upTo > from {
      SealRunLength(log, from, upTo - 1, default);
    }
  }

  /** Before the k-th seal after `from`, no command is for a turn already sealed. */
  ghost predicate Timely(ms: seq<Msg>, from: nat) {
    forall i | 0 <= i < |ms| && ms[i].Cmd? :: ms[i].command.turn > from + |SealsOf(ms[..i])|
  }

  lemma {:induction false} GameAppend(a: seq<Msg>, b: seq<Msg>)
    ensures Game(a + b) == Game(a) + Game(b)
    decreases |b|
  {
    if b == [] {
      assert a + b == a;
    } else {
      var front := b[..|b| - 1];
      assert (a + b)[..|a + b| - 1] == a + front;
      GameAppend(a, front);
    }
  }

  lemma {:induction false} GameIsGame(ms: seq<Msg>)
    requires forall m | m in ms :: m.IsGame()
    ensures Game(ms) == ms
    decreases |ms|
  {
    if ms != [] {
      GameIsGame(ms[..|ms| - 1]);
      assert ms == ms[..|ms| - 1] + [ms[|ms| - 1]];
    }
  }

  lemma {:induction false} GameOfOther(ms: seq<Msg>)
    requires forall m | m in ms :: !m.IsGame()
    ensures Game(ms) == []
    decreases |ms|
  {
    if ms != [] {
      GameOfOther(ms[..|ms| - 1]);
    }
  }

  lemma {:induction false} SealsAppend(a: seq<Msg>, b: seq<Msg>)
    ensures SealsOf(a + b) == SealsOf(a) + SealsOf(b)
    decreases |b|
  {
    if b == [] {
      assert a + b == a;
    } else {
      assert (a + b)[..|a + b| - 1] == a + b[..|b| - 1];
      SealsAppend(a, b[..|b| - 1]);
    }
  }

  lemma {:induction false} CommandsAppend(a: seq<Msg>, b: seq<Msg>, turn: nat)
    ensures CommandsOf(a + b, turn) == CommandsOf(a, turn) + CommandsOf(b, turn)
    decreases |b|
  {
    if b == [] {
      assert a + b == a;
    } else {
      assert (a + b)[..|a + b| - 1] == a + b[..|b| - 1];
      CommandsAppend(a, b[..|b| - 1], turn);
    }
  }

  lemma TimelyAppend(a: seq<Msg>, b: seq<Msg>, from: nat)
    requires Timely(a, from) && Timely(b, from + |SealsOf(a)|)
    ensures Timely(a + b, from)
  {
    forall i | 0 <= i < |a + b| && (a + b)[i].Cmd?
      ensures (a + b)[i].command.turn > from + |SealsOf((a + b)[..i])|
    {
      if i < |a| {
        assert (a + b)[..i] == a[..i];
      } else {
        assert (a + b)[..i] == a + b[..i - |a|];
        SealsAppend(a, b[..i - |a|]);
        assert b[i - |a|].Cmd?;
      }
    }
  }

  lemma {:induction false} OfCommands(cs: seq<Command>, turn: nat)
    requires forall c | c in cs :: c.turn == turn
    ensures SealsOf(AsMsgs(cs)) == []
    ensures CommandsOf(AsMsgs(cs), turn) == cs
    ensures forall t: nat | t != turn :: CommandsOf(AsMsgs(cs), t) == []
    decreases |cs|
  {
    if cs != [] {
      var front := cs[..|cs| - 1];
      OfCommands(front, turn);
      assert AsMsgs(cs)[..|AsMsgs(cs)| - 1] == AsMsgs(front);
      assert cs == front + [cs[|cs| - 1]];
    }
  }

  lemma {:induction false} OfPrefix(cs: seq<Command>, i: nat)
    requires i <= |cs|
    ensures SealsOf(AsMsgs(cs)[..i]) == []
    decreases i
  {
    if i > 0 {
      OfPrefix(cs, i - 1);
      assert AsMsgs(cs)[..i][..i - 1] == AsMsgs(cs)[..i - 1];
    }
  }

  lemma TimelyCommands(cs: seq<Command>, from: nat)
    requires forall c | c in cs :: c.turn > from
    ensures Timely(AsMsgs(cs), from)
  {
    forall i | 0 <= i < |cs| ensures cs[i].turn > from + |SealsOf(AsMsgs(cs)[..i])| {
      OfPrefix(cs, i);
    }
  }

  /** A whole block: its own commands, in log order, all before its one seal. */
  lemma OfBlock(log: Log, turn: nat, default: nat)
    requires WellFiled(log) && turn > 0
    ensures SealsOf(Block(log, turn, default)) == [(turn, LengthOr(log, turn, default))]
    ensures CommandsOf(Block(log, turn, default), turn) == For(log, turn)
    ensures forall t: nat | t != turn :: CommandsOf(Block(log, turn, default), t) == []
  {
    OfCommands(For(log, turn), turn);
    assert Block(log, turn, default)[..|For(log, turn)|] == AsMsgs(For(log, turn));
  }

  lemma BlockTimely(log: Log, turn: nat, default: nat)
    requires WellFiled(log) && turn > 0
    ensures Timely(Block(log, turn, default), turn - 1)
  {
    hide SealsOf;
    var b, cs := Block(log, turn, default), AsMsgs(For(log, turn));
    TimelyCommands(For(log, turn), turn - 1);
    forall i | 0 <= i < |b| && b[i].Cmd? ensures b[i].command.turn > turn - 1 + |SealsOf(b[..i])| {
      assert b[..i] == cs[..i];
      assert cs[i] == b[i];
    }
  }

  /** What it means for a live client to be in step with the log: contiguous
      seals up to the released turn, each turn's commands exactly the log's in
      log order, and every one of them ahead of its seal. */
  ghost predicate InStep(g: seq<Msg>, from: nat, ready: nat, log: Log, default: nat) {
    && SealsOf(g) == SealRun(log, from, ready, default)
    && (forall t: nat :: CommandsOf(g, t) == if t > from then For(log, t) else [])
    && Timely(g, from)
  }

  ghost predicate InStepUpTo(g: seq<Msg>, from: nat, ready: nat, upTo: nat, log: Log, default: nat) {
    && SealsOf(g) == SealRun(log, from, Min(ready, upTo), default)
    && (forall t: nat :: CommandsOf(g, t) == if from < t <= upTo then For(log, t) else [])
    && Timely(g, from)
  }

  lemma UpToSealed(g: seq<Msg>, from: nat, ready: nat, turn: nat, log: Log, default: nat)
    requires WellFiled(log) && from < turn <= ready
    requires InStepUpTo(g, from, ready, turn - 1, log, default)
    ensures InStepUpTo(g + Block(log, turn, default), from, ready, turn, log, default)
  {
    var b := Block(log, turn, default);
    hide Block, WellFiled, For;
    OfBlock(log, turn, default);
    BlockTimely(log, turn, default);
    assert SealsOf(g + b) == SealRun(log, from, turn, default) by {
      SealsAppend(g, b);
    }
    assert Timely(g + b, from) by {
      SealRunLength(log, from, turn - 1, default);
      assert from + |SealsOf(g)| == turn - 1;
      TimelyAppend(g, b, from);
    }
    forall t: nat ensures CommandsOf(g + b, t) == if from < t <= turn then For(log, t) else [] {
      CommandsAppend(g, b, t);
    }
  }

  lemma UpToUnsealed(g: seq<Msg>, from: nat, ready: nat, turn: nat, log: Log, default: nat)
    requires WellFiled(log) && from <= ready < turn
    requires InStepUpTo(g, from, ready, turn - 1, log, default)
    ensures InStepUpTo(g + AsMsgs(For(log, turn)), from, ready, turn, log, default)
  {
    var b := AsMsgs(For(log, turn));
    OfCommands(For(log, turn), turn);
    SealsAppend(g, b);
    SealRunLength(log, from, ready, default);
    TimelyCommands(For(log, turn), ready);
    TimelyAppend(g, b, from);
    forall t: nat ensures CommandsOf(g + b, t) == if from < t <= turn then For(log, t) else [] {
      CommandsAppend(g, b, t);
    }
  }

  lemma {:induction false} ReplayUpTo(log: Log, from: nat, ready: nat, upTo: nat, default: nat)
    requires WellFiled(log) && from <= ready && from <= upTo
    ensures InStepUpTo(Replay(log, from, ready, upTo, default), from, ready, upTo, log, default)
    decreases upTo
  {
    if upTo > from {
      ReplayUpTo(log, from, ready, upTo - 1, default);
      if upTo <= ready {
        UpToSealed(Replay(log, from, ready, upTo - 1, default), from, ready, upTo, log, default);
      } else {
        UpToUnsealed(Replay(log, from, ready, upTo - 1, default), from, ready, upTo, log, default);
      }
    }
  }

  /** The replay leaves a joiner in step, provided it loaded a turn that was
      already released and the replay reaches everything stored. */
  lemma ReplayInStep(log: Log, from: nat, ready: nat, upTo: nat, default: nat)
    requires WellFiled(log) && from <= ready <= upTo
    requires forall t | t in log.commands :: t <= upTo
    ensures InStep(Replay(log, from, ready, upTo, default), from, ready, log, default)
  {
    ReplayUpTo(log, from, ready, upTo, default);
  }

  lemma OneMore(g: seq<Msg>, m: Msg, t: nat)
    ensures SealsOf(g + [m]) == SealsOf(g) + (if m.Seal? then [(m.turn, m.length)] else [])
    ensures CommandsOf(g + [m], t)
         == CommandsOf(g, t) + (if m.Cmd? && m.command.turn == t then [m.command] else [])
  {
    assert (g + [m])[..|g|] == g;
  }

  lemma TimelyCommand(g: seq<Msg>, from: nat, ready: nat, log: Log, default: nat, c: Command)
    requires InStep(g, from, ready, log, default) && from <= ready && c.turn > ready
    ensures Timely(g + [Cmd(c)], from)
  {
    SealRunLength(log, from, ready, default);
    assert AsMsgs([c]) == [Cmd(c)];
    TimelyCommands([c], ready);
    TimelyAppend(g, [Cmd(c)], from);
  }

  lemma InStepCommand(g: seq<Msg>, from: nat, ready: nat, log: Log, default: nat, c: Command)
    requires InStep(g, from, ready, log, default) && from <= ready && c.turn > ready
    ensures InStep(g + [Cmd(c)], from, ready, Recorded(log, c), default)
  {
    hide SealsOf, CommandsOf, SealRun, Timely;
    SealRunSame(log, Recorded(log, c), from, ready, default);
    OneMore(g, Cmd(c), 0);
    TimelyCommand(g, from, ready, log, default, c);
    forall t: nat
      ensures CommandsOf(g + [Cmd(c)], t) == if t > from then For(Recorded(log, c), t) else []
    {
      OneMore(g, Cmd(c), t);
    }
  }

  lemma InStepSeal(g: seq<Msg>, from: nat, ready: nat, log: Log, default: nat, length: nat)
    requires InStep(g, from, ready, log, default) && from <= ready
    requires ready + 1 !in log.lengths
    ensures InStep(g + [Seal(ready + 1, length)], from, ready + 1,
                   Lengthened(log, ready + 1, length), default)
  {
    var m, after := Seal(ready + 1, length), Lengthened(log, ready + 1, length);
    assert (g + [m])[..|g|] == g;
    TimelyAppend(g, [m], from);
    SealRunSame(log, after, from, ready, default);
    assert SealsOf(g + [m]) == SealRun(after, from, ready + 1, default);
    forall t: nat ensures CommandsOf(g + [m], t) == CommandsOf(g, t) && For(after, t) == For(log, t) {
    }
  }

  /** Two logs that agree on the turns in question give the same stream. */
  lemma {:induction false} StreamSame(a: Log, b: Log, from: nat, upTo: nat, default: nat)
    requires forall t | from < t <= upTo ::
      For(a, t) == For(b, t) && LengthOr(a, t, default) == LengthOr(b, t, default)
    ensures Stream(a, from, upTo, default) == Stream(b, from, upTo, default)
    decreases upTo
  {
    if upTo > from {
      StreamSame(a, b, from, upTo - 1, default);
    }
  }

  lemma {:induction false} StreamJoin(log: Log, from: nat, mid: nat, upTo: nat, default: nat)
    requires from <= mid <= upTo
    ensures Stream(log, from, upTo, default)
         == Stream(log, from, mid, default) + Stream(log, mid, upTo, default)
    decreases upTo
  {
    if upTo > mid {
      StreamJoin(log, from, mid, upTo - 1, default);
    } else {
      assert Stream(log, mid, upTo, default) == [];
    }
  }

  /** A replay from past the released turn has nothing sealed in it. */
  lemma {:induction false} UnsealedReplay(log: Log, from: nat, ready: nat, upTo: nat, default: nat)
    requires WellFiled(log) && from >= ready
    ensures SealsOf(Replay(log, from, ready, upTo, default)) == []
    decreases upTo
  {
    if upTo > from {
      UnsealedReplay(log, from, ready, upTo - 1, default);
      OfCommands(For(log, upTo), upTo);
      SealsAppend(Replay(log, from, ready, upTo - 1, default), AsMsgs(For(log, upTo)));
    }
  }

  lemma {:induction false} StreamIsGame(log: Log, from: nat, upTo: nat, default: nat)
    ensures forall m | m in Stream(log, from, upTo, default) :: m.IsGame()
    decreases upTo
  {
    if upTo > from {
      StreamIsGame(log, from, upTo - 1, default);
    }
  }

  lemma {:induction false} ReplayIsGame(log: Log, from: nat, ready: nat, upTo: nat, default: nat)
    ensures forall m | m in Replay(log, from, ready, upTo, default) :: m.IsGame()
    decreases upTo
  {
    if upTo > from {
      ReplayIsGame(log, from, ready, upTo - 1, default);
    }
  }

  /** The delayed replay is the live one cut at the turn it stops at. */
  lemma {:induction false} ReplayIsStream(log: Log, from: nat, ready: nat, upTo: nat, default: nat)
    requires upTo <= ready
    ensures Replay(log, from, ready, upTo, default) == Stream(log, from, upTo, default)
    decreases upTo
  {
    if upTo > from {
      ReplayIsStream(log, from, ready, upTo - 1, default);
    }
  }
}
