/** The replay file of a match: the part of the log a one-shot run needs, and
    the lines written from it. */
module Replays {
  import opened Prelude
  import opened Turns
  import opened MatchLogs

  datatype Line =
    | TurnLine(turn: nat, length: nat)
    | CommandLine(player: int, data: Bytes)
    | EndLine
    | HashLine(full: bool, hash: Hash)

  /** What a run after turn `first` is given: the lengths of the turns that
      follow, their commands in order, and the hashes to check itself by. */
  datatype Request = Request(
    first: nat, lengths: seq<nat>, commands: seq<Command>, hashes: seq<(nat, Hash)>)

  // ---- commands in the order clients run them ----

  function Inserted(c: Command, cs: seq<Command>): seq<Command> {
    if cs == [] || c.client <= cs[0].client then [c] + cs else [cs[0]] + Inserted(c, cs[1..])
  }

  /** By client, each client's in the order sent. */
  function ByClient(cs: seq<Command>): seq<Command> {
    if cs == [] then [] else Inserted(cs[0], ByClient(cs[1..]))
  }

  function Of(cs: seq<Command>, client: nat): seq<Command> {
    if cs == [] then [] else (if cs[0].client == client then [cs[0]] else []) + Of(cs[1..], client)
  }

  ghost predicate ClientsAscend(cs: seq<Command>) {
    forall i, j | 0 <= i < j < |cs| :: cs[i].client <= cs[j].client
  }

  lemma {:induction false} InsertedAscends(c: Command, cs: seq<Command>)
    requires ClientsAscend(cs)
    ensures ClientsAscend(Inserted(c, cs))
    decreases |cs|
  {
    if cs != [] && c.client > cs[0].client {
      InsertedAscends(c, cs[1..]);
      AllAtLeast(c, cs[1..], cs[0].client);
      var rest := Inserted(c, cs[1..]);
      assert forall i | 0 <= i < |rest| :: rest[i] in rest;
    }
  }

  lemma {:induction false} InsertedHas(c: Command, cs: seq<Command>)
    ensures multiset(Inserted(c, cs)) == multiset{c} + multiset(cs)
    decreases |cs|
  {
    if cs != [] && c.client > cs[0].client {
      InsertedHas(c, cs[1..]);
      assert cs == [cs[0]] + cs[1..];
    }
  }

  lemma {:induction false} InsertedOf(c: Command, cs: seq<Command>, client: nat)
    ensures Of(Inserted(c, cs), client) == (if c.client == client then [c] else []) + Of(cs, client)
    decreases |cs|
  {
    if cs == [] || c.client <= cs[0].client {
      assert Inserted(c, cs) == [c] + cs;
      hide Inserted;
      assert ([c] + cs)[1..] == cs;
    } else {
      assert Inserted(c, cs) == [cs[0]] + Inserted(c, cs[1..]);
      InsertedOf(c, cs[1..], client);
      var rest := Inserted(c, cs[1..]);
      hide Inserted;
      assert ([cs[0]] + rest)[1..] == rest;
      if c.client == client {
        assert Of(cs, client) == Of(cs[1..], client);
        assert Of([cs[0]] + rest, client) == Of(rest, client);
      } else {
        assert [] + Of(cs, client) == Of(cs, client);
        assert [] + Of(cs[1..], client) == Of(cs[1..], client);
      }
    }
  }

  lemma {:induction false} AllAtLeast(c: Command, cs: seq<Command>, client: nat)
    requires c.client >= client && forall d | d in cs :: d.client >= client
    ensures forall d | d in Inserted(c, cs) :: d.client >= client
    decreases |cs|
  {
    if cs != [] && c.client > cs[0].client {
      AllAtLeast(c, cs[1..], client);
    }
  }

  /** The order is a permutation, ascending by client, and stable: each client's
      own commands stay in the order it sent them. */
  lemma {:induction false} ByClientIs(cs: seq<Command>, client: nat)
    ensures ClientsAscend(ByClient(cs)) && multiset(ByClient(cs)) == multiset(cs)
    ensures Of(ByClient(cs), client) == Of(cs, client)
    decreases |cs|
  {
    if cs != [] {
      ByClientIs(cs[1..], client);
      InsertedAscends(cs[0], ByClient(cs[1..]));
      InsertedHas(cs[0], ByClient(cs[1..]));
      InsertedOf(cs[0], ByClient(cs[1..]), client);
      assert cs == [cs[0]] + cs[1..];
    }
  }

  // ---- the file, as it should be ----

  function CommandLines(cs: seq<Command>): seq<Line> {
    if cs == [] then [] else [CommandLine(cs[0].player, cs[0].data)] + CommandLines(cs[1..])
  }

  function HashLines(references: map<nat, Hash>, turn: nat): seq<Line> {
    if turn in references then [HashLine(NeedsFullHash(turn), references[turn])] else []
  }

  /** One turn: its length, its commands by client, and the hash the players
      agreed on for it. */
  function TurnBlock(log: Log, turn: nat, default: nat, references: map<nat, Hash>): seq<Line>
    requires turn > 0
  {
    [TurnLine(turn - 1, LengthOr(log, turn, default))] + CommandLines(ByClient(For(log, turn)))
    + [EndLine] + HashLines(references, turn)
  }

  /** The turns after `from` up to `upTo`. */
  function File(log: Log, from: nat, upTo: nat, default: nat, references: map<nat, Hash>): seq<Line>
    decreases SaturatingSub(upTo, from)
  {
    if from >= upTo then []
    else TurnBlock(log, from + 1, default, references) + File(log, from + 1, upTo, default, references)
  }

  /** A replay to a checkpoint and one from it on are together the whole one. */
  lemma {:induction false} FilesCompose(log: Log, from: nat, at: nat, upTo: nat, default: nat,
                                        references: map<nat, Hash>)
    requires from <= at <= upTo
    ensures File(log, from, upTo, default, references)
         == File(log, from, at, default, references) + File(log, at, upTo, default, references)
    decreases at - from
  {
    hide TurnBlock;
    if from < at {
      FilesCompose(log, from + 1, at, upTo, default, references);
      var block := TurnBlock(log, from + 1, default, references);
      assert block + (File(log, from + 1, at, default, references) + File(log, at, upTo, default, references))
          == block + File(log, from + 1, at, default, references) + File(log, at, upTo, default, references);
    }
  }

  // ---- the request ----

  function Lengths(log: Log, from: nat, upTo: nat, default: nat): seq<nat>
    decreases SaturatingSub(upTo, from)
  {
    if from >= upTo then [] else [LengthOr(log, from + 1, default)] + Lengths(log, from + 1, upTo, default)
  }

  function CommandsIn(log: Log, from: nat, upTo: nat): seq<Command>
    decreases SaturatingSub(upTo, from)
  {
    if from >= upTo then [] else For(log, from + 1) + CommandsIn(log, from + 1, upTo)
  }

  function HashesIn(references: map<nat, Hash>, from: nat, upTo: nat): seq<(nat, Hash)>
    decreases SaturatingSub(upTo, from)
  {
    if from >= upTo then []
    else (if from + 1 in references then [(from + 1, references[from + 1])] else [])
         + HashesIn(references, from + 1, upTo)
  }

  function RequestFor(log: Log, from: nat, upTo: nat, default: nat, references: map<nat, Hash>): Request {
    Request(from, Lengths(log, from, upTo, default), CommandsIn(log, from, upTo),
            HashesIn(references, from, upTo))
  }

  method MatchRecordFrom(log: MatchLog, from: nat, upTo: nat, default: nat, references: map<nat, Hash>)
    returns (r: Request)
    ensures r == RequestFor(log.State(), from, upTo, default, references)
  {
    var lengths := CollectLengths(log, from, upTo, default);
    var commands := CollectCommands(log, from, upTo);
    r := Request(from, lengths, commands, HashesIn(references, from, upTo));
  }

  method CollectLengths(log: MatchLog, from: nat, upTo: nat, default: nat) returns (lengths: seq<nat>)
    ensures lengths == Lengths(log.State(), from, upTo, default)
  {
    lengths := [];
    ghost var l := log.State();
    var t := from;
    assert [] + Lengths(l, from, upTo, default) == Lengths(l, from, upTo, default);
    while t < upTo
      invariant t == from || from < t <= upTo
      invariant lengths + Lengths(l, t, upTo, default) == Lengths(l, from, upTo, default)
    {
      var length := LengthOr(log.State(), t + 1, default);
      ghost var rest := Lengths(l, t + 1, upTo, default);
      assert lengths + ([length] + rest) == lengths + [length] + rest;
      lengths := lengths + [length];
      t := t + 1;
    }
    assert lengths + [] == lengths;
  }

  method CollectCommands(log: MatchLog, from: nat, upTo: nat) returns (commands: seq<Command>)
    ensures commands == CommandsIn(log.State(), from, upTo)
  {
    commands := [];
    ghost var l := log.State();
    var t := from;
    assert [] + CommandsIn(l, from, upTo) == CommandsIn(l, from, upTo);
    while t < upTo
      invariant t == from || from < t <= upTo
      invariant commands + CommandsIn(l, t, upTo) == CommandsIn(l, from, upTo)
    {
      var more := For(log.State(), t + 1);
      ghost var rest := CommandsIn(l, t + 1, upTo);
      assert commands + (more + rest) == commands + more + rest;
      commands := commands + more;
      t := t + 1;
    }
    assert commands + [] == commands;
  }

  // ---- writing it ----

  /** How many commands at the front are for the turn. */
  function Leading(cs: seq<Command>, turn: nat): (n: nat)
    ensures n <= |cs|
  {
    if cs == [] || cs[0].turn != turn then 0 else 1 + Leading(cs[1..], turn)
  }

  /** How many hashes at the front are due by the turn. */
  function Due(hashes: seq<(nat, Hash)>, turn: nat): (n: nat)
    ensures n <= |hashes|
  {
    if hashes == [] || hashes[0].0 > turn then 0 else 1 + Due(hashes[1..], turn)
  }

  /** Those of them that are for this very turn. */
  function DueLines(hashes: seq<(nat, Hash)>, turn: nat): seq<Line> {
    if hashes == [] || hashes[0].0 > turn then []
    else (if hashes[0].0 == turn then [HashLine(NeedsFullHash(turn), hashes[0].1)] else [])
         + DueLines(hashes[1..], turn)
  }

  /** The lines of the turns after `first`, each taking what is its own from the
      front of the commands and of the hashes. */
  function Lines(first: nat, lengths: seq<nat>, commands: seq<Command>, hashes: seq<(nat, Hash)>): seq<Line>
    decreases |lengths|
  {
    if lengths == [] then []
    else
      var turn := first + 1;
      [TurnLine(first, lengths[0])] + CommandLines(ByClient(commands[..Leading(commands, turn)]))
      + [EndLine] + DueLines(hashes, turn)
      + Lines(turn, lengths[1..], commands[Leading(commands, turn)..], hashes[Due(hashes, turn)..])
  }

  /** What is still to be written. */
  function Unwritten(r: Request, index: nat, idx: nat, hashIdx: nat): seq<Line>
    requires index <= |r.lengths| && idx <= |r.commands| && hashIdx <= |r.hashes|
  {
    Lines(r.first + index, r.lengths[index..], r.commands[idx..], r.hashes[hashIdx..])
  }

  lemma UnwrittenEnds(r: Request, idx: nat, hashIdx: nat)
    requires idx <= |r.commands| && hashIdx <= |r.hashes|
    ensures Unwritten(r, 0, 0, 0) == Lines(r.first, r.lengths, r.commands, r.hashes)
    ensures Unwritten(r, |r.lengths|, idx, hashIdx) == []
  {
    assert r.lengths[0..] == r.lengths && r.commands[0..] == r.commands && r.hashes[0..] == r.hashes;
  }

  method WriteCommandsTxt(request: Request) returns (out: seq<Line>)
    ensures out == Lines(request.first, request.lengths, request.commands, request.hashes)
  {
    hide Lines, Unwritten;
    out := [];
    var idx, hashIdx, index := 0, 0, 0;
    UnwrittenEnds(request, 0, 0);
    ghost var all := Unwritten(request, 0, 0, 0);
    assert out + all == all;
    while index < |request.lengths|
      invariant 0 <= index <= |request.lengths| && 0 <= idx <= |request.commands|
      invariant 0 <= hashIdx <= |request.hashes|
      invariant out + Unwritten(request, index, idx, hashIdx) == all
    {
      out, idx, hashIdx := WriteTurn(out, request, index, idx, hashIdx);
      index := index + 1;
    }
    UnwrittenEnds(request, idx, hashIdx);
    assert out + [] == out;
  }

  method WriteTurn(before: seq<Line>, request: Request, index: nat, idx: nat, hashIdx: nat)
    returns (out: seq<Line>, end: nat, hashEnd: nat)
    requires index < |request.lengths| && idx <= |request.commands| && hashIdx <= |request.hashes|
    ensures idx <= end <= |request.commands| && hashIdx <= hashEnd <= |request.hashes|
    ensures before + Unwritten(request, index, idx, hashIdx)
         == out + Unwritten(request, index + 1, end, hashEnd)
  {
    hide Lines, ByClient, CommandLines, DueLines, Leading, Due;
    var wireTurn := request.first + index + 1;
    var turnLine := TurnLine(wireTurn - 1, request.lengths[index]);
    out := before + [turnLine];
    end := SkipTurn(request.commands, idx, wireTurn);
    var ordered := ByClient(request.commands[idx..end]);
    out := WriteCommands(out, ordered);
    out := out + [EndLine];
    out, hashEnd := WriteHashes(out, request.hashes, hashIdx, wireTurn);
    OneTurn(request, index, idx, end, hashIdx, hashEnd);
    Regroup(before, [turnLine], CommandLines(ordered), [EndLine], DueLines(request.hashes[hashIdx..], wireTurn),
            Lines(wireTurn, request.lengths[index + 1..], request.commands[end..], request.hashes[hashEnd..]));
  }

  lemma Regroup(a: seq<Line>, b: seq<Line>, c: seq<Line>, d: seq<Line>, e: seq<Line>, f: seq<Line>)
    ensures a + (b + c + d + e + f) == a + b + c + d + e + f
  {
  }

  lemma OneTurn(r: Request, index: nat, idx: nat, end: nat, hashIdx: nat, hashEnd: nat)
    requires index < |r.lengths| && idx <= end <= |r.commands| && hashIdx <= hashEnd <= |r.hashes|
    requires end == idx + Leading(r.commands[idx..], r.first + index + 1)
    requires hashEnd == hashIdx + Due(r.hashes[hashIdx..], r.first + index + 1)
    ensures var turn := r.first + index + 1;
            Lines(turn - 1, r.lengths[index..], r.commands[idx..], r.hashes[hashIdx..])
            == [TurnLine(turn - 1, r.lengths[index])] + CommandLines(ByClient(r.commands[idx..end]))
               + [EndLine] + DueLines(r.hashes[hashIdx..], turn)
               + Lines(turn, r.lengths[index + 1..], r.commands[end..], r.hashes[hashEnd..])
  {
    assert r.lengths[index..][1..] == r.lengths[index + 1..];
    assert r.commands[idx..][..end - idx] == r.commands[idx..end];
    assert r.commands[idx..][end - idx..] == r.commands[end..];
    assert r.hashes[hashIdx..][hashEnd - hashIdx..] == r.hashes[hashEnd..];
  }

  method SkipTurn(commands: seq<Command>, start: nat, turn: nat) returns (idx: nat)
    requires start <= |commands|
    ensures start <= idx <= |commands| && idx == start + Leading(commands[start..], turn)
  {
    idx := start;
    while idx < |commands| && commands[idx].turn == turn
      invariant start <= idx <= |commands|
      invariant start + Leading(commands[start..], turn) == idx + Leading(commands[idx..], turn)
    {
      assert commands[idx..][1..] == commands[idx + 1..];
      idx := idx + 1;
    }
  }

  method WriteCommands(before: seq<Line>, ordered: seq<Command>) returns (out: seq<Line>)
    ensures out == before + CommandLines(ordered)
  {
    out := before;
    var i := 0;
    assert ordered[0..] == ordered;
    while i < |ordered|
      invariant 0 <= i <= |ordered| && out + CommandLines(ordered[i..]) == before + CommandLines(ordered)
    {
      var line := CommandLine(ordered[i].player, ordered[i].data);
      assert ordered[i..][1..] == ordered[i + 1..];
      assert out + ([line] + CommandLines(ordered[i + 1..])) == out + [line] + CommandLines(ordered[i + 1..]);
      out := out + [line];
      i := i + 1;
    }
    assert out + [] == out;
  }

  method WriteHashes(before: seq<Line>, hashes: seq<(nat, Hash)>, start: nat, turn: nat)
    returns (out: seq<Line>, idx: nat)
    requires start <= |hashes|
    ensures start <= idx <= |hashes| && idx == start + Due(hashes[start..], turn)
    ensures out == before + DueLines(hashes[start..], turn)
  {
    out, idx := before, start;
    while idx < |hashes| && hashes[idx].0 <= turn
      invariant start <= idx <= |hashes|
      invariant start + Due(hashes[start..], turn) == idx + Due(hashes[idx..], turn)
      invariant out + DueLines(hashes[idx..], turn) == before + DueLines(hashes[start..], turn)
    {
      var (of, hash) := hashes[idx];
      assert hashes[idx..][1..] == hashes[idx + 1..];
      ghost var rest := DueLines(hashes[idx + 1..], turn);
      idx := idx + 1;
      if of == turn {
        var line := HashLine(NeedsFullHash(turn), hash);
        assert out + ([line] + rest) == out + [line] + rest;
        out := out + [line];
      } else {
        assert [] + rest == rest;
      }
    }
    assert out + [] == out;
  }

  // ---- the file is the log ----

  lemma {:induction false} LeadingIs(mine: seq<Command>, rest: seq<Command>, turn: nat)
    requires forall c | c in mine :: c.turn == turn
    requires rest == [] || rest[0].turn != turn
    ensures Leading(mine + rest, turn) == |mine|
    decreases |mine|
  {
    if mine == [] {
      assert mine + rest == rest;
    } else {
      LeadingIs(mine[1..], rest, turn);
      assert (mine + rest)[1..] == mine[1..] + rest;
    }
  }

  lemma {:induction false} LaterCommands(log: Log, from: nat, upTo: nat)
    requires WellFiled(log)
    ensures forall c | c in CommandsIn(log, from, upTo) :: c.turn > from
    decreases SaturatingSub(upTo, from)
  {
    if from < upTo {
      LaterCommands(log, from + 1, upTo);
    }
  }

  lemma {:induction false} LaterHashes(references: map<nat, Hash>, from: nat, upTo: nat)
    ensures forall h | h in HashesIn(references, from, upTo) :: h.0 > from
    decreases SaturatingSub(upTo, from)
  {
    if from < upTo {
      LaterHashes(references, from + 1, upTo);
    }
  }

  lemma HashesStep(references: map<nat, Hash>, from: nat, upTo: nat)
    requires from < upTo
    ensures var hashes := HashesIn(references, from, upTo);
            && DueLines(hashes, from + 1) == HashLines(references, from + 1)
            && hashes[Due(hashes, from + 1)..] == HashesIn(references, from + 1, upTo)
  {
    var turn, hashes, rest := from + 1, HashesIn(references, from, upTo), HashesIn(references, from + 1, upTo);
    LaterHashes(references, turn, upTo);
    assert rest != [] ==> rest[0] in rest;
    assert Due(rest, turn) == 0 && DueLines(rest, turn) == [];
    if turn in references {
      assert hashes[1..] == rest;
      assert Due(hashes, turn) == 1;
    } else {
      assert hashes == rest;
    }
  }

  /** Every command logged for the turns after `from` up to `upTo` is written
      once, under its turn, and every agreed hash right after its turn. */
  lemma {:induction false} FileIsLog(log: Log, from: nat, upTo: nat, default: nat, references: map<nat, Hash>)
    requires WellFiled(log)
    ensures Lines(from, Lengths(log, from, upTo, default), CommandsIn(log, from, upTo),
                  HashesIn(references, from, upTo))
         == File(log, from, upTo, default, references)
    decreases SaturatingSub(upTo, from)
  {
    if from < upTo {
      FileStep(log, from, upTo, default, references);
      hide Lines, File, TurnBlock, Lengths, CommandsIn, HashesIn;
      FileIsLog(log, from + 1, upTo, default, references);
    }
  }

  lemma FileStep(log: Log, from: nat, upTo: nat, default: nat, references: map<nat, Hash>)
    requires WellFiled(log) && from < upTo
    ensures Lines(from, Lengths(log, from, upTo, default), CommandsIn(log, from, upTo),
                  HashesIn(references, from, upTo))
         == TurnBlock(log, from + 1, default, references)
            + Lines(from + 1, Lengths(log, from + 1, upTo, default), CommandsIn(log, from + 1, upTo),
                    HashesIn(references, from + 1, upTo))
    ensures File(log, from, upTo, default, references)
         == TurnBlock(log, from + 1, default, references) + File(log, from + 1, upTo, default, references)
  {
    hide ByClient, CommandLines, HashLines, DueLines, Leading, Due, HashesIn;
    var turn := from + 1;
    var mine, later := For(log, turn), CommandsIn(log, turn, upTo);
    LaterCommands(log, turn, upTo);
    assert later != [] ==> later[0] in later;
    LeadingIs(mine, later, turn);
    assert CommandsIn(log, from, upTo) == mine + later;
    assert (mine + later)[..|mine|] == mine && (mine + later)[|mine|..] == later;
    HashesStep(references, from, upTo);
    var lengths := Lengths(log, from, upTo, default);
    assert lengths[0] == LengthOr(log, turn, default) && lengths[1..] == Lengths(log, turn, upTo, default);
  }

  /** The file a request from the log gives. */
  function Written(r: Request): seq<Line> { Lines(r.first, r.lengths, r.commands, r.hashes) }

  /** So a replay from a checkpoint on is the tail of the replay from the start. */
  lemma ReplaysCompose(log: Log, base: nat, upTo: nat, default: nat, references: map<nat, Hash>)
    requires WellFiled(log) && base <= upTo
    ensures Written(RequestFor(log, 0, upTo, default, references))
         == Written(RequestFor(log, 0, base, default, references))
            + Written(RequestFor(log, base, upTo, default, references))
  {
    FileIsLog(log, 0, upTo, default, references);
    FileIsLog(log, 0, base, default, references);
    FileIsLog(log, base, upTo, default, references);
    FilesCompose(log, 0, base, upTo, default, references);
  }
}
