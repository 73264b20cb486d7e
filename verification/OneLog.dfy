/** The replay file, the checkpoints and the streams are views of one log: what
    a one-shot run is given is what every client in step was sent. */
module OneLog {
  import opened Prelude
  import opened Turns
  import opened Lockstep
  import opened MatchLogs
  import opened ObserverFeeds
  import opened Relay
  import opened RelayRuns
  import opened CrashRestart
  import opened RelayTheorems
  import opened RelayJoins
  import Replays
  import Chain = Checkpoints

  // ---- the replay file of what a client was sent ----

  /** The length a turn was sealed with. */
  function LengthIn(seals: seq<(nat, nat)>, turn: nat): nat {
    if seals == [] then 0
    else if seals[|seals| - 1].0 == turn then seals[|seals| - 1].1
    else LengthIn(seals[..|seals| - 1], turn)
  }

  /** The replay file's lines for one turn, from a client's own stream. */
  function SentBlock(g: seq<Msg>, turn: nat, references: map<nat, Hash>): seq<Replays.Line>
    requires turn > 0
  {
    [Replays.TurnLine(turn - 1, LengthIn(SealsOf(g), turn))]
    + Replays.CommandLines(Replays.ByClient(CommandsOf(g, turn)))
    + [Replays.EndLine] + Replays.HashLines(references, turn)
  }

  function SentFile(g: seq<Msg>, from: nat, upTo: nat, references: map<nat, Hash>): seq<Replays.Line>
    decreases SaturatingSub(upTo, from)
  {
    if from >= upTo then []
    else SentBlock(g, from + 1, references) + SentFile(g, from + 1, upTo, references)
  }

  lemma {:induction false} LengthInRun(log: Log, from: nat, upTo: nat, default: nat, turn: nat)
    requires from < turn <= upTo
    ensures LengthIn(SealRun(log, from, upTo, default), turn) == LengthOr(log, turn, default)
    decreases upTo
  {
    var run := SealRun(log, from, upTo, default);
    assert run[..|run| - 1] == SealRun(log, from, upTo - 1, default);
    if turn < upTo {
      LengthInRun(log, from, upTo - 1, default, turn);
    }
  }

  lemma {:induction false} SentIsFile(g: seq<Msg>, log: Log, from: nat, upTo: nat, default: nat,
                                      references: map<nat, Hash>)
    requires forall t: nat | from < t <= upTo ::
      CommandsOf(g, t) == For(log, t) && LengthIn(SealsOf(g), t) == LengthOr(log, t, default)
    ensures SentFile(g, from, upTo, references) == Replays.File(log, from, upTo, default, references)
    decreases SaturatingSub(upTo, from)
  {
    if from < upTo {
      assert SentBlock(g, from + 1, references) == Replays.TurnBlock(log, from + 1, default, references);
      hide SentBlock, Replays.TurnBlock;
      SentIsFile(g, log, from + 1, upTo, default, references);
    }
  }

  lemma InStepSent(g: seq<Msg>, loaded: nat, ready: nat, log: Log, default: nat, t: nat)
    requires InStep(g, loaded, ready, log, default) && loaded < t <= ready
    ensures CommandsOf(g, t) == For(log, t) && LengthIn(SealsOf(g), t) == LengthOr(log, t, default)
  {
    LengthInRun(log, loaded, ready, default, t);
    hide LengthIn, CommandsOf, SealsOf, SealRun;
  }

  lemma StreamSent(log: Log, loaded: nat, head: nat, default: nat, t: nat)
    requires WellFiled(log) && loaded < t <= head
    ensures var g := Stream(log, loaded, head, default);
            CommandsOf(g, t) == For(log, t) && LengthIn(SealsOf(g), t) == LengthOr(log, t, default)
  {
    ReplayUpTo(log, loaded, head, head, default);
    ReplayIsStream(log, loaded, head, head, default);
    LengthInRun(log, loaded, head, default, t);
    hide LengthIn, CommandsOf, SealsOf, SealRun, Stream, Replay;
  }

  /** What a one-shot run is given for turns a client had sealed since it loaded
      is, line for line, what that client was sent: in any run, for any live or
      delayed client whose start was in time. */
  lemma ReplayIsWhatWasSent(cfg: Config, starters: map<Peer, Session>, steps: seq<Step>, p: Peer,
                            from: nat, upTo: nat, references: map<nat, Hash>)
    requires Starters(starters)
    ensures var s := Play(Begun(cfg, starters), steps);
            p in s.sessions && s.sessions[p].role.InGame? ==>
              && p in s.base && p in s.out
              && (s.base[p].InTime() && s.base[p].loaded <= from
                  && upTo <= (if s.sessions[p].delayed then s.feed.head else s.turns.ready) ==>
                    var r := Replays.RequestFor(s.log, from, upTo, cfg.turnLength, references);
                    Replays.Lines(r.first, r.lengths, r.commands, r.hashes)
                    == SentFile(Game(s.out[p]), from, upTo, references))
  {
    var s := Play(Begun(cfg, starters), steps);
    AnyRun(cfg, starters, steps, p);
    hide Play, Begun, Game, InStep, Stream, WellFiled, Replays.Lines, SentFile, RunInOrder;
    if p in s.sessions && s.sessions[p].role.InGame? {
      var start, g := s.base[p], Game(s.out[p]);
      if start.InTime() && start.loaded <= from
         && upTo <= (if s.sessions[p].delayed then s.feed.head else s.turns.ready)
      {
        forall t: nat | from < t <= upTo
          ensures CommandsOf(g, t) == For(s.log, t)
          ensures LengthIn(SealsOf(g), t) == LengthOr(s.log, t, cfg.turnLength)
        {
          if s.sessions[p].delayed {
            StreamSent(s.log, start.loaded, s.feed.head, cfg.turnLength, t);
          } else {
            InStepSent(g, start.loaded, s.turns.ready, s.log, cfg.turnLength, t);
          }
        }
        SentIsFile(g, s.log, from, upTo, cfg.turnLength, references);
        Replays.FileIsLog(s.log, from, upTo, cfg.turnLength, references);
      }
    }
  }

  // ---- after a crash ----

  lemma {:induction false} FileSame(a: Log, b: Log, from: nat, upTo: nat, default: nat, references: map<nat, Hash>)
    requires forall t: nat | from < t <= upTo ::
      For(a, t) == For(b, t) && LengthOr(a, t, default) == LengthOr(b, t, default)
    ensures Replays.File(a, from, upTo, default, references) == Replays.File(b, from, upTo, default, references)
    decreases SaturatingSub(upTo, from)
  {
    if from < upTo {
      assert Replays.TurnBlock(a, from + 1, default, references) == Replays.TurnBlock(b, from + 1, default, references);
      hide Replays.TurnBlock;
      FileSame(a, b, from + 1, upTo, default, references);
    }
  }

  /** For every turn the journal kept, a match started over gives a one-shot run
      the very file the lost one would have. */
  lemma FileSurvivesCrash(s: RelayState, cut: nat, unixMs: int, from: nat, upTo: nat, references: map<nat, Hash>)
    requires RunInv(s) && s.cfg.saving && cut <= |s.saved| && upTo <= LastTurn(s.saved[..cut])
    ensures var r := Next(s, Crash(cut, unixMs));
            Replays.File(r.log, from, upTo, s.cfg.turnLength, references)
            == Replays.File(s.log, from, upTo, s.cfg.turnLength, references)
  {
    CrashRecovers(s, cut, unixMs);
    assert LogOk(s.log, s.turns.ready);
    hide RunInv, Streams, TurnsOf, LoggedTurns, HashesTimely, HashesAgree, RebuiltHashes, RebuiltLog, Replays.File;
    FileSame(Next(s, Crash(cut, unixMs)).log, s.log, from, upTo, s.cfg.turnLength, references);
  }

  // ---- the checkpoints of a match ----

  /** States stored along a match, each pruned by where the feed was then. */
  ghost predicate StoredAlong(s: RelayState, steps: seq<Step>, at: seq<nat>, stores: seq<Chain.Store>) {
    && |at| == |stores|
    && (forall i, j | 0 <= i <= j < |at| :: at[i] <= at[j] <= |steps|)
    && (forall i | 0 <= i < |at| :: at[i] <= |steps| && stores[i].head == Play(s, steps[..at[i]]).feed.head)
  }

  lemma HeadRises(s: RelayState, steps: seq<Step>, i: nat, j: nat)
    requires RunInv(s) && (forall step | step in steps :: !step.Crash?) && i <= j <= |steps|
    ensures Play(s, steps[..i]).feed.head <= Play(s, steps[..j]).feed.head
  {
    assert steps[..j] == steps[..i] + steps[i..j];
    hide RunInv;
    PlayOn(s, steps[..i], steps[i..j]);
    RunKeeps(s, steps[..i]);
    ReleasedTurnsFrozen(Play(s, steps[..i]), steps[i..j]);
    hide Play;
  }

  /** However many states a match stored on its way, a joiner whose stream the
      feed has reached, or anyone later, is served what would be served had
      none been dropped. */
  lemma CheckpointsOfMatch(s: RelayState, steps: seq<Step>, at: seq<nat>, stores: seq<Chain.Store>, turn: nat)
    requires RunInv(s) && (forall step | step in steps :: !step.Crash?) && StoredAlong(s, steps, at, stores)
    requires turn >= Play(s, steps).feed.head
    ensures Chain.AtOrBefore(Chain.After(stores), turn) == Chain.AtOrBefore(Chain.AllKept(stores), turn)
  {
    hide RunInv, Play, Chain.AtOrBefore, Chain.After, Chain.AllKept;
    assert steps[..|steps|] == steps;
    forall i, j | 0 <= i < j < |stores| ensures stores[i].head <= stores[j].head {
      HeadRises(s, steps, at[i], at[j]);
    }
    if stores != [] {
      HeadRises(s, steps, at[|at| - 1], |steps|);
    }
    Chain.PruningUnobserved(stores, turn);
  }
}
