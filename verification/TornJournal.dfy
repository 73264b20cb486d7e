/** What a crash leaves of a save journal: the file cut at any byte reads back
    as whole records, and the match rebuilt from them is the live one cut at a
    released turn. */
module TornJournal {
  import opened Prelude
  import opened Wire
  import opened MatchLogs
  import opened Relay
  import opened RelayRuns
  import opened CrashRestart
  import opened RelayTheorems
  import opened Journal

  predicate AllFramable(rs: seq<Record>) { forall r | r in rs :: Framable(r) }

  lemma FramesFirst(digest: Digest, first: Record, rest: seq<Record>)
    ensures Frames(digest, [first] + rest) == Frame(digest, first) + Frames(digest, rest)
  {
    hide Frame;
    assert ([first] + rest)[1..] == rest;
  }

  lemma {:induction false} FramesAppend(digest: Digest, a: seq<Record>, b: seq<Record>)
    ensures Frames(digest, a + b) == Frames(digest, a) + Frames(digest, b)
    decreases |a|
  {
    if a == [] {
      assert a + b == b;
    } else {
      hide Frames, Frame;
      FramesAppend(digest, a[1..], b);
      FramesFirst(digest, a[0], a[1..]);
      FramesFirst(digest, a[0], a[1..] + b);
      FirstOff(a, b);
      Assoc(Frame(digest, a[0]), Frames(digest, a[1..]), Frames(digest, b));
    }
  }

  /** How many whole frames the first `n` bytes hold. */
  function WholeFrames(digest: Digest, rs: seq<Record>, n: nat): (j: nat)
    ensures j <= |rs|
  {
    if rs == [] || n < |Frame(digest, rs[0])| then 0
    else 1 + WholeFrames(digest, rs[1..], n - |Frame(digest, rs[0])|)
  }

  lemma {:induction false} WholeFramesIs(digest: Digest, rs: seq<Record>, n: nat)
    ensures var j := WholeFrames(digest, rs, n);
            && |Frames(digest, rs[..j])| <= n
            && (j < |rs| ==> n < |Frames(digest, rs[..j + 1])|)
    decreases |rs|
  {
    var j := WholeFrames(digest, rs, n);
    if rs != [] && n >= |Frame(digest, rs[0])| {
      WholeFramesIs(digest, rs[1..], n - |Frame(digest, rs[0])|);
      assert rs[..j][1..] == rs[1..][..j - 1];
      if j < |rs| {
        assert rs[..j + 1][1..] == rs[1..][..j];
      }
    } else if rs != [] {
      assert rs[..1] == [rs[0]] && [rs[0]][1..] == [];
    }
  }

  /** A frame says how long it is, so no part of one reads as a record. */
  lemma PartReadsAsNothing(digest: Digest, r: Record, n: nat)
    requires Framable(r) && n < |Frame(digest, r)|
    ensures ReadOne(digest, Frame(digest, r)[..n]).None?
  {
    hide BodyOf, Le, FromBody;
    var bytes := Frame(digest, r)[..n];
    if |bytes| >= LEN_BYTES {
      Spans();
      LeRound(|BodyOf(r)|, LEN_BYTES);
      assert bytes[..LEN_BYTES] == Le(|BodyOf(r)|, LEN_BYTES);
    }
  }

  lemma ReadsFirst(digest: Digest, r: Record, more: Bytes)
    requires Framable(r)
    ensures ReadOne(digest, Frame(digest, r) + more) == Some((r, |Frame(digest, r)|))
    ensures (Frame(digest, r) + more)[|Frame(digest, r)|..] == more
  {
    hide BodyOf, Le, FromBody, ReadOne;
    ReadsOneFrame(digest, Frame(digest, r) + more, r, |Frame(digest, r)|);
  }

  lemma ReadsNone(digest: Digest, bytes: Bytes)
    requires bytes == [] || ReadOne(digest, bytes).None?
    ensures ReadAll(digest, bytes) == ([], 0)
  {
  }

  lemma ReadsRest(digest: Digest, bytes: Bytes, r: Record, used: nat)
    requires ReadOne(digest, bytes) == Some((r, used))
    ensures ReadAll(digest, bytes).0 == [r] + ReadAll(digest, bytes[used..]).0
    ensures ReadAll(digest, bytes).1 == used + ReadAll(digest, bytes[used..]).1
  {
  }

  /** Cut at any byte, the file reads back as every record whose frame is whole,
      and exactly their bytes are used. */
  lemma {:induction false} TornTail(digest: Digest, rs: seq<Record>, n: nat)
    requires AllFramable(rs) && n <= |Frames(digest, rs)|
    ensures var j := WholeFrames(digest, rs, n);
            ReadAll(digest, Frames(digest, rs)[..n]) == (rs[..j], |Frames(digest, rs[..j])|)
    decreases |rs|
  {
    hide Frame, ReadOne, ReadAll, Framable;
    if rs != [] {
      var first, rest := Frame(digest, rs[0]), Frames(digest, rs[1..]);
      if n < |first| {
        PartReadsAsNothing(digest, rs[0], n);
        assert Frames(digest, rs)[..n] == first[..n];
        ReadsNone(digest, first[..n]);
      } else {
        TornTail(digest, rs[1..], n - |first|);
        TornRest(digest, rs, n);
      }
    } else {
      ReadsNone(digest, []);
    }
  }

  lemma TornRest(digest: Digest, rs: seq<Record>, n: nat)
    requires AllFramable(rs) && rs != [] && |Frame(digest, rs[0])| <= n <= |Frames(digest, rs)|
    requires var left := n - |Frame(digest, rs[0])|;
             var j := WholeFrames(digest, rs[1..], left);
             ReadAll(digest, Frames(digest, rs[1..])[..left])
             == (rs[1..][..j], |Frames(digest, rs[1..][..j])|)
    ensures var j := WholeFrames(digest, rs, n);
            ReadAll(digest, Frames(digest, rs)[..n]) == (rs[..j], |Frames(digest, rs[..j])|)
  {
    hide Frame, ReadOne, ReadAll, Framable;
    var first, rest, left := Frame(digest, rs[0]), Frames(digest, rs[1..]), n - |Frame(digest, rs[0])|;
    var j := WholeFrames(digest, rs[1..], left);
    assert WholeFrames(digest, rs, n) == 1 + j;
    assert Frames(digest, rs) == first + rest;
    hide Frames, WholeFrames;
    CutPast(first, rest, n);
    ReadsFirst(digest, rs[0], rest[..left]);
    ReadsRest(digest, first + rest[..left], rs[0], |first|);
    FramesFirst(digest, rs[0], rs[1..][..j]);
    assert rs[..j + 1] == [rs[0]] + rs[1..][..j];
  }

  lemma CutPast(first: Bytes, rest: Bytes, n: nat)
    requires |first| <= n <= |first| + |rest|
    ensures (first + rest)[..n] == first + rest[..n - |first|]
  {
  }

  /** Nothing is read that was not written: whatever the file holds, the bytes
      used are the frames of the records read. */
  lemma {:induction false} ReadIsWritten(digest: Digest, bytes: Bytes)
    ensures var r := ReadAll(digest, bytes);
            && AllFramable(r.0)
            && bytes[..r.1] == Frames(digest, r.0)
            && ReadOne(digest, bytes[r.1..]).None?
    decreases |bytes|
  {
    hide Frame, Framable, ReadOne, ReadAll;
    var one := ReadOne(digest, bytes);
    if one.Some? {
      var (first, used) := one.value;
      ReadsOneFrame(digest, bytes, first, used);
      ReadsRest(digest, bytes, first, used);
      ReadIsWritten(digest, bytes[used..]);
      var rest := ReadAll(digest, bytes[used..]);
      Slices(bytes, used, rest.1);
      FramesFirst(digest, first, rest.0);
    } else {
      ReadsNone(digest, bytes);
      assert bytes[0..] == bytes && bytes[..0] == [];
    }
  }

  lemma Slices(bytes: Bytes, used: nat, more: nat)
    requires used + more <= |bytes|
    ensures bytes[..used + more] == bytes[..used] + bytes[used..][..more]
    ensures bytes[used..][more..] == bytes[used + more..] && bytes[0..used] == bytes[..used]
  {
  }

  /** Cutting the torn tail off leaves a file that can be appended to again. */
  lemma AppendAfterCut(digest: Digest, bytes: Bytes, more: seq<Record>)
    requires AllFramable(more)
    ensures var (rs, used) := ReadAll(digest, bytes);
            && bytes[..used] + Frames(digest, more) == Frames(digest, rs + more)
            && ReadAll(digest, bytes[..used] + Frames(digest, more))
               == (rs + more, |Frames(digest, rs + more)|)
  {
    hide ReadAll, Frames, Framable, ReadOne;
    var (rs, used) := ReadAll(digest, bytes);
    ReadIsWritten(digest, bytes);
    FramesAppend(digest, rs, more);
    ReadsBack(digest, rs + more);
  }

  lemma {:induction false} ReadsBack(digest: Digest, rs: seq<Record>)
    requires AllFramable(rs)
    ensures ReadAll(digest, Frames(digest, rs)) == (rs, |Frames(digest, rs)|)
    decreases |rs|
  {
    hide Frame, ReadOne, ReadAll, Framable;
    if rs == [] {
      ReadsNone(digest, []);
    } else {
      var first, rest := Frame(digest, rs[0]), Frames(digest, rs[1..]);
      assert Frames(digest, rs) == first + rest;
      hide Frames;
      assert rs == [rs[0]] + rs[1..];
      ReadsBack(digest, rs[1..]);
      ReadsFirst(digest, rs[0], rest);
      ReadsRest(digest, first + rest, rs[0], |first|);
    }
  }

  /** A crash at any byte of the save of any run: what is read back restarts the
      match at some released turn, with that turn's log, and what is then on
      disk is the restarted match's own save. */
  lemma CrashAtAnyByte(digest: Digest, cfg: Config, starters: map<Peer, Session>, steps: seq<Step>,
                       n: nat, unixMs: int)
    requires Starters(starters) && cfg.saving
    requires AllFramable(Play(Begun(cfg, starters), steps).saved)
    requires n <= |Frames(digest, Play(Begun(cfg, starters), steps).saved)|
    ensures var s := Play(Begun(cfg, starters), steps);
            var file := Frames(digest, s.saved)[..n];
            var (records, used) := ReadAll(digest, file);
            var r := Restarted(cfg, records, unixMs);
            && Recovered(s, r) && RunInv(r)
            && Frames(digest, r.saved)
               == file[..used] + Frame(digest, ResumedRecord(r.turns.ready, unixMs))
  {
    hide RunInv, Recovered, ReadAll, Frame, Framable, Next, Starters, WholeFrames;
    var s := Play(Begun(cfg, starters), steps);
    var j := WholeFrames(digest, s.saved, n);
    var file := Frames(digest, s.saved)[..n];
    TornTail(digest, s.saved, n);
    CrashRecovery(cfg, starters, steps, j, unixMs);
    BegunKeeps(cfg, starters);
    RunKeeps(Begun(cfg, starters), steps);
    SameConfig(Begun(cfg, starters), steps);
    RestartKeeps(s, j, unixMs);
    ReadIsWritten(digest, file);
    var last := ResumedRecord(LastTurn(s.saved[..j]), unixMs);
    FramesAppend(digest, s.saved[..j], [last]);
    assert [last][1..] == [];
    assert Frames(digest, [last]) == Frame(digest, last) + [];
  }
}
