# Verification of the turn relay

A Dafny model of the lockstep turn relay and of the stores that have to agree
with it. `dafny verify dfyconfig.toml` checks all of it.

Clients seal turns and send commands for turns ahead. The relay releases the
next turn once everyone it waits for has sealed it, relays and logs commands,
replays the log to joiners, feeds delayed observers from the same log, and
journals what it released so that a crashed match can be started over. The
model follows the code branch by branch:

- **Turns** (`Turns.dfy`, `Lockstep.dfy`, `HashAgreement.dfy`): the turn
  manager as a class over its own fields, each method proved to be a
  function on values; which turns a pass releases; which state hash is agreed.
  `HashLaws.dfy` says what comparing must do.
- **The in-match relay** (`MatchLog.dfy`, `ObserverFeed.dfy`, `FeedRuns.dfy`,
  `Relay.dfy`, `RelayServer.dfy`): the handlers as functions on one state that
  also holds every message sent to each peer and every record handed to the
  save writer, and the server that computes them in loops over turns, commands
  and peers. `RelayRuns.dfy`, `RelaySteps.dfy`, `CrashRestart.dfy` and
  `RelayTheorems.dfy` prove one invariant over all runs, crashes included;
  `RelayJoins.dfy` reads off who is in step with the log, `RelayRestarts.dfy`
  what a saved state is worth after a crash, and `RelayFlares.dfy` follows the
  flares. `RelayDuties.dfy` and `RelayHashes.dfy` say what the relay must do:
  what it logs, releases, compares, journals and sends to a joiner, and when.
- **The save journal** (`Wire.dfy`, `Journal.dfy`, `TornJournal.dfy`): framing,
  reading back, and what survives a cut at any byte, joined to the relay's runs.
- **State transfer** (`Transfer.dfy`, `TransferLink.dfy`): the windowed sender
  and the receiver, and the two composed over a first-in first-out channel.
- **Allowances** (`Ledger.dfy`, `LedgerRuns.dfy`, `Gate.dfy`, `RateLimit.dfy`,
  `Pacing.dfy`, `PauseBudget.dfy`, `PauseRuns.dfy`): token buckets, quotas and
  the clock, with bounds over whole runs.
- **The settings decoder** (`ScriptValue.dfy`, `ScriptDecoder.dfy`,
  `ScriptGrammar.dfy`, `ScriptDecoding.dfy`, `ScriptSoundness.dfy`): a decoder
  with back-references, the grammar it decodes, and what it is charged.
- **Checkpoints, replay files and the run limit** (`Checkpoints.dfy`,
  `Replay.dfy`, `RunLimiter.dfy`), and the packet queues' intrusive list
  (`EnetList.dfy`). `OneLog.dfy` joins the replay files and the checkpoints to
  the relay's runs.

A message is a value, a peer a number, a time a whole number of nanoseconds,
and the sixteen-byte checksum any function of a body. What the relay keeps in
a hash map is a map or a set here, and what it collects by walking one is a
set, so nothing proved can depend on an iteration order.

Six things the proofs brought out, each stated with the exact condition:

- A delayed joiner may answer before its held JOIN was let out, since only the
  snapshot's range is checked. However the match goes on, its stream fits its
  state exactly if the turn it loaded was not past the feed's head as it
  answered (`RelayJoins.DelayedJoinExact`); a live joiner's exactly if that turn
  had been released (`RelayJoins.LiveJoinExact`). `RelayJoins.EarlyAnswerRepeats`
  plays a run in which turn 4 is sent to an observer that has loaded turn 4.
- A saved state is written and synced at once, but the journal's last records can
  be lost with up to a second of the match, and only `start_restore` compares the
  two turns when the match is started over
  (src/relay/server_fsm.rs:3839-3840, 5288-5292, 5312-5322). Whoever answers with
  the state's turn while the match is still held is in step, once turns are
  released, exactly if the journal that was left reached that turn
  (`RelayRestarts.SavedStateExact`); otherwise it is sent turns its state has
  behind it (`RelayRestarts.SavedStateRepeats`, and played out in
  `RelayRestarts.StateOutlivesJournal`).
- A delayed observer is meant to stall nobody but itself (src/relay/turn.rs:273-280), but
  with no clock and only the AI host in the way, it paces the release like
  everyone left. Its seals make a difference exactly then, and if the others
  have sealed ahead (`Lockstep.DelayedDecidesExactly`,
  `Lockstep.DelayedPacesAiHost`).
- Forgetting full buckets can be observed exactly when the limit is on with a
  burst of zero (`LedgerRuns.PruneUnobservable`), which src/config.rs:1018-1028
  refuses.
- The pacing anchor can pass the clock exactly when the interval is longer than
  a microsecond and no whole number of them; the configuration rounds it
  (`Pacing.AnchorStaysBehindIff`).
- An empty chunk ahead of any response completes a transfer with an empty
  payload (`Transfers.EmptyPayload`); otherwise a transfer completes exactly at
  its declared length.

## Model

| member | source | states |
|---|---|---|
| Turns.TurnManager.ReleasePaced | src/relay/turn.rs:212-286 | releases a contiguous run of turns, one per pass of a loop that works out again before each turn who is in the way |
| Turns.TurnManager.OnTurnSealed | src/relay/turn.rs:200-210 | accepts exactly the next turn of a registered client and changes nothing otherwise |
| Turns.TurnManager.OnStateHash | src/relay/turn.rs:288-325 | files, judges, ignores or compares a hash by who sent it and what is agreed already; out of sequence is a fault |
| Turns.TurnManager.LowestReporter | src/relay/turn.rs:355-368 | one pass in any order finds a reporter below which there is no other: stock clients before the AI host, then by id |
| Turns.LowestUnique | src/relay/turn.rs:355-368 | with distinct ids that reporter is the same whatever the order |
| Turns.TurnManager.ComparePending | src/relay/turn.rs:335-397 | compares a turn only once everyone who owes it reported and no player is out of sync |
| Turns.TurnManager.SettleTurn | src/relay/turn.rs:369-397 | sets the reference once, drops the pending reports up to it, latches who disagreed and judges the observers that were waiting |
| Turns.TurnManager.JudgeObserver | src/relay/turn.rs:399-413 | an observer is reported out of sync at most once and only against a stored reference |
| Turns.TurnManager.RecheckPending | src/relay/turn.rs:419-426 | after a departure every pending turn is compared again, oldest first |
| Turns.TurnManager.ForgetPeer | src/relay/turn.rs:188-198 | a departing client takes its reports and its marks with it |
| Turns.TurnManager.Resume | src/relay/turn.rs:109-118 | a resumed match continues after the last turn with the saved hashes as references |
| Lockstep.ReleaseIsAllowed | src/relay/turn.rs:219-286 | at every turn it releases, everyone in the way had sealed it |
| Lockstep.ReleaseIsMaximal | src/relay/turn.rs:219-286 | it stops only at the pace or where somebody in the way has not sealed |
| Lockstep.ReleaseExactly | src/relay/turn.rs:212-286 | where the clock paces a match or a player other than the AI host is there, a pass releases exactly the turns up to the first one a player has not sealed or a live observer is the whole lag limit behind, or as many as its pace allows |
| Lockstep.AheadWithAiHost | src/relay/turn.rs:234-271 | with no clock and no player but the AI host, a turn is released exactly if somebody else is there and everyone has sealed it, watchers of the delayed feed too |
| Lockstep.NoPlayersNoRelease | src/relay/turn.rs:219-271 | with no player nothing is released, but for a lag limit of nothing, which the configuration does not make (src/config.rs:933-934) |
| Lockstep.ReleaseBelowSeals | src/relay/turn.rs:219-232 | it never passes the highest seal nor the pace |
| Lockstep.ReleaseKeepsWindow | src/relay/turn.rs:219-286 | one pass keeps every player at or past the ready turn and every limited observer within the lag, and releases at most four turns |
| Lockstep.HeldWithoutHumans | src/relay/turn.rs:234-271 | without a clock, a match whose clients have all sealed ahead is held exactly if nobody is in the way or nobody but AI hosts is there |
| Lockstep.DelayedMakesNoOdds | src/relay/turn.rs:219-286 | unless the AI host alone is in the way, no seal of a delayed observer changes what a pass releases |
| Lockstep.DelayedDecidesExactly | src/relay/turn.rs:234-286 | the seals of a delayed observer can change what a pass releases exactly if there is no clock, only the AI host is in the way, somebody else is there, and everyone but that observer has sealed ahead |
| Lockstep.DelayedPacesAiHost | src/relay/turn.rs:240-262 | an AI host with one delayed observer: nothing is released until the observer seals |
| HashAgreement.StepInv | src/relay/turn.rs:160-426 | every step keeps pending and agreed turns disjoint and references for released turns only, and never changes a reference |
| HashAgreement.AgreedOnce | src/relay/turn.rs:288-426 | over every run a reference is set at most once and told exactly once |
| HashAgreement.RestartedAgreesOnce | src/relay/turn.rs:106-131 | a match, begun or started over, tells of each newly agreed hash once and of no restored one |
| HashAgreement.AgreedIsLowest | src/relay/turn.rs:355-368 | what is agreed is the report of the lowest reporter, whatever the map order, and an AI host's only if nobody else reported |
| HashAgreement.AgreedFromReports | src/relay/turn.rs:288-397 | over any run, an agreed hash is the one the lowest reporter, stock clients first and then by id, had sent for that turn, among reporters still registered and once everyone who owed one had reported |
| HashAgreement.ObserversHaveNoPart | src/relay/turn.rs:288-426 | a run with its observers taken out gives the same references, settled list, latch and alarms to players |
| HashLaws.ReportCounts | src/relay/turn.rs:288-348 | a player's next hash is filed beside the others of its turn, and agrees the turn at once if nobody else owes one |
| HashLaws.AgreementTells | src/relay/turn.rs:369-413 | agreeing a turn marks exactly the players and waiting observers that disagree, tells of the players together and of each observer once, and gives up the turns before it and no later one |
| HashLaws.ObserverJudged | src/relay/turn.rs:300-333 | an observer is judged against an agreed hash, waits for one that may come, is told of once, and changes nothing else |
| HashLaws.ObserversLeaveNothing | src/relay/turn.rs:106-198 | over any run, begun or resumed, only observers still registered are marked or waited for, and only for turns past every one agreed |
| MatchLogs.MatchLog.RecordCommand | src/relay/turn.rs:438-440 | a command is filed last under its own turn |
| MatchLogs.MatchLog.RecordTurnLength | src/relay/turn.rs:442-444 | a turn's length is kept, and nothing else changes |
| MatchLogs.ReplayInStep | src/relay/server_fsm.rs:5178-5209 | a replay from a released turn gives its reader contiguous seals, each turn's commands in log order, each ahead of its seal |
| MatchLogs.InStepCommand | src/relay/server_fsm.rs:5060-5073 | a command for a turn not yet released keeps its recipients in step with the log |
| MatchLogs.InStepSeal | src/relay/server_fsm.rs:1289-1303 | the next seal keeps its recipients in step with the log |
| MatchLogs.StreamJoin | src/relay/server_fsm.rs:5228-5254 | a stream to a turn and one from it on are together one stream |
| ObserverFeeds.ObserverFeed.Advance | src/relay/observer_feed.rs:71-80 | the head moves to the delayed turn, or the live one when draining, and never back |
| ObserverFeeds.ObserverFeed.TakeDueFlares | src/relay/observer_feed.rs:86-92 | hands out the flares up to the head by turn and in the order raised, and keeps the rest |
| ObserverFeeds.ObserverFeed.TakeDueJoins | src/relay/observer_feed.rs:107-122 | lets in exactly the joiners whose bound the head has reached |
| FeedRuns.FeedRuns | src/relay/observer_feed.rs:71-121 | over every run the head never moves back nor past the live turn, keeps its distance while a player remains, and each flare is shown once, in order, not before its turn |
| FeedRuns.DrainingReachesLive | src/relay/observer_feed.rs:71-92 | a drained feed stands at the live turn with every flare up to it shown |
| RelaySteps.CommandKeeps | src/relay/server_fsm.rs:4991-5073 | relaying and logging a command inside its window keeps the run invariant |
| RelaySteps.SealKeeps | src/relay/server_fsm.rs:5102-5118 | a seal, with the release it lets through, keeps the run invariant |
| RelaySteps.HashKeeps | src/relay/server_fsm.rs:5120-5143 | a hash, with the settled ones handed to the journal, keeps the run invariant |
| RelaySteps.FlareKeeps | src/relay/server_fsm.rs:5075-5100 | a flare, shown now or held by the feed, keeps the run invariant |
| RelaySteps.DeliverKeeps | src/relay/server_fsm.rs:3266-3310 | answering a joiner, at once or when the feed is there, keeps the run invariant |
| RelaySteps.LoadKeeps | src/relay/server_fsm.rs:5145-5254 | replaying the log to a joiner and registering it keeps the run invariant |
| RelaySteps.DisconnectKeeps | src/relay/server_fsm.rs:2089-2154 | a departure, with the release and the comparison it unblocks, keeps the run invariant |
| RelayTheorems.RunKeeps | src/relay/server_fsm.rs:1261-1401 | every run of joins, departures, commands, seals, hashes, flares and crashes keeps the run invariant |
| RelayDuties.LogIsWhatCounted | src/relay/server_fsm.rs:4991-5073 | over any run without a crash, a turn's commands in the log are exactly those admitted from peers in game while it was one of the four turns after the released one, in the order they came |
| RelayDuties.CommandReaches | src/relay/server_fsm.rs:5060-5073 | such a command is sent to every live client in game and to nobody else, and any other changes nothing |
| RelayDuties.SealTaken | src/relay/server_fsm.rs:5102-5117 | a seal is taken exactly if it is a registered client's next and at most four turns ahead |
| RelayDuties.HashTaken | src/relay/server_fsm.rs:5120-5142 | a hash is taken exactly if it is a registered client's next and its turn is released |
| RelayDuties.StepReleases | src/relay/server_fsm.rs:1261-1330 | every seal, tick, departure or restart that may release does so up to the first turn somebody lags behind, or as far as its pace allows |
| RelayHashes.EveryTurnIsCompared | src/relay/turn.rs:335-426 | in every state of every run, crashes included, if nobody is out of sync then every turn reported by anyone still lacks a report that is owed |
| RelayHashes.DepartAgrees | src/relay/server_fsm.rs:2145-2154 | a departure agrees the lowest turn that only the one who left was holding up, with the hash of the lowest of those left |
| RelayHashes.StepJournals | src/relay/server_fsm.rs:1395-1401 | every step but a crash adds to the save exactly the hashes it agrees, each once, in the order agreed |
| RelayHashes.JournalHoldsHashes | src/relay/server_fsm.rs:1395-1401 | in any run of a saving match, crashes included, the save holds every agreed hash exactly once and no other, and any part of it restores exactly the hashes recorded there |
| RelayHashes.MarksInSave | src/savegame/writer.rs:304-320 | in any run of a saving match, every mark of a stop or a restart names the turn the save had reached there |
| RelayDuties.FeedKeepsUp | src/relay/observer_feed.rs:71-122 | in every state of every run the feed is no further behind than its delay, has caught up if no player remains, and holds no joiner it has reached |
| RelayDuties.StepSendsHeldJoin | src/relay/server_fsm.rs:1346-1367 | the step in which the feed reaches a delayed joiner's state, or which brings a state it has reached, sends that joiner its one JOIN; until then it is held, and a joiner is sent nothing else |
| RelayDuties.LiveJoinSent | src/relay/server_fsm.rs:3266-3310 | a live joiner is sent its JOIN as soon as its state is there, and nobody else is sent anything |
| RelayDuties.AnswerMet | src/relay/server_fsm.rs:5145-5254 | a joiner may answer with any turn of its state's range and no other, and is sent turns and commands and then the turn it was brought to |
| RelayDuties.RangeIsHandedOut | src/relay/server_fsm.rs:5145-5176 | a state handed to a joiner, live or delayed, can be answered with exactly its own turns |
| RelayDuties.AnswerRegisters | src/relay/server_fsm.rs:5211-5254 | a joiner that answers is registered at the turn it was brought to, with three turns sealed ahead, in its own slot |
| RelayDuties.StartsOverHeld | src/relay/server_fsm.rs:3783-3841 | a match started over releases nothing until it is let on, and opens at its save's turn with its feed a delay behind and a mark behind the save |
| RelayJoins.JoinReplaySeamless | src/relay/server_fsm.rs:5145-5223 | in any run, crashes included, every live client in game, starter or joiner, has exactly the seals after the turn it loaded with the log's lengths, each turn's commands in log order, all ahead of their seal, if that turn had been released as it answered, and once more turns are released only if; it always had where live joiners are handed states of released turns |
| RelayJoins.LiveJoinExact | src/relay/server_fsm.rs:5145-5223 | as long as a live joiner stays, whatever else happens, once turns have been released after its answer it is in step exactly if the turn it loaded had been released |
| RelayJoins.DelayedFeedRefines | src/relay/server_fsm.rs:1346-1367 | in any run, crashes included, every delayed observer in game has exactly the log from the turn it loaded, or from where the feed was as it answered if that was earlier, to the feed's head, and nothing past the head; it is the turn it loaded where delayed joiners answer their JOIN |
| RelayJoins.DelayedJoinExact | src/relay/server_fsm.rs:5228-5254 | as long as a delayed joiner stays, whatever else happens, once the head has moved its stream goes on from its own turn exactly if that turn was not past the head as it answered; past it, it is sent the log from that head on |
| RelayTheorems.LockstepWindow | src/relay/server_fsm.rs:5102-5117 | in every reachable state no player is behind the ready turn, no client over four turns ahead, no live observer behind by more than the limit |
| RelayTheorems.ReleasedTurnsFrozen | src/relay/server_fsm.rs:5000-5011 | without a crash a released turn never gains a command and its length never changes, and neither the ready turn nor the head moves back |
| RelayJoins.AnswersInStep | src/relay/server_fsm.rs:5145-5254 | a live joiner handed a state no later than the released turn, and a delayed one whose JOIN is out, are in step from their answer on, for as long as they stay |
| RelayJoins.StartersInStep | src/relay/server_fsm.rs:1261-1367 | a starter that stays is in step from the first turn on, in any match |
| RelayJoins.EarlyAnswerRepeats | src/relay/server_fsm.rs:5228-5254 | a run in which a delayed observer answers with turn 4 ahead of its JOIN and is then sent turn 4 |
| RelayRestarts.SavedStateExact | src/relay/server_fsm.rs:2927-2931 | a live joiner handed a saved state of any turn while a match started over is held is in step, once turns are released, exactly if the journal left by the crash reached that turn |
| RelayRestarts.SavedStateCovered | src/relay/server_fsm.rs:3818-3840 | the recovered log has every turn the state was simulated from, as it was, exactly under the same guard |
| RelayRestarts.SavedStateRepeats | src/relay/server_fsm.rs:2895-2933 | whatever the match before, a player that loads a state past the journal's last turn is first sent the seal of the turn after that one |
| RelayRestarts.StateOutlivesJournal | src/relay/server_fsm.rs:2895-2933 | a run in which turn 4 is released and a state saved at it, the journal is lost, and turn 4 is sent to whoever loads that state |
| RelayRestarts.CleanStop | src/relay/server_fsm.rs:3783-3834 | a match stopped and started over from its whole save goes on from the same turn with the whole log |
| RelayTheorems.CrashRecovery | src/relay/server_fsm.rs:3783-3824 | from any run, losing any tail of the save, the match starts over with the live log up to some released turn and agreed hashes for no later one |
| RelayFlares.StepMirrors | src/relay/server_fsm.rs:1346-1367 | whatever step the relay takes, its feed moves as the feed of `FeedRuns.dfy` does on the same flares, live turns and draining |
| RelayFlares.StepShows | src/relay/server_fsm.rs:5075-5100 | one step sends a live client that stays just the flare it raised, and a delayed one just what the feed came to show |
| RelayFlares.FlaresReach | src/relay/server_fsm.rs:5075-5100 | from a start or restart to the next crash, a live client is sent each flare raised once and in order, a delayed one exactly what its feed shows: turn by turn what was raised, never ahead of the head |
| RelayFlares.StepTurnsFirst | src/relay/server_fsm.rs:1346-1367 | whatever step is taken, a delayed observer in game is sent the turns that fall due ahead of the flares that do |
| RelayFlares.MatchOpens | src/relay/server_fsm.rs:3783-3834 | a match begun, or started over from any records, opens with a feed that keeps its distance from the live turn |
| CrashRestart.PrefixStopsAt | src/savegame/resume.rs:65-74 | any prefix of the save holds exactly the turns up to the one it stops at |
| CrashRestart.RestartKeeps | src/relay/server_fsm.rs:3783-3841 | a restarted match satisfies the run invariant, so it can crash again |
| RelayServer.Server.Begin | src/relay/server_fsm.rs:1261-1305 | a match whose starters are loaded satisfies the run invariant |
| RelayServer.Server.Resume | src/relay/server_fsm.rs:3818-3826 | the log rebuilt record by record gives the restarted state |
| RelayServer.Server.ReleaseAll | src/relay/server_fsm.rs:1279-1305 | records the length, journals and seals each released turn for the live clients, then advances the feed |
| RelayServer.Server.AdvanceAll | src/relay/server_fsm.rs:1346-1367 | sends the delayed observers the turns now due, whole, then due flares, and lets due joiners in |
| RelayServer.Server.OnPlayerCommand | src/relay/server_fsm.rs:4991-5073 | drops a command outside the window, relays and logs one inside it, and keeps the run invariant |
| RelayServer.Server.OnTurnSealed | src/relay/server_fsm.rs:5102-5118 | refuses a seal past the window, and otherwise seals and releases |
| RelayServer.Server.OnStateHash | src/relay/server_fsm.rs:5120-5143 | refuses a hash for an unreleased turn, and otherwise files it and journals what settled |
| RelayServer.Server.OnFlare | src/relay/server_fsm.rs:5075-5100 | shows a flare to the live clients at once and to the delayed ones at its turn |
| RelayServer.Server.DeliverSnapshot | src/relay/server_fsm.rs:3266-3310 | answers a live joiner at once and holds a delayed one's answer |
| RelayServer.Server.OnLoadedGame | src/relay/server_fsm.rs:5145-5254 | checks the loaded turn against the snapshot's range, replays, and registers the joiner three turns ahead |
| RelayServer.Server.OnDisconnected | src/relay/server_fsm.rs:2089-2154 | forgets the peer everywhere, then releases and compares again without it |
| RelayServer.Server.Shutdown | src/savegame/writer.rs:304-320 | leaves the mark of a stop behind the save, and nothing else |
| Wire.UintAt | src/savegame/journal.rs:174-196 | a little-endian integer is read exactly where its bytes stand |
| Journal.CommandRound | src/relay/messages/player_command.rs:15-72 | a command in range reads back from its bytes |
| Journal.CommandCanonical | src/relay/messages/player_command.rs:28-72 | and whatever reads as a command is one's bytes |
| Journal.CommandLayout | src/relay/messages/player_command.rs:15-27 | where a command's client, player and turn stand, each low byte first, with the rest behind them |
| Journal.WriteBody | src/savegame/journal.rs:53-94 | writes a record's body, commands and hash bytes as far as their counts reach |
| Journal.ReadBody | src/savegame/journal.rs:99-136 | the cursor reads what the body is, or refuses it |
| Journal.BodyLayout | src/savegame/journal.rs:53-94 | the kind byte of each record and where its fields and counts stand, each low byte first |
| Journal.BodyReadsBack | src/savegame/journal.rs:53-136 | a body is read as a record exactly if it is that record's body |
| Journal.BodyOfTruncates | src/savegame/journal.rs:64-81 | a record with too many commands or too long a hash reads back cut to its count |
| Journal.ReadsOneFrame | src/savegame/journal.rs:44-51 | one frame is read exactly where it stands, for any checksum function |
| Journal.Read | src/savegame/journal.rs:143-163 | reads every whole record from the start and says how many bytes they take |
| TornJournal.PartReadsAsNothing | src/savegame/journal.rs:153-163 | no proper part of a frame reads as a record |
| TornJournal.TornTail | src/savegame/journal.rs:143-163 | cut at any byte, a journal reads back as exactly the records whose frames are whole |
| TornJournal.ReadIsWritten | src/savegame/journal.rs:143-163 | whatever a file holds, the bytes used are the frames of the records read |
| TornJournal.AppendAfterCut | src/savegame/resume.rs:294-312 | a journal cut to its whole records can be appended to and reads back with the new ones |
| TornJournal.CrashAtAnyByte | src/relay/server_fsm.rs:3783-3824 | a crash at any byte of the save of any run recovers the live log up to a released turn, and the file is then the restarted match's own save |
| Transfers.TransferTable.BeginSend | src/relay/gamestate_transfer.rs:166-185 | serves a payload of one byte to eight MiB and fills the window, and refuses any other |
| Transfers.TransferTable.PumpOut | src/relay/gamestate_transfer.rs:188-206 | the loop takes the next bytes while the window has room, and closes a finished send |
| Transfers.TransferTable.OnAck | src/relay/gamestate_transfer.rs:210-224 | an ack within what is in flight frees its slots and refills them; any other is dropped |
| Transfers.TransferTable.OnResponse | src/relay/gamestate_transfer.rs:226-243 | a servable length starts the receive afresh |
| Transfers.TransferTable.OnChunk | src/relay/gamestate_transfer.rs:251-275 | completes at exactly the declared length, fails past it, and waits below it |
| Transfers.TransferTable.TakeGrant | src/relay/gamestate_transfer.rs:150-156 | a grant is good for one download |
| Transfers.TransferTable.Forget | src/relay/gamestate_transfer.rs:281-294 | a departing peer takes its sends, receives and grant, and the snapshots fetched for it, and names whom it was sourcing |
| Transfers.PumpIs | src/relay/gamestate_transfer.rs:188-206 | the chunks are the next bytes of the payload, none empty, and then the window is full or everything is out |
| Transfers.PumpFills | src/relay/gamestate_transfer.rs:188-206 | every chunk is 1024 bytes long but the last of the payload |
| Transfers.CompletesAtDeclared | src/relay/gamestate_transfer.rs:251-275 | a receive completes exactly at its declared length, with nothing only if no response came |
| Transfers.AnswerStartsOver | src/relay/gamestate_transfer.rs:226-275 | after a response what came before is forgotten, and exactly the declared length completes the receive |
| Transfers.ForgetLeavesNothing | src/relay/gamestate_transfer.rs:281-294 | a peer that leaves takes exactly its own transfers, its grant and the snapshots made for it, and those told are exactly the other joiners that lose a snapshot so |
| Transfers.EmptyPayload | src/relay/gamestate_transfer.rs:251-275 | an empty chunk ahead of the response completes with nothing |
| TransferLink.StepKeeps | src/relay/gamestate_transfer.rs:166-275 | each step conserves the payload and the window and brings the transfer closer to its end |
| TransferLink.ChunkStep | src/relay/gamestate_transfer.rs:251-275 | the transfer completes on its last chunk and no other |
| TransferLink.TransferSafe | src/relay/gamestate_transfer.rs:166-275 | in every run, however acks are batched, nothing but the payload is delivered, at most once, with at most 32 chunks unacknowledged and no live send idle |
| TransferLink.TransferCompletes | src/relay/gamestate_transfer.rs:166-275 | every run ends, and one that can go no further has delivered the payload and closed the send |
| Ledgers.Ledger.HasToken | src/relay/ingress.rs:59-68 | refills the identity's bucket in place and says if a token is left |
| Ledgers.Ledger.Spend | src/relay/ingress.rs:70-86 | takes one token, starting the wait afresh from a full bucket |
| Ledgers.Ledger.Prune | src/relay/ingress.rs:89-98 | refills every bucket and keeps those that are not full |
| Ledgers.RefillKeepsWorth | src/relay/ingress.rs:101-121 | refilling never changes what a bucket is worth, now or later, however often |
| Ledgers.TokensComeBack | src/relay/ingress.rs:101-121 | whatever the clock did before, tokens come back at one an interval from any look at a bucket |
| LedgerRuns.SpendCosts | src/relay/ingress.rs:70-86 | a spend costs one token's worth of its identity exactly, nothing if none is left, and nobody else |
| LedgerRuns.PruneUnobservable | src/relay/ingress.rs:49-121 | any interleaving of prunes leaves all answers alike, in every run of a clock that does not step back, exactly if the burst is not zero or the ledger is off |
| LedgerRuns.WindowBound | src/relay/ingress.rs:58-121 | with the limit on and a burst of at least one, in a window of length T one identity is let through at most burst + T / quantum times, the quantum being the interval in whole milliseconds |
| LedgerRuns.LedgerFlows | src/relay/ingress.rs:49-121 | in any run of a clock that does not step back, a ledger with a burst answers as an allowance that flows without a break, whatever is refilled, rounded, anchored or forgotten |
| Gates.Gate.Check | src/relay/ingress.rs:156-221 | asks the ledgers of wrong passwords, then in a running match those of joins, for the address unless it is loopback and for the lobby name |
| Gates.Gate.ObserveRejoin | src/relay/ingress.rs:235-248 | charges a rejoin to the address unless it is loopback and to the lobby name |
| Gates.RejoinsAreAdmissions | src/relay/ingress.rs:156-262 | the rejoins of an address are the admissions of the ledger asked and charged for it |
| Gates.DecisionIs | src/relay/ingress.rs:156-221 | an attempt is refused for guessing exactly if the address or the name has no wrong password left, and for joining exactly if a match can be rejoined and one of them has no join left |
| Gates.GateIsLedgers | src/relay/ingress.rs:156-262 | over any run each of the four ledgers behind the gate is what its own asks and charges make of it |
| Gates.RejoinBound | src/relay/ingress.rs:156-262 | with the join limit on and a burst of at least one, after any run, an address that is not loopback rejoins at most burst + T / quantum times in a window of length T |
| Gates.GuessBound | src/relay/ingress.rs:189-262 | with the limit on and a burst of at least one, an address that is not loopback, and a lobby name, is let on to a wrong password at most burst + T / quantum times in a window of length T |
| RateLimits.TokenBucket.Take | src/relay/rate_limit.rs:42-77 | passes, drops or kicks by thousandths of a message, re-anchoring on every tick time |
| RateLimits.PassBound | src/relay/rate_limit.rs:42-77 | over every run, steps back and changes of the kick multiple included, passes cost no more than the burst and the rate over the time that went by |
| RateLimits.KickMeansFlood | src/relay/rate_limit.rs:62-76 | a kick means at least the multiple times the burst was sent |
| RateLimits.KeptRatePasses | src/relay/rate_limit.rs:42-63 | a sender that keeps to the burst and the rate is never dropped |
| RateLimits.AtOnce | src/relay/rate_limit.rs:42-77 | of what is sent at one moment exactly the burst passes, and the rest is dropped, or kicked for from the multiple of the burst on |
| RateLimits.DropMakesNoOdds | src/relay/rate_limit.rs:49-70 | a dropped message makes no odds to the next where nobody is kicked, and owes one token where somebody may be, wherever the clock went |
| RateLimits.TurnQuota.Charge | src/relay/rate_limit.rs:96-137 | counts a command for its turn whatever becomes of it, and forgets released turns |
| RateLimits.QuotaIsTotal | src/relay/rate_limit.rs:96-121 | an evicted turn is never opened again, so an open one counts everything ever sent for it |
| RateLimits.TurnStaysCapped | src/relay/rate_limit.rs:96-137 | accepted commands and bytes of a turn stay within the caps over every run |
| RateLimits.PassesWhileWithin | src/relay/rate_limit.rs:123-127 | a command passes exactly while all sent so far for its turn is within both caps |
| RateLimits.KickedOverMultiple | src/relay/rate_limit.rs:123-137 | one over a cap is kicked for exactly over the multiple of one, and dropped otherwise |
| RateLimits.UsedSinceDropped | src/relay/rate_limit.rs:96-121 | in any run, the ready turn stepping back included, the quota holds for a turn all that was sent since it was last dropped |
| RateLimits.SteppingBackReopens | src/relay/rate_limit.rs:105-116 | a turn forgets what it had used exactly if something was sent for it and a later message found it released |
| Pacing.Pacer.ClockAllowance | src/relay/server_fsm.rs:1310-1330 | how many turns the clock has made due, at most two, re-anchoring after a step back or a long gap |
| Pacing.Pacer.ReleaseTurns | src/relay/server_fsm.rs:1279-1288 | releases within the allowance and moves the anchor one interval per turn |
| Pacing.AnchorMoves | src/relay/server_fsm.rs:1279-1330 | the anchor never passes the clock and never moves back |
| Pacing.LostTimeIsLost | src/relay/server_fsm.rs:1321-1324 | time lost beyond two intervals is not made up |
| Pacing.PaceBound | src/relay/server_fsm.rs:1279-1330 | in a window of length T a scripted match releases at most T / interval + 2 turns |
| Pacing.PaceKept | src/relay/server_fsm.rs:1279-1330 | where nobody lags and no tick is two intervals late, exactly the whole intervals gone by are released |
| Pacing.DueIsWhole | src/relay/server_fsm.rs:1310-1330 | up to two intervals on, exactly the whole intervals gone by are due |
| Pacing.OneAfterAStop | src/relay/server_fsm.rs:1321-1324 | after a longer stop exactly one turn is due |
| Pacing.DueAfterAnyLook | src/relay/server_fsm.rs:1310-1330 | none is due at the first look, nor as the clock has stepped back, and one or two an interval after any look |
| Pacing.AnchorStaysBehindIff | src/config.rs:1201-1206 | the anchor can pass the clock exactly if the interval is over a microsecond and no whole number of them |
| PauseBudgets.PauseBudget.SetPausing | src/relay/pause_budget.rs:69-83 | starts a pause at the last check, or ends it and charges what is missing to the minimum |
| PauseBudgets.PauseBudget.Check | src/relay/pause_budget.rs:137-210 | drains the pausing unless all pause together, then the absent, and says what began and ended |
| PauseBudgets.PauseBudget.Inherit | src/relay/pause_budget.rs:126-130 | the heir goes on with what the former player had left |
| PauseRuns.HoldingIsBounded | src/relay/pause_budget.rs:137-210 | over any run a match is held for absent players no longer than the quotas handed out to them |
| PauseRuns.HoldingPerLineage | src/relay/pause_budget.rs:126-210 | that is one budget for each who was ever away, less one for each who inherited |
| PauseRuns.PauseCostsExactly | src/relay/pause_budget.rs:69-130 | an uncoordinated pause by a present player costs exactly the time held or the minimum if more, up to what was left |
| PauseRuns.CheckCosts | src/relay/pause_budget.rs:137-210 | one check costs a player the time since the last, once for pausing on its own account and once for each time it is awaited, down to nothing left |
| PauseRuns.PausingAndAbsentPaysTwice | src/relay/pause_budget.rs:165-195 | in any state, a player both pausing on its own account and absent is charged twice in one check |
| PauseRuns.HeldWhileOwed | src/relay/pause_budget.rs:165-195 | after a check the match is held exactly if somebody absent has quota left, and an absent player is told of exactly as its quota runs out |
| PauseRuns.CheckTells | src/relay/pause_budget.rs:137-210 | a check tells exactly of an agreed pause as it begins and ends, of those whose pause it ended, and of the match it holds, naming all who are waited for, or lets go |
| PauseRuns.StartsAndEndsAlternate | src/relay/pause_budget.rs:202-210 | over any run the held and resumed messages take turns |
| ScriptDecoders.Decoder.TakeValue | src/relay/script_value.rs:307-439 | the recursive reader does what the decoding function does, on any bytes, and terminates |
| ScriptDecoders.Decoder.TakeParts | src/relay/script_value.rs:296-305 | the counted loops read keys and values in order until one fails |
| ScriptDecoders.DecodeBytes | src/relay/script_value.rs:463-471 | decodes one value and refuses trailing bytes |
| ScriptGrammar.Numbers | src/relay/script_value.rs:203-225 | slot n holds what the n-th container opened stands for, a back-reference stands for what the finished table has under its number, and nothing inside a container refers to it, as its slot is empty while it is open |
| ScriptGrammar.Accounts | src/relay/script_value.rs:146-225 | a stored cost is at least the value's true size, and what was spent covers the value and every copy kept |
| ScriptDecoding.ValueReads | src/relay/script_value.rs:307-439 | every well-formed encoding whose references resolve is decoded to what it means, unless too deep or over budget |
| ScriptSoundness.ValueRead | src/relay/script_value.rs:307-439 | whatever is decoded stands there as a well-formed encoding within the limits |
| ScriptSoundness.DecodesItsGrammar | src/relay/script_value.rs:463-471 | decoding succeeds exactly on the encodings within the limits, with exactly what they mean |
| ScriptSoundness.DecodeStaysInBudget | src/relay/script_value.rs:36-46 | the decoded value and every copy kept for back-references are together within the limits, and the value is what the finished table makes of the encoding |
| Checkpoints.CheckpointChain.Store | src/relay/server_fsm.rs:841-853 | refuses a state no newer than the last, and drops what is older than the newest the feed has reached |
| Checkpoints.AtOrBeforeIs | src/relay/server_fsm.rs:835-837 | finds the newest state not past a turn |
| Checkpoints.StoreDropsTheOld | src/relay/server_fsm.rs:841-853 | a newer state is taken in, and of those the feed has reached only the newest is left, of the others all |
| Checkpoints.PruningUnobserved | src/relay/server_fsm.rs:835-853 | for a turn the feed has reached, the answer is that of a chain that never dropped a state |
| Checkpoints.PruningObservedIff | src/relay/server_fsm.rs:835-853 | exactly when the answers agree for any turn |
| Replays.MatchRecordFrom | src/relay/server_fsm.rs:2855-2881 | the lengths and commands of the turns after the base, in order, with the agreed hashes its callers add (4374-4379) |
| Replays.WriteCommandsTxt | src/sidecar.rs:1037-1091 | one pass over the turns, each taking its own commands and hashes from the front of the lists |
| Replays.ByClientIs | src/sidecar.rs:1053-1058 | a turn's commands are permuted into client order, each client's own staying in order |
| Replays.FileIsLog | src/sidecar.rs:1037-1091 | every command logged for the turns asked for is written once, under its turn, and every agreed hash right after its turn |
| Replays.ReplaysCompose | src/sidecar.rs:1037-1091 | the file from turn 0 is the one to a checkpoint followed by the one from it |
| OneLog.ReplayIsWhatWasSent | src/relay/server_fsm.rs:2855-2881 | in any run, what a one-shot run is given for turns a live or delayed client has been sealed is line for line what that client was sent, its commands put by client |
| OneLog.FileSurvivesCrash | src/relay/server_fsm.rs:3818-3824 | a match started over gives a one-shot run the very file the lost one would have, for every turn the journal kept |
| OneLog.CheckpointsOfMatch | src/relay/server_fsm.rs:834-853 | states stored along any crash-free run and pruned by the feed's head answer, at or past the head, as if none had been dropped |
| RunLimits.RunQueue.TakeTurn | src/sidecar.rs:265-303 | one turn of the waiting loop under the lock |
| RunLimits.LimitHolds | src/sidecar.rs:227-314 | for any threads and interleaving, the runs are within the limit and the counters are the permits held and the urgent threads queued |
| RunLimits.UrgentFirst | src/sidecar.rs:265-268 | no other run starts while an urgent one is queued |
| RunLimits.SomeoneCanGo | src/sidecar.rs:265-268 | with a slot free and a thread queued, some queued thread would be let through |
| RunLimits.ArrivalStarts | src/sidecar.rs:265-303 | a thread that finds a slot free starts at once, unless an urgent one is queued and it is not |
| RunLimits.ArrivalWaits | src/sidecar.rs:265-303 | one that finds none queues, or if cancelled leaves no trace |
| RunLimits.CancelLeaves | src/sidecar.rs:269-280 | a cancelled waiter starts or leaves no trace |
| EnetList.Clear | src/enet/c/list.rs:13-16 | leaves a ring of the sentinel alone |
| EnetList.Insert | src/enet/c/list.rs:17-27 | inserts a node in front of a position |
| EnetList.Remove | src/enet/c/list.rs:28-32 | takes a node out |
| EnetList.Move | src/enet/c/list.rs:33-47 | moves a range in front of a position of another list, or of its own outside the range |
| EnetList.QueueBytes | src/enet/peer.rs:18-28 | the walk ends with the sum over the queue |
| EnetList.MoveKeepsBytes | src/enet/c/list.rs:33-47 | a move takes its bytes from one queue to the other |

## Left out

- Sockets, the ENet host, threads, channels, processes, files, metrics, logging and configuration parsing.
- The other phases of the server: lobby, setup, authentication order, chat, AI-host healing. A match begins here with its starters loaded, or from a save.
- Client ids: taken as distinct; the counter's saturation at sixteen bits is not modelled.
- A session's slot class (player, observer, delayed, AI host) is fixed while it lasts.
- Integers are unbounded, except the journal's and the settings decoder's fields, whose widths are explicit.
- RelayServer.Server.OnPlayerCommand: the flood limits and the slot check are one parameter here; the limits themselves are in `RateLimit.dfy`.
- RelayServer.Server.OnStateHash: the reports of a mismatch sent to players are not among the streams.
- RelayServer.Server.DeliverSnapshot: the grant of the snapshot is in `Transfer.dfy`; refusing an oversized one is left out.
- RelayServer.Server.ReleaseAll: the pace is a parameter; the clock that sets it is in `Pacing.dfy`.
- RelayJoins.JoinReplaySeamless: the fetches that hand out a state are not modelled; a step may hand out one of any turn, and the guard says which are in step.
- RelayServer.Server.OnDisconnected: the retry of joiners the peer was serving (src/relay/server_fsm.rs:2094-2102) is not inside the step; a state it comes up with is a delivery of its own.
- RelayServer.Server.Shutdown: the closing of the connections; a run may go on after it until it is started over.
- RelayTheorems.ReleasedTurnsFrozen: says nothing across a crash, which can lose the newest turns.
- RelayFlares.FlaresReach: says nothing across a crash, which drops the flares still held and every connection. A flare's sender id and its rate limit are left out.
- TornJournal.CrashAtAnyByte: asks that every saved record be within its fields' widths and count limits; `Journal.BodyOfTruncates` says what becomes of one that is not.
- Transfers.TransferTable.Forget: whom the peer was sourcing is a set, not a list. The stall clock of a pull is left out.
- PauseBudgets.PauseBudget.Check: the periodic status lines are left out, and the players expired in one check are one event.
- Gates.RejoinBound: an attempt before the first tick is charged to nobody, and has no place in a window.
- Gates.GuessBound: by lobby name, bounds only names known as the attempt was asked for; one learned while answering is charged without having been asked.
- Replays.WriteCommandsTxt: the start line, and the decoding of a command to text, which an engine run does.
- ScriptDecoders.Decoder.TakeValue: a string is its flag and bytes, a double its eight bytes; the three counted loops are one method.
- RunLimits.LimitHolds: no limit set means no counters; fairness of the condition variable is not modelled.
