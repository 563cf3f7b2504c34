# horsie-actor, verified

A Dafny model of horsie-actor, an event-sourced actor runtime with clustering, and proofs about what it
does over whole runs. Each concurrent part is a step system: one step per journal call, per registry lock
section, per message, per file-system call, interleaved freely with crashes, losses and failures. What holds
is an invariant every step keeps, and the theorems are about every run. Where the source keeps its state in
an object, the model has a class with the same fields, and its methods are proved against the functions the
step systems take their steps with.

| part | files | what it proves |
|---|---|---|
| The fenced event log | `Journal`, `EventSourcing`, `EventLog`, `Recovery`, `GapRun`, `Fence`, `DurableAcks`, `Persistent`, `Commands`, `PlainLog` | any number of instances on one log share one history; recovery is exact unless a compaction opens a gap between its two reads; stale writers never move the log; acknowledgements are durable; snapshots are invisible; what one command writes, publishes and answers, for any writer |
| Reply routing | `ReplyRouting`, `ReplyOutcomes`, `ReplyTokens`, `ReplyRuns`, `ReplyAnswers`, `ClusterNode` | one outcome a caller under any loss; answers are genuine, and a caller has one if and only if it arrived; every waiting row has exactly one token while sends are accepted; what is stranded stays unanswered |
| The path registry | `Paths`, `Registry`, `GuardianStop`, `Sweeps`, `Progress`, `RegistryRuns`, `System` | no registered actor outlives its creator; one instance per path; waits never cycle; stopping a quiet branch ends it, children first, and can always be finished; what an ending actor waits for and whose children it sweeps, exactly |
| Raft storage | `RaftState`, `RaftDisk`, `RaftStore` | a crash anywhere reopens to a state no older than the last acknowledged one; no acknowledged vote is forgotten while saved votes rise; the keyed log is one contiguous window; snapshot plus rest is the whole |
| Placement | `Placement`, `LiveWatch` | losing members moves only their shards; FNV-1a, at its published values and over the documented layout, never ties ids one byte apart; no live-set change is missed |
| Delivery | `Dedup`, `Mailbox` | the window rejects exactly the recent ids; one delivery per window; nothing is accepted without quorum; commands are handled once and in order; when a repeat's success is true |

`Wrappers` holds `Option` and `Result`, `Ordered` two facts about sets of numbers.

## Where the code falls short of what it says

Some properties one would expect turned out to be false of the code. The model keeps the code as it is, shows
an input or a run for each, and proves exactly when the property does hold.

- Recovery reads the snapshot and the events separately. If another writer compacts in between and then
  appends, the recovered state can be wrong and the write fence does not notice. For an actor that records
  its events it is right if and only if recovery does not start below the compaction floor of a log with
  events left
  (`Recovery.RecoveryIsRightIffNoGap`, `GapRun.GapIsReachableAndUnfenced`).
- `ask` promises to clean its row up however it ends. It does, if and only if it does not end while its
  sender is unspent and its handle not fully encoded (`ReplyOutcomes.AnAskLeavesARowIffItsHandleWasUnencoded`,
  `ReplyRuns.AnAskCanEndBeforeItsRowGoesIn`).
- Nobody should be left waiting for an answer that cannot come. A handle is disarmed when it is encoded for
  forwarding, before the send is known to have worked, so a failed send can do it. A waiting caller is
  stranded if and only if a failed send or a lost message took the last handle or message with its wire
  (`ReplyTokens.AWaitingCallerIsStrandedIffItsLastTokenWasTaken`), and after a run in which nothing was lost a
  failed send strands a caller if and only if one is waiting (`ReplyTokens.AFailedSendStrandsIffSomeoneWaits`,
  `ReplyRuns.AForwardThatFailsStrandsTheCaller`).
- One handle should be one answer to give. A local handle refuses to be encoded twice; a remote one that is
  already disarmed does not, and puts a second token for the same caller on its way
  (`ClusterNode.SerializeTwice`).
- Children should end before their parent. An ending actor waits for exactly the children whose rows it takes
  out of the registry itself; one that has no row at its scan it never waits for
  (`Sweeps.AParentEndsAfterExactlyTheChildrenItTookOut`, `RegistryRuns.ARetiringChildCanOutliveItsParent`).
- An ending actor should take down only what is its own. It sweeps by path, so its scan finds somebody
  else's child if and only if another instance of its path has a registered child, or somebody outside
  registered an actor directly below it (`Sweeps.ASweepTakesOthersIffTheyAreRegistered`,
  `RegistryRuns.ASlowShutdownSweepsItsReplacementsChildren`).
- A repeated command is reported as a success because it has been applied. The id is recorded before the
  shard type is looked up and before its receiver has decoded, found and told the instance, so a command
  refused by any of them is told, on retry, that it succeeded. It was delivered if and only if the type was
  registered, the payload decoded, the instance was running or could be built, it was there, and its mailbox
  took the command (`Dedup.ARepeatWasDeliveredIffItsFirstArrivalWasTaken`, `Dedup.FiveWaysToBeRefused`).
- And a delivered command need not be handled. An instance that is stopped loses the command in hand and
  everything queued, and its mailbox goes on taking commands until its task has ended. A command has been
  applied if and only if it was delivered and its instance has finished at least as many commands as it was
  in line; if its instance left before that, it never will be (`Mailbox.ARepeatWasAppliedIffItsTurnCame`,
  `Mailbox.AQueuedCommandCanBeLost`, `Mailbox.ACommandInHandCanBeLost`).
- A kept snapshot should only move forward. Building one is two lock sections, so it moves backwards if and
  only if one of a later log id was installed or stored in between and kept last, and the log may then be
  purged beyond it (`RaftState.AStoreMovesBackwardsIffALaterOneWasKept`, `RaftState.ALateStoreCanUncoverTheLog`).
- An acknowledged update survives a crash if and only if the last acknowledging rename was durable; the
  directory is not synced (`RaftDisk.AckedIsStoredIffTheRenameLasted`, `RaftDisk.AForgottenRenameForgetsTheVote`).

## Model

| member | source | states |
|---|---|---|
| `Journal.Admit` | src/journal.rs:117-126 | a write is let through exactly when the writer expects the log to end where it ends, and otherwise both numbers are reported |
| `Journal.AfterIsDrop` | src/journal.rs:158-176 | on a log numbered without holes, reading after a number is dropping exactly that many events, all or none at the ends |
| `Journal.InMemoryJournal.Persist` | src/journal.rs:142-156 | an admitted batch is appended with consecutive numbers and a refused one changes nothing; every other log is untouched |
| `Journal.InMemoryJournal.Replay` | src/journal.rs:158-176 | the stored events above the number, in order; nothing for an unknown id |
| `Journal.InMemoryJournal.SaveSnapshot` | src/journal.rs:178-189 | the snapshot is replaced only under the same check as a write |
| `Journal.InMemoryJournal.LatestSnapshot` | src/journal.rs:191-193 | the stored snapshot, if any |
| `Journal.InMemoryJournal.DeleteEventsBefore` | src/journal.rs:195-201 | events up to the number go, unconditionally; numbering and snapshot stay |
| `Journal.InMemoryJournal.CopySnapshot` | src/journal.rs:203-221 | the target log becomes the source's snapshot and nothing else; without one it is an error and nothing changes |
| `Journal.InMemoryJournal.LastSeq` | src/journal.rs:223-225 | where the log ends, zero for an unknown id |
| `Journal.InMemoryJournal.Clear` | src/journal.rs:227-230 | the id is forgotten and no other |
| `EventSourcing.FoldStreamIsStateAt` | src/persistent.rs:143-154 | folding the stored tail onto the state at its start gives the fold of the whole history and its length |
| `EventLog.StepKeepsLog` | src/journal.rs:105-201 | every step of every instance keeps the log invariant: numbering is the history's length, stored events are its numbered suffix, compaction never passes the snapshot |
| `EventLog.RunKeepsLog` | src/journal.rs:105-201 | so does every run, with any number of instances, failures and crashes |
| `Recovery.EveryRunIsOneHistory` | src/persistent.rs:130-218 | every run from the start has one history, and without gaps the snapshot, every publication and every live state are its folds |
| `Recovery.RunKeepsTruth` | src/persistent.rs:130-218 | the same from any true state |
| `Recovery.RecoveryIsExact` | src/persistent.rs:130-155 | without a gap recovery reports the fold up to the number it reports, all of the history unless overtaken by a compaction, and then its next write is refused |
| `Recovery.RecoveryIsRightIffNoGap` | src/persistent.rs:130-155 | for an actor that records its events, recovery gives a prefix of the history if and only if it does not start below the compaction floor of a log with events left |
| `GapRun.GapIsReachableAndUnfenced` | src/persistent.rs:134-143 | a run in which recovery skips an acknowledged event, passes the fence, and then makes the wrong state the snapshot |
| `Fence.LateCompactionIsCovered` | src/persistent.rs:193-218 | a compaction, however late, deletes only events the stored snapshot covers |
| `Fence.BehindNeverMovesTheLog` | src/persistent.rs:62-125 | no step of an instance behind the log changes history, numbering or snapshot, or publishes |
| `Fence.BehindForTheRestOfTheRun` | src/persistent.rs:62-125 | and it stays behind, through any run, for as long as it lives |
| `Fence.FirstCompletedCommandStops` | src/persistent.rs:62-125 | the first command it completes without a serialization or backend error stops it, unacknowledged, even one that persists nothing |
| `Fence.RefusedWriteChangesNothing` | src/persistent.rs:162-191 | a write that fails or is refused leaves state, number, log, history and publications alone |
| `DurableAcks.RunKeepsAcks` | src/persistent.rs:162-191 | over any run acknowledged batches stay in the history, whole, contiguous, each under its own number, in the writer's order, and each was published |
| `DurableAcks.AcksHoldFromTheStart` | src/persistent.rs:62-125 | so in every run from the empty log |
| `DurableAcks.FoldedBeforeAck` | src/persistent.rs:62-125 | when an acknowledgement is due the instance's state is the fold up to the end of that batch |
| `DurableAcks.RecoveryReflectsAcks` | src/persistent.rs:130-155 | every later recovery that no compaction has overtaken has folded that batch at its place |
| `Persistent.Persistent.constructor` | src/persistent.rs:32-44 | a new adapter holds the initial state at number zero |
| `Persistent.Persistent.OnStart` | src/persistent.rs:54-60 | state and number become what recovery found, or the actor does not start and they stay |
| `Persistent.Persistent.Recover` | src/persistent.rs:130-155 | the loop over the replay is the fold of the stored tail onto the snapshot, with the first undecodable event as the error |
| `Persistent.Persistent.PersistEvents` | src/persistent.rs:162-191 | all events are encoded before the one write; the result is the first of serialization, backend and conflict |
| `Persistent.Persistent.SnapshotState` | src/persistent.rs:198-218 | compaction happens only after an accepted snapshot, and neither failure is the command's |
| `Persistent.Persistent.Handle` | src/persistent.rs:62-125 | write, fold, publish, snapshot, acknowledge and stop, as the specification of one command says |
| `PlainLog.RecoveredIsTheWholeHistory` | src/persistent.rs:130-155 | recovering an undisturbed log gives the fold of the whole history, however much of it was compacted |
| `PlainLog.HandleRefinesPlainLog` | src/persistent.rs:62-125 | one command over the compacting log does exactly what it does over a plain append-only history |
| `PlainLog.SnapshotsAreInvisible` | src/persistent.rs:96-98 | two lifetimes of the same commands that differ in snapshot flags and failed snapshots agree on states, numbers, publications, results and what they recover to, and their logs end up holding one history |
| `PlainLog.SnapshotsStayInvisibleAcrossRestarts` | src/persistent.rs:54-60 | and so across any number of restarts, each starting from what it recovers |
| `PlainLog.ForkHoldsTheSnapshotPrefix` | src/journal.rs:203-221 | a fork holds the source's history up to the snapshot and recovers its fold there |
| `PlainLog.TwoLogsGoTheirOwnWays` | src/journal.rs:142-201 | two writers in one journal, in any interleaving, each go the way they would alone, and no third log is touched |
| `PlainLog.AForkEvolvesIndependently` | src/journal.rs:203-221 | after the copy, whatever both do in one journal, the source extends its own history and the fork the source's up to the snapshot |
| `PlainLog.HandleIsARun` | src/persistent.rs:62-125 | a whole command is one particular stretch of the interleaved runs, with the same log, state, publication, acknowledgement and flow |
| `PlainLog.FinishIsARun` | src/persistent.rs:104-124 | the last step of that stretch acknowledges exactly an accepted write that asked for it, and ends the instance exactly on a stop or a conflict |
| `Commands.EncodedOneByOne` | src/persistent.rs:162-175 | a batch encodes if and only if each of its events does, and then event by event |
| `Commands.ARefusedCommandDoesNothing` | src/persistent.rs:62-125 | for every log, state, number, decision and outage: a refused write leaves log, state and number alone and publishes nothing, and the error says which of the three ways it was refused |
| `Commands.AnAcceptedCommandIsWrittenFoldedAndPublished` | src/persistent.rs:62-125 | an accepted one continues the log with exactly its events and folds and publishes all of them; a snapshot of the new state is left if and only if asked for, not stopping, encodable and saved, and only then are the events it covers deleted |
| `Commands.OnlyWhatWasWrittenIsPublished` | src/persistent.rs:82-90 | for any writer: what is published is nothing or the whole batch, and the log has grown by exactly that |
| `Commands.RecoveryFailsIffSomethingDoesNotDecode` | src/persistent.rs:130-155 | recovery fails if and only if the snapshot or an event after it does not decode |
| `Commands.StreamFoldsIffAllDecode` | src/persistent.rs:143-154 | a replay succeeds if and only if every event in it decodes, and fails only as a serialization error |
| `Commands.AWriteIsKeptIffItLands` | src/persistent.rs:162-191 | a batch is in the history exactly when it encoded, reached the journal and was level with it; its writer hears of success exactly when the reply arrives too |
| `Paths.Child` | src/path.rs:44-51 | one segment longer, with the parent's as its prefix |
| `Paths.StartsWithIsAncestry` | src/path.rs:109-116 | segment-wise prefix is exactly the ancestor-or-self order that parents generate |
| `Paths.Fmt` | src/path.rs:134-144 | the loop spells the display form |
| `Paths.ParseThenDisplay` | src/path.rs:62-76 | what parses displays as the text it came from, and parses to valid names only |
| `Paths.ExactlyTheseTextsParse` | src/path.rs:62-76 | a text parses if and only if it is the root or it is absolute, does not end in a separator and has no two in a row |
| `Paths.DisplayThenParse` | src/path.rs:134-144 | a path displays to a text that parses back to it if and only if every segment is a valid name |
| `Paths.ShardRootOfIsThePrefix` | src/shard.rs:147-157 | a path belongs to a shard exactly when that shard's root is its prefix |
| `Paths.AddressReadsBack` | src/shard.rs:102-106 | an address, and anything below it, answers with its own type and shard ids |
| `Paths.AddressInFull` | src/shard.rs:102-133 | an address displays as the two fixed names and then type, shard and entity in that order |
| `Paths.OneEntityIsOneAddress` | src/shard.rs:102-106 | equal addresses have equal type, shard and entity |
| `Paths.AnAddressIsUnderItsShard` | src/shard.rs:102-133 | an address is the child of its shard's root that is named after the entity |
| `Registry.StepKeepsRegistry` | src/system.rs:338-367 | every lock section and every step of an ending task keeps the registry invariant |
| `Registry.RunKeepsRegistry` | src/system.rs:504-546 | so does every interleaving of creates, stops and self-stops |
| `Registry.RegistryIsSound` | src/runtime.rs:455-481 | in every run no registered actor has a creator whose task has ended, and two running instances of one path that were not asked to stop are the same one |
| `Registry.RetireSparesTheReplacement` | src/system.rs:357-367 | an actor on its way out removes its own row and never the row of the instance that replaced it |
| `Registry.WaitsNeverCycle` | src/system.rs:283-294 | a chain of actors waiting for each other goes to strictly longer paths, so none is a cycle |
| `Registry.SomeoneBelowCanMove` | src/runtime.rs:455-481 | below every blocked actor there is one whose own task has an enabled step, so ending actors never all wait for each other |
| `GuardianStop.RunKeepsStop` | src/system.rs:268-294 | a stop of an otherwise quiet branch keeps its invariant while handlers go on creating children in it |
| `GuardianStop.StoppingABranchEndsIt` | src/system.rs:268-294 | no actor of the branch ends before one it created, and when the call returns everything in the branch has ended and no key of it is left |
| `GuardianStop.ACallBeginsAStop` | src/system.rs:268-294 | a call on a branch in which nothing is on its way out starts with the root to halt and a quiet branch |
| `GuardianStop.WhatWasBelowEndsFirst` | src/system.rs:268-294 | an actor of the branch ends only after everything below its path that was there when the stop began, whoever created it |
| `GuardianStop.StopTouchesNoOtherBranch` | src/system.rs:338-350 | no step of the stop changes an actor or a row outside the branch |
| `Sweeps.AnActorServesIffItStartedAndHasNotLeft` | src/runtime.rs:464-468 | in every run an actor serves exactly from a successful `on_start` until it leaves, and one whose `on_start` failed never does |
| `Progress.AStopCanAlwaysFinish` | src/system.rs:268-294 | from any moment of a stop some finite quiet continuation makes the call return |
| `Progress.AStopOfAQuietBranchCanFinish` | src/system.rs:268-294 | so every stop of a quiet branch has a quiet run in which it returns with everything in the branch ended |
| `RegistryRuns.EndLeavesOnlyUnregisteredChildren` | src/runtime.rs:476-478 | whatever the run, an actor ends only over children that had already left the registry |
| `Sweeps.AnEndingActorWaitsForExactlyWhatItTakesOut` | src/system.rs:338-350 | between its scan and its end an actor waits for exactly the actors whose rows it took out |
| `Sweeps.AParentEndsAfterExactlyTheChildrenItTookOut` | src/runtime.rs:476-478 | when a parent may end, a child whose row it took out has ended, and any other it never waited for; without a row at the scan it is the second |
| `Sweeps.AChildLeftToItsParentEndsFirst` | src/system.rs:283-294 | a child registered at the scan whose row nobody else removes ends before its parent |
| `Sweeps.AnUnregisteredChildCanBeLeftBehind` | src/system.rs:283-294 | with nothing registered below, a parent can end at once over any child that has not ended |
| `Progress.AParentCanEndOverAChildOutOfReach` | src/runtime.rs:476-478 | from any world, whatever is registered, an actor can be brought to its end over any child without a row that it does not wait for, without that child taking a step |
| `Sweeps.ASweepTakesOthersIffTheyAreRegistered` | src/system.rs:283-294 | in every run, a scan finds a child that is not the scanner's if and only if another instance of its path, not ended, has a registered child or one was registered from outside |
| `Sweeps.EverythingSweptDescendsFromAnInstance` | src/system.rs:283-294 | whatever is below a path, however deep, descends by creators from an instance of that path or from outside |
| `RegistryRuns.ARetiringChildCanOutliveItsParent` | src/runtime.rs:476-478 | a run in which a parent ends while a child that retired on its own has not |
| `RegistryRuns.ASlowShutdownSweepsItsReplacementsChildren` | src/system.rs:283-294 | a run in which an ending actor halts the child of the instance that took its path |
| `System.SystemInner.Resolve` | src/system.rs:228-236 | the registered instance, if it still takes messages |
| `System.SystemInner.GetOrCreate` | src/system.rs:504-546 | the running instance or one fresh one, as the create step; refused while not serving, for a bad name, and for a row of another command type |
| `System.SystemInner.TakeOut` | src/system.rs:338-350 | the row is gone and the instance asked to stop in one section |
| `System.SystemInner.Retire` | src/system.rs:357-367 | exactly the retire step: the row goes only if it is this instance's |
| `System.SystemInner.Doomed` | src/system.rs:283-294 | exactly the keys strictly below the path, each once |
| `ReplyRouting.MintedIdsDiffer` | src/cluster/node.rs:206-209 | two nodes never mint the same id and none repeats one until its counter wraps |
| `ReplyRouting.Trimmed` | src/cluster/node.rs:415-432 | the eviction loop ends within capacity with a part of the table, and changes nothing that fits |
| `ReplyRouting.EvictsTheOldest` | src/cluster/node.rs:415-432 | everything evicted is older than everything kept |
| `ReplyRouting.StepKeepsSenders` | src/reply.rs:139-308 | every step keeps each unspent sender in its caller's first handle until that is encoded and then in its row, and nowhere else |
| `ReplyOutcomes.RunKeepsSenders` | src/reply.rs:139-308 | so does every run, under loss, duplication, forwarding, cancellation, eviction and stand-down |
| `ReplyOutcomes.TheFirstOutcomeStands` | src/cluster/node.rs:367-379 | a caller gets at most one outcome: the first one is the one it has at the end of any run |
| `ReplyOutcomes.AnUnspentSenderIsInOnePlace` | src/reply.rs:223-246 | until then the right to answer is in exactly one place |
| `ReplyOutcomes.RunKeepsTables` | src/cluster/node.rs:415-432 | no waiting table ever exceeds its capacity |
| `ReplyOutcomes.AnswersAreAddressed` | src/cluster/node.rs:461-478 | only its own local handle or a message for its own wire answers a caller |
| `ReplyOutcomes.EveryAnswerWasGiven` | src/reply.rs:177-199 | the payload a caller gets was given by whoever held its handle: none is invented or misdelivered |
| `ReplyOutcomes.AnEndedAskLeavesNoRow` | src/runtime.rs:280-288 | an ask that does not end before its handle is encoded leaves no row from then to the end of the run |
| `ReplyOutcomes.AHalfEncodedHandleKeepsItsRow` | src/reply.rs:230-246 | one that ends between its row going in and its slot being filled leaves the row |
| `ReplyOutcomes.ALateEncodingLeavesARow` | src/reply.rs:223-246 | encoding a local handle always leaves a row that the same step does not evict, ended ask or not |
| `ReplyOutcomes.AnAskLeavesARowIffItsHandleWasUnencoded` | src/runtime.rs:280-288 | the two together: the exact condition under which an ended ask leaves a row |
| `ReplyOutcomes.ADelayedRowStaysIffItIsNotTheOldest` | src/cluster/node.rs:415-432 | a row that goes in after later ones stays if and only if there is room or an older row to evict |
| `ReplyTokens.StepKeepsTokens` | src/reply.rs:177-308 | every reliable step keeps one token for each row |
| `ReplyTokens.EveryRowHasOneToken` | src/reply.rs:177-308 | through any number of forwards each waiting row has exactly one handle or message that owes it an answer |
| `ReplyTokens.AQuietSystemHasAnsweredEveryone` | src/reply.rs:139-147 | with no handles and no messages left there is no row and every caller has its outcome |
| `ReplyTokens.AStrandedCallerIsNeverAnswered` | src/reply.rs:258-265 | once no handle and no message carries its wire a caller is never answered, in any continuation |
| `ReplyTokens.AStepStrandsIffItTakesTheLastToken` | src/reply.rs:258-265 | from any state a step strands a waiting caller if and only if it is a failed send or a loss that takes the last token of its wire |
| `ReplyTokens.AWaitingCallerIsStrandedIffItsLastTokenWasTaken` | src/reply.rs:258-265 | in every run a waiting caller is stranded if and only if some earlier step took its last token |
| `ReplyTokens.AFailedSendStrandsIffSomeoneWaits` | src/system.rs:662-667 | after any reliable run a send that fails strands a caller if and only if one is waiting for it |
| `ReplyRuns.AForwardThatFailsStrandsTheCaller` | src/system.rs:662-667 | a run, reliable but for its last send, that leaves a caller waiting with no token |
| `ReplyRuns.AnAskCanEndBeforeItsRowGoesIn` | src/runtime.rs:178-194 | a run in which an ask ends first and its row goes in afterwards |
| `ClusterNode.ClusterNode.NextMessageId` | src/cluster/node.rs:206-209 | the next id of this node, and the counter moves on |
| `ClusterNode.ClusterNode.Register` | src/cluster/node.rs:415-432 | insert under the next correlation, then drop the lowest while too many, as the run model's step |
| `ClusterNode.ClusterNode.DeliverReply` | src/cluster/node.rs:367-379 | the row, if there, is taken out and its sender used, or dropped when there is no answer or it does not decode; a late reply does nothing |
| `ReplyAnswers.ACallerIsAnsweredIffItsAnswerArrives` | src/cluster/node.rs:367-379 | a step gives a waiting caller this answer if and only if it hands it over at home or delivers it, decoded, on the caller's own wire |
| `ReplyAnswers.ACallerIsDroppedIffItsSenderIs` | src/cluster/node.rs:367-456 | and is told there is none if and only if its sender is dropped: with its handle, by an arriving none, by an undecodable answer, by its own end, by eviction or by standing down |
| `ReplyAnswers.WhatTheHolderSaidIsWhatTheCallerGets` | src/reply.rs:177-199 | in a run that loses nothing, once the holder of a waiting caller's handle has answered, the caller has that answer, or was let go, or that answer and no other is on its way |
| `ReplyAnswers.ADeliveredAnswerIsTheOneGiven` | src/cluster/node.rs:461-478 | and when no message is left the caller has that answer unless it was let go |
| `ClusterNode.ClusterNode.Forget` | src/cluster/node.rs:454-456 | the row, if there, is dropped |
| `ClusterNode.ClusterNode.AbandonWaiting` | src/cluster/node.rs:399-407 | every row is dropped and every sender with it |
| `ClusterNode.ClusterNode.RouteReply` | src/cluster/node.rs:461-478 | delivered here when the caller is here, and otherwise a message for its node with the table untouched |
| `ClusterNode.Deregister.Cancelled` | src/runtime.rs:280-288 | whatever the slot names is dropped from the table, once |
| `ClusterNode.ReplyTo.FromSender` | src/reply.rs:160-165 | a local handle with its sender and an empty slot |
| `ClusterNode.ReplyTo.Decode` | src/reply.rs:275-308 | an armed handle for the wire it was decoded from |
| `ClusterNode.ReplyTo.Send` | src/reply.rs:177-199 | answering takes the right to answer: a spent handle fails and reaches nobody; an unspent one is spent and reaches its caller or its caller's node, with the news that there is no answer if it will not encode |
| `ClusterNode.ReplyTo.Drop` | src/reply.rs:139-147 | dropping an unspent handle tells whoever waits that there is no answer; dropping a spent one does nothing |
| `ClusterNode.ReplyTo.Serialize` | src/reply.rs:211-267 | a local handle becomes a row, once; a remote one keeps its wire and is disarmed; outside a router it is an error and nothing moves |
| `ClusterNode.SerializeTwice` | src/reply.rs:248-265 | a second encoding succeeds if and only if the handle is a remote one, and then with the same wire |
| `RaftState.StepRefines` | src/cluster/store.rs:191-224 | keyed inserts and retains do to the map what appending and slicing do to a window |
| `RaftState.TheLogStaysOneWindow` | src/cluster/store.rs:191-224 | under consecutive appends, truncations and purges the stored entries are one contiguous window with the expected contents throughout |
| `RaftState.TheReportIsTheEnd` | src/cluster/store.rs:159-170 | the reported last log id is the window's end, or the purged id when it is empty |
| `RaftState.SnapshotThenTheRestIsTheWhole` | src/cluster/store.rs:234-320 | a snapshot built after k entries, installed anywhere and followed by the rest, gives the applied id, membership and live set of applying all of them |
| `RaftState.TheLatestEntriesDecide` | src/cluster/store.rs:264-295 | after applying, each set is the one in the last entry of its kind, and the applied id the last entry's |
| `RaftState.KeptIsNeverAhead` | src/cluster/store.rs:234-320 | while the engine applies and installs forwards, the kept snapshot is never ahead of what is applied |
| `RaftState.AStoreMovesBackwardsIffALaterOneWasKept` | src/cluster/store.rs:234-250 | storing a taken snapshot moves the kept one backwards if and only if a later one was installed or stored in between and kept last |
| `RaftState.ALateStoreCanUncoverTheLog` | src/cluster/store.rs:218-250 | an install and a purge between the taking and the storing leave entries neither in the snapshot nor in the log |
| `RaftDisk.StepKeepsDisk` | src/cluster/store.rs:97-134 | every step, failure and crash leaves a file that is whole, synced and some earlier memory state |
| `RaftDisk.AStoreAlwaysReopensToSomeUpdate` | src/cluster/store.rs:69-81 | opening after a crash never fails and never mixes two states |
| `RaftDisk.ReopeningLosesNothingAcknowledged` | src/cluster/store.rs:97-134 | with renames that last, it reopens to the memory state after some update no earlier than the last acknowledged one |
| `RaftDisk.AnAcknowledgedVoteIsNeverReplacedByAnOlder` | src/cluster/store.rs:176-178 | with a caller whose votes never fall, no later memory, across any crashes, holds an older vote than one acknowledged |
| `RaftDisk.AForgottenRenameForgetsTheVote` | src/cluster/store.rs:112-112 | a run in which a returned rename is lost in a crash and the acknowledged vote with it |
| `RaftDisk.AckedIsStoredIffTheRenameLasted` | src/cluster/store.rs:97-113 | what a crash gives back is no older than what was acknowledged if and only if the last acknowledging rename was durable |
| `RaftStore.OnlyACleanFlushMovesTheFile` | src/cluster/store.rs:97-113 | a flush that fails anywhere leaves the file as it was |
| `RaftDisk.OnlyWhatWasSyncedOpens` | src/cluster/store.rs:69-81 | after a crash a file opens if and only if there is none or it was synced, and then as what was written; anything else is refused and never taken for an empty store |
| `RaftState.VotesAreInOneOrder` | src/cluster/store.rs:176-178 | votes are totally ordered, so a saved vote is never merely incomparable |
| `RaftState.EachPartHasItsOwnCalls` | src/cluster/store.rs:176-320 | after any sequence of calls each part of the state is what the last call about it made it, whatever else was called |
| `RaftState.TheLogIsItsOperations` | src/cluster/store.rs:191-224 | after any sequence of calls entries and purged id are those the log operations among them give alone |
| `RaftState.WhatNoEntryNamesStays` | src/cluster/store.rs:264-295 | applying entries changes membership and live set only as far as an entry names them |
| `RaftStore.VotesRiseIfSavesDo` | src/cluster/store.rs:129-178 | if no saved vote is below the one held, no call of any kind lowers it |
| `RaftStore.TheStoreNeverForgetsAnAcknowledgedVote` | src/cluster/store.rs:129-178 | so from the arguments of `save_vote` alone: whatever is called and wherever it crashes, memory never holds a vote older than one acknowledged |
| `RaftStore.AnUpdateIsARun` | src/cluster/store.rs:129-134 | every call on the store, clean or failed, is a stretch of a run, with memory ahead of the disk after a failure |
| `RaftStore.RaftStore.Open` | src/cluster/store.rs:69-81 | empty without a file, an error for one that cannot be read or does not decode, and otherwise what it holds |
| `RaftStore.RaftStore.Flush` | src/cluster/store.rs:97-113 | write a sibling, sync it, rename it, with the disk of the step model wherever it stops |
| `RaftStore.RaftStore.SaveVote` | src/cluster/store.rs:176-178 | the vote, and only it, changes in memory and is on disk if it returns success |
| `RaftStore.RaftStore.SaveCommitted` | src/cluster/store.rs:180-185 | the committed id, and only it |
| `RaftStore.RaftStore.Append` | src/cluster/store.rs:191-208 | the entries are inserted in order, and the callback is signalled only with them on disk |
| `RaftStore.RaftStore.TruncateAfter` | src/cluster/store.rs:210-216 | exactly the entries up to the given one stay, none for no id |
| `RaftStore.RaftStore.Purge` | src/cluster/store.rs:218-224 | exactly the entries after the given one stay and it is the purged id |
| `RaftStore.RaftStore.GetLogState` | src/cluster/store.rs:159-170 | the purged id and the highest entry's, or the purged one when there is none |
| `RaftStore.RaftStore.TakeSnapshot` | src/cluster/store.rs:234-245 | the snapshot of the applied state as it is under the lock |
| `RaftStore.RaftStore.StoreSnapshot` | src/cluster/store.rs:246-250 | that snapshot is kept and returned, whatever was applied since |
| `RaftStore.RaftStore.Apply` | src/cluster/store.rs:264-295 | entries are applied and then answered one at a time up to the first failed item or flush, with memory exactly one entry ahead of the disk after a failed flush and nobody answered beyond the disk |
| `RaftStore.RaftStore.InstallSnapshot` | src/cluster/store.rs:303-320 | the applied state becomes the snapshot's and the log is untouched; one that does not decode changes nothing |
| `Placement.EatIsInjective` | src/cluster/placement.rs:91-94 | a hash step is injective in the hash and in the byte, modulo 2^64 |
| `Placement.OneByteApartNeverCollides` | src/cluster/placement.rs:91-105 | streams that differ in exactly one byte never hash alike |
| `Placement.TheStreamIsInjective` | src/cluster/placement.rs:95-105 | the bytes hashed determine type, shard and node |
| `Placement.NoSeparatorInUtf8` | src/cluster/placement.rs:85-88 | the separator is never a byte of UTF-8 |
| `Placement.IdsOneByteApartNeverTie` | src/cluster/placement.rs:81-106 | node ids that differ in exactly one byte never tie for any shard |
| `Placement.SmallIdsHaveAUniqueMaximum` | src/cluster/placement.rs:65-70 | ids below 256 always give a strict maximum |
| `Placement.ComputeScore` | src/cluster/placement.rs:81-106 | the running hash is FNV-1a of type, separator, shard, separator and the id's big-endian bytes |
| `Placement.TheStandardsValues` | src/cluster/placement.rs:81-106 | the hash is FNV-1a's published 64-bit value for no bytes, for `a` and for `fo` |
| `Placement.TheLayout` | src/cluster/placement.rs:81-106 | by position: the type, a separator, the shard, a separator, and eight bytes whose big-endian value is the node |
| `Placement.Utf8ReadsBack` | src/cluster/placement.rs:85-95 | the bytes of a character read back to it whatever follows |
| `Placement.TheOwnerIsTheHighestOfTheBest` | src/cluster/placement.rs:65-70 | a member is the owner if and only if no score is higher and, of those with its score, no id is |
| `Placement.MaxByKey` | src/cluster/placement.rs:65-70 | visiting members in ascending order finds the one that beats all others, the higher id on a tie, and nobody when there are none |
| `Placement.OneOwner` | src/cluster/placement.rs:65-70 | there is only one such member |
| `Placement.TheSameMembersAgree` | src/cluster/placement.rs:43-45 | lists with the same members, in any order and with any repeats, give the same owner |
| `Placement.TheOwnerStaysIfItCan` | src/cluster/placement.rs:52-70 | for S within T, an owner under T that is in S is the owner under S, for any scoring |
| `Placement.LosingMembersMovesOnlyTheirShards` | src/cluster/placement.rs:52-70 | a shard moves on a loss if and only if its owner was lost |
| `Placement.GainingMembersMovesShardsOnlyOntoThem` | src/cluster/placement.rs:52-70 | a shard moves on a gain if and only if its new owner is a new member |
| `Placement.PlacementTable.SetMembers` | src/cluster/placement.rs:43-45 | exactly the given members, nothing remembered |
| `Placement.PlacementTable.OwnerOf` | src/cluster/placement.rs:65-70 | the owner under the FNV-1a scores of the shard |
| `LiveWatch.RunKeepsWatch` | src/cluster/node.rs:293-305 | every interleaving of set calls, wake-ups and visits keeps the watch invariant |
| `LiveWatch.TheLastSweepReadTheFinalMembers` | src/system.rs:889-899 | once the watcher has caught up its last sweep stopped exactly the shards it found that do not hash here under the final member set |
| `LiveWatch.AChangeForcesAnotherSweep` | src/system.rs:889-899 | after an announced change the watcher cannot have caught up without waking for it |
| `LiveWatch.StoppedSubtrees` | src/system.rs:315-335 | a registry key is under a stopped root if and only if it is a shard's and that shard does not hash here |
| `LiveWatch.TheHostScoresHighest` | src/system.rs:315-335 | where a shard hashes to is a member with the highest FNV-1a score of its names |
| `LiveWatch.OnlyAnotherListIsAnnounced` | src/cluster/node.rs:293-305 | setting the list that is already announced changes nothing and wakes nobody; any other is one new version to wake for |
| `LiveWatch.LiveSet.SetLive` | src/cluster/node.rs:293-305 | the table is the list, and a different list is announced as one new version |
| `LiveWatch.LiveSet.ReleaseVacatedShards` | src/system.rs:315-335 | the loop over what the scan found stops exactly the shards that do not hash here |
| `Dedup.EveryRunIsSpaced` | src/cluster/delivery.rs:47-58 | for any arrivals, two acceptances of one id are more than the capacity apart |
| `Dedup.BetweenTwoAcceptances` | src/cluster/delivery.rs:47-58 | between them as many other ids as the capacity were accepted, all different |
| `Dedup.Dedup.WithCapacity` | src/cluster/delivery.rs:30-37 | an empty window of at least one |
| `Dedup.Dedup.AcceptId` | src/cluster/delivery.rs:47-58 | rejects exactly the last accepted ids; set and queue agree, without duplicates and within capacity |
| `Dedup.AtMostOncePerWindow` | src/system.rs:740-778 | over any arrivals one message id is delivered at most once per window of accepted ids |
| `Dedup.ARepeatWasDeliveredIffItsFirstArrivalWasTaken` | src/system.rs:757-778 | behind every repeat is one arrival whose id was recorded and only dropped or refused since; it was delivered if and only if its type was registered, it decoded, its instance was running or built and present, and its mailbox open |
| `Dedup.ARefusedCommandCannotBeRetried` | src/system.rs:757-778 | in any run, a command refused after its id was recorded is told on retry that it succeeded |
| `Dedup.FiveWaysToBeRefused` | src/system.rs:828-864 | an unknown type, an undecodable payload, a refused build, a vanished instance and a closed mailbox each do it |
| `Dedup.Dispatcher.Receive` | src/system.rs:828-864 | decode, find or build, look up, tell: each failure in that order, and delivery exactly when all go well |
| `Dedup.Dispatcher.Dispatch` | src/system.rs:740-778 | replies pass by, a node without quorum refuses, a repeat is dropped, and every other command is recorded before its type is looked up and its receiver run |
| `Dedup.NotServingIffNotServing` | src/system.rs:740-768 | a command is refused for quorum if and only if the node is not serving |
| `Dedup.AcceptedOnlyWhileServing` | src/system.rs:740-768 | an arrival that is recorded, delivered or recognised as a repeat is a command that came while the node was serving |
| `Dedup.ARefusalForQuorumLeavesNoTrace` | src/system.rs:740-768 | leaving a command refused for quorum out of the arrivals changes no fate and no record after it |
| `Dedup.RecentIsTheLastFew` | src/cluster/delivery.rs:47-58 | the window holds exactly the ids accepted within the last so many acceptances |
| `Mailbox.StepKeepsMail` | src/runtime.rs:484-517 | every step keeps each mailbox in line: what was handled, then what is in hand, then the queue, is what it took while it serves, and a prefix of it after |
| `Mailbox.RunKeepsMail` | src/runtime.rs:484-517 | so does every run of arrivals, takings, handlings, leavings and closings |
| `Mailbox.AppliedIffItsTurnCame` | src/runtime.rs:491-516 | a command has been handled if and only if it was delivered and its instance has finished at least as many commands as it was in line |
| `Mailbox.ARepeatWasAppliedIffItsTurnCame` | src/system.rs:757-768 | in every run, so of the command behind a repeat; and if its instance has left before its turn, it never will be |
| `Mailbox.ALostCommandIsNeverApplied` | src/runtime.rs:507-511 | a command whose instance left before its turn is handled in no continuation |
| `Mailbox.HandledOnceAndInOrder` | src/runtime.rs:491-516 | no command is handled twice, and an instance handles its commands in the order they were accepted |
| `Mailbox.DeliveredOnlyWhileServing` | src/system.rs:756-768 | everything any mailbox ever took arrived while the node was serving |
| `Mailbox.FinishingApplies` | src/runtime.rs:503-512 | a handler that runs to its end applies the command in hand |
| `Mailbox.TheNextCommandCanBeHandled` | src/runtime.rs:491-516 | the command at the head of a serving instance's queue is two steps from being applied |
| `Mailbox.NothingIsHandledAfterAStop` | src/runtime.rs:507-516 | after a handler decided to stop, or the instance was stopped, it handles nothing more in any continuation |
| `Mailbox.AClosedMailboxIsEmptyForGood` | src/runtime.rs:478-481 | once the task has ended its mailbox holds nothing and takes nothing more |
| `Mailbox.AQueuedCommandCanBeLost` | src/runtime.rs:491-499 | a run in which an instance leaves with a command queued and the retry is a success |
| `Mailbox.ACommandInHandCanBeLost` | src/runtime.rs:507-511 | a run in which its handler is cancelled and the retry is a success |

## Left out

- Transport, TCP framing and queues (`src/transport.rs`, `src/transport_tcp.rs`): messages are a bag that loses and repeats.
- The consensus engine and its network (`src/cluster/network.rs`): its promises to the store are the precondition `RaftState.Admits` and that it saves no vote below the one the store holds, `RaftStore.SavesRise`.
- Time: timeouts, back-off, liveness windows and ticks. When an ask ends and which member list is set are free choices of the run.
- Codecs and type erasure: what encodes and decodes is assumed to round-trip; that a value may refuse to encode or a message to decode is modelled where the source handles it; one command type per path in the runs.
- Actor panics, counter overflow at 2^64, and id uniqueness across a restart of a node.
- `Journal::clear` and a fork onto an id already in use are proved as single operations and not part of the shared runs, as they rewind the numbering.
- Several reply handles in one command: each travels as a packet of its own.
- Encoding a remote handle a second time after it was disarmed: in `ClusterNode.SerializeTwice`; in the runs it would act as one more duplicate.
- The directory is not synced after a rename; that a returned rename lasts is the hypothesis `RaftDisk.RenamesLast`.
- Fairness of stops: what is proved is that a finite continuation finishes them, not that every schedule does. A handler or an `on_start` that itself awaits a stop of its own ancestor is not modelled, and would wait upward.
- `ActorRef`'s link cache and single retry, the retry loop of `ClusterNode::send`, the builders, `with_router`, `try_get_log_entries` and test support: they would only add easy members.
- ReplyRouting.StepKeepsSenders: minting a correlation and inserting its row are one step, where the source takes the counter before the lock.
- ReplyOutcomes.ALateEncodingLeavesARow: for the same reason not for a registration delayed past a full table of later ones, which evicts its own row; `ReplyOutcomes.ADelayedRowStaysIffItIsNotTheOldest` says exactly when.
- ReplyOutcomes.AnAskLeavesARowIffItsHandleWasUnencoded: likewise, a handle encoded late through such a delayed registration leaves no row.
- System.SystemInner.TakeOut: the stop signal is part of the lock section, where the source sends it right after letting the lock go.
