# A verified model of file.d

file.d reads logs, sends each event through a chain of actions and hands it to an output. It
promises not to lose data because offsets are committed only after delivery. The promise rests on
several small concurrent protocols and a few stateful plugins. This project models them in Dafny
and proves what they keep over every run.

`dafny verify dfyconfig.toml` checks everything.

## How it is built

Each concurrent protocol is a step machine: a state, the steps (one atomic operation, or one
section of code under a mutex), and runs of any length. A panic of the code is a flag in the state,
not a precondition, so that "no panic" is a theorem. Code that updates objects in place is a class
as well, and each of its methods is proved to make exactly one step of the machine.

| modules | what they model |
|---|---|
| `Streams`, `StreamsInv`, `StreamsSteps` | streams, the streamer, processors and `finalize`; the invariant; every step keeps it |
| `Batcher` | batches, workers, ordered commits |
| `Delivery` | both together: from the input's `put` to the input's notification |
| `StreamsWork`, `Progress` | what is left to do, and that the pipeline's own steps finish it |
| `History` | which actions an event came to in a run, which turned it down, and where that leaves it |
| `Timeouts` | when a timeout event serves its purpose and when not |
| `StreamObjects`, `ProcessorObject`, `BatcherObject` | the same code as objects: linked queue, lists, flags, channels |
| `EventPool`, `EventPoolObject` | the ticketed ring of events |
| `Join`, `Multiline`, `Holder` | the two actions that put events together, and that the step machine's holding action is one of them |
| `Lines`, `FileWorker` | splitting a file into lines |
| `Restart`, `TailStart`, `Jobs`, `OffsetsFile` | committed offsets and resuming, starting at the end, the job life cycle, the offsets file |
| `Guarantee`, `LossRun` | all of it over crashes and restarts: exactly which lines are lost; a run that loses one |
| `Throttle`, `RedisThrottle` | the sliding window limiter, alone and shared through Redis |
| `MatchRule` | match rules |
| `Basics` | sums over sequences and increasing sequences |

## Where the code does not do what one expects

The model follows the code. These differences are lemmas of their own, each with the condition
under which the expected property holds.

- The heartbeat works on a copy of the blocked list, so `tryUnblock` may meet a stream that no longer
  waits. The stream's invariant survives exactly when it still waits or has an event
  (`TryUnblockSafeIff`). A stale call on an empty queue panics at once exactly when an event is away
  that is not committed (`StaleCallAtOnce`). If it does not, a stream that nobody has is stranded for
  ever (`StaleTimeoutStrands`, `StrandedForever`, and `StaleEntryRun` for a run that comes to it). A
  processor about to wait takes the timeout as if it had waited (`StaleCallWhileAsking`). One that is
  done with its events sends it through the actions (`StaleCallWhileDischarging`): it makes join panic
  exactly when no action in front of join discards it, and does nothing otherwise (`StrayEnds`).
- A timeout goes to the action that stopped the last event, not to the one that holds an event. It
  makes join flush exactly when no action from that one up to join discards it
  (`TimeoutFlushesIff`); one that does brings the same state back every time (`TimeoutSwallowed`,
  `SwallowingRun`).
- After a restart, lines of a stream without a saved offset are not read again exactly when they end
  at or before the least saved offset of the other streams (`ResumeUnsavedStreamIff`,
  `UnsavedLineIff`, `UnsavedStreamLoses`). Such a line is never read again, also when its stream gets a
  saved offset later (`NeverAgain`). Over any number of restarts this is the only way to lose a line
  (`LineIsLostIff`), and `LineIsLost` is a run of the pipeline that comes to it. A stream that has a
  saved offset loses nothing (`NoLineIsEverLost`), and neither does a file with one stream
  (`OneStreamLosesNothing`).
- Deleting a job unlocks it before it is removed; a resume in between makes the counter panic
  (`DeleteRacePanics`). The delete is right exactly when the job is still there and done
  (`DeleteFinishSafeIff`).
- The line of a stream in the offsets file is read back exactly when the name is not empty and has no
  colon, and the offset is in range (`StreamLineReadBackIff`). Names come from a field of the event
  (pipeline/pipeline.go:480); one with a colon is cut at it. A negative offset is written in a form
  that the parser refuses (`NegativeOffsetRefused`); the input itself cannot store one, since a commit
  must be above the current offset, which starts at 0 (plugin/input/file/provider.go:189-193).
- A sync of the Redis limiter reads the clock three times: once itself, and once in each window that it
  rebuilds. If an interval ends in between, it names the wrong ids or clears the wrong buckets. With no
  event in between, a sync keeps the balance of every id exactly when the readings fall into one
  interval or nothing is sent (`SyncConservesIff`; `ClockTurnsInSync` is a sync that does not), and a
  run keeps it after every step exactly when all its syncs are such (`RunBalancesIff`).
- That limiter collects the keys first, then reads, pushes and clears bucket by bucket by index.
  Events in between are lost or pushed again, a bucket that moved to index 0 is not cleared although
  the comment says that only negative indexes are ignored, and a window that moved before the read
  pushes the count of a later id. `ExchangeConservesIff` says exactly when the exchange of a key is
  right, for any readings; `LaterBucketIsPushed` and `OldestBucketStays` are runs in which it is not.
- A limiter window that begins at id 0 is taken for one that was never placed (`OriginWindowLeaks`).
  A call keeps all counts exactly when the window does not begin there, or the current id is still
  its last one, or nothing was counted (`CountsKeptIff`).
- The k8s multiline action keeps its mark for an oversized line across a timeout, and the rest of a
  line that a timeout cut goes through as a line of its own. `WholeOrNothing` and `AfterTimeout` say
  exactly what is let through; `MarkOutlivesLine` are runs in which a line that fits is dropped.

## Model

| member | source | states |
|---|---|---|
| Delivery.InOrderNoGaps | pipeline/processor.go:118-221 | in every run with any number of processors and batcher workers, the input is notified of a stream's events in strictly increasing order, and when it is notified of one, every earlier event of the stream was notified or dropped; what dropped means is `History.DropsAreAnswers` |
| History.DropsAreAnswers | pipeline/processor.go:184-221 | in every run an event is dropped, or about to be, if and only if some step of the run was an action's answer that turns it down (discard, collapse, or a discard of the flushed event), and then the input is never notified of it |
| History.EarlierIsAnswered | pipeline/processor.go:118-221 | when the input is notified of an event, it was notified of an earlier one of the stream if and only if no action turned that one down |
| History.NotifiedPassedAll | pipeline/processor.go:174-221 | the input is notified only of events that came to every action of the chain, each of them, and that none turned down |
| History.EverythingIsAnswered | pipeline/processor.go:105-221 | after every run, own steps with passing actions lead to a state in which the input was notified of exactly the events that no action had turned down |
| History.NothingIsDropped | pipeline/processor.go:184-221 | a run without an answer that turns an event down drops nothing |
| History.MoveGone | pipeline/processor.go:131-221 | a move of a processor adds exactly the event that its action turns down to those gone |
| History.MoveMet | pipeline/processor.go:174-221 | no move lets an event pass by an action |
| Delivery.NothingLost | pipeline/stream.go:106-215 | every event a stream numbered is in exactly one place: its queue, a processor's hands, the batcher, notified, or dropped by an action |
| Delivery.NeverPanics | pipeline/stream.go:50-104 | no panic of stream, streamer, processor, join or batcher is reached in any run |
| Delivery.StreamOwnership | pipeline/streamer.go:96-120 | a stream is charged at most once or with at most one processor; an unattached stream with events exactly one of the two; a detaching stream has its last event still in the output; commitSeq <= awaySeq <= currentSeq |
| Delivery.BlockedList | pipeline/streamer.go:122-146 | the blocked list holds exactly the waiting streams once each with the right indexes, and for these awaySeq equals commitSeq |
| Delivery.ProcessorAgrees | pipeline/processor.go:147-245 | the busy total counts the flags, and between actions join's fields and its flag agree; a timeout that reaches join finds it joining; a flushed event never makes the processor wait; an event that passed leaves nothing busy |
| Delivery.HandsOverOldest | pipeline/batch.go:216-218 | the event a batcher worker commits next is the oldest one that was added and not yet committed |
| Delivery.NoteIsNotify | pipeline/pipeline.go:493-517 | a commit by the batcher is the notification step of the pipeline without batcher, so that its invariant carries over |
| Progress.EverythingIsDelivered | pipeline/processor.go:105-221 | from every reachable state with a processor and a worker, finitely many of the pipeline's own steps, with passing actions, lead to one in which nothing is unfinished and every event put so far was notified or dropped; which of the two is `History.EverythingIsAnswered` |
| Progress.StopsOnlyWhenDone | pipeline/processor.go:105-221 | whatever own steps the pipeline takes and whatever its actions answer, short of throwing away a timeout meant for the holding one, if it can take no further step everything was notified or dropped |
| Progress.OwnStepsEnd | pipeline/stream.go:130-215 | and such steps cannot go on for ever: after every run their number is bounded |
| Progress.OwnLowers | pipeline/batch.go:166-278 | every own step of processors, streams, timeouts, batcher and commits leaves less to do |
| StreamsWork.MoveLowers | pipeline/processor.go:118-221 | every move of a processor lowers the work left for its stream, by enough for the batcher when it emits, unless an action swallows a timeout |
| StreamsSteps.RunInv | pipeline/stream.go:50-215 | the whole invariant (numbers, queue contents, ownership, flow, flags, lists) holds after every run |
| StreamsSteps.MakeBlockedKeeps | pipeline/streamer.go:122-127 | adding to the blocked list keeps list and indexes pointing at each other |
| StreamsSteps.ResetBlockedKeeps | pipeline/streamer.go:129-146 | removal by moving the last entry keeps list and indexes pointing at each other and removes exactly that stream |
| StreamsSteps.BlockedOnce | pipeline/streamer.go:122-146 | with matching indexes no stream is on the list twice |
| StreamsInv.MoveKeeps | pipeline/processor.go:131-221 | every move of a processor, with any answer of its actions, keeps order and contents of the stream's flow |
| Timeouts.TryUnblockSafeIff | pipeline/stream.go:164-193 | the stream's invariant survives `tryUnblock` exactly when the stream still waits or has an event |
| Timeouts.StaleCallAtOnce | pipeline/stream.go:164-193 | what a call does at once: nothing if there are events, a panic exactly if an event is away and not committed, else the timeout is in the queue, for which nobody is charged if nobody has the stream |
| Timeouts.StaleCallWhileAsking | pipeline/stream.go:130-193 | a processor about to wait takes a stale timeout as one that waited, and the invariant holds |
| Timeouts.StaleCallWhileDischarging | pipeline/stream.go:147-193 | one that is done takes it with nothing held |
| Timeouts.StrayEnds | pipeline/processor.go:165-221 | for all answers of the actions such a timeout makes join panic exactly if no action in front of it discards it; otherwise it leaves no trace |
| Timeouts.StaleTimeoutStrands | pipeline/stream.go:164-193 | `tryUnblock` strands every stream that is unattached and empty: events, but neither charged nor attached |
| Timeouts.StaleEntryRun | pipeline/streamer.go:156-164 | a run in which a stream was on the blocked list when it could be copied and was left since, so that the copied entry strands it |
| Timeouts.StrandedForever | pipeline/stream.go:106-128 | a stranded stream stays stranded under every step, and its queue only grows |
| Timeouts.TimeoutWakes | pipeline/processor.go:165-170 | a timeout wakes the processor of a waiting stream and changes nothing in the stream |
| Timeouts.TimeoutFlushesIff | pipeline/processor.go:165-221 | for all answers of the actions: the timeout makes the holding action flush the held event if and only if no action from the last one up to it discards it; otherwise the processor waits again after the first that does, with the event still held |
| Timeouts.TimeoutSwallowed | pipeline/processor.go:195-201 | an action in front of the holding one that discards the timeout brings the processor back to the very state it was in |
| Timeouts.SwallowingRun | pipeline/processor.go:165-170 | a run that gets into that state |
| StreamObjects.Stream.Put | pipeline/stream.go:106-128 | the event gets the next number and is linked behind the last one, whatever its old link was; an empty unattached stream is charged |
| StreamObjects.Stream.Get | pipeline/stream.go:195-215 | the first event leaves the linked queue, and its number becomes awaySeq |
| StreamObjects.Stream.InstantGet | pipeline/stream.go:147-162 | the first event, or leaving the stream when there is none |
| StreamObjects.Stream.AskNext | pipeline/stream.go:130-141 | an event at once, or the stream is put on the blocked list |
| StreamObjects.Stream.WakeUp | pipeline/stream.go:135-145 | after the wait the stream leaves the blocked list with an event, or waits again |
| StreamObjects.Stream.Leave | pipeline/stream.go:50-59 | the detach step, and exactly when it panics |
| StreamObjects.Stream.TryDetach | pipeline/stream.go:77-88 | detaches only when everything given away is committed, and then charges a stream that has events |
| StreamObjects.Stream.Commit | pipeline/stream.go:61-75 | the commit step: smaller numbers are ignored, a detaching stream may be freed |
| StreamObjects.Stream.Attach | pipeline/stream.go:90-104 | the attach step, and exactly when it panics |
| StreamObjects.Stream.TryUnblock | pipeline/stream.go:164-193 | the timeout step, only on an empty queue and after the timeout |
| StreamObjects.Streamer.GetStream | pipeline/streamer.go:66-94 | the known stream, or a new empty one added to the map |
| StreamObjects.Streamer.JoinStream | pipeline/streamer.go:104-120 | takes the stream charged last and attaches to it |
| StreamObjects.Streamer.MakeBlocked | pipeline/streamer.go:122-127 | the list step of the machine |
| StreamObjects.Streamer.ResetBlocked | pipeline/streamer.go:129-146 | the swap-remove step of the machine, and exactly when it panics |
| StreamObjects.Pipeline.Finalize | pipeline/pipeline.go:505-530 | a timeout leaves no trace; any other event is committed to its stream, notified and returned to the pool exactly as asked |
| ProcessorObject.Processor.TryMarkBusy | pipeline/processor.go:223-233 | sets the flag, keeps the total equal to the number of flags, and cannot panic |
| ProcessorObject.Processor.TryResetBusy | pipeline/processor.go:235-245 | clears the flag, keeps the total equal to the number of flags, and cannot panic |
| ProcessorObject.Processor.DoActions | pipeline/processor.go:174-221 | the event passes exactly when no action that sees it stops it; otherwise it ends at the first that does; which actions are busy afterwards; no panic |
| ProcessorObject.SeesAsAllowed | pipeline/processor.go:184-189 | an action sees an event exactly if it is matched or the step machine does not let it pass unmatched |
| ProcessorObject.Processor.ProcessEvent | pipeline/processor.go:131-172 | after the actions the event goes to the output exactly when none stopped it; otherwise the processor waits for the next event exactly when an action is busy |
| ProcessorObject.Processor.Propagate | pipeline/processor.go:337-342 | the same for a held event and the actions behind the holding one, which is no longer busy: where it stops first, and which of them are busy afterwards |
| ProcessorObject.Processor.AddActionPlugin | pipeline/processor.go:330-334 | a new action is not busy, and the total still counts the flags |
| Batcher.CommittedIsPrefix | pipeline/batch.go:198-226 | in every run the committed events are a prefix of the added ones; every sent batch has the shape its limits ask for; the "unreachable" panic is not reached |
| Batcher.RunKeeps | pipeline/batch.go:166-278 | every run keeps the invariant: batch count, one carrier for each outstanding number, order of added, sent and committed events |
| Batcher.StatusDecides | pipeline/batch.go:68-79 | a batch is ready if and only if it has reached a limit that is set, or holds something and is late; an open one is below all limits, a ready one in the shape to be sent |
| Batcher.SendsIff | pipeline/batch.go:243-267 | an add or a tick sends the batch if and only if its items, the new one included, have reached a limit, or there are some and the step is late; nothing else sends |
| Batcher.SentForAReason | pipeline/batch.go:68-79 | in every run each batch sent had the maximal count or at least the maximal size, or was sent by a late step |
| Batcher.NothingSentEarly | pipeline/batch.go:68-79 | a run without late steps sends no batch below its limits |
| Batcher.SendsNeverBlock | pipeline/batch.go:125-148 | a sender always finds room in the channel of full batches, a committing worker in the channel of free ones |
| Batcher.NextCommitCanMove | pipeline/batch.go:198-226 | the batch numbered commitSeq is with a sender that can send, queued while a worker is idle, or with a worker that can go on, if only after the committing one, which can go on itself |
| Batcher.InternalDecreases | pipeline/batch.go:166-226 | every step that needs no new event lowers a measure |
| Batcher.NotStuck | pipeline/batch.go:166-226 | while anything sent is not committed, such a step is enabled |
| Batcher.Drains | pipeline/batch.go:166-226 | from every state of the invariant such steps lead to a state in which exactly everything sent is committed |
| BatcherObject.Batch.UpdateStatus | pipeline/batch.go:68-79 | the status step on a batch object, decided as in `Batcher.StatusDecides` |
| BatcherObject.Batcher.constructor | pipeline/batch.go:125-148 | one fresh batch for each worker, all free |
| BatcherObject.Batcher.GetBatch | pipeline/batch.go:272-278 | waits exactly when there is neither a current nor a free batch, else makes the fetch step |
| BatcherObject.Batcher.TrySendBatch | pipeline/batch.go:258-267 | the numbered hand-over of a ready batch |
| BatcherObject.Batcher.Add | pipeline/batch.go:243-255 | fetch if needed, append and hand over, as the machine does |
| BatcherObject.Batcher.Heartbeat | pipeline/batch.go:228-241 | the same without an event, and which batch it then has to send |
| BatcherObject.Batcher.Send | pipeline/batch.go:269-269 | the channel send, and exactly when it waits |
| BatcherObject.Batcher.Receive | pipeline/batch.go:171-171 | a worker gets the oldest full batch |
| BatcherObject.Batcher.CommitBatch | pipeline/batch.go:198-226 | waits until the batch's number is up, then commits all its events in order and frees it |
| BatcherObject.CommitInSteps | pipeline/batch.go:198-226 | the single steps of an uninterrupted commit lead to the state that the loop computes |
| EventPool.SlotsAreExclusive | pipeline/event.go:228-293 | under every interleaving at most one caller works on a slot, no `get` reads nil, and each event is in exactly one place |
| EventPool.RunInv | pipeline/event.go:228-293 | flags, tickets, counters and places agree after every run |
| EventPool.BackWaitsForAGet | pipeline/event.go:264-293 | a `back` that waits at a full slot has a `get` with a ticket for that slot which can take it now |
| EventPool.QuietPool | pipeline/event.go:207-293 | with no call in progress the next `get` finds its slot full exactly when fewer than capacity events are out, and the next `back` finds its slot empty |
| EventPool.BackNeverStuck | pipeline/event.go:264-293 | while a `back` waits, it or another call at the same slot can go on |
| EventPool.BlocksOnlyWhenExhausted | pipeline/event.go:228-262 | if no unfinished call can go on, the unfinished ones are all `get`s and every event is out |
| EventPoolObject.Pool.constructor | pipeline/event.go:207-226 | a full ring |
| EventPoolObject.Pool.Get | pipeline/event.go:228-262 | whatever other calls do, `get` has its ticket and an event that was not out before, or waits at its slot; with no other call it succeeds exactly when not all events are out |
| EventPoolObject.Pool.AttemptGet | pipeline/event.go:230-262 | one turn of the retry loop: an event exactly when the slot is full, else no change |
| EventPoolObject.Pool.Back | pipeline/event.go:264-293 | `back` has its ticket and is done or waits at its slot; with no other call it is done at once |
| EventPoolObject.Pool.AttemptBack | pipeline/event.go:267-293 | one turn of the retry loop: done exactly when the slot is empty, else no change |
| EventPoolObject.Pool.TryTake | pipeline/event.go:228-262 | the compare-and-swap of `get` is one step of the machine |
| EventPoolObject.Pool.TryFill | pipeline/event.go:264-293 | the compare-and-swap of `back` is one step of the machine |
| Join.JoinIsGrouping | plugin/action/join/join.go:134-200 | for every input the output is the input with each maximal run of start and continue events replaced by one event; it panics exactly when a timeout comes outside a run |
| Join.ResultsAreVerdicts | plugin/action/join/join.go:134-200 | for every input and every event of it the processor is told what the grouping makes of the event: discard a timeout, hold the start of a run, collapse its tail, pass the rest |
| Holder.HolderIsJoin | plugin/action/join/join.go:134-200 | the holding action of the step machine flushes, answers and holds exactly as the plugin does, for every state and event |
| Holder.FlushedAgrees | plugin/action/join/join.go:134-146 | after a flush the processor agrees with the plugin again |
| Holder.HolderIsK8s | plugin/input/k8s/multiline_action.go:42-153 | and answers as the k8s action does |
| Join.Cut | plugin/action/join/join.go:188-193 | the least number of pieces whose text reaches the cap, or all of them if none does |
| Join.TextGrows | plugin/action/join/join.go:188-193 | the text of that shortest prefix grows by a further piece exactly while it is below the cap, as the plugin's buffer does |
| Join.NoTextLost | plugin/action/join/join.go:134-200 | without a cap the output texts concatenate to the input texts |
| Join.Plugin.DoAction | plugin/action/join/join.go:148-200 | the object makes the specified step |
| Join.Plugin.DoAll | plugin/action/join/join.go:134-200 | the object turns a whole input into its grouping |
| Multiline.NoTextLost | plugin/input/k8s/multiline_action.go:54-91 | without a cap the results and the buffer together are the text of all fragments, wherever a line was split |
| Multiline.EndIsNewLine | plugin/input/k8s/multiline_action.go:68-68 | a fragment ends a line exactly if its text ends with an escaped newline |
| Multiline.OnlyNodePasses | plugin/input/k8s/multiline_action.go:51-53 | with only the node's name wanted every fragment goes on as it is |
| Multiline.PanicsIff | plugin/input/k8s/multiline_action.go:54-68 | otherwise a fragment of fewer than three characters, and no other event, ends the program |
| Multiline.Buffered | plugin/input/k8s/multiline_action.go:61-81 | the buffer is the text of the last fragments, and their size leaves room for the lookahead |
| Multiline.JoinedFits | plugin/input/k8s/multiline_action.go:61-81 | if no fragment is larger than the lookahead, a result joined from several is within the split size |
| Multiline.WholeOrNothing | plugin/input/k8s/multiline_action.go:42-91 | with a cap, timeouts anywhere and no split, every line end lets through the whole text since the last line end or timeout, exactly when no fragment since the last line end was over the cap |
| Multiline.LinesThatFit | plugin/input/k8s/multiline_action.go:69-91 | without timeouts these are exactly the complete lines that fit |
| Multiline.AfterTimeout | plugin/input/k8s/multiline_action.go:42-91 | the line after a timeout, of any number of fragments, is let through exactly when it fits and no oversized line was open at the timeout |
| Multiline.MarkOutlivesLine | plugin/input/k8s/multiline_action.go:42-91 | runs in which the mark of an oversized line outlives its line and drops the next one |
| Multiline.MultilineAction.DoAction | plugin/input/k8s/multiline_action.go:42-153 | the object makes the specified step |
| Lines.LinesCoverContent | plugin/input/file/worker.go:80-116 | the lines of the definition and the rest are the content |
| Lines.LinesAreLines | plugin/input/file/worker.go:80-90 | each has one newline, at its end |
| Lines.LineOffsets | plugin/input/file/worker.go:92-112 | each carries the offset just past its newline |
| Lines.OffsetsIncrease | plugin/input/file/worker.go:92-112 | offsets grow from line to line |
| Lines.WithinIff | plugin/input/file/worker.go:92-112 | a line is handed over exactly if it is within the cap, if there is one |
| FileWorker.Worker.ParseRead | plugin/input/file/worker.go:76-122 | one read adds exactly the lines it completes; the accumulator stays within cap plus buffer |
| FileWorker.Worker.Work | plugin/input/file/worker.go:54-127 | one job run adds exactly the lines of what it read, for every way the reads cut it |
| FileWorker.Worker.WorkRuns | plugin/input/file/worker.go:32-127 | any number of job runs hands over exactly the complete lines within the cap, with their offsets |
| FileWorker.IndexByte | plugin/input/file/worker.go:82-82 | the first newline, or none |
| TailStart.InitJobOffset | plugin/input/file/provider.go:371-410 | the offset for each mode: last byte and skip, start, or the least saved offset; saved offsets without streams panic |
| TailStart.TailKeepsWholeLines | plugin/input/file/provider.go:373-385 | a job started at the end hands over exactly the lines that begin at the old end or later |
| Restart.SliceMap.FromMap | plugin/input/file/slicemap.go:16-22 | the slice stands for the map |
| Restart.SliceMap.Get | plugin/input/file/slicemap.go:24-31 | the map's value |
| Restart.SliceMap.Set | plugin/input/file/slicemap.go:33-41 | the map's update |
| Restart.CommitEvent | plugin/input/file/provider.go:183-207 | the commit step on the stored offsets, with its panic |
| Restart.CommitStores | plugin/input/file/provider.go:183-207 | a regular commit numbered past the last truncation and above the current offset becomes the offset of its stream; one not above it panics; all other commits change nothing, and no other stream changes |
| Restart.CommitsInOrder | plugin/input/file/provider.go:173-216 | the corruption panic fires exactly when the regular commits past the last truncation are not in increasing order above the saved offset for some stream; otherwise each stream ends at its last such commit |
| Restart.MinOffset | plugin/input/file/provider.go:399-405 | the least saved offset |
| Restart.ResumeReadsPast | plugin/input/file/provider.go:389-406 | reading from a line boundary gives exactly the file's lines past it |
| Restart.ResumeSavedStream | plugin/input/file/file.go:237-259 | a job resumed from the least saved offset passes on exactly the lines of each saved stream past its offset |
| Restart.ResumeUnsavedStreamIff | plugin/input/file/file.go:247-250 | a stream without a saved offset is passed on whole exactly when all its lines end past the least saved offset |
| Restart.UnsavedStreamLoses | plugin/input/file/file.go:247-250 | a file in which such a line is lost |
| Restart.CommittedIsBoundary | plugin/input/file/worker.go:112-112 | every offset that can be committed is a line boundary and stays one while the file grows |
| Guarantee.LineIsLostIff | plugin/input/file/provider.go:173-216 | over any number of lives, each with any run of the pipeline, any lines refused by it, ended at any moment with any part of its commits saved: a line of the file is not safe (saved before the first life, notified, dropped or refused in some life, or passed on by the latest) if and only if some life starts past its end with no saved offset for its stream before any life has done it |
| Guarantee.NoLineIsEverLost | plugin/input/file/provider.go:371-410 | so of a stream with a saved offset every line past it was notified, dropped or refused in some life, or is passed on by the latest |
| Guarantee.OneStreamLosesNothing | plugin/input/file/provider.go:371-410 | and of a file with one stream every line, from its first life on |
| Guarantee.NeverAgain | plugin/input/file/file.go:242-258 | a line that a life starts behind is done in no later life and passed on by none, also once its stream is saved |
| LossRun.LineIsLost | plugin/input/file/file.go:247-250 | a file, a run of the pipeline that ends after one notification, and the restart in which a line is lost |
| Guarantee.RestartContinues | plugin/input/file/provider.go:371-410 | from any saved offsets and after any run, the job resumed on the grown file passes on exactly each saved stream's lines past its last saved commit |
| Guarantee.NotificationsInOrder | plugin/input/file/provider.go:189-193 | the notifications of every run of the pipeline are in-order commits for the job's offsets, so the corruption panic cannot fire |
| Guarantee.SavedIsLastNotified | plugin/input/file/provider.go:183-207 | after the first `k` notifications of any run, the saved offset of a stream is that of the line of its last event among them, and as before if there is none |
| Guarantee.SavedIsDone | plugin/input/file/provider.go:202-207 | every line up to the saved offset of its stream was notified or dropped, or refused before a later line of the stream was let in |
| Guarantee.RebornOK | plugin/input/file/provider.go:387-406 | whatever a life did, the saved offsets are line ends of the grown file, and the next life can start from them |
| Guarantee.UnsavedLineIff | plugin/input/file/file.go:247-250 | of a stream without a saved offset exactly the lines past the start of the resumed job are passed on |
| Guarantee.LiveOffsets | plugin/input/file/file.go:242-258 | `PassEvent` reads offsets that commits change meanwhile, and still passes on exactly what the saved ones let through |
| Guarantee.ReadsAreHanded | plugin/input/file/file.go:242-258 | so whatever commits come between the reads, the lines passed on of each stream are in order a prefix of those that its saved offset lets through, and all of them once the file is read |
| Jobs.JobsAreTracked | plugin/input/file/provider.go:413-452 | in every run with atomic deletes jobsDone counts the done jobs, a job is queued, being sent or held by one worker exactly when it is not done, the queue is within MaxFiles with room for each pending send, and nothing panics |
| Jobs.UnreadIsActive | plugin/input/file/provider.go:299-452 | in every run a job is on its way to a worker or with one if and only if no worker that had it has finished since it was added or last resumed, told from the steps alone; a virgin job always is |
| Jobs.DeleteForgets | plugin/input/file/provider.go:661-678 | a delete forgets a job if and only if it is done, and touches no other |
| Jobs.DeleteFinishSafeIff | plugin/input/file/provider.go:661-678 | the delayed delete keeps the invariant exactly when the job is still there and done |
| Jobs.DeleteRacePanics | plugin/input/file/provider.go:661-678 | a run in which a resume in between makes the counter panic |
| Jobs.Provider.TryResume | plugin/input/file/provider.go:413-430 | the resume step |
| Jobs.Provider.Add | plugin/input/file/provider.go:299-355 | the add step, with the limit on the number of files; a job is to be sent exactly if it was unknown and the limit is kept, and then it is not done and on its way |
| Jobs.Provider.SendJob | plugin/input/file/provider.go:429-429 | the channel send |
| Jobs.Provider.Receive | plugin/input/file/worker.go:33-52 | a worker takes the oldest job; a done one is a panic |
| Jobs.Provider.Done | plugin/input/file/provider.go:436-452 | the done step |
| Jobs.Provider.DeleteJob | plugin/input/file/provider.go:661-678 | removes a job that is done, with the counter's panic; one that is not done is a panic |
| Jobs.Provider.MaintainJob | plugin/input/file/provider.go:581-592 | the maintenance deletes only a job that is done, so that panic is not reached |
| OffsetsFile.RoundTrip | plugin/input/file/offset.go:74-190 | parsing what was printed gives back the table of all jobs that have offsets, in any order of the jobs |
| OffsetsFile.TableIsExact | plugin/input/file/offset.go:87-130 | that table has the file name and every stream's offset of each job, and nothing else |
| OffsetsFile.PrintedLines | plugin/input/file/offset.go:217-246 | the text of a job's lines, with the keys as the file has them |
| OffsetsFile.FormatExample | plugin/input/file/offset.go:161-165 | numbers are read and written in base ten |
| OffsetsFile.ParseStreamIff | plugin/input/file/offset.go:132-173 | exactly which lines are read as which stream and offset |
| OffsetsFile.ParseStreamPanicsIff | plugin/input/file/offset.go:161-161 | a line that ends with the colon after the name, and no other, panics |
| OffsetsFile.RepeatIsRefused | plugin/input/file/offset.go:132-173 | a stream named twice is refused |
| OffsetsFile.ReadIsEntry | plugin/input/file/offset.go:87-130 | an entry that is read has a head with two numbers, a source not read before, and good streams |
| OffsetsFile.EntryIsRead | plugin/input/file/offset.go:87-130 | and every such entry is read |
| OffsetsFile.ParseLineIff | plugin/input/file/offset.go:175-190 | exactly which texts have a line with the key in front, and what it reads |
| OffsetsFile.ParseLinePanicsIff | plugin/input/file/offset.go:175-190 | the error message panics exactly if the first line is shorter than the key |
| OffsetsFile.NegativeOffsetRefused | plugin/input/file/offset.go:161-165 | a negative offset is printed so that the parser refuses it |
| OffsetsFile.StreamLineRoundTrip | plugin/input/file/offset.go:132-173 | the line of one stream is read back |
| OffsetsFile.StreamLineReadBackIff | plugin/input/file/offset.go:132-173 | for every name without a newline: exactly when the name is not empty and has no colon, and the offset is in range |
| OffsetsFile.Save | plugin/input/file/offset.go:217-246 | the loop builds the printed text |
| OffsetsFile.LoadStreams | plugin/input/file/offset.go:132-173 | the loop over stream lines, with its errors and panics |
| OffsetsFile.Load | plugin/input/file/offset.go:74-85 | the loop over entries, with its errors and panics |
| Throttle.RunRefines | plugin/action/throttle/in_memory_limiter.go:42-97 | in every run the window keeps its width, each bucket has the sum counted for its id, and an event is allowed exactly when that sum is within the limit |
| Throttle.SizeLimitHolds | plugin/action/throttle/in_memory_limiter.go:42-63 | over a whole run with a size limit, the sizes of the admitted events of a bucket id add up to at most the limit, and an event is admitted exactly when the sizes of all events of its id so far do |
| Throttle.CountLimitHolds | plugin/action/throttle/in_memory_limiter.go:42-63 | with a count limit the same for the number of events |
| Throttle.CountedWhere | plugin/action/throttle/in_memory_limiter.go:67-97 | every call of a run is counted in the bucket of its own time if the window, which ends at the newest time seen, has it, else in the newest |
| Throttle.BucketHasTime | plugin/action/throttle/in_memory_limiter.go:100-102 | the interval of a bucket id contains the time that has it, with truncation towards zero before the epoch |
| Throttle.BucketsFollowTime | plugin/action/throttle/in_memory_limiter.go:100-102 | a later time has no lower id |
| Throttle.NoLimitAllows | plugin/action/throttle/in_memory_limiter.go:43-46 | a negative limit allows everything and counts nothing |
| Throttle.PanicsIff | plugin/action/throttle/in_memory_limiter.go:53-60 | with a limit and a good window a call ends the program exactly if the kind is not known |
| Throttle.LimitHolds | plugin/action/throttle/in_memory_limiter.go:42-63 | over a whole run no bucket id admits more than the limit, and after a refusal every later event of the id is refused |
| Throttle.RebuildKeeps | plugin/action/throttle/in_memory_limiter.go:67-97 | the window only moves up, keeps counts of ids that stay, starts new ids at zero, and the chosen bucket is inside |
| Throttle.CountsKeptIff | plugin/action/throttle/in_memory_limiter.go:67-91 | for every window and clock, a call keeps the counts of all ids not below the new window if and only if the window does not begin at id 0, or the current id is its last, or it is empty |
| Throttle.OriginWindowLeaks | plugin/action/throttle/in_memory_limiter.go:70-74 | a run in which a window at id 0 is placed again and an event is refused for it |
| Throttle.InMemoryLimiter.RebuildBuckets | plugin/action/throttle/in_memory_limiter.go:67-97 | the loop makes the specified slide |
| Throttle.InMemoryLimiter.Allow | plugin/action/throttle/in_memory_limiter.go:42-63 | the object gives the specified verdict |
| RedisThrottle.RunBalances | plugin/action/throttle/redis_limiter.go:98-174 | for any number of instances, any order of events and syncs, any failing requests and separate clock readings: if every sync is clean (readings in one interval, or nothing sent), the counter of an id, the unpushed increments and what left a window unpushed make up everything counted |
| RedisThrottle.RunBalancesIff | plugin/action/throttle/redis_limiter.go:98-174 | a run keeps every id balanced after each step if and only if all its syncs are clean |
| RedisThrottle.SyncConservesIff | plugin/action/throttle/redis_limiter.go:109-174 | a sync conserves every id if and only if its three clock readings fall into one interval (or the first is older than the window) or nothing is sent |
| RedisThrottle.ClockTurnsInSync | plugin/action/throttle/redis_limiter.go:114-121 | a sync in which an interval ends between two readings, so that a count is pushed and stays |
| RedisThrottle.RunKeepsWindows | plugin/action/throttle/redis_limiter.go:98-145 | in every run all windows stay placed and within the clock, whatever the syncs read |
| RedisThrottle.CounterIsExactIff | plugin/action/throttle/redis_limiter.go:98-174 | in a run with clean syncs and with nothing held back, the counter is exact if and only if nothing left a window unpushed |
| RedisThrottle.SyncPublishes | plugin/action/throttle/redis_limiter.go:109-174 | after a sync whose readings fall into one interval an id whose request did not fail has no increment left, and the total is the shared counter |
| RedisThrottle.AskAllowsIff | plugin/action/throttle/redis_limiter.go:98-107 | an event is allowed if and only if it fits both into what the instance counted since the last sync and into the last known totals; one that the increments refuse is not added to the totals |
| RedisThrottle.SharedLimitHolds | plugin/action/throttle/redis_limiter.go:98-174 | right after a sync that pushed an id, an event of it is allowed if and only if it fits into the limit together with what the counter has from all instances |
| RedisThrottle.SyncSetsLimit | plugin/action/throttle/redis_limiter.go:137-142 | a sync that has something to push replaces both limits if there is a new one |
| RedisThrottle.SyncKeepsLimit | plugin/action/throttle/redis_limiter.go:137-142 | one that has nothing to push, or finds no new limit, leaves both as they are |
| RedisThrottle.PushConserves | plugin/action/throttle/redis_limiter.go:147-174 | pushing moves counts and loses none; other ids are untouched |
| RedisThrottle.WriteAfterShift | plugin/action/throttle/redis_limiter.go:177-207 | after a shift the write lands on the same id and no other, and it is made exactly when there was no shift or the new index is positive |
| RedisThrottle.ExchangeConservesIff | plugin/action/throttle/redis_limiter.go:114-191 | for any end of the window taken by the sync, any start of the other window, any events between collecting the key and reading the bucket and between reading and clearing it: exactly when what is pushed and what stays are together what was counted for the id |
| RedisThrottle.SteadyExchangeIff | plugin/action/throttle/redis_limiter.go:123-191 | with one reading and an unmoved window that is when nothing is counted for the id during the request and the window does not move by just the index |
| RedisThrottle.ReadAfterShift | plugin/action/throttle/redis_limiter.go:152-162 | a window that moved before the read by some shift makes it find the increment of the id that is higher by it |
| RedisThrottle.LaterBucketIsPushed | plugin/action/throttle/redis_limiter.go:152-162 | a run in which the count of a later id is pushed |
| RedisThrottle.SyncKeeps | plugin/action/throttle/redis_limiter.go:109-207 | with a clock that does not run backwards no write of a sync is out of range, whatever its three readings are, and both windows stay good |
| RedisThrottle.PushEffect | plugin/action/throttle/redis_limiter.go:147-207 | for any ids the push is given: which counter gains which bucket, and which buckets are cleared |
| RedisThrottle.OldestBucketStays | plugin/action/throttle/redis_limiter.go:186-189 | a bucket that moved to index 0 is not cleared |
| RedisThrottle.RedisLimiter.Allow | plugin/action/throttle/redis_limiter.go:98-107 | first the increments, then the totals |
| RedisThrottle.RedisLimiter.CollectKeys | plugin/action/throttle/redis_limiter.go:123-132 | the indexes and ids of all increments that are not zero |
| RedisThrottle.RedisLimiter.UpdateLimiterValues | plugin/action/throttle/redis_limiter.go:177-207 | both writes, and exactly when one is out of range |
| RedisThrottle.RedisLimiter.SyncLocalGlobalLimiters | plugin/action/throttle/redis_limiter.go:147-174 | the loop makes the specified exchange for every key, and exactly when it panics |
| RedisThrottle.RedisLimiter.SyncAll | plugin/action/throttle/redis_limiter.go:109-145 | the object makes the specified sync with its three readings of the clock, and exactly when it panics |
| MatchRule.Rule.Prepare | cfg/matchrule/matchrule.go:69-91 | values are folded, sizes are the least and greatest length; a rule without values stays unprepared |
| MatchRule.FoldAllTwice | cfg/matchrule/matchrule.go:76-79 | folding the values again changes nothing |
| MatchRule.PreparedTest | cfg/matchrule/matchrule.go:69-161 | testing folded data against prepared values is the test asked for on the data and values as written, character by character, with letters in any case if asked |
| MatchRule.Rule.MatchContains | cfg/matchrule/matchrule.go:112-126 | true exactly when some value occurs in the folded data |
| MatchRule.Rule.MatchEnd | cfg/matchrule/matchrule.go:128-160 | cutting to the longest value gives the plain prefix or suffix test on the whole data |
| MatchRule.Rule.Match | cfg/matchrule/matchrule.go:93-161 | panics exactly when unprepared; else the plain test of the rule's mode, inverted if asked |
| MatchRule.CutPrefix | cfg/matchrule/matchrule.go:134-134 | cutting does not change a prefix test |
| MatchRule.CutSuffix | cfg/matchrule/matchrule.go:136-136 | cutting does not change a suffix test |
| MatchRule.RuleSet.Prepare | cfg/matchrule/matchrule.go:206-210 | prepares every rule that has values |
| MatchRule.RuleSet.Match | cfg/matchrule/matchrule.go:212-235 | conjunction or disjunction of the rules, false without rules, and a panic exactly when an unprepared rule is reached before the decision |

## Left out

- Shutdown: `Batcher.Stop`, `streamer.stop`, unlock events, closing channels.
- Several holding or collapsing actions in one pipeline: the model has at most one, join or k8s multiline.
- The wait for the next event inside `Propagate`: it counts as a panic in the step machine, and is proved not to happen.
- Truncated files: `truncateJob` and `ignoreEventsLE` other than as a fixed number; files are append-only.
- `continueJob`: the branch is not reachable, since a job run ends only at the end of the file.
- `stream.len`, metrics, the action watcher, logging, `dump`.
- Match conditions of actions (`isMatch`, `isMatchOr`, `isMatchAnd`): an action's match is any boolean.
- `streamEvent`, the decoders and antispam: which stream an event goes to, and whether a line becomes an event, are parameters.
- Condition variables: a waiting caller may go on whenever its condition holds; lost wake-ups are not modelled. In the event pool the sleep and the wait on the condition are retries.
- uint64 and int64 wrap-around of sequence numbers, tickets and offsets in memory.
- JSON, regular expressions, time parsing: patterns are arbitrary predicates, and a field's text is given.
- Unicode: lower case in match rules is per byte and keeps the length.
- Expiry of Redis keys and the transport; a request succeeds or fails as a whole.
- Output clients, HTTP, file notification, symlinks, the write and rename of the offsets file.
- Timeouts.StrandedForever: speaks of the steps of the model, in which the heartbeat only touches streams that wait.
- StreamsSteps.RunInv: the timeout step is taken only for a stream that is on the blocked list at that moment; what a stale copy of the list does is in `Timeouts`.
- Jobs.JobsAreTracked: takes check and delete of a job as one step; the two steps apart are in `Jobs.DeleteFinishSafeIff`.
- RedisThrottle.RunBalances: a sync is one step, and the instances have one clock that does not run backwards; what happens when events come in between is in `RedisThrottle.ExchangeConservesIff`.
- ProcessorObject.Processor.DoActions: the answers of the actions come from outside; the `Propagate` that join calls inside its own `Do` is part of the step machine and not of this method.
- BatcherObject.Batcher.Add: speaks of the side that fills batches; the workers are in the step machine.
- EventPoolObject.Pool.Get: the method makes one turn of the retry loop and says whether it has to wait; how the turns of several callers mix is in `EventPool`.
- Multiline.WholeOrNothing: no split; with both a cap and a split, pieces of a line can be let through and the rest dropped.
- ProcessorObject.Processor.ProcessEvent: one turn of the loop; taking the next event is in `StreamObjects.Stream.AskNext` and `WakeUp`.
- Progress.EverythingIsDelivered: a waiting stream's timeout counts as a step the pipeline can take, and no action throws away a timeout meant for the holding one; what happens otherwise is `Timeouts.TimeoutFlushesIff`.
- Guarantee.LineIsLostIff: takes from the worker that the events of a stream are its lines that were let in, in their order; that the worker hands lines over in order is `FileWorker.Worker.WorkRuns`. Which lines `Pipeline.In` refuses (pipeline/pipeline.go:341-455) is any predicate of the life; its reasons, the decoders and antispam, are not modelled.
