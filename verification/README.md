# A verified model of the relay's core

This project models the parts of the mobile relay where a mistake would be hard to see in a test and
proves, for every input and every run, what they promise.

- **The command scheduler** (`Scheduler*.dfy`, `DeadlineHeap.dfy`). One loop owns per-pane queues, a
  relay queue, in-flight records, a deadline heap with back-pointers, an idempotency ledger and pane
  generations. `SchedulerModel` gives each event of the loop as a function on states;
  `SchedulerInvariant` and `SchedulerEvents` prove one invariant over all of these structures through
  every event; `SchedulerTheorems`, `SchedulerGenerations`, `SchedulerPromises`, `SchedulerOutcomes`,
  `SchedulerAnswers`, `SchedulerHistory`, `SchedulerTopology` and `SchedulerDeadlines` state what follows
  for whole runs, and `SchedulerWitness` shows two runs in which something goes wrong. `SchedulerLoop` is
  the loop itself, a class whose event methods are proved to do exactly what the step functions say, over
  the array-backed heap of `DeadlineHeap`.
- **The agent state machine** (`Agent*.dfy`). Slow polls, topology snapshots, fast status events,
  classifications, acknowledgements and notification requests are merged with revisions, generations
  and completion marks. `AgentModel` has the steps as functions, `AgentTheorems` the invariant,
  `AgentPromises`, `AgentMarks` and `AgentEvents` the theorems over runs, `AgentWitness` a run in which
  one thing goes wrong, `AgentState` the class with the source's per-pane maps.
- **The gateway** (`GatewayClients.dfy`, `GatewayRegistry.dfy`, `GatewayWitness.dfy`). Lock-sized steps of the client
  ceiling with its compare-and-swap loop, and of probe-then-displace registration, in every
  interleaving.
- **The activity journal** (`JournalModel.dfy`, `Journal.dfy`). Write-ahead tombstones and atomic
  rewrites, with a crash possible at every state of the disk and during every recovery.
- **Pane size leases** (`PaneSize.dfy`). A lease allocator that can always put the terminal back.
- **Pane deltas and the acknowledged watch** (`PaneDelta.dfy`, `PaneWatch.dfy`).
- **Chunk framing** (`Framing.dfy`).
- **Shell words, quoting and the memoised variable resolver** (`ShellWord.dfy`, `ShellJoin.dfy`,
  `ShellVariables.dfy`, `ShellReferences.dfy`).

`dafny verify dfyconfig.toml` checks everything.

## How to read the model

Effects, clocks, randomness and the network are inputs: an effect's end is an event, `now` is an
integer parameter, whether a write, a resize or a read fails is a parameter too, and Go's map iteration
order is either left open or an event parameter of which the model only asks that it is a possible
order. Fresh numbers stand for operation ids, response channels, blocked event ids and client slots.
History fields (what was answered, started, registered, which states the disk went through) exist to
state theorems; no step reads them.

In the scheduler, pane ids are numbers because only their equality and order matter, contexts that
are cancelled have no other effect than the completion they lead to, and a completion may report any
result. An answer is what the loop itself sends on a response channel.

In the agent state, words for a status are kept by class (working, blocked, idle, done, other) with a
number for the word; names, prompts and controls are compared only for equality; what the triage file
remembers of a pane comes with the record; whether a snapshot changed the workspaces is an input.
Records of one commit name distinct panes and carry no event id of their own.

Where the source and its comments disagree, the model follows the source, proves exactly when the
promise holds, and gives a run on which it does not:

- The comment on reappearing panes (internal/coordinator/state.go:453-455) promises that work admitted
  during an absence cannot reach the replacement. `AbsentGeneration` proves exactly when that holds:
  not for the first commit after a failed poll, and not for a pane that never had a session.
  `AbsentGenerationReturns` is a run of four events.
- A request that arrives stale deletes the ledger entry of whatever operation holds its key
  (internal/coordinator/coordinator.go:913-916). `EntrySurvivesUnlessStale` proves that a request with
  that key does so exactly when the generation check fails; in the run of `StaleRequestCostsTheEntry`
  the command is then enqueued a second time while the first one runs.
- An effect's result goes to whatever entry its key leads to
  (internal/coordinator/coordinator.go:546-555), which after such a deletion may have been opened for
  another payload. `RepetitionHears` proves that a repetition hears the result exactly if it carries the
  payload that entry was opened for, and `EntryOwner` whose payload that is; in the run of
  `ReplaysAnotherPayload` a command is answered with the result of a different one.
- A backslash keeps a blank in a value (internal/appdeploy/worker.go:524-525), but the value is trimmed
  before it is read. `BackslashedReadsBack` proves that a backslashed word reads back exactly if it does
  not end in a blank.
- Connection ids are said never to be reused (internal/gateway/relay.go:379-381); after 2^32 - 1
  attachments they are. `AttachBalances` proves that the accounting survives an attachment exactly
  when its id is not in use, and `WrapIsReached` is a run with the default limits that gets there.
- An activity entry without an id cannot be tombstoned, so clearing the journal is not atomic for it
  (internal/activity/journal.go:262-266). `MarkedIsGone` proves that this is the only exception, and
  `UnnamedComesBack` and `ClearBringsBack` show the entry come back.
- A durable tombstone is said to close the crash window of a discard
  (internal/activity/journal.go:283-285). It does so for good only if the rewrite succeeds: when the
  rewrite fails the tombstone is withdrawn, and from then on, and only then, a reopening brings the
  discarded entry back. `Discard` and `Clear` state this timeline exactly.
- An append that reports a failure may leave part of its line (internal/activity/journal.go:193-206).
  `FailedPredecessor` proves that the next accepted entry survives a reopening exactly if nothing or
  the whole line was left, and that the two together can make the journal unreadable.

## Model

| member | source | states |
|---|---|---|
| `SchedulerPromises.AtMostOneAnswer` | internal/coordinator/coordinator.go:656-853 | in every run no response channel gets two answers, and only channels of requests taken from ingress get one |
| `SchedulerPromises.ExitAnswersEveryone` | internal/coordinator/coordinator.go:656-684 | when the loop exits nothing is live and every waiter of every request taken, duplicates included, has exactly one answer |
| `SchedulerPromises.LedgerIsSound` | internal/coordinator/coordinator.go:705-727 | in every reachable ledger an entry has a result exactly when it has no operation, and until stopping its operation is queued or in flight under that key and hash |
| `SchedulerPromises.NoSecondOperation` | internal/coordinator/coordinator.go:705-720 | while a key's entry is present a request with that key enqueues and starts nothing |
| `SchedulerPromises.PruningKeepsLiveEntries` | internal/coordinator/coordinator.go:631-654 | pruning keeps every entry whose operation is under way and leaves room or nothing else |
| `SchedulerPromises.PruningIsFair` | internal/coordinator/coordinator.go:631-654 | pruning removes every finished entry past its retention, and another one only to make room: no finished entry that stays is older, and no more go than needed |
| `SchedulerPromises.EntrySurvivesUnlessStale` | internal/coordinator/coordinator.go:698-720 | the entry of an operation under way survives a request with its key if and only if the request passes the generation check |
| `SchedulerPromises.StartsAreCurrent` | internal/coordinator/coordinator.go:454-491 | every effect starts once, and a pane effect's token carries the generation its command was admitted with, which is the slot's at that moment |
| `SchedulerPromises.AnswersTellTheTruth` | internal/coordinator/coordinator.go:891-950 | over whole runs, an answer speaks of a started effect if and only if the operation was started |
| `SchedulerOutcomes.OvertakenIsUnknown` | internal/coordinator/coordinator.go:510-540 | over every run, a started effect whose slot has moved on stays overtaken until it ends; from then on only "outcome unknown" is said of it, and once it has ended, at the latest at exit, every waiter it gathered, late attachments included, has exactly that answer |
| `SchedulerOutcomes.InvalidatedIsUnknown` | internal/coordinator/coordinator.go:511-540 | the same for an effect that ends when the generation validator no longer vouches for it: its own result reaches nobody in any continuation |
| `SchedulerOutcomes.RunOutcome` | internal/coordinator/coordinator.go:656-853 | over every run nothing completes for an overtaken operation and its waiters stay its own |
| `SchedulerWitness.StaleRequestCostsTheEntry` | internal/coordinator/coordinator.go:698-704 | a run of three requests from the empty loop after which two operations with one key are under way |
| `SchedulerWitness.ReplaysAnotherPayload` | internal/coordinator/coordinator.go:542-570 | a run of five events from the empty loop in which a repetition hears the result of a command with another payload |
| `SchedulerHistory.KnownKeyAnswer` | internal/coordinator/coordinator.go:705-720 | a request whose key has an entry: with another payload the log grows by exactly one conflict, with the same payload and a result by exactly that result marked as replayed, and otherwise the log stands still and the waiter waits, as a repetition, behind those of the operation under way |
| `SchedulerHistory.TurnedAway` | internal/coordinator/coordinator.go:690-704 | a request that meets a stopping loop, comes past its deadline or for an older session gets exactly the one answer that says so, in that order of precedence |
| `SchedulerHistory.UnknownKeyOpens` | internal/coordinator/coordinator.go:705-762 | a request whose key has no entry opens one with its own payload, pane and arrival time, naming it as the operation; if nobody else under way carries the key it is still there after the dispatch |
| `SchedulerHistory.CurrentEndTells` | internal/coordinator/coordinator.go:497-572 | an effect that ends while its session is current is out of the loop, and each of its waiters, late ones included, has exactly one answer: the effect's own result |
| `SchedulerHistory.CurrentEndIsHeard` | internal/coordinator/coordinator.go:497-572 | the same in every continuation of every run |
| `SchedulerHistory.CurrentEndRecords` | internal/coordinator/coordinator.go:542-556 | afterwards the key's entry has that result and no operation; it is gone exactly for a nil or "not_started" result, or if the dispatch that follows ends another operation with the key, which cannot be if nobody else carries it |
| `SchedulerHistory.CompletedIsOwn` | internal/coordinator/coordinator.go:497-572 | over every run, a completed answer repeats the result of the completion event in which it was given, of its own operation, then running in its current session |
| `SchedulerHistory.ReplayedIsRecorded` | internal/coordinator/coordinator.go:705-714 | over every run, a replayed answer goes to the waiter of a request and carries the result last recorded under that key in an entry for that payload, by a completion or a ledger update, and standing there since |
| `SchedulerHistory.EveryAnswerIsJustified` | internal/coordinator/coordinator.go:656-853 | over every run, each completed, replayed or conflict answer was given in one event, in a state that justifies it |
| `SchedulerHistory.EveryResultIsRecorded` | internal/coordinator/coordinator.go:546-556 | over every run, each result in the ledger has stood there since one event that recorded it |
| `SchedulerHistory.RepetitionHears` | internal/coordinator/coordinator.go:546-555 | right after a current effect ended, a repetition under its key hears its result if and only if it carries the payload the entry was opened for, and conflicts otherwise |
| `SchedulerHistory.EntryOwner` | internal/coordinator/coordinator.go:721-726 | until stopping, an entry was opened for the payload of the operation it names |
| `SchedulerAnswers.StepAccounted` | internal/coordinator/coordinator.go:656-853 | every answer of one event is justified by the state it finds, and every result in the ledger after it was there before or is recorded by it |
| `SchedulerAnswers.DispatchPassed` | internal/coordinator/coordinator.go:430-495 | a dispatch pass speaks for no effect and no entry, moves no generation, touches no running effect, and forgets exactly the keys of the operations it ends |
| `SchedulerTopology.TopologyMovesOn` | internal/coordinator/coordinator.go:574-629 | a topology update leaves each slot with the largest of its own generation, one more if the pane was active and no longer is, and those named for it; if it moved, no entry of an older session is left, each operation queued there is out of the loop with exactly "pane replaced" told to each waiter, and what runs there is overtaken |
| `SchedulerTopology.QueuedNeverStarts` | internal/coordinator/coordinator.go:575-599 | over every run, what was queued on a pane that an update retires or raises never starts in any continuation, and its waiters have exactly "pane replaced" |
| `SchedulerTopology.RunningIsUnknown` | internal/coordinator/coordinator.go:600-625 | over every run, what was running there is reported as unknown, and as nothing else, to every waiter it has or still gathers |
| `SchedulerDeadlines.NeverStartsLate` | internal/coordinator/coordinator.go:433-491 | over every run, each effect was started by an event whose dispatch clock was before its command's deadline |
| `SchedulerDeadlines.DispatchPunctual` | internal/coordinator/coordinator.go:430-495 | a dispatch pass starts only what is before its deadline, says "not started" only of what is past it and "replaced" only of what belongs to a session that is over |
| `SchedulerDeadlines.TimerTells` | internal/coordinator/coordinator.go:793-801 | when the timer fires, everything queued past its deadline is out of the loop, and each waiter has exactly "not started" |
| `SchedulerDeadlines.StopTells` | internal/coordinator/coordinator.go:803-850 | when the loop begins to stop, everything queued is out of the loop, and each waiter has exactly "closed" |
| `SchedulerGenerations.SupersededNeverStarts` | internal/coordinator/coordinator.go:466-473 | work waiting behind a newer generation of its slot is never started in any continuation of the run |
| `SchedulerPromises.CapacityIsRespected` | internal/coordinator/coordinator.go:430-495 | in every run the slots in use equal relay effects in flight plus panes with one, within the capacity |
| `SchedulerPromises.OneEffectPerPane` | internal/coordinator/coordinator.go:461-463 | no pane has two running effects |
| `SchedulerPromises.NoRunnableWaits` | internal/coordinator/coordinator.go:430-495 | between events nothing runnable waits while capacity is free, and every queue is in sequence order |
| `SchedulerPromises.TimerExpiresExactly` | internal/coordinator/coordinator.go:793-801 | a timer pass ends exactly the queued operations whose deadline has passed, and none in flight |
| `SchedulerPromises.QueuedIsTimed` | internal/coordinator/coordinator.go:728-762 | until stopping, every queued operation is in the deadline heap |
| `SchedulerEvents.StepKeeps` | internal/coordinator/coordinator.go:656-853 | every event of the loop keeps the invariant that ties queues, records, ledger, heap, counters, fates and starts together |
| `SchedulerEvents.IngressKeeps` | internal/coordinator/coordinator.go:687-763 | the ingress case keeps the invariant in each of its branches |
| `SchedulerEvents.CompleteKeeps` | internal/coordinator/coordinator.go:497-572 | the completion case keeps the invariant |
| `SchedulerEvents.TopologyKeeps` | internal/coordinator/coordinator.go:574-629 | the topology case keeps the invariant |
| `SchedulerEvents.BeginStopKeeps` | internal/coordinator/coordinator.go:803-850 | cancelling and stopping keep the invariant |
| `SchedulerInvariant.DispatchKeeps` | internal/coordinator/coordinator.go:430-495 | dispatch keeps the invariant |
| `SchedulerTheorems.RunBetween` | internal/coordinator/coordinator.go:656-853 | every state between the events of a run satisfies the invariant with nothing runnable left waiting |
| `SchedulerTheorems.DispatchDrains` | internal/coordinator/coordinator.go:453-493 | dispatch ends, with capacity used up or no runnable operation left |
| `SchedulerModel.SortedPanesListAll` | internal/coordinator/coordinator.go:448-452 | the sorted pane list holds exactly the panes with slots |
| `SchedulerModel.SortedPanesAscend` | internal/coordinator/coordinator.go:448-452 | the sorted pane list ascends |
| `SchedulerLoop.Scheduler.constructor` | internal/coordinator/coordinator.go:166-169 | a new loop is empty and its capacity defaults to 8 |
| `SchedulerLoop.Scheduler.Submit` | internal/coordinator/coordinator.go:687-763 | the ingress case takes the state to the step's state, of which `KnownKeyAnswer`, `TurnedAway` and `UnknownKeyOpens` say what it answers, and keeps the invariant |
| `SchedulerLoop.Scheduler.EffectEnded` | internal/coordinator/coordinator.go:497-572 | the completion case takes the state to the step's state, of which `CurrentEndTells` and `CurrentEndRecords` say who hears what |
| `SchedulerLoop.Scheduler.ApplyTopology` | internal/coordinator/coordinator.go:574-629 | the topology case takes the state to the step's state for some order of the maps it ranges over; `TopologyMovesOn` says what that leaves |
| `SchedulerLoop.Scheduler.TimerFired` | internal/coordinator/coordinator.go:793-801 | the timer case pops the heap in deadline order and takes the state to the step's state |
| `SchedulerLoop.Scheduler.UpdateEntry` | internal/coordinator/coordinator.go:768-775 | the ledger case replaces a result only where one stands at the same generation |
| `SchedulerLoop.Scheduler.Replay` | internal/coordinator/coordinator.go:777-788 | the replay query answers from the ledger and changes nothing |
| `SchedulerLoop.Scheduler.Cancel` | internal/coordinator/coordinator.go:803-825 | cancelling answers everything queued and takes the state to the step's state |
| `SchedulerLoop.Scheduler.StopLoop` | internal/coordinator/coordinator.go:827-850 | stopping answers everything queued and takes the state to the step's state |
| `SchedulerLoop.Scheduler.MayExit` | internal/coordinator/coordinator.go:657-660 | the loop exits exactly when it is stopping, acknowledged and nothing is in use |
| `SchedulerLoop.Scheduler.DispatchAll` | internal/coordinator/coordinator.go:430-495 | the nested dispatch loops end in the state dispatch specifies |
| `SchedulerLoop.Scheduler.DispatchRelayQueue` | internal/coordinator/coordinator.go:433-446 | the relay loop expires or starts operations in queue order |
| `SchedulerLoop.Scheduler.Visit` | internal/coordinator/coordinator.go:456-491 | one pane of one round drops, expires or starts the head of its queue |
| `SchedulerLoop.Scheduler.PruneLedger` | internal/coordinator/coordinator.go:631-654 | the two pruning loops drop aged entries and then oldest finished ones, in some order the rule allows |
| `SchedulerLoop.Scheduler.SupersedePane` | internal/coordinator/coordinator.go:583-598 | raising a slot answers its queue as stale and forgets the pane's older entries |
| `SchedulerLoop.Scheduler.EnqueueOnPane` | internal/coordinator/coordinator.go:732-761 | a pane command raises its slot if needed, is stamped and inserted by sequence |
| `SchedulerLoop.Scheduler.AttachTo` | internal/coordinator/coordinator.go:715-718 | a duplicate's waiters join the operation under way, marked as replayed |
| `SchedulerLoop.Scheduler.FinishOp` | internal/coordinator/coordinator.go:542-570 | a finished operation leaves heap and ledger as its result says and answers its waiters with that result |
| `SchedulerLoop.Scheduler.UnplugRecord` | internal/coordinator/coordinator.go:506-527 | a pane effect's record is cleared, its slot raised or deleted as the result asks |
| `SchedulerLoop.Scheduler.Inserted` | internal/coordinator/coordinator.go:952-958 | insertion by sequence into an ordered queue |
| `SchedulerLoop.Scheduler.TakeOut` | internal/coordinator/coordinator.go:876-889 | removing a queued operation reports whether it was queued and leaves in-flight ones alone |
| `SchedulerLoop.Scheduler.Without` | internal/coordinator/coordinator.go:960-969 | removal of one operation from a queue, reporting whether it was there |
| `SchedulerLoop.Scheduler.Reply` | internal/coordinator/coordinator.go:942-950 | every waiter of the operation gets one message |
| `SchedulerLoop.Scheduler.ExpireOp` | internal/coordinator/coordinator.go:891-911 | an expired operation loses its key and its waiters are told it never started |
| `SchedulerLoop.Scheduler.ReplyStale` | internal/coordinator/coordinator.go:913-932 | a stale operation loses its key; its waiters are told what depends on whether it started |
| `DeadlineHeap.TopIsFirst` | internal/coordinator/coordinator.go:121-123 | the root of an ordered heap has the earliest deadline |
| `DeadlineHeap.Heap.Push` | internal/coordinator/coordinator.go:129-133 | pushing keeps heap order and back-pointers and adds exactly the operation |
| `DeadlineHeap.Heap.Pop` | internal/coordinator/coordinator.go:134-141 | popping returns an operation with the earliest deadline and removes exactly it |
| `DeadlineHeap.Heap.Remove` | internal/coordinator/coordinator.go:118-141 | removal by back-pointer removes exactly the operation and keeps order and back-pointers |
| `DeadlineHeap.Heap.Swap` | internal/coordinator/coordinator.go:124-128 | a swap keeps back-pointers equal to positions |
| `AgentPromises.PollKeepsEvents` | internal/coordinator/state.go:459-466 | an accepted poll keeps the status of a pane whose revision moved past its base and brings its own to every other session it knows |
| `AgentPromises.PollKeepsEventsOfRun` | internal/coordinator/state.go:389-403 | whatever status event lands after the token was taken, the poll, if accepted, leaves the status the pane then has |
| `AgentPromises.PollSeesTokenPanes` | internal/coordinator/state.go:191-195 | a poll is accepted only on the pane set its token was taken on |
| `AgentPromises.RunTopologyQuiet` | internal/coordinator/state.go:405-419 | over every run the topology generation never falls, and while it stands still so does the pane set |
| `AgentPromises.CapturedGeneration` | internal/coordinator/state.go:272-283 | a generation captured while the pane was present is current later if and only if no step in between bumped it, omitted the pane or named another session under its id |
| `AgentPromises.RunGeneration` | internal/coordinator/state.go:434-457 | generations never fall |
| `AgentPromises.StepGeneration` | internal/coordinator/state.go:541-545 | a known pane's generation rises exactly when its session ends |
| `AgentPromises.AbsentGeneration` | internal/coordinator/state.go:452-457 | a generation read while the pane was absent becomes current on reappearance if and only if the inventory was not ready or the pane never had a session |
| `AgentPromises.FinishedOnce` | internal/coordinator/state.go:1125-1141 | after a finished notification was registered for a positive completion revision, no later request for it succeeds in any continuation |
| `AgentPromises.BlockedExactly` | internal/coordinator/state.go:678-694 | in every reachable state a pane is blocked exactly when it has an event id and exactly when it has an attention kind |
| `AgentPromises.EventIdNamesOneWait` | internal/coordinator/state.go:642-650 | two states of a run in which a pane is blocked carry the same event id if and only if it was blocked throughout in one session |
| `AgentPromises.StepEventId` | internal/coordinator/state.go:678-694 | a step keeps the event of a wait that goes on and gives every other wait an event no pane had before |
| `AgentPromises.SnapshotAgrees` | internal/coordinator/state.go:944-982 | in every reachable state the snapshot and the single-pane query report the same status |
| `AgentMarks.CompletionStaysDone` | internal/coordinator/state.go:760-794 | a pane that finished shows as done through every run in which it stays finished or idle in its session and nobody looks at it |
| `AgentMarks.LookingStaysIdle` | internal/coordinator/state.go:925-959 | once looked at it shows as idle through every such run, even where a later status says done again |
| `AgentMarks.RunRests` | internal/coordinator/state.go:730-812 | over every run a resting pane that nobody looks at keeps its unseen and acknowledged marks |
| `AgentMarks.SnapshotKeepsStatus` | internal/coordinator/state.go:346-384 | a snapshot leaves a pane whose session it knows its status, event id, kind, controls and marks, whatever it sampled and whatever its base revision |
| `AgentEvents.EventTakesHold` | internal/coordinator/state.go:600-640 | an event for a known session brings its status at once and touches no other pane; one for another session changes nothing |
| `AgentEvents.WaitingEventReaches` | internal/coordinator/state.go:469-476 | an event for a pane not known yet is not lost: through every run that does not take its place, the pane that appears in that session within 30 seconds appears with its status, and any other with the sampled one |
| `AgentEvents.WaitingEventDecides` | internal/coordinator/state.go:469-476 | the same for one commit, from any waiting event |
| `AgentEvents.TopologyMovesExactly` | internal/coordinator/state.go:407-420 | a commit leaves the topology generation alone if and only if it names exactly the known panes, each in its session |
| `AgentEvents.ClassificationIsCurrent` | internal/coordinator/state.go:825-839 | a classification computed from a blocked pane takes hold after any run if and only if the session lasted and the content revision stood still; then the pane still shows the very content that was classified, in the same wait |
| `AgentEvents.ClassificationTakesHold` | internal/coordinator/state.go:840-855 | a classification that is current replaces kind and controls and nothing else of the entry; any other changes nothing |
| `AgentEvents.RunContent` | internal/coordinator/state.go:825-839 | over one session a content revision that stands still means unchanged status, content, activity, event, kind and controls |
| `AgentWitness.AbsentGenerationReturns` | internal/coordinator/state.go:405-457 | a run of four events after which a generation read while the pane was absent is current |
| `AgentPromises.InventoryAt` | internal/coordinator/state.go:429-539 | a pane named by a commit is committed as if its record were the only one |
| `AgentPromises.InventoryElsewhere` | internal/coordinator/state.go:541-555 | a pane no record names is forgotten and its session ends |
| `AgentPromises.InventoryGeneration` | internal/coordinator/state.go:434-457 | a commit raises the generation of a named pane exactly when it opens a session |
| `AgentTheorems.StepInv` | internal/coordinator/state.go:340-663 | every step keeps blocked details, disjoint marks, disjoint pending events, counters and registered notifications consistent |
| `AgentTheorems.InventoryCore` | internal/coordinator/state.go:405-565 | a commit keeps the invariant |
| `AgentTheorems.ApplyEventInv` | internal/coordinator/state.go:593-663 | a status event keeps the invariant |
| `AgentTheorems.ClassifyInv` | internal/coordinator/state.go:825-855 | a classification keeps the invariant |
| `AgentTheorems.AcknowledgeInv` | internal/coordinator/state.go:925-942 | an acknowledgement keeps the invariant |
| `AgentTheorems.RegisterInv` | internal/coordinator/state.go:1125-1141 | a registration keeps the invariant |
| `AgentTheorems.TransitionSafe` | internal/coordinator/state.go:730-812 | a transition never marks a pane both unseen and acknowledged and never revives a registered completion |
| `AgentState.State.CommitInventory` | internal/coordinator/state.go:405-565 | the record, removal and expiry loops take the maps to the state the commit specifies |
| `AgentState.State.CommitRecord` | internal/coordinator/state.go:429-539 | one record's turn, statement by statement, has the specified outcome |
| `AgentState.State.CommitPoll` | internal/coordinator/state.go:389-403 | a poll commits exactly when its token's topology generation still stands |
| `AgentState.State.CommitTopology` | internal/coordinator/state.go:350-384 | a snapshot is committed with the status of the panes it knows |
| `AgentState.State.Differs` | internal/coordinator/state.go:407-416 | the scan finds out exactly whether a commit names other sessions |
| `AgentState.State.CommitEvent` | internal/coordinator/state.go:593-663 | an event is applied, postponed or refused as its identity says |
| `AgentState.State.Oldest` | internal/coordinator/state.go:603-609 | the waiting event that makes room is a first one to expire, unless the pane with the empty name waits too |
| `AgentState.State.RegisterTransition` | internal/coordinator/state.go:730-795 | the transition's marks |
| `AgentState.State.SyncCompletion` | internal/coordinator/state.go:797-812 | the completion of a chat begins and ends with the chat |
| `AgentState.State.Cycle` | internal/coordinator/state.go:678-694 | a continued wait keeps its event id, a fresh one draws one |
| `AgentState.State.Classify` | internal/coordinator/state.go:825-855 | a classification is committed only while event, generation and content are current |
| `AgentState.State.Acknowledge` | internal/coordinator/state.go:925-942 | an acknowledgement's marks and times |
| `AgentState.State.RegisterFinished` | internal/coordinator/state.go:1125-1141 | registration succeeds exactly under the specified condition |
| `AgentState.State.DisplayedStatus` | internal/coordinator/state.go:944-959 | the displayed status of a known pane, none of an unknown one |
| `AgentState.State.Snapshot` | internal/coordinator/state.go:961-976 | every pane is listed with the status shown |
| `GatewayClients.RunKeeps` | internal/gateway/relay.go:358-444 | in every interleaving, for links with fewer than 2^32 attachments, the counter equals attached connections plus slots held by threads, never exceeds a non-negative ceiling, and every slot is in exactly one place |
| `GatewayClients.StepKeeps` | internal/gateway/relay.go:386-444 | every locked or atomic step keeps these books |
| `GatewayClients.AttachBalances` | internal/gateway/relay.go:400-405 | an attachment keeps the books if and only if its id is not in use |
| `GatewayClients.WrapLosesASlot` | internal/gateway/relay.go:400-405 | the id after 2^32 - 1 is one, and taking it from a connection loses a slot |
| `GatewayWitness.WrapIsReached` | internal/gateway/relay.go:400-405 | from the empty gateway, with the default limits, a run that keeps the books up to the attachment that breaks them |
| `GatewayWitness.ChurnHolds` | internal/gateway/relay.go:386-427 | every number of attachments below 2^32 is reached with the first connection still there |
| `GatewayClients.ReserveKeeps` | internal/gateway/server.go:377-395 | a successful compare-and-swap stays within the ceiling |
| `GatewayClients.DetachKeeps` | internal/gateway/relay.go:418-444 | removing, sweeping and detaching move the slots to the thread that owes them |
| `GatewayClients.ReleaseKeeps` | internal/gateway/server.go:397-402 | releasing returns exactly the slots the thread owes |
| `GatewayClients.StepGives` | internal/gateway/server.go:397-402 | a slot is given back only by the thread that holds it, and what was given back stays so |
| `GatewayClients.GivenForever` | internal/gateway/relay.go:415-427 | over every run a slot that was given back is never held or given back again |
| `GatewayClients.QuietIsEmpty` | internal/gateway/relay.go:429-444 | with no connection and no thread left, every slot ever reserved has been given back and the counter is zero |
| `GatewayClients.WhoLeaves` | internal/gateway/relay.go:358-444 | sweeping takes exactly the stale connections, removing exactly the named one and detaching all; every other one stays, and the thread owes exactly the slots it took |
| `GatewayClients.WhoAttaches` | internal/gateway/relay.go:386-407 | a thread with a slot attaches exactly if the link is open and has room, and otherwise owes the slot |
| `GatewayClients.WhoReserves` | internal/gateway/server.go:377-395 | below the ceiling an undisturbed reservation succeeds, at the ceiling it is refused and changes nothing |
| `GatewayRegistry.RunKeeps` | internal/gateway/relay.go:149-212 | in every interleaving the table holds installed links under their own ids, one per id, at most `MaxRelays` |
| `GatewayRegistry.LosesRightly` | internal/gateway/relay.go:189-205 | a step takes an id from a link only if the link's own pump ended or the new link's probe of it went unanswered |
| `GatewayRegistry.RunLosesRightly` | internal/gateway/relay.go:149-212 | over every run, a link that no longer holds its id lost it rightly at some step |
| `GatewayRegistry.DisplacedForever` | internal/gateway/relay.go:242-248 | a displaced link never holds its id again |
| `GatewayRegistry.StepDisplaced` | internal/gateway/relay.go:242-248 | a displaced link's own steps leave the table alone, so it never removes its successor |
| `GatewayRegistry.FirstLook` | internal/gateway/relay.go:162-177 | a new registration is installed if and only if its id is free and there is room, refused for capacity if and only if the id is free and there is none, and otherwise probes the very link that holds the id |
| `GatewayRegistry.ProbeEnds` | internal/gateway/relay.go:178-187 | an answered probe refuses the registration as busy, a silent one lets it go on about that link; the table stands still |
| `GatewayRegistry.SecondLook` | internal/gateway/relay.go:189-206 | after a silent probe the registration is refused as busy if and only if another link holds the id by now, for capacity if and only if the id is free without room, and installed in every other case |
| `JournalModel.AppendsKeepLongestSuffix` | internal/activity/journal.go:166-210 | over every run of appends the kept list is the longest suffix of the accepted entries within 500 items and 2 MiB |
| `JournalModel.KeepThenAppend` | internal/activity/journal.go:177-184 | trimming before appending loses nothing that trimming at the end would keep |
| `JournalModel.RecoveryKeeps` | internal/activity/journal.go:95-164 | whatever part of a recovery reaches the disk, the next one finds the same entries |
| `JournalModel.RepeatedCrashes` | internal/activity/journal.go:95-164 | any number of crashes during recovery changes nothing about what reopening yields |
| `JournalModel.CleanFile` | internal/activity/journal.go:120-152 | a file that holds exactly the entries reopens to them minus the tombstones |
| `JournalModel.TornAppend` | internal/activity/journal.go:129-132 | a torn append reopens to the entries before it |
| `JournalModel.FailedPredecessor` | internal/activity/journal.go:193-206 | an entry accepted after a failed append survives a reopening if and only if the failed one left nothing or its whole line; reopening fails exactly when the glued line is too long |
| `Journal.RetainWithinLimits` | internal/activity/journal.go:228-251 | the loops return the longest suffix within the limits and its size, and an error exactly when the last entry alone is too large |
| `Journal.Journal.Load` | internal/activity/journal.go:95-164 | loading any disk yields its entries or an error, exactly which is decided by the disk and by which of its writes fail, and leaves files that agree with memory; every state on the way is one the writes of that recovery lead through, and reopens to the same entries |
| `Journal.Journal.Append` | internal/activity/journal.go:166-210 | an entry is accepted if and only if it is in range and the write works; memory and file become the trimmed list or stay, every state on the way reopens to the entries before or after, and the new entry survives exactly if its id is not tombstoned |
| `Journal.Journal.Compact` | internal/activity/journal.go:329-374 | file, entries and size change together or not at all |
| `Journal.Journal.Erase` | internal/activity/journal.go:305-322 | the whole timeline of an erasure: where in the history the tombstones come and go, and what each state reopens to, with the rewrite done or failed |
| `Journal.Journal.Discard` | internal/activity/journal.go:286-323 | every crash point reopens to the entries before or after; if the call succeeds, to those after from the durable tombstone on; if the rewrite fails, to those after exactly from the durable tombstone to its withdrawal |
| `Journal.Journal.Clear` | internal/activity/journal.go:253-281 | if the call succeeds, every crash point from the durable tombstones on reopens to none or to those that cannot be marked; if the rewrite fails, the entries before are back exactly from the withdrawal on |
| `Journal.UnnamedComesBack` | internal/activity/journal.go:262-270 | an entry without an id is back after a crash between the tombstones and the rewrite of a clear |
| `Journal.ClearBringsBack` | internal/activity/journal.go:253-281 | the same through append and clear: if both succeed, the history holds a state that reopens to the entry |
| `Journal.MarkedIsGone` | internal/activity/journal.go:262-269 | once its tombstones are durable a cleared journal reopens empty if and only if no visible entry lacks an id |
| `PaneSize.MinimumColumns` | internal/panesize/manager.go:550-558 | the narrowest lease in any iteration order, and whether there is one |
| `PaneSize.MinimumRows` | internal/panesize/manager.go:562-573 | the lowest height lease in any iteration order, zero when every lease is of the width alone |
| `PaneSize.RemoveExpired` | internal/panesize/manager.go:575-585 | exactly the unexpired leases stay |
| `PaneSize.OneNarrowest` | internal/panesize/manager.go:550-558 | the narrowest width does not depend on the iteration order |
| `PaneSize.OneLowest` | internal/panesize/manager.go:562-573 | the lowest height does not depend on the iteration order |
| `PaneSize.Wanted` | internal/panesize/manager.go:193-204 | the target size, rows falling back to the baseline, and rows left alone only where they already agree |
| `PaneSize.Manager.Acquire` | internal/panesize/manager.go:136-232 | a request out of range, a closed manager, a pane that is gone or a size that cannot be read is reported, in that order; without any of these it succeeds unless a resize it needs fails; success leaves the minimum of all unexpired leases on the terminal, even after resizes from outside; failure touches no terminal; without outside resizes terminal and applied size agree and the baseline is the size tracking began with |
| `PaneSize.Manager.Grant` | internal/panesize/manager.go:191-231 | a lease takes effect or is undone as if it had not come |
| `PaneSize.Manager.Fit` | internal/panesize/manager.go:193-219 | the terminal has the size the leases ask for, or stays as it was because a resize failed |
| `PaneSize.Manager.Release` | internal/panesize/manager.go:313-341 | a lease with time left keeps at most the grace, one without goes and the pane follows what is left |
| `PaneSize.Manager.ReleaseClient` | internal/panesize/manager.go:343-369 | if no resize of a tracked pane fails no pane keeps a lease of the client, and each that had one or none at all is in order |
| `PaneSize.Manager.SweepExpired` | internal/panesize/manager.go:371-395 | if no resize of a tracked pane fails every tracked pane is in order without its expired leases |
| `PaneSize.Manager.Shutdown` | internal/panesize/manager.go:415-428 | if no resize of a tracked pane fails nothing is tracked and every terminal that was is back at its baseline |
| `PaneSize.Manager.Reconcile` | internal/panesize/manager.go:587-611 | success leaves the minimum lease applied, or the baseline where no lease is left |
| `PaneSize.Manager.Restore` | internal/panesize/manager.go:613-630 | success leaves the baseline and forgets the pane; a failure leaves the terminal and only the fifth gives the pane up |
| `PaneDelta.Build` | internal/panedelta/delta.go:18-59 | for all frames the segments rebuild the current one exactly from the previous one, and no copy is shorter than three lines |
| `PaneDelta.Apply` | internal/panedelta/delta.go:69-86 | the loops give what the segments stand for, and fail exactly when a copy is out of range |
| `PaneDelta.MatchingLines` | internal/panedelta/delta.go:92-99 | the run matches and no longer run from the same places does |
| `PaneDelta.LinesRejoin` | internal/panedelta/delta.go:19-20 | cutting into lines loses nothing and leaves one line more than there are newlines |
| `PaneDelta.WholeCopy` | internal/app/pane_watch.go:309-315 | one copy of as many lines as there are newlines plus one rebuilds the whole frame |
| `PaneDelta.Efficient` | internal/panedelta/delta.go:61-67 | a delta is worth sending exactly under the stated inequality |
| `PaneWatch.Update` | internal/app/pane_watch.go:297-323 | nothing is sent exactly for the frame the client has; a delta names the acknowledged content and rebuilds the current one from it |
| `PaneWatch.Watch.constructor` | internal/app/pane_watch.go:106-126 | the first frame always goes out, as a delta only to a client that holds its content |
| `PaneWatch.Watch.Poll` | internal/app/pane_watch.go:148-197 | a message goes out if and only if nothing is pending, there is a frame worth looking at and it is unlike the acknowledged one; a delta sent rebuilds the current content from the acknowledged one; the watch stays consistent |
| `PaneWatch.Watch.HandleApplied` | internal/app/pane_watch.go:249-261 | only the pending content becomes the acknowledged one, and a resync follows exactly where neither matches |
| `PaneWatch.Watch.Receive` | internal/app/pane_watch.go:297-336 | a client that takes messages in order never refuses a delta and then holds the pending content |
| `PaneWatch.Watch.Acknowledge` | internal/app/pane_watch.go:249-255 | its acknowledgement makes the pending frame the acknowledged one, without a resync |
| `Framing.RoundTrip` | internal/framing/framing.go:64-191 | any sequence of frames up to 21 MiB, at any chunk limit above 6, comes through: nothing until each END chunk, then exactly that frame, idle at the end |
| `Framing.OneFrame` | internal/framing/framing.go:134-191 | the same for one frame, from any inactive reassembler |
| `Framing.ChunksFit` | internal/framing/framing.go:64-71 | a frame takes exactly `Count` chunks, each within the limit |
| `Framing.FrameHasDeclaredLength` | internal/framing/framing.go:134-191 | from arbitrary input, a frame that comes out was begun by a START chunk the idle reassembler accepted and under way ever since; it has exactly the length that chunk declared and exactly the bodies accepted from there on |
| `Framing.LengthSurvives` | internal/framing/framing.go:104-104 | a length below 2^32 survives its big-endian encoding |
| `Framing.Chunk` | internal/framing/framing.go:78-116 | the loop appends exactly the frame's chunks |
| `Framing.Reassembler.Push` | internal/framing/framing.go:134-191 | pushing does what the specification says, errors and partial updates included |
| `Framing.Reassembler.Reset` | internal/framing/framing.go:200-204 | a reset leaves the reassembler idle |
| `ShellWord.QuotedReadsBack` | internal/herdr/client.go:886-895 | a quoted word reads back to the original bytes, for every input, without a reference on the way |
| `ShellJoin.JoinSplitsBack` | internal/herdr/client.go:876-884 | the words of a joined line are the quoted arguments one for one, and each reads back to its argument |
| `ShellJoin.Join` | internal/herdr/client.go:878-884 | the loop joins the quoted arguments |
| `ShellVariables.Resolver.Resolve` | internal/appdeploy/worker.go:342-364 | for every set of assignments the memoised resolver ends and returns exactly what plain expansion along the reference path gives, value or error |
| `ShellVariables.Resolver.Parse` | internal/appdeploy/worker.go:423-425 | a right-hand side without its comment and outer blanks expands as its word does |
| `ShellVariables.Resolver.Unquote` | internal/appdeploy/worker.go:465-540 | the loop expands the word, references in order, and reports the first error |
| `ShellVariables.ExpandedMeansAcyclic` | internal/appdeploy/worker.go:346-348 | a name that expands leads to no cycle: no chain of references from it comes back to a name passed or on the path |
| `ShellVariables.CycleIsReal` | internal/appdeploy/worker.go:346-348 | a reported cycle is a real one: a chain of references leads from the name past the reported one and back to it |
| `ShellVariables.Remember` | internal/appdeploy/worker.go:361-362 | what a finished name is remembered as is what plain expansion gives along every path that avoids remembered names |
| `ShellVariables.RememberOutside` | internal/appdeploy/worker.go:349-354 | the same for a name the file does not assign |
| `ShellVariables.QuotedExpandsBack` | internal/appdeploy/worker.go:423-425 | a quoted word expands to the original whatever the variables are |
| `ShellVariables.StripInlineComment` | internal/appdeploy/worker.go:427-463 | the loop cuts exactly where a comment begins |
| `ShellVariables.VariableReference` | internal/appdeploy/worker.go:397-421 | the loops find the reference at a dollar sign, its name and its end, or none |
| `ShellVariables.Next` | internal/appdeploy/worker.go:469-532 | one turn of the unquoting loop does what reading the next byte means |
| `ShellVariables.CheckName` | internal/appdeploy/worker.go:377-387 | exactly the shell variable names pass |
| `ShellReferences.BracedReference` | internal/appdeploy/worker.go:401-412 | for every name, a dollar sign, a brace, the name and a brace is a reference to it that ends after the brace |
| `ShellReferences.BareReference` | internal/appdeploy/worker.go:413-420 | for every name, a dollar sign and the name is a reference to it, up to the first byte that no name has |
| `ShellReferences.OnlyReferences` | internal/appdeploy/worker.go:397-421 | every reference found is one of these two |
| `ShellReferences.WrittenReadsBack` | internal/appdeploy/worker.go:427-540 | any text and references, written as one double-quoted word with the text escaped and the names in braces, read back to that text and those references in order |
| `ShellReferences.WrittenExpands` | internal/appdeploy/worker.go:342-540 | so it expands as the pieces do, value or error |
| `ShellReferences.CommentIsCut` | internal/appdeploy/worker.go:427-463 | a value is cut exactly before the first unquoted hash behind an unescaped blank, and otherwise left whole |
| `ShellReferences.CommentBehindWritten` | internal/appdeploy/worker.go:427-463 | a comment behind such a word is cut off whatever it says |
| `ShellReferences.BackslashedReadsBack` | internal/appdeploy/worker.go:423-532 | a word with every byte behind a backslash reads back to its bytes if and only if it does not end in a blank |

## Left out

- Sockets, WebSocket handshakes, subprocesses, real clocks and goroutine scheduling; their outcomes are inputs of the model.
- `ExecuteAdmitted`'s final select, which may report a closed scheduler beside a buffered answer: answer theorems speak of what the loop sends.
- Scheduler metrics, request ids and the texts of results.
- SchedulerLoop.Scheduler.ApplyTopology: cancelling the context of an overtaken effect is not modelled; what it can change is when and how the effect ends, which is left open.
- SchedulerLoop.Scheduler.Cancel: likewise for the contexts of all effects in flight.
- SchedulerLoop.Scheduler.StopLoop: likewise.
- SchedulerLoop.Scheduler.SupersedePane: likewise for the effect of the pane.
- SchedulerLoop.Scheduler.EnqueueOnPane: likewise.
- AgentState.State.Snapshot: the listing is a map; that it is sorted by pane id is not modelled.
- Triage persistence, workspaces and custom answers of the agent state; the callbacks its transitions invoke.
- Gateway shutdown, the rate limiter, quota counters, pings and frame codecs.
- JSON encoding and normalisation of activity entries, file permissions, the size limit of the tombstone file and ids with surrounding blanks.
- Journal.Journal.Append: within the class a failed append leaves the file alone; what a partial one does to its successor is stated for files by `FailedPredecessor`.
- `ResizedWithin`, `ActiveColumns`, `ActiveRows` and the lookup of a pane's terminal device, which would only add easy members.
- GatewayClients.StepKeeps: links, threads and the counter are one value changed by interleaved steps, not shared objects; effects of weaker memory models are not captured.
- GatewayRegistry.RunKeeps: likewise, and what a displaced link's clients see when it closes is not modelled.
- Journal.Journal.Compact: renaming and syncing the directory count as one durable step.
- Framing.Chunk: chunks are values; that they share one buffer with each other is not modelled, and neither is the stall timeout.
- PaneWatch.Watch.Receive: the client is the one of `panedelta.Apply`; the browser's own reading of segments is not modelled.
- ShellWord.QuotedReadsBack: blanks outside ASCII, which trimming would also remove, are not told apart; a quoted word neither begins nor ends with one.
- Splitting the environment file into lines and assignments, and the deployment steps around it.
- Dispatcher handlers, approval and question planning, history merging, board templates, the frontend and command-line entry points.
