# Pixie's controller: durable state and streams

Pixie's controller sits between browsers and a Pi agent host. It keeps state that has to
survive crashes, lost replies, reconnects and failed writes. This project models the parts
of it where that is hard, and proves what each of them promises.

`dafny verify dfyconfig.toml` checks the whole project.

## What is modelled

**Writes.** `Persist` models a store file with its `.bak` generation, one file step at a
time. Everything else uses what it proves: a write is done, failed with the stored value
unchanged, or failed with the stored value changed (`Base.Outcome`). A crash is a step that
drops memory; an eviction is a crash of one chat alone.

**The follow-up queue** (`QueueModel`, `QueueOrder`, `QueueSafety`, `QueueSteps`,
`QueueRuns`, `QueueRequests`, `QueueInstalls`, `QueueStale`, `QueueController`). A queued item
moves from the follow-ups to a prepared dispatch, to an attempted one, and then is delivered
or blocked. `QueueModel` gives the pure mutations and a labelled transition system whose steps
are the controller's writes, the agent's replies, the user's requests, crashes, evictions,
reconnects and the deletion of the chat, in any order. A run is any sequence of them, where an event that is not enabled
changes nothing; the invariants and the main results are stated over every run.
`QueueController.Entry` is the imperative side: each method works on the fields the code
updates and is proved to take exactly the steps of the model.

An item leaves the record for one of four causes only: its user removed it, its prompt was
accepted or echoed in full, a reloaded transcript already holds it, or its chat was deleted,
which takes the whole record and what it remembers. Everything below speaks of such items
and requests up to that deletion.

A request that finds its chat unloaded reads the stored queue before it takes the manager's
lock and installs it afterwards (`queueEntry`, `EnsureAttached`). Any number of such reads can
be under way, also while the chat is loaded and at work, and what is installed can be old.
What is stored is valid, and is marked before anything is submitted, in every run. Three
promises depend on what is installed, each with a run that breaks it (`QueueStale`) and with
the exact condition on an install (`QueueInstalls`): every continuation without another
install keeps the promise if and only if

- for the delivery bound, the record read offers no item whose submissions its user's retries
  have used up (`Spendable`);
- for conservation, it holds every item that must be kept, and remembers no addition whose
  item it or the disk would have to keep and does not (`Complete`);
- for repeated requests, it remembers the operation as one that no more requests have followed
  than were counted (`Recent`).

`Spendable` and `Complete` speak of what was submitted, retried, acknowledged and released,
which the controller does not keep. Two conditions that compare the record read with the
stored one imply them: it offers for sending only what the stored one offers (`Offered`), and
it holds every stored item and remembers no other request (`Covers`). Both hold of a fresh
record, the one still stored. A record whose text was edited since it was read is not fresh,
but still offers nothing new (`OfferedIsWiderThanFresh`); one whose unsent item was removed
since offers more than the stored one, and still has a submission to spare
(`SpendableIsWiderThanOffered`).

**Session deletion** (`Deletion`, `DeletionController`). Events and when each is allowed: the
writes of the four stores, what the agent does, crashes, and the requests that look a chat up
and enter it later. The controller's methods keep a ghost log of the events that happened and
prove that it is a legal run, so that a crash after any event is a run too.

A store loses a chat behind a recorded deletion whose agent no longer has the session. There
is one exception: clearing the goal of a chat without tasks removes its objective, although
nothing is deleted (`ClearGoesBeforeTheAgent`). `StoresLoseExactlyByDeletionOrClear` says
that these two are all.

A request that finds its chat unloaded looks up its association without the manager's lock,
and is admitted under the lock without looking again. Such a request can bring a chat back
whose deletion was finished in between: `StaleLookupRevivesADeletedChat` is the run. When a
deletion ends, the chat is in no store and not at its agent; it stays so in every continuation
if and only if no such lookup is still under way. A restart ends them all.

**Store files of records** (`SessionStores`): finding, replacing and removing one session's
record, and the double write that leaves it in neither generation.

**Connection and streams** (`PiConnection`, `SessionProjection`, `HostStream`, `Transcript`):
the single-flight connection with generations, where other goroutines' critical sections run
in any order between two sections of one call; the transcript rebuilt aside while a session
loads; the host's numbered events and loading buffers; the fold of streamed deltas and the
recognition of a prompt's echo.

**Bounded shared structures** (`ReplayCache`, `Eviction`, `AppViewModel`, `AppViewRegistry`,
`BrowserPanels`): what their counters count, their bounds, and what is never dropped.

**Schedules** (`ScheduleModel`, `ScheduleHistory`, `ScheduleController`): claim before
dispatch, records that could not be saved yet, reconciliation after a restart, and remembered
mutations. No occurrence is dispatched twice. A run is for the first occurrence after the
moment at which the run before it was claimed, so none in between is skipped
(`NothingSkipped`); one that had come by then is not dispatched by itself, and the earlier run
stands for both (`NextOneFollows`, `LateClaim`).

**Sequential algorithms** (`PathWalk`, `Base64`): the descriptor walk through symbolic links
against a resolver that treats each link by itself, and the canonical base64 check against
the encoding of RFC 4648.

## Model

| member | source | states |
|---|---|---|
| `Persist.Directory.Read` | pixie/internal/persist/store.go:20-36 | the first generation that decodes is read; nothing stored is reported only when neither file exists |
| `Persist.Directory.Write` | pixie/internal/persist/store.go:105-141 | success is exactly validity and no failing file step; after success both readers find the value; after every file step a reader finds the old value or the new one |
| `Persist.CrashLeavesOldOrNew` | pixie/internal/persist/store.go:105-141 | a crash between any two file steps leaves either reader with its earlier value or the new one |
| `Persist.WriteHasThreeOutcomes` | pixie/internal/persist/store.go:105-141 | seen from the primary, or by a reader that falls back to the backup, every ending of a write is one of the three outcomes the other models use |
| `Persist.DoubleWriteFillsBothGenerations` | pixie/internal/controller/session_state.go:129-147 | after two writes of one value both generations hold it |
| `SessionStores.UpsertThenFind` | pixie/internal/controller/session_queues.go:168-188 | saving one session's queue changes what is found for it and for no other session |
| `SessionStores.UpsertKeepsTheOthers` | pixie/internal/controller/session_queues.go:168-188 | all other records stay as they are, in order |
| `SessionStores.WithoutThenFind` | pixie/internal/controller/session_queues.go:190-209 | a removed session is not found any more |
| `SessionStores.WithoutKeepsTheOthers` | pixie/internal/controller/session_state.go:129-147 | removing a session keeps exactly the other sessions' records |
| `SessionStores.SessionFile.Load` | pixie/internal/controller/session_queues.go:215-234 | execution input is read from the primary alone; a missing file is empty only when its backup is missing too, and a file that cannot be read is an error |
| `SessionStores.SessionFile.Get` | pixie/internal/controller/session_queues.go:153-166 | a session's own record, nothing, or an error when the store cannot be trusted |
| `SessionStores.SessionFile.Save` | pixie/internal/controller/session_queues.go:168-188 | on success a reader finds the record and all others unchanged; on an error, the old or the new records |
| `SessionStores.SessionFile.Forget` | pixie/internal/controller/session_state.go:129-147 | on success neither generation can bring the session back; at every crash point a reader finds the old records or the remainder |
| `QueueOrder.MovesKeepTheList` | pixie/internal/controller/session_actions.go:667-725 | preparing, marking, restoring and retrying leave the combined list of items as it is |
| `QueueOrder.OnlyDeliveryDropsTheHead` | pixie/internal/controller/session_actions.go:773-867 | settling and recovering drop the head exactly when it was delivered, and recovery requeues only what was never attempted |
| `QueueOrder.DispatchedIsRecognised` | pixie/internal/controller/session_actions.go:708-710 | what is prepared now and sent is recognised when the agent replays it as the next user turn, whatever follows; without a new turn it is blocked, and if it was never attempted it is sent again |
| `QueueOrder.ShownIndexes` | pixie/internal/controller/session_queues.go:102-119 | the indexes that reach an item are exactly those of the shown list |
| `QueueOrder.VisibleIsTheListWithoutTheHidden` | pixie/internal/controller/session_queues.go:102-119 | what a browser is shown is the combined list without the dispatch hidden while its prompt is active |
| `QueueOrder.EditTouchesTheShownElement` | pixie/internal/controller/session_actions.go:117-198 | an edit at a shown index changes that text and nothing else, on the wire and in the list |
| `QueueOrder.RemoveTakesTheShownElement` | pixie/internal/controller/session_actions.go:200-279 | a removal at a shown index takes out exactly the item shown there |
| `QueueOrder.EditKeepsTheRecordValid` | pixie/internal/controller/session_queues.go:280-333 | an edited record still passes the store's validation, with the same identifiers |
| `QueueOrder.RemoveKeepsTheRecordValid` | pixie/internal/controller/session_queues.go:280-333 | a shortened record still passes the store's validation, with one identifier less |
| `QueueOrder.EditsAndRemovalsAddNothingRunnable` | pixie/internal/controller/session_actions.go:117-279 | neither lets the controller send more than before |
| `QueueSafety.TrimmedOnce` | pixie/internal/controller/session_actions.go:1014-1021 | a stored text is trimmed already, so validation accepts what an addition stores |
| `QueueSafety.QueuedTextIsTrimmed` | pixie/internal/controller/session_actions.go:1014-1021 | a text is accepted exactly when something without a NUL is left between the white space around it, and what is stored is that |
| `QueueSafety.LookupDecides` | pixie/internal/controller/session_queues.go:121-135 | the first remembered operation under the key decides between a duplicate and a conflict |
| `QueueSteps.QuietStepKeepsInv` | pixie/internal/controller/session_actions.go:458-867 | every step but an install, with every outcome, keeps the storage, delivery and conservation invariant |
| `QueueRuns.StepKeepsInv` | pixie/internal/controller/session_actions.go:458-867 | every step with every outcome keeps the invariant, an install when what it installs has submissions to spare and misses nothing that must be kept |
| `QueueRuns.RunsKeepInv` | pixie/internal/controller/session_actions.go:458-867 | the invariant holds at the end of every run whose installs are such; what it says of storage and of marks holds at the end of every run |
| `QueueRuns.AtMostOneSubmissionPerRequest` | pixie/internal/controller/session_actions.go:458-577 | over every run an item is submitted at most once more often than its user asked for a retry and an old record that still offered it was installed |
| `QueueRuns.SubmissionFollowsADurableMark` | pixie/internal/controller/session_actions.go:491-503 | in every run, before an item is submitted some earlier state of the disk showed it as attempted |
| `QueueRuns.AcknowledgedItemsAreKept` | pixie/internal/controller/session_actions.go:72-115 | an acknowledged item is on disk, and in memory, in exactly one place until the user removed it, its prompt was accepted or fully echoed, the replayed transcript held it, or its chat was deleted |
| `QueueRuns.ReleasesHaveACause` | pixie/internal/controller/session_actions.go:773-867 | an item given up was given up by a step of the run with one of those four causes |
| `QueueRuns.EveryStoredRecordIsValid` | pixie/internal/controller/session_queues.go:280-333 | in every run every record on disk, in memory and read by a request passes the validator, so no write is refused for its shape |
| `QueueRuns.OfferedInstallsAreSpendable` | pixie/internal/controller/session_manager.go:769-810 | an install that offers for sending only what the stored record offers has submissions to spare |
| `QueueRuns.CoveringInstallsAreComplete` | pixie/internal/controller/session_manager.go:769-810 | an install that holds every stored item and remembers no other request misses nothing that must be kept |
| `QueueRuns.FreshInstallsAreSafe` | pixie/internal/controller/session_manager.go:769-810 | installing the record that is still stored meets every condition |
| `QueueRequests.RepeatChangesNothing` | pixie/internal/controller/session_queues.go:121-135 | a repeated request, or one that reuses a key with other parameters, changes nothing |
| `QueueRequests.AcknowledgedRequestsAreRemembered` | pixie/internal/controller/session_queues.go:137-145 | through crashes and restarts and up to 511 later requests, as long as what is installed remembers it and the chat is not deleted, an acknowledged mutation is answered as a duplicate and a different fingerprint is refused |
| `QueueRequests.SameMemoryRemembers` | pixie/internal/controller/session_manager.go:769-810 | a record that remembers what the stored one remembers is such an install |
| `QueueRequests.HandledAfter` | pixie/internal/controller/session_actions.go:86-107 | an effect and its identity are stored by the same write, whatever was installed before |
| `QueueController.FindOperation` | pixie/internal/controller/session_queues.go:121-135 | the first remembered operation under the key decides |
| `QueueController.ValidateRecord` | pixie/internal/controller/session_queues.go:280-333 | the validator's loop accepts exactly the well-formed records |
| `QueueController.UserMessageCount` | pixie/internal/controller/session_actions.go:824-832 | the number of user turns of a transcript |
| `QueueController.UserMessageAt` | pixie/internal/controller/session_actions.go:834-847 | the text of the user turn at a position, if there is one |
| `QueueController.UserTurnIsAMessage` | pixie/internal/controller/session_actions.go:824-847 | the user turn at a position is the user message that has that many user messages before it |
| `QueueController.ReachableByARun` | pixie/internal/controller/session_actions.go:458-867 | a state the methods reach is the end of a run of the model |
| `QueueController.Entry.Save` | pixie/internal/controller/session_actions.go:754-771 | memory follows the disk only when the write succeeded |
| `QueueController.Entry.QueueEntry` | pixie/internal/controller/session_manager.go:790-810 | a request uses the entry that is there by the time it has the lock, and installs what it read before only when there is none |
| `QueueController.Entry.Evict` | pixie/internal/controller/session_manager.go:1030-1050 | a chat leaves memory only when no prompt runs and nothing is streamed, and by the model's step |
| `QueueController.Entry.Forget` | pixie/internal/controller/session_queues.go:190-209 | the record of a chat that is not loaded goes, or the write fails with either ending |
| `QueueController.Entry.Add` | pixie/internal/controller/session_actions.go:72-115 | success appends exactly the trimmed item and has stored it; a repeat is recognised; anything else changes nothing in memory |
| `QueueController.Entry.Edit` | pixie/internal/controller/session_actions.go:117-198 | success changes exactly the shown text at the index |
| `QueueController.Entry.Remove` | pixie/internal/controller/session_actions.go:200-279 | success removes exactly the shown item at the index |
| `QueueController.Entry.AttachLocked` | pixie/internal/controller/session_manager.go:354-468 | the projection is replaced only when the decision about a stored dispatch could be stored; its item leaves the list exactly when the loaded transcript has its text as the user turn at the recorded position, and otherwise stays the head: sendable when it was never attempted and no turn has come, blocked in every other case |
| `QueueController.Entry.StartPrompt` | pixie/internal/controller/session_actions.go:458-577 | a prompt call exists only after its attempted mark is stored |
| `QueueController.Entry.PromptDirect` | pixie/internal/controller/session_actions.go:63-69 | a prompt that is not queued starts exactly when nothing runs and nothing is queued, and touches no record |
| `QueueController.Entry.EndEcho` | pixie/internal/controller/session_events.go:838-905 | the end of the awaited echo acknowledges the prompt exactly when it was complete |
| `QueueController.Entry.RestoreQueuedDispatch` | pixie/internal/controller/session_actions.go:794-811 | a prompt that was not started goes back to its place and nothing new becomes sendable |
| `QueueController.Entry.DrainFollowUp` | pixie/internal/controller/session_actions.go:667-737 | one pass of the worker keeps the list up to its delivered head, and starts only an item that was sendable and is stored as attempted; when nothing fails it starts exactly the next item, if there is one |
| `QueueController.Entry.FinishPrompt` | pixie/internal/controller/session_actions.go:773-792 | a settled prompt leaves the dispatch empty: its item is gone when accepted or fully echoed, blocked when neither is known, and the rest of the record stays |
| `QueueController.Entry.RetryQueue` | pixie/internal/controller/session_actions.go:281-366 | a retry reloads first, makes nothing sendable but the item it names, and succeeds exactly when it is new, names the blocked message, and the reload and the writes it needs work; then the item is next, or was found delivered |
| `QueueStale.StaleInstallSubmitsTwice` | pixie/internal/controller/session_manager.go:769-810 | a run in which an old record is installed submits one item twice without a retry |
| `QueueStale.StaleInstallLosesAnItem` | pixie/internal/controller/session_manager.go:769-810 | a run in which an old record is installed overwrites an acknowledged item that nobody released |
| `QueueStale.StaleInstallForgetsARequest` | pixie/internal/controller/session_manager.go:769-810 | a run in which an old record is installed executes and acknowledges one request twice |
| `QueueStale.OfferedIsWiderThanFresh` | pixie/internal/controller/session_manager.go:769-810 | a run that ends before an install that is not fresh and offers and misses nothing |
| `QueueStale.SpendableIsWiderThanOffered` | pixie/internal/controller/session_manager.go:769-810 | a run that ends before an install that offers more than the stored record, within its budget |
| `QueueInstalls.RunnableIsSent` | pixie/internal/controller/session_actions.go:667-725 | whatever a chat at rest may send, some continuation without another install sends |
| `QueueInstalls.InstallIsSafeExactlyWhenSpendable` | pixie/internal/controller/session_manager.go:769-810 | every continuation of an install keeps the delivery bound if and only if it offers no item whose submissions are used up |
| `QueueInstalls.InstallIsSafeExactlyWhenComplete` | pixie/internal/controller/session_manager.go:769-810 | every continuation of an install keeps every acknowledged item on disk if and only if it holds what must be kept and remembers no addition whose item is not kept |
| `QueueInstalls.InstallRemembersExactlyWhenRecent` | pixie/internal/controller/session_manager.go:769-810 | every continuation of an install with at most 511 - n further requests and without the chat's deletion answers a repeat if and only if the installed record remembers the operation as one that at most n others followed |
| `QueueInstalls.PushedOut` | pixie/internal/controller/session_queues.go:137-145 | as many requests as are missing to the limit push a remembered operation out |
| `Deletion.RunKeepsSound` | pixie/internal/controller/session_deletions.go:136-148 | over every legal run journal sessions stay distinct and a confirmed deletion's session is gone at its agent |
| `Deletion.LocalStateGoesAfterTheAgent` | pixie/internal/controller/session_lifecycle.go:255-308 | a store that lost a chat, the objectives without a user's clear in between, lost it after the journal recorded the deletion and the recorded agent no longer had the session, which it never regains |
| `Deletion.StoresLoseExactlyByDeletionOrClear` | pixie/internal/controller/session_state.go:268-282 | an event takes a chat out of a store exactly when it is the cleanup of a deletion that the agent has carried out, or a user's clear of a loaded chat's objective |
| `Deletion.ClearGoesBeforeTheAgent` | pixie/internal/controller/session_objectives.go:34-47 | a run in which a user's clear removes an objective while no deletion was recorded and the agent still has the session |
| `Deletion.JournalGoesLast` | pixie/internal/controller/session_lifecycle.go:271-278 | a recorded deletion leaves the journal by an event at which the chat is in no store and not at its agent; its association and the agent's session never come back |
| `Deletion.AbsentForGoodExactlyWithoutLookups` | pixie/internal/controller/session_manager.go:769-810 | an ended deletion leaves the chat absent in every continuation if and only if no request that looked it up earlier is still to be admitted |
| `Deletion.LookupsBeganEarlier` | pixie/internal/controller/session_manager.go:769-789 | a lookup under way began while the chat still had its association |
| `Deletion.StaleLookupRevivesADeletedChat` | pixie/internal/controller/session_manager.go:769-810 | a run in which a request stores the queue of a chat whose deletion was finished since it looked the chat up |
| `Deletion.RecordStays` | pixie/internal/controller/session_deletions.go:71-89 | while a deletion is pending its record keeps its chat and its agent binding |
| `Deletion.DeletesGoToTheRecordedAgent` | pixie/internal/controller/session_lifecycle.go:320-350 | a session an agent lost by Pixie's hand was recorded for deletion at that very agent |
| `DeletionController.Journal.Request` | pixie/internal/controller/session_deletions.go:48-69 | one record per session; a record of another project or agent is an error |
| `DeletionController.Journal.Confirm` | pixie/internal/controller/session_deletions.go:71-89 | the request becomes confirmed, and a missing request is an error |
| `DeletionController.Journal.Forget` | pixie/internal/controller/session_deletions.go:91-108 | the record is removed, and nothing is written when there is none |
| `DeletionController.Manager.Cleanup` | pixie/internal/controller/session_lifecycle.go:290-308 | all three stores are attempted whichever fails, and success means the chat is in none |
| `DeletionController.Manager.Delete` | pixie/internal/controller/session_lifecycle.go:205-288 | success means the chat is nowhere, and for good unless another request found it meanwhile; it is reached when nothing fails; an error after the deletion was tried keeps the chat reserved; any other error has changed nothing durable and reserves nothing |
| `DeletionController.Manager.Admit` | pixie/internal/controller/session_manager.go:790-810 | a request that looked a chat up is turned away exactly while the chat is reserved |
| `DeletionController.Manager.Keep` | pixie/internal/controller/session_operations.go:78-90 | a store is written only for a loaded chat that is not reserved |
| `DeletionController.Manager.Clear` | pixie/internal/controller/session_state.go:268-282 | clearing the goal of a loaded chat that is not reserved removes its objective exactly when no tasks are left, and nothing else of the chat |
| `DeletionController.Manager.RecoverOne` | pixie/internal/controller/session_lifecycle.go:318-360 | a requested deletion is sent only to the recorded binding, and success means it is over for good |
| `DeletionController.Manager.Recover` | pixie/internal/controller/session_lifecycle.go:310-362 | each journaled deletion around which nothing fails is over, whatever the others meet; without an error every journaled chat is gone everywhere, and without a failure around it there is no error |
| `DeletionController.Manager.Restart` | pixie/internal/controller/runtime.go:197-216 | nothing is served before the recovery succeeded, and then no chat of the journal can come back; also when it fails, the deletions around which nothing failed are over |
| `PathWalk.CleanIsClean` | pixie/internal/workspace/files.go:325-330 | a cleaned path is some parent steps followed by plain names, an absolute one only names |
| `PathWalk.CleanKeepsClean` | pixie/internal/workspace/files.go:325-330 | cleaning a clean path changes nothing |
| `PathWalk.CleaningKeepsLinklessWalks` | pixie/internal/workspace/files.go:248-268 | lexical cleaning does not change where a walk without links leads |
| `PathWalk.ResolveInSteps` | pixie/internal/workspace/files.go:248-268 | walking a link's target and then the rest is walking their concatenation |
| `PathWalk.WhereLinksLead` | pixie/internal/workspace/files.go:252-267 | an absolute target leads below the root or is refused, a relative one is walked from where the link is |
| `PathWalk.WherePathsStart` | pixie/internal/workspace/files.go:146-162 | the text of a path names a place below the root or is refused |
| `PathWalk.ResolveReachesANode` | pixie/internal/workspace/files.go:181-305 | a resolved path is a node below the root that is not a link |
| `PathWalk.OpenProjectPath` | pixie/internal/workspace/files.go:181-305 | the descriptor walk ends, follows at most 40 links and gives exactly the result of the resolver, errors included |
| `PathWalk.ChainTop` | pixie/internal/workspace/files.go:190-196 | the open descriptors are a parent-child chain from the root to the current place |
| `PiConnection.PiClient.Check` | pixie/internal/controller/pi_client.go:112-155 | what is returned is current, alive, of its own generation and of the expected one; an attempt is shared while it runs |
| `PiConnection.PiClient.FinishConnect` | pixie/internal/controller/pi_client.go:170-206 | only the current attempt is installed; a failed one leaves no connection and a retired one changes nothing |
| `PiConnection.PiClient.PublishProfile` | pixie/internal/controller/pi_client.go:208-216 | announced profile generations strictly increase |
| `PiConnection.PiClient.DisconnectAll` | pixie/internal/controller/pi_client.go:419-440 | a reset ends every unfinished attempt with an error and drops the connection |
| `PiConnection.PiClient.Interfere` | pixie/internal/controller/pi_client.go:110-216 | any interleaving of other goroutines' critical sections keeps the connection's invariant; what spares an attempt or a connection leaves it as it was |
| `PiConnection.PiClient.Ready` | pixie/internal/controller/pi_client.go:110-168 | whatever happens while it waits, a returned connection is usable, paired with its own generation and never with another; a usable one is returned at once, and a caller that waits gets the connection of the attempt it waited for when that succeeds, and none when it fails |
| `SessionProjection.FencedIsExact` | pixie/internal/controller/session_events.go:98-103 | the fence keeps every notification of the attached connection, in number, and none of another |
| `SessionProjection.FencedInOrder` | pixie/internal/controller/session_events.go:98-103 | what the fence keeps it keeps in order |
| `SessionProjection.Session.Notify` | pixie/internal/controller/session_events.go:91-112 | a notification of another connection enters no projection, and none of any enters a detached one |
| `SessionProjection.Session.Attach` | pixie/internal/controller/session_manager.go:354-468 | a success leaves exactly one connection's notifications, that connection being current after the load; a failure leaves the projection as it was; it succeeds also when it had to wait for the connection, if that and the load succeed |
| `SessionProjection.Session.Reload` | pixie/internal/controller/session_manager.go:687-696 | a forced reload shows exactly what one connection replays now, also when the chat was attached to it; a failure leaves the chat detached |
| `HostStream.ReceivedRun` | pi/host/src/server.ts:293-299 | sending consecutive events extends what a peer saw of that session and of no other |
| `HostStream.LaterIsTheTail` | pi/host/src/server.ts:293-299 | filtering the buffer by the snapshot's number keeps exactly its newer end |
| `HostStream.SplitHistory` | pi/host/src/server.ts:303-330 | the chunks hold all messages once and in order, each fits the limit or is one message, and none could take the next one's first message |
| `HostStream.HistoryInOrder` | pi/host/src/server.ts:303-330 | each chunk is sent as one frame, in order |
| `HostStream.Peer.Deliver` | pi/host/src/server.ts:86-98 | an event reaches the buffer of a loading peer or an attached peer, without a gap, and an overflow closes the peer |
| `HostStream.Peer.BeginLoad` | pi/host/src/server.ts:286-292 | a second load of the same session is turned away and disturbs nothing |
| `HostStream.Peer.FinishLoad` | pi/host/src/server.ts:300-332 | after a successful load with number n the peer has been sent exactly the events after n, behind the whole history |
| `HostStream.Peer.FailLoad` | pi/host/src/server.ts:334-344 | a failed load sends everything buffered, so an attached peer has missed nothing |
| `HostStream.Host.Publish` | pi/host/src/sessions.ts:85-91 | events are numbered consecutively; each open peer gets the event, into its buffer or sent, or is closed because it overflows or falls behind; every open peer stays without a gap for every session |
| `HostStream.Host.BeginLoad` | pi/host/src/server.ts:286-292 | the first load of a session starts an empty buffer, a second one is told that it is busy |
| `HostStream.Host.Snapshot` | pi/host/src/sessions.ts:484-495 | the peer is attached from the newest event on |
| `HostStream.Host.Loads` | pi/host/src/sessions.ts:484-495 | the number a load reports is the one its event stream continues from, and behind the history come exactly the buffered events after it |
| `ReplayCache.BetweenExecutionsARemoval` | pixie/internal/controller/replay.go:42-93 | between two executions of one request its settled entry was removed |
| `ReplayCache.StartedStays` | pixie/internal/controller/replay.go:95-144 | a started request stays known under its fingerprint until it is removed |
| `ReplayCache.SettledStays` | pixie/internal/controller/replay.go:76-93 | over the events, a settled request keeps what it was settled with until it is removed |
| `ReplayCache.Cache.Begin` | pixie/internal/controller/replay.go:42-75 | a known request is never executed: its caller shares the result or is told why not |
| `ReplayCache.Cache.Settle` | pixie/internal/controller/replay.go:76-93 | the running entry is settled and its result written once; the result is kept and its length charged exactly when that fits the client's budget, and dropped otherwise |
| `ReplayCache.Cache.SettledIsKnown` | pixie/internal/controller/replay.go:76-93 | until it is removed, a settled request has the entry and the reply it was settled with |
| `ReplayCache.Cache.Repeat` | pixie/internal/controller/replay.go:42-93 | whatever happens after an execution ended, a repeat of its request shares that very reply unless the entry was removed or the reply did not fit; a reused id is told apart |
| `ReplayCache.Cache.Acknowledge` | pixie/internal/controller/replay.go:95-109 | exactly the named settled requests of that client go |
| `ReplayCache.Cache.Retain` | pixie/internal/controller/replay.go:111-128 | exactly the settled requests the client no longer names go, and nothing that runs |
| `ReplayCache.Cache.ClearClient` | pixie/internal/controller/replay.go:130-144 | a client is forgotten exactly when nothing of it runs |
| `ReplayCache.SumWithout` | pixie/internal/controller/replay.go:103-107 | removing an entry lowers the sum of weights by its weight |
| `Eviction.TextOrderIsTotal` | pixie/internal/controller/session_manager.go:1080-1085 | identifiers break ties in a strict total order |
| `Eviction.TextOrderIsLexical` | pixie/internal/controller/session_manager.go:1080-1085 | one identifier comes first when it is the other's beginning, or smaller where they first differ |
| `Eviction.OldestGoFirst` | pixie/internal/controller/session_manager.go:1080-1093 | what goes was idle no shorter than anything idle that stays, the identifier breaking ties |
| `Eviction.BusyStay` | pixie/internal/controller/session_manager.go:1045-1055 | a session that is held, leased or at work stays |
| `Eviction.Sort` | pixie/internal/controller/session_manager.go:1080-1085 | the candidates sorted by time and identifier are the same candidates |
| `Eviction.BudgetIsMet` | pixie/internal/controller/session_manager.go:1086-1092 | afterwards at most 24 idle sessions are left, at most 8 MiB in all |
| `Eviction.Manager.Look` | pixie/internal/controller/session_manager.go:1044-1079 | the candidates are exactly the idle, unprotected, measurable sessions |
| `Eviction.Manager.Evict` | pixie/internal/controller/session_manager.go:1030-1093 | what goes is what nothing can keep and the shortest oldest-first prefix that suffices; sessions in use, leased or at work stay |
| `ScheduleModel.RememberedForLong` | pixie/internal/controller/schedules.go:185-210 | a remembered mutation survives the next 511 |
| `ScheduleController.Schedules.NoOccurrenceTwice` | pixie/internal/controller/schedules.go:305-323 | no two automatic dispatches of a schedule were for one occurrence, and what is next, in memory and in the file a new process reads, is later than all of them |
| `ScheduleController.Schedules.NothingSkipped` | pixie/internal/controller/schedules.go:305-356 | every automatic run is for the first occurrence after the last moment at which its next run was computed, by the run before or by a definition; nothing that took effect lies between, so no occurrence in between is skipped |
| `ScheduleHistory.NothingBetween` | pixie/internal/controller/schedules.go:339-343 | every occurrence after that moment is the dispatched one or later |
| `ScheduleHistory.NextOneFollows` | pixie/internal/controller/schedules.go:339-343 | after an automatic run the next one is for the very next occurrence if and only if that had not come yet when the run was claimed |
| `ScheduleController.LateClaim` | pixie/internal/controller/schedules.go:339-343 | a run claimed late stands for the occurrences that have come since: due at 540 and claimed at 670, an hourly schedule runs next for 720 |
| `ScheduleController.Schedules.Live` | pixie/internal/controller/schedules.go:119-545 | through any ticks, runs, requests, failed writes and restarts no occurrence is dispatched twice automatically |
| `ScheduleModel.DispatchKeepsOrder` | pixie/internal/controller/schedules.go:305-350 | dispatching a due occurrence keeps the dispatched occurrences of each schedule increasing |
| `ScheduleModel.ReconciledIsAtRest` | pixie/internal/controller/schedules.go:151-163 | after a restart no run is recorded as running: those that were are interrupted and pause their schedule, and every other record stays |
| `ScheduleModel.WithRunReplaces` | pixie/internal/controller/schedules.go:291-303 | finishing a run replaces its record and loses no other |
| `ScheduleController.Schedules.Save` | pixie/internal/controller/schedules.go:172-184 | a failed write takes the job back out of memory, whatever it left in the file |
| `ScheduleController.Schedules.StartLocked` | pixie/internal/controller/schedules.go:325-356 | a run is dispatched only after its claim is in the file, and its claim makes the plan's first occurrence after now the next one; it heads the history, which keeps the newest hundred; at most eight run; it starts exactly when nothing stands in its way and the write succeeds |
| `ScheduleController.Schedules.FinishLocked` | pixie/internal/controller/schedules.go:291-303 | a schedule stops running exactly when its finished record is saved |
| `ScheduleController.Schedules.RunEnds` | pixie/internal/controller/schedules.go:384-400 | a record that cannot be saved stays pending and its schedule counts as running |
| `ScheduleController.Schedules.Admit` | pixie/internal/controller/schedules.go:368-380 | the session of a run is recorded before its prompt is sent |
| `ScheduleController.Schedules.Tick` | pixie/internal/controller/schedules.go:305-323 | a tick dispatches only occurrences that are due, of schedules that are not paused, starts every due schedule while fewer than eight run, and saves the records that were waiting |
| `ScheduleController.Schedules.StartDue` | pixie/internal/controller/schedules.go:316-323 | unless eight schedules run, every due one whose claim can be saved runs afterwards |
| `ScheduleController.Schedules.FinishWaiting` | pixie/internal/controller/schedules.go:311-315 | a waiting record that can be saved ends its run, and no other schedule becomes due or stops being due |
| `ScheduleController.Schedules.Restart` | pixie/internal/controller/schedules.go:119-171 | claimed runs that did not finish are interrupted, their schedules paused, and a process that cannot store that does not start |
| `ScheduleController.Schedules.Handle` | pixie/internal/controller/schedules.go:403-545 | a request is carried out exactly when nothing stands in its way; a new or changed schedule comes next at its plan's first occurrence after now; a repeated mutation changes nothing and gets the first reply, a reused identity is refused, and effect and identity are stored by one write |
| `BrowserPanels.Panels.OneCloseAtATime` | pixie/internal/controller/browser_panels.go:208-272 | a panel never has two close calls in flight |
| `BrowserPanels.Panels.Open` | pixie/internal/controller/browser_panels.go:69-94 | an identifier is journaled before a client gets it, and a failed open hands out nothing |
| `BrowserPanels.Panels.Owned` | pixie/internal/controller/browser_panels.go:198-206 | commands are admitted only for the owner's panel that nobody is closing |
| `BrowserPanels.Panels.BeginClose` | pixie/internal/controller/browser_panels.go:208-228 | only the owner starts a close, and only one |
| `BrowserPanels.Panels.ClaimMatching` | pixie/internal/controller/browser_panels.go:156-167 | exactly the matching panels that nobody was closing are claimed |
| `BrowserPanels.Panels.FinishClose` | pixie/internal/controller/browser_panels.go:230-257 | a panel is forgotten only when its close was confirmed and the journal without it is saved; otherwise it is retried after twice the last delay, between one second and thirty |
| `BrowserPanels.Panels.RetryClose` | pixie/internal/controller/browser_panels.go:259-272 | an old timer cannot start a second close |
| `BrowserPanels.Panels.Restart` | pixie/internal/controller/browser_panel_ownership.go:24-49 | a new process owns every panel handed out and not confirmed closed, as an orphan |
| `AppViewModel.ContentWithout` | pixie/internal/controller/app_view_lifetime.go:301-317 | closing a view lowers the total unread content by its own |
| `AppViewModel.OwnerIsUnique` | pixie/internal/controller/app_view_lifetime.go:235-252 | an unfinished operation belongs to one view, open or revoked |
| `AppViewModel.NotingKeepsCancels` | pixie/internal/controller/app_view_lifetime.go:414-425 | the list and the set of early cancellations hold the same keys, at most 256, all of open views |
| `AppViewRegistry.AppViews.ReserveView` | pixie/internal/controller/app_view_lifetime.go:453-469 | a reservation is given exactly while views and reservations leave room |
| `AppViewRegistry.AppViews.RegisterView` | pixie/internal/controller/app_view_lifetime.go:55-107 | a registration that holds a reservation never meets the limit on views |
| `AppViewRegistry.AppViews.ReadContent` | pixie/internal/controller/app_view_lifetime.go:115-149 | chunks are read in order without a gap, and the last one gives the space back once |
| `AppViewRegistry.AppViews.BeginOperation` | pixie/internal/controller/app_view_lifetime.go:197-240 | an operation cancelled early never starts; at most four run in a view and sixteen in all |
| `AppViewRegistry.AppViews.FinishOperation` | pixie/internal/controller/app_view_lifetime.go:241-259 | an operation is uncounted exactly once, also after its view was closed |
| `AppViewRegistry.AppViews.CancelOperation` | pixie/internal/controller/app_view_lifetime.go:261-283 | a cancellation that comes first is remembered |
| `AppViewRegistry.AppViews.RevokeViewLocked` | pixie/internal/controller/app_view_lifetime.go:301-317 | a closed view's content and early cancellations go at once, its operations stay counted |
| `AppViewRegistry.AppViews.RevokeMatching` | pixie/internal/controller/app_view_lifetime.go:358-380 | exactly the matching views are closed |
| `AppViewRegistry.AppViews.KeepAlive` | pixie/internal/controller/app_view_lifetime.go:151-171 | only the owner's sign of life before the lease ran out renews it |
| `AppViewRegistry.AppViews.ExpireView` | pixie/internal/controller/app_view_lifetime.go:173-195 | the timer closes exactly the view it was set for, once its lease has run out; a renewed lease sets it again for the rest |
| `Transcript.TwoDeltas` | pixie/internal/controller/session_events.go:739-778 | two deltas of one message are one |
| `Transcript.KindsStayApart` | pixie/internal/controller/session_events.go:757-778 | text joins only text and thinking only thinking; any other block stays a block of its own |
| `Transcript.ChunksDoNotMatter` | pixie/internal/controller/session_events.go:739-778 | however a delta is cut into chunks, the transcript is the same |
| `Transcript.EchoIsRecognised` | pixie/internal/controller/session_events.go:838-905 | pieces match the awaited prompt, complete at the last one and not before, exactly when they make up its text in order and its attachments in any order |
| `Transcript.SessionTranscript.BeginPrompt` | pixie/internal/controller/session_actions.go:509-520 | a submitted prompt is shown once and all of it is awaited as an echo |
| `Transcript.SessionTranscript.AppendMessageBlock` | pixie/internal/controller/session_events.go:739-778 | the update in place is the fold the results are about |
| `Transcript.SessionTranscript.ConsumeEchoImage` | pixie/internal/controller/session_events.go:852-869 | an image is taken exactly when one like it was not echoed yet |
| `Transcript.SessionTranscript.UserChunk` | pixie/internal/controller/session_events.go:157-207 | a piece of the echo adds no message, anything else is appended |
| `Transcript.SessionTranscript.UserChunks` | pixie/internal/controller/session_events.go:157-207 | one chunk after the other, all are taken and the last acknowledges the prompt exactly when together they are what was awaited; then no message is added |
| `Base64.DecodeThenEncode` | pixie/internal/controller/session_actions.go:967-995 | decoding an accepted string and encoding the bytes gives the same string |
| `Base64.SymbolsOfTheAlphabet` | pixie/internal/controller/session_actions.go:997-1012 | the symbols are those of the standard alphabet in its order |
| `Base64.EncodeThenDecode` | pixie/internal/controller/session_actions.go:967-995 | every encoding of nonempty data is accepted and decodes to it |
| `Base64.CanonicalBase64` | pixie/internal/controller/session_actions.go:967-995 | the loop accepts exactly the encodings of nonempty byte strings |

## Left out

- QueueRuns.RunsKeepInv: for the delivery and the conservation part, stated for installs that are spendable and complete; `QueueInstalls` proves for each that no weaker condition will do.
- QueueRuns.AcknowledgedItemsAreKept: stated for runs whose installs are complete, which is the exact condition of QueueInstalls.InstallIsSafeExactlyWhenComplete; the code does not ensure it.
- QueueController.Entry.RestoreQueuedDispatch: the code puts any matching dispatch back; it is called only where a dispatch was never marked as attempted, and modelled for that.
- QueueRequests.AcknowledgedRequestsAreRemembered: fingerprints are taken as injective over the method and its parameters, as a digest is assumed to be.
- QueueController.UserMessageAt: a user turn is its text; the projection of attachments into history text is not part of this model.
- Persist.CrashLeavesOldOrNew: a rename is atomic and durable at once; what an unsynced directory entry may lose at power failure is not modelled.
- SessionStores.UpsertThenFind: models the queue store; the association store finds its record by the session alone and keeps an earlier title.
- HostStream.Host.Publish: whether a consumer is too slow is an arbitrary function of what it was sent; request identifiers and their limit of 128 are not modelled.
- AppViewRegistry.AppViews.BeginOperation: bindings are values known by reference numbers instead of pointers; contexts and their cancellation are not modelled.
- Eviction.Manager.Look: one time serves the whole pass, while the code asks the clock for each session; Evict uses the same time.
- BrowserPanels.Panels.ClaimMatching: claimed panels count as close calls in flight although only four workers send them at a time.
- ScheduleController.Schedules.Handle: stopping a run ends in RunEnds with an arbitrary status; the cancellation of its context is not modelled.
- Steering messages live in memory only and are never queued by the code that is modelled.
- HostStream.Host.Connect: a peer that is attached by creating or forking a session gets its events as they are published; that way of attaching is not modelled.
- Fresh identifiers, revisions and connection attempts are unused values; timers, jitter and lock timeouts are nondeterministic steps.
- JSON, UTF-8 validity, digests and the cron library are uninterpreted; the next occurrence is assumed to be later than the time it is computed for, and where occurrences are said not to be skipped, to be the first such.
- The clock of the scheduler never goes back.
- The preview of a link's target and concurrent renames of directories are not part of the path walk; the tree is static.
- Objective files are one stored value per chat; their migration is not modelled.
- The migration of project roots at startup (pixie/internal/controller/project-root-migration.go, called from pixie/internal/controller/runtime.go:94) moves associations, objectives, queues and journal records to another project and finishes orphaned deletions that were already confirmed; a key names its project, so Deletion.RecordStays and Deletion.LocalStateGoesAfterTheAgent speak of the time between two such migrations.
- DeletionController.Manager.Delete: the only steps of other requests that are interleaved with one deletion are lookups of the same chat; while it is reserved no request is admitted to it.
- HTTP and WebSocket plumbing, authentication, settings, model lists, MCP clients, git and the browser interface have no model here.
