# Verification of the Windows serial bindings

A Dafny model of the concurrent core of the bindings and proofs of what that core is meant to keep.
Three parts are modelled:

1. **The port-event listener and its hot swap** (`src/detail/event_listener_state.hpp`,
   `src/serial_set_event_callback.cpp`). Native notifications are queued under a mutex; one dispatcher
   thread per listener de-duplicates them against a port map and calls user code outside the lock.
   `serialSetEventCallback` replaces the listener, from any thread, also from inside a listener's own
   callback.
2. **The abort / pending-I/O protocol** (`startPendingIo`, `waitForPendingIo`, `finishPendingIo`,
   `requestAbort`, `readChunk`, `writeChunk`): a lock-free flag, a mutex-protected `OVERLAPPED*` slot
   and the kernel's own view of every I/O.
3. **The read and write loops** over that protocol (`readImpl`, `writeImpl`): stream contents, first
   terminator match, byte counters, callbacks, time budget.

## How the modules fit together

| module | contents |
|---|---|
| `Options` | the Option datatype |
| `PortDispatch` | the dispatcher's work as a pure fold over consumed notifications; replay and per-device projection |
| `ListenerSteps` | one `EventListenerState` with its dispatcher as a transition system, one step a locked section |
| `EventListener` | the class `EventListenerState` with its fields and the loop `run`, every method tied to a step of `ListenerSteps` |
| `Convergence` | devices coming and going while a listener registers, lists, resolves and dispatches |
| `MultiString` | the walk over the interface list, the folded keys, the snapshot map |
| `Handover` | any number of listeners and calls: registration, swap, stop, unregister, join or detach |
| `HandoverEffect` | what one call does with its callback |
| `HandoverProgress` | every call can be brought to its return by finishing what has begun |
| `PendingIo` | one direction of the abort protocol, every lock, exchange, slot write and kernel event a step of its own |
| `SoloAbort` | the same with one operation at a time |
| `OneRequest` | how many operations one abort request can abort: when two, exactly, and when no more than one |
| `Outcomes` | what a chunk call reports, told from how its wait ended, the abort flag and the kernel; reported and moved bytes |
| `Directions` | a handle with both directions and one mutex, projected on each direction |
| `ChunkSections` | whole critical sections as runs of `PendingIo` |
| `ChunkIo` | the classes behind a chunk call, every method both code on fields and a run of `PendingIo` |
| `Timeouts`, `Terminators`, `Handles` | timeouts and budgets; terminator test and naive search; `HandleState`, counters and callbacks |
| `ReadImpl`, `WriteImpl` | the two loops, their validation, and `serialRead`, `serialReadUntilSequence`, `serialWrite` |

Transition systems take an action and say when it is possible and what follows; a property over runs
quantifies over every sequence of possible actions. In the class models, everything the outside world
decides (when other threads act, what the kernel reports, how many bytes move) is chosen arbitrarily; the
system's answers are recorded as they come (`ChunkIo.OsCall`), and the contracts say what follows from them.

Facts about the code that a reader may not expect, and that the statements below respect:

- One abort request can abort two operations: its flag store one, its later locked cancel the next
  (`OneRequest.OneRequestCanAbortTwice`). Two is the most (`PendingIo.AbortsAreAccountedFor`). With one
  operation at a time a request falls on two if and only if, when its cancel comes, one call has
  already consumed its store and another stands in the slot (`OneRequest.RequestFallsOnTwo`); if no
  call passes its start check between a request's store and its cancel, aborted operations never
  outnumber requests (`OneRequest.QuietRequestsAbortOnce`).
- Bytes the device handed over in an I/O that then timed out or was aborted are not reported and not
  counted (`src/detail/wait_for_pending_io.hpp:18-24`, `:41-44`); `Outcomes.TimedOutCallCanLoseBytes`
  is such a run. When bytes have moved, a chunk call's report is exact if and only if the call neither
  gave up waiting nor found the abort flag set and the kernel completed its I/O
  (`Outcomes.ReportIsExact`). So a read that ends in a timeout may have taken more from the device
  than it returns, a write may have sent more; every other non-negative return is exact.
- A call that fails has counted what its completed chunks moved before it failed: the counter grows by
  the sum of `noted`, whatever the outcome (`ReadImpl.SerialRead`, `WriteImpl.SerialWrite`).
- A notification that could not be queued is lost. If it was the last word about a device, the
  dispatcher, once it has consumed what is queued about it, agrees with the device if and only if what
  had been queued or recorded by then was true anyway, in whichever phase the loss comes
  (`Convergence.LossDecides`). So an arrival lost while the dispatcher runs leaves the device unknown,
  and a lost removal leaves an entry that swallows the next arrival
  (`Convergence.LostArrivalStaysUnknown`, `Convergence.LostRemovalLeavesEntry`). Only when the queued
  arrival of a device that is gone is waiting does the lookup decide, and both answers are possible
  (`Convergence.StaleArrivalIsOpen`).
- `existingPorts` looks up the name of every entry, also of one whose key is already in the map, so a
  failing duplicate fails the call.

## Model

| member | source | states |
|---|---|---|
| PortDispatch.ItemIsAnswered | src/detail/event_listener_state.hpp:77-100 | one more notification, whatever came before: a duplicate is dropped; an arrival is called back and remembered under the name it resolves to, or reported; a removal is called back under the remembered name and forgotten |
| PortDispatch.EveryEntryHasItsItem | src/detail/event_listener_state.hpp:83-94 | no log entry is made up: each stems from a notification with that event and path, the name it resolved to and the exception its callback threw |
| PortDispatch.DispatchIsReplay | src/detail/event_listener_state.hpp:75-100 | at every loop head the dispatcher's port map is the snapshot replayed through its callback log, failed resolutions and throwing callbacks included |
| PortDispatch.CallbacksAlternate | src/detail/event_listener_state.hpp:78-95 | per path the callbacks alternate, start with Detached exactly when the snapshot held the path, and each Detached carries the name last attached |
| PortDispatch.DeviceIsIndependent | src/detail/event_listener_state.hpp:71-95 | the log and map restricted to a path are those of running that path alone |
| PortDispatch.InterleavingDoesNotMatter | src/detail/event_listener_state.hpp:71-95 | two interleavings with equal per-path projections give equal per-path logs and maps |
| ListenerSteps.StepConserves | src/detail/event_listener_state.hpp:22-30 | every step keeps: accepted = consumed, then the one in flight, then pending, in order |
| ListenerSteps.StepKeepsInv | src/detail/event_listener_state.hpp:22-102 | every locked section of every thread keeps conservation, the fold, no lost wakeup, failure accounting and quiet before activation |
| ListenerSteps.RunKeepsInv | src/detail/event_listener_state.hpp:22-102 | the same over every run |
| ListenerSteps.ListenerIsFaithful | src/detail/event_listener_state.hpp:58-101 | in every reachable state: asleep and unsignalled only with nothing to do; conservation; nothing happens before activation; reports never outnumber queue failures; map = replay; callbacks alternate |
| ListenerSteps.StopIsFinal | src/detail/event_listener_state.hpp:46-63 | after stop nothing is accepted, popped or reported, so at most the one dispatch in flight completes |
| ListenerSteps.StoppedDispatcherEnds | src/detail/event_listener_state.hpp:58-63 | a stopped dispatcher ends within two steps of its own, without another wakeup |
| ListenerSteps.TurnDoes | src/detail/event_listener_state.hpp:56-101 | what a turn of the loop does: an unsignalled sleeper sleeps on; a stopped listener ends; with nothing to do it sleeps; a queue failure is reported; otherwise exactly the oldest pending notification is consumed with the answer it meets |
| ListenerSteps.LoopDrainsQueue | src/detail/event_listener_state.hpp:56-101 | an active, unstopped dispatcher that is awake or signalled consumes every pending notification, in order, one a turn, and then sleeps |
| EventListener.EventListenerState.constructor | src/detail/event_listener_state.hpp:111-116 | a new state is inactive, unstopped, empty |
| EventListener.EventListenerState.EnqueueNote | src/detail/event_listener_state.hpp:22-30 | appends and wakes unless stopped; otherwise changes nothing |
| EventListener.EventListenerState.ReportQueueFailure | src/detail/event_listener_state.hpp:32-37 | remembers one queue failure and wakes, also when stopped |
| EventListener.EventListenerState.ActivateListener | src/detail/event_listener_state.hpp:39-44 | activates and wakes |
| EventListener.EventListenerState.StopListener | src/detail/event_listener_state.hpp:46-51 | stops and wakes |
| EventListener.EventListenerState.LockedSection | src/detail/event_listener_state.hpp:58-73 | the dispatcher's locked section is exactly the step of the transition system: sleep, end, report or pop the oldest |
| EventListener.EventListenerState.HandleNotification | src/detail/event_listener_state.hpp:75-100 | the unlocked part: an arrival of an unattached path is remembered and called back under the resolved name or reported, a removal of an attached one called back under the remembered name, anything else ignored; this is the pure fold's next step |
| EventListener.EventListenerState.RunTurn | src/detail/event_listener_state.hpp:56-101 | one turn, with other threads calling before and meanwhile, takes exactly the steps `TurnDoes` speaks of |
| EventListener.EventListenerState.Run | src/detail/event_listener_state.hpp:53-102 | over any script of turns the loop takes exactly the steps of its turns, a run of the transition system; map and log are the fold over what was consumed; it returns only when stopped; it sleeps unsignalled only with nothing to do |
| Convergence.MoveFollows | src/serial_set_event_callback.cpp:209-219 | every device change, delivery, listing, lookup and dispatcher step keeps: the last outstanding word about a path is true, or what is known of it is |
| Convergence.SnapshotAndQueueConverge | src/serial_set_event_callback.cpp:209-219 | once drained, a path is in the map exactly when the device is present, however snapshot and events overlapped, if its latest notification was queued |
| Convergence.EveryQueuedHistoryConverges | src/serial_set_event_callback.cpp:211-219 | if every notification was queued, the drained map's domain is the set of present devices |
| Convergence.LossDecides | src/serial_set_event_callback.cpp:154-219 | the last word about a device is lost, in any phase: without a further change of it the dispatcher, once it has consumed what is queued, agrees with the device if and only if the last word queued, or else what was recorded or is still to be looked up, was true |
| Convergence.StaleArrivalIsOpen | src/serial_set_event_callback.cpp:154-159 | the one case left out there, a queued arrival of a device that is gone: the lookup decides, and both endings are runs |
| Convergence.LossFreezesEntry | src/serial_set_event_callback.cpp:154-159 | a loss while the dispatcher runs and nothing else about the device is queued or on its way: its entry stays what it was until the device changes again |
| Convergence.LostArrivalStaysUnknown | src/serial_set_event_callback.cpp:154-159 | an arrival so lost leaves the device unknown until it changes again |
| Convergence.LostRemovalLeavesEntry | src/serial_set_event_callback.cpp:154-159 | a removal so lost leaves an entry for a device that is gone until it changes again, and the next arrival calls nobody |
| Convergence.ArrivalCanBeLost | src/serial_set_event_callback.cpp:154-159 | a run from the start that ends with a present device unknown and nothing outstanding |
| MultiString.WalkReadsLayout | src/serial_set_event_callback.cpp:116-116 | every list of non-empty NUL-free strings, laid out with double NUL, is read back exactly, in bounds, whatever follows it |
| MultiString.WalkIsLayout | src/serial_set_event_callback.cpp:116-116 | conversely, what the walk yields is such a list and its layout is what stands in the buffer |
| MultiString.WalkIsSafe | src/serial_set_event_callback.cpp:100-116 | the walk stays in the buffer if and only if the buffer has its double NUL |
| MultiString.Wcslen | src/serial_set_event_callback.cpp:116-116 | the distance to the next NUL |
| MultiString.InterfaceKey | src/serial_set_event_callback.cpp:41-50 | the key has the length of the path, and every character is the upper case of the path's |
| MultiString.SpellingsShareKey | src/serial_set_event_callback.cpp:41-50 | two spellings share a key if and only if they agree character by character in upper case |
| MultiString.SnapshotFails | src/serial_set_event_callback.cpp:122-134 | the call fails exactly when some lookup fails with an error other than a vanished interface |
| MultiString.SnapshotKeepsFirst | src/serial_set_event_callback.cpp:115-136 | a key is in the map exactly when an entry it spells in upper case resolves, with the name of the first that does |
| MultiString.SettledIsFirst | src/serial_set_event_callback.cpp:100-113 | what the retry loop comes to is the first answer that is not CR_BUFFER_SMALL |
| MultiString.ListInterfaces | src/serial_set_event_callback.cpp:100-113 | the retry loop ends with the first answer that is not CR_BUFFER_SMALL |
| MultiString.WalkPorts | src/serial_set_event_callback.cpp:115-136 | the pointer walk visits exactly the listed strings, stays in bounds, ends, and builds that map |
| MultiString.ExistingPorts | src/serial_set_event_callback.cpp:98-137 | the map of the list that came through in the end, or a failure |
| Handover.StepKeepsReg | src/serial_set_event_callback.cpp:163-245 | every step of every thread keeps each listener's ownership, lifetime, thread and registration facts |
| Handover.StepKeepsThread | src/serial_set_event_callback.cpp:196-245 | and each call's, wherever it stands |
| Handover.ReachIsGood | src/serial_set_event_callback.cpp:163-245 | the invariant holds over every run |
| Handover.RegistrationIsExclusive | src/serial_set_event_callback.cpp:228-241 | whenever the global mutex is free, a listener is active and not stopped exactly when it is the installed one |
| Handover.RemovalIsComplete | src/serial_set_event_callback.cpp:169-189 | when the call that removed a listener has returned, that listener is stopped and its dispatcher has ended, or the call was made on that dispatcher, which stands in the callback that made it |
| Handover.StoppedForGood | src/serial_set_event_callback.cpp:232-235 | from its stop on a listener pops nothing more, so the callback in flight is its last |
| Handover.StateOutlivesItsUsers | src/serial_set_event_callback.cpp:165-189 | a listener's state is allocated while its registration, a native callback, its dispatcher, the global or a call that holds or destroys it can touch it |
| Handover.JoinsClimb | src/serial_set_event_callback.cpp:177-188 | a dispatcher joins only dispatchers of listeners installed after its own; the holder of the global mutex waits for nobody |
| Handover.WaitingDescends | src/serial_set_event_callback.cpp:169-189 | the wait-for graph of mutex, native callbacks and joins is acyclic |
| Handover.ChainEndCanStep | src/serial_set_event_callback.cpp:196-245 | every chain of waits ends at a thread that can take a step |
| Handover.HandoverNeverDeadlocks | src/serial_set_event_callback.cpp:228-244 | so in every reachable state, for every call in progress, with any number of external and reentrant calls |
| HandoverEffect.CallInstallsItsListener | src/serial_set_event_callback.cpp:202-241 | in every run, when a call has swapped, a listener is installed if and only if it came with a callback; it is one made in this call, registered, active, not stopped, with its thread started on exactly the ports this call listed |
| HandoverEffect.SuccessMeansSwapped | src/serial_set_event_callback.cpp:228-244 | a call returns success only after that swap |
| HandoverProgress.AdvanceOwesLess | src/serial_set_event_callback.cpp:196-245 | every step of a call lowers a measure of what all calls, native callbacks and stopped dispatchers have still to do |
| HandoverProgress.StepTowards | src/serial_set_event_callback.cpp:169-189 | at the end of every chain of waits there is a step that finishes something begun and lowers it |
| HandoverProgress.EveryCallCanReturn | src/serial_set_event_callback.cpp:196-245 | from every reachable state every call in progress can be brought to its return without any new call or native callback |
| PendingIo.StepKeepsGood | src/detail/start_pending_io.hpp:11-23 | every step of any number of chunk calls, abort requests and the kernel keeps the protocol's invariant |
| PendingIo.SlotIsLive | src/detail/start_pending_io.hpp:20-22 | unless a chunk call is inside its critical section the slot is empty or holds a frame that has not returned and whose I/O has been issued, so a cancel hits a live one |
| PendingIo.NoFrameReturnsEarly | src/detail/wait_for_pending_io.hpp:13-49 | no chunk call returns while the kernel owns its OVERLAPPED or with it in the slot; it reports an abort if it consumed the flag, and only if it did or a request cancelled it |
| PendingIo.FirstExchangeAborts | src/detail/request_abort.hpp:10-10 | no abort is lost: after a flag store, the first start or finish that exchanges the flag belongs to a call that ends aborted, however the run goes on |
| PendingIo.ChunkNeverDeadlocks | src/detail/finish_pending_io.hpp:11-17 | for a call that has not returned, it, the kernel or the owner of the mutex can take a step |
| PendingIo.AbortsAreAccountedFor | src/detail/request_abort.hpp:10-16 | over every run aborted calls number at most stores plus cancels, so at most two per request, none without one |
| SoloAbort.InFlightOperationsAbort | src/detail/request_abort.hpp:10-16 | one operation at a time: one in flight at the store has consumed the flag or been cancelled once the request is done, and it ends aborted even if the kernel completed it first |
| OneRequest.WhoIsStruck | src/detail/request_abort.hpp:10-16 | at the cancel of a request, the call in the slot was in flight at its store if and only if nobody has consumed the store; otherwise another call has, and has returned aborted |
| OneRequest.RequestFallsOnTwo | src/detail/request_abort.hpp:10-16 | a request falls on two operations if and only if at its cancel one call has consumed its store and another stands in the slot |
| OneRequest.NoMoreAbortsThanRequests | src/detail/request_abort.hpp:10-16 | if every struck call was in flight at some request's store, aborted calls do not outnumber requests |
| OneRequest.QuietRequestsAbortOnce | src/detail/start_pending_io.hpp:14-18 | so whenever no call passes its start check between the store and the cancel of a request |
| OneRequest.OneRequestCanAbortTwice | src/detail/request_abort.hpp:10-16 | the bound of two is reached by a run |
| Outcomes.OutcomeIsDue | src/detail/wait_for_pending_io.hpp:13-49 | every outcome, over every run: aborted if it found the flag set; otherwise a timeout if and only if its wait timed out, its own error if the wait failed or no event could be created, and else what the kernel did: bytes completed, an abort if cancelled, the error it failed with |
| Outcomes.FramesRecordOwn | src/detail/wait_for_pending_io.hpp:13-27 | what a call remembers of its wait and of the flag is what its steps met |
| Outcomes.ReportIsExact | src/detail/wait_for_pending_io.hpp:15-49 | in every run, for a returned call whose I/O has moved bytes, the report is exact if and only if the call neither gave up waiting nor saw the abort flag and the kernel completed the I/O |
| Outcomes.TimedOutCallCanLoseBytes | src/detail/wait_for_pending_io.hpp:15-25 | a run without any abort request in which a call times out although bytes have moved |
| Directions.MoveProjects | src/detail/pending_operation.hpp:7-10 | a step on one direction leaves the other one's flag, slot, calls and requests alone and shows there only as the mutex being taken or released elsewhere |
| Directions.DirectionsAreIndependent | src/detail/abort_flag.hpp:7-10 | every mixed run, projected on a direction, is a run of the one-direction protocol with the same outcomes |
| Directions.AbortsStayInTheirDirection | src/detail/request_abort.hpp:8-17 | the aborted calls of a direction are bounded by that direction's own requests |
| ChunkSections.StartSection | src/detail/start_pending_io.hpp:14-22 | startPendingIo with a clear flag, taken as a whole, is a run of the protocol |
| ChunkSections.StartMeetsAbort | src/detail/start_pending_io.hpp:15-18 | and with a set flag |
| ChunkSections.GiveUp | src/detail/wait_for_pending_io.hpp:15-32 | a timed-out or failed wait with its CancelIoEx |
| ChunkSections.FinishSection | src/detail/finish_pending_io.hpp:11-17 | finishPendingIo |
| ChunkSections.CancelSection | src/detail/request_abort.hpp:12-16 | the locked cancel of a request |
| ChunkSections.ReachableIsAccounted | src/detail/wait_for_pending_io.hpp:13-49 | the theorems about runs, for every protocol state a lane can be in |
| ChunkIo.SerialPort.Transfer | src/detail/read_chunk.hpp:19-21 | contract of the driver: reading delivers the next stream bytes to the given place, writing appends the given bytes to the wire |
| ChunkIo.SerialPort.StartOperation | src/detail/start_pending_io.hpp:21-22 | ReadFile or WriteFile completes at once, fails, or is pending |
| ChunkIo.Lane.StoreAbort | src/detail/request_abort.hpp:10-10 | sets the flag and nothing else; the protocol gains exactly this request, which is then under way |
| ChunkIo.Lane.CancelPending | src/detail/request_abort.hpp:12-16 | cancels whatever is in the slot by then |
| ChunkIo.Lane.RequestAbort | src/detail/request_abort.hpp:8-17 | afterwards the flag is set and a published I/O has been cancelled |
| ChunkIo.Lane.StartPendingIo | src/detail/start_pending_io.hpp:14-22 | consumes the flag; if it was set nothing is published, issued or moved, else the OVERLAPPED is published and issued |
| ChunkIo.Lane.FinishPendingIo | src/detail/finish_pending_io.hpp:11-17 | empties the slot only if it holds the own OVERLAPPED, and consumes and returns the flag |
| ChunkIo.Lane.CancelAndDrain | src/detail/wait_for_pending_io.hpp:17-19 | goes on only when the kernel is done, whether it ended the I/O before or after the cancel |
| ChunkIo.Lane.Collect | src/detail/wait_for_pending_io.hpp:37-49 | the signalled branch: aborted if the flag was set or the I/O was cancelled, the kernel's error if it failed, else the bytes it completed |
| ChunkIo.Lane.WaitForPendingIo | src/detail/wait_for_pending_io.hpp:10-50 | one timed wait; on every branch the kernel is done, the slot is empty and the flag consumed; the result is due to how that wait ended, the flag and the kernel; a completed result reports exactly the bytes moved |
| ChunkIo.Lane.Chunk | src/detail/read_chunk.hpp:8-39 | the life of one frame, for readChunk and writeChunk alike: bytes move between the stream or wire and the given stretch of the buffer only; it makes exactly the system calls its branch makes and reports what they answer; it ends as its own, new frame of the protocol does, and every earlier call and request stays on record; an abort stored before lets nothing move |
| Timeouts.MultiplierTimeoutIsExact | src/detail/multiplier_timeout.hpp:10-19 | for every timeout and multiplier the 64-bit product never overflows and the result is the saturated product of the clamped timeout; saturation is unreachable for an accepted configuration |
| Timeouts.AcceptsAsTested | src/serial_read.test.cpp:97-118 | the configurations the tests name are rejected and accepted as they say |
| Timeouts.BudgetTotal | src/detail/read_impl.hpp:62-64 | at most `size` waits, together at most timeout + (size − 1) · timeout · multiplier |
| Timeouts.BudgetStep | src/detail/write_impl.hpp:41-43 | a turn adds at most one wait: the plain timeout if it is the first chunk call, the multiplied timeout if it is a later one |
| Terminators.MatchIsSuffix | src/detail/matches_suffix.hpp:7-13 | the comparison of the last bytes is the suffix test |
| Terminators.SearchFindsShortest | src/detail/matches_suffix.hpp:10-12 | the naive search finds the shortest prefix that ends with the terminator, or there is none |
| Terminators.SearchOfPrefix | src/detail/read_impl.hpp:86-89 | what is found in what was read is what is found in the whole stream |
| Terminators.TurnMatches | src/detail/read_impl.hpp:85-89 | reading byte by byte, the test fires exactly at the first match |
| Handles.HandleState.NoteBytesTransferred | src/detail/note_bytes_transferred.hpp:7-25 | raises the counter of its direction, which stays the sum of all chunks noted, and tells the callback of its direction, if there is one |
| Handles.HandleState.AbortedCallsWereRequested | src/detail/consume_abort.hpp:7-10 | of all calls ever made in a direction, those that ended in an abort are at most two for each abort request on it, none without one |
| Handles.NotesSumByCall | src/detail/note_bytes_transferred.hpp:10-24 | the completed chunks of a direction have the same sum in the order in which they were noted and sorted by call, however the calls overlap |
| Handles.HandleState.CountersOverHistory | src/detail/note_bytes_transferred.hpp:10-24 | over any history of a handle, overlapping in any way, its counter is the sum of all completed chunks of that direction and at least the sum of the non-negative returns |
| Handles.ReturnTells | src/detail/read_impl.hpp:65-82 | an abort code is returned if and only if a chunk call of this call was aborted, an error code if and only if one failed; a timeout is no failure |
| ReadImpl.ChunkSize | src/detail/read_impl.hpp:51-60 | with a terminator one byte, otherwise as much as the driver says is waiting, but at least one byte and no more than fits; nothing if it would not say |
| ReadImpl.ReadCall | src/detail/read_impl.hpp:64-64 | after the chunk call the buffer is still a prefix of the stream, and nothing behind the chunk has changed |
| ReadImpl.TurnEnds | src/detail/read_impl.hpp:65-89 | after a chunk call the loop ends unmatched, ends at the first match, or goes on with a longer unmatched prefix |
| ReadImpl.ReadTurn | src/detail/read_impl.hpp:64-89 | one turn, with its counters, callback and waits; when it ends the loop, it reports how the chunk call made in it ended |
| ReadImpl.ReadLoop | src/detail/read_impl.hpp:47-92 | the loop terminates and everything `Ended` says holds when it does |
| ReadImpl.ReadFindsFirstMatch | src/detail/read_impl.hpp:84-92 | on a non-negative return the buffer ends with the terminator and no shorter prefix does, exactly that much has left the device, and a naive search of the whole stream agrees; or nothing read matches |
| ReadImpl.ReadIsPromised | src/detail/read_impl.hpp:84-85 | a call that succeeded returned the sum of the chunks it noted; whatever the outcome these are in the buffer in stream order |
| ReadImpl.ReadImpl | src/detail/read_impl.hpp:17-93 | a rejected call changes nothing; any other returns a contiguous stretch of the stream, in bounds, with counters, status code and time budget as stated; an abort stored before makes it fail with nothing taken |
| ReadImpl.SerialRead | src/serial_read.cpp:8-14 | which calls are refused with which code, by their own guards, with nothing changed, and that no other is; which code any other failure has; whatever the outcome the completed chunks are in the buffer in stream order and counted, the wire and the rest of the buffer untouched; a non-negative return r is their sum, and exactly r bytes have left the device unless a chunk call made in this call timed out |
| ReadImpl.SerialReadUntilSequence | src/serial_read_until_sequence.cpp:8-23 | a missing or empty sequence is refused first; otherwise all that `serialRead` promises, and the first match is found as above; exactly the bytes returned have left the device unless a chunk call made in this call timed out |
| WriteImpl.WriteCall | src/detail/write_impl.hpp:43-43 | the chunk call asks for all that remains; after it the wire has gained a prefix of the input, nothing skipped, repeated or reordered |
| WriteImpl.TurnEnds | src/detail/write_impl.hpp:44-64 | after a chunk call the loop ends, or goes on with a longer prefix sent |
| WriteImpl.WriteTurn | src/detail/write_impl.hpp:43-64 | one turn, with its counters, callback and waits |
| WriteImpl.WriteLoop | src/detail/write_impl.hpp:37-67 | the loop terminates and everything `Ended` says holds when it does |
| WriteImpl.WriteIsPromised | src/detail/write_impl.hpp:63-64 | a call that succeeded returned the sum of the chunks it noted; whatever the outcome they have been sent |
| WriteImpl.WriteImpl | src/detail/write_impl.hpp:13-68 | a rejected call changes nothing; any other, whatever its outcome, adds a prefix of the input to the wire, with counters, status code and time budget as stated |
| WriteImpl.SerialWrite | src/serial_write.cpp:8-13 | which calls are refused with which code, by their own guards, with nothing changed, and that no other is; which code any other failure has; whatever the outcome a prefix of the input goes out and the completed chunks are counted; a non-negative return is their sum, which is the length of the prefix sent, or less if a chunk call made in this call timed out |

## Left out

- ChunkIo.Lane.Chunk: only abort requests of other threads strike between its sections, and each section is atomic there, because concurrent chunk calls of one direction and every finer interleaving are the subject of `PendingIo`. `readChunk` and `writeChunk` differ in the operation only and are one method.
- ChunkIo.SerialPort.StartOperation: the real driver, its queues and line errors; it is a contract that lets the driver move any number of bytes up to the requested size.
- ChunkIo.Lane.Collect: here and in all of `PendingIo` a kernel failure with `ERROR_OPERATION_ABORTED` counts as a cancellation and needs a CancelIoEx before it; cancellation by thread exit, by closing the handle or by PurgeComm during open is not modelled.
- ReadImpl.ReadImpl: one reader on the handle, as its stream property demands; a write may be in flight meanwhile, and what it does is no part of this call; the terminator is a value, so a terminator that lies inside the output buffer is not modelled. I/O callbacks are told the count and do nothing else.
- WriteImpl.WriteImpl: one writer on the handle; a read may be in flight meanwhile.
- Handles.HandleState.NoteBytesTransferred: the counters do not wrap at 64 bits.
- Timeouts.MultiplierTimeoutIsExact: `validateTimeoutConfig`, `validateBuffer` and `clampTimeout` belong to `cpp_core`, which is not part of this model; configurations are accepted as `src/serial_read.test.cpp:97-118` demands, and the clamp is taken to raise negative values to zero and leave others alone.
- EventListener.EventListenerState.Run: any finite prefix of the endless loop; calls of other threads fall before the dispatcher owns the mutex or while it is outside, and user callbacks return, by throwing or not.
- MultiString.ExistingPorts: the system's answers are parameters and stop being `CR_BUFFER_SMALL` some time; the device and registry calls behind a port name (an arbitrary answer for each entry), and unpaired surrogates; upper-casing is one function on characters.
- Convergence.SnapshotAndQueueConverge: the COM names in the converged map (a device that returns under another name between two notifications), lookups that fail for a device that is present.
- Handover.HandoverNeverDeadlocks: user callbacks are taken to return in the end, and user code can call `serialSetEventCallback` whenever a dispatcher is outside its lock; an error handler that calls back while a failed call reports is a new call made after it.
- The event-type filter of `deviceNotification`, exceptions not derived from `std::exception`, static destruction at process exit.
- The handle registry and open and close: one stable `HandleState` per handle, although `ensureHandleState` can reuse an entry.
- Weak memory: atomics are sequentially consistent.
- Line settings, modem lines, break, buffer clearing, drain, port listing, string conversion and error texts: finite case splits and library calls.
