# Model of node-smbx: one SMB connection, its paths and its read-only walk

The addon wraps libsmb2 for Node.js.  `SmbConnectionWrap` is a hand-written asynchronous state
machine: calls from JavaScript allocate operations, list them in `pending_`, take a reference
that keeps the wrapper alive and submit them; completion callbacks settle a promise and free the
operation; disconnects, fatal errors, a one-shot cleanup timer and the destructor all tear the
same state down, and `smb2_destroy_context` may call back into the middle of a teardown.

## How it is modelled

*Environment.*  libsmb2 and libuv are an adversary.  Whatever happens while the code is inside a
libsmb2 call is a *script*, an arbitrary tree of callbacks: any outstanding operation may complete
with any status, in any order, and where the code hands control back to libsmb2 in the middle of a
callback (the synchronous `smb2_close` of a refused open, the teardown after a failed connect)
the script continues inside.  While a context is being destroyed operations still complete with any
status (the bundled library passes positive ones to a connect, vendor/libsmb2/lib/init.c:358-360 and
vendor/libsmb2/lib/libsmb2.c:1002, and 0 to a disconnect, vendor/libsmb2/lib/libsmb2.c:2646-2652);
only an open delivers no handle then.  What has not fired when the destroy returns can never fire.
Every libuv call may be refused.

*Handles.*  libsmb2 frees a file or directory handle when it is closed, or when its open fails
(`free_smb2fh`, vendor/libsmb2/lib/libsmb2.c:1157-1161, and `free_smb2dir`, 204-217), and
`smb2_destroy_context` (vendor/libsmb2/lib/init.c:307-381) does not look for them.  So a handle that
leaves a table without a close call is counted as *dropped*: nobody can free it any more.

*One callback per submission.*  All results but those of `Repeats` assume that libsmb2 calls back
each submission it has accepted at most once.  The bundled library does not keep to that when a TCP
connect is refused: it calls `connect_cb` while the field is still set
(vendor/libsmb2/lib/socket.c:1070-1074), OnConnectComplete destroys the context from inside that
call (native/smb_connection.cc:836-842), and the destroy finds the field set and calls it again
(vendor/libsmb2/lib/init.c:358-362).  `Repeats` models that: the operation is then freed twice, and
exactly then.

*Two layers.*  `Lifecycle` gives every member function as a transition of a `Wrap` record, built
from `Operations` (memory, promises, the two collections, references), `HandleTable` and
`PollLink`.  `SmbConnectionWraps` holds the class with the source's fields, updated in place by
methods with the source's loops and branches; each is proved to do to `View()` what the transition
does.  `Invariants`, `Steps`, `World` and `Theorems` prove what the transitions keep: per
callback, per entry, and over every run of any number of connections that share `contexts_`.

*Faults instead of preconditions.*  Nothing in the model may assume that it is used well.  Touching
a freed operation, freeing or settling twice, rejecting an operation that is not listed, destroying
a context twice or with an open promise behind it, calling into a dead context and routing to the
wrong connection are all defined, and recorded; `NoFaults` says that no run records one.

*Invariant.*  `Steady` is what holds of a connection whenever no entry into it is under way, with the
operations whose callbacks are running as its second argument; `Dying` is what holds while its
context is being destroyed.

*Phases* are ranked: not started, connecting, established, disconnecting, closed with a context
awaiting cleanup, finished.

`Effects` and `Polling` say what each call and each report changes, without the functions that the
transitions are built from; `Answers` what a whole service call does; and `Journeys` what becomes of
a request or a handle over any run.  `Outcomes` says what every promise is settled with, `Leftovers` and `Handles` what can be left behind
for good, `Service` when a context dies while it is being serviced, and `Witnesses` gives runs that reach the states in question.  `Paths` models `normalizeSmbPath` and the
native path helpers on UTF-16 code units, `Diagnostics` the list of active operations attached to
an error.  `Walk` has the server, a finite tree, and what a walk of it should meet and report;
`Walker` has the walk itself, which looks up every path through the normalisation of `Paths`, and
shows where the two agree; `Turns` says when the walk ends.

## What the proofs show about the code

* The returned promise is read out of the operation after `RegisterPending` or a failed submission
  may have freed it.  `RequestReturnsLiveOperation`, `DisconnectReturnsLiveOperation` and
  `ConnectReturnsLiveOperation` give the exact condition; the model returns the identity recorded
  at creation.
* After a disconnect completes, its context lives on until the cleanup timer, with `poll_events_`
  reset: a descriptor that libsmb2 adds in that time is watched for nothing
  (`PollForgetsAfterDisconnect`).
* When libsmb2 refuses a disconnect at once, the operations that the dying context does not call
  back stay allocated and pending, and their references keep the wrapper for good
  (`RefusedDisconnectLeaves`, `RefusedDisconnectCollectable`); their promises are settled.
* A fatal error while a cleanup is scheduled cancels the cleanup and keeps the reference taken for
  it, so that the wrapper is never collected (`FatalKeepsReference`, `CancelledCleanupLeaks`).
* A disconnect closes no handle, and refuses every close that comes after it: the handles still in a
  table are dropped (`DisconnectDropsHandles`, `OpenFileIsDropped`).
* A failed connect destroys its context from inside the callback, while libsmb2 is still at work on
  it; a completed disconnect does not, and nothing else does either (`DestroyedWhileServed`).
* After 2^32 opens an id can be issued that is still in use: the new handle is then lost, and the open
  resolves with the id of the older file (`WrappedOpenShadows`).
* The timer handle is never closed, so that the destructor frees a wrapper whose `uv_timer_t` is still
  with the event loop (`DestructorKeepsTimerHandle`, `DestructorLeavesTimerHandle`).
* If the cleanup timer cannot be started the deferred operations wait for the destructor; this is
  the `scheduleFailed` of the timer and reference results.
* `readWholeFile` asks for at least 64 KiB at a time, and the binding refuses reads longer than the
  size the server announced: the walk fails on a server that announces less (`WalkFails`).
* Trimming makes some names unreachable by the paths that Readdir reports (`ChildLocated` says which), and
  the walk may read another file in their place without noticing (`NameIsShadowed`, `TwinIsNotRead`).
  A directory with a blank name sends the walk back to where it found it, so that it never ends
  (`BlankDirectoryNeverEnds`); and normalisation is not idempotent (`NormalizeTwiceFails`).

## Model

| member | source | states |
|---|---|---|
| `Theorems.NoFaults` | native/smb_connection.cc:148-175 | as long as libsmb2 calls back each accepted submission at most once: in every run of any number of connections no operation is used, settled or freed wrongly, no rejection comes from outside `pending_`, no context is destroyed twice or with an open promise behind it, no teardown settles, delivers, connects, polls or registers anything, and no callback reaches another connection |
| `Theorems.OutstandingIsOwned` | native/smb_connection.cc:416-452 | an operation libsmb2 may still complete is allocated and on exactly one of the two collections, once; while the context lives every allocated operation is still owed its callback, and without one none is |
| `Theorems.FreedExactlyOnce` | native/smb_connection.cc:158-175 | under the same assumption every operation ever allocated is either still allocated or has been deleted exactly once |
| `Repeats.FailedConnectFrees` | native/smb_connection.cc:836-842 | without the assumption: a failed connect frees its operation exactly once, and without a fault, if and only if the dying context does not call it back again; otherwise twice |
| `Repeats.FailsOnce` | native/smb_connection.cc:824-850 | when it does not, that is OnConnectComplete as everything else has it |
| `Repeats.RefusedConnectFreesTwice` | vendor/libsmb2/lib/socket.c:1070-1074 | a refused TCP connect, reached from the start, is the input: libsmb2 calls back again from the destroy inside its own callback |
| `Theorems.SettledExactlyOnce` | native/smb_connection.cc:392-414 | every promise is settled at most once, exactly once by the time its operation is settled or gone, and an open one belongs to an operation on `pending_` |
| `Theorems.FatalSettlesAndFrees` | native/smb_connection.cc:589-594 | HandleFatal, whatever fires while the context dies, leaves every operation settled once and freed once, both collections, tables, poll and context empty, and every promise that was open rejected |
| `Theorems.TeardownIsQuiet` | native/smb_connection.cc:570-587 | while a context dies no callback, whatever its status, settles a promise, delivers a handle, starts a poll, connects the wrapper or touches the registry |
| `Theorems.CollectionIsSafe` | native/smb_connection.cc:148-174 | the reference count is what is pending plus the cleanup reference, and at zero (unless a cleanup could not be scheduled) there is no operation left for a callback to reach |
| `Theorems.DestructorLeavesNothing` | native/smb_connection.cc:110-113 | the destructor of an unreferenced wrapper frees every operation, settles nothing, leaves no context or poll, and leaves the timer off unless a cleanup could not be scheduled before |
| `Theorems.DestructorKeepsTimerHandle` | native/smb_connection.cc:517-531 | it never closes the libuv timer handle, which stays with the event loop if and only if it was initialised before; every wrapper that has a context has initialised it |
| `Witnesses.DestructorLeavesTimerHandle` | native/smb_connection.cc:110-113 | a ready connection that nothing references is one whose destructor leaves that handle |
| `Leftovers.DestructorStopsTimer` | native/smb_connection.cc:110-113 | the destructor leaves the timer off unless the dying context calls a disconnect back |
| `Leftovers.DestructorRearmsTimer` | native/smb_connection.cc:905-912 | and such a callback does set it again, if and only if libuv starts it |
| `Leftovers.DeadIsCollectable` | native/smb_connection.cc:656-670 | over all later runs: a wrapper without a context can ever lose its last reference if and only if nothing is pending on it and a cleanup reference it holds comes with a scheduled cleanup |
| `Leftovers.FatalKeepsReference` | native/smb_connection.cc:570-594 | a fatal error clears `cleanup_context_pending_` and keeps `cleanup_ref_held_`, so a reference held before it is held for good, unless the dying context calls a disconnect back |
| `Witnesses.CancelledCleanupLeaks` | native/smb_connection.cc:656-677 | a run in which libsmb2 calls the disconnect back and then fails, and the wrapper is never collected |
| `Theorems.DisconnectRejectsAll` | native/smb_connection.cc:864-868 | Disconnect on a connected wrapper has rejected everything that was open by the time it returns, and lets nothing succeed |
| `Theorems.DisconnectBarrier` | native/smb_connection.cc:852-880 | in every continuation of a disconnect what was open stays rejected, only disconnects succeed, and the connection is never ready again |
| `Theorems.BarrierRefuses` | native/smb_connection.cc:142-146 | in every continuation of a disconnect each request is answered with INVALID_STATE, and the whole rest of the connection is as it was |
| `Theorems.NotReadyRefuses` | native/smb_connection.cc:134-146 | a connection that is not ready answers every request, readdir and closedir with a new promise rejected with INVALID_STATE, and the whole rest of its state is as it was |
| `Theorems.ConnectedMeansReady` | native/smb_connection.cc:1621-1624 | `connected_` implies a context, and the `connected` getter agrees with IsConnectionReady |
| `Theorems.PhasesMoveForward` | native/smb_connection.cc:836-912 | over every run the phase of a wrapper only moves forward, and readiness once lost never returns |
| `Theorems.TimerIsArmed` | native/smb_connection.cc:533-577 | the timer ticks while anything is pending on a live context, is one-shot while a cleanup is scheduled and (unless scheduling ever failed) only then, and is otherwise off unless scheduling ever failed |
| `Theorems.CleanupSurvives` | native/smb_connection.cc:656-670 | a closed connection keeps its scheduled cleanup, the armed timer and its reference until the teardown, whatever anyone does in between |
| `Theorems.FileHandlesConserved` | native/smb_connection.cc:998-1019 | below 2^32 opens every delivered file handle is in the table under one id, or was handed to one close call, or was dropped, and never two of these |
| `Theorems.DirHandlesConserved` | native/smb_connection.cc:1523-1545 | the same of directory handles |
| `Handles.DisconnectDropsHandles` | native/smb_connection.cc:852-912 | in every continuation of a disconnect (below 2^32 opens) no handle comes into a table, and what leaves one is dropped, not closed; so once the connection is down the handles dropped since are exactly those in the two tables when Disconnect was called, and none if and only if both were empty |
| `Handles.CleanupSheds` | native/smb_connection.cc:570-582 | a teardown, whatever fires in it, drops what is in the tables and nothing else |
| `Handles.ScriptSheds` | native/smb_connection.cc:998-1007 | from a disconnect on, no nesting of callbacks on a live context puts a handle into a table or takes one out to be closed |
| `Witnesses.OpenFileIsDropped` | native/smb_connection.cc:903-906 | a run that opens a file and disconnects: the handle is in no table and in no close call |
| `Service.DestroyedWhileServed` | native/smb_connection.cc:824-850 | in every run a context is destroyed in the middle of being serviced if and only if a connect is open and the first answer to it is a failure |
| `Theorems.TablesAreTheirHistory` | native/smb_connection.cc:1280-1299 | below 2^32 opens an id is in a table exactly when its open succeeded and no close or teardown has come since, and no id is issued twice |
| `Theorems.OpenDelivers` | native/smb_connection.cc:1017-1021 | a successful open resolves with an id that was not in the table and now maps to the new handle and path |
| `Theorems.RegistryIsInverse` | native/smb_connection.cc:115-132 | for any number of connections `contexts_` is exactly the inverse of their `context_` fields, and a live poll implies a live context |
| `Theorems.PollFollowsLibrary` | native/smb_connection.cc:492-515 | libuv watches what libsmb2 last asked for if and only if no teardown has reset the mask since (or nothing was asked for); every PollState is allocated, then current or closing, then freed once |
| `Theorems.PollForgetsAfterDisconnect` | native/smb_connection.cc:903-908 | the exception is real: after any completed disconnect a descriptor added on the living context is watched for nothing, whatever libsmb2 had asked for |
| `Theorems.DeafPoll` | native/smb_connection.cc:492-515 | a concrete mask for which that poll does not watch what was asked for |
| `Witnesses.DeafPollIsReachable` | native/smb_connection.cc:596-607 | a run that ends with such a poll |
| `Theorems.PollStateFreedOnce` | native/smb_connection.cc:651-654 | in every run OnPollClosed frees a PollState that has not been freed before and is not the current one, and leaves the count of every other |
| `Witnesses.ReadyIsReachable` | native/smb_connection.cc:715-850 | a run that ends with a ready connection |
| `Theorems.RequestReturnsLiveOperation` | native/smb_connection.cc:927-937 | the operation whose promise a request returns is still allocated at that point if and only if the timer started and libsmb2 accepted the call |
| `Witnesses.RequestReturnsFreedOperation` | native/smb_connection.cc:924-927 | a run in which Stat returns the promise of an operation that is gone |
| `Theorems.DisconnectReturnsLiveOperation` | native/smb_connection.cc:866-880 | the same for Disconnect |
| `Theorems.ConnectReturnsLiveOperation` | native/smb_connection.cc:809-821 | the same for Connect, once there is a context |
| `Leftovers.RefusedDisconnectLeaves` | native/smb_connection.cc:871-877 | a disconnect refused by libsmb2 leaves allocated exactly the operations that were outstanding and are not called back by the dying context, so nothing if and only if it calls back all of them; unless another disconnect is called back they stay pending and hold a reference each |
| `Leftovers.RefusedDisconnectCollectable` | native/smb_connection.cc:871-877 | in every run: after it the wrapper can ever be collected if and only if the dying context called back everything outstanding (no other disconnect among them) |
| `Witnesses.RefusedDisconnectLeaks` | native/smb_connection.cc:871-877 | a run that ends with an operation left and a wrapper never collected |
| `Teardown.ScriptLeaves` | native/smb_connection.cc:570-582 | what a dying context leaves, read off the operations it calls back and whether a disconnect is among them |
| `Steps.StepKeeps` | native/smb_connection.cc:570-677 | every entry from JavaScript, libuv, libsmb2 or the collector keeps the invariant and moves the connection forward |
| `Steps.CleanupRuns` | native/smb_connection.cc:656-670 | when the scheduled cleanup runs nothing is left allocated, the context is gone and the cleanup reference is dropped |
| `World.RunValid` | native/smb_connection.cc:115-132 | the invariant holds of all connections after every sequence of steps by any of them |
| `Invariants.ScriptDying` | native/smb_connection.cc:570-582 | any callbacks in any order during smb2_destroy_context do nothing but finish operations and schedule a cleanup |
| `Invariants.ScriptServed` | native/smb_connection.cc:998-1007 | any nesting of callbacks while libsmb2 services the socket or closes a file synchronously keeps the invariant and spares the operations whose callbacks are running |
| `Invariants.CleanupEffect` | native/smb_connection.cc:570-587 | what CleanupContext leaves: no context, flag, poll or table entry, promises as they were, operations that did not fire still allocated |
| `Invariants.FatalEffect` | native/smb_connection.cc:589-594 | what HandleFatal leaves of any connection that may meet it |
| `Theorems.ReachableSteady` | native/smb_connection.cc:148-175 | the invariant `Steady`, which the results about single calls ask for, holds of every connection in every run |
| `Effects.RequestSubmits` | native/smb_connection.cc:914-938 | an accepted request is listed with its kind, its time and its path, the caller's or that of the table entry, and owed a callback; nothing else changes but the timer and, for a close, the table |
| `Effects.ConnectSubmits` | native/smb_connection.cc:715-822 | the same of a connect, which also gets a context of its own |
| `Effects.DisconnectSubmits` | native/smb_connection.cc:852-880 | the same of a disconnect, with every other operation settled and tables and poll as they were |
| `Effects.RequestRefused` | native/smb_connection.cc:1029-1054 | a request is refused with INVALID_STATE, and nothing else happens, if and only if the connection is not ready, it needs a file handle that is not in the table, or a read or write is too long |
| `Effects.CloseHandsOver` | native/smb_connection.cc:1280-1299 | a close takes out its entry and no other, and hands its native handle to a close call for the first time, whether libsmb2 accepts the call or not |
| `Effects.CloseRemoves` | native/smb_connection.cc:1280-1299 | however a close ends, its entry is gone |
| `Effects.ClosedirHandsOver` | native/smb_connection.cc:1585-1597 | closedir does the same with a directory handle, and resolves |
| `Effects.ReaddirAnswers` | native/smb_connection.cc:1558-1574 | readdir answers null at the end, and before it the entry's name with the path made of the directory's, a backslash and the name, or of the name alone at the top; nothing else changes |
| `Effects.EntryPathLeads` | native/smb_connection.cc:1572-1573 | the base name of that path is the name if and only if the name holds no backslash, and it leads to the entry if and only if trimming leaves the name alone |
| `Effects.AnswerTouchesOnly` | native/smb_connection.cc:940-1117 | the callback of an open request changes its operation, its promise, the timer (which stops when nothing is left) and, for a successful open, a table; nothing else |
| `Effects.ConnectEstablishes` | native/smb_connection.cc:845-849 | a successful connect makes the connection ready, stops the timer, and changes nothing else |
| `Effects.DisconnectSchedules` | native/smb_connection.cc:882-912 | a completed disconnect schedules the cleanup and holds the one reference left for it if and only if libuv starts the timer, and keeps the context |
| `Effects.ClosingLosesAnswers` | native/smb_connection.cc:1416-1424 | in any state: on a connection that is closing, the answer of an open request is a rejection and takes no handle |
| `Effects.TeardownResets` | native/smb_connection.cc:570-587 | a teardown leaves no context, poll, mask or table entry |
| `Polling.PollWatchesMask` | native/smb_connection.cc:492-515 | in every run a poll watches for reading if and only if bit 0 of the mask last asked for is set, and for writing if and only if bit 2 is, or nothing after a reset |
| `Polling.MaskIsWatched` | native/smb_connection.cc:609-618 | a new mask is watched at once, bit by bit, and makes poll events possible if and only if there is a poll and one of the two bits is set; nothing else changes |
| `Polling.AddedIsWatched` | native/smb_connection.cc:454-480 | a descriptor that libsmb2 adds gets a new PollState, watching what the mask says, and the one before it is closed; the same descriptor again changes nothing |
| `Polling.RemovedIsStopped` | native/smb_connection.cc:596-607 | a descriptor that libsmb2 removes stops the poll and closes its PollState; nothing else changes |
| `Polling.ReportsDoTheSame` | native/smb_connection.cc:596-618 | descriptors and masks reported in the middle of a libsmb2 call do what they do outside one |
| `Polling.RefusedDescriptorIsFatal` | native/smb_connection.cc:461-474 | no loop, a poll that cannot be initialised, or one that cannot be started though the mask asks for something, leaves nothing of the connection |
| `Polling.RefusedMaskIsFatal` | native/smb_connection.cc:507-514 | so does a mask that asks for something when libuv does not start the poll |
| `Polling.RefusedRestartIsFatal` | native/smb_connection.cc:644-648 | and a poll that libuv does not start again after a poll event has been served |
| `Answers.EachIsAnswered` | native/smb_connection.cc:940-1117 | for scripts of any length: a request that libsmb2 answers, before it nothing but requests, is settled with its own verdict and freed, and stays so |
| `Answers.ServiceRunsCallbacks` | native/smb_connection.cc:620-677 | a poll event for reading or writing and a tick of the timer leave the connection exactly as the callbacks of the service call leave it |
| `Answers.ServiceAnswers` | native/smb_connection.cc:644-648 | so each request answered in one is settled with its verdict |
| `Answers.QuietServiceChangesNothing` | native/smb_connection.cc:644-648 | and one in which libsmb2 calls nothing back changes nothing |
| `Answers.LateOpenAnswers` | native/smb_connection.cc:998-1002 | what libsmb2 answers in the middle of the close of an open that nobody waits for is settled likewise |
| `Journeys.RunKeeps` | native/smb_connection.cc:148-175 | over any run no operation is replaced, its kind, time and path stay, no table entry changes, and no id that has gone comes back (below 2^32 opens) |
| `Journeys.AskedAbout` | native/smb_connection.cc:924-926 | while it waits, whatever happens meanwhile, a request is about the path it was made for |
| `Journeys.RequestIsAnswered` | native/smb_connection.cc:914-962 | from call to answer, with any run in between: a request is settled with what its kind, its path and the status say |
| `Journeys.OpenEnters` | native/smb_connection.cc:1017-1021 | a successful open or opendir enters the native handle with its path under a free id, in its own table, and resolves with that id |
| `Journeys.OpenIsEntered` | native/smb_connection.cc:972-1021 | from call to entry, with any run in between: the entry has the path of the call |
| `Journeys.WrappedOpenShadows` | native/smb_connection.cc:1017-1019 | once the counter has wrapped: the new handle is lost, and the open resolves with the id of an older file, if and only if that id is still in the table |
| `Journeys.LateOpenIsClosed` | native/smb_connection.cc:998-1007 | a handle delivered to an open or opendir that nobody waits for goes to a close call and into no table |
| `Journeys.ClosedForGood` | native/smb_connection.cc:1280-1299 | after a close, whatever comes then, the id is never in the table again and every call that takes it is refused (below 2^32 opens) |
| `Journeys.DirClosedForGood` | native/smb_connection.cc:1577-1598 | the same after a closedir |
| `Outcomes.RequestCompletes` | native/smb_connection.cc:940-1117 | the callback of a request settles the promise it was made for with what the call promises (stat, handle id, byte count, nothing) or with the classified status, frees its operation, and touches no other |
| `Outcomes.ConnectCompletes` | native/smb_connection.cc:824-850 | a connect callback resolves with the connection, which is then ready, or rejects with the classified status |
| `Outcomes.DisconnectCompletes` | native/smb_connection.cc:882-912 | a disconnect callback settles its own promise, rejects every other open one, and leaves nothing pending, connected or in a table |
| `Outcomes.RequestOutcome` | native/smb_connection.cc:914-938 | when an accepted request returns its promise is open and libsmb2 owes it a callback, or it is rejected: as lost if the timer failed, with the classified code if libsmb2 refused |
| `Outcomes.DisconnectOutcome` | native/smb_connection.cc:852-880 | the same of a disconnect, which is resolved at once when there is no connection |
| `Outcomes.ConnectOutcome` | native/smb_connection.cc:715-822 | the same of a connect, which is rejected when there is no context |
| `Outcomes.FailureIsFatal` | native/smb_connection.cc:620-677 | a failing service or poll leaves no operation, context or poll, and every promise ever made is settled |
| `Operations.RejectEachStep` | native/smb_connection.cc:405-414 | rejecting a set one operation after another has one result, whatever the order of the unordered_set |
| `Operations.DeferStep` | native/smb_connection.cc:426-441 | so has the loop of QueuePendingForCleanup |
| `Operations.DrainIsDeleteEach` | native/smb_connection.cc:447-452 | so has the loop of DrainDeferredCleanupOperations, which frees each operation once if and only if none is listed twice and all are allocated |
| `Operations.RejectKeeps` | native/smb_connection.cc:392-403 | RejectPending keeps the bookkeeping and leaves the operation settled |
| `Operations.RetireKeeps` | native/smb_connection.cc:158-175 | FinishPending of a settled operation whose callback has fired keeps the bookkeeping |
| `Operations.DeferFacts` | native/smb_connection.cc:416-445 | QueuePendingForCleanup rejects what is open, moves everything but `keep`, and allocates or frees nothing |
| `HandleTable.HandlesConserved` | native/smb_connection.cc:998-1019 | every delivered handle is in exactly one place |
| `HandleTable.TableTellsHistory` | native/smb_connection.cc:1280-1305 | an id is in the table exactly when its last mention in the history is its open |
| `HandleTable.InsertKeeps` | native/smb_connection.cc:1017-1019 | handing out the next id keeps the table faithful to its history |
| `HandleTable.HandOverKeeps` | native/smb_connection.cc:1288-1299 | so does a close, even one that fails later |
| `HandleTable.AbandonKeeps` | native/smb_connection.cc:998-1003 | so does a handle delivered when there is no context to close it on |
| `PollLink.StartKeeps` | native/smb_connection.cc:454-480 | StartPoll keeps the poll faithful and watches the descriptor it was given |
| `PollLink.WatchesWhatWasAsked` | native/smb_connection.cc:492-515 | what the poll invariant means to an observer of libuv |
| `SmbConnectionWraps.SmbConnectionWrap.constructor` | native/smb_connection.cc:91-108 | a new wrapper is the initial state of the model |
| `SmbConnectionWraps.SmbConnectionWrap.NewOperation` | native/smb_connection.cc:30-36 | allocates an operation and its promise at the next address |
| `SmbConnectionWraps.SmbConnectionWrap.RejectPending` | native/smb_connection.cc:392-403 | rejects an unsettled operation, returns at once on a settled one |
| `SmbConnectionWraps.SmbConnectionWrap.RejectAllPending` | native/smb_connection.cc:405-414 | the loop over a snapshot of `pending_` rejects the whole set |
| `SmbConnectionWraps.SmbConnectionWrap.QueuePendingForCleanup` | native/smb_connection.cc:416-445 | moves all but `keep` from `pending_` to the deferred list, rejecting what is open, and stops an idle timer |
| `SmbConnectionWraps.SmbConnectionWrap.DrainDeferredCleanupOperations` | native/smb_connection.cc:447-452 | frees every deferred operation and empties the list |
| `SmbConnectionWraps.SmbConnectionWrap.FinishPending` | native/smb_connection.cc:158-175 | takes the operation off both collections, drops its reference, stops an idle timer and frees it |
| `SmbConnectionWraps.SmbConnectionWrap.RegisterPending` | native/smb_connection.cc:148-156 | lists the operation and takes a reference; a timer that does not start is fatal |
| `SmbConnectionWraps.SmbConnectionWrap.ArmServiceTimer` | native/smb_connection.cc:517-540 | the timer is armed exactly when loop, initialisation and start succeed |
| `SmbConnectionWraps.SmbConnectionWrap.ScheduleDeferredCleanup` | native/smb_connection.cc:542-561 | flag and reference are taken together and given back together when the timer does not start |
| `SmbConnectionWraps.SmbConnectionWrap.EnsureContext` | native/smb_connection.cc:115-132 | creates and registers a context if there is none |
| `SmbConnectionWraps.SmbConnectionWrap.StartPoll` | native/smb_connection.cc:454-480 | replaces the poll unless it already watches the descriptor |
| `SmbConnectionWraps.SmbConnectionWrap.ApplyPollEvents` | native/smb_connection.cc:492-515 | watches the translated mask, or nothing |
| `SmbConnectionWraps.SmbConnectionWrap.OnFdChanged` | native/smb_connection.cc:596-607 | routes a descriptor through `contexts_` |
| `SmbConnectionWraps.SmbConnectionWrap.OnEventsChanged` | native/smb_connection.cc:609-618 | routes a mask through `contexts_` |
| `SmbConnectionWraps.SmbConnectionWrap.OnPollEvent` | native/smb_connection.cc:620-649 | services the context and re-applies the mask |
| `SmbConnectionWraps.SmbConnectionWrap.OnServiceTimer` | native/smb_connection.cc:656-677 | runs the scheduled cleanup, or services the context |
| `SmbConnectionWraps.SmbConnectionWrap.CleanupContext` | native/smb_connection.cc:570-587 | tears down, forgetting the context in the registry before destroying it |
| `SmbConnectionWraps.SmbConnectionWrap.HandleFatal` | native/smb_connection.cc:589-594 | reject, defer, tear down, drain |
| `SmbConnectionWraps.SmbConnectionWrap.RunLibrary` | native/smb_connection.cc:570-582 | running the callbacks of a script one by one computes the transition that the theorems are about |
| `SmbConnectionWraps.SmbConnectionWrap.Connect` | native/smb_connection.cc:715-822 | the three ways a connect can end at once, and the submission |
| `SmbConnectionWraps.SmbConnectionWrap.OnConnectComplete` | native/smb_connection.cc:824-850 | connects, or rejects and tears down |
| `SmbConnectionWraps.SmbConnectionWrap.Disconnect` | native/smb_connection.cc:852-880 | rejects everybody else, then registers and submits, or tears down |
| `SmbConnectionWraps.SmbConnectionWrap.OnDisconnectComplete` | native/smb_connection.cc:882-912 | drops poll, handles and flags, defers the rest, finishes, schedules the cleanup |
| `SmbConnectionWraps.SmbConnectionWrap.OnStatComplete` | native/smb_connection.cc:940-962 | resolves with the path and its base name |
| `SmbConnectionWraps.SmbConnectionWrap.OnOpenComplete` | native/smb_connection.cc:991-1022 | delivers a handle, or closes it again when nobody waits, with whatever that close fires |
| `SmbConnectionWraps.SmbConnectionWrap.OnOpendirComplete` | native/smb_connection.cc:1516-1547 | the same for directories |
| `SmbConnectionWraps.SmbConnectionWrap.OnRequestComplete` | native/smb_connection.cc:1410-1435 | the common form of the six remaining callbacks |
| `SmbConnectionWraps.SmbConnectionWrap.Request` | native/smb_connection.cc:914-938 | the common form of the eleven request calls, close taking its entry out at once |
| `SmbConnectionWraps.SmbConnectionWrap.Readdir` | native/smb_connection.cc:1549-1575 | resolves with the joined path and the name, or null |
| `SmbConnectionWraps.SmbConnectionWrap.Closedir` | native/smb_connection.cc:1577-1598 | takes the entry out and closes the handle |
| `SmbConnectionWraps.SmbConnectionWrap.Finalize` | native/smb_connection.cc:110-113 | the destructor |
| `SmbConnectionWraps.SmbConnectionWrap.Receive` | native/smb_connection.cc:620-677 | every entry from outside is the model's step |
| `SmbConnectionWraps.AddressIsFresh` | native/smb_connection.cc:148-156 | every step of a steady connection leaves the next address off `pending_`, so Receive's demand is always met |
| `Diagnostics.SnapshotPendingOperations` | native/smb_connection.cc:303-319 | a permutation of `pending_` ordered by start time, then action |
| `Diagnostics.PendingOperationsToJs` | native/smb_connection.cc:343-390 | the primary operation first, then the others in order, each once |
| `Diagnostics.SortedTells` | native/smb_connection.cc:310-317 | in the list start times do not decrease, and at equal times the actions are in alphabetical order |
| `Diagnostics.NotEarlierTransitive` | native/smb_connection.cc:310-317 | the comparator is a strict weak order: incomparability is transitive |
| `Diagnostics.ListingIsPermutation` | native/smb_connection.cc:343-390 | the array is a permutation of `pending_` if and only if the rejected operation is on it |
| `Theorems.RejectionListing` | native/smb_connection.cc:392-403 | whenever a call or a callback rejects an open operation the array is a permutation of `pending_` with that operation first |
| `Theorems.RejectionsListPending` | native/smb_connection.cc:392-403 | in every run no rejection has been of an operation outside `pending_`, and the array of the next is such a permutation |
| `Paths.NormalizeIsCanonical` | src/path.ts:1-11 | for every string: the non-empty segments of the trimmed input joined by single backslashes, plus one trailing backslash exactly when there is a segment and the input ends in a separator |
| `Paths.NormalForm` | src/path.ts:7-10 | a normal form holds no slash, no leading and no double backslash, and no trailing white space |
| `Paths.WhiteSpace` | src/path.ts:2-2 | white space is 25 code units, listed |
| `Paths.SeparatorsInterchangeable` | src/path.ts:7-10 | paths that differ only in which separator they use normalise alike |
| `Paths.NormalizeTwice` | src/path.ts:1-11 | normalising twice equals normalising once if and only if the result does not start with white space |
| `Paths.NormalizeTwiceFails` | src/path.ts:1-11 | "/ a" is a path that normalising twice changes |
| `Paths.BasenameOfJoin` | native/smb_connection.cc:679-688 | Basename undoes the Readdir join if and only if the name holds no backslash |
| `Paths.SegmentsOfJoin` | native/smb_connection.cc:1572-1573 | the joined path has the directory's segments and then the name |
| `Paths.ReaddirRoundTrip` | native/smb_connection.cc:1572-1573 | normalising the joined path yields the directory's segments and the name if and only if the name is safe from trimming |
| `Paths.ReaddirReaches` | native/smb_connection.cc:1572-1573 | that path leads to the directory's segments and the name if and only if the name is safe from trimming |
| `Paths.EffectiveReaches` | native/smb_connection.cc:1572-1573 | for a name that is not blank it leads to the directory's segments and what trimming leaves of the name |
| `Paths.BlankLeadsBack` | native/smb_connection.cc:1572-1573 | and for a name of white space only it leads back to the directory |
| `Walk.ReadWholeFile` | scripts/read-only-sample-files.mjs:40-62 | reads the whole file, or what a server that cuts chunks short lets it see; fails if and only if the file is missing or the chunk is refused; leaves every handle table as it was |
| `Walker.QueueEntries` | scripts/read-only-sample-files.mjs:94-110 | queues every child of a directory, in order, and no special entry, and closes the handle; fails if and only if the path does not lead to a directory |
| `Walker.WalkAndRead` | scripts/read-only-sample-files.mjs:64-114 | where no directory has a blank name: terminates, meets what its paths lead to in queue order (the first of it if it fails), fails if and only if a path does not lead to what was listed or a chunk is refused, reports what it met, and closes every handle it opens even when it fails |
| `Walker.EntryTracked` | scripts/read-only-sample-files.mjs:106-106 | what a queued path leads to, for any name a server can list and any directory the walk opens: the entry of the name with white space trimmed off, below what the directory's normal form leads to, or that itself for a blank name |
| `Walker.WellNamedWalk` | scripts/read-only-sample-files.mjs:64-114 | where trimming leaves all names and the root's normal form alone, the walk meets the nodes of the tree in the order of `Walk.Visits`, and its outcome is the one the results of `Walk` are about |
| `Walker.NameIsShadowed` | src/path.ts:2-2 | two names that differ in trailing white space lead to the same entry, in every directory |
| `Walker.TwinIsNotRead` | scripts/read-only-sample-files.mjs:64-114 | of two files with such names at the top of a share the walk reads one twice and the other never, and reports the size of the one for both, whatever the sizes and names |
| `Walk.WalkReports` | scripts/read-only-sample-files.mjs:64-114 | file and directory counts equal the tree's, the byte total is the sum of the sizes if and only if the server fills its chunks or all files are short, and the samples are the first ten files visited |
| `Walk.WalkFails` | scripts/read-only-sample-files.mjs:40-62 | a walk fails if and only if its root is missing or there is a file and the server announces a read size below 64 KiB |
| `Walk.VisitsEachNodeOnce` | scripts/read-only-sample-files.mjs:75-111 | every node at or below the root is visited exactly once, and nothing else |
| `Walk.VisitsByDepth` | scripts/read-only-sample-files.mjs:75-111 | the queue visits level after level, never a shallower node after a deeper one |
| `Walk.ChildrenAt` | scripts/read-only-sample-files.mjs:94-110 | children are met in the order of the listing, each with its path, place and node |
| `Walk.ChildLocated` | scripts/read-only-sample-files.mjs:106-106 | for any clean name: it leads to the child's place if and only if the name is safe from trimming |
| `Turns.WalkEnds` | scripts/read-only-sample-files.mjs:75-111 | where WalkAndRead is defined, the loop is over, or has failed, after as many turns as there are paths to meet |
| `Turns.BlankDirectoryNeverEnds` | scripts/read-only-sample-files.mjs:75-111 | on any tree: once the queue holds a path to a directory that lists a directory with a blank name, no number of turns ends the walk, unless it fails |
| `Walk.BlankNameIsLost` | src/path.ts:2-2 | a name that starts with a blank at the top of a share cannot be reached by its reported path |
| `Walk.GotEverything` | scripts/read-only-sample-files.mjs:47-57 | the chunk loop gets every byte of a tree if and only if the server fills its chunks or no file is longer than what it returns |

## Left out

- A submission (smb2_*_async) runs no script: the descriptors and masks that libsmb2 reports from inside one, while it connects or writes at once, are separate steps after the call.
- A libsmb2 that calls operations other than a failed connect back more than once.
- Fatal libuv failures inside a libsmb2 call: descriptor and mask changes reported in the middle of servicing or destroying a context meet a libuv that accepts; at top level it may refuse.
- A callback routed to another connection: the class notes it as a fault instead of updating the other object; `NoFaults` and `RegistryIsInverse` show that it does not happen.
- The promise a call returns is the identity recorded when the operation was created, because the source may read it out of a freed operation.
- `Close` reads the path of its table entry after erasing it; the model copies the entry first.
- SmbConnectionWraps.SmbConnectionWrap.Request: the eleven request calls differ in the arguments they pass to libsmb2, which the model does not carry; the checks of argument types are not modelled.
- SmbConnectionWraps.SmbConnectionWrap.OnRequestComplete: the six callbacks differ only in the value they resolve with; read data is represented by its length.
- SmbConnectionWraps.SmbConnectionWrap.Disconnect: asks that the next address is not on `pending_`, which an allocator guarantees and `AddressIsFresh` shows.
- SmbConnectionWraps.SmbConnectionWrap.OnOpenComplete: status 0 comes with a handle; the null handle that libsmb2 passes with status 0 for an open answered with STATUS_END_OF_FILE is not told apart, nor is what an open with a positive status, which libsmb2 does not pass, puts into the table.
- SmbConnectionWraps.SmbConnectionWrap.OnOpendirComplete: likewise.
- The event mask that OnPollEvent passes on to `smb2_service`, and the second path of a rename.
- Addresses of operations, wrappers and poll states are never reused in the model, and contexts not while they live.
- Theorems.FileHandlesConserved: claimed below 2^32 opens, because the 32-bit counter wraps; the counter itself is modelled with its wrap.
- Theorems.DirHandlesConserved: likewise below 2^32 opens.
- Theorems.TablesAreTheirHistory: likewise below 2^32 opens; `WrappedOpenShadows` says what happens beyond.
- Journeys.ClosedForGood: likewise below 2^32 opens, after which the id may be issued again.
- Journeys.DirClosedForGood: likewise.
- The order in which an unordered_set is enumerated: the loops are proved to have the same result in every order; the deferred list is a multiset in the transitions and a sequence in the class.
- `std::sort` is any sort by the source's comparator; the model sorts by insertion.
- The `handle` field of diagnostics, which derived operations redeclare, the message text and the ages.
- `ClassifyError` and the error code tables: a code is whatever they make of a status.
- GetDebugState, GetMaxReadSize and GetMaxWriteSize: they read one field each.
- Wall-clock behaviour: only whether the timer is off, ticking or one-shot.
- The shutdown of an environment that destroys wrappers while references are held.
- UTF-8 conversion at the native boundary: paths are sequences of UTF-16 code units throughout.
- Walker.QueueEntries: asks for what WalkAndRead asks for, of one directory.
- Walker.WalkAndRead: leaves out directories with a blank name, because with one in its queue the walk does not end (`BlankDirectoryNeverEnds`); names hold no separator and are not empty, as on an SMB server; the tree does not change and the server's answers do not fail during a walk, except for refused chunks.
- Walker.WellNamedWalk: about trees whose names trimming leaves alone; on others the walk meets what `Walker.Met` says, which need not be the tree.
- Walk.VisitsEachNodeOnce: about trees whose names trimming leaves alone; on others it is false (`NameIsShadowed`), and what the walk then meets is `Walker.Met`.
- The validators and forwarding of `src/index.ts`, `src/native.ts` and `native/addon.cc`.
