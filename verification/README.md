# A verified model of libkeepalive

libkeepalive lets applications keep a device from suspending (CPU keepalive), keep its
display from blanking (display keepalive) and be woken up at intervals (background activity,
timeouts).  This project models its two implementations, the GLib one in `lib-glib/` and the
Qt one in `lib/` and `plugin/`, in Dafny, and proves what they keep over all runs.

`dafny verify dfyconfig.toml` checks everything.

## How it is built

Each part consists of a state machine on values, theorems about all its runs, and a class
with the fields and functions of the source whose methods are proved to take exactly the
steps of the machine.  An event that is not possible leaves the state alone, so that every
sequence of events is a run, and a theorem about all sequences is one about all interleavings.

| files | what they model |
|---|---|
| `ObjectProtocol`, `ObjectSafety`, `ObjectReclaim`, `ObjectMeasure`, `ObjectTheorems`, `ObjectOnce`, `ObjectLoops`, `ObjectLateStart`, `KeepaliveObject` | the two-counter lifetime of `keepalive_object_t` under any number of threads, one main loop whose callbacks nest inside bus flushes, bus filter callbacks and destroy notifications |
| `ShutdownScripts` | the shutdown callbacks of the two session controllers as that lifetime needs them |
| `MceOwner`, `BusLink`, `Sessions`, `CpuProtocol`, `CpuTheorems`, `CpuSettles`, `CpuTold`, `CpuKeepalive` | the CPU keepalive session over an asynchronous bus |
| `DisplayBus`, `DisplayProtocol`, `DisplayTheorems`, `DisplaySettles`, `DisplayTold`, `DisplayKeepalive` | the display keepalive session, with the prevent mode MCE allows or denies |
| `WakeupDelay`, `Heartbeat`, `ActivityProtocol`, `ActivityTheorems`, `BackgroundActivity`, `KeepaliveTimeout`, `TimeoutSource` | the wakeup stack: timeout source, background activity, heartbeat, and the arithmetic of delays |
| `QtHeartbeat`, `QtActivity`, `QtBackgroundActivity` | the Qt activity with slots that call back while a signal is emitted |
| `DisplayBlanking` | the Qt display-blanking singleton under an unbounded set of clients |
| `QmlJob`, `QmlBackgroundJob` | the QML job with its coalesced updates |

Where the C code drops its mutex inside a function, the machine has a position (`at`, `pc`,
`main`) and other threads may act before the function goes on; the methods of the classes are
handed the steps that happen in each such stretch (`w`, `f`, `windows`, `others`, `during`), and
their contracts hold for all of them.  Where it flushes the bus, signals and replies are
dispatched in the middle of a function, and their handlers are among those steps.  Signal
handlers of the Qt classes are arbitrary finite trees of calls (`Acts`, `Reaction`).

## What is assumed of the environment

- A source's destroy notification comes exactly once, never while the source's callback
  executes and never with the object's mutex held.  Callbacks are dispatched by one main loop,
  one inside another only where a bus flush dispatches a reply or a signal.
- An API caller has an external reference of its own, save that another thread may drop it while
  the call waits inside a start function.  A bus filter callback has none.
- Of the objects built on `keepalive_object_t`: the shutdown callback empties every slot and
  removes the bus filter, and starts nothing; a timer or watch callback asks to go on only if its
  id is still in a slot or about to be removed, or in vain after it has been, and not in shutdown;
  a callback clears no slot but the one with its own id, and a reply callback does clear that; no
  pending call is begun in shutdown; and a flush in shutdown dispatches finitely many messages.
  The first and the last but one are proved of the CPU and display controllers
  (`ShutdownScripts`); of the heartbeat and the activity `Heartbeat.CloseLocked` and
  `BackgroundActivity.ShutdownLockedCb` show that nothing is left.
- The bus daemon handles a connection's messages in order, answers `GetNameOwner` truthfully,
  and sends `NameOwnerChanged` for every change once the match rule is in place ("Message Bus
  Messages" in the D-Bus Specification).  MCE's signals and replies keep their order too, a
  successor takes the name only after it was released, and the connection stays up while an
  object holds it.
- Removing a source id that is stale does nothing.
- The timeout source is dispatched and finalized on the main loop.
- A message to MCE reaches whoever owns the name when it is sent.
- `iphb_open`, the connection to the bus, its message filter and the creation of sources may
  succeed or fail at will (`ok`); a pending call is taken to start, which for lack of memory or
  on a lost connection `xdbus_method_call_va` may not do.

## What the code does not keep

Each of these is proved, with the condition under which the code does what is promised, and at a
concrete run where it takes one; for all but the last the condition is exact:

- A glib heartbeat whose first open fails never connects: the retry callback tests and clears
  the id of the watch (`Heartbeat.NeverReconnects`, `Heartbeat.StartPrograms`, `Heartbeat.LostWakeup`).
- A connection that breaks and is reopened at once leaves a started heartbeat without an order,
  in both implementations (`Heartbeat.BrokenNotProgrammed`, `Heartbeat.ForgottenOrder`,
  `QtHeartbeat.BrokenOrders`).
- A run followed at once by a stop leaves the CPU keepalive requested for good
  (`ActivityTheorems.ForgottenKeepalive`, `ActivityTheorems.CoalescedStopKeepsKeepalive`).
- A run entered during the callback of another state loses its keepalive
  (`ActivityTheorems.OvertakenRunLosesKeepalive`, `ActivityTheorems.OvertakenRun`).
- A timeout whose wakeup finds the report of the previous run's end still pending is lost, and
  keeps the device awake (`KeepaliveTimeout.WakeupLostIff`, `KeepaliveTimeout.StaysStuck`,
  `KeepaliveTimeout.LostTimeout`).
- The 999 longest millisecond intervals wrap around (`WakeupDelay.TimeoutCoversUnlessWrapped`).
- A destructor whose signal re-enables its client breaks the singleton
  (`DisplayBlanking.DeletedKeepsIff`, `DisplayBlanking.EnabledInDestructor`).
- An MCE that replaces another before the controller rethinks is not told of a running session
  until the next renewal (`CpuTold.ToldAtRest`, `CpuTold.NewOwnerUntold`, `DisplayTold.ToldAtRest`,
  `DisplayTold.NewOwnerUntold`).
- A `runningChanged` handler that finishes the job leaves bindings stale
  (`QmlJob.StaleRun`, `QmlJob.StaleBinding`, `QmlJob.RunningIsNotified`).

The header of the glib heartbeat says an invalid range is extended by 12 seconds; the code
raises the upper bound to the lower one, and so does the model.

## Model

| member | source | states |
|---|---|---|
| ObjectTheorems.ReferenceAccounting | lib-glib/keepalive-object.c:189-264 | In every run of any number of threads no abort can fire, and the internal count is the number of sources whose notification has not dropped its reference plus the start functions in progress; API calls in progress never outnumber external references. |
| ObjectTheorems.AbortsAreOutOfReach | lib-glib/keepalive-object.c:189-264 | Whenever a reference is taken or dropped the count that the abort looks at is positive, and each moves its count by exactly one; the last external one adds the internal one of the shutdown source. |
| ObjectTheorems.DeleteSafety | lib-glib/keepalive-object.c:116-179 | At most one delete, only after the one shutdown callback has returned and with no reference, source, slot, bus filter, callback or caller left; no step touches the object afterwards, a bus filter callback's included. |
| ObjectTheorems.DoomIsExclusive | lib-glib/keepalive-object.c:166-179 | Once an unlock has decided to delete, no other step that touches the object is enabled, although the delete comes after the mutex is released. |
| ObjectTheorems.OneShutdown | lib-glib/keepalive-object.c:88-114 | The external count is zero exactly when the shutdown source is scheduled or its callback has begun, never both; the callback begins at most once, and until it has returned its source is bound and the internal count positive. |
| ObjectTheorems.ShutdownBegins | lib-glib/keepalive-object.c:88-102 | The shutdown callback marks the object in shutdown and enters the derived callback, whatever that is to do and with sources, slots and filter as they are. |
| ObjectTheorems.NothingNewInShutdown | lib-glib/keepalive-object.c:283-306 | In shutdown no step creates a timer or a watch, fills a slot with one, or brings an external reference or the bus filter back, a start that was waiting in its unlocked stretch included; only the end of a start begun for a pending call still creates that. |
| ObjectLateStart.LateStart | lib-glib/keepalive-object.c:283-325 | A concrete run in which such a start is waiting: its caller's reference is dropped meanwhile, shutdown begins and ends, and the step that would have created the timer gives the transient reference back instead. |
| ObjectLoops.CancelLoopEnds | lib-glib/keepalive-object.c:308-325 | Over every run: an activity that enters a cancel loop and leaves it does so with the slot empty; the ids it took out are distinct, each has been removed exactly once, and there are no more of them than what it found and the times others filled the slot meanwhile. |
| ObjectTheorems.NeverStuck | lib-glib/keepalive-object.c:88-121 | From the last external unref on, the object is deleted and all activities over, or some step is enabled: nothing waits for ever. |
| ObjectTheorems.StepBrings | lib-glib/keepalive-object.c:88-179 | From the dispatch of the shutdown source on every enabled step lowers a lexicographic measure over the callback not begun, the handlers' budget, starts, sources' stages, the script left, filled slots and activities. |
| ObjectTheorems.Reclaimed | lib-glib/keepalive-object.c:88-121 | Every schedule that does not idle and at some point dispatches the shutdown source ends in the deleted object, with every slot empty, every source gone, both counts zero and the bus filter removed. |
| ObjectTheorems.CallbackDecides | lib-glib/keepalive-object.c:283-306 | A callback that asks to go on leaves its source with the main loop unless that was removed meanwhile; any other leaves it to its destroy notification. |
| ObjectTheorems.FilterIsHeard | lib-glib/keepalive-cpukeepalive.c:1041-1062 | The bus filter is there from its installation on, and the main loop can hear it. |
| ObjectMeasure.FinalIsClean | lib-glib/keepalive-object.c:116-121 | The only terminal state has no source, no slot, no reference and no bus filter. |
| ObjectOnce.OneCustodian | lib-glib/keepalive-object.c:369-389 | The slots and cancel loops that hold an id plus the times it has been removed never exceed one. |
| ObjectOnce.RemovedAtMostOnce | lib-glib/keepalive-object.c:447-463 | Each source is removed at most once in a run, and no two cancel loops hold the same id. |
| ObjectSafety.Untouchable | lib-glib/keepalive-object.c:166-179 | After the delete nothing that touches the object is enabled. |
| KeepaliveObject.KeepaliveObject.constructor | lib-glib/keepalive-object.c:129-147 | A new object is the initial state of the protocol: one external reference and nothing else. |
| KeepaliveObject.KeepaliveObject.Lock | lib-glib/keepalive-object.c:158-164 | Takes the mutex as the protocol does and changes nothing else of the object. |
| KeepaliveObject.KeepaliveObject.Unlock | lib-glib/keepalive-object.c:166-179 | Decides on deletion under the mutex, from both counts, before it releases it. |
| KeepaliveObject.KeepaliveObject.RefExternalLocked | lib-glib/keepalive-object.c:189-202 | One more external reference; the abort is unreachable for a caller with a reference of its own. |
| KeepaliveObject.KeepaliveObject.RefInternalLocked | lib-glib/keepalive-object.c:208-221 | One more internal reference, and the aborting case exactly when both counts are zero. |
| KeepaliveObject.KeepaliveObject.UnrefInternalLocked | lib-glib/keepalive-object.c:250-264 | One internal reference less, and the aborting case exactly at zero. |
| KeepaliveObject.KeepaliveObject.ShutdownLocked | lib-glib/keepalive-object.c:104-114 | Schedules the shutdown source once, with an internal reference of its own. |
| KeepaliveObject.KeepaliveObject.UnrefExternalLocked | lib-glib/keepalive-object.c:225-246 | When the last external reference goes, shutdown is already scheduled and holds an internal one; otherwise the internal count stays. |
| KeepaliveObject.KeepaliveObject.UnrefInternalCb | lib-glib/keepalive-object.c:268-277 | A destroy notification takes the lock, drops one reference, forgets its source and releases the lock. |
| KeepaliveObject.KeepaliveObject.CancelLoop | lib-glib/keepalive-object.c:308-325 | Whatever the others do in each unlocked stretch, the loop is left with the slot empty and the mutex held, or another activity still has the mutex; an empty slot is left at once. Its variant counts the stretches in which others act; `ObjectLoops.CancelLoopEnds` counts turns. |
| KeepaliveObject.KeepaliveObject.Turn | lib-glib/keepalive-object.c:369-389 | One turn empties the slot, unlocks, removes exactly the id it took out, and locks again; the activity is where it was, though in a start function the reference of its caller may be gone. |
| KeepaliveObject.KeepaliveObject.StopLocked | lib-glib/keepalive-object.c:447-463 | A stop function returns with its slot empty, and touches no source if it was empty before. |
| KeepaliveObject.KeepaliveObject.StartLocked | lib-glib/keepalive-object.c:283-306 | A start function returns with the slot filled by a live source exactly if one could be created, and, for timers and watches, not in shutdown; the transient reference has passed to the source or been dropped. |
| KeepaliveObject.KeepaliveObject.Create | lib-glib/keepalive-object.c:331-367 | A started source takes over the transient reference. |
| ShutdownScripts.CpuScriptCovers | lib-glib/keepalive-cpukeepalive.c:349-367 | The shutdown callback of the CPU controller is a script that empties all its slots and removes its filter, as the lifetime of its object takes for granted. |
| ShutdownScripts.CpuSweeps | lib-glib/keepalive-cpukeepalive.c:349-367 | In every run the callback goes through that script in order; what is filled is still to be emptied, nothing is filled any more by anyone, in the flush of its STOP either, and when it is done all slots are empty and the filter gone. |
| ShutdownScripts.DisplayScriptCovers | lib-glib/keepalive-displaykeepalive.c:275-287 | The same of the display controller's callback. |
| ShutdownScripts.DisplaySweeps | lib-glib/keepalive-displaykeepalive.c:275-287 | And of its runs. |
| KeepaliveObject.KeepaliveObject.GiveUp | lib-glib/keepalive-object.c:283-306 | A start that creates no source drops the transient reference again. |
| KeepaliveObject.KeepaliveObject.IpcFinishLocked | lib-glib/keepalive-object.c:391-410 | True, and the slot emptied, exactly when the slot still holds the call whose callback is running. |
| KeepaliveObject.KeepaliveObject.ShutdownCb | lib-glib/keepalive-object.c:88-102 | Marks the object in shutdown exactly once, clears the slot of the shutdown timer and enters the derived callback with the mutex held. |
| BusLink.EventuallyTrue | lib-glib/keepalive-cpukeepalive.c:877-991 | Folding the signals and the query reply under way over the cached state gives the name's real state, whether or not a signal cancels the query. |
| BusLink.ReadTracks | lib-glib/keepalive-cpukeepalive.c:958-991 | Reading a message keeps that agreement, for heard and unheard messages alike. |
| BusLink.TurnTracks | lib-glib/keepalive-cpukeepalive.c:915-941 | The daemon's answer agrees with the signals before it, because the match rule went first. |
| BusLink.ChangedTracks | lib-glib/keepalive-cpukeepalive.c:958-991 | So does every change of the name's owner. |
| BusLink.ConnectedTracks | lib-glib/keepalive-cpukeepalive.c:1093-1137 | Installing the filter and starting the query, in this order, establishes it; the query is taken to start. |
| Sessions.InSession | lib-glib/keepalive-cpukeepalive.c:664-774 | A renewal or an end belongs to a session opened before it and not ended since: no renewing START after a STOP. |
| Sessions.BetweenSessions | lib-glib/keepalive-cpukeepalive.c:719-774 | A session is opened only first or after the end of another. |
| Sessions.NoLapses | lib-glib/keepalive-cpukeepalive.c:759-774 | The CPU controller ends every session with a STOP message. |
| CpuTheorems.NoLostUpdate | lib-glib/keepalive-cpukeepalive.c:780-848 | Between callbacks, with no rethink due and not in shutdown, the session runs exactly when it is requested and MCE is believed to run, in every order of calls, signals and replies, those dispatched in the middle of a flush included. |
| CpuTheorems.NameTracking | lib-glib/keepalive-cpukeepalive.c:860-941 | In every run the messages under way lead the cached owner to the name's real state. |
| CpuTheorems.PeriodIsAsked | lib-glib/keepalive-cpukeepalive.c:860-875 | Whenever MCE is believed to run, outside shutdown, the renew period it wants is known or has been asked for: on every change to running, not the first only. |
| CpuTheorems.OwnerIsTaken | lib-glib/keepalive-cpukeepalive.c:860-991 | What MCE is believed to be is what the last message heard said: a signal needs the filter, the answer its slot. News makes a rethink due; any other message changes nothing else. |
| CpuTheorems.ConnectTimerConnects | lib-glib/keepalive-cpukeepalive.c:1093-1179 | The connect timer connects, unless shutdown has begun: with the filter if it can be added, and the match rule before the owner query. |
| CpuTheorems.CallsAreTaken | lib-glib/keepalive-cpukeepalive.c:1238-1264 | A call takes the request to what it asks for and makes a rethink due if that is news; otherwise it does nothing. |
| CpuTheorems.LastUnrefEnds | lib-glib/keepalive-cpukeepalive.c:349-367 | After the last reference is gone calls do nothing, and shutdown begins as soon as no callback runs. |
| CpuTheorems.MessageTrace | lib-glib/keepalive-cpukeepalive.c:664-774 | Between callbacks the last message leaves the session open exactly when the renew timer is in its slot, despite the unlocked flush, what it dispatches, and timer removal; the timer then has exactly the effective renew period, which is positive. |
| CpuTheorems.PeriodDuringStart | lib-glib/keepalive-cpukeepalive.c:719-735 | A period reply dispatched while the opening START is flushed sends nothing, and the timer gets its period. |
| CpuTheorems.PeriodDuringRenewal | lib-glib/keepalive-cpukeepalive.c:559-577 | One dispatched while a renewal is flushed changes nothing if the period is the one in force; else it renews once more and replaces the timer before the renewal's callback goes on. |
| CpuTheorems.StopThenDisconnect | lib-glib/keepalive-cpukeepalive.c:1141-1160 | The bus is released only in shutdown and after the STOP of a session that ran. |
| CpuTheorems.ShutdownComplete | lib-glib/keepalive-cpukeepalive.c:349-367 | The shutdown callback leaves every slot empty, the filter removed, the bus released and the session ended. |
| CpuTheorems.StaysShut | lib-glib/keepalive-cpukeepalive.c:617-647 | After it nothing is started, sent or believed any more; in the flush of its STOP the refusal of queries and timers is what keeps it so. |
| CpuTheorems.StepKeeps | lib-glib/keepalive-cpukeepalive.c:780-1179 | Every handler, and every stretch of one between two unlocks, keeps the invariant behind these. |
| CpuSettles.Lessens | lib-glib/keepalive-cpukeepalive.c:780-848 | Only requests, name changes and periodic renewals can go on for ever: every other step that changes anything lowers a measure. |
| CpuSettles.NextStep | lib-glib/keepalive-cpukeepalive.c:814-848 | Short of rest one of these steps is always possible. |
| CpuSettles.Convergence | lib-glib/keepalive-cpukeepalive.c:780-941 | At rest (no rethink, no handler, query answered, bus drained) the session runs, and the last message sent leaves it open, exactly when it is requested, MCE really owns its name and the object is connected and not in shutdown. |
| CpuSettles.Converges | lib-glib/keepalive-cpukeepalive.c:1238-1264 | From every reachable state the controller's own steps and the daemon's lead to such a rest, for the requests and the name as they are. |
| CpuTold.ToldAtRest | lib-glib/keepalive-cpukeepalive.c:719-735 | At rest the MCE that owns the name now has been told to keep the session open exactly when the session runs, and it was not running already when that MCE was heard of, or a message was sent since that MCE took the name. |
| CpuTold.RenewalTells | lib-glib/keepalive-cpukeepalive.c:697-715 | The next renewal tells it in any case, and the controller is at rest again. |
| CpuTold.NewOwnerUntold | lib-glib/keepalive-cpukeepalive.c:722-723 | A concrete run into a rest where it has not been told: the name is lost and regained before a rethink, and the rethink finds the timer in its slot. |
| CpuKeepalive.CpuKeepalive.constructor | lib-glib/keepalive-cpukeepalive.c:291-343 | A new object is the protocol's initial state, its connect timer scheduled. |
| CpuKeepalive.CpuKeepalive.ApiStart | lib-glib/keepalive-cpukeepalive.c:1238-1250 | Sets the request and schedules a rethink if it was not set. |
| CpuKeepalive.CpuKeepalive.ApiStop | lib-glib/keepalive-cpukeepalive.c:1252-1264 | Clears the request and schedules a rethink if it was set. |
| CpuKeepalive.CpuKeepalive.RethinkScheduleLocked | lib-glib/keepalive-cpukeepalive.c:831-839 | One rethink timer at a time, none in shutdown. |
| CpuKeepalive.CpuKeepalive.SessionIpcLocked | lib-glib/keepalive-cpukeepalive.c:664-693 | On a connection the message is sent, and the flush lets others act and dispatches messages: the state afterwards is exactly what their steps make of it. Without one nothing happens. |
| CpuKeepalive.CpuKeepalive.SessionStartLocked | lib-glib/keepalive-cpukeepalive.c:719-735 | No-op if running; else START, then a timer with the period in effect after the flush, whatever is dispatched in it. |
| CpuKeepalive.CpuKeepalive.SessionRestartLocked | lib-glib/keepalive-cpukeepalive.c:739-755 | No-op if not running; else START again and a timer with the new period in place of the old one, from the main loop or inside the flush of a renewal. |
| CpuKeepalive.CpuKeepalive.SessionStopLocked | lib-glib/keepalive-cpukeepalive.c:759-774 | Ends with the slot empty, and STOP sent exactly if a session ran on a connection. |
| CpuKeepalive.CpuKeepalive.RethinkNowLocked | lib-glib/keepalive-cpukeepalive.c:780-812 | The session runs afterwards exactly if it was wanted when the decision was made; the message sent, if any, is the right one. |
| CpuKeepalive.CpuKeepalive.DelayedRethinkCb | lib-glib/keepalive-cpukeepalive.c:814-829 | The same for the timer callback, from rest to rest of the protocol. |
| CpuKeepalive.CpuKeepalive.SessionRenewCb | lib-glib/keepalive-cpukeepalive.c:697-715 | Renews with one message and keeps the timer; if a period reply dispatched in its flush changes the period, it is renewed once more and the timer is one of the new period. |
| CpuKeepalive.CpuKeepalive.MceOwnerSetLocked | lib-glib/keepalive-cpukeepalive.c:860-875 | A changed owner schedules a rethink, and has the period asked for whenever MCE runs and it is not known; an unchanged one does nothing. |
| CpuKeepalive.CpuKeepalive.Dispatched | lib-glib/keepalive-cpukeepalive.c:877-913 | A signal or reply sets the owner exactly if the filter or the slot is there to hear it, and schedules a rethink if that changed anything; if MCE runs afterwards its period is known or asked for. |
| CpuKeepalive.CpuKeepalive.RenewPeriodReplyCb | lib-glib/keepalive-cpukeepalive.c:579-615 | Afterwards the period is the reply's, or the default for none, and a running session's timer has exactly that. |
| CpuKeepalive.CpuKeepalive.RenewPeriodSetLocked | lib-glib/keepalive-cpukeepalive.c:559-577 | Restarts the session exactly when the effective period changes. |
| CpuKeepalive.CpuKeepalive.ConnectedCb | lib-glib/keepalive-cpukeepalive.c:1093-1179 | Connects at most once, not in shutdown, with filter, match rule and query in this order; the query is taken to start. |
| CpuKeepalive.CpuKeepalive.MceOwnerCancelQueryLocked | lib-glib/keepalive-cpukeepalive.c:943-950 | Empties the slot though the mutex is dropped, and changes no session. |
| CpuKeepalive.CpuKeepalive.RenewPeriodCancelQueryLocked | lib-glib/keepalive-cpukeepalive.c:649-656 | Likewise for the period query. |
| CpuKeepalive.CpuKeepalive.RethinkCancelLocked | lib-glib/keepalive-cpukeepalive.c:841-848 | Likewise for the rethink timer, which calls no longer refill. |
| CpuKeepalive.CpuKeepalive.DisconnectNowLocked | lib-glib/keepalive-cpukeepalive.c:1141-1160 | Ends with the connect timer gone, filter removed and bus released, and sends nothing. |
| CpuKeepalive.CpuKeepalive.ShutdownLockedCb | lib-glib/keepalive-cpukeepalive.c:349-367 | Whatever happens in its unlocked stretches and is dispatched in the flush of its STOP: exactly one STOP if a session ran, and every slot, the filter and the bus are given back. |
| DisplayBus.AtRest | lib-glib/keepalive-displaykeepalive.c:664-719 | With nothing under way the believed owner is the real one, and if MCE runs the believed prevent mode is the real one. |
| DisplayBus.ReadTracks | lib-glib/keepalive-displaykeepalive.c:725-816 | Reading a message, reply or signal, does not change where the messages lead. |
| DisplayBus.TurnTracks | lib-glib/keepalive-displaykeepalive.c:766-835 | Each answer of the daemon or of MCE leads to the truth, also when it comes too late for its call. |
| DisplayBus.NameChangedTracks | lib-glib/keepalive-displaykeepalive.c:878-909 | So does a change of owner, with a new instance's mode unknown until asked. |
| DisplayBus.ModeChangedTracks | lib-glib/keepalive-displaykeepalive.c:846-876 | So does a change of the mode, which cancels the mode query. |
| DisplayBus.OutsideAsked | lib-glib/keepalive-displaykeepalive.c:818-835 | An open mode query is under way or its answer is, whatever the others do. |
| DisplayTheorems.NoLostUpdate | lib-glib/keepalive-displaykeepalive.c:571-719 | Between callbacks, with no rethink due and not in shutdown, the session runs exactly when it is requested, MCE runs and the mode allows it, for every order of calls, signals, replies and cancellations. |
| DisplayTheorems.BeliefTracking | lib-glib/keepalive-displaykeepalive.c:664-835 | In every run the messages under way lead to the real owner and, with no mode query open, to MCE's real mode, also in the middle of a handler. |
| DisplayTheorems.LateReplyIgnored | lib-glib/keepalive-displaykeepalive.c:687-764 | Once the handler of a name signal has run, the answer to the owner query it cancelled is taken off the queue and changes nothing, whatever has happened in between. |
| DisplayTheorems.HandleBegins | lib-glib/keepalive-displaykeepalive.c:664-719 | A handler's stretches between its unlocks add up to the effect of its message, and a rethink is scheduled, or will be, whenever the wish may change. |
| DisplayTheorems.MessageTrace | lib-glib/keepalive-displaykeepalive.c:482-565 | Between callbacks the session is open, in the messages sent and the ends MCE was not there to be told of, exactly when the renew timer is in its slot. |
| DisplayTheorems.EndsAreTold | lib-glib/keepalive-displaykeepalive.c:482-565 | In every run and every step, shutdown and unlocked stretches included: at most one message, CANCEL for the end of a session exactly if MCE is believed to run at that moment, and any other only if it is. |
| DisplayTheorems.FirstStartConnects | lib-glib/keepalive-displaykeepalive.c:1031-1068 | The first start connects, filter and match rules before the owner query; no later one does. |
| DisplayTheorems.CallsAreTaken | lib-glib/keepalive-displaykeepalive.c:1143-1178 | A call takes the request to what it asks for and makes a rethink due if that is news; otherwise it does nothing. |
| DisplayTheorems.LastUnrefEnds | lib-glib/keepalive-displaykeepalive.c:275-287 | After the last reference is gone calls do nothing, and shutdown begins as soon as no callback runs. |
| DisplayTheorems.StopThenDisconnect | lib-glib/keepalive-displaykeepalive.c:275-287 | The bus is released only in shutdown and after the session has been ended. |
| DisplayTheorems.ShutdownComplete | lib-glib/keepalive-displaykeepalive.c:1072-1098 | The shutdown callback leaves every slot empty, the filter removed and the bus released, also if no connection was made. |
| DisplayTheorems.StaysShut | lib-glib/keepalive-displaykeepalive.c:628-643 | After it no step changes the object. |
| DisplayTheorems.StepKeeps | lib-glib/keepalive-displaykeepalive.c:482-1178 | Every handler, and every stretch of one between two unlocks, keeps the invariant behind these. |
| DisplaySettles.Lessens | lib-glib/keepalive-displaykeepalive.c:571-719 | Only requests, changes at MCE and renewals can go on for ever. |
| DisplaySettles.Convergence | lib-glib/keepalive-displaykeepalive.c:571-719 | At rest blanking is prevented, and the last message sent asks for it, exactly when that is requested, MCE really owns its name and really allows it, and the object is connected. |
| DisplaySettles.Converges | lib-glib/keepalive-displaykeepalive.c:1143-1178 | From every reachable state the controller's own steps and the daemon's lead to such a rest. |
| DisplayTold.ToldAtRest | lib-glib/keepalive-displaykeepalive.c:534-549 | At rest the MCE that owns the name now has been told of the session exactly when one runs, and it was not running already when that MCE was heard of, or a message was sent since that MCE took the name. |
| DisplayTold.RenewalTells | lib-glib/keepalive-displaykeepalive.c:502-530 | The next renewal tells it in any case. |
| DisplayTold.NewOwnerUntold | lib-glib/keepalive-displaykeepalive.c:534-549 | A concrete run into a rest where it has not been told. |
| DisplayKeepalive.DisplayKeepalive.constructor | lib-glib/keepalive-displaykeepalive.c:234-269 | A new object is the protocol's initial state, unconnected. |
| DisplayKeepalive.DisplayKeepalive.ApiStart | lib-glib/keepalive-displaykeepalive.c:1143-1161 | The first start connects, and a new request schedules a rethink. |
| DisplayKeepalive.DisplayKeepalive.ApiStop | lib-glib/keepalive-displaykeepalive.c:1163-1178 | Clears the request and schedules a rethink if it was set. |
| DisplayKeepalive.DisplayKeepalive.DbusConnectLocked | lib-glib/keepalive-displaykeepalive.c:1031-1068 | Connects at most once; filter and match rules go before the owner query, which is taken to start. |
| DisplayKeepalive.DisplayKeepalive.SessionIpcLocked | lib-glib/keepalive-displaykeepalive.c:482-498 | Only a running MCE is told. |
| DisplayKeepalive.DisplayKeepalive.SessionStartLocked | lib-glib/keepalive-displaykeepalive.c:534-549 | Timer and one message, or nothing if a session runs. |
| DisplayKeepalive.DisplayKeepalive.SessionStopLocked | lib-glib/keepalive-displaykeepalive.c:553-565 | Ends with the slot empty; a session that ran has CANCEL sent exactly if MCE runs when the timer has been removed, whatever happens meanwhile. |
| DisplayKeepalive.DisplayKeepalive.RethinkNowLocked | lib-glib/keepalive-displaykeepalive.c:571-600 | The session runs afterwards exactly if all conditions held at the decision; it is opened with a message, and ended with CANCEL exactly if MCE runs. |
| DisplayKeepalive.DisplayKeepalive.DelayedRethinkCb | lib-glib/keepalive-displaykeepalive.c:602-626 | The same for the timer callback, with the ending message of the moment it is sent. |
| DisplayKeepalive.DisplayKeepalive.SessionRenewCb | lib-glib/keepalive-displaykeepalive.c:502-530 | Keeps the timer exactly outside shutdown, and renews exactly if MCE runs. |
| DisplayKeepalive.DisplayKeepalive.PreventmodeUpdateLocked | lib-glib/keepalive-displaykeepalive.c:704-719 | The mode is set and its query cancelled; a change schedules a rethink, though the mutex is dropped in between. |
| DisplayKeepalive.DisplayKeepalive.PreventmodeQueryCancelLocked | lib-glib/keepalive-displaykeepalive.c:837-842 | Empties the slot and leaves the rest of the update as it was to be. |
| DisplayKeepalive.DisplayKeepalive.OwnerQueryCancelLocked | lib-glib/keepalive-displaykeepalive.c:687-692 | Likewise for the owner query. |
| DisplayKeepalive.DisplayKeepalive.OwnerSetLocked | lib-glib/keepalive-displaykeepalive.c:664-685 | A new owner starts a mode query, taken to start; a lost one clears the mode; both schedule a rethink. |
| DisplayKeepalive.DisplayKeepalive.MceOwnerUpdateLocked | lib-glib/keepalive-displaykeepalive.c:664-685 | From the start to the end of an update, across two unlocked stretches. |
| DisplayKeepalive.DisplayKeepalive.NameHeard | lib-glib/keepalive-displaykeepalive.c:878-909 | A name signal is heard exactly through the filter, a reply exactly in its slot; anything else changes no belief. |
| DisplayKeepalive.DisplayKeepalive.ModeHeard | lib-glib/keepalive-displaykeepalive.c:846-876 | A mode signal is heard exactly through the filter. |
| DisplayKeepalive.DisplayKeepalive.ModeAnswered | lib-glib/keepalive-displaykeepalive.c:788-816 | A mode reply counts only for the call in the slot, and an error reply changes no mode. |
| DisplayKeepalive.DisplayKeepalive.Dispatched | lib-glib/keepalive-displaykeepalive.c:932-975 | Each message has its full effect by the end of its handler, and a change schedules a rethink. |
| DisplayKeepalive.DisplayKeepalive.DbusDisconnectLocked | lib-glib/keepalive-displaykeepalive.c:1072-1098 | Both queries cancelled, filter removed and bus released, if there was a connection. |
| DisplayKeepalive.DisplayKeepalive.ShutdownLockedCb | lib-glib/keepalive-displaykeepalive.c:275-287 | Whatever happens in its four unlocked stretches: a session that ran is ended once, by CANCEL exactly if MCE runs then, and nothing is left. |
| WakeupDelay.SlotDelay | lib-glib/keepalive-backgroundactivity.c:260-278 | A slot is a delay of the normal form: a single point that is a positive multiple of 30 s. |
| WakeupDelay.SlotIsGreatest | lib-glib/keepalive-backgroundactivity.c:260-278 | It is the greatest multiple of 30 s not above what was asked for, or 30 s. |
| WakeupDelay.RangeDelay | lib-glib/keepalive-backgroundactivity.c:286-305 | Any range, but for those whose widening overflows an int, becomes a proper one, 1 <= lo < hi, within int when the input is. |
| WakeupDelay.RangeIsKept | lib-glib/keepalive-backgroundactivity.c:286-305 | A proper range is kept, a lower bound that is not positive becomes 1, and what is then no proper range gets the length of a heartbeat period. |
| WakeupDelay.DelayRoundTrip | lib-glib/keepalive-backgroundactivity.c:868-916 | Setting a delay again from what is read back changes nothing. |
| WakeupDelay.ClampIsIdentity | lib-glib/keepalive-heartbeat.c:729-742 | The heartbeat's own clamp changes none of these delays. |
| WakeupDelay.TimeoutRange | lib-glib/keepalive-timeout.c:186-232 | A timeout of n > 0 ms waits for the least number of seconds that covers n, with 1 s (high priority) or 12 s of slack; a zero one gets [1, 13]. |
| WakeupDelay.TimeoutCoversUnlessWrapped | lib-glib/keepalive-timeout.c:209-222 | The wait covers the interval exactly for all but the 999 longest intervals. |
| WakeupDelay.SecondsTimeout | lib-glib/keepalive-timeout.c:243-261 | A timeout in seconds waits for that number exactly unless its milliseconds wrap around. |
| Heartbeat.DoKeeps | lib-glib/keepalive-heartbeat.c:429-742 | Every call and callback keeps: a watch exactly with a handle, a retry timer only without, an order at the daemon exactly while waiting; an order made is for the delay set. |
| Heartbeat.WakeupEndsWait | lib-glib/keepalive-heartbeat.c:429-503 | A wakeup delivered ends the wait and only that; without a wait it does nothing. |
| Heartbeat.StartPrograms | lib-glib/keepalive-heartbeat.c:529-559 | A start programs the daemon exactly with an open handle, or if it opens now and no open has failed before. |
| Heartbeat.NeverReconnects | lib-glib/keepalive-heartbeat.c:571-602 | After a failed open no sequence of calls and retries ever gets a handle or an order: the retry callback looks at the wrong id. |
| Heartbeat.LostWakeup | lib-glib/keepalive-heartbeat.c:571-602 | A concrete case: the daemon answers before the first retry and the wakeup is lost all the same. |
| Heartbeat.BrokenNotProgrammed | lib-glib/keepalive-heartbeat.c:504-517 | A connection that breaks and is reopened at once leaves a started heartbeat without an order until the next start. |
| Heartbeat.ForgottenOrder | lib-glib/keepalive-heartbeat.c:504-517 | A concrete case: start, break, reopen, and the wakeup ordered before never comes. |
| Heartbeat.Heartbeat.TryOpenLocked | lib-glib/keepalive-heartbeat.c:608-649 | Handle and watch are set together or not at all. |
| Heartbeat.Heartbeat.OpenLocked | lib-glib/keepalive-heartbeat.c:655-678 | Opens or starts the retry timer; does nothing while the retry slot is filled. |
| Heartbeat.Heartbeat.WakeupScheduleLocked | lib-glib/keepalive-heartbeat.c:529-559 | Orders the wakeup at the delay set, if started, not waiting and connected. |
| Heartbeat.Heartbeat.StartLocked | lib-glib/keepalive-heartbeat.c:720-727 | Started, and programmed if possible. |
| Heartbeat.Heartbeat.StopLocked | lib-glib/keepalive-heartbeat.c:708-718 | Neither started nor waiting, the order withdrawn. |
| Heartbeat.Heartbeat.SetDelayLocked | lib-glib/keepalive-heartbeat.c:729-742 | 1 <= lo <= hi afterwards, hi raised to lo and no further. |
| Heartbeat.Heartbeat.CloseLocked | lib-glib/keepalive-heartbeat.c:684-702 | Everything given back, the order withdrawn. |
| Heartbeat.Heartbeat.WakeupCb | lib-glib/keepalive-heartbeat.c:429-523 | Notifies exactly on data while waiting; reconnects on an error and keeps the started flag; the watch goes on exactly without an error. |
| Heartbeat.Heartbeat.ConnectRetryCb | lib-glib/keepalive-heartbeat.c:571-602 | What the callback does in fact: the timer always goes, no handle comes, and the id stays in the slot. |
| ActivityTheorems.HeartbeatCoupling | lib-glib/keepalive-backgroundactivity.c:683-758 | In every run, outside WAITING the heartbeat is stopped; in WAITING it is started, unless its wakeup is being delivered, with exactly the delays of that wait, and the daemon is asked for exactly these. |
| ActivityTheorems.StateIsTaken | lib-glib/keepalive-backgroundactivity.c:683-758 | In every run a call takes the activity to the state it asks for, from any state: outside WAITING the heartbeat is stopped and no wakeup ordered, entering RUNNING requests the keepalive, and a report is due if the state changed. The same state again, but for a wait with another delay, does nothing. |
| ActivityTheorems.DelayIsTaken | lib-glib/keepalive-backgroundactivity.c:880-916 | A slot is rounded down to a multiple of 30 s, a proper range kept; it is current from then on, and the wait in progress keeps its own. |
| ActivityTheorems.RingIsDelivered | lib-glib/keepalive-heartbeat.c:429-503 | A heartbeat that rings ends its wait and has the activity notified; another changes nothing. |
| ActivityTheorems.ReportIsTaken | lib-glib/keepalive-backgroundactivity.c:607-676 | The report timer is used up; a state that is news is reported, and is followed by the release of the keepalive for all but RUNNING. |
| ActivityTheorems.ConnectionEvents | lib-glib/keepalive-heartbeat.c:504-602 | A broken connection leaves its activity without an order and keeps the started flag; the retry timer runs out; nothing else of the activity changes. |
| ActivityTheorems.ClampIsTheHeartbeats | lib-glib/keepalive-heartbeat.c:729-742 | The heartbeat sets 1 <= lo <= hi and keeps a range that is proper. |
| ActivityTheorems.LastUnrefEnds | lib-glib/keepalive-backgroundactivity.c:409-427 | After the last reference is gone calls do nothing, and the shutdown callback lets go of order, connection, keepalive and report. |
| ActivityTheorems.NoLostReport | lib-glib/keepalive-backgroundactivity.c:607-676 | The state last reported is the current one, or a report is due, or the object is in shutdown. |
| ActivityTheorems.WaitUsesCurrentDelay | lib-glib/keepalive-backgroundactivity.c:683-758 | A wait is for the delay set by then, also from WAITING, and is ordered from the daemon exactly if that can be reached; a wait for the same delay changes nothing. |
| ActivityTheorems.WakeupRuns | lib-glib/keepalive-backgroundactivity.c:794-805 | A wakeup makes a waiting activity run, with keepalive and report under way and the heartbeat stopped, and leaves any other alone. |
| ActivityTheorems.RunningIsAwake | lib-glib/keepalive-backgroundactivity.c:607-758 | A RUNNING activity has its keepalive requested in every run in which RUNNING is not entered while the callback of another state executes. |
| ActivityTheorems.OvertakenRunLosesKeepalive | lib-glib/keepalive-backgroundactivity.c:669-672 | Exactly then it is lost: the end of such a callback takes the keepalive from an activity that runs by then. |
| ActivityTheorems.OvertakenRun | lib-glib/keepalive-backgroundactivity.c:669-672 | A concrete case: a wait is reported and its callback starts a run. |
| ActivityTheorems.IdleIsReleased | lib-glib/keepalive-backgroundactivity.c:607-676 | An activity that is not RUNNING keeps the CPU awake only until its report, in every run in which each report finds a changed state. |
| ActivityTheorems.CoalescedStopKeepsKeepalive | lib-glib/keepalive-backgroundactivity.c:633-634 | A report releases the keepalive exactly if the state it finds differs from the one last reported. |
| ActivityTheorems.ForgottenKeepalive | lib-glib/keepalive-backgroundactivity.c:633-634 | A concrete case: run and stop at once, and the keepalive stays requested with nothing left to do. |
| ActivityProtocol.StepKeeps | lib-glib/keepalive-backgroundactivity.c:607-805 | Every call and callback keeps the coupling and the reporting invariant. |
| BackgroundActivity.BackgroundActivity.constructor | lib-glib/keepalive-backgroundactivity.c:359-403 | Stopped, with the default delays, a new heartbeat and no request. |
| BackgroundActivity.BackgroundActivity.SetWakeupSlot | lib-glib/keepalive-backgroundactivity.c:880-889 | Sets the current delay only; the wait in progress keeps its own. |
| BackgroundActivity.BackgroundActivity.SetWakeupRange | lib-glib/keepalive-backgroundactivity.c:907-916 | Likewise for a range. |
| BackgroundActivity.BackgroundActivity.SetStateLocked | lib-glib/keepalive-backgroundactivity.c:683-758 | The state is the one asked for; WAITING left stops the heartbeat and entered starts it, RUNNING entered requests the keepalive, and a change schedules at most one report. Nothing for the same state with the same delay, or in shutdown. |
| BackgroundActivity.BackgroundActivity.LeaveAndEnter | lib-glib/keepalive-backgroundactivity.c:706-742 | The heartbeat stops on leaving WAITING and starts with the current delay on entering it; the keepalive is requested on entering RUNNING. |
| BackgroundActivity.BackgroundActivity.HeartbeatWakeupCb | lib-glib/keepalive-backgroundactivity.c:794-805 | A wakeup turns WAITING into RUNNING and nothing else. |
| BackgroundActivity.BackgroundActivity.ReportStateCb | lib-glib/keepalive-backgroundactivity.c:607-676 | Reports exactly a changed state, once, without the mutex; the keepalive goes only after the callback, whatever is called during it. |
| BackgroundActivity.BackgroundActivity.ShutdownLockedCb | lib-glib/keepalive-backgroundactivity.c:409-427 | Heartbeat, keepalive and report timer are let go. |
| KeepaliveTimeout.AwakeAtDispatch | lib-glib/keepalive-timeout.c:109-180 | At every dispatch of a user function, and from its being due, the activity is RUNNING and its CPU keepalive requested. |
| KeepaliveTimeout.DaemonIsAskedForInterval | lib-glib/keepalive-timeout.c:186-232 | Through all four layers the daemon is asked for the least number of seconds that covers the interval, with the slack of its priority. |
| KeepaliveTimeout.ReturnTakesEffect | lib-glib/keepalive-timeout.c:109-126 | A function that asks to be called again gets another wait, ordered exactly if the daemon can be reached; one that does not leaves the activity stopped. |
| KeepaliveTimeout.DestroyedStops | lib-glib/keepalive-timeout.c:129-180 | A source that is destroyed is due no more, and the next report of a run stops its activity with no wakeup ordered. |
| KeepaliveTimeout.WakeupLostIff | lib-glib/keepalive-backgroundactivity.c:633-634 | A wakeup is not reported, and the timeout lost, exactly if the state last reported is still RUNNING. |
| KeepaliveTimeout.StaysStuck | lib-glib/keepalive-timeout.c:84-126 | Then no event short of destroying the source ever makes it due again, and the keepalive stays requested. |
| KeepaliveTimeout.LostTimeout | lib-glib/keepalive-timeout.c:109-126 | A concrete run of a repeating timeout into that state, for any interval. |
| KeepaliveTimeout.TurnKeeps | lib-glib/keepalive-timeout.c:84-180 | Every turn of the main loop keeps the invariant behind these. |
| TimeoutSource.TimeoutSource.constructor | lib-glib/keepalive-timeout.c:186-232 | A new source has its private activity waiting for the range of its interval. |
| TimeoutSource.TimeoutSource.CheckCb | lib-glib/keepalive-timeout.c:84-106 | Due exactly when triggered, and then awake. |
| TimeoutSource.TimeoutSource.DispatchBegins | lib-glib/keepalive-timeout.c:109-116 | The user's function is called with the activity RUNNING and the keepalive requested. |
| TimeoutSource.TimeoutSource.DispatchEnds | lib-glib/keepalive-timeout.c:116-126 | Waits again or stops, as the function says, and is no longer due. |
| TimeoutSource.TimeoutSource.ReportCb | lib-glib/keepalive-timeout.c:159-180 | RUNNING being reported makes the source due, and stops an activity whose source is gone. |
| TimeoutSource.TimeoutSource.FinalizeCb | lib-glib/keepalive-timeout.c:129-144 | The callback is taken away and the activity released. |
| QtHeartbeat.CallsKeep | lib/heartbeat.cpp:64-280 | Every call and event keeps: a waiting heartbeat is started and holds an open handle with no retry timer active; the daemon has an order exactly then. |
| QtHeartbeat.WakeupEndsWait | lib/heartbeat.cpp:208-253 | A wakeup delivered ends the wait and only that; without a wait it does nothing. |
| QtHeartbeat.StartOrders | lib/heartbeat.cpp:164-206 | A start orders exactly the interval set, if it is proper and the daemon can be reached, and else leaves it to the retry timer. |
| QtHeartbeat.RetryOrders | lib/heartbeat.cpp:115-124 | The retry timer stops exactly when the daemon is reached, and a started heartbeat then has its order. |
| QtHeartbeat.BrokenOrders | lib/heartbeat.cpp:256-269 | After a broken connection a started heartbeat has an order or a retry timer exactly if the daemon could not be reached at once. |
| QtHeartbeat.Heartbeat.TryToConnect | lib/heartbeat.cpp:64-97 | Handle and notifier are set together or not at all. |
| QtHeartbeat.Heartbeat.StartConnecting | lib/heartbeat.cpp:126-136 | Connects or starts the retry timer. |
| QtHeartbeat.Heartbeat.CloseConnection | lib/heartbeat.cpp:99-113 | Everything given back, the order withdrawn. |
| QtHeartbeat.Heartbeat.Rearm | lib/heartbeat.cpp:171-206 | Orders the interval if started, not waiting, proper and connected. |
| QtHeartbeat.Heartbeat.StartWaiting | lib/heartbeat.cpp:138-169 | Sets the interval and starts. |
| QtHeartbeat.Heartbeat.StopWaiting | lib/heartbeat.cpp:272-280 | Neither started nor waiting, the order withdrawn. |
| QtHeartbeat.Heartbeat.Retry | lib/heartbeat.cpp:115-124 | Keeps the timer until the daemon is reached. |
| QtHeartbeat.Heartbeat.Wakeup | lib/heartbeat.cpp:208-270 | The timeout signal goes out exactly on data while waiting; an error reconnects and keeps the started flag. |
| QtActivity.AlwaysSound | lib/backgroundactivity_p.cpp:203-272 | For every sequence of calls and events and every reaction of the slots, at rest and at every state signal: the keepalive timer is active, with the current period, exactly in Running, the heartbeat started exactly in Waiting, one that waits can ring, and MCE has last been told START or a renewal exactly in Running. |
| QtActivity.ActKeeps | lib/backgroundactivity_p.cpp:203-272 | The same for one call of setState with arbitrarily nested ones from its signals. |
| QtActivity.StepKeeps | lib/backgroundactivity_p.cpp:141-172 | The period reply, the renewals, the wakeup and the retry timer keep it too. |
| QtActivity.PlainTransition | lib/backgroundactivity_p.cpp:203-272 | Undisturbed, a transition reaches its state and announces it once. |
| QtActivity.PeriodIsTaken | lib/backgroundactivity_p.cpp:141-172 | In every run a reply sets the period; if it is a new one, an active session is renewed once and re-timed at once and no other is touched, and a run that follows has the new period. |
| QtActivity.RenewalIsSent | lib/backgroundactivity_p.cpp:109-114 | The renew timer sends one message while Running and changes nothing else. |
| QtActivity.WakeupRuns | lib/backgroundactivity.cpp:38-46 | A wakeup of a waiting activity makes it run, with START sent and the timer at the current period; any other changes nothing. |
| QtActivity.ConnectionEvents | lib/heartbeat.cpp:115-124 | The retry timer stops exactly when the daemon is reached, and a waiting activity then has its order; a broken connection reconnects or retries; nothing else of the activity changes. |
| QtActivity.OvertakenRun | lib/backgroundactivity_p.cpp:257-271 | A slot of stateChanged that stops a run overtakes it: running is never emitted, stopped twice. |
| QtActivity.WaitOrders | lib/backgroundactivity_p.cpp:287-320 | After setWakeup a wait orders the wakeup at that frequency or range, widened if it was the wrong way round, or leaves it to the retry timer, never both. |
| QtActivity.WakeupIsSet | lib/backgroundactivity_p.cpp:287-320 | A frequency clears the range and a range the frequency; a range the wrong way round is widened by 12 s; nothing else changes. |
| QtBackgroundActivity.BackgroundActivity.constructor | lib/backgroundactivity_p.cpp:57-82 | Stopped, no wakeup set, a period of 60 s and nothing active. |
| QtBackgroundActivity.BackgroundActivity.StartKeepalivePeriod | lib/backgroundactivity_p.cpp:95-107 | START and a timer with the current period, in Running only. |
| QtBackgroundActivity.BackgroundActivity.StopKeepalivePeriod | lib/backgroundactivity_p.cpp:116-122 | STOP, and no timer. |
| QtBackgroundActivity.BackgroundActivity.EmitSignal | lib/backgroundactivity_p.cpp:257-271 | No signal goes out unless state, timer and heartbeat agree. |
| QtBackgroundActivity.BackgroundActivity.Transition | lib/backgroundactivity_p.cpp:203-255 | The change of state up to its signals, the heartbeat before the end of the keepalive period. |
| QtBackgroundActivity.BackgroundActivity.SetTo | lib/backgroundactivity_p.cpp:203-272 | setState with its signals and whatever the slots do, against the recursive specification. |
| QtBackgroundActivity.BackgroundActivity.ChangeWakeup | lib/backgroundactivity_p.cpp:287-320 | A frequency clears the range; a range the wrong way round is widened by 12 s. |
| QtBackgroundActivity.BackgroundActivity.HeartbeatWakeup | lib/backgroundactivity.cpp:38-46 | The heartbeat's timeout runs the activity. |
| QtBackgroundActivity.BackgroundActivity.KeepalivePeriodReply | lib/backgroundactivity_p.cpp:141-172 | The period is the reply's afterwards; a new one renews an active session once and re-times it, and only that. |
| QtBackgroundActivity.BackgroundActivity.RenewKeepalivePeriod | lib/backgroundactivity_p.cpp:109-114 | One renewal while Running. |
| DisplayBlanking.AlwaysShared | lib/displayblanking_p.cpp:113-254 | Over any number of clients created, toggled and destroyed in any order, as long as no client that matters is made to prevent blanking again in its destructor: an instance exactly while there are clients, its count theirs, its set exactly the preventing ones, its timer active exactly when prevention is allowed and the set not empty, and MCE told so. The first step that breaks the condition breaks this. |
| DisplayBlanking.DeletedAtRest | lib/displayblanking_p.cpp:185-195 | In such a history no other client prevents blanking when the instance is deleted, and the last pause has been cancelled. |
| DisplayBlanking.ModeIsFollowed | lib/displayblanking_p.cpp:126-142 | In such a history a prevent mode that arrives is followed at once: timer and last message prevent blanking exactly if it allows that and some client wants it. |
| DisplayBlanking.RenewalIsSent | lib/displayblanking_p.cpp:102-105 | A pause in force is renewed with one message; otherwise nothing is sent. |
| DisplayBlanking.ClientsComeAndGo | lib/displayblanking_p.cpp:213-232 | Clients come and go one at a time, and a destructor takes the prevention back first. |
| DisplayBlanking.DeletedKeepsIff | lib/displayblanking_p.cpp:224-232 | A destructor keeps this exactly if its client does not prevent blanking when it lets go, or is the last one with no pause in force. |
| DisplayBlanking.EnabledInDestructor | lib/displayblanking_p.cpp:224-254 | A concrete history with two clients: a handler re-enables the one being destroyed, and the pause goes on with no client wanting it. |
| DisplayBlanking.PreventedKeeps | lib/displayblanking_p.cpp:244-254 | A toggle keeps it, and changes the set by exactly that client. |
| DisplayBlanking.ModedKeeps | lib/displayblanking_p.cpp:126-132 | A change of the prevent mode keeps it. |
| DisplayBlanking.CreatedKeeps | lib/displayblanking_p.cpp:174-183 | A new client keeps it. |
| DisplayBlanking.Singleton.EvaluateKeepalive | lib/displayblanking_p.cpp:95-124 | The timer follows the wish, and MCE is told exactly on a change. |
| DisplayBlanking.Singleton.UpdatePreventMode | lib/displayblanking_p.cpp:126-132 | Evaluates exactly on a change. |
| DisplayBlanking.Singleton.Attach | lib/displayblanking_p.cpp:197-207 | The set gains or loses exactly that client. |
| DisplayBlanking.Process.GetInstance | lib/displayblanking_p.cpp:174-183 | One instance for all, counted. |
| DisplayBlanking.Process.NewClient | lib/displayblanking_p.cpp:213-222 | A fresh client that does not prevent blanking; the others are as before. |
| DisplayBlanking.Process.SetPreventBlanking | lib/displayblanking_p.cpp:244-254 | The flag, the set, the timer and the message agree, over the heap of all clients, for one being destroyed too. |
| DisplayBlanking.Process.BeginDelete | lib/displayblanking_p.cpp:224-226 | The destructor takes the prevention back first. |
| DisplayBlanking.Process.EndDelete | lib/displayblanking_p.cpp:185-195 | The heap of clients is left in order exactly if the client is harmless; then the last one deletes the instance with no pause in force. |
| DisplayBlanking.Process.PreventModeChanged | lib/displayblanking_p.cpp:134-142 | A reply or signal reaches the one instance. |
| QmlJob.EnabledIffNotStopped | plugin/declarativebackgroundactivity.cpp:327-377 | For every sequence of writes, calls, timer events and wakeups, whatever the handlers do: once complete and with no update pending the job is enabled exactly if its activity is not Stopped, and has passed on its settings unless an update was cancelled. |
| QmlJob.RunningIsKept | plugin/declarativebackgroundactivity.cpp:327-349 | Running is left as often as it is entered, but for the run in progress, only by finished() or by an update that sees the job disabled; triggered is emitted once for each entry. |
| QmlJob.WakeupRunsJob | plugin/declarativebackgroundactivity.cpp:360-371 | In every run a waiting job runs when its heartbeat rings: Running is entered and triggered emitted whatever the handlers do, and undisturbed it is left running with its settings unchanged; a job that does not wait is left alone. |
| QmlJob.EnablingTakesEffect | plugin/declarativebackgroundactivity.cpp:235-349 | With the next update an enabled job runs at once if triggeredOnEnable asks for it, and else waits, with its settings passed on; a running one goes on, and a disabled one stops. |
| QmlJob.WriteIsRead | plugin/declarativebackgroundactivity.cpp:216-289 | A property reads what was written to it and no other changes; a write that changes it leaves an update pending, whatever its handlers do, and one that does not does nothing. |
| QmlJob.RunningIsNotified | plugin/declarativebackgroundactivity.cpp:360-371 | Bindings to running are up to date at rest, if no handler of the runningChanged for entering Running finishes the job. |
| QmlJob.StaleBinding | plugin/declarativebackgroundactivity.cpp:360-371 | If one does, the job no longer runs and nobody is told. |
| QmlJob.StaleRun | plugin/declarativebackgroundactivity.cpp:360-371 | A concrete run: a job is enabled, waits, is begun, and finished by the handler. |
| QmlJob.StepSound | plugin/declarativebackgroundactivity.cpp:216-377 | Every event keeps the invariant behind these. |
| QmlBackgroundJob.BackgroundJob.constructor | plugin/declarativebackgroundactivity.cpp:208-214 | One hour, disabled, incomplete, stopped. |
| QmlBackgroundJob.BackgroundJob.Write | plugin/declarativebackgroundactivity.cpp:216-289 | A changed property is signalled first and schedules an update after; an unchanged one does neither. |
| QmlBackgroundJob.BackgroundJob.BeginJob | plugin/declarativebackgroundactivity.cpp:296-303 | Ignored unless complete and enabled; drops a pending update and runs. |
| QmlBackgroundJob.BackgroundJob.FinishJob | plugin/declarativebackgroundactivity.cpp:305-312 | Likewise, and waits. |
| QmlBackgroundJob.BackgroundJob.AnnounceRunning | plugin/declarativebackgroundactivity.cpp:360-365 | triggered, then runningChanged, on having entered Running. |
| QmlBackgroundJob.BackgroundJob.AnnounceLeft | plugin/declarativebackgroundactivity.cpp:367-370 | runningChanged on having left it, and the state remembered after the handlers. |
| QmlBackgroundJob.BackgroundJob.UpdateActivity | plugin/declarativebackgroundactivity.cpp:327-349 | Stops a disabled job; passes the settings on and starts an enabled one that does not run. |
| QmlBackgroundJob.BackgroundJob.OnTimer | plugin/declarativebackgroundactivity.cpp:314-325 | The timer is stopped, then the update made. |
| QmlBackgroundJob.BackgroundJob.ComponentComplete | plugin/declarativebackgroundactivity.cpp:373-377 | Complete, and up to date at once. |
| QmlBackgroundJob.BackgroundJob.OnWakeup | lib/backgroundactivity.cpp:38-46 | A waiting job enters Running and emits triggered, whatever the handlers do, and undisturbed it is running afterwards. |

## Left out

- D-Bus marshalling and message parsing, `libiphb` sockets, GLib and Qt internals, logging, statistics, memory tags and the command-line tool: foreign code or I/O. A message that cannot be parsed is one that is not delivered.
- The daemon's treatment of a lost system bus connection, and the messages dropped with it.
- Several main-loop threads for one object: the code assumes there is one.
- ObjectTheorems.Reclaimed: takes it that the schedule comes to dispatch the shutdown source; a periodic timer can keep an unfair main loop busy for ever.
- ObjectTheorems.NothingNewInShutdown: leaves out pending calls whose start was begun before shutdown, which the object does not refuse; the query starters of the derived objects do, and the CPU and display controllers are shown to start none.
- KeepaliveObject.KeepaliveObject.CancelLoop: promises nothing when another activity has the mutex to the end of the steps given.
- BusLink.ConnectedTracks: leaves out a query that cannot be started, after which the code waits for a signal; CpuKeepalive.CpuKeepalive.ConnectedCb, DisplayKeepalive.DisplayKeepalive.DbusConnectLocked and DisplayKeepalive.DisplayKeepalive.OwnerSetLocked likewise.
- CpuKeepalive.CpuKeepalive.RenewPeriodReplyCb: replies whose milliseconds overflow an int are not considered.
- WakeupDelay.RangeDelay: lower bounds within 12 of INT_MAX with no larger upper bound, for which the C addition overflows, are excluded; BackgroundActivity.BackgroundActivity.SetWakeupRange likewise.
- CpuSettles.Convergence: says nothing of a connection whose message filter could not be added for lack of memory, as the code does not follow the name then.
- DisplaySettles.Convergence: the same.
- QmlJob.RunningIsNotified: one direction; whether a finishing handler leaves bindings stale depends on what later handlers do.
- The connection of one object's protocol to the next is by their functions only: the CPU controller appears in the activity as a request in force, the activity in the QML job as its state.
- The shutdown of a heartbeat apart from its activity, and heartbeats used without one, beyond the sequences of calls in `Heartbeat`.
- QtBackgroundActivity.BackgroundActivity.ChangeWakeup: leaves out the wakeup signals of `setWakeup`, whose handlers act as calls made after it.
- The display status, which is read and passed on only.
- In the classes the fields that belong to the connection (`link`, `view`) are values of one datatype each rather than single fields, which keeps the proofs of their handlers short.
- Wall-clock time, jitter and the daemon's scheduling of wakeups.
- `DeclarativeKeepAlive` and the plain getters, which keep no state of their own.
