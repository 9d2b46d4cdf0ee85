/** The lifetime protocol of `keepalive_object_t` (lib-glib/keepalive-object.c) as a
    state machine over its steps.

    A step is the stretch of code between two points where the object's mutex is taken
    or dropped, so a run is an arbitrary interleaving of any number of API calls, one
    main loop and any number of destroy notifications.  An event that is not enabled
    leaves the state alone; every sequence of events is therefore a run.

    What is assumed of GLib, libdbus, the callers and the derived objects is what `Enabled`
    demands.  An API caller holds an external reference of its own, save that it may be
    dropped by another thread while the call waits inside a start function.  Callbacks are
    dispatched by one main loop; where a callback flushes the bus, replies and signals are
    dispatched inside it.  A destroy notification runs once, not during the source's own
    callback, and takes the lock itself.

    Of a derived object: its shutdown callback empties every slot, removes the bus filter
    and starts nothing; a callback clears no slot but the one with its own id, and a reply
    callback does clear that; a timer or watch callback asks to go on only if its id is still
    somewhere or its source already removed, and not in shutdown; no pending call is begun in shutdown; and a flush delivers
    finitely many messages, whose handlers come back.
 */
module ObjectProtocol {

  datatype Option<+T> = None | Some(value: T)

  /** An activity is one thread's stay in the object: an API call, a callback or a
      destroy notification. */
  type Tid = nat
  /** A GLib source or a D-Bus pending call; ids are never used twice, 0 is "none". */
  type Sid = nat
  /** Where a derived object keeps a source id; an absent slot is an empty one. */
  type Slot = nat

  datatype Kind = Timer | IoWatch | Call

  /** What a cancel loop is part of: `timer_stop` and its kin, or a start function that
      goes on to create a source. */
  datatype After = Stop | Start(kind: Kind)

  datatype Phase =
    | Live
    | Dispatching(runner: Tid, removed: bool)
    | Awaiting                // removed or finished, destroy notification still to come
    | Notifying(runner: Tid)      // destroy notification running, reference not yet dropped

  datatype Role =
    | Api                     // caller's reference covers the call
    | Orphan                  // call whose reference was dropped while its start waited
    | Leaving                 // unref call that has given up its reference
    | Dispatch(id: Sid)
    | Heard                   // bus filter callback; it has no reference, only the object's address
    | Notify(id: Sid)
    | Notified                // notification that has dropped its internal reference

  datatype Pc =
    | Enter                                          // wants the lock
    | Held                                           // has the lock
    | Loop(slot: Slot, after: After)                 // has the lock, top of a cancel loop
    | Cancelling(slot: Slot, id: Sid, after: After)  // unlocked, id taken out of the slot
    | Relock(slot: Slot, after: After)               // id removed, wants the lock back
    | Window                                         // unlocked around a bus flush
    | Out                                            // lock dropped for the last time

  /** `doomed`: the unlock saw both counts at zero, the delete callback is next. */
  datatype Act = Act(role: Role, pc: Pc, doomed: bool)

  /** Instructions of a shutdown callback. */
  datatype Op = CancelSlot(slot: Slot) | FlushBus | DropFilter

  datatype Kao = Kao(
    // the object's own memory
    ext: nat, internal: nat, inShutdown: bool, shutdownId: Sid, slots: map<Slot, Sid>, filter: bool,
    // the mutex, the activities and the sources around it
    owned: set<Slot>, lock: Option<Tid>, acts: map<Tid, Act>,
    main: seq<Tid>,  // callbacks of the main loop, each but the last waiting in a flush
    sources: map<Sid, Phase>, calls: set<Sid>, nextId: Sid,  // calls: the pending calls among them
    budget: nat,  // what handlers may still begin in shutdown
    shutdownSrc: Sid, todo: seq<Op>,  // the shutdown source, and what its callback has yet to do
    log: Log)

  /** Bookkeeping the theorems speak about. */
  datatype Log = Log(shutdownRuns: nat, shutdownReturned: bool, deletes: nat, aborted: bool, touchedDead: bool)

  datatype Event =
    | CallApi(t: Tid)
    | Desert(t: Tid)
    | DispatchSource(t: Tid, id: Sid)
    | HearSignal(t: Tid)
    | RunNotify(t: Tid, id: Sid)
    | Acquire(t: Tid)
    | RefExternal(t: Tid)
    | UnrefExternal(t: Tid)
    | UnrefInternal(t: Tid)
    | BeginCancel(t: Tid, slot: Slot, after: After)
    | LoopStep(t: Tid, ok: bool)
    | RemoveSource(t: Tid)
    | OpenWindow(t: Tid)
    | SkipFlush(t: Tid)
    | RemoveFilter(t: Tid)
    | InstallFilter(t: Tid)
    | ClearOwn(t: Tid, slot: Slot)
    | BeginShutdown(t: Tid, script: seq<Op>, budget: nat)
    | Release(t: Tid)
    | Destroy(t: Tid)
    | Return(t: Tid, keep: bool)

  // ---------------------------------------------------------------- the steps

  /** A new object: one external reference and nothing else. */
  function Init(owned: set<Slot>): Kao {
    Kao(1, 0, false, 0, map[], false, owned, None, map[], [], map[], {}, 1, 0, 0, [], Log(0, false, 0, false, false))
  }

  predicate HoldsLock(pc: Pc) { pc.Held? || pc.Loop? }

  /** Inside a start function: a transient internal reference is held. */
  predicate Starting(pc: Pc) { (pc.Loop? || pc.Cancelling? || pc.Relock?) && pc.after.Start? }

  /** Run by the main loop. */
  predicate OnMain(role: Role) { role.Dispatch? || role.Heard? }

  /** The innermost callback of the main loop. */
  predicate Top(s: Kao, t: Tid) { s.main != [] && s.main[|s.main| - 1] == t }

  /** The innermost callback is flushing the bus. */
  predicate Flushing(s: Kao) {
    s.main != [] && s.main[|s.main| - 1] in s.acts && s.acts[s.main[|s.main| - 1]].pc.Window?
  }

  function Borrowers(s: Kao): set<Tid> { set t | t in s.acts && s.acts[t].role.Api? }

  function Starters(s: Kao): set<Tid> { set t | t in s.acts && Starting(s.acts[t].pc) }

  predicate InSlot(s: Kao, id: Sid) { exists slot | slot in s.slots :: s.slots[slot] == id }

  /** Someone still answers for removing the source: a slot or a cancel loop has its id. */
  predicate Tracked(s: Kao, id: Sid) {
    || InSlot(s, id)
    || (exists t | t in s.acts :: s.acts[t].pc.Cancelling? && s.acts[t].pc.id == id)
  }

  predicate Covers(script: seq<Op>, owned: set<Slot>) {
    DropFilter in script && forall slot | slot in owned :: CancelSlot(slot) in script
  }

  predicate At(s: Kao, t: Tid) { t in s.acts && !s.acts[t].doomed }

  predicate AtHeld(s: Kao, t: Tid) { At(s, t) && s.acts[t].pc.Held? && s.lock == Some(t) }

  /** The activity runs the scheduled shutdown source. */
  predicate InScript(s: Kao, t: Tid) { t in s.acts && s.acts[t].role == Dispatch(s.shutdownSrc) }

  /** An API call or an ordinary callback, which may use the object freely. */
  predicate Free(s: Kao, t: Tid) {
    AtHeld(s, t) && (s.acts[t].role.Api? || (OnMain(s.acts[t].role) && !InScript(s, t)))
  }

  predicate Scripted(s: Kao, t: Tid, op: Op) {
    AtHeld(s, t) && InScript(s, t) && s.inShutdown && s.todo != [] && s.todo[0] == op
  }

  /** In shutdown the handlers' work is finite. */
  predicate MayBegin(s: Kao) { s.inShutdown ==> s.budget > 0 }

  function Spent(s: Kao, t: Tid): nat {
    if s.inShutdown && !InScript(s, t) && s.budget > 0 then s.budget - 1 else s.budget
  }

  /** Shutdown is never undone, an object's slots are fixed, and ids are not reused. */
  predicate Lasting(s: Kao, s': Kao) {
    (s.inShutdown ==> s'.inShutdown) && s'.owned == s.owned && s.nextId <= s'.nextId && s.calls <= s'.calls
  }

  /** A step that is none of the main loop's or the shutdown callback's. */
  predicate SameScript(s: Kao, s': Kao) {
    && s'.main == s.main && s'.filter == s.filter && s'.todo == s.todo && s'.budget == s.budget
    && s'.inShutdown == s.inShutdown && s'.shutdownSrc == s.shutdownSrc
    && s'.log.shutdownReturned == s.log.shutdownReturned
  }

  function SetPc(s: Kao, t: Tid, pc: Pc): Kao
    requires t in s.acts
  {
    s.(acts := s.acts[t := s.acts[t].(pc := pc)])
  }

  // An API call starts: the caller has an external reference of its own.
  predicate CanCallApi(s: Kao, t: Tid) { t !in s.acts && |Borrowers(s)| < s.ext }

  function DoCallApi(s: Kao, t: Tid): Kao {
    s.(acts := s.acts[t := Act(Api, Enter, false)])
  }

  // Another thread gives up the reference that a call waiting in a start function relied on.
  predicate CanDesert(s: Kao, t: Tid) {
    At(s, t) && s.acts[t].role.Api? && Starting(s.acts[t].pc) && !s.acts[t].pc.Loop?
  }

  function DoDesert(s: Kao, t: Tid): Kao
    requires t in s.acts
  {
    s.(acts := s.acts[t := s.acts[t].(role := Orphan)])
  }

  // The main loop dispatches a source's callback; inside a flush, only the reply to a call.
  predicate CanDispatch(s: Kao, t: Tid, id: Sid) {
    && t !in s.acts && id in s.sources && s.sources[id].Live?
    && (s.main == [] || (Flushing(s) && id in s.calls))
  }

  function DoDispatch(s: Kao, t: Tid, id: Sid): Kao {
    s.(acts := s.acts[t := Act(Dispatch(id), Enter, false)], main := s.main + [t],
       sources := s.sources[id := Dispatching(t, false)])
  }

  // A signal reaches the bus filter.
  predicate CanHear(s: Kao, t: Tid) {
    t !in s.acts && s.filter && (s.main == [] || Flushing(s)) && MayBegin(s)
  }

  function DoHear(s: Kao, t: Tid): Kao {
    var budget := if s.inShutdown && s.budget > 0 then s.budget - 1 else s.budget;
    s.(acts := s.acts[t := Act(Heard, Enter, false)], main := s.main + [t], budget := budget)
  }

  // A removed or finished source's destroy notification starts on some thread.
  predicate CanNotify(s: Kao, t: Tid, id: Sid) {
    t !in s.acts && id in s.sources && s.sources[id].Awaiting?
  }

  function DoNotify(s: Kao, t: Tid, id: Sid): Kao {
    s.(acts := s.acts[t := Act(Notify(id), Enter, false)], sources := s.sources[id := Notifying(t)])
  }

  // `keepalive_object_lock`
  predicate CanAcquire(s: Kao, t: Tid) {
    && At(s, t) && s.lock.None? && (s.acts[t].pc.Enter? || s.acts[t].pc.Relock? || s.acts[t].pc.Window?)
    && (OnMain(s.acts[t].role) ==> Top(s, t))
  }

  function DoAcquire(s: Kao, t: Tid): Kao
    requires t in s.acts
  {
    var pc := s.acts[t].pc;
    var next := if pc.Relock? then Loop(pc.slot, pc.after) else Held;
    s.(lock := Some(t), acts := s.acts[t := s.acts[t].(pc := next)])
  }

  /** `keepalive_object_unlock`: the decision to delete is made before the lock goes. */
  function Unlock(s: Kao, t: Tid, next: Pc): Kao
    requires t in s.acts
  {
    s.(lock := None,
       acts := s.acts[t := s.acts[t].(pc := next, doomed := s.ext == 0 && s.internal == 0)])
  }

  predicate IsApi(s: Kao, t: Tid) { AtHeld(s, t) && s.acts[t].role.Api? }

  function Aborted(s: Kao): Kao {
    var log := s.log.(aborted := true);
    s.(log := log)
  }

  /** `keepalive_object_ref_external_locked` */
  function AddExternal(s: Kao): (s': Kao)
    ensures Lasting(s, s') && SameScript(s, s')
  {
    if s.ext <= 0 then Aborted(s) else s.(ext := s.ext + 1)
  }

  /** `keepalive_object_ref_internal_locked` */
  function AddInternal(s: Kao): (s': Kao)
    ensures Lasting(s, s') && SameScript(s, s')
  {
    var bad := s.ext <= 0 && s.internal <= 0;
    if bad then Aborted(s) else s.(internal := s.internal + 1)
  }

  /** `keepalive_object_unref_internal_locked` */
  function DropInternal(s: Kao): (s': Kao)
    ensures Lasting(s, s') && SameScript(s, s')
  {
    var bad := s.internal <= 0;
    if bad then Aborted(s) else s.(internal := s.internal - 1)
  }

  /** `keepalive_object_shutdown_locked`; its own slot is empty, so the timer start has
      no cancel loop to run. */
  function ScheduleShutdown(s: Kao): (s': Kao)
    ensures Lasting(s, s')
  {
    if s.inShutdown || s.shutdownId != 0 then s
    else if s.ext <= 0 && s.internal <= 0 then Aborted(s)
    else s.(internal := s.internal + 1, shutdownId := s.nextId, shutdownSrc := s.nextId,
            sources := s.sources[s.nextId := Live], nextId := s.nextId + 1)
  }

  /** `keepalive_object_unref_external_locked` */
  function DropExternal(s: Kao): (s': Kao)
    ensures Lasting(s, s')
  {
    if s.ext <= 0 then Aborted(s)
    else if s.ext == 1 then ScheduleShutdown(s).(ext := 0)
    else s.(ext := s.ext - 1)
  }

  function DoUnrefExternal(s: Kao, t: Tid): (s': Kao)
    requires t in s.acts
    ensures Lasting(s, s')
  {
    var acts := s.acts[t := s.acts[t].(role := Leaving)];
    DropExternal(s.(acts := acts))
  }

  // `keepalive_object_unref_internal_cb`, between its lock and its unlock
  predicate CanUnrefInternal(s: Kao, t: Tid) { AtHeld(s, t) && s.acts[t].role.Notify? }

  function DoUnrefInternal(s: Kao, t: Tid): (s': Kao)
    requires t in s.acts && s.acts[t].role.Notify?
    ensures Lasting(s, s') && SameScript(s, s')
  {
    var acts, sources := s.acts[t := s.acts[t].(role := Notified)], s.sources - {s.acts[t].role.id};
    DropInternal(s.(acts := acts, sources := sources))
  }

  // A start or stop function reaches its cancel loop.
  predicate CanBeginCancel(s: Kao, t: Tid, slot: Slot, after: After) {
    && slot in s.owned
    && ((Free(s, t) && MayBegin(s) && (s.inShutdown ==> after != Start(Call)))
        || (after.Stop? && Scripted(s, t, CancelSlot(slot))))
  }

  /** The shutdown callback's instructions after its next one, if it is the one at work. */
  function Popped(s: Kao, t: Tid): seq<Op> {
    if InScript(s, t) && s.todo != [] then s.todo[1..] else s.todo
  }

  function DoBeginCancel(s: Kao, t: Tid, slot: Slot, after: After): (s': Kao)
    requires t in s.acts
    ensures Lasting(s, s')
  {
    var acts, todo, budget := s.acts[t := s.acts[t].(pc := Loop(slot, after))], Popped(s, t), Spent(s, t);
    var s1 := s.(acts := acts, todo := todo, budget := budget);
    if after.Stop? then s1 else AddInternal(s1)
  }

  predicate CanLoop(s: Kao, t: Tid) { At(s, t) && s.acts[t].pc.Loop? && s.lock == Some(t) }

  function AddCall(calls: set<Sid>, kind: Kind, id: Sid): (r: set<Sid>)
    ensures calls <= r
  {
    if kind.Call? then calls + {id} else calls
  }

  /** One turn of a cancel loop, or what follows the loop once the slot is empty. */
  function DoLoop(s: Kao, t: Tid, ok: bool): (s': Kao)
    requires t in s.acts && s.acts[t].pc.Loop?
    ensures Lasting(s, s') && SameScript(s, s')
  {
    var slot, after := s.acts[t].pc.slot, s.acts[t].pc.after;
    if slot in s.slots then
      Unlock(s.(slots := s.slots - {slot}), t, Cancelling(slot, s.slots[slot], after))
    else
      var acts := s.acts[t := s.acts[t].(pc := Held)];
      if after.Stop? then
        s.(acts := acts)
      else if ok && (s.inShutdown ==> after.kind.Call?) then
        var calls := AddCall(s.calls, after.kind, s.nextId);
        s.(acts := acts, slots := s.slots[slot := s.nextId],
           sources := s.sources[s.nextId := Live], calls := calls, nextId := s.nextId + 1)
      else
        DropInternal(s.(acts := acts))
  }

  predicate CanRemove(s: Kao, t: Tid) { At(s, t) && s.acts[t].pc.Cancelling? }

  /** `g_source_remove` / `dbus_pending_call_unref`; a stale id is no one's. */
  function Removed(sources: map<Sid, Phase>, id: Sid): map<Sid, Phase> {
    if id !in sources then sources
    else match sources[id]
      case Live => sources[id := Awaiting]
      case Dispatching(runner, _) => sources[id := Dispatching(runner, true)]
      case _ => sources
  }

  function DoRemove(s: Kao, t: Tid): (s': Kao)
    requires t in s.acts && s.acts[t].pc.Cancelling?
    ensures Lasting(s, s') && SameScript(s, s')
  {
    var pc := s.acts[t].pc;
    s.(acts := s.acts[t := s.acts[t].(pc := Relock(pc.slot, pc.after))], sources := Removed(s.sources, pc.id))
  }

  // The unlocked stretch around a bus flush.
  predicate CanOpenWindow(s: Kao, t: Tid) { (Free(s, t) && MayBegin(s)) || Scripted(s, t, FlushBus) }

  function DoOpenWindow(s: Kao, t: Tid): (s': Kao)
    requires t in s.acts
    ensures Lasting(s, s')
  {
    var todo, budget := Popped(s, t), Spent(s, t);
    Unlock(s.(todo := todo, budget := budget), t, Window)
  }

  // The bus filter comes with the connection, and goes in shutdown.
  predicate CanInstallFilter(s: Kao, t: Tid) { Free(s, t) && !s.inShutdown }

  // A callback empties the slot that holds its own id.
  predicate CanClearOwn(s: Kao, t: Tid, slot: Slot) {
    Free(s, t) && s.acts[t].role.Dispatch? && slot in s.slots && s.slots[slot] == s.acts[t].role.id
  }

  // `keepalive_object_shutdown_cb`, up to the call of the derived object's callback
  predicate CanBeginShutdown(s: Kao, t: Tid, script: seq<Op>) {
    && AtHeld(s, t) && InScript(s, t) && s.shutdownId != 0 && Covers(script, s.owned)
    && (forall i | 0 <= i < |script| :: script[i].CancelSlot? ==> script[i].slot in s.owned)
  }

  function DoBeginShutdown(s: Kao, script: seq<Op>, budget: nat): Kao {
    var log := s.log.(shutdownRuns := s.log.shutdownRuns + 1);
    s.(shutdownId := 0, inShutdown := true, todo := script, budget := budget, log := log)
  }

  // The unlock that ends an activity's use of the object.
  predicate CanRelease(s: Kao, t: Tid) {
    && AtHeld(s, t) && !s.acts[t].role.Notify? && (InScript(s, t) ==> s.shutdownId == 0 && s.todo == [])
    && (s.acts[t].role.Dispatch? && s.acts[t].role.id in s.calls ==> !InSlot(s, s.acts[t].role.id))
  }

  // The delete callback, called after the lock is gone.
  predicate CanDestroy(s: Kao, t: Tid) { t in s.acts && s.acts[t].doomed }

  function DoDestroy(s: Kao, t: Tid): Kao
    requires t in s.acts
  {
    var log := s.log.(deletes := s.log.deletes + 1);
    s.(log := log, acts := s.acts[t := s.acts[t].(doomed := false)])
  }

  predicate Gone(s: Kao, id: Sid) { id in s.sources && s.sources[id].Dispatching? && s.sources[id].removed }

  // A callback asks for its source to go on only if someone still has its id, or in vain, the
  // source having been removed meanwhile.
  predicate CanKeep(s: Kao, t: Tid)
    requires t in s.acts
  {
    && s.acts[t].role.Dispatch? && !InScript(s, t) && s.acts[t].role.id !in s.calls && !s.inShutdown
    && (Tracked(s, s.acts[t].role.id) || Gone(s, s.acts[t].role.id))
  }

  predicate CanReturn(s: Kao, t: Tid, keep: bool) {
    At(s, t) && s.acts[t].pc.Out? && (OnMain(s.acts[t].role) ==> Top(s, t)) && (keep ==> CanKeep(s, t))
  }

  function Below(main: seq<Tid>): seq<Tid> { if main == [] then [] else main[..|main| - 1] }

  /** The activity is over; a callback hands its source back to the main loop. */
  function DoReturn(s: Kao, t: Tid, keep: bool): (s': Kao)
    requires t in s.acts
    ensures Lasting(s, s')
  {
    var role, acts := s.acts[t].role, s.acts - {t};
    if !OnMain(role) then s.(acts := acts)
    else
      var main := Below(s.main);
      if role.Heard? || role.id !in s.sources then s.(acts := acts, main := main)
      else
        var phase := s.sources[role.id];
        var next := if keep && !(phase.Dispatching? && phase.removed) then Live else Awaiting;
        var log := s.log.(shutdownReturned := s.log.shutdownReturned || role.id == s.shutdownSrc);
        s.(acts := acts, main := main, sources := s.sources[role.id := next], log := log)
  }

  predicate Enabled(s: Kao, e: Event) {
    !s.log.aborted &&
    match e
    case CallApi(t) => CanCallApi(s, t)
    case Desert(t) => CanDesert(s, t)
    case HearSignal(t) => CanHear(s, t)
    case DispatchSource(t, id) => CanDispatch(s, t, id)
    case RunNotify(t, id) => CanNotify(s, t, id)
    case Acquire(t) => CanAcquire(s, t)
    case RefExternal(t) => IsApi(s, t)
    case UnrefExternal(t) => IsApi(s, t)
    case UnrefInternal(t) => CanUnrefInternal(s, t)
    case BeginCancel(t, slot, after) => CanBeginCancel(s, t, slot, after)
    case LoopStep(t, ok) => CanLoop(s, t)
    case RemoveSource(t) => CanRemove(s, t)
    case OpenWindow(t) => CanOpenWindow(s, t)
    case SkipFlush(t) => Scripted(s, t, FlushBus)
    case RemoveFilter(t) => Scripted(s, t, DropFilter)
    case InstallFilter(t) => CanInstallFilter(s, t)
    case ClearOwn(t, slot) => CanClearOwn(s, t, slot)
    case BeginShutdown(t, script, budget) => CanBeginShutdown(s, t, script)
    case Release(t) => CanRelease(s, t)
    case Destroy(t) => CanDestroy(s, t)
    case Return(t, keep) => CanReturn(s, t, keep)
  }

  function Apply(s: Kao, e: Event): (s': Kao)
    requires Enabled(s, e)
    ensures Lasting(s, s')
  {
    match e
    case CallApi(t) => DoCallApi(s, t)
    case Desert(t) => DoDesert(s, t)
    case HearSignal(t) => DoHear(s, t)
    case DispatchSource(t, id) => DoDispatch(s, t, id)
    case RunNotify(t, id) => DoNotify(s, t, id)
    case Acquire(t) => DoAcquire(s, t)
    case RefExternal(t) => AddExternal(s)
    case UnrefExternal(t) => DoUnrefExternal(s, t)
    case UnrefInternal(t) => DoUnrefInternal(s, t)
    case BeginCancel(t, slot, after) => DoBeginCancel(s, t, slot, after)
    case LoopStep(t, ok) => DoLoop(s, t, ok)
    case RemoveSource(t) => DoRemove(s, t)
    case OpenWindow(t) => DoOpenWindow(s, t)
    case SkipFlush(t) => s.(todo := Popped(s, t))
    case RemoveFilter(t) => s.(todo := Popped(s, t), filter := false)
    case InstallFilter(t) => s.(filter := true)
    case ClearOwn(t, slot) => s.(slots := s.slots - {slot})
    case BeginShutdown(t, script, budget) => DoBeginShutdown(s, script, budget)
    case Release(t) => Unlock(s, t, Out)
    case Destroy(t) => DoDestroy(s, t)
    case Return(t, keep) => DoReturn(s, t, keep)
  }

  /** Steps that read or write the object's memory, its mutex included. */
  predicate Touches(e: Event) {
    && !e.RemoveSource? && !e.Return? && !e.DispatchSource? && !e.RunNotify? && !e.CallApi?
    && !e.Desert? && !e.HearSignal?
  }

  function TouchedDead(s: Kao): (s': Kao)
    ensures Lasting(s, s')
  {
    var log := s.log.(touchedDead := true);
    s.(log := log)
  }

  function Step(s: Kao, e: Event): (s': Kao)
    ensures Lasting(s, s')
  {
    if !Enabled(s, e) then s
    else if Touches(e) && s.log.deletes > 0 then TouchedDead(Apply(s, e))
    else Apply(s, e)
  }

  function Run(s: Kao, es: seq<Event>): Kao {
    if es == [] then s else Step(Run(s, es[..|es| - 1]), es[|es| - 1])
  }

  // ------------------------------------------------------------ the invariant

  /** The lock has one holder, and the holder is where the lock is held. */
  predicate LockInv(s: Kao) {
    && (s.lock.Some? ==> s.lock.value in s.acts)
    && (forall t | t in s.acts :: HoldsLock(s.acts[t].pc) <==> s.lock == Some(t))
  }

  /** Which positions each kind of activity can be in. */
  predicate PcOk(a: Act) {
    && (a.doomed ==> a.pc.Out? && (a.role.Leaving? || a.role.Notified? || a.role.Orphan?))
    && match a.role
       case Api => true
       case Orphan => Starting(a.pc) || a.pc.Held? || a.pc.Out?
       case Dispatch(_) => true
       case Heard => true
       case Leaving => a.pc.Held? || a.pc.Out?
       case Notify(_) => a.pc.Enter? || a.pc.Held?
       case Notified => a.pc.Held? || a.pc.Out?
  }

  predicate PcInv(s: Kao) { forall t | t in s.acts :: PcOk(s.acts[t]) }

  /** Callbacks and notifications pair up with the sources they belong to. */
  predicate ActOk(s: Kao, t: Tid)
    requires t in s.acts
  {
    match s.acts[t].role
    case Dispatch(id) => id in s.sources && s.sources[id].Dispatching? && s.sources[id].runner == t
    case Notify(id) => id in s.sources && s.sources[id] == Notifying(t)
    case _ => true
  }

  predicate SourceOk(s: Kao, id: Sid)
    requires id in s.sources
  {
    && 0 < id < s.nextId
    && (s.sources[id].Dispatching? ==>
          s.sources[id].runner in s.acts && s.acts[s.sources[id].runner].role == Dispatch(id))
    && (s.sources[id].Notifying? ==>
          s.sources[id].runner in s.acts && s.acts[s.sources[id].runner].role == Notify(id))
  }

  predicate PairInv(s: Kao) {
    && 0 < s.nextId
    && (forall t | t in s.acts :: ActOk(s, t))
    && (forall id | id in s.sources :: SourceOk(s, id))
  }

  /** The main loop's callbacks, one inside the other. */
  predicate StackInv(s: Kao) {
    && (forall i | 0 <= i < |s.main| :: s.main[i] in s.acts && OnMain(s.acts[s.main[i]].role))
    && (forall i, j | 0 <= i < j < |s.main| :: s.main[i] != s.main[j])
    && (forall i | 0 <= i < |s.main| - 1 :: s.acts[s.main[i]].pc.Window?)
    && (forall t | t in s.acts && OnMain(s.acts[t].role) :: t in s.main)
  }

  /** Reference accounting: one internal reference for every source whose destroy
      notification has not dropped it and for every start function in progress; every
      API call in progress is covered by an external one. */
  predicate CountInv(s: Kao) {
    && s.internal == |s.sources| + |Starters(s)|
    && |Borrowers(s)| <= s.ext
  }

  /** Ids in slots and in cancel loops are old ones, and never the shutdown source's. */
  predicate IdInv(s: Kao) {
    && (forall slot | slot in s.slots :: 0 < s.slots[slot] < s.nextId && s.slots[slot] != s.shutdownSrc)
    && (forall t | t in s.acts && s.acts[t].pc.Cancelling? ::
          0 < s.acts[t].pc.id < s.nextId && s.acts[t].pc.id != s.shutdownSrc)
    && (forall id | id in s.calls :: 0 < id < s.nextId && id != s.shutdownSrc)
  }

  /** The shutdown source exists from the last external unref until its callback is done. */
  predicate ShutdownInv(s: Kao) {
    && (s.ext == 0 <==> s.shutdownSrc != 0)
    && s.shutdownSrc < s.nextId
    && (s.shutdownId != 0 ==> s.shutdownId == s.shutdownSrc && !s.inShutdown)
    && (s.shutdownSrc != 0 && s.shutdownId == 0 ==> s.inShutdown)
    && (s.inShutdown ==> s.shutdownSrc != 0)
    && s.log.shutdownRuns == (if s.inShutdown then 1 else 0)
    && (s.shutdownSrc != 0 && !s.log.shutdownReturned ==>
          s.shutdownSrc in s.sources && (s.sources[s.shutdownSrc].Live? || s.sources[s.shutdownSrc].Dispatching?))
    && (s.shutdownSrc != 0 && !s.log.shutdownReturned && s.inShutdown ==>
          s.sources[s.shutdownSrc].Dispatching?)
    && (s.log.shutdownReturned ==>
          s.inShutdown && s.todo == [] &&
          (s.shutdownSrc in s.sources ==> !s.sources[s.shutdownSrc].Live? && !s.sources[s.shutdownSrc].Dispatching?))
    && (s.todo != [] ==> s.inShutdown)
    && (forall t | t in s.acts :: InScript(s, t) && s.acts[t].pc.Out? ==> s.inShutdown && s.todo == [])
  }

  /** Where a filter callback may be: the filter goes before the shutdown callback returns,
      and that callback is the outermost of the main loop. */
  predicate FilterInv(s: Kao) {
    && (s.inShutdown && s.filter ==> DropFilter in s.todo)
    && (s.log.shutdownReturned ==> !s.filter)
    && (forall t | t in s.acts && s.acts[t].role.Heard? :: !s.log.shutdownReturned)
    && (forall t | t in s.acts && InScript(s, t) :: s.main != [] && s.main[0] == t)
  }

  /** Once an unlock has decided to delete, nothing holds or can reach the object, and
      the decision is made once. */
  predicate DeadInv(s: Kao) {
    && (s.log.deletes > 0 ==> s.log.deletes == 1 && s.ext == 0 && s.internal == 0 && s.lock.None?)
    && (forall t | t in s.acts :: s.acts[t].doomed ==>
          s.log.deletes == 0 && s.ext == 0 && s.internal == 0 && s.lock.None?)
    && (forall t, u | t in s.acts && u in s.acts :: s.acts[t].doomed && s.acts[u].doomed ==> t == u)
  }

  predicate Shape(s: Kao) { LockInv(s) && PcInv(s) && PairInv(s) }

  predicate Life(s: Kao) { IdInv(s) && ShutdownInv(s) && DeadInv(s) && !s.log.aborted && !s.log.touchedDead }

  /** A reference is left. */
  predicate Alive(s: Kao) { s.ext > 0 || s.internal > 0 }

  predicate Core(s: Kao) { Shape(s) && CountInv(s) && Life(s) }

  predicate Inv(s: Kao) { Core(s) && StackInv(s) && FilterInv(s) }
}
