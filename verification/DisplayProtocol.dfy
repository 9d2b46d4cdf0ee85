/** The session controller of lib-glib/keepalive-displaykeepalive.c as a state machine.

    The main loop runs one callback at a time.  A callback that has to drop the mutex, to
    remove a timer or to cancel a query, leaves its position in `at`; API calls on other
    threads, the daemon and MCE may act before `Resume` takes it further. */
module DisplayProtocol {
  import opened MceOwner
  import opened DisplayBus
  import opened Sessions

  datatype Stage = Rethink | StopMessage | OwnerQuery | ModeQuery

  datatype At =
    | Idle
    | Stopping                // renew timer taken out of its slot, CANCEL to come
    | Updating(owner: Owner)  // owner query cancelled, the new owner to be set
    | Clearing                // MCE gone and its mode query cancelled, the mode to be cleared
    | Moding(mode: Mode)      // mode query cancelled, the new mode to be set
    | Sweeping(stage: Stage)  // shutdown callback

  datatype Display = Display(
    // displaykeepalive_t; slots are false when empty
    requested: bool, bus: bool, filter: bool, view: View, timer: bool, rethink: bool, attempted: bool,
    inShutdown: bool, released: bool,
    at: At, trace: seq<Msg>,  // trace: the sessions MCE has been told of
    wire: Wire)

  datatype Event =
    | ApiStart(busOk: bool, filterOk: bool) | ApiStop | LastUnref            // any thread
    | NameChange(owned: bool, allowed: bool) | ModeChange(allowed: bool) | DaemonStep  // the daemon and MCE
    | Deliver | RethinkCb | RenewCb | ShutdownCb | Resume

  function Init(owned: bool, allowed: bool): Display {
    Display(false, false, false, NoView(), false, false, false, false, false, Idle, [], NoWire(owned, allowed))
  }

  /** What `displaykeepalive_rethink_now_locked` decides. */
  predicate Want(s: Display) {
    !s.inShutdown && s.view.mce.Running? && s.view.mode.Allowed? && s.requested
  }

  /** `displaykeepalive_rethink_schedule_locked` */
  function Scheduled(s: Display): bool { s.rethink || !s.inShutdown }

  /** What the controller's own steps have no say in. */
  predicate SameWishes(s: Display, r: Display) {
    && r.requested == s.requested && r.released == s.released
    && r.wire.owned == s.wire.owned && r.wire.allowed == s.wire.allowed
  }

  /** The message of `displaykeepalive_session_ipc_locked`, if MCE is there. */
  function Ended(s: Display): Msg { if s.view.mce.Running? then Stop else Lapse }

  /** `displaykeepalive_session_stop_locked`, once it goes on */
  function StopSession(s: Display): (r: Display)
    ensures SameWishes(s, r) && r.view == s.view && r.wire == s.wire && r.bus == s.bus && r.inShutdown == s.inShutdown
  {
    if s.timer then s.(timer := false, at := Stopping) else s.(trace := s.trace + [Ended(s)], at := Idle)
  }

  /** `displaykeepalive_rethink_now_locked`, its own timer out of the way */
  function RethinkNow(s: Display): (r: Display)
    ensures SameWishes(s, r) && r.view == s.view && r.wire == s.wire && r.bus == s.bus && r.inShutdown == s.inShutdown
  {
    if Want(s) == s.timer then s
    else if Want(s) then s.(timer := true, trace := s.trace + [Start])
    else StopSession(s)
  }

  /** What a stretch of a handler does: the call it makes (0: none), whether it schedules a rethink,
      and where it drops the mutex. */
  datatype Change = Change(view: View, call: nat, rethink: bool, at: At)

  /** `displaykeepalive_mce_owner_update_locked` after its query is cancelled */
  function OwnerSet(v: View, owner: Owner): Change {
    if v.mce == owner then Change(v, 0, false, Idle)
    else if owner.Running? then
      Change(SetOwner(v, owner), if v.modePc == 0 then v.serial else 0, true, Idle)
    else if v.modePc != 0 then Change(v.(mce := owner, modePc := 0), 0, false, Clearing)
    else Change(SetOwner(v, owner), 0, true, Idle)
  }

  /** The same from the start */
  function OwnerUpdate(v: View, owner: Owner): Change {
    if v.query then Change(v.(query := false), 0, false, Updating(owner)) else OwnerSet(v, owner)
  }

  /** `displaykeepalive_preventmode_update_locked` with PREVENTMODE_UNKNOWN, then the rethink
      its caller schedules */
  function ModeCleared(v: View): Change {
    if v.modePc != 0 then Change(v.(modePc := 0), 0, false, Clearing) else Change(v.(mode := NoMode), 0, true, Idle)
  }

  /** `displaykeepalive_preventmode_update_locked` */
  function ModeUpdate(v: View, mode: Mode): Change {
    if v.modePc != 0 then Change(v.(modePc := 0), 0, false, Moding(mode))
    else Change(v.(mode := mode), 0, v.mode != mode, Idle)
  }

  /** The next message: the signal filter, or the callback of the call it answers. */
  function Handle(v: View, filter: bool, news: Message): Change {
    match news
    case NameSignal(b) => if filter then OwnerUpdate(v, Of(b)) else Change(v, 0, false, Idle)
    case NameReply(b) => if v.query then OwnerUpdate(v.(query := false), Of(b)) else Change(v, 0, false, Idle)
    case ModeSignal(b) => if filter then ModeUpdate(v, Real(b)) else Change(v, 0, false, Idle)
    case ModeReply(call, mode) =>
      if v.modePc != call || call == 0 then Change(v, 0, false, Idle)
      else if mode.NoMode? then Change(v.(modePc := 0), 0, false, Idle)
      else ModeUpdate(v.(modePc := 0), mode)
  }

  function Called(w: Wire, call: nat): (r: Wire)
    ensures r.owned == w.owned && r.allowed == w.allowed
  {
    if call == 0 then w else w.(asks := w.asks + [call])
  }

  function Changed(s: Display, c: Change): (r: Display)
    ensures SameWishes(s, r) && r.bus == s.bus && r.inShutdown == s.inShutdown
  {
    var wire := Called(s.wire, c.call);
    s.(view := c.view, wire := wire, rethink := s.rethink || (c.rethink && !s.inShutdown), at := c.at)
  }

  /** The message at the head of the queue is taken off it. */
  function Popped(s: Display): Display
    requires s.wire.down != []
  {
    s.(wire := s.wire.(down := s.wire.down[1..]))
  }

  // `displaykeepalive_shutdown_locked_cb`, each part up to the next point where the mutex is dropped

  function SweepMode(s: Display): (r: Display)
    ensures SameWishes(s, r) && r.inShutdown == s.inShutdown && (s.bus && !r.bus ==> r.at.Idle?)
  {
    if s.view.modePc != 0 then s.(view := s.view.(modePc := 0), at := Sweeping(ModeQuery))
    else s.(filter := false, bus := false, at := Idle)
  }

  function SweepOwner(s: Display): (r: Display)
    ensures SameWishes(s, r) && r.inShutdown == s.inShutdown && (s.bus && !r.bus ==> r.at.Idle?)
  {
    if s.view.query then s.(view := s.view.(query := false), at := Sweeping(OwnerQuery)) else SweepMode(s)
  }

  /** `displaykeepalive_dbus_disconnect_locked` */
  function Disconnect(s: Display): (r: Display)
    ensures SameWishes(s, r) && r.inShutdown == s.inShutdown && (s.bus && !r.bus ==> r.at.Idle?)
  {
    if !s.bus then s.(at := Idle) else SweepOwner(s)
  }

  function SweepStopMessage(s: Display): (r: Display)
    ensures SameWishes(s, r) && r.inShutdown == s.inShutdown && (s.bus && !r.bus ==> r.at.Idle?)
  {
    if s.timer then s.(timer := false, at := Sweeping(StopMessage))
    else Disconnect(s.(trace := s.trace + [Ended(s)]))
  }

  function SweepRethink(s: Display): (r: Display)
    ensures SameWishes(s, r) && r.inShutdown == s.inShutdown && (s.bus && !r.bus ==> r.at.Idle?)
  {
    if s.rethink then s.(rethink := false, at := Sweeping(Rethink))
    else if s.timer then s.(timer := false, at := Sweeping(StopMessage))
    else Disconnect(s)
  }

  function Sweep(s: Display, stage: Stage): (r: Display)
    ensures SameWishes(s, r) && r.inShutdown == s.inShutdown && (s.bus && !r.bus ==> r.at.Idle?)
  {
    match stage
    case Rethink => SweepRethink(s)
    case StopMessage => SweepStopMessage(s)
    case OwnerQuery => SweepOwner(s)
    case ModeQuery => SweepMode(s)
  }

  /** `displaykeepalive_dbus_connect_locked` */
  function Connect(s: Display, busOk: bool, filterOk: bool): (r: Display)
    ensures r.requested == s.requested && r.released == s.released && r.inShutdown == s.inShutdown && r.at == s.at
  {
    if s.attempted then s
    else if !busOk then s.(attempted := true)
    else s.(attempted := true, bus := true, filter := filterOk, view := s.view.(query := true),
            wire := s.wire.(up := if filterOk then RuleThenQuery else QueryOnly))
  }

  predicate ApiOk(s: Display) { !s.released && !s.inShutdown }

  /** A callback can be dispatched. */
  predicate Free(s: Display) { s.at.Idle? }

  /** The callback that had dropped the mutex has it again. */
  function GoOn(s: Display): (r: Display)
    ensures SameWishes(s, r) && (s.bus && !r.bus ==> s.at.Sweeping? && r.at.Idle?)
  {
    match s.at
    case Idle => s
    case Stopping => StopSession(s)
    case Updating(owner) => Changed(s, OwnerUpdate(s.view, owner))
    case Clearing => Changed(s, ModeCleared(s.view))
    case Moding(mode) => Changed(s, ModeUpdate(s.view, mode))
    case Sweeping(stage) => Sweep(s, stage)
  }

  /** Neither a request, nor a change at MCE, nor the periodic renewal. */
  predicate Pending(e: Event) {
    e.DaemonStep? || e.Deliver? || e.RethinkCb? || e.ShutdownCb? || e.Resume?
  }

  function Step(s: Display, e: Event): (r: Display)
    ensures Pending(e) ==> SameWishes(s, r)
    ensures s.bus && !r.bus ==> (e.ShutdownCb? || s.at.Sweeping?) && r.at.Idle? && (e.ShutdownCb? ==> r.inShutdown)
  {
    match e
    case ApiStart(busOk, filterOk) =>
      if !ApiOk(s) || s.requested then s
      else
        var r := Connect(s, busOk, filterOk);
        r.(requested := true, rethink := Scheduled(s))
    case ApiStop => if ApiOk(s) && s.requested then s.(requested := false, rethink := Scheduled(s)) else s
    case LastUnref => s.(released := true)
    case NameChange(b, allowed) => s.(wire := NameChanged(s.wire, b, allowed))
    case ModeChange(allowed) => s.(wire := ModeChanged(s.wire, allowed))
    case DaemonStep => s.(wire := Turn(s.wire))
    case Deliver =>
      if Free(s) && s.bus && s.wire.down != []
      then Changed(Popped(s), Handle(s.view, s.filter, s.wire.down[0])) else s
    case RethinkCb =>
      if !Free(s) || !s.rethink then s
      else if s.inShutdown then s.(rethink := false)
      else RethinkNow(s.(rethink := false))
    case RenewCb =>
      if !Free(s) || !s.timer then s
      else if s.inShutdown then s.(timer := false)
      else if s.view.mce.Running? then s.(trace := s.trace + [Renew])
      else s
    case ShutdownCb =>
      if Free(s) && s.released && !s.inShutdown then SweepRethink(s.(inShutdown := true)) else s
    case Resume => GoOn(s)
  }

  function Run(s: Display, es: seq<Event>): Display {
    if es == [] then s else Step(Run(s, es[..|es| - 1]), es[|es| - 1])
  }

  function Reach(owned: bool, allowed: bool, es: seq<Event>): Display { Run(Init(owned, allowed), es) }
}
