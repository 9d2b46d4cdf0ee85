/** The session controller of lib-glib/keepalive-cpukeepalive.c as a state machine.

    The main loop runs one callback at a time.  A callback that has to drop the mutex,
    to flush the bus connection or to remove a timer, leaves its position in `at`; API
    calls on other threads and the bus daemon may act before `Resume` takes it further.
    Flushing the connection can also dispatch messages, so signals and replies come in the
    middle of a callback that flushes, and one of them may flush in its turn.
 */
module CpuProtocol {
  import opened MceOwner
  import opened BusLink
  import opened Sessions

  /** CPU_KEEPALIVE_RENEW_MS */
  const RENEW_MS: nat := 60000

  /** The slots a shutdown goes through, and the message in between. */
  datatype Stage = OwnerQuery | PeriodQuery | Rethink | Session | StopMessage | Farewell | Connect

  datatype At =
    | Idle
    | Announcing(nested: bool)  // START sent and being flushed, new timer to come
    | Arming(nested: bool)      // old timer taken out of its slot, new timer to come
    | Stopping                  // renew timer taken out of its slot, STOP to come
    | Flushing                  // last message being flushed, nothing more to do
    | Sweeping(stage: Stage)    // shutdown callback; in `Farewell` it flushes its STOP

  datatype Cpu = Cpu(
    // cpukeepalive_t; slots are false or 0 when empty
    requested: bool, link: Link, period: nat, periodPc: bool,
    timer: nat,  // interval of the timer in cka_session_renew_id
    rethink: bool, connectId: bool, attempted: bool,
    inShutdown: bool, released: bool,
    at: At, trace: seq<Msg>)  // trace: what has been sent to MCE

  datatype Event =
    | ApiStart | ApiStop | LastUnref             // any thread
    | NameChange(owned: bool) | DaemonStep       // the daemon
    | Deliver | PeriodReply(val: int) | RethinkCb | RenewCb
    | ConnectCb(busOk: bool, filterOk: bool) | ShutdownCb | Resume

  function Init(owned: bool): Cpu {
    Cpu(false, NoLink(owned), 0, false, 0, false, true, false, false, false, Idle, [])
  }

  /** `cpukeepalive_renew_period_get_locked` */
  function Effective(period: nat): (ms: nat)
    ensures ms > 0
  {
    if period != 0 then period else RENEW_MS
  }

  /** What the controller's own steps have no say in. */
  predicate SameWishes(s: Cpu, r: Cpu) {
    r.requested == s.requested && r.released == s.released && r.link.owned == s.link.owned
  }

  /** What `cpukeepalive_rethink_now_locked` decides. */
  predicate Want(s: Cpu) { !s.inShutdown && s.link.mce.Running? && s.requested }

  /** `cpukeepalive_rethink_schedule_locked`; no timer is added in shutdown. */
  function Scheduled(s: Cpu): bool { s.rethink || !s.inShutdown }

  /** Where a handler returns to: the main loop, or the flush that dispatched its message. */
  function Back(nested: bool): At { if nested then Flushing else Idle }

  /** `cpukeepalive_timer_start_locked` on the session slot: the old timer goes first,
      with the mutex dropped. */
  function Arm(s: Cpu, nested: bool): (r: Cpu)
    ensures r.link == s.link && r.inShutdown == s.inShutdown && SameWishes(s, r)
  {
    if s.timer != 0 then s.(timer := 0, at := Arming(nested))
    else if s.inShutdown then s.(at := Back(nested))
    else s.(timer := Effective(s.period), at := Back(nested))
  }

  /** `cpukeepalive_session_start_locked` / `..._session_restart_locked`, once they go on. */
  function Announce(s: Cpu, m: Msg): (r: Cpu)
    ensures r.link == s.link && r.inShutdown == s.inShutdown && SameWishes(s, r)
  {
    if s.link.bus then s.(trace := s.trace + [m], at := Announcing(!s.at.Idle?)) else Arm(s, !s.at.Idle?)
  }

  /** `cpukeepalive_session_stop_locked`, once it goes on. */
  function StopSession(s: Cpu): (r: Cpu)
    ensures r.link == s.link && r.inShutdown == s.inShutdown && SameWishes(s, r)
  {
    if s.timer != 0 then s.(timer := 0, at := Stopping)
    else if s.link.bus then s.(trace := s.trace + [Stop], at := Flushing)
    else s.(at := Idle)
  }

  /** `cpukeepalive_rethink_now_locked` with its own timer already out of the way. */
  function RethinkNow(s: Cpu): (r: Cpu)
    ensures r.link == s.link && r.inShutdown == s.inShutdown && SameWishes(s, r)
  {
    if Want(s) == (s.timer != 0) then s else if Want(s) then Announce(s, Start) else StopSession(s)
  }

  /** `cpukeepalive_mce_owner_set_locked`, the connection having moved on to `link`. */
  function Heed(s: Cpu, link: Link): (r: Cpu)
    ensures r.link == link && r.inShutdown == s.inShutdown && r.requested == s.requested && r.released == s.released
  {
    if s.link.mce == link.mce then s.(link := link)
    else
      var ask := link.mce.Running? && !s.inShutdown && s.period == 0 && link.bus;
      s.(link := link, periodPc := s.periodPc || ask, rethink := Scheduled(s))
  }

  /** A session is started again when the period in force changes. */
  function Retime(s: Cpu, period: nat): (r: Cpu)
    ensures r.link == s.link && r.inShutdown == s.inShutdown && SameWishes(s, r)
  {
    var t := s.(period := period);
    if Effective(s.period) == period || s.timer == 0 then t else Announce(t, Renew)
  }

  /** `cpukeepalive_renew_period_set_locked` */
  function SetPeriod(s: Cpu, ms: int): (r: Cpu)
    ensures r.link == s.link && r.inShutdown == s.inShutdown && SameWishes(s, r)
  {
    Retime(s, if ms <= 0 then RENEW_MS else ms)
  }

  // `cpukeepalive_shutdown_locked_cb`, each part up to the next point where the mutex is dropped

  function SweepConnect(s: Cpu): (r: Cpu)
    ensures r.inShutdown == s.inShutdown && SameWishes(s, r) && (s.link.bus && !r.link.bus ==> r.at.Idle?)
  {
    if s.connectId then s.(connectId := false, at := Sweeping(Connect))
    else s.(link := s.link.(filter := false, bus := false), at := Idle)
  }

  function SweepStopMessage(s: Cpu): (r: Cpu)
    ensures r.inShutdown == s.inShutdown && SameWishes(s, r) && (s.link.bus && !r.link.bus ==> r.at.Idle?)
  {
    if s.timer != 0 then s.(timer := 0, at := Sweeping(StopMessage))
    else if s.link.bus then s.(trace := s.trace + [Stop], at := Sweeping(Farewell))
    else SweepConnect(s)
  }

  function SweepSession(s: Cpu): (r: Cpu)
    ensures r.inShutdown == s.inShutdown && SameWishes(s, r) && (s.link.bus && !r.link.bus ==> r.at.Idle?)
  {
    if s.timer != 0 then s.(timer := 0, at := Sweeping(StopMessage)) else SweepConnect(s)
  }

  function SweepRethink(s: Cpu): (r: Cpu)
    ensures r.inShutdown == s.inShutdown && SameWishes(s, r) && (s.link.bus && !r.link.bus ==> r.at.Idle?)
  {
    if s.rethink then s.(rethink := false, at := Sweeping(Rethink)) else SweepSession(s)
  }

  function SweepPeriod(s: Cpu): (r: Cpu)
    ensures r.inShutdown == s.inShutdown && SameWishes(s, r) && (s.link.bus && !r.link.bus ==> r.at.Idle?)
  {
    if s.periodPc then s.(periodPc := false, at := Sweeping(PeriodQuery)) else SweepRethink(s)
  }

  function SweepOwner(s: Cpu): (r: Cpu)
    ensures r.inShutdown == s.inShutdown && SameWishes(s, r) && (s.link.bus && !r.link.bus ==> r.at.Idle?)
  {
    if s.link.query then s.(link := s.link.(query := false), at := Sweeping(OwnerQuery)) else SweepPeriod(s)
  }

  function Sweep(s: Cpu, stage: Stage): (r: Cpu)
    ensures r.inShutdown == s.inShutdown && SameWishes(s, r) && (s.link.bus && !r.link.bus ==> r.at.Idle?)
  {
    match stage
    case OwnerQuery => SweepOwner(s)
    case PeriodQuery => SweepPeriod(s)
    case Rethink => SweepRethink(s)
    case Session => SweepSession(s)
    case StopMessage => SweepStopMessage(s)
    case Farewell => SweepConnect(s)
    case Connect => SweepConnect(s)
  }

  /** `cpukeepalive_connect_cb` */
  function ConnectNow(s: Cpu, busOk: bool, filterOk: bool): (r: Cpu)
    ensures SameWishes(s, r)
  {
    if s.inShutdown || s.attempted then s.(connectId := false)
    else s.(connectId := false, attempted := true, link := if busOk then Connected(s.link, filterOk) else s.link)
  }

  predicate ApiOk(s: Cpu) { !s.released && !s.inShutdown }

  /** A callback can be dispatched. */
  predicate Free(s: Cpu) { s.at.Idle? }

  /** The position is inside a flush of the bus connection. */
  predicate Flushes(at: At) { at.Announcing? || at.Flushing? || at == Sweeping(Farewell) }

  /** Messages are dispatched: by the main loop, or inside a flush. */
  predicate Reads(s: Cpu) { Free(s) || Flushes(s.at) }

  /** The callback that had dropped the mutex has it again. */
  function GoOn(s: Cpu): (r: Cpu)
    ensures SameWishes(s, r) && (s.link.bus && !r.link.bus ==> s.at.Sweeping? && r.at.Idle?)
  {
    match s.at
    case Idle => s
    case Announcing(nested) => Arm(s, nested)
    case Arming(nested) => Arm(s, nested)
    case Stopping => StopSession(s)
    case Flushing => s.(at := Idle)
    case Sweeping(stage) => Sweep(s, stage)
  }

  /** Neither a request, nor a change of the name, nor the periodic renewal. */
  predicate Pending(e: Event) {
    e.DaemonStep? || e.Deliver? || e.PeriodReply? || e.RethinkCb? || e.ConnectCb? || e.ShutdownCb? || e.Resume?
  }

  function Step(s: Cpu, e: Event): (r: Cpu)
    ensures Pending(e) ==> SameWishes(s, r)
    ensures s.link.bus && !r.link.bus ==> (e.ShutdownCb? || s.at.Sweeping?) && r.at.Idle? && (e.ShutdownCb? ==> r.inShutdown)
  {
    match e
    case ApiStart => if ApiOk(s) && !s.requested then s.(requested := true, rethink := Scheduled(s)) else s
    case ApiStop => if ApiOk(s) && s.requested then s.(requested := false, rethink := Scheduled(s)) else s
    case LastUnref => s.(released := true)
    case NameChange(b) => s.(link := Changed(s.link, b))
    case DaemonStep => s.(link := DaemonTurn(s.link))
    case Deliver => if Reads(s) && s.link.bus && s.link.down != [] then Heed(s, Read(s.link, false)) else s
    case PeriodReply(val) =>
      // the reply is in seconds; values whose milliseconds overflow are not considered
      if Reads(s) && s.periodPc && -2147483 <= val <= 2147483 then SetPeriod(s.(periodPc := false), val * 1000) else s
    case RethinkCb => if Free(s) && s.rethink then RethinkNow(s.(rethink := false)) else s
    case RenewCb =>
      if Free(s) && s.timer != 0 && s.link.bus then s.(trace := s.trace + [Renew], at := Flushing) else s
    case ConnectCb(busOk, filterOk) => if Free(s) && s.connectId then ConnectNow(s, busOk, filterOk) else s
    case ShutdownCb =>
      if Free(s) && s.released && !s.inShutdown then Sweep(s.(inShutdown := true), OwnerQuery) else s
    case Resume => GoOn(s)
  }

  function Run(s: Cpu, es: seq<Event>): Cpu {
    if es == [] then s else Step(Run(s, es[..|es| - 1]), es[|es| - 1])
  }

  function Reach(owned: bool, es: seq<Event>): Cpu { Run(Init(owned), es) }
}
