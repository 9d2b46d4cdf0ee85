/** The background activity of lib-glib/keepalive-backgroundactivity.c over its heartbeat and
    its CPU keepalive, as a state machine.

    API calls come from any thread.  The callbacks of the heartbeat and of the report timer
    run one at a time on the main loop; both call the user without holding the mutex, and
    `main` says where they are. */
module ActivityProtocol {
  import opened WakeupDelay
  import Heartbeat

  datatype Mode = Stopped | Waiting | Running

  datatype Main =
    | Idle
    | Waking                 // the heartbeat has rung, the activity is to be notified
    | Reporting(stop: bool)  // a state callback runs; `stop`: the keepalive is stopped after it

  datatype Bga = Bga(
    current: Mode, reported: Mode, report: bool,  // report: the slot of the report timer
    curr: Delay, last: Delay,
    hb: Heartbeat.Hb,
    requested: bool,  // cpukeepalive_start() in force
    main: Main, inShutdown: bool, released: bool)

  datatype Event =
    | Api(mode: Mode, ok: bool) | SetSlot(slot: nat) | SetRange(lo: int, hi: int) | LastUnref  // any thread
    | Broken(ok: bool) | Wake | Notify(ok: bool) | Retry(ok: bool)                           // the heartbeat
    | Report | ReportDone | ShutdownCb

  function Init(): Bga {
    Bga(Stopped, Stopped, false, DEFAULT, DEFAULT, Heartbeat.NewHb(), false, Idle, false, false)
  }

  /** `background_activity_set_state_locked` on the heartbeat: it is stopped on leaving
      WAITING, and started with the current delay on entering it. */
  function NextHb(s: Bga, mode: Mode, ok: bool): Heartbeat.Hb {
    var left := if s.current.Waiting? then Heartbeat.Stop(s.hb) else s.hb;
    if mode.Waiting? then Heartbeat.Start(Heartbeat.SetDelay(left, s.curr.lo, s.curr.hi), ok) else left
  }

  /** `background_activity_set_state_locked` */
  function SetState(s: Bga, mode: Mode, ok: bool): Bga {
    if s.inShutdown || (s.current == mode && !(mode.Waiting? && s.curr != s.last)) then s
    else
      s.(hb := NextHb(s, mode, ok), last := if mode.Waiting? then s.curr else s.last,
         requested := s.requested || mode.Running?, current := mode, report := s.report || s.current != mode)
  }

  /** `background_activity_report_state_cb`, up to the user's callback */
  function ReportState(s: Bga): Bga {
    if s.inShutdown || s.reported == s.current then s.(report := false)
    else s.(report := false, reported := s.current, main := Reporting(!s.current.Running?))
  }

  predicate ApiOk(s: Bga) { !s.released && !s.inShutdown }

  function Step(s: Bga, e: Event): Bga {
    match e
    case Api(mode, ok) => if ApiOk(s) then SetState(s, mode, ok) else s
    case SetSlot(slot) => if ApiOk(s) then s.(curr := SlotDelay(slot)) else s
    case SetRange(lo, hi) => if ApiOk(s) && RangeFits(lo, hi) then s.(curr := RangeDelay(lo, hi)) else s
    case LastUnref => s.(released := true)
    case Broken(ok) => if s.main.Idle? then s.(hb := Heartbeat.Broken(s.hb, ok)) else s
    case Wake =>
      if s.main.Idle? && Heartbeat.Wakes(s.hb)
      then s.(hb := Heartbeat.Woken(s.hb), main := if s.inShutdown then Idle else Waking) else s
    case Notify(ok) =>
      if !s.main.Waking? then s
      else if s.current.Waiting? then SetState(s.(main := Idle), Running, ok) else s.(main := Idle)
    case Retry(ok) => if s.main.Idle? then s.(hb := Heartbeat.Retry(s.hb, ok)) else s
    case Report => if s.main.Idle? && s.report then ReportState(s) else s
    case ReportDone => if s.main.Reporting? then s.(requested := s.requested && !s.main.stop, main := Idle) else s
    case ShutdownCb =>
      if s.main.Idle? && s.released && !s.inShutdown
      then s.(inShutdown := true, requested := false, report := false, hb := Heartbeat.Close(s.hb).(inShutdown := true))
      else s
  }

  function Run(s: Bga, es: seq<Event>): Bga {
    if es == [] then s else Step(Run(s, es[..|es| - 1]), es[|es| - 1])
  }

  function Reach(es: seq<Event>): Bga { Run(Init(), es) }

  // ---------------------------------------------------------------- the invariant

  /** The heartbeat belongs to WAITING: it is started with the delay of the last wait, unless
      it has just rung. */
  predicate Coupled(s: Bga) {
    && Heartbeat.HbInv(s.hb)
    && Normal(s.curr) && Normal(s.last)
    && (!s.inShutdown ==>
          && (!s.current.Waiting? ==> !s.hb.started && !s.hb.waiting)
          && (s.current.Waiting? ==> s.hb.lo == s.last.lo && s.hb.hi == s.last.hi && (s.main.Waking? || s.hb.started))
          && (s.hb.armed ==> s.hb.armedLo == s.last.lo && s.hb.armedHi == s.last.hi))
  }

  predicate Reported(s: Bga) {
    && (s.inShutdown || s.report || s.reported == s.current)
    && (s.main.Reporting? && !s.inShutdown ==> s.main.stop == !s.reported.Running?)
    && (s.inShutdown ==> s.main.Idle? && s.released && !s.requested && !s.report)
    && (s.hb.inShutdown <==> s.inShutdown)
  }

  predicate Inv(s: Bga) { Coupled(s) && Reported(s) }

  lemma SetStateKeeps(s: Bga, mode: Mode, ok: bool)
    requires Inv(s)
    ensures Inv(SetState(s, mode, ok))
  {
  }

  lemma StepKeeps(s: Bga, e: Event)
    requires Inv(s)
    ensures Inv(Step(s, e))
  {
    match e
    case Api(mode, ok) => SetStateKeeps(s, mode, ok);
    case Notify(ok) => NotifyKeeps(s, ok);
    case Broken(_) =>
    case Retry(_) =>
    case _ =>
  }

  lemma NotifyKeeps(s: Bga, ok: bool)
    requires Inv(s)
    ensures Inv(Step(s, Notify(ok)))
  {
  }

  lemma {:induction false} RunKeeps(es: seq<Event>)
    ensures Inv(Reach(es))
  {
    if es != [] {
      RunKeeps(es[..|es| - 1]);
      StepKeeps(Reach(es[..|es| - 1]), es[|es| - 1]);
    }
  }

  lemma ReachStep(es: seq<Event>, e: Event)
    ensures Reach(es + [e]) == Step(Reach(es), e)
  {
    assert (es + [e])[..|es|] == es;
  }
}
