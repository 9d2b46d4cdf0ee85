/** `background_activity_t` of lib-glib/keepalive-backgroundactivity.c: its fields, with the
    heartbeat it owns, and its functions, each proved to take the steps of `ActivityProtocol`. */
module BackgroundActivity {
  import opened WakeupDelay
  import Heartbeat
  import opened ActivityProtocol

  /** What users and other threads can do while a state callback runs. */
  predicate Calls(es: seq<Event>) {
    forall i | 0 <= i < |es| :: es[i].Api? || es[i].SetSlot? || es[i].SetRange? || es[i].LastUnref?
  }

  class BackgroundActivity {
    var currentState: Mode
    var reportedState: Mode
    var reportTimer: bool
    var wakeupCurr: Delay
    var wakeupLast: Delay
    const heartbeat: Heartbeat.Heartbeat
    var keepalive: bool  // cpukeepalive_start() in force
    var main: Main
    var inShutdown: bool
    var released: bool

    function State(): (s: Bga)
      reads this, heartbeat
    {
      Bga(currentState, reportedState, reportTimer, wakeupCurr, wakeupLast, heartbeat.State(), keepalive,
          main, inShutdown, released)
    }

    constructor ()
      ensures State() == Init() && Inv(State()) && fresh(heartbeat)
    {
      currentState, reportedState, reportTimer := Stopped, Stopped, false;
      wakeupCurr, wakeupLast := DEFAULT, DEFAULT;
      heartbeat := new Heartbeat.Heartbeat();
      keepalive, main, inShutdown, released := false, Idle, false, false;
    }

    /** `background_activity_set_wakeup_slot` */
    method SetWakeupSlot(slot: nat)
      requires ApiOk(State())
      modifies this`wakeupCurr
      ensures State() == Step(old(State()), SetSlot(slot)) && wakeupCurr == SlotDelay(slot)
    {
      wakeupCurr := SlotDelay(slot);
    }

    /** `background_activity_set_wakeup_range` */
    method SetWakeupRange(lo: int, hi: int)
      requires ApiOk(State()) && RangeFits(lo, hi)
      modifies this`wakeupCurr
      ensures State() == Step(old(State()), SetRange(lo, hi)) && wakeupCurr == RangeDelay(lo, hi)
    {
      wakeupCurr := RangeDelay(lo, hi);
    }

    /** `background_activity_set_state_locked` */
    method SetStateLocked(mode: Mode, ok: bool)
      requires Inv(State())
      modifies this, heartbeat
      ensures State() == SetState(old(State()), mode, ok) && Inv(State())
      ensures !inShutdown ==> currentState == mode && (!mode.Waiting? ==> !heartbeat.started && !heartbeat.armed)
      ensures !inShutdown ==> keepalive == (old(keepalive) || (mode.Running? && !old(currentState).Running?))
      ensures !inShutdown ==> reportTimer == (old(reportTimer) || old(currentState) != mode)
    {
      SetStateKeeps(State(), mode, ok);
      if inShutdown || (currentState == mode && !(mode.Waiting? && wakeupCurr != wakeupLast)) {
        return;
      }
      SwitchTo(mode, ok);
    }

    /** A change of state, or a wait for another delay */
    method SwitchTo(mode: Mode, ok: bool)
      requires 1 <= wakeupCurr.lo <= wakeupCurr.hi
      modifies this`currentState, this`reportTimer, this`wakeupLast, this`keepalive, heartbeat
      ensures heartbeat.State() == NextHb(old(State()), mode, ok)
      ensures wakeupLast == if mode.Waiting? then wakeupCurr else old(wakeupLast)
      ensures keepalive == (old(keepalive) || mode.Running?)
      ensures currentState == mode && reportTimer == (old(reportTimer) || old(currentState) != mode)
    {
      LeaveAndEnter(mode, ok);
      if currentState != mode {
        currentState := mode;
        reportTimer := true;
      }
    }

    /** Its two switches: the old state is left, the new one entered. */
    method LeaveAndEnter(mode: Mode, ok: bool)
      requires 1 <= wakeupCurr.lo <= wakeupCurr.hi
      modifies this`wakeupLast, this`keepalive, heartbeat
      ensures heartbeat.State() == NextHb(old(State()), mode, ok)
      ensures wakeupLast == if mode.Waiting? then wakeupCurr else old(wakeupLast)
      ensures keepalive == (old(keepalive) || mode.Running?)
    {
      if currentState.Waiting? {
        heartbeat.StopLocked();
      }
      if mode.Waiting? {
        heartbeat.SetDelayLocked(wakeupCurr.lo, wakeupCurr.hi);
        wakeupLast := wakeupCurr;
        heartbeat.StartLocked(ok);
      } else if mode.Running? {
        keepalive := true;
      }
    }

    /** `background_activity_heartbeat_wakeup_cb`, called by the heartbeat that has rung */
    method HeartbeatWakeupCb(ok: bool)
      requires Inv(State()) && main.Waking?
      modifies this, heartbeat
      ensures State() == Step(old(State()), Notify(ok)) && Inv(State())
    {
      NotifyKeeps(State(), ok);
      SetStateKeepsMain(State(), ok);
      if currentState.Waiting? {
        SetStateLocked(Running, ok);
      }
      main := Idle;
    }

    /** One call of a user, or of another thread */
    method Call(e: Event)
      requires Inv(State()) && Calls([e])
      modifies this, heartbeat
      ensures State() == Step(old(State()), e) && Inv(State())
    {
      assert [e][0] == e;
      StepKeeps(State(), e);
      match e {
        case Api(mode, ok) => if !released && !inShutdown { SetStateLocked(mode, ok); }
        case SetSlot(slot) => if !released && !inShutdown { SetWakeupSlot(slot); }
        case SetRange(lo, hi) =>
          if !released && !inShutdown && RangeFits(lo, hi) { SetWakeupRange(lo, hi); }
        case LastUnref => released := true;
      }
    }

    /** `background_activity_report_state_cb`; `during`: the calls made while the user's
        callback executes.  Returns the state reported, if one is. */
    method ReportStateCb(during: seq<Event>) returns (told: bool, mode: Mode)
      requires Inv(State()) && main.Idle? && reportTimer && Calls(during)
      modifies this, heartbeat
      ensures Inv(State()) && main.Idle?
      ensures told <==> !old(inShutdown) && old(reportedState) != old(currentState)
      ensures told ==> mode == old(currentState)
      ensures State() == if told then Step(Run(Step(old(State()), Report), during), ReportDone) else Step(old(State()), Report)
    {
      told, mode := ReportBegins();
      if told {
        UserCallback(during);
        ReportEnds();
      }
    }

    /** What it does before the callback */
    method ReportBegins() returns (told: bool, mode: Mode)
      requires Inv(State()) && main.Idle? && reportTimer
      modifies this`reportTimer, this`reportedState, this`main
      ensures Inv(State()) && State() == Step(old(State()), Report)
      ensures told <==> !old(inShutdown) && old(reportedState) != old(currentState)
      ensures mode == old(currentState) && (if told then main == Reporting(!mode.Running?) else main.Idle?)
    {
      StepKeeps(State(), Report);
      reportTimer := false;
      mode := currentState;
      told := !inShutdown && reportedState != currentState;
      if told {
        reportedState := currentState;
        main := Reporting(!currentState.Running?);
      }
    }

    /** And after it: only now the keepalive may go. */
    method ReportEnds()
      requires Inv(State()) && main.Reporting?
      modifies this`keepalive, this`main
      ensures Inv(State()) && State() == Step(old(State()), ReportDone) && main.Idle?
    {
      StepKeeps(State(), ReportDone);
      if main.stop {
        keepalive := false;
      }
      main := Idle;
    }

    /** The user's callback, and what other threads do meanwhile */
    method UserCallback(during: seq<Event>)
      requires Inv(State()) && Calls(during)
      modifies this, heartbeat
      ensures Inv(State()) && State() == Run(old(State()), during) && main == old(main)
    {
      for i := 0 to |during|
        invariant Inv(State()) && State() == Run(old(State()), during[..i]) && main == old(main)
      {
        Call(during[i]);
        assert during[..i + 1][..i] == during[..i];
      }
      assert during[..|during|] == during;
    }

    /** `background_activity_shutdown_locked_cb`: heartbeat and keepalive are let go. */
    method ShutdownLockedCb()
      requires Inv(State()) && main.Idle? && released && !inShutdown
      modifies this, heartbeat
      ensures State() == Step(old(State()), ShutdownCb) && Inv(State())
      ensures !keepalive && !reportTimer && !heartbeat.armed
    {
      StepKeeps(State(), ShutdownCb);
      inShutdown := true;
      heartbeat.CloseLocked();
      heartbeat.inShutdown := true;
      keepalive := false;
      reportTimer := false;
    }
  }

  /** A transition does not look at where the main loop is. */
  lemma SetStateKeepsMain(s: Bga, ok: bool)
    ensures SetState(s.(main := Idle), Running, ok) == SetState(s, Running, ok).(main := Idle)
  {
  }
}
