/** `BackgroundActivityPrivate` of lib/backgroundactivity_p.cpp: its fields, with the heartbeat
    it owns, and its functions, each proved against `QtActivity`. */
module QtBackgroundActivity {
  import opened Sessions
  import QtHeartbeat
  import opened QtActivity

  class BackgroundActivity {
    var state: Mode
    var wakeupFreq: int
    var wakeupRangeMin: int
    var wakeupRangeMax: int
    const heartbeat: QtHeartbeat.Heartbeat
    var keepaliveQueried: bool
    var keepalivePeriod: int
    var keepaliveTimer: bool
    var keepaliveInterval: int
    // around it: what MCE has been told, and the signals emitted so far
    var trace: seq<Msg>
    var signals: seq<Signal>

    function State(): (s: Activity)
      reads this, heartbeat
    {
      Activity(state, wakeupFreq, wakeupRangeMin, wakeupRangeMax, heartbeat.State(), keepaliveQueried,
               keepalivePeriod, keepaliveTimer, keepaliveInterval, trace, signals)
    }

    constructor ()
      ensures State() == Init() && Sound(State()) && fresh(heartbeat)
    {
      state, wakeupFreq, wakeupRangeMin, wakeupRangeMax := Stopped, RANGE, 0, 0;
      heartbeat := new QtHeartbeat.Heartbeat();
      keepaliveQueried, keepalivePeriod, keepaliveTimer, keepaliveInterval := false, 60, false, 0;
      trace, signals := [], [];
    }

    /** `startKeepalivePeriod` */
    method StartKeepalivePeriod()
      modifies this`trace, this`keepaliveTimer, this`keepaliveInterval
      ensures if state.Running?
              then trace == old(trace) + [Start] && keepaliveTimer && keepaliveInterval == keepalivePeriod * 1000
              else trace == old(trace) && keepaliveTimer == old(keepaliveTimer) && keepaliveInterval == old(keepaliveInterval)
    {
      if !state.Running? {
        return;
      }
      trace := trace + [Start];
      keepaliveInterval := keepalivePeriod * 1000;
      keepaliveTimer := true;
    }

    /** `stopKeepalivePeriod` */
    method StopKeepalivePeriod()
      modifies this`trace, this`keepaliveTimer
      ensures trace == old(trace) + [Stop] && !keepaliveTimer
    {
      keepaliveTimer := false;
      trace := trace + [Stop];
    }

    /** A signal goes out: the object is as its state says. */
    method EmitSignal(signal: Signal)
      requires Sound(State()) && signal.look == LookAt(State()) && (signal.Entered? ==> signal.mode == state)
      modifies this`signals
      ensures State() == Emit(old(State()), signal) && Sound(State())
    {
      EmitKeeps(State(), signal);
      signals := signals + [signal];
    }

    /** `setState`, up to its signals */
    method Transition(newState: Mode, ok: bool)
      requires newState != state && (keepaliveTimer ==> state.Running?)
      modifies this, heartbeat
      ensures State() == Transit(old(State()), newState, ok)
    {
      var wasRunning := false;
      if state.Waiting? {
        heartbeat.StopWaiting();
      } else if state.Running? {
        wasRunning := true;
      }
      state := newState;
      if state.Waiting? {
        keepaliveQueried := true;
        if wakeupFreq != RANGE {
          heartbeat.StartWaiting(wakeupFreq, wakeupFreq, ok);
        } else {
          heartbeat.StartWaiting(wakeupRangeMin, wakeupRangeMax, ok);
        }
      } else if state.Running? {
        keepaliveQueried := true;
        StartKeepalivePeriod();
      }
      if wasRunning {
        StopKeepalivePeriod();
      }
    }

    /** `setState`, with what the slots connected to its signals do */
    method SetTo(newState: Mode, ok: bool, changed: Acts, entered: Acts)
      requires Sound(State()) || (Ringing(State()) && newState.Running?)
      modifies this, heartbeat
      ensures Sound(State()) && State() == DoAct(old(State()), SetState(newState, ok, changed, entered))
      decreases SetState(newState, ok, changed, entered)
    {
      if state == newState {
        return;
      }
      TransitKeeps(State(), newState, ok);
      Transition(newState, ok);
      EmitSignal(Changed(Look(state, keepaliveTimer, heartbeat.State())));
      React(changed);
      EmitSignal(Entered(state, Look(state, keepaliveTimer, heartbeat.State())));
      React(entered);
    }

    /** The calls a slot makes, one after the other */
    method React(acts: Acts)
      requires Sound(State())
      modifies this, heartbeat
      ensures Sound(State()) && State() == DoActs(old(State()), acts)
      decreases acts
    {
      match acts
      case Done =>
      case Then(first, rest) =>
        match first {
          case SetWakeup(slot, min, max) => ChangeWakeup(slot, min, max);
          case SetState(mode, ok, changed, entered) => SetTo(mode, ok, changed, entered);
        }
        React(rest);
    }

    /** `setWakeup` */
    method ChangeWakeup(slot: int, min: int, max: int)
      modifies this`wakeupFreq, this`wakeupRangeMin, this`wakeupRangeMax
      ensures State() == Wake(old(State()), slot, min, max) && wakeupFreq == slot
      ensures slot != RANGE ==> wakeupRangeMin == wakeupRangeMax == 0
      ensures slot == RANGE ==> wakeupRangeMin == min && wakeupRangeMax == if max < min then min + 12 else max
    {
      if slot != RANGE {
        wakeupFreq, wakeupRangeMin, wakeupRangeMax := slot, 0, 0;
      } else {
        var most := max;
        if most < min {
          most := min + HEARTBEAT_INTERVAL;
        }
        wakeupFreq, wakeupRangeMin, wakeupRangeMax := RANGE, min, most;
      }
    }

    /** `Heartbeat::wakeup`, whose timeout signal is connected to `run` */
    method HeartbeatWakeup(broken: bool, data: bool, ok: bool, changed: Acts, entered: Acts)
      requires Sound(State()) && heartbeat.wakeupNotifier
      modifies this, heartbeat
      ensures Sound(State())
      ensures data || broken ==> State() == Step(old(State()), Wakeup(broken, ok, changed, entered))
      ensures !broken && data && old(heartbeat.waiting) && changed.Done? && entered.Done? ==> state.Running?
    {
      ghost var before := State();
      var timeout := heartbeat.Wakeup(broken, data, ok);
      if timeout {
        SetTo(Running, ok, changed, entered);
      }
    }

    /** `renewKeepalivePeriod`, on its timer's signal */
    method RenewKeepalivePeriod()
      requires Sound(State()) && keepaliveTimer
      modifies this`trace
      ensures Sound(State()) && State() == Step(old(State()), RenewTimer) && trace == old(trace) + [Renew]
    {
      TraceGrows(trace, false);
      trace := trace + [Renew];
    }

    /** `keepalivePeriodReply`, on a valid reply */
    method KeepalivePeriodReply(period: int)
      requires Sound(State())
      modifies this`keepalivePeriod, this`keepaliveTimer, this`keepaliveInterval, this`trace
      ensures Sound(State()) && State() == Step(old(State()), PeriodReply(period))
      ensures keepalivePeriod == period && keepaliveTimer == old(keepaliveTimer)
      ensures keepaliveTimer ==> keepaliveInterval == period * 1000
      ensures trace == old(trace) + if old(keepaliveTimer && keepalivePeriod != period) then [Renew] else []
    {
      TraceGrows(trace, false);
      if keepalivePeriod != period {
        keepalivePeriod := period;
        if keepaliveTimer {
          trace := trace + [Renew];
          keepaliveInterval := keepalivePeriod * 1000;
        }
      }
    }
  }
}
