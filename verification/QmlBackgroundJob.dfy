/** `DeclarativeBackgroundJob` of plugin/declarativebackgroundactivity.cpp: its fields and
    functions, each proved against `QmlJob`. */
module QmlBackgroundJob {
  import opened QmlJob

  /** Handlers that do nothing. */
  const QUIET: Reaction := Reaction(Done, Done, Done)

  class BackgroundJob {
    var enabled: bool
    var complete: bool
    var frequency: int
    var minimum: int
    var maximum: int
    var triggeredOnEnable: bool
    var timer: bool
    var previousState: Mode
    // the activity: its state, and the settings it was given last
    var activityState: Mode
    var applied: Settings
    // bookkeeping
    ghost var cancelled: bool
    ghost var entries: nat
    ghost var triggers: nat
    ghost var notified: bool
    ghost var exits: seq<Exit>

    ghost function State(): (s: Job)
      reads this
    {
      Job(enabled, complete, Settings(frequency, minimum, maximum, triggeredOnEnable), timer, previousState,
          activityState, applied, cancelled, entries, triggers, notified, exits)
    }

    constructor ()
      ensures State() == Init() && Fair(State()) && Sound(State())
    {
      enabled, complete, frequency, minimum, maximum := false, false, ONE_HOUR, 0, 0;
      triggeredOnEnable, timer, previousState := false, false, Stopped;
      activityState, applied := Stopped, DEFAULTS;
      cancelled, entries, triggers, notified, exits := false, 0, 0, false, [];
    }

    /** `scheduleUpdate` */
    method ScheduleUpdate()
      modifies this`timer
      ensures timer
    {
      timer := true;
    }

    /** The property setters, with the handlers of their signals */
    method Write(p: Property, changed: Acts)
      modifies this
      ensures State() == DoAct(old(State()), Act.Write(p, changed))
      ensures if old(Same(State(), p)) then State() == old(State()) else timer
      decreases Act.Write(p, changed)
    {
      var same := Assign(p);
      if !same {
        React(changed);
        ScheduleUpdate();
      }
    }

    method Assign(p: Property) returns (same: bool)
      modifies this`enabled, this`frequency, this`minimum, this`maximum, this`triggeredOnEnable
      ensures same == Same(old(State()), p)
      ensures State() == if same then old(State()) else Assigned(old(State()), p)
    {
      match p
      case Enabled(b) => same, enabled := b == enabled, b;
      case TriggeredOnEnable(b) => same, triggeredOnEnable := b == triggeredOnEnable, b;
      case Frequency(n) => same, frequency := n == frequency, n;
      case MinimumWait(n) => same, minimum := n == minimum, n;
      case MaximumWait(n) => same, maximum := n == maximum, n;
    }

    /** The calls a handler makes, one after the other */
    method React(acts: Acts)
      modifies this
      ensures State() == DoActs(old(State()), acts)
      decreases acts
    {
      match acts
      case Done =>
      case Then(first, rest) =>
        match first {
          case Write(p, changed) => Write(p, changed);
          case Begin(r) => BeginJob(r);
          case Finished(r) => FinishJob(r);
        }
        React(rest);
    }

    /** `begin` */
    method BeginJob(r: Reaction)
      modifies this
      ensures State() == DoAct(old(State()), Begin(r))
      ensures !old(complete && enabled) ==> State() == old(State())
      ensures old(complete && enabled) && r == QUIET ==> activityState.Running? && !timer
      decreases r, 2
    {
      if !complete || !enabled {
        return;
      }
      StopTimer();
      SetActivity(Running, ByBegin, r);
    }

    /** `finished` */
    method FinishJob(r: Reaction)
      modifies this
      ensures State() == DoAct(old(State()), Finished(r))
      ensures !old(complete && enabled) ==> State() == old(State())
      ensures old(complete && enabled) && r == QUIET ==> activityState.Waiting? && !timer
      decreases r, 2
    {
      if !complete || !enabled {
        return;
      }
      StopTimer();
      SetActivity(Waiting, ByFinished, r);
    }

    method StopTimer()
      modifies this`timer, this`cancelled
      ensures !timer && cancelled == (old(cancelled) || old(timer))
    {
      cancelled := cancelled || timer;
      timer := false;
    }

    /** `setState` of the activity */
    method SetActivity(mode: Mode, cause: Cause, r: Reaction)
      modifies this
      ensures State() == SetMode(old(State()), mode, cause, r)
      ensures old(activityState) == mode ==> State() == old(State())
      ensures r == QUIET ==> activityState == mode && timer == old(timer)
      decreases r, 1
    {
      if activityState == mode {
        return;
      }
      if activityState.Running? {
        exits := exits + [Exit(cause, enabled)];
      }
      if mode.Running? {
        entries := entries + 1;
      }
      activityState := mode;
      AnnounceRunning(r);
      AnnounceLeft(r);
    }

    /** `runningChanged` is emitted. */
    ghost method Notify()
      modifies this`notified
      ensures State() == old(State().(notified := activityState.Running?))
    {
      notified := activityState.Running?;
    }

    /** `stateChanged`, on having entered Running */
    method AnnounceRunning(r: Reaction)
      modifies this
      ensures State() == Announced(old(State()), r)
      ensures !old(activityState).Running? ==> State() == old(State())
      ensures r == QUIET ==> activityState == old(activityState) && timer == old(timer)
      decreases r, 0
    {
      if activityState.Running? {
        triggers := triggers + 1;
        React(r.onTriggered);
        Notify();
        React(r.onRunning);
      }
    }

    /** And the rest of it */
    method AnnounceLeft(r: Reaction)
      modifies this
      ensures State() == Closed(old(State()), r) && previousState == activityState
      ensures r == QUIET ==> activityState == old(activityState) && timer == old(timer)
      decreases r, 0
    {
      if previousState.Running? {
        Notify();
        React(r.onLeft);
      }
      previousState := activityState;
    }

    /** `update` */
    method UpdateActivity(r: Reaction)
      modifies this
      ensures State() == Update(old(State()), r)
      ensures !old(complete) ==> State() == old(State())
      ensures old(complete && !enabled) && r == QUIET ==> activityState.Stopped?
      ensures old(complete && enabled) && r == QUIET ==>
                if old(activityState.Running?) || old(triggeredOnEnable) then activityState.Running? else activityState.Waiting?
    {
      if !complete {
        return;
      }
      if !enabled {
        SetActivity(Stopped, ByUpdate, r);
      } else {
        applied := Settings(frequency, minimum, maximum, triggeredOnEnable);
        cancelled := false;
        if !activityState.Running? {
          SetActivity(if triggeredOnEnable then Running else Waiting, ByUpdate, r);
        }
      }
    }

    /** `event`, on the job's own timer */
    method OnTimer(r: Reaction)
      requires timer && Fair(State()) && Sound(State())
      modifies this
      ensures State() == Step(old(State()), TimerEvent(r)) && Fair(State()) && Sound(State())
    {
      StepSound(State(), TimerEvent(r));
      timer := false;
      UpdateActivity(r);
    }

    /** `componentComplete` */
    method ComponentComplete(r: Reaction)
      requires Fair(State()) && Sound(State())
      modifies this
      ensures State() == Step(old(State()), Event.Complete(r)) && Fair(State()) && Sound(State())
      ensures complete
    {
      StepSound(State(), Event.Complete(r));
      UpdateSound(State().(complete := true), r);
      complete := true;
      UpdateActivity(r);
      assert complete by { UpdateStaysComplete(old(State()).(complete := true), r); }
    }

    /** The activity's heartbeat rings. */
    method OnWakeup(r: Reaction)
      requires activityState.Waiting? && Fair(State()) && Sound(State())
      modifies this
      ensures State() == Step(old(State()), Wakeup(r)) && Fair(State()) && Sound(State())
      ensures entries > old(entries) && triggers > old(triggers)
      ensures r == QUIET ==> activityState.Running?
    {
      ModeCounts(State(), Running, ByWakeup, r);
      StepSound(State(), Wakeup(r));
      SetActivity(Running, ByWakeup, r);
    }
  }

  lemma UpdateStaysComplete(s: Job, r: Reaction)
    requires s.complete && Fair(s)
    ensures Update(s, r).complete
  {
    if !s.enabled {
      ModeFair(s, Stopped, ByUpdate, r);
    } else if !s.mode.Running? {
      ModeFair(s.(applied := s.settings, cancelled := false), if s.settings.triggeredOnEnable then Running else Waiting, ByUpdate, r);
    }
  }
}
