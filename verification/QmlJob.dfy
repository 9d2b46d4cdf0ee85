/** `DeclarativeBackgroundJob` of plugin/declarativebackgroundactivity.cpp: settings whose
    changes are applied later, all at once, to an activity that it starts and stops.

    Signal handlers are arbitrary code that may write properties and call the job back: a
    reaction is the finite tree of the calls it makes. */
module QmlJob {

  datatype Mode = Stopped | Waiting | Running

  /** BackgroundJob.Range, BackgroundJob.OneHour */
  const RANGE: int := 0
  const ONE_HOUR: int := 3600

  datatype Settings = Settings(frequency: int, minimum: int, maximum: int, triggeredOnEnable: bool)

  datatype Property =
    | Enabled(b: bool) | TriggeredOnEnable(b: bool) | Frequency(seconds: int) | MinimumWait(seconds: int)
    | MaximumWait(seconds: int)

  datatype Act =
    | Write(property: Property, changed: Acts)
    | Begin(reaction: Reaction)
    | Finished(reaction: Reaction)

  datatype Acts = Done | Then(first: Act, rest: Acts)

  /** What handlers do on `triggered`, on the `runningChanged` after it, and on the one for
      having left Running. */
  datatype Reaction = Reaction(onTriggered: Acts, onRunning: Acts, onLeft: Acts)

  datatype Cause = ByBegin | ByFinished | ByUpdate | ByWakeup

  /** Running was left. */
  datatype Exit = Exit(cause: Cause, enabled: bool)

  datatype Job = Job(
    enabled: bool, complete: bool, settings: Settings,
    timer: bool,     // an update is pending
    previous: Mode,
    mode: Mode,      // of the activity
    applied: Settings,  // what the activity was given last
    // bookkeeping the theorems speak about
    cancelled: bool,  // a pending update has been dropped since the last one
    entries: nat, triggers: nat,  // times Running was entered, and `triggered` emitted
    notified: bool,   // the value of `running` when runningChanged was last emitted
    exits: seq<Exit>)

  datatype Event =
    | Call(act: Act)
    | Complete(reaction: Reaction)
    | TimerEvent(reaction: Reaction)
    | Wakeup(reaction: Reaction)  // the activity's heartbeat rings

  const DEFAULTS: Settings := Settings(ONE_HOUR, 0, 0, false)

  function Init(): Job {
    Job(false, false, DEFAULTS, false, Stopped, Stopped, DEFAULTS, false, 0, 0, false, [])
  }

  /** The write changes nothing. */
  predicate Same(s: Job, p: Property) {
    match p
    case Enabled(b) => s.enabled == b
    case TriggeredOnEnable(b) => s.settings.triggeredOnEnable == b
    case Frequency(n) => s.settings.frequency == n
    case MinimumWait(n) => s.settings.minimum == n
    case MaximumWait(n) => s.settings.maximum == n
  }

  function Assigned(s: Job, p: Property): Job {
    match p
    case Enabled(b) => s.(enabled := b)
    case TriggeredOnEnable(b) => s.(settings := s.settings.(triggeredOnEnable := b))
    case Frequency(n) => s.(settings := s.settings.(frequency := n))
    case MinimumWait(n) => s.(settings := s.settings.(minimum := n))
    case MaximumWait(n) => s.(settings := s.settings.(maximum := n))
  }

  /** The activity takes its new state. */
  function Moved(s: Job, mode: Mode, cause: Cause): Job {
    s.(mode := mode, entries := if mode.Running? then s.entries + 1 else s.entries,
       exits := if s.mode.Running? then s.exits + [Exit(cause, s.enabled)] else s.exits)
  }

  /** The slot `stateChanged`, on having entered Running */
  function Announced(s: Job, r: Reaction): Job
    decreases r, 0
  {
    if !s.mode.Running? then s
    else
      var told := DoActs(s.(triggers := s.triggers + 1), r.onTriggered);
      DoActs(told.(notified := told.mode.Running?), r.onRunning)
  }

  /** And the rest of it, on having left Running */
  function Closed(s: Job, r: Reaction): Job
    decreases r, 0
  {
    var left := if s.previous.Running? then DoActs(s.(notified := s.mode.Running?), r.onLeft) else s;
    left.(previous := left.mode)
  }

  /** `setState` of the activity, whose `stateChanged` is connected to the slot of that name */
  function SetMode(s: Job, mode: Mode, cause: Cause, r: Reaction): Job
    decreases r, 1
  {
    if s.mode == mode then s else Closed(Announced(Moved(s, mode, cause), r), r)
  }

  /** A pending update is dropped. */
  function Unscheduled(s: Job): Job { s.(timer := false, cancelled := s.cancelled || s.timer) }

  /** `begin`, `finished` */
  function Command(s: Job, mode: Mode, cause: Cause, r: Reaction): Job
    decreases r, 2
  {
    if !s.complete || !s.enabled then s else SetMode(Unscheduled(s), mode, cause, r)
  }

  function DoAct(s: Job, a: Act): Job
    decreases a
  {
    match a
    case Write(p, changed) => if Same(s, p) then s else DoActs(Assigned(s, p), changed).(timer := true)
    case Begin(r) => Command(s, Running, ByBegin, r)
    case Finished(r) => Command(s, Waiting, ByFinished, r)
  }

  function DoActs(s: Job, acts: Acts): Job
    decreases acts
  {
    match acts
    case Done => s
    case Then(first, rest) => DoActs(DoAct(s, first), rest)
  }

  /** `update` */
  function Update(s: Job, r: Reaction): Job {
    if !s.complete then s
    else if !s.enabled then SetMode(s, Stopped, ByUpdate, r)
    else
      var given := s.(applied := s.settings, cancelled := false);
      if s.mode.Running? then given
      else SetMode(given, if s.settings.triggeredOnEnable then Running else Waiting, ByUpdate, r)
  }

  function Step(s: Job, e: Event): Job {
    match e
    case Call(act) => DoAct(s, act)
    case Complete(r) => Update(s.(complete := true), r)
    case TimerEvent(r) => if s.timer then Update(s.(timer := false), r) else s
    case Wakeup(r) => if s.mode.Waiting? then SetMode(s, Running, ByWakeup, r) else s
  }

  function Run(s: Job, es: seq<Event>): Job {
    if es == [] then s else Step(Run(s, es[..|es| - 1]), es[|es| - 1])
  }

  // ---------------------------------------------------------------- enabled, and not stopped

  predicate Sound(s: Job) {
    && (!s.complete ==> s.mode.Stopped?)
    && (s.complete && !s.timer ==> (s.enabled <==> !s.mode.Stopped?))
    && (s.complete && s.enabled && !s.timer && !s.cancelled ==> s.applied == s.settings)
  }

  /** Holds all the time, in the middle of a property write too. */
  predicate Fair(s: Job) {
    && (!s.complete ==> s.mode.Stopped?)
    && s.entries == s.triggers
    && s.entries == |s.exits| + (if s.mode.Running? then 1 else 0)
    && forall i | 0 <= i < |s.exits| :: s.exits[i].cause.ByFinished? || (s.exits[i].cause.ByUpdate? && !s.exits[i].enabled)
  }

  lemma {:induction false} ActFair(s: Job, a: Act)
    requires Fair(s)
    ensures Fair(DoAct(s, a)) && DoAct(s, a).complete == s.complete
    decreases a
  {
    match a
    case Write(p, changed) => if !Same(s, p) { ActsFair(Assigned(s, p), changed); }
    case Begin(r) => if s.complete && s.enabled { ModeFair(Unscheduled(s), Running, ByBegin, r); }
    case Finished(r) => if s.complete && s.enabled { ModeFair(Unscheduled(s), Waiting, ByFinished, r); }
  }

  lemma {:induction false} ActsFair(s: Job, acts: Acts)
    requires Fair(s)
    ensures Fair(DoActs(s, acts)) && DoActs(s, acts).complete == s.complete
    decreases acts
  {
    match acts
    case Done =>
    case Then(first, rest) =>
      ActFair(s, first);
      ActsFair(DoAct(s, first), rest);
  }

  lemma {:induction false} ModeFair(s: Job, mode: Mode, cause: Cause, r: Reaction)
    requires Fair(s) && s.complete
    requires s.mode.Running? && !mode.Running? ==> cause.ByFinished? || (cause.ByUpdate? && !s.enabled)
    ensures Fair(SetMode(s, mode, cause, r)) && SetMode(s, mode, cause, r).complete
    decreases r, 1
  {
    if s.mode != mode {
      var m := Moved(s, mode, cause);
      AnnouncedFair(m, r);
      ClosedFair(Announced(m, r), r);
    }
  }

  lemma {:induction false} AnnouncedFair(s: Job, r: Reaction)
    requires s.complete && Fair(if s.mode.Running? then s.(triggers := s.triggers + 1) else s)
    ensures Fair(Announced(s, r)) && Announced(s, r).complete
    decreases r, 0
  {
    if s.mode.Running? {
      var told := DoActs(s.(triggers := s.triggers + 1), r.onTriggered);
      ActsFair(s.(triggers := s.triggers + 1), r.onTriggered);
      ActsFair(told.(notified := told.mode.Running?), r.onRunning);
    }
  }

  lemma {:induction false} ClosedFair(s: Job, r: Reaction)
    requires Fair(s) && s.complete
    ensures Fair(Closed(s, r)) && Closed(s, r).complete
    decreases r, 0
  {
    if s.previous.Running? { ActsFair(s.(notified := s.mode.Running?), r.onLeft); }
  }

  lemma {:induction false} ActSound(s: Job, a: Act)
    requires Fair(s) && Sound(s)
    ensures Sound(DoAct(s, a))
    decreases a
  {
    ActFair(s, a);
    match a
    case Write(p, changed) => if !Same(s, p) { ActFair(s, a); }
    case Begin(r) => if s.complete && s.enabled { ModeSound(Unscheduled(s), Running, ByBegin, r); }
    case Finished(r) => if s.complete && s.enabled { ModeSound(Unscheduled(s), Waiting, ByFinished, r); }
  }

  lemma {:induction false} ActsSound(s: Job, acts: Acts)
    requires Fair(s) && Sound(s)
    ensures Sound(DoActs(s, acts))
    decreases acts
  {
    match acts
    case Done =>
    case Then(first, rest) =>
      ActFair(s, first);
      ActSound(s, first);
      ActsSound(DoAct(s, first), rest);
  }

  lemma {:induction false} ModeSound(s: Job, mode: Mode, cause: Cause, r: Reaction)
    requires Fair(s) && s.complete && Sound(s.(mode := mode))
    requires s.mode.Running? && !mode.Running? ==> cause.ByFinished? || (cause.ByUpdate? && !s.enabled)
    ensures Sound(SetMode(s, mode, cause, r))
    decreases r, 1
  {
    if s.mode != mode {
      var m := Moved(s, mode, cause);
      AnnouncedFair(m, r);
      AnnouncedSound(m, r);
      ClosedSound(Announced(m, r), r);
    }
  }

  lemma {:induction false} AnnouncedSound(s: Job, r: Reaction)
    requires Sound(s) && Fair(if s.mode.Running? then s.(triggers := s.triggers + 1) else s)
    ensures Sound(Announced(s, r))
    decreases r, 0
  {
    if s.mode.Running? {
      var told := DoActs(s.(triggers := s.triggers + 1), r.onTriggered);
      ActsFair(s.(triggers := s.triggers + 1), r.onTriggered);
      ActsSound(s.(triggers := s.triggers + 1), r.onTriggered);
      ActsSound(told.(notified := told.mode.Running?), r.onRunning);
    }
  }

  lemma {:induction false} ClosedSound(s: Job, r: Reaction)
    requires Fair(s) && Sound(s)
    ensures Sound(Closed(s, r))
    decreases r, 0
  {
    if s.previous.Running? { ActsSound(s.(notified := s.mode.Running?), r.onLeft); }
  }

  lemma StepSound(s: Job, e: Event)
    requires Fair(s) && Sound(s)
    ensures Fair(Step(s, e)) && Sound(Step(s, e))
  {
    match e
    case Call(act) =>
      ActFair(s, act);
      ActSound(s, act);
    case Complete(r) => UpdateSound(s.(complete := true), r);
    case TimerEvent(r) => if s.timer { UpdateSound(s.(timer := false), r); }
    case Wakeup(r) =>
      if s.mode.Waiting? {
        ModeFair(s, Running, ByWakeup, r);
        ModeSound(s, Running, ByWakeup, r);
      }
  }

  lemma UpdateSound(s: Job, r: Reaction)
    requires Fair(s)
    ensures Fair(Update(s, r)) && Sound(Update(s, r))
  {
    if s.complete && !s.enabled {
      ModeFair(s, Stopped, ByUpdate, r);
      ModeSound(s, Stopped, ByUpdate, r);
    } else if s.complete && !s.mode.Running? {
      var given := s.(applied := s.settings, cancelled := false);
      var mode := if s.settings.triggeredOnEnable then Running else Waiting;
      ModeFair(given, mode, ByUpdate, r);
      ModeSound(given, mode, ByUpdate, r);
    }
  }

  lemma {:induction false} AlwaysSound(es: seq<Event>)
    ensures Fair(Run(Init(), es)) && Sound(Run(Init(), es))
  {
    if es != [] {
      AlwaysSound(es[..|es| - 1]);
      StepSound(Run(Init(), es[..|es| - 1]), es[|es| - 1]);
    }
  }

  /** For every sequence of writes, calls, timer events and wakeups, whatever the handlers do:
      once complete and with no update pending the job is enabled exactly if its activity is
      not stopped, and unless an update has been cancelled the activity has the settings. */
  lemma EnabledIffNotStopped(es: seq<Event>)
    ensures var s := Run(Init(), es);
            s.complete && !s.timer ==>
              && (s.enabled <==> !s.mode.Stopped?)
              && (s.enabled && !s.cancelled ==> s.applied == s.settings)
  {
    AlwaysSound(es);
  }

  /** Running is left as often as it is entered, but for the run in progress, and only by
      `finished` or by an update that sees the job disabled; `triggered` is emitted once for each
      time it is entered. */
  lemma RunningIsKept(es: seq<Event>)
    ensures var s := Run(Init(), es);
            && s.entries == s.triggers == |s.exits| + (if s.mode.Running? then 1 else 0)
            && forall i | 0 <= i < |s.exits| ::
                 s.exits[i].cause.ByFinished? || (s.exits[i].cause.ByUpdate? && !s.exits[i].enabled)
  {
    AlwaysSound(es);
  }

  /** Undisturbed, enabling a complete job that is not running starts it with the next update:
      at once if that is asked for, and else with a wait; disabling it stops it.  Either way
      the activity has the settings by then. */
  lemma EnablingTakesEffect(es: seq<Event>, enable: bool)
    ensures var quiet := Reaction(Done, Done, Done);
            var s := Run(Init(), es);
            var t := Step(Step(s, Call(Write(Enabled(enable), Done))), TimerEvent(quiet));
            s.complete && s.enabled != enable ==>
              && t.enabled == enable && !t.timer && t.settings == s.settings
              && (t.mode == if !enable then Stopped
                            else if s.mode.Running? || s.settings.triggeredOnEnable then Running
                            else Waiting)
              && (enable ==> t.applied == s.settings)
  {
    var quiet := Reaction(Done, Done, Done);
    var s := Run(Init(), es);
    var w := DoAct(s, Write(Enabled(enable), Done));
    if s.enabled != enable {
      assert w == s.(enabled := enable, timer := true);
      QuietMode(w.(timer := false), Stopped);
      QuietMode(w.(timer := false, applied := w.settings, cancelled := false), Running);
      QuietMode(w.(timer := false, applied := w.settings, cancelled := false), Waiting);
    }
  }

  /** What a property reads. */
  function Value(s: Job, p: Property): Property {
    match p
    case Enabled(_) => Enabled(s.enabled)
    case TriggeredOnEnable(_) => TriggeredOnEnable(s.settings.triggeredOnEnable)
    case Frequency(_) => Frequency(s.settings.frequency)
    case MinimumWait(_) => MinimumWait(s.settings.minimum)
    case MaximumWait(_) => MaximumWait(s.settings.maximum)
  }

  predicate SameProperty(p: Property, q: Property) {
    match p
    case Enabled(_) => q.Enabled?
    case TriggeredOnEnable(_) => q.TriggeredOnEnable?
    case Frequency(_) => q.Frequency?
    case MinimumWait(_) => q.MinimumWait?
    case MaximumWait(_) => q.MaximumWait?
  }

  /** A property reads what was written to it, and no other property changes.  A write that changes
      it leaves an update pending, whatever its handlers do; one that does not does nothing. */
  lemma WriteIsRead(s: Job, p: Property, q: Property, changed: Acts)
    ensures var t := DoAct(s, Write(p, Done));
            Value(t, p) == p && (!SameProperty(p, q) ==> Value(t, q) == Value(s, q))
    ensures if Value(s, p) == p then DoAct(s, Write(p, changed)) == s else DoAct(s, Write(p, changed)).timer
  {
    if !Same(s, p) { assert DoActs(Assigned(s, p), Done) == Assigned(s, p); }
  }

  // ---------------------------------------------------------------- runs are counted

  lemma {:induction false} ActCounts(s: Job, a: Act)
    ensures DoAct(s, a).entries >= s.entries && DoAct(s, a).triggers >= s.triggers
    decreases a
  {
    match a
    case Write(p, changed) => if !Same(s, p) { ActsCount(Assigned(s, p), changed); }
    case Begin(r) => if s.complete && s.enabled { ModeCounts(Unscheduled(s), Running, ByBegin, r); }
    case Finished(r) => if s.complete && s.enabled { ModeCounts(Unscheduled(s), Waiting, ByFinished, r); }
  }

  lemma {:induction false} ActsCount(s: Job, acts: Acts)
    ensures DoActs(s, acts).entries >= s.entries && DoActs(s, acts).triggers >= s.triggers
    decreases acts
  {
    match acts
    case Done =>
    case Then(first, rest) =>
      ActCounts(s, first);
      ActsCount(DoAct(s, first), rest);
  }

  lemma {:induction false} ModeCounts(s: Job, mode: Mode, cause: Cause, r: Reaction)
    ensures var t := SetMode(s, mode, cause, r);
            && t.entries >= s.entries && t.triggers >= s.triggers
            && (mode.Running? && !s.mode.Running? ==> t.entries > s.entries && t.triggers > s.triggers)
    decreases r, 1
  {
    if s.mode != mode {
      var m := Moved(s, mode, cause);
      AnnouncedCounts(m, r);
      ClosedCounts(Announced(m, r), r);
    }
  }

  lemma {:induction false} AnnouncedCounts(s: Job, r: Reaction)
    ensures var t := Announced(s, r);
            t.entries >= s.entries && t.triggers >= s.triggers + (if s.mode.Running? then 1 else 0)
    decreases r, 0
  {
    if s.mode.Running? {
      var told := DoActs(s.(triggers := s.triggers + 1), r.onTriggered);
      ActsCount(s.(triggers := s.triggers + 1), r.onTriggered);
      ActsCount(told.(notified := told.mode.Running?), r.onRunning);
    }
  }

  lemma {:induction false} ClosedCounts(s: Job, r: Reaction)
    ensures Closed(s, r).entries >= s.entries && Closed(s, r).triggers >= s.triggers
    decreases r, 0
  {
    if s.previous.Running? { ActsCount(s.(notified := s.mode.Running?), r.onLeft); }
  }

  /** A waiting job runs when its heartbeat rings: Running is entered and `triggered` emitted
      whatever the handlers do, and undisturbed it is left running, its settings as they were. */
  lemma WakeupRunsJob(es: seq<Event>, r: Reaction)
    ensures var s := Run(Init(), es);
            var t, u := Step(s, Wakeup(r)), Step(s, Wakeup(Reaction(Done, Done, Done)));
            if !s.mode.Waiting? then t == s
            else
              && t.entries > s.entries && t.triggers > s.triggers
              && u.mode.Running? && u.entries == s.entries + 1 && u.triggers == s.triggers + 1 && SameSettings(s, u)
  {
    var s := Run(Init(), es);
    ModeCounts(s, Running, ByWakeup, r);
    if s.mode.Waiting? { QuietWakeup(s); }
  }

  lemma QuietWakeup(s: Job)
    requires s.mode.Waiting?
    ensures var u := Step(s, Wakeup(Reaction(Done, Done, Done)));
            u.mode.Running? && u.entries == s.entries + 1 && u.triggers == s.triggers + 1 && SameSettings(s, u)
  {
    var quiet := Reaction(Done, Done, Done);
    var m := Moved(s, Running, ByWakeup);
    QuietAnnounced(m);
    QuietClosed(Announced(m, quiet));
    assert Announced(m, quiet) == m.(triggers := m.triggers + 1, notified := true);
  }

  /** What a change of state leaves alone. */
  predicate SameSettings(s: Job, t: Job) {
    t.enabled == s.enabled && t.timer == s.timer && t.settings == s.settings && t.applied == s.applied
  }

  lemma QuietAnnounced(s: Job)
    ensures var t := Announced(s, Reaction(Done, Done, Done)); t.mode == s.mode && SameSettings(s, t)
  {
  }

  lemma QuietClosed(s: Job)
    ensures var t := Closed(s, Reaction(Done, Done, Done)); t.mode == s.mode && SameSettings(s, t)
  {
  }

  lemma QuietMode(s: Job, mode: Mode)
    ensures var t := SetMode(s, mode, ByUpdate, Reaction(Done, Done, Done)); t.mode == mode && SameSettings(s, t)
  {
    var m := Moved(s, mode, ByUpdate);
    QuietAnnounced(m);
    QuietClosed(Announced(m, Reaction(Done, Done, Done)));
  }

  // ---------------------------------------------------------------- bindings to `running`

  /** Calls that do not finish the job. */
  predicate Calm(acts: Acts)
    decreases acts
  {
    match acts
    case Done => true
    case Then(Write(_, changed), rest) => Calm(changed) && Calm(rest)
    case Then(Begin(_), rest) => Calm(rest)
    case Then(Finished(_), rest) => false
  }

  predicate TameAct(a: Act)
    decreases a
  {
    match a
    case Write(_, changed) => Tame(changed)
    case Begin(r) => TameReaction(r)
    case Finished(r) => TameReaction(r)
  }

  predicate Tame(acts: Acts)
    decreases acts
  {
    match acts
    case Done => true
    case Then(first, rest) => TameAct(first) && Tame(rest)
  }

  /** The first `runningChanged` is not used to finish the job. */
  predicate TameReaction(r: Reaction)
    decreases r
  {
    Tame(r.onTriggered) && Calm(r.onRunning) && Tame(r.onRunning) && Tame(r.onLeft)
  }

  predicate TameEvent(e: Event) { if e.Call? then TameAct(e.act) else TameReaction(e.reaction) }

  /** Who listens to `runningChanged` knows whether the job runs, and will hear of the end. */
  predicate Told(s: Job) { s.notified == s.mode.Running? && (s.mode.Running? ==> s.previous.Running?) }

  lemma BeginStays(s: Job, r: Reaction)
    requires s.mode.Running?
    ensures DoAct(s, Begin(r)) == if s.complete && s.enabled then Unscheduled(s) else s
  {
    assert SetMode(Unscheduled(s), Running, ByBegin, r) == Unscheduled(s);
  }

  /** Nothing but `finished` and an update leaves Running. */
  lemma {:induction false} CalmStays(s: Job, acts: Acts)
    requires s.mode.Running? && s.notified && Calm(acts)
    ensures DoActs(s, acts).mode.Running? && DoActs(s, acts).notified && DoActs(s, acts).previous == s.previous
    decreases acts
  {
    match acts
    case Done =>
    case Then(Write(p, changed), rest) =>
      if !Same(s, p) { CalmStays(Assigned(s, p), changed); }
      CalmStays(DoAct(s, acts.first), rest);
    case Then(Begin(r), rest) =>
      BeginStays(s, r);
      CalmStays(DoAct(s, Begin(r)), rest);
  }

  lemma {:induction false} ActTold(s: Job, a: Act)
    requires Told(s) && TameAct(a)
    ensures Told(DoAct(s, a))
    decreases a
  {
    match a
    case Write(p, changed) => if !Same(s, p) { ActsTold(Assigned(s, p), changed); }
    case Begin(r) => ModeTold(Unscheduled(s), Running, ByBegin, r);
    case Finished(r) => ModeTold(Unscheduled(s), Waiting, ByFinished, r);
  }

  lemma {:induction false} ActsTold(s: Job, acts: Acts)
    requires Told(s) && Tame(acts)
    ensures Told(DoActs(s, acts))
    decreases acts
  {
    match acts
    case Done =>
    case Then(first, rest) =>
      ActTold(s, first);
      ActsTold(DoAct(s, first), rest);
  }

  lemma {:induction false} ModeTold(s: Job, mode: Mode, cause: Cause, r: Reaction)
    requires Told(s) && TameReaction(r)
    ensures Told(SetMode(s, mode, cause, r))
    decreases r
  {
    if s.mode != mode {
      var m := Moved(s, mode, cause);
      if mode.Running? {
        var told := DoActs(m.(triggers := m.triggers + 1), r.onTriggered);
        var heard := told.(notified := told.mode.Running?);
        if heard.mode.Running? { CalmStays(heard, r.onRunning); } else { ActsTold(heard, r.onRunning); }
      }
      var running := Announced(m, r);
      if running.previous.Running? { ActsTold(running.(notified := running.mode.Running?), r.onLeft); }
    }
  }

  lemma StepTold(s: Job, e: Event)
    requires Told(s) && TameEvent(e)
    ensures Told(Step(s, e))
  {
    match e
    case Call(act) => ActTold(s, act);
    case Complete(r) => UpdateTold(s.(complete := true), r);
    case TimerEvent(r) => UpdateTold(s.(timer := false), r);
    case Wakeup(r) => ModeTold(s, Running, ByWakeup, r);
  }

  lemma UpdateTold(s: Job, r: Reaction)
    requires Told(s) && TameReaction(r)
    ensures Told(Update(s, r))
  {
    if !s.enabled { ModeTold(s, Stopped, ByUpdate, r); }
    else if !s.mode.Running? {
      ModeTold(s.(applied := s.settings, cancelled := false),
               if s.settings.triggeredOnEnable then Running else Waiting, ByUpdate, r);
    }
  }

  /** Bindings to `running` are up to date at rest, if no handler of the `runningChanged` for
      entering Running finishes the job. */
  lemma {:induction false} RunningIsNotified(es: seq<Event>)
    requires forall i | 0 <= i < |es| :: TameEvent(es[i])
    ensures Told(Run(Init(), es))
  {
    if es != [] {
      var before := es[..|es| - 1];
      assert forall i | 0 <= i < |before| :: before[i] == es[i];
      RunningIsNotified(before);
      StepTold(Run(Init(), before), es[|es| - 1]);
    }
  }

  /** If one does, the job has stopped running and nobody is told. */
  lemma StaleBinding(s: Job)
    requires s.complete && s.enabled && s.mode.Waiting? && !s.previous.Running?
    ensures var quiet := Reaction(Done, Done, Done);
            var t := DoAct(s, Begin(Reaction(Done, Then(Finished(quiet), Done), Done)));
            t.mode.Waiting? && t.notified && !t.timer
  {
    var quiet := Reaction(Done, Done, Done);
    var finish := Then(Finished(quiet), Done);
    var r := Reaction(Done, finish, Done);
    var m := Moved(Unscheduled(s), Running, ByBegin);
    var heard := m.(triggers := m.triggers + 1, notified := true);
    var w := DoAct(heard, Finished(quiet));
    assert w == Closed(Announced(Moved(Unscheduled(heard), Waiting, ByFinished), quiet), quiet);
    assert DoActs(heard, finish) == DoActs(w, Done) == w;
    assert Announced(m, r) == w;
    assert DoAct(s, Begin(r)) == Closed(w, r);
  }

  /** For one: a job is enabled, waits, and is begun; the handler of `runningChanged` finishes it. */
  lemma StaleRun()
    ensures var quiet := Reaction(Done, Done, Done);
            var begin := Begin(Reaction(Done, Then(Finished(quiet), Done), Done));
            var s := Run(Init(), [Complete(quiet), Call(Write(Enabled(true), Done)), TimerEvent(quiet), Call(begin)]);
            s.mode.Waiting? && s.notified && !s.timer
  {
    var quiet := Reaction(Done, Done, Done);
    var begin := Begin(Reaction(Done, Then(Finished(quiet), Done), Done));
    var es := [Complete(quiet), Call(Write(Enabled(true), Done)), TimerEvent(quiet), Call(begin)];
    assert es[..3][..2] == es[..2] && es[..2][..1] == es[..1] && es[..1][..0] == [];
    var complete := Update(Init().(complete := true), quiet);
    assert Run(Init(), es[..1]) == complete == Init().(complete := true);
    var enabled := complete.(enabled := true, timer := true);
    assert DoAct(complete, Write(Enabled(true), Done)) == enabled;
    assert Run(Init(), es[..2]) == enabled;
    var given := enabled.(timer := false, applied := DEFAULTS, cancelled := false);
    assert Closed(Announced(Moved(given, Waiting, ByUpdate), quiet), quiet) == given.(mode := Waiting, previous := Waiting);
    assert Run(Init(), es[..3]) == given.(mode := Waiting, previous := Waiting);
    StaleBinding(Run(Init(), es[..3]));
  }
}
