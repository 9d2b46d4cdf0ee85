/** `BackgroundActivityPrivate` of lib/backgroundactivity_p.cpp with its heartbeat, on one
    thread.

    The slots connected to its signals are arbitrary code that may call back: a reaction is
    the finite tree of the calls it makes, with the reactions to the signals those emit. */
module QtActivity {
  import opened Sessions
  import QtHeartbeat

  datatype Mode = Stopped | Waiting | Running

  /** BackgroundActivity::Range; any other frequency is a number of seconds. */
  const RANGE: int := 0

  const HEARTBEAT_INTERVAL: int := 12

  datatype Act =
    | SetState(mode: Mode, ok: bool, changed: Acts, entered: Acts)  // with the reactions to its two signals
    | SetWakeup(slot: int, min: int, max: int)

  datatype Acts = Done | Then(first: Act, rest: Acts)

  /** What a slot can see of the object when a signal reaches it. */
  datatype Look = Look(mode: Mode, timer: bool, hb: QtHeartbeat.Hb)

  /** `stateChanged`, and the one of `stopped`, `waiting` and `running` that follows */
  datatype Signal = Changed(look: Look) | Entered(mode: Mode, look: Look)

  datatype Activity = Activity(
    mode: Mode, freq: int, min: int, max: int,
    hb: QtHeartbeat.Hb,
    queried: bool, period: int,
    timer: bool, interval: int,  // m_keepalive_timer
    trace: seq<Msg>,             // what MCE has been told
    signals: seq<Signal>)

  datatype Event =
    | User(act: Act)
    | Wakeup(broken: bool, ok: bool, changed: Acts, entered: Acts)
    | RetryTimer(ok: bool) | RenewTimer | PeriodReply(period: int)

  function Init(): Activity {
    Activity(Stopped, RANGE, 0, 0, QtHeartbeat.NewHb(), false, 60, false, 0, [], [])
  }

  function LookAt(s: Activity): Look { Look(s.mode, s.timer, s.hb) }

  /** The interval `setState` hands to the heartbeat */
  function Interval(s: Activity): (int, int) { if s.freq != RANGE then (s.freq, s.freq) else (s.min, s.max) }

  /** `setState` on the heartbeat */
  function NextHb(s: Activity, mode: Mode, ok: bool): QtHeartbeat.Hb {
    var left := if s.mode.Waiting? then QtHeartbeat.Stop(s.hb) else s.hb;
    if mode.Waiting? then QtHeartbeat.Start(QtHeartbeat.SetInterval(left, Interval(s).0, Interval(s).1), ok) else left
  }

  /** `setState`, up to its signals */
  function Transit(s: Activity, mode: Mode, ok: bool): Activity {
    var hb := NextHb(s, mode, ok);
    s.(mode := mode, hb := hb, queried := s.queried || !mode.Stopped?,
       timer := mode.Running?, interval := if mode.Running? then s.period * 1000 else s.interval,
       trace := if mode.Running? then s.trace + [Start] else if s.mode.Running? then s.trace + [Stop] else s.trace)
  }

  /** `setWakeup` */
  function Wake(s: Activity, slot: int, min: int, max: int): Activity {
    if slot != RANGE then s.(freq := slot, min := 0, max := 0)
    else s.(freq := RANGE, min := min, max := if max < min then min + HEARTBEAT_INTERVAL else max)
  }

  function Emit(s: Activity, signal: Signal): Activity { s.(signals := s.signals + [signal]) }

  function DoAct(s: Activity, a: Act): Activity
    decreases a
  {
    match a
    case SetWakeup(slot, min, max) => Wake(s, slot, min, max)
    case SetState(mode, ok, changed, entered) =>
      if s.mode == mode then s
      else
        var t := Transit(s, mode, ok);
        var u := DoActs(Emit(t, Changed(LookAt(t))), changed);
        DoActs(Emit(u, Entered(u.mode, LookAt(u))), entered)
  }

  function DoActs(s: Activity, acts: Acts): Activity
    decreases acts
  {
    match acts
    case Done => s
    case Then(first, rest) => DoActs(DoAct(s, first), rest)
  }

  /** `Heartbeat::wakeup`, its timeout signal connected to `run` */
  function Ring(s: Activity, ok: bool, changed: Acts, entered: Acts): Activity {
    if !QtHeartbeat.Wakes(s.hb) then s
    else DoAct(s.(hb := QtHeartbeat.Woken(s.hb)), SetState(Running, ok, changed, entered))
  }

  /** `keepalivePeriodReply` */
  function SetPeriod(s: Activity, period: int): Activity {
    if s.period == period then s
    else if s.timer then s.(period := period, interval := period * 1000, trace := s.trace + [Renew])
    else s.(period := period)
  }

  function Step(s: Activity, e: Event): Activity {
    match e
    case User(act) => DoAct(s, act)
    case Wakeup(broken, ok, changed, entered) =>
      if broken then s.(hb := QtHeartbeat.Broken(s.hb, ok)) else Ring(s, ok, changed, entered)
    case RetryTimer(ok) => s.(hb := QtHeartbeat.RetryConnect(s.hb, ok))
    case RenewTimer => if s.timer then s.(trace := s.trace + [Renew]) else s
    case PeriodReply(period) => SetPeriod(s, period)
  }

  function Run(s: Activity, es: seq<Event>): Activity {
    if es == [] then s else Step(Run(s, es[..|es| - 1]), es[|es| - 1])
  }

  // ---------------------------------------------------------------- the invariant

  /** What a slot is entitled to see: the keepalive timer is active exactly in Running, the
      heartbeat is started exactly in Waiting, and if it waits it can ring. */
  predicate SoundLook(look: Look) {
    && (look.timer <==> look.mode.Running?)
    && (look.hb.started <==> look.mode.Waiting?)
    && (look.hb.waiting ==> look.hb.started && look.hb.handle && !look.hb.retry)
    && QtHeartbeat.HbInv(look.hb)
  }

  predicate SoundSignal(signal: Signal) {
    SoundLook(signal.look) && (signal.Entered? ==> signal.mode == signal.look.mode)
  }

  predicate SoundSignals(signals: seq<Signal>) {
    forall i | 0 <= i < |signals| :: SoundSignal(signals[i])
  }

  predicate Sound(s: Activity) {
    && SoundLook(LookAt(s))
    && (s.timer ==> s.interval == s.period * 1000)
    && (!s.mode.Stopped? ==> s.queried)
    && Grammar(s.trace, false) && (Open(s.trace) <==> s.mode.Running?)
    && SoundSignals(s.signals)
  }

  /** The same inside `Heartbeat::wakeup`, when the heartbeat has just rung. */
  predicate Ringing(s: Activity) {
    && s.mode.Waiting? && s.queried && !s.timer && !s.hb.started && QtHeartbeat.HbInv(s.hb)
    && Grammar(s.trace, false) && !Open(s.trace) && SoundSignals(s.signals)
  }

  lemma TransitKeeps(s: Activity, mode: Mode, ok: bool)
    requires s.mode != mode && (Sound(s) || (Ringing(s) && mode.Running?))
    ensures Sound(Transit(s, mode, ok))
  {
    TraceGrows(s.trace, false);
    QtHeartbeat.CallsKeep(s.hb, Interval(s).0, Interval(s).1, ok);
    var left := if s.mode.Waiting? then QtHeartbeat.Stop(s.hb) else s.hb;
    QtHeartbeat.CallsKeep(left, Interval(s).0, Interval(s).1, ok);
    QtHeartbeat.CallsKeep(QtHeartbeat.SetInterval(left, Interval(s).0, Interval(s).1), 0, 0, ok);
  }

  lemma EmitKeeps(s: Activity, signal: Signal)
    requires Sound(s) && signal.look == LookAt(s) && (signal.Entered? ==> signal.mode == s.mode)
    ensures Sound(Emit(s, signal))
  {
  }

  lemma {:induction false} ActKeeps(s: Activity, a: Act)
    requires Sound(s) || (Ringing(s) && a.SetState? && a.mode.Running?)
    ensures Sound(DoAct(s, a))
    decreases a
  {
    match a
    case SetWakeup(_, _, _) =>
    case SetState(mode, ok, changed, entered) =>
      if s.mode != mode {
        var t := Transit(s, mode, ok);
        TransitKeeps(s, mode, ok);
        EmitKeeps(t, Changed(LookAt(t)));
        ActsKeep(Emit(t, Changed(LookAt(t))), changed);
        var u := DoActs(Emit(t, Changed(LookAt(t))), changed);
        EmitKeeps(u, Entered(u.mode, LookAt(u)));
        ActsKeep(Emit(u, Entered(u.mode, LookAt(u))), entered);
      }
  }

  lemma {:induction false} ActsKeep(s: Activity, acts: Acts)
    requires Sound(s)
    ensures Sound(DoActs(s, acts))
    decreases acts
  {
    match acts
    case Done =>
    case Then(first, rest) =>
      ActKeeps(s, first);
      ActsKeep(DoAct(s, first), rest);
  }

  lemma RingKeeps(s: Activity, ok: bool, changed: Acts, entered: Acts)
    requires Sound(s)
    ensures Sound(Ring(s, ok, changed, entered))
  {
    QtHeartbeat.CallsKeep(s.hb, 0, 0, ok);
    if QtHeartbeat.Wakes(s.hb) {
      ActKeeps(s.(hb := QtHeartbeat.Woken(s.hb)), SetState(Running, ok, changed, entered));
    }
  }

  lemma SetPeriodKeeps(s: Activity, period: int)
    requires Sound(s)
    ensures Sound(SetPeriod(s, period))
  {
    TraceGrows(s.trace, false);
  }

  lemma StepKeeps(s: Activity, e: Event)
    requires Sound(s)
    ensures Sound(Step(s, e))
  {
    match e
    case User(act) => ActKeeps(s, act);
    case Wakeup(broken, ok, changed, entered) =>
      QtHeartbeat.CallsKeep(s.hb, 0, 0, ok);
      if !broken { RingKeeps(s, ok, changed, entered); }
    case RetryTimer(ok) => QtHeartbeat.CallsKeep(s.hb, 0, 0, ok);
    case RenewTimer => TraceGrows(s.trace, false);
    case PeriodReply(period) => SetPeriodKeeps(s, period);
  }

  lemma RunStep(es: seq<Event>, e: Event)
    ensures Run(Init(), es + [e]) == Step(Run(Init(), es), e)
  {
    assert (es + [e])[..|es|] == es;
  }

  /** For every sequence of calls and events, and whatever the slots do in reaction: at rest,
      and whenever a state signal is emitted, timer and heartbeat agree with the state; MCE has
      last been told to keep the session open exactly in Running. */
  lemma {:induction false} AlwaysSound(es: seq<Event>)
    ensures Sound(Run(Init(), es))
  {
    if es != [] {
      AlwaysSound(es[..|es| - 1]);
      StepKeeps(Run(Init(), es[..|es| - 1]), es[|es| - 1]);
    }
  }

  /** Undisturbed, a transition reaches its state and announces it once. */
  lemma PlainTransition(s: Activity, mode: Mode, ok: bool)
    requires s.mode != mode
    ensures var t := DoAct(s, SetState(mode, ok, Done, Done));
            && t.mode == mode && t.signals == s.signals + [Changed(LookAt(t)), Entered(mode, LookAt(t))]
            && (t.queried <==> s.queried || !mode.Stopped?)
  {
  }

  /** The heartbeat's connection events reach it: the retry timer stops exactly when the daemon is
      reached and a waiting activity then has its order; a broken connection reconnects or retries.
      Neither changes anything else. */
  lemma ConnectionEvents(es: seq<Event>, ok: bool, changed: Acts, entered: Acts)
    ensures var s := Run(Init(), es);
            var r, b := Step(s, RetryTimer(ok)), Step(s, Wakeup(true, ok, changed, entered));
            && r == s.(hb := r.hb) && b == s.(hb := b.hb)
            && (s.hb.retry ==>
                  (r.hb.retry <==> !ok) && (r.hb.armed <==> ok && s.mode.Waiting? && QtHeartbeat.Delayed(s.hb)))
            && (s.hb.notifier ==> (b.hb.handle <==> ok) && (b.hb.retry <==> !ok) && !b.hb.armed)
            && (!s.hb.retry ==> r == s) && (!s.hb.notifier ==> b == s)
  {
    AlwaysSound(es);
    var s := Run(Init(), es);
    if s.hb.retry { QtHeartbeat.RetryOrders(s.hb, ok); }
  }

  lemma PlainRun(s: Activity, ok: bool)
    requires !s.mode.Running?
    ensures var t := DoAct(s, SetState(Running, ok, Done, Done));
            t.mode.Running? && t.timer && t.interval == s.period * 1000 && t.trace == s.trace + [Start]
  {
    var t := Transit(s, Running, ok);
    var u := Emit(t, Changed(LookAt(t)));
    assert DoActs(u, Done) == u;
    var v := Emit(u, Entered(u.mode, LookAt(u)));
    assert DoAct(s, SetState(Running, ok, Done, Done)) == DoActs(v, Done) == v;
  }

  /** In every run a period reply is the period from then on.  If it is a new one, an active
      session is renewed once and re-timed at once, and one that is not active is left alone; a
      run that follows has the new period. */
  lemma PeriodIsTaken(es: seq<Event>, period: int, ok: bool)
    ensures var s, t := Run(Init(), es), Step(Run(Init(), es), PeriodReply(period));
            && t.period == period && t.mode == s.mode && t.timer == s.timer && t.hb == s.hb && t.signals == s.signals
            && (t.timer ==> t.interval == period * 1000)
            && t.trace == s.trace + (if s.mode.Running? && s.period != period then [Renew] else [])
            && (!s.mode.Running? ==>
                  var u := Step(t, User(SetState(Running, ok, Done, Done)));
                  u.timer && u.interval == period * 1000 && u.trace == s.trace + [Start])
  {
    AlwaysSound(es);
    var s := Run(Init(), es);
    var t := SetPeriod(s, period);
    assert t.trace == s.trace + (if s.mode.Running? && s.period != period then [Renew] else []);
    if !s.mode.Running? { PlainRun(t, ok); }
  }

  /** The keepalive timer renews an active session with one message, and changes nothing else. */
  lemma RenewalIsSent(es: seq<Event>)
    ensures var s, t := Run(Init(), es), Step(Run(Init(), es), RenewTimer);
            t == if s.mode.Running? then s.(trace := s.trace + [Renew]) else s
  {
    AlwaysSound(es);
  }

  /** A wakeup that a waiting activity has ordered makes it run, with START sent. */
  lemma WakeupRuns(es: seq<Event>, ok: bool)
    ensures var s, t := Run(Init(), es), Step(Run(Init(), es), Wakeup(false, ok, Done, Done));
            if s.hb.waiting then
              && s.mode.Waiting? && t.mode.Running? && !t.hb.started && !t.hb.armed
              && t.timer && t.interval == s.period * 1000 && t.trace == s.trace + [Start]
            else t == s
  {
    AlwaysSound(es);
    var s := Run(Init(), es);
    QtHeartbeat.WakeupEndsWait(s.hb);
    if s.hb.waiting { PlainRun(s.(hb := QtHeartbeat.Woken(s.hb)), ok); }
  }

  /** A slot of `stateChanged` that stops a run overtakes it: `running` is not emitted at all,
      and `stopped` twice. */
  lemma OvertakenRun(s: Activity, ok: bool)
    requires s.mode.Stopped?
    ensures var t := DoAct(s, SetState(Running, ok, Then(SetState(Stopped, ok, Done, Done), Done), Done));
            var r := Transit(s, Running, ok);
            var l := LookAt(t);
            && t.mode.Stopped? && t.trace == s.trace + [Start, Stop]
            && t.signals == s.signals + [Changed(LookAt(r)), Changed(l), Entered(Stopped, l), Entered(Stopped, l)]
  {
    var r := Transit(s, Running, ok);
    var e := Emit(r, Changed(LookAt(r)));
    PlainTransition(e, Stopped, ok);
    var u := DoAct(e, SetState(Stopped, ok, Done, Done));
    assert DoActs(e, Then(SetState(Stopped, ok, Done, Done), Done)) == DoActs(u, Done);
  }

  /** A wakeup set is read back: a frequency clears the range, a range clears the frequency, and a
      range the wrong way round has been widened by a heartbeat; nothing else changes. */
  lemma WakeupIsSet(s: Activity, slot: int, min: int, max: int)
    ensures var t := DoAct(s, SetWakeup(slot, min, max));
            && t == s.(freq := slot, min := t.min, max := t.max)
            && (slot != RANGE ==> t.min == t.max == 0)
            && (slot == RANGE ==> t.min == min && (max >= min ==> t.max == max) && (max < min ==> t.max == min + 12))
  {
  }

  /** A wait orders the wakeup at the frequency or in the range set, or leaves it to the retry
      timer; a range set the wrong way round has been widened by a heartbeat. */
  lemma WaitOrders(es: seq<Event>, slot: int, min: int, max: int, ok: bool)
    requires slot > 0 || (slot == RANGE && min > 0)
    ensures var s := Run(Init(), es);
            var t := DoAct(DoAct(s, SetWakeup(slot, min, max)), SetState(Waiting, ok, Done, Done));
            !s.mode.Waiting? ==>
              && t.hb.started && (t.hb.armed || t.hb.retry) && !(t.hb.armed && t.hb.retry)
              && (s.hb.handle || (ok && !s.hb.retry) <==> t.hb.armed)
              && (t.hb.armed ==>
                    (t.hb.armedMin, t.hb.armedMax)
                    == if slot != RANGE then (slot, slot) else (min, if max < min then min + HEARTBEAT_INTERVAL else max))
  {
    AlwaysSound(es);
    var s := Run(Init(), es);
    var w := Wake(s, slot, min, max);
    if !s.mode.Waiting? {
      QtHeartbeat.StartOrders(s.hb, Interval(w).0, Interval(w).1, ok);
      QtHeartbeat.CallsKeep(s.hb, Interval(w).0, Interval(w).1, ok);
      PlainTransition(w, Waiting, ok);
    }
  }
}
