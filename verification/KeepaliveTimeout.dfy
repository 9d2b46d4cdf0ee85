/** The timeout source of lib-glib/keepalive-timeout.c over its private background activity.

    Nobody else refers to the activity, so that it changes state only through its heartbeat
    and through the source's dispatch.  The source is dispatched and destroyed on the main
    loop, one callback at a time. */
module KeepaliveTimeout {
  import opened WakeupDelay
  import Heartbeat
  import opened ActivityProtocol

  datatype Timeout = Timeout(
    bga: Bga,
    triggered: bool,
    dispatching: bool,  // the user's function is executing
    attached: bool)

  datatype Turn = OnLoop(e: Event) | Dispatch | Return(repeat: bool, ok: bool) | Destroy

  /** Callbacks of the activity and its heartbeat. */
  predicate Callback(e: Event) {
    e.Broken? || e.Wake? || e.Notify? || e.Retry? || e.Report? || e.ReportDone? || e.ShutdownCb?
  }

  /** `keepalive_timeout_add_full` */
  function New(interval: nat, high: bool, ok: bool): Timeout
    requires interval < UINT_RANGE
  {
    var d := TimeoutDelay(interval, high);
    Timeout(SetState(Init().(curr := d), Waiting, ok), false, false, true)
  }

  /** The activity reports that it runs: `keepalive_timeout_trigger_cb`, or the default
      callback, which stops it, once the source has taken its own away. */
  function Reports(t: Timeout): Timeout {
    var s := t.bga;
    if !s.main.Idle? || !s.report then t
    else
      var r := ReportState(s);
      if r.main != Reporting(false) then t.(bga := r)
      else if t.attached then t.(bga := r, triggered := true)
      else t.(bga := SetState(r, Stopped, false))
  }

  function Take(t: Timeout, e: Turn): Timeout {
    match e
    case OnLoop(e) =>
      if t.dispatching || !Callback(e) then t
      else if e.Report? then Reports(t)
      else t.(bga := ActivityProtocol.Step(t.bga, e))
    case Dispatch => if t.attached && t.triggered && t.bga.main.Idle? && !t.dispatching then t.(dispatching := true) else t
    case Return(repeat, ok) =>
      if !t.dispatching then t
      else t.(bga := SetState(t.bga, if repeat then Waiting else Stopped, ok), triggered := false, dispatching := false)
    case Destroy =>
      if t.attached && t.bga.main.Idle? && !t.dispatching
      then t.(attached := false, bga := t.bga.(released := true)) else t
  }

  function Run(t: Timeout, es: seq<Turn>): Timeout {
    if es == [] then t else Take(Run(t, es[..|es| - 1]), es[|es| - 1])
  }

  /** Triggered means awake: running, the keepalive requested and not about to be taken away. */
  predicate TimeoutInv(t: Timeout) {
    && Inv(t.bga)
    && (t.attached ==> !t.bga.released)
    && (t.attached && t.bga.current.Running? ==> t.bga.requested && t.bga.main != Reporting(true))
    && (t.attached && t.triggered ==> t.bga.current.Running? && t.bga.reported.Running?)
    && (t.dispatching ==> t.attached && t.triggered && t.bga.main.Idle?)
    && (t.attached && t.bga.current.Running? && t.bga.reported.Running? && !t.triggered ==> !t.bga.hb.started)
  }

  lemma NewKeeps(interval: nat, high: bool, ok: bool)
    requires interval < UINT_RANGE
    ensures TimeoutInv(New(interval, high, ok))
  {
    SetStateKeeps(Init().(curr := TimeoutDelay(interval, high)), Waiting, ok);
  }

  lemma ReportsKeeps(t: Timeout)
    requires TimeoutInv(t) && !t.dispatching
    ensures TimeoutInv(Reports(t))
  {
    StepKeeps(t.bga, Report);
    if t.bga.main.Idle? && t.bga.report { SetStateKeeps(ReportState(t.bga), Stopped, false); }
  }

  lemma MainKeeps(t: Timeout, e: Event)
    requires TimeoutInv(t) && !t.dispatching && Callback(e) && !e.Report?
    ensures TimeoutInv(t.(bga := ActivityProtocol.Step(t.bga, e)))
  {
    StepKeeps(t.bga, e);
  }

  lemma TurnKeeps(t: Timeout, e: Turn)
    requires TimeoutInv(t)
    ensures TimeoutInv(Take(t, e))
  {
    match e
    case OnLoop(e) => if !t.dispatching && Callback(e) { if e.Report? { ReportsKeeps(t); } else { MainKeeps(t, e); } }
    case Return(repeat, ok) => SetStateKeeps(t.bga, if repeat then Waiting else Stopped, ok);
    case _ =>
  }

  lemma {:induction false} RunKeeps(interval: nat, high: bool, ok: bool, es: seq<Turn>)
    requires interval < UINT_RANGE
    ensures TimeoutInv(Run(New(interval, high, ok), es))
  {
    if es == [] {
      NewKeeps(interval, high, ok);
    } else {
      RunKeeps(interval, high, ok, es[..|es| - 1]);
      TurnKeeps(Run(New(interval, high, ok), es[..|es| - 1]), es[|es| - 1]);
    }
  }

  // ---------------------------------------------------------------- what every run has

  /** A timeout function never executes while suspend is allowed: whenever it does, and from
      the moment it is due, the activity runs and its CPU keepalive is requested. */
  lemma AwakeAtDispatch(interval: nat, high: bool, ok: bool, es: seq<Turn>)
    requires interval < UINT_RANGE
    ensures var t := Run(New(interval, high, ok), es);
            t.dispatching || (t.attached && t.triggered) ==> t.bga.current.Running? && t.bga.requested
  {
    RunKeeps(interval, high, ok, es);
  }

  lemma LoopDelay(s: Bga, e: Event)
    requires s.curr == s.last && Callback(e)
    ensures ActivityProtocol.Step(s, e).curr == s.curr && ActivityProtocol.Step(s, e).last == s.last
  {
  }

  lemma DelayStep(t: Timeout, e: Turn)
    requires t.bga.curr == t.bga.last
    ensures Take(t, e).bga.curr == t.bga.curr && Take(t, e).bga.last == t.bga.last
  {
    match e
    case OnLoop(e) => if Callback(e) && !e.Report? { LoopDelay(t.bga, e); }
    case _ =>
  }

  lemma {:induction false} SameDelay(interval: nat, high: bool, ok: bool, es: seq<Turn>)
    requires interval < UINT_RANGE
    ensures var t := Run(New(interval, high, ok), es);
            t.bga.curr == TimeoutDelay(interval, high) && t.bga.last == TimeoutDelay(interval, high)
  {
    if es != [] {
      SameDelay(interval, high, ok, es[..|es| - 1]);
      DelayStep(Run(New(interval, high, ok), es[..|es| - 1]), es[|es| - 1]);
    }
  }

  /** Through all layers, the daemon is asked for the seconds that cover the interval. */
  lemma DaemonIsAskedForInterval(interval: nat, high: bool, ok: bool, es: seq<Turn>)
    requires 0 < interval && interval + 999 < UINT_RANGE
    ensures var t := Run(New(interval, high, ok), es);
            t.bga.hb.armed && !t.bga.inShutdown ==>
              && (t.bga.hb.armedLo - 1) * 1000 < interval <= t.bga.hb.armedLo * 1000
              && t.bga.hb.armedHi == t.bga.hb.armedLo + if high then 1 else HEARTBEAT_PERIOD
  {
    RunKeeps(interval, high, ok, es);
    SameDelay(interval, high, ok, es);
    TimeoutRange(interval, high);
  }

  /** A function that asks to be called again gets another wait for the same interval, ordered
      from the daemon if that can be reached; one that does not is the last. */
  lemma ReturnTakesEffect(interval: nat, high: bool, ok: bool, es: seq<Turn>, repeat: bool, again: bool)
    requires interval < UINT_RANGE
    ensures var t, r := Run(New(interval, high, ok), es), Take(Run(New(interval, high, ok), es), Return(repeat, again));
            t.dispatching ==>
              && !r.triggered && !r.dispatching && r.bga.report
              && (repeat ==>
                    r.bga.current.Waiting? && r.bga.hb.started
                    && (r.bga.hb.armed <==> t.bga.hb.handle || (again && !t.bga.hb.retry)))
              && (!repeat ==> r.bga.current.Stopped? && !r.bga.hb.started)
  {
    RunKeeps(interval, high, ok, es);
    var t := Run(New(interval, high, ok), es);
    if t.dispatching { TurnKeeps(t, Return(repeat, again)); }
  }

  /** A destroyed source is due no more, and when its activity next reports a run that run is
      stopped, at the latest, with no wakeup ordered. */
  lemma DestroyedStops(interval: nat, high: bool, ok: bool, es: seq<Turn>)
    requires interval < UINT_RANGE
    ensures var t := Run(New(interval, high, ok), es);
            && (t.attached && !t.dispatching && t.bga.main.Idle? ==>
                  Take(t, Destroy) == t.(attached := false, bga := t.bga.(released := true)))
            && (!t.attached && t.bga.main.Idle? && t.bga.report && !t.bga.inShutdown
                && t.bga.current.Running? && !t.bga.reported.Running? ==>
                  var r := Take(t, OnLoop(Report));
                  r.bga.current.Stopped? && !r.bga.hb.started && !r.bga.hb.armed && !(r.triggered && !t.triggered))
  {
    RunKeeps(interval, high, ok, es);
    var t := Run(New(interval, high, ok), es);
    TurnKeeps(t, OnLoop(Report));
  }

  // ---------------------------------------------------------------- a timeout can be lost

  /** The activity runs, its function is not due, and nothing will change that. */
  predicate Stuck(t: Timeout) {
    && t.attached && !t.triggered && !t.dispatching
    && t.bga.main.Idle? && t.bga.current.Running? && t.bga.reported.Running? && !t.bga.report
  }

  /** A wakeup that comes before the end of the previous run has been reported is not reported
      itself, and the timeout is lost: exactly if the state last reported is RUNNING still. */
  lemma WakeupLostIff(interval: nat, high: bool, ok: bool, es: seq<Turn>)
    requires interval < UINT_RANGE
    ensures var t := Run(New(interval, high, ok), es);
            t.attached && !t.dispatching && t.bga.main.Idle? && t.bga.current.Running? && t.bga.report ==>
              && (Take(t, OnLoop(Report)).triggered <==> !t.bga.reported.Running? || t.triggered)
              && (Stuck(Take(t, OnLoop(Report))) <==> t.bga.reported.Running? && !t.triggered)
  {
    RunKeeps(interval, high, ok, es);
  }

  /** Then only destroying the source helps; the device cannot suspend until that. */
  lemma StaysStuck(t: Timeout, e: Turn)
    requires TimeoutInv(t) && Stuck(t) && !e.Destroy?
    ensures Stuck(Take(t, e)) && Take(t, e).bga.requested
  {
    TurnKeeps(t, e);
  }

  lemma RunStep(t: Timeout, es: seq<Turn>, e: Turn)
    ensures Run(t, es + [e]) == Take(Run(t, es), e)
  {
    assert (es + [e])[..|es|] == es;
  }

  /** For one: a repeating timeout whose second wakeup finds the report of the first wait
      still pending. */
  lemma LostTimeout(interval: nat, high: bool)
    requires interval < UINT_RANGE
    ensures Stuck(Run(New(interval, high, true),
                      [OnLoop(Wake), OnLoop(Notify(true)), OnLoop(Report), OnLoop(ReportDone), Dispatch, Return(true, true)]
                      + [OnLoop(Wake), OnLoop(Notify(true)), OnLoop(Report)]))
  {
    var t := New(interval, high, true);
    var first := [OnLoop(Wake), OnLoop(Notify(true)), OnLoop(Report), OnLoop(ReportDone), Dispatch, Return(true, true)];
    FirstRound(interval, high);
    RunStep(t, first, OnLoop(Wake));
    RunStep(t, first + [OnLoop(Wake)], OnLoop(Notify(true)));
    RunStep(t, first + [OnLoop(Wake)] + [OnLoop(Notify(true))], OnLoop(Report));
    assert first + [OnLoop(Wake)] + [OnLoop(Notify(true))] + [OnLoop(Report)]
        == first + [OnLoop(Wake), OnLoop(Notify(true)), OnLoop(Report)];
  }

  lemma FirstRound(interval: nat, high: bool)
    requires interval < UINT_RANGE
    ensures var t := Run(New(interval, high, true),
                         [OnLoop(Wake), OnLoop(Notify(true)), OnLoop(Report), OnLoop(ReportDone), Dispatch, Return(true, true)]);
            && t.attached && !t.triggered && !t.dispatching && t.bga.main.Idle? && !t.bga.inShutdown
            && t.bga.current.Waiting? && t.bga.reported.Running? && Heartbeat.Wakes(t.bga.hb)
  {
    var t := New(interval, high, true);
    var es := [OnLoop(Wake), OnLoop(Notify(true)), OnLoop(Report), OnLoop(ReportDone), Dispatch, Return(true, true)];
    RunStep(t, [], es[0]);
    RunStep(t, es[..1], es[1]);
    RunStep(t, es[..2], es[2]);
    RunStep(t, es[..3], es[3]);
    RunStep(t, es[..4], es[4]);
    RunStep(t, es[..5], es[5]);
    assert es[..1] == [] + [es[0]] && es[..2] == es[..1] + [es[1]] && es[..3] == es[..2] + [es[2]];
    assert es[..4] == es[..3] + [es[3]] && es[..5] == es[..4] + [es[4]] && es == es[..5] + [es[5]];
  }
}
