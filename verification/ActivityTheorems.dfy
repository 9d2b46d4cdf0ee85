/** What the background activity keeps in every run, and what it does not. */
module ActivityTheorems {
  import opened WakeupDelay
  import Heartbeat
  import opened ActivityProtocol

  /** Outside WAITING the heartbeat is stopped.  In WAITING it is started, unless its wakeup is
      just being delivered, with exactly the delay of that wait; and whatever the daemon has
      been asked for is that delay, a proper range or a whole number of global slots. */
  lemma HeartbeatCoupling(es: seq<Event>)
    ensures var s := Reach(es);
            !s.inShutdown ==>
              && (!s.current.Waiting? ==> !s.hb.started && !s.hb.armed)
              && (s.current.Waiting? ==> (s.main.Waking? || s.hb.started) && (s.hb.lo, s.hb.hi) == (s.last.lo, s.last.hi))
              && (s.hb.armed ==> (s.hb.armedLo, s.hb.armedHi) == (s.last.lo, s.last.hi) && Normal(s.last))
  {
    RunKeeps(es);
  }

  /** The state last reported is the current one, or a report is due. */
  lemma NoLostReport(es: seq<Event>)
    ensures var s := Reach(es); !s.inShutdown ==> s.report || s.reported == s.current
  {
    RunKeeps(es);
  }

  /** A call takes the activity to the state it asks for, whatever state it is in.  Outside WAITING
      the heartbeat is stopped and the daemon has no order; entering RUNNING requests the
      keepalive; a report is due if the state changed.  Asking for the present state, but for a
      wait with another delay, does nothing. */
  lemma StateIsTaken(es: seq<Event>, mode: Mode, ok: bool)
    ensures var s, t := Reach(es), Step(Reach(es), Api(mode, ok));
            if !ApiOk(s) then t == s
            else
              && t.current == mode
              && (!mode.Waiting? ==> !t.hb.started && !t.hb.armed)
              && (t.requested <==> s.requested || (mode.Running? && !s.current.Running?))
              && (t.report <==> s.report || s.current != mode)
              && t.reported == s.reported && t.main == s.main && t.curr == s.curr
              && (s.current == mode && (mode.Waiting? ==> s.curr == s.last) ==> t == s)
  {
    RunKeeps(es);
  }

  /** A delay set is the current one, and the wait in progress keeps its own. */
  lemma DelayIsTaken(es: seq<Event>, slot: nat, lo: int, hi: int)
    requires RangeFits(lo, hi)
    ensures var s := Reach(es);
            var t, u := Step(s, SetSlot(slot)), Step(s, SetRange(lo, hi));
            ApiOk(s) ==>
              && t.curr.slot % 30 == 0 && t.curr.lo == t.curr.hi == t.curr.slot
              && (slot >= 30 ==> slot - 30 < t.curr.slot <= slot) && (slot < 30 ==> t.curr.slot == 30)
              && u.curr.slot == 0 && (lo > 0 ==> u.curr.lo == lo) && (lo > 0 && hi > lo ==> u.curr.hi == hi)
              && t == s.(curr := t.curr) && u == s.(curr := u.curr)
    ensures var s := Reach(es); !ApiOk(s) ==> Step(s, SetSlot(slot)) == s && Step(s, SetRange(lo, hi)) == s
  {
    RangeIsKept(lo, hi);
  }

  /** The heartbeat's connection events reach it, and change nothing else: a connection that breaks
      leaves a waiting activity without an order, and the retry timer runs out. */
  lemma ConnectionEvents(es: seq<Event>, ok: bool)
    ensures var s := Reach(es);
            var b, r := Step(s, Broken(ok)), Step(s, Retry(ok));
            && b == s.(hb := b.hb) && r == s.(hb := r.hb)
            && (s.main.Idle? && s.hb.watch && !s.inShutdown ==>
                  !b.hb.armed && !b.hb.waiting && b.hb.handle == ok && b.hb.retry == !ok && b.hb.started == s.hb.started)
            && (s.main.Idle? && s.hb.retrying ==> !r.hb.retrying && !r.hb.handle && r.hb.retry)
  {
    RunKeeps(es);
  }

  /** A heartbeat that rings ends its wait, and the activity is to be notified. */
  lemma RingIsDelivered(es: seq<Event>)
    ensures var s, t := Reach(es), Step(Reach(es), Wake);
            if s.main.Idle? && s.hb.waiting then
              t == s.(hb := t.hb, main := t.main) && t.hb == s.hb.(started := false, waiting := false, armed := false)
              && (!s.inShutdown ==> t.main.Waking?)
            else t == s
  {
    RunKeeps(es);
  }

  /** The report timer is used up by its callback, which reports the current state if that is news,
      and stops the keepalive after all but RUNNING's. */
  lemma ReportIsTaken(es: seq<Event>)
    ensures var s, t := Reach(es), Step(Reach(es), Report);
            s.main.Idle? && s.report ==>
              && !t.report && t == s.(report := false, reported := t.reported, main := t.main)
              && (if s.inShutdown || s.reported == s.current then t.main.Idle? && t.reported == s.reported
                  else t.reported == s.current && t.main.Reporting? && (t.main.stop <==> !s.current.Running?))
  {
  }

  /** The clamp that `WakeupDelay` speaks of is the heartbeat's. */
  lemma ClampIsTheHeartbeats(h: Heartbeat.Hb, lo: int, hi: int)
    ensures var c := Heartbeat.SetDelay(h, lo, hi);
            (c.lo, c.hi) == HeartbeatDelay(lo, hi) && 1 <= c.lo <= c.hi
            && (lo >= 1 ==> c.lo == lo) && (1 <= lo <= hi ==> c.hi == hi)
  {
  }

  /** After the last reference is gone no call does anything, and the main loop shuts the
      activity down. */
  lemma LastUnrefEnds(es: seq<Event>, mode: Mode, ok: bool)
    ensures var s := Step(Reach(es), LastUnref);
            && Step(s, Api(mode, ok)) == s
            && (s.main.Idle? && !s.inShutdown ==> var t := Step(s, ShutdownCb);
                t.inShutdown && !t.hb.armed && !t.hb.handle && !t.requested && !t.report)
  {
    RunKeeps(es);
    ReachStep(es, LastUnref);
    RunKeeps(es + [LastUnref]);
    StepKeeps(Step(Reach(es), LastUnref), ShutdownCb);
  }

  /** A wait is for the delay set by then, though the activity may be waiting already, and a
      wait for the same delay is left alone. */
  lemma WaitUsesCurrentDelay(es: seq<Event>, ok: bool)
    ensures var s, t := Reach(es), Step(Reach(es), Api(Waiting, ok));
            ApiOk(s) ==>
              && t.current.Waiting? && t.last == s.curr && (t.hb.lo, t.hb.hi) == (s.curr.lo, s.curr.hi)
              && (s.current.Waiting? && s.last == s.curr ==> t == s)
              && (!(s.current.Waiting? && s.last == s.curr) ==>
                    t.hb.started && (t.hb.armed <==> s.hb.handle || (ok && !s.hb.retry)))
  {
    RunKeeps(es);
  }

  /** A wakeup makes a waiting activity run, and no other. */
  lemma WakeupRuns(es: seq<Event>, ok: bool)
    ensures var s := Reach(es);
            var t := Step(s, Notify(ok));
            s.main.Waking? ==>
              && t.current == (if s.current.Waiting? then Running else s.current)
              && (s.current.Waiting? ==> t.requested && t.report && !t.hb.started)
              && (!s.current.Waiting? ==> t == s.(main := Idle))
  {
    RunKeeps(es);
  }

  // ---------------------------------------------------------------- the CPU keepalive

  /** RUNNING is entered while the callback of another state is still executing. */
  predicate Overtakes(s: Bga, e: Event) {
    s.main == Reporting(true) && !s.current.Running? && Step(s, e).current.Running?
  }

  /** The report timer finds that the state has come back to the one last reported. */
  predicate Coalesces(s: Bga, e: Event) {
    e.Report? && s.main.Idle? && s.report && !s.inShutdown && s.reported == s.current
  }

  ghost predicate NeverOvertakes(es: seq<Event>) {
    es == [] || (NeverOvertakes(es[..|es| - 1]) && !Overtakes(Reach(es[..|es| - 1]), es[|es| - 1]))
  }

  ghost predicate NeverCoalesces(es: seq<Event>) {
    es == [] || (NeverCoalesces(es[..|es| - 1]) && !Coalesces(Reach(es[..|es| - 1]), es[|es| - 1]))
  }

  predicate Awake(s: Bga) {
    s.current.Running? && !s.inShutdown ==> s.requested && s.main != Reporting(true)
  }

  predicate Released(s: Bga) {
    s.requested && !s.current.Running? ==> s.report || s.main == Reporting(true)
  }

  lemma AwakeStep(s: Bga, e: Event)
    requires Inv(s) && Awake(s) && !Overtakes(s, e)
    ensures Awake(Step(s, e))
  {
  }

  lemma ReleasedStep(s: Bga, e: Event)
    requires Inv(s) && Released(s) && !Coalesces(s, e)
    ensures Released(Step(s, e))
  {
  }

  /** A running activity keeps the CPU awake, in every run in which none was started from,
      or during, the callback of another state. */
  lemma {:induction false} RunningIsAwake(es: seq<Event>)
    requires NeverOvertakes(es)
    ensures Awake(Reach(es))
  {
    if es != [] {
      var before := es[..|es| - 1];
      RunningIsAwake(before);
      RunKeeps(before);
      AwakeStep(Reach(before), es[|es| - 1]);
    }
  }

  /** And at rest an activity that does not run lets it sleep, in every run in which each
      report found news. */
  lemma {:induction false} IdleIsReleased(es: seq<Event>)
    requires NeverCoalesces(es)
    ensures Released(Reach(es))
  {
    if es != [] {
      var before := es[..|es| - 1];
      IdleIsReleased(before);
      RunKeeps(before);
      ReleasedStep(Reach(before), es[|es| - 1]);
    }
  }

  /** Neither condition can be dropped: the end of a callback takes the keepalive away from an
      activity that runs by then, exactly if it was RUNNING's turn meanwhile; */
  lemma OvertakenRunLosesKeepalive(es: seq<Event>)
    ensures var s := Reach(es);
            s.main == Reporting(true) ==>
              (Awake(Step(s, ReportDone)) <==> !s.current.Running?)
              && Step(s, ReportDone).current == s.current
  {
    RunKeeps(es);
  }

  /** and a report releases the keepalive of an activity that no longer runs exactly if it
      found news. */
  lemma CoalescedStopKeepsKeepalive(es: seq<Event>)
    ensures var s := Reach(es);
            s.main.Idle? && s.report && !s.inShutdown && !s.current.Running? ==>
              (Step(Step(s, Report), ReportDone).requested <==> s.requested && s.reported == s.current)
  {
    RunKeeps(es);
  }

  /** For one: a wait is reported, and its callback starts a run; the CPU may go to sleep under it. */
  lemma OvertakenRun()
    ensures var s := Reach([Api(Waiting, true), Report, Api(Running, true), ReportDone]);
            s.current.Running? && !s.requested && !s.inShutdown && !Awake(s)
  {
    var wait, run := Api(Waiting, true), Api(Running, true);
    ReachStep([], wait);
    ReachStep([wait], Report);
    ReachStep([wait, Report], run);
    ReachStep([wait, Report, run], ReportDone);
    assert [] + [wait] == [wait] && [wait] + [Report] == [wait, Report] && [wait, Report] + [run] == [wait, Report, run];
    assert [wait, Report, run] + [ReportDone] == [wait, Report, run, ReportDone];
  }

  /** For another: run, then stop at once, and the CPU stays awake with nothing left to do. */
  lemma ForgottenKeepalive()
    ensures var s := Reach([Api(Running, true), Api(Stopped, true), Report]);
            s.current.Stopped? && s.requested && !s.report && s.main.Idle?
  {
    var run, stop := Api(Running, true), Api(Stopped, true);
    ReachStep([], run);
    ReachStep([run], stop);
    ReachStep([run, stop], Report);
    assert [] + [run] == [run] && [run] + [stop] == [run, stop] && [run, stop] + [Report] == [run, stop, Report];
  }
}
