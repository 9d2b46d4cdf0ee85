/** `cpukeepalive_t` of lib-glib/keepalive-cpukeepalive.c: its fields and its handlers, each
    proved to take the steps of `CpuProtocol`.

    Wherever a handler drops the mutex it is handed the steps that are taken meanwhile: by
    other threads and the bus daemon (`w`), and in a flush also by the handlers of the
    messages that it dispatches (`f`). */
module CpuKeepalive {
  import opened MceOwner
  import opened BusLink
  import opened Sessions
  import opened CpuProtocol
  import opened CpuTheorems

  /** Steps of other threads and the daemon. */
  predicate Outer(e: Event) { e.ApiStart? || e.ApiStop? || e.LastUnref? || e.NameChange? || e.DaemonStep? }

  /** What can happen while a handler does not hold the mutex. */
  predicate Foreign(es: seq<Event>) { forall i | 0 <= i < |es| :: Outer(es[i]) }

  /** And what it leaves alone. */
  predicate Leaves(s: Cpu, t: Cpu) {
    && SameSide(s.link, t.link)
    && t.period == s.period && t.periodPc == s.periodPc && t.timer == s.timer && t.connectId == s.connectId
    && t.attempted == s.attempted && t.inShutdown == s.inShutdown && t.at == s.at && t.trace == s.trace
    && (s.inShutdown && s.released ==> t.rethink == s.rethink && t.released)
  }

  lemma StepLeaves(s: Cpu, e: Event)
    requires Outer(e)
    ensures Leaves(s, Step(s, e))
  {
    match e
    case DaemonStep => assert Step(s, e) == s.(link := DaemonTurn(s.link));
    case _ =>
  }

  lemma {:induction false} RunLeaves(s: Cpu, es: seq<Event>)
    requires Foreign(es)
    ensures Leaves(s, Run(s, es))
  {
    if es != [] {
      RunLeaves(s, es[..|es| - 1]);
      StepLeaves(Run(s, es[..|es| - 1]), es[|es| - 1]);
    }
  }

  /** What can happen inside a flush: messages are dispatched as well. */
  predicate Dispatching(es: seq<Event>) { forall i | 0 <= i < |es| :: Outer(es[i]) || es[i].Deliver? || es[i].PeriodReply? }

  /** A flush in which no period reply can make the session start again. */
  predicate Calm(s: Cpu) { Flushes(s.at) && (s.timer == 0 || (s.period != 0 && !s.periodPc)) }

  /** What it leaves alone; in shutdown, nothing that was emptied is filled. */
  predicate CalmLeaves(s: Cpu, t: Cpu) {
    && t.link.bus == s.link.bus && t.link.filter == s.link.filter && t.timer == s.timer && t.connectId == s.connectId
    && t.attempted == s.attempted && t.inShutdown == s.inShutdown && t.at == s.at && t.trace == s.trace
    && (s.period != 0 && !s.periodPc ==> t.period == s.period && !t.periodPc)
    && (s.inShutdown && s.released ==>
          t.released && t.rethink == s.rethink && (t.periodPc ==> s.periodPc) && (t.link.query ==> s.link.query))
  }

  lemma HeedLeaves(s: Cpu, link: Link)
    ensures var t := Heed(s, link);
            && t.timer == s.timer && t.trace == s.trace && t.at == s.at && t.period == s.period
            && t.connectId == s.connectId && t.attempted == s.attempted
            && (t.periodPc ==> s.periodPc || (s.period == 0 && !s.inShutdown)) && (s.inShutdown ==> t.rethink == s.rethink)
  {
  }

  lemma CalmOuter(s: Cpu, t: Cpu, e: Event)
    requires Calm(s) && CalmLeaves(s, t) && Outer(e)
    ensures CalmLeaves(s, Step(t, e))
  {
    StepLeaves(t, e);
  }

  lemma CalmDeliver(s: Cpu, t: Cpu)
    requires Calm(s) && CalmLeaves(s, t)
    ensures CalmLeaves(s, Step(t, Deliver))
  {
    if t.link.down != [] { HeedLeaves(t, Read(t.link, false)); }
  }

  lemma CalmReply(s: Cpu, t: Cpu, val: int)
    requires Calm(s) && CalmLeaves(s, t)
    ensures CalmLeaves(s, Step(t, PeriodReply(val)))
  {
  }

  lemma CalmStep(s: Cpu, t: Cpu, e: Event)
    requires Calm(s) && CalmLeaves(s, t) && (Outer(e) || e.Deliver? || e.PeriodReply?)
    ensures CalmLeaves(s, Step(t, e))
  {
    match e
    case Deliver => CalmDeliver(s, t);
    case PeriodReply(val) => CalmReply(s, t, val);
    case _ => CalmOuter(s, t, e);
  }

  lemma {:induction false} CalmRun(s: Cpu, es: seq<Event>)
    requires Calm(s) && Dispatching(es)
    ensures CalmLeaves(s, Run(s, es))
  {
    if es != [] {
      CalmRun(s, es[..|es| - 1]);
      CalmStep(s, Run(s, es[..|es| - 1]), es[|es| - 1]);
    }
  }

  /** Steps inside the flush of a renewal: the handler of a period reply may drop the mutex in
      its turn, and has come back when the flush is over. */
  ghost predicate Renewing(s: Cpu, es: seq<Event>) {
    && Run(s, es).at.Flushing?
    && forall i {:trigger es[i]} | 0 <= i < |es| ::
         Outer(es[i]) || es[i].Deliver? || es[i].PeriodReply? || (es[i].Resume? && !Run(s, es[..i]).at.Flushing?)
  }

  /** How far such a flush can have got: nothing has changed, the session is being renewed once
      more because its period has changed, or that is done. */
  predicate Renewed(s: Cpu, t: Cpu) {
    && t.link.bus && !t.inShutdown
    && if t.trace == s.trace then t.at.Flushing? && t.timer == s.timer == Effective(t.period)
       else
         && t.trace == s.trace + [Renew] && t.period != 0 && !t.periodPc && t.period != s.timer
         && match t.at
            case Announcing(nested) => nested
            case Arming(nested) => nested && t.timer == 0
            case Flushing => t.timer == t.period
            case _ => false
  }

  /** The period is asked for only while it is not known. */
  predicate AsksOnce(t: Cpu) { t.periodPc ==> t.period == 0 }

  lemma RenewedOuter(s: Cpu, t: Cpu, e: Event)
    requires Renewed(s, t) && AsksOnce(t) && Outer(e)
    ensures Renewed(s, Step(t, e)) && AsksOnce(Step(t, e))
  {
    StepLeaves(t, e);
  }

  lemma RenewedDeliver(s: Cpu, t: Cpu)
    requires Renewed(s, t) && AsksOnce(t)
    ensures Renewed(s, Step(t, Deliver)) && AsksOnce(Step(t, Deliver))
  {
    if t.link.down != [] {
      HeedLeaves(t, Read(t.link, false));
      assert Heed(t, Read(t.link, false)).link.bus;
    }
  }

  lemma RenewedReply(s: Cpu, t: Cpu, val: int)
    requires Renewed(s, t) && AsksOnce(t)
    ensures Renewed(s, Step(t, PeriodReply(val))) && AsksOnce(Step(t, PeriodReply(val)))
  {
  }

  lemma RenewedResume(s: Cpu, t: Cpu)
    requires Renewed(s, t) && AsksOnce(t) && !t.at.Flushing?
    ensures Renewed(s, GoOn(t)) && AsksOnce(GoOn(t))
  {
  }

  lemma RenewedStep(s: Cpu, t: Cpu, e: Event)
    requires Renewed(s, t) && (Outer(e) || e.Deliver? || e.PeriodReply? || (e.Resume? && !t.at.Flushing?))
    requires AsksOnce(t)
    ensures Renewed(s, Step(t, e)) && AsksOnce(Step(t, e))
  {
    match e
    case Deliver => RenewedDeliver(s, t);
    case PeriodReply(val) => RenewedReply(s, t, val);
    case Resume => RenewedResume(s, t);
    case _ => RenewedOuter(s, t, e);
  }

  lemma {:induction false} RenewedRun(s: Cpu, es: seq<Event>, all: seq<Event>)
    requires es <= all && Renewing(s, all) && Renewed(s, s) && AsksOnce(s)
    ensures Renewed(s, Run(s, es)) && AsksOnce(Run(s, es))
  {
    if es != [] {
      var before, n := es[..|es| - 1], |es| - 1;
      RenewedRun(s, before, all);
      assert all[n] == es[n] && all[..n] == before;
      RenewedStep(s, Run(s, before), es[n]);
    }
  }

  /** A run with the states it goes through. */
  ghost predicate Trail(owned: bool, es: seq<Event>, states: seq<Cpu>) {
    && |states| == |es| + 1 && states[0] == Init(owned)
    && forall i {:trigger es[i]} | 0 <= i < |es| :: states[i + 1] == Step(states[i], es[i])
  }

  lemma {:induction false} TrailReaches(owned: bool, es: seq<Event>, states: seq<Cpu>)
    requires Trail(owned, es, states)
    ensures states[|es|] == Reach(owned, es)
  {
    if es != [] {
      var n := |es| - 1;
      assert Trail(owned, es[..n], states[..|es|]) by {
        forall i | 0 <= i < n ensures states[i + 1] == Step(states[i], es[..n][i]) { assert es[i] == es[..n][i]; }
      }
      TrailReaches(owned, es[..n], states[..|es|]);
      assert es[n] == es[|es| - 1];
    }
  }

  lemma TrailInv(owned: bool, es: seq<Event>, states: seq<Cpu>)
    requires Trail(owned, es, states)
    ensures Inv(states[|es|])
  {
    TrailReaches(owned, es, states);
    RunKeeps(owned, es);
  }

  lemma TrailBus(owned: bool, es: seq<Event>, states: seq<Cpu>)
    requires Trail(owned, es, states)
    ensures var s := states[|es|];
            && (s.timer != 0 ==> s.link.bus) && (s.periodPc ==> s.period == 0)
            && (s.timer != 0 && Free(s) ==> s.timer == Effective(s.period) && !s.inShutdown)
  {
    TrailInv(owned, es, states);
  }

  lemma TrailAsks(owned: bool, es: seq<Event>, states: seq<Cpu>)
    requires Trail(owned, es, states)
    ensures var s := states[|es|];
            !s.inShutdown && s.link.bus && s.link.mce.Running? ==> s.periodPc || s.period != 0
  {
    TrailReaches(owned, es, states);
    PeriodIsAsked(owned, es);
  }

  lemma TrailShut(owned: bool, es: seq<Event>, states: seq<Cpu>)
    requires Trail(owned, es, states)
    ensures var s := states[|es|];
            s.inShutdown && Free(s) ==>
              s.timer == 0 && !s.periodPc && !s.rethink && !s.connectId
              && !s.link.query && !s.link.filter && !s.link.bus
  {
    TrailInv(owned, es, states);
  }

  lemma TrailGrows(owned: bool, es: seq<Event>, states: seq<Cpu>, e: Event)
    requires Trail(owned, es, states)
    ensures Trail(owned, es + [e], states + [Step(states[|es|], e)])
  {
    var all := es + [e];
    var more := states + [Step(states[|es|], e)];
    forall i | 0 <= i < |all| ensures more[i + 1] == Step(more[i], all[i]) {
      if i < |es| { assert all[i] == es[i]; }
    }
  }

  class CpuKeepalive {
    // cpukeepalive_t; a slot is false or 0 when empty
    var requested: bool
    var link: Link  // cka_systembus, cka_filter_added, cka_mce_service, cka_mce_service_pc, and the bus
    var renewPeriod: nat
    var renewPeriodPc: bool
    var sessionRenew: nat
    var delayedRethink: bool
    var delayedConnect: bool
    var connectAttempted: bool
    var inShutdown: bool
    // around it: the last external reference is gone, where a handler stands, what was sent
    var released: bool
    var at: At
    var trace: seq<Msg>
    // the steps taken, and the states they led through
    ghost var history: seq<Event>
    ghost var states: seq<Cpu>
    ghost const first: bool

    function State(): (s: Cpu)
      reads this
    {
      Cpu(requested, link, renewPeriod, renewPeriodPc, sessionRenew, delayedRethink, delayedConnect,
          connectAttempted, inShutdown, released, at, trace)
    }

    ghost predicate Followed()
      reads this
    {
      Trail(first, history, states)
    }

    /** Where the steps taken lead. */
    ghost function Ahead(): (s: Cpu)
      requires |states| > 0
      reads this
    {
      states[|states| - 1]
    }

    /** The state is the one the protocol has reached. */
    ghost predicate Exact()
      reads this
    {
      Followed() && State() == Ahead()
    }

    /** And no handler is running. */
    ghost predicate Valid()
      reads this
    {
      Exact() && at.Idle?
    }

    constructor (owned: bool)
      ensures Valid() && history == [] && first == owned
    {
      requested, link := false, NoLink(owned);
      renewPeriod, renewPeriodPc, sessionRenew := 0, false, 0;
      delayedRethink, delayedConnect, connectAttempted := false, true, false;
      inShutdown, released, at, trace := false, false, Idle, [];
      history, states, first := [], [Init(owned)], owned;
    }

    /** The step `e` is taken, or begins. */
    ghost method Log(e: Event)
      requires Followed()
      modifies this`history, this`states
      ensures Followed() && history == old(history) + [e] && Ahead() == Step(old(Ahead()), e)
    {
      TrailGrows(first, history, states, e);
      history, states := history + [e], states + [Step(Ahead(), e)];
    }

    /** `cpukeepalive_rethink_schedule_locked` */
    method RethinkScheduleLocked()
      modifies this`delayedRethink
      ensures delayedRethink == (old(delayedRethink) || !inShutdown)
    {
      if !delayedRethink && !inShutdown {
        delayedRethink := true;
      }
    }

    /** `cpukeepalive_start` */
    method ApiStart()
      requires Exact() && ApiOk(State())
      modifies this
      ensures Exact() && history == old(history) + [Event.ApiStart] && State() == Step(old(State()), Event.ApiStart)
      ensures requested && (!old(requested) ==> delayedRethink)
    {
      if !requested {
        requested := true;
        RethinkScheduleLocked();
      }
      Log(Event.ApiStart);
    }

    /** `cpukeepalive_stop` */
    method ApiStop()
      requires Exact() && ApiOk(State())
      modifies this
      ensures Exact() && history == old(history) + [Event.ApiStop] && State() == Step(old(State()), Event.ApiStop)
      ensures !requested && (old(requested) ==> delayedRethink)
    {
      if requested {
        requested := false;
        RethinkScheduleLocked();
      }
      Log(Event.ApiStop);
    }

    /** A step of another thread, of the daemon, or of a handler inside a flush. */
    method One(e: Event)
      requires Exact()
      modifies this
      ensures Exact() && history == old(history) + [e] && State() == Step(old(State()), e)
    {
      Become(Step(State(), e));
      Log(e);
    }

    method Become(s: Cpu)
      modifies `requested, `link, `renewPeriod, `renewPeriodPc, `sessionRenew, `delayedRethink, `delayedConnect,
               `connectAttempted, `inShutdown, `released, `at, `trace
      ensures State() == s
    {
      requested, link, renewPeriod, renewPeriodPc, sessionRenew := s.requested, s.link, s.period, s.periodPc, s.timer;
      delayedRethink, delayedConnect, connectAttempted := s.rethink, s.connectId, s.attempted;
      inShutdown, released, at, trace := s.inShutdown, s.released, s.at, s.trace;
    }

    /** Others act while the mutex is free. */
    method Others(es: seq<Event>)
      requires Exact()
      modifies this
      ensures Exact() && history == old(history) + es && State() == Run(old(State()), es)
    {
      assert es[..0] == [];
      for i := 0 to |es|
        invariant Exact() && history == old(history) + es[..i] && State() == Run(old(State()), es[..i])
      {
        One(es[i]);
        assert es[..i + 1] == es[..i] + [es[i]] && es[..i + 1][..i] == es[..i];
      }
      assert es[..|es|] == es;
    }

    /** The handler has the mutex back. */
    ghost method Resumes()
      requires Exact()
      modifies this`history, this`states
      ensures Followed() && history == old(history) + [Resume] && GoOn(State()) == Ahead()
    {
      Log(Resume);
    }

    /** An unlocked stretch of a handler. */
    method Window(w: seq<Event>)
      requires Exact() && Foreign(w)
      modifies this
      ensures Followed() && GoOn(State()) == Ahead() && history == old(history) + w + [Resume]
      ensures Leaves(old(State()), State())
    {
      RunLeaves(State(), w);
      Others(w);
      Resumes();
    }

    /** `cpukeepalive_session_ipc_locked`: the message goes out, and the flush drops the mutex
        and may dispatch messages. */
    method SessionIpcLocked(m: Msg, next: At, f: seq<Event>)
      requires Followed()
      requires link.bus ==> State().(trace := trace + [m], at := next) == Ahead()
      modifies this
      ensures Followed()
      ensures !old(link.bus) ==> State() == old(State()) && history == old(history) && states == old(states)
      ensures old(link.bus) ==> Exact() && history == old(history) + f
      ensures old(link.bus) ==> State() == Run(old(Ahead()), f)
    {
      if link.bus {
        trace, at := trace + [m], next;
        Others(f);
      }
    }

    /** A handler's last flush is over, and it comes back. */
    method FlushEnds()
      requires Exact() && at.Flushing?
      modifies this`at, this`history, this`states
      ensures Valid() && history == old(history) + [Resume] && State() == old(State()).(at := Idle)
    {
      Resumes();
      at := Idle;
    }

    /** Turn of the loop that empties the session slot before a new timer goes in. */
    method SessionTimerReplaced(nested: bool, w: seq<Event>)
      requires Followed() && Foreign(w) && Arm(State(), nested) == Ahead() && sessionRenew != 0
      modifies this
      ensures Followed() && Arm(State(), nested) == Ahead() && old(history) <= history
      ensures Leaves(old(State()).(timer := 0, at := Arming(nested)), State())
    {
      sessionRenew, at := 0, Arming(nested);
      Window(w);
    }

    /** `cpukeepalive_timer_start_locked` on the session slot */
    method SessionTimerStart(ms: nat, nested: bool, w: seq<Event>)
      requires Followed() && Foreign(w) && Arm(State(), nested) == Ahead() && ms == Effective(renewPeriod)
      modifies this
      ensures Exact() && at == Back(nested) && old(history) <= history && trace == old(trace)
      ensures inShutdown == old(inShutdown) && renewPeriod == old(renewPeriod)
      ensures sessionRenew == if inShutdown then 0 else ms
    {
      while sessionRenew != 0
        invariant Followed() && Arm(State(), nested) == Ahead() && old(history) <= history
        invariant trace == old(trace) && inShutdown == old(inShutdown) && renewPeriod == old(renewPeriod)
        decreases sessionRenew
      {
        SessionTimerReplaced(nested, w);
      }
      if !inShutdown {
        sessionRenew := ms;
      }
      at := Back(nested);
    }

    /** START is sent, to open or to renew, and no reply that comes meanwhile sends another. */
    method Announced(m: Msg, f: seq<Event>)
      requires Followed() && Dispatching(f) && Announce(State(), m) == Ahead() && (at.Idle? || at.Flushing?)
      requires sessionRenew == 0 || (renewPeriod != 0 && !renewPeriodPc)
      modifies this
      ensures Followed() && Arm(State(), old(!at.Idle?)) == Ahead() && old(history) <= history
      ensures inShutdown == old(inShutdown) && sessionRenew == old(sessionRenew)
      ensures old(renewPeriod != 0 && !renewPeriodPc) ==> renewPeriod == old(renewPeriod)
      ensures trace == old(trace) + if old(link.bus) then [m] else []
    {
      if link.bus {
        CalmRun(Ahead(), f);
      }
      SessionIpcLocked(m, Announcing(!at.Idle?), f);
      if link.bus {
        Resumes();
      }
    }

    /** `cpukeepalive_session_start_locked`: the timer gets the period in force once the flush
        is over. */
    method SessionStartLocked(f: seq<Event>, w: seq<Event>)
      requires Followed() && Dispatching(f) && Foreign(w)
      requires (if sessionRenew != 0 then State() else Announce(State(), Start)) == Ahead() && at.Idle?
      modifies this
      ensures Valid() && old(history) <= history && inShutdown == old(inShutdown)
      ensures old(sessionRenew) != 0 ==> State() == old(State())
      ensures old(sessionRenew) == 0 ==> sessionRenew == if inShutdown then 0 else Effective(renewPeriod)
      ensures trace == old(trace) + if old(sessionRenew == 0 && link.bus) then [Start] else []
    {
      if sessionRenew == 0 {
        Announced(Start, f);
        SessionTimerStart(if renewPeriod != 0 then renewPeriod else RENEW_MS, false, w);
      }
    }

    /** `cpukeepalive_session_restart_locked`, from the main loop or inside a flush */
    method SessionRestartLocked(f: seq<Event>, w: seq<Event>)
      requires Followed() && Dispatching(f) && Foreign(w) && renewPeriod != 0 && !renewPeriodPc
      requires (if sessionRenew == 0 then State() else Announce(State(), Renew)) == Ahead() && (at.Idle? || at.Flushing?)
      modifies this
      ensures Exact() && at == old(at) && old(history) <= history
      ensures inShutdown == old(inShutdown) && renewPeriod == old(renewPeriod)
      ensures old(sessionRenew) == 0 ==> State() == old(State())
      ensures old(sessionRenew) != 0 ==> sessionRenew == if inShutdown then 0 else renewPeriod
      ensures trace == old(trace) + if old(sessionRenew != 0 && link.bus) then [Renew] else []
    {
      if sessionRenew != 0 {
        var nested := !at.Idle?;
        Announced(Renew, f);
        SessionTimerStart(if renewPeriod != 0 then renewPeriod else RENEW_MS, nested, w);
      }
    }

    /** Turn of the loop that empties the session slot for good. */
    method SessionTimerTaken(w: seq<Event>)
      requires Followed() && Foreign(w) && StopSession(State()) == Ahead() && sessionRenew != 0
      modifies this
      ensures Followed() && StopSession(State()) == Ahead() && old(history) <= history
      ensures Leaves(old(State()).(timer := 0, at := Stopping), State())
    {
      sessionRenew, at := 0, Stopping;
      Window(w);
    }

    /** `cpukeepalive_session_stop_locked`, once it goes on: the timer goes, the mutex being
        dropped meanwhile. */
    method SessionTimerStop(w: seq<Event>)
      requires Followed() && Foreign(w) && StopSession(State()) == Ahead()
      modifies this
      ensures Followed() && StopSession(State()) == Ahead() && sessionRenew == 0 && old(history) <= history
      ensures trace == old(trace) && link.bus == old(link.bus)
      ensures inShutdown == old(inShutdown) && renewPeriod == old(renewPeriod)
    {
      while sessionRenew != 0
        invariant Followed() && StopSession(State()) == Ahead() && old(history) <= history
        invariant trace == old(trace) && link.bus == old(link.bus)
        invariant inShutdown == old(inShutdown) && renewPeriod == old(renewPeriod)
        decreases sessionRenew
      {
        SessionTimerTaken(w);
      }
    }

    method StopSent(f: seq<Event>)
      requires Followed() && Dispatching(f) && StopSession(State()) == Ahead() && sessionRenew == 0 && link.bus
      modifies this
      ensures Valid() && history == old(history) + f + [Resume] && sessionRenew == 0
      ensures inShutdown == old(inShutdown) && trace == old(trace) + [Stop]
    {
      CalmRun(Ahead(), f);
      SessionIpcLocked(Stop, Flushing, f);
      FlushEnds();
    }

    /** `cpukeepalive_session_stop_locked` */
    method SessionStopLocked(w: seq<Event>, f: seq<Event>)
      requires Followed() && Foreign(w) && Dispatching(f)
      requires (if sessionRenew == 0 then State() else StopSession(State())) == Ahead() && at.Idle?
      modifies this
      ensures Valid() && old(history) <= history && inShutdown == old(inShutdown)
      ensures sessionRenew == 0
      ensures trace == old(trace) + if old(sessionRenew != 0 && link.bus) then [Stop] else []
    {
      if sessionRenew != 0 {
        SessionTimerStop(w);
        if link.bus {
          StopSent(f);
        } else {
          at := Idle;
        }
      }
    }

    /** `cpukeepalive_rethink_now_locked`, its own timer out of the way */
    method RethinkNowLocked(w: seq<Event>, f: seq<Event>)
      requires Followed() && Foreign(w) && Dispatching(f)
      requires RethinkNow(State()) == Ahead() && at.Idle?
      modifies this
      ensures Valid() && old(history) <= history
      ensures sessionRenew != 0 <==> old(!inShutdown && link.mce.Running? && requested)
      ensures trace == old(trace) +
                if !old(link.bus) || old(sessionRenew != 0) == old(Want(State())) then []
                else if old(Want(State())) then [Start] else [Stop]
    {
      var needRenewLoop := false;
      if !inShutdown && link.mce.Running? {
        needRenewLoop := requested;
      }
      if needRenewLoop {
        SessionStartLocked(f, w);
      } else {
        SessionStopLocked(w, f);
      }
    }

    /** `cpukeepalive_rethink_cb` */
    method DelayedRethinkCb(w: seq<Event>, f: seq<Event>)
      requires Valid() && Foreign(w) && Dispatching(f) && delayedRethink
      modifies this
      ensures Valid() && old(history) + [RethinkCb] <= history
      ensures sessionRenew != 0 <==> old(!inShutdown && link.mce.Running? && requested)
      ensures trace == old(trace) +
                if !old(link.bus) || old(sessionRenew != 0) == old(Want(State())) then []
                else if old(Want(State())) then [Start] else [Stop]
    {
      Log(RethinkCb);
      delayedRethink := false;
      RethinkNowLocked(w, f);
    }

    /** `cpukeepalive_session_renew_cb`: the session is renewed and its timer goes on.  A period
        reply dispatched by the flush renews it once more, with a timer of the new period. */
    method SessionRenewCb(f: seq<Event>)
      requires Valid() && sessionRenew != 0
      requires Renewing(State().(trace := trace + [Renew], at := Flushing), f)
      modifies this
      ensures Valid() && history == old(history) + [RenewCb] + f + [Resume]
      ensures sessionRenew == Effective(renewPeriod)
      ensures trace == old(trace) + if sessionRenew == old(sessionRenew) then [Renew] else [Renew, Renew]
    {
      TrailBus(first, history, states);
      Log(RenewCb);
      if link.bus {
        RenewalSent(f);
        FlushEnds();
      }
    }

    method RenewalSent(f: seq<Event>)
      requires Followed() && Ahead() == State().(trace := trace + [Renew], at := Flushing) && Renewing(Ahead(), f)
      requires link.bus && !inShutdown && sessionRenew == Effective(renewPeriod) && (renewPeriodPc ==> renewPeriod == 0)
      modifies this
      ensures Exact() && at.Flushing? && history == old(history) + f
      ensures sessionRenew == Effective(renewPeriod)
      ensures trace == old(trace) + if sessionRenew == old(sessionRenew) then [Renew] else [Renew, Renew]
    {
      RenewedRun(Ahead(), f, f);
      SessionIpcLocked(Renew, Flushing, f);
    }

    /** `cpukeepalive_mce_owner_set_locked`, the link having moved on to `next` */
    method MceOwnerSetLocked(next: Link)
      modifies this`link, this`renewPeriodPc, this`delayedRethink
      ensures State() == Heed(old(State()), next)
      ensures old(link.mce) == next.mce ==> renewPeriodPc == old(renewPeriodPc) && delayedRethink == old(delayedRethink)
      ensures old(link.mce) != next.mce ==> delayedRethink == (old(delayedRethink) || !inShutdown)
      ensures old(link.mce) != next.mce && !inShutdown && next.bus && next.mce.Running? ==> renewPeriodPc || renewPeriod != 0
    {
      var changed := link.mce != next.mce;
      link := next;
      if changed {
        if link.mce.Running? && !inShutdown && renewPeriod == 0 && !renewPeriodPc && link.bus {
          renewPeriodPc := true;
        }
        RethinkScheduleLocked();
      }
    }

    /** The next message under way is dispatched: `cpukeepalive_dbus_filter_cb` hears a
        signal, `cpukeepalive_mce_owner_query_reply_cb` the answer to its query. */
    method Dispatched(news: News)
      requires Exact() && Reads(State()) && link.bus && link.down != [] && news == link.down[0]
      modifies this
      ensures Exact() && at == old(at) && history == old(history) + [Deliver]
      ensures link.mce == if old(Heard(link)) then Of(news.running) else old(link.mce)
      ensures link.mce != old(link.mce) && !inShutdown ==> delayedRethink
      ensures link.mce.Running? && !inShutdown ==> renewPeriodPc || renewPeriod != 0
    {
      Log(Deliver);
      TrailAsks(first, history, states);
      MceOwnerSetLocked(Read(link, false));
    }

    /** `cpukeepalive_renew_period_query_reply_cb`, from the main loop or inside the flush of a
        renewal or of a STOP */
    method RenewPeriodReplyCb(val: int, f: seq<Event>, w: seq<Event>)
      requires Exact() && Dispatching(f) && Foreign(w) && renewPeriodPc && -2147483 <= val <= 2147483
      requires at.Idle? || at.Flushing?
      modifies this
      ensures Exact() && at == old(at) && renewPeriod == if val <= 0 then RENEW_MS else val * 1000
      ensures sessionRenew == if old(sessionRenew) == 0 then 0 else renewPeriod
    {
      TrailInv(first, history, states);
      Log(PeriodReply(val));
      renewPeriodPc := false;
      RenewPeriodSetLocked(val * 1000, f, w);
    }

    /** `cpukeepalive_renew_period_set_locked` */
    method RenewPeriodSetLocked(delay: int, f: seq<Event>, w: seq<Event>)
      requires Followed() && Dispatching(f) && Foreign(w) && !inShutdown && !renewPeriodPc && (at.Idle? || at.Flushing?)
      requires SetPeriod(State(), delay) == Ahead()
      requires sessionRenew != 0 ==> sessionRenew == Effective(renewPeriod)
      modifies this
      ensures Exact() && at == old(at) && renewPeriod == if delay <= 0 then RENEW_MS else delay
      ensures sessionRenew == if old(sessionRenew) == 0 then 0 else renewPeriod
    {
      var before := if renewPeriod != 0 then renewPeriod else RENEW_MS;
      var after := delay;
      if after <= 0 {
        after := RENEW_MS;
      }
      assert Retime(State(), after) == Ahead();
      renewPeriod := after;
      if before != after {
        SessionRestartLocked(f, w);
      }
    }

    /** `cpukeepalive_connect_cb` with `cpukeepalive_connect_now_locked` */
    method ConnectedCb(busOk: bool, filterOk: bool)
      requires Valid() && delayedConnect
      modifies this
      ensures Valid() && history == old(history) + [ConnectCb(busOk, filterOk)] && !delayedConnect
      ensures link.bus == (old(link.bus) || (busOk && !inShutdown && !old(connectAttempted)))
      ensures link.bus && !old(link.bus) ==>
                (link.filter <==> filterOk) && link.query && link.up == if filterOk then RuleThenQuery else QueryOnly
    {
      Log(ConnectCb(busOk, filterOk));
      delayedConnect := false;
      if !inShutdown && !connectAttempted {
        connectAttempted := true;
        if busOk {
          link := Connected(link, filterOk);
        }
      }
    }

    // the parts of the shutdown callback; the object is in shutdown and nobody refers to it

    /** `cpukeepalive_mce_owner_cancel_query_locked` */
    method MceOwnerCancelQueryLocked(w: seq<Event>)
      requires Followed() && Foreign(w) && inShutdown && released && SweepOwner(State()) == Ahead()
      modifies this
      ensures Followed() && inShutdown && released && SweepPeriod(State()) == Ahead() && old(history) <= history
      ensures trace == old(trace) && sessionRenew == old(sessionRenew) && link.bus == old(link.bus)
    {
      while link.query
        invariant Followed() && inShutdown && released && SweepOwner(State()) == Ahead() && old(history) <= history
        invariant trace == old(trace) && sessionRenew == old(sessionRenew) && link.bus == old(link.bus)
        decreases link.query
      {
        link, at := link.(query := false), Sweeping(OwnerQuery);
        Window(w);
      }
    }

    /** `cpukeepalive_renew_period_cancel_query_locked` */
    method RenewPeriodCancelQueryLocked(w: seq<Event>)
      requires Followed() && Foreign(w) && inShutdown && released && SweepPeriod(State()) == Ahead()
      modifies this
      ensures Followed() && inShutdown && released && SweepRethink(State()) == Ahead() && old(history) <= history
      ensures trace == old(trace) && sessionRenew == old(sessionRenew) && link.bus == old(link.bus)
    {
      while renewPeriodPc
        invariant Followed() && inShutdown && released && SweepPeriod(State()) == Ahead() && old(history) <= history
        invariant trace == old(trace) && sessionRenew == old(sessionRenew) && link.bus == old(link.bus)
        decreases renewPeriodPc
      {
        renewPeriodPc, at := false, Sweeping(PeriodQuery);
        Window(w);
      }
    }

    /** `cpukeepalive_rethink_cancel_locked` */
    method RethinkCancelLocked(w: seq<Event>)
      requires Followed() && Foreign(w) && inShutdown && released && SweepRethink(State()) == Ahead()
      modifies this
      ensures Followed() && inShutdown && released && SweepSession(State()) == Ahead() && old(history) <= history
      ensures trace == old(trace) && sessionRenew == old(sessionRenew) && link.bus == old(link.bus)
    {
      while delayedRethink
        invariant Followed() && inShutdown && released && SweepRethink(State()) == Ahead() && old(history) <= history
        invariant trace == old(trace) && sessionRenew == old(sessionRenew) && link.bus == old(link.bus)
        decreases delayedRethink
      {
        delayedRethink, at := false, Sweeping(Rethink);
        Window(w);
      }
    }

    /** `cpukeepalive_session_stop_locked`, as the rethink of an object in shutdown comes to it */
    method SessionSwept(w: seq<Event>, f: seq<Event>)
      requires Followed() && Foreign(w) && Dispatching(f) && inShutdown && released
      requires SweepSession(State()) == Ahead()
      modifies this
      ensures Followed() && inShutdown && released && SweepConnect(State()) == Ahead() && old(history) <= history
      ensures trace == old(trace) + if old(sessionRenew != 0 && link.bus) then [Stop] else []
    {
      if sessionRenew != 0 {
        TimerSwept(w);
        if link.bus {
          CalmRun(Ahead(), f);
        }
        SessionIpcLocked(Stop, Sweeping(Farewell), f);
        if link.bus {
          Resumes();
        }
      }
    }

    method TimerSwept(w: seq<Event>)
      requires Followed() && Foreign(w) && inShutdown && released && sessionRenew != 0
      requires SweepSession(State()) == Ahead()
      modifies this
      ensures Followed() && inShutdown && released && SweepStopMessage(State()) == Ahead() && old(history) <= history
      ensures trace == old(trace) && sessionRenew == 0 && link.bus == old(link.bus)
    {
      sessionRenew, at := 0, Sweeping(StopMessage);
      Window(w);
    }

    /** The connect timer is not left behind. */
    method ConnectCancelLocked(w: seq<Event>)
      requires Followed() && Foreign(w) && inShutdown && released && SweepConnect(State()) == Ahead()
      modifies this
      ensures Followed() && inShutdown && released && SweepConnect(State()) == Ahead() && old(history) <= history
      ensures trace == old(trace) && !delayedConnect
    {
      while delayedConnect
        invariant Followed() && inShutdown && released && SweepConnect(State()) == Ahead()
        invariant trace == old(trace) && old(history) <= history
        decreases delayedConnect
      {
        ConnectTaken(w);
      }
    }

    method ConnectTaken(w: seq<Event>)
      requires Followed() && Foreign(w) && inShutdown && released && delayedConnect
      requires SweepConnect(State()) == Ahead()
      modifies this
      ensures Followed() && inShutdown && released && SweepConnect(State()) == Ahead() && old(history) <= history
      ensures trace == old(trace) && !delayedConnect
    {
      delayedConnect, at := false, Sweeping(Connect);
      Window(w);
    }

    /** `cpukeepalive_disconnect_now_locked` */
    method DisconnectNowLocked(w: seq<Event>)
      requires Followed() && Foreign(w) && inShutdown && released && SweepConnect(State()) == Ahead()
      modifies this
      ensures Valid() && inShutdown && trace == old(trace) && old(history) <= history
    {
      ConnectCancelLocked(w);
      link, at := link.(filter := false, bus := false), Idle;
    }

    /** Both queries and the rethink timer are cancelled. */
    method SlotsSwept(w1: seq<Event>, w2: seq<Event>, w3: seq<Event>)
      requires Followed() && Foreign(w1) && Foreign(w2) && Foreign(w3) && inShutdown && released
      requires SweepOwner(State()) == Ahead()
      modifies this
      ensures Followed() && inShutdown && released && SweepSession(State()) == Ahead() && old(history) <= history
      ensures trace == old(trace) && sessionRenew == old(sessionRenew) && link.bus == old(link.bus)
    {
      MceOwnerCancelQueryLocked(w1);
      RenewPeriodCancelQueryLocked(w2);
      RethinkCancelLocked(w3);
    }

    /** `cpukeepalive_shutdown_locked_cb`: a session that ran is ended, and then nothing is left. */
    method ShutdownLockedCb(w1: seq<Event>, w2: seq<Event>, w3: seq<Event>, w4: seq<Event>, f: seq<Event>, w5: seq<Event>)
      requires Valid() && released && !inShutdown
      requires Foreign(w1) && Foreign(w2) && Foreign(w3) && Foreign(w4) && Dispatching(f) && Foreign(w5)
      modifies this
      ensures Valid() && inShutdown && old(history) + [ShutdownCb] <= history
      ensures trace == old(trace) + if old(sessionRenew) != 0 then [Stop] else []
      ensures sessionRenew == 0 && !renewPeriodPc && !delayedRethink && !delayedConnect
      ensures !link.query && !link.filter && !link.bus
    {
      TrailBus(first, history, states);
      Log(ShutdownCb);
      inShutdown := true;
      SlotsSwept(w1, w2, w3);
      SessionSwept(w4, f);
      DisconnectNowLocked(w5);
      TrailShut(first, history, states);
    }
  }
}
