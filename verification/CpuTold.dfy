/** Whether the MCE that owns the name now has been told of the CPU session.

    A message goes to whoever owns the name when it is sent.  The controller looks at the name
    only when it rethinks: if the owner is replaced and no rethink runs in between, the session
    stays open on the controller's side and the new owner first hears of it in a renewal. */
module CpuTold {
  import opened MceOwner
  import opened BusLink
  import opened Sessions
  import opened CpuProtocol
  import opened CpuTheorems
  import opened CpuSettles

  /** How many messages had been sent when the present owner took the name. */
  function Since(owned: bool, es: seq<Event>): nat {
    if es == [] then 0
    else
      var before := es[..|es| - 1];
      if es[|es| - 1] == NameChange(true) then |Reach(owned, before).trace| else Since(owned, before)
  }

  /** The step makes the controller hear that MCE runs. */
  predicate HearsRunning(s: Cpu, e: Event) {
    e.Deliver? && Reads(s) && s.link.bus && Heard(s.link) && s.link.down[0].running
  }

  /** A session was open when the controller last heard that MCE runs. */
  function Overlap(owned: bool, es: seq<Event>): bool {
    if es == [] then false
    else
      var s := Reach(owned, es[..|es| - 1]);
      if HearsRunning(s, es[|es| - 1]) then Open(s.trace) else Overlap(owned, es[..|es| - 1])
  }

  /** The present owner has last been told to keep the session open. */
  predicate Told(owned: bool, es: seq<Event>)
    requires Since(owned, es) <= |Reach(owned, es).trace|
  {
    Open(Reach(owned, es).trace[Since(owned, es)..])
  }

  /** A query whose answer has been read has no other. */
  predicate AnsweredOnce(l: Link) { !l.query && !l.up.Unsent? ==> l.up.Handled? && Replies(l.down) == 0 }

  lemma StepAnsweredOnce(s: Cpu, e: Event)
    requires Inv(s) && (!s.inShutdown ==> AnsweredOnce(s.link))
    ensures !Step(s, e).inShutdown ==> AnsweredOnce(Step(s, e).link)
  {
    var l := s.link;
    match e
    case NameChange(b) => RepliesGrow(l.down, Signal(b));
    case DaemonStep => RepliesGrow(l.down, Reply(l.owned));
    case Resume => ResumeAnswered(s);
    case ShutdownCb =>
    case _ =>
  }

  lemma ResumeAnswered(s: Cpu)
    requires Inv(s)
    ensures !GoOn(s).inShutdown ==> GoOn(s).link == s.link
  {
  }

  // ------------------------------------------------- what has been sent stays sent

  /** Nothing has been sent, or something has. */
  predicate Grows(trace: seq<Msg>, after: seq<Msg>) { after == trace || |after| > |trace| }

  lemma AnnounceExtends(s: Cpu, m: Msg)
    ensures Grows(s.trace, Announce(s, m).trace)
  {
  }

  lemma RethinkExtends(s: Cpu)
    ensures Grows(s.trace, RethinkNow(s).trace)
  {
    AnnounceExtends(s, Start);
  }

  lemma PeriodExtends(s: Cpu, ms: int)
    ensures Grows(s.trace, SetPeriod(s, ms).trace)
  {
    AnnounceExtends(s.(period := if ms <= 0 then RENEW_MS else ms), Renew);
  }

  lemma HeedExtends(s: Cpu, link: Link)
    ensures Heed(s, link).trace == s.trace
  {
  }

  lemma SweepConnectExtends(s: Cpu)
    ensures SweepConnect(s).trace == s.trace
  {
  }

  lemma SweepStopExtends(s: Cpu)
    ensures Grows(s.trace, SweepStopMessage(s).trace)
  {
    SweepConnectExtends(s);
  }

  lemma SweepSessionExtends(s: Cpu)
    ensures SweepSession(s).trace == s.trace
  {
    if s.timer == 0 { SweepConnectExtends(s); }
  }

  lemma SweepRethinkExtends(s: Cpu)
    ensures SweepRethink(s).trace == s.trace
  {
    if !s.rethink { SweepSessionExtends(s); }
  }

  lemma SweepPeriodExtends(s: Cpu)
    ensures SweepPeriod(s).trace == s.trace
  {
    if !s.periodPc { SweepRethinkExtends(s); }
  }

  lemma SweepOwnerExtends(s: Cpu)
    ensures SweepOwner(s).trace == s.trace
  {
    if !s.link.query { SweepPeriodExtends(s); }
  }

  lemma SweepExtends(s: Cpu, stage: Stage)
    ensures Grows(s.trace, Sweep(s, stage).trace)
  {
    match stage
    case OwnerQuery => SweepOwnerExtends(s);
    case PeriodQuery => SweepPeriodExtends(s);
    case Rethink => SweepRethinkExtends(s);
    case Session => SweepSessionExtends(s);
    case StopMessage => SweepStopExtends(s);
    case Farewell => SweepConnectExtends(s);
    case Connect => SweepConnectExtends(s);
  }

  lemma ArmExtends(s: Cpu, nested: bool)
    ensures Arm(s, nested).trace == s.trace
  {
  }

  lemma StopExtends(s: Cpu)
    ensures Grows(s.trace, StopSession(s).trace)
  {
  }

  lemma HandlerExtends(s: Cpu)
    requires !s.at.Sweeping?
    ensures Grows(s.trace, GoOn(s).trace)
  {
    match s.at
    case Announcing(nested) => ArmExtends(s, nested);
    case Arming(nested) => ArmExtends(s, nested);
    case Stopping => StopExtends(s);
    case _ =>
  }

  lemma ResumeExtends(s: Cpu)
    ensures Grows(s.trace, GoOn(s).trace)
  {
    if s.at.Sweeping? {
      var stage, r := s.at.stage, GoOn(s);
      assert r == Sweep(s, stage);
      SweepExtends(s, stage);
    } else {
      HandlerExtends(s);
    }
  }

  lemma ShutdownExtends(s: Cpu)
    ensures Step(s, ShutdownCb).trace == s.trace
  {
    SweepOwnerExtends(s.(inShutdown := true));
  }

  lemma CallbackExtends(s: Cpu, e: Event)
    requires e.RethinkCb? || e.PeriodReply? || e.Deliver?
    ensures Grows(s.trace, Step(s, e).trace)
  {
    match e
    case RethinkCb => RethinkExtends(s.(rethink := false));
    case PeriodReply(val) => PeriodExtends(s.(periodPc := false), val * 1000);
    case Deliver => if s.link.down != [] { HeedExtends(s, Read(s.link, false)); }
  }

  lemma PlainExtends(s: Cpu, e: Event)
    requires e.RenewCb? || e.ConnectCb? || e.ApiStart? || e.ApiStop? || e.LastUnref? || e.NameChange? || e.DaemonStep?
    ensures Grows(s.trace, Step(s, e).trace)
  {
  }

  lemma TraceExtends(s: Cpu, e: Event)
    ensures Grows(s.trace, Step(s, e).trace)
  {
    if e.Resume? {
      ResumeExtends(s);
    } else if e.ShutdownCb? {
      ShutdownExtends(s);
    } else if e.RethinkCb? || e.PeriodReply? || e.Deliver? {
      CallbackExtends(s, e);
    } else {
      PlainExtends(s, e);
    }
  }

  /** Steps that are none of the bus. */
  lemma SameLink(s: Cpu, e: Event)
    requires Inv(s) && !e.NameChange? && !e.DaemonStep? && !e.Deliver? && !e.ConnectCb?
    ensures !Step(s, e).inShutdown ==> Step(s, e).link == s.link && !s.inShutdown
  {
  }

  /** The daemon has answered, and nothing is under way. */
  predicate Settled(s: Cpu) { !s.inShutdown && s.link.filter && s.link.owned && s.link.up.Handled? && s.link.down == [] }

  /** What is known of the owner then: it came to a session that was open, or to none, or has
      been sent something. */
  predicate Known(s: Cpu, since: nat, overlap: bool) {
    since <= |s.trace| && (Settled(s) ==> overlap || !Open(s.trace) || |s.trace| > since)
  }

  lemma NameChangeKnown(s: Cpu, b: bool, since: nat, overlap: bool)
    requires Inv(s) && Known(s, since, overlap)
    ensures Known(Step(s, NameChange(b)), if b then |s.trace| else since, overlap)
  {
  }

  lemma DaemonKnown(s: Cpu, since: nat, overlap: bool)
    requires Known(s, since, overlap)
    ensures Known(Step(s, DaemonStep), since, overlap)
  {
  }

  /** The last message is heard, and tells of the owner there is. */
  lemma LastIsHeard(s: Cpu)
    requires Inv(s) && AnsweredOnce(s.link) && !s.inShutdown && s.link.bus && s.link.filter
    requires s.link.up.Handled? && |s.link.down| == 1
    ensures Heard(s.link) && s.link.down[0].running == s.link.owned
  {
    assert s.link.down == [s.link.down[0]];
  }

  lemma DeliverKnown(s: Cpu, since: nat, overlap: bool)
    requires Inv(s) && (!s.inShutdown ==> AnsweredOnce(s.link)) && Known(s, since, overlap)
    ensures Known(Step(s, Deliver), since, if HearsRunning(s, Deliver) then Open(s.trace) else overlap)
  {
    var t := Step(s, Deliver);
    if Settled(t) && Reads(s) && s.link.bus && s.link.down != [] {
      assert s.link.down[1..] == [];
      LastIsHeard(s);
    }
  }

  lemma OtherKnown(s: Cpu, e: Event, since: nat, overlap: bool)
    requires Inv(s) && Known(s, since, overlap) && !e.NameChange? && !e.DaemonStep? && !e.Deliver? && !e.ConnectCb?
    ensures Known(Step(s, e), since, overlap)
  {
    TraceExtends(s, e);
    SameLink(s, e);
  }

  lemma ConnectKnown(s: Cpu, busOk: bool, filterOk: bool, since: nat, overlap: bool)
    requires Inv(s) && Known(s, since, overlap)
    ensures Known(Step(s, ConnectCb(busOk, filterOk)), since, overlap)
  {
  }

  lemma StepKnown(s: Cpu, e: Event, since: nat, overlap: bool)
    requires Inv(s) && (!s.inShutdown ==> AnsweredOnce(s.link)) && Known(s, since, overlap)
    ensures Known(Step(s, e), if e == NameChange(true) then |s.trace| else since,
                  if HearsRunning(s, e) then Open(s.trace) else overlap)
  {
    match e
    case NameChange(b) => NameChangeKnown(s, b, since, overlap);
    case DaemonStep => DaemonKnown(s, since, overlap);
    case Deliver => DeliverKnown(s, since, overlap);
    case ConnectCb(busOk, filterOk) => ConnectKnown(s, busOk, filterOk, since, overlap);
    case _ => OtherKnown(s, e, since, overlap);
  }

  lemma {:induction false} AlwaysKnown(owned: bool, es: seq<Event>)
    ensures var s := Reach(owned, es);
            Known(s, Since(owned, es), Overlap(owned, es)) && (!s.inShutdown ==> AnsweredOnce(s.link))
  {
    if es != [] {
      var before, e := es[..|es| - 1], es[|es| - 1];
      AlwaysKnown(owned, before);
      RunKeeps(owned, before);
      StepKnown(Reach(owned, before), e, Since(owned, before), Overlap(owned, before));
      StepAnsweredOnce(Reach(owned, before), e);
    }
  }

  /** At rest the MCE that owns the name has been told to keep the session open exactly when
      there is one, and it was not open already when that MCE was heard to run, or something
      has been sent since that MCE took the name. */
  lemma ToldAtRest(owned: bool, es: seq<Event>)
    ensures Since(owned, es) <= |Reach(owned, es).trace|
    ensures var s := Reach(owned, es);
            Quiet(s) && s.link.filter ==>
              (Told(owned, es) <==> s.timer != 0 && (!Overlap(owned, es) || |s.trace| > Since(owned, es)))
  {
    AlwaysKnown(owned, es);
    Convergence(owned, es);
    LastSince(Reach(owned, es).trace, Since(owned, es));
    if Quiet(Reach(owned, es)) && Reach(owned, es).link.filter { FilterHasBus(owned, es); }
  }

  lemma FilterHasBus(owned: bool, es: seq<Event>)
    requires Reach(owned, es).link.filter && Free(Reach(owned, es))
    ensures Reach(owned, es).link.bus && !Reach(owned, es).inShutdown
  {
    RunKeeps(owned, es);
  }

  lemma Goes(owned: bool, es: seq<Event>, e: Event)
    ensures Reach(owned, es + [e]) == Step(Reach(owned, es), e)
    ensures Since(owned, es + [e]) == if e == NameChange(true) then |Reach(owned, es).trace| else Since(owned, es)
  {
    assert (es + [e])[..|es|] == es;
  }

  lemma RenewOnce(s: Cpu)
    requires Inv(s) && Free(s) && s.timer != 0
    ensures Step(Step(s, RenewCb), Resume) == s.(trace := s.trace + [Renew])
  {
  }

  /** Whoever owns the name is told by the next renewal, and the controller is at rest again. */
  lemma RenewalTells(owned: bool, es: seq<Event>)
    requires var s := Reach(owned, es); Quiet(s) && s.timer != 0
    ensures var after := es + [RenewCb] + [Resume];
            Since(owned, after) <= |Reach(owned, after).trace| && Told(owned, after) && Quiet(Reach(owned, after))
  {
    RunKeeps(owned, es);
    AlwaysKnown(owned, es);
    RenewOnce(Reach(owned, es));
    Goes(owned, es, RenewCb);
    Goes(owned, es + [RenewCb], Resume);
  }

  // ------------------------------------------------------- a run where nobody tells it

  function Running(period: bool, rethink: bool, requested: bool, timer: nat, at: At, trace: seq<Msg>): Cpu {
    Cpu(requested, Link(true, true, false, Owner.Running, true, true, Handled, []), 0, period, timer, rethink,
        false, true, false, false, at, trace)
  }

  /** MCE runs and is heard to. */
  lemma Connects() returns (es: seq<Event>)
    ensures Reach(true, es) == Running(true, true, false, 0, Idle, [])
  {
    es := [];
    Goes(true, es, ConnectCb(true, true));
    es := es + [ConnectCb(true, true)];
    Goes(true, es, DaemonStep);
    es := es + [DaemonStep];
    Goes(true, es, DaemonStep);
    es := es + [DaemonStep];
    assert Reach(true, es).link.down == [Reply(true)];
    Goes(true, es, Deliver);
    es := es + [Deliver];
  }

  /** A session is started and announced. */
  lemma Starts() returns (es: seq<Event>)
    ensures Reach(true, es) == Running(true, false, true, RENEW_MS, Idle, [Start])
  {
    es := Connects();
    Goes(true, es, ApiStart);
    es := es + [ApiStart];
    Goes(true, es, RethinkCb);
    es := es + [RethinkCb];
    Goes(true, es, Resume);
    es := es + [Resume];
  }

  /** MCE loses its name and gets it back, and the controller has heard of neither. */
  lemma Replaced() returns (es: seq<Event>)
    ensures Reach(true, es).(link := Reach(true, es).link.(down := []))
              == Running(true, false, true, RENEW_MS, Idle, [Start])
    ensures Reach(true, es).link.down == [Signal(false), Signal(true)] && Since(true, es) == 1
  {
    es := Starts();
    Goes(true, es, NameChange(false));
    es := es + [NameChange(false)];
    Goes(true, es, NameChange(true));
    es := es + [NameChange(true)];
  }

  /** MCE is replaced before the controller rethinks: at rest, with the session running, the
      new MCE has been told nothing. */
  lemma NewOwnerUntold() returns (es: seq<Event>)
    ensures var s := Reach(true, es);
            Quiet(s) && s.link.filter && s.timer != 0 && s.requested && s.link.owned
    ensures Since(true, es) <= |Reach(true, es).trace| && !Told(true, es)
  {
    es := Replaced();
    Goes(true, es, Deliver);
    es := es + [Deliver];
    assert Reach(true, es).link.down == [Signal(true)];
    Goes(true, es, Deliver);
    es := es + [Deliver];
    Goes(true, es, RethinkCb);
    es := es + [RethinkCb];
  }
}
