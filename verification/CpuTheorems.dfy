/** What the CPU session controller keeps, in every run. */
module CpuTheorems {
  import opened MceOwner
  import opened BusLink
  import opened Sessions
  import opened CpuProtocol

  /** The session timer, the messages and the position agree. */
  predicate SessionInv(s: Cpu) {
    && Grammar(s.trace, false)
    && (s.timer != 0 ==> s.link.bus)
    && (s.periodPc ==> s.period == 0)
    && (!s.inShutdown && s.link.bus && s.link.mce.Running? ==> s.periodPc || s.period != 0)
    && match s.at
       case Announcing(nested) =>
         Open(s.trace) && s.link.bus && !s.inShutdown && (s.timer != 0 || nested ==> s.period != 0)
       case Arming(_) => s.timer == 0 && Open(s.trace) && s.link.bus && !s.inShutdown
       case Stopping => s.timer == 0 && Open(s.trace) && s.link.bus && !s.inShutdown
       case Sweeping(StopMessage) => s.timer == 0 && Open(s.trace) && s.link.bus && s.inShutdown
       case Sweeping(Farewell) => s.timer == 0 && !Open(s.trace) && s.inShutdown
       case Sweeping(Connect) => s.timer == 0 && !Open(s.trace) && s.inShutdown
       case Sweeping(_) => (s.timer != 0 <==> Open(s.trace)) && s.inShutdown
       case _ =>
         (s.timer != 0 <==> Open(s.trace)) && (s.timer != 0 ==> s.timer == Effective(s.period))
         && (s.at.Flushing? ==> s.link.bus && !s.inShutdown)
  }

  /** No lost update: a rethink is due, or the session is, or is about to be, what is wanted. */
  predicate RethinkInv(s: Cpu) {
    s.inShutdown || s.rethink ||
    match s.at
    case Announcing(_) => Want(s)
    case Arming(_) => Want(s)
    case Stopping => !Want(s)
    case _ => s.timer != 0 <==> Want(s)
  }

  /** The connection is made once, follows the name while it lasts, and is let go last. */
  predicate LinkInv(s: Cpu) {
    && (s.link.bus ==> s.attempted)
    && (s.attempted ==> !s.connectId) && (s.inShutdown || s.attempted || s.connectId)
    && (!s.attempted ==> s.link == NoLink(s.link.owned))
    && (!s.inShutdown ==> if s.link.bus then Tracks(s.link) else s.link == NoLink(s.link.owned))
  }

  predicate ShutInv(s: Cpu) {
    && (s.inShutdown ==> s.released)
    && (s.inShutdown && s.at.Idle? ==>
          !s.link.query && !s.periodPc && !s.rethink && !s.connectId && !s.link.filter && !s.link.bus)
    && match s.at
       case Sweeping(OwnerQuery) => true
       case Sweeping(PeriodQuery) => !s.link.query
       case Sweeping(Rethink) => !s.link.query && !s.periodPc
       case Sweeping(_) => !s.link.query && !s.periodPc && !s.rethink
       case _ => true
  }

  predicate Inv(s: Cpu) { SessionInv(s) && RethinkInv(s) && LinkInv(s) && ShutInv(s) }

  lemma NameChangeKeeps(s: Cpu, owned: bool)
    requires Inv(s)
    ensures Inv(Step(s, NameChange(owned)))
  {
    if !s.inShutdown && s.link.bus { ChangedTracks(s.link, owned); }
  }

  lemma DaemonStepKeeps(s: Cpu)
    requires Inv(s)
    ensures Inv(Step(s, DaemonStep))
  {
    if !s.inShutdown && s.link.bus { TurnTracks(s.link); }
  }

  lemma ApiKeeps(s: Cpu, e: Event)
    requires Inv(s) && (e.ApiStart? || e.ApiStop? || e.LastUnref?)
    ensures Inv(Step(s, e))
  {
  }

  lemma DeliverKeeps(s: Cpu)
    requires Inv(s)
    ensures Inv(Step(s, Deliver))
  {
    if Reads(s) && !s.inShutdown && s.link.bus && s.link.down != [] { ReadTracks(s.link, false); }
  }

  lemma RetimeKeeps(s: Cpu, ms: nat)
    requires Inv(s) && Reads(s) && s.periodPc && ms > 0
    ensures Inv(Retime(s.(periodPc := false), ms))
  {
    TraceGrows(s.trace, false);
  }

  lemma PeriodReplyKeeps(s: Cpu, val: int)
    requires Inv(s)
    ensures Inv(Step(s, PeriodReply(val)))
  {
    if Reads(s) && s.periodPc { RetimeKeeps(s, if val <= 0 then RENEW_MS else val * 1000); }
  }

  lemma RethinkKeeps(s: Cpu)
    requires Inv(s)
    ensures Inv(Step(s, RethinkCb))
  {
    TraceGrows(s.trace, false);
  }

  lemma RenewKeeps(s: Cpu)
    requires Inv(s)
    ensures Inv(Step(s, RenewCb))
  {
    TraceGrows(s.trace, false);
  }

  lemma ConnectKeeps(s: Cpu, busOk: bool, filterOk: bool)
    requires Inv(s)
    ensures Inv(Step(s, ConnectCb(busOk, filterOk)))
  {
    ConnectedTracks(s.link.owned, Unknown, filterOk);
  }

  lemma SweepConnectKeeps(s: Cpu)
    requires Inv(s.(at := Sweeping(Connect)))
    ensures Inv(SweepConnect(s))
  {
  }

  lemma SweepStopMessageKeeps(s: Cpu)
    requires Inv(s.(at := Sweeping(StopMessage)))
    ensures Inv(SweepStopMessage(s))
  {
    TraceGrows(s.trace, false);
  }

  lemma SweepSessionKeeps(s: Cpu)
    requires Inv(s.(at := Sweeping(Session)))
    ensures Inv(SweepSession(s))
  {
    if s.timer == 0 { SweepConnectKeeps(s); }
  }

  lemma SweepRethinkKeeps(s: Cpu)
    requires Inv(s.(at := Sweeping(Rethink)))
    ensures Inv(SweepRethink(s))
  {
    if !s.rethink { SweepSessionKeeps(s); }
  }

  lemma SweepPeriodKeeps(s: Cpu)
    requires Inv(s.(at := Sweeping(PeriodQuery)))
    ensures Inv(SweepPeriod(s))
  {
    if !s.periodPc { SweepRethinkKeeps(s); }
  }

  lemma SweepOwnerKeeps(s: Cpu)
    requires Inv(s.(at := Sweeping(OwnerQuery)))
    ensures Inv(SweepOwner(s))
  {
    if !s.link.query { SweepPeriodKeeps(s); }
  }

  lemma SweepKeeps(s: Cpu, stage: Stage)
    requires Inv(s.(at := Sweeping(stage)))
    ensures Inv(Sweep(s, stage))
  {
    match stage
    case OwnerQuery => SweepOwnerKeeps(s);
    case PeriodQuery => SweepPeriodKeeps(s);
    case Rethink => SweepRethinkKeeps(s);
    case Session => SweepSessionKeeps(s);
    case StopMessage => SweepStopMessageKeeps(s);
    case Farewell => SweepConnectKeeps(s);
    case Connect => SweepConnectKeeps(s);
  }

  lemma ArmKeeps(s: Cpu)
    requires Inv(s) && (s.at.Announcing? || s.at.Arming?)
    ensures Inv(Arm(s, s.at.nested))
  {
  }

  lemma StopSessionKeeps(s: Cpu)
    requires Inv(s) && s.at.Stopping?
    ensures Inv(StopSession(s))
  {
    TraceGrows(s.trace, false);
  }

  lemma ResumeKeeps(s: Cpu)
    requires Inv(s)
    ensures Inv(Step(s, Resume))
  {
    match s.at
    case Idle =>
    case Announcing(_) => ArmKeeps(s);
    case Arming(_) => ArmKeeps(s);
    case Stopping => StopSessionKeeps(s);
    case Flushing =>
    case Sweeping(stage) => SweepKeeps(s, stage);
  }

  lemma ShutdownKeeps(s: Cpu)
    requires Inv(s)
    ensures Inv(Step(s, ShutdownCb))
  {
    if Free(s) && s.released && !s.inShutdown {
      SweepKeeps(s.(inShutdown := true), OwnerQuery);
    }
  }

  lemma StepKeeps(s: Cpu, e: Event)
    requires Inv(s)
    ensures Inv(Step(s, e))
  {
    match e
    case ApiStart => ApiKeeps(s, e);
    case ApiStop => ApiKeeps(s, e);
    case LastUnref => ApiKeeps(s, e);
    case NameChange(b) => NameChangeKeeps(s, b);
    case DaemonStep => DaemonStepKeeps(s);
    case Deliver => DeliverKeeps(s);
    case PeriodReply(val) => PeriodReplyKeeps(s, val);
    case RethinkCb => RethinkKeeps(s);
    case RenewCb => RenewKeeps(s);
    case ConnectCb(busOk, filterOk) => ConnectKeeps(s, busOk, filterOk);
    case ShutdownCb => ShutdownKeeps(s);
    case Resume => ResumeKeeps(s);
  }

  lemma {:induction false} RunKeeps(owned: bool, es: seq<Event>)
    ensures Inv(Reach(owned, es))
  {
    if es != [] {
      RunKeeps(owned, es[..|es| - 1]);
      StepKeeps(Reach(owned, es[..|es| - 1]), es[|es| - 1]);
    }
  }

  // ---------------------------------------------------------------- what every run has

  /** No update is lost: between callbacks, and unless a rethink is due, a session runs
      exactly when it is requested and MCE is believed to run. */
  lemma NoLostUpdate(owned: bool, es: seq<Event>)
    ensures var s := Reach(owned, es);
            Free(s) && !s.inShutdown && !s.rethink ==> (s.timer != 0 <==> s.requested && s.link.mce.Running?)
  {
    RunKeeps(owned, es);
  }

  /** What is believed follows the truth: the messages under way lead to it. */
  lemma NameTracking(owned: bool, es: seq<Event>)
    ensures var s := Reach(owned, es);
            !s.inShutdown && s.link.filter && (s.link.up.Handled? || s.link.down != []) ==>
              Eventually(s.link, false) == Of(s.link.owned)
  {
    RunKeeps(owned, es);
    var s := Reach(owned, es);
    if !s.inShutdown && s.link.filter && (s.link.up.Handled? || s.link.down != []) {
      EventuallyTrue(s.link, false);
    }
  }

  /** Between callbacks MCE has last been told to keep the session open exactly when the
      renew timer is in its slot, and the timer has the interval now in force. */
  lemma MessageTrace(owned: bool, es: seq<Event>)
    ensures var s := Reach(owned, es);
            && Grammar(s.trace, false)
            && (Free(s) ==> (s.timer != 0 <==> Open(s.trace)))
            && (Free(s) && s.timer != 0 ==> s.timer == Effective(s.period) > 0)
  {
    RunKeeps(owned, es);
  }

  /** The connect timer connects, unless shutdown has begun: with the filter if it can be added,
      and its match rule before the owner query. */
  lemma ConnectTimerConnects(owned: bool, es: seq<Event>, busOk: bool, filterOk: bool)
    ensures var s, t := Reach(owned, es), Step(Reach(owned, es), ConnectCb(busOk, filterOk));
            Free(s) && s.connectId && !s.inShutdown ==>
              && !t.connectId && t.attempted && t.link.bus == busOk && t.link.filter == (busOk && filterOk)
              && (busOk ==> t.link.query && t.link.up == if filterOk then RuleThenQuery else QueryOnly)
  {
    RunKeeps(owned, es);
  }

  /** Whenever MCE is believed to run, the renew period it wants is known, or has been asked for. */
  lemma PeriodIsAsked(owned: bool, es: seq<Event>)
    ensures var s := Reach(owned, es);
            !s.inShutdown && s.link.bus && s.link.mce.Running? ==> s.periodPc || s.period != 0
  {
    RunKeeps(owned, es);
  }

  /** What MCE is believed to be is what the last message said that was heard: a signal needs the
      filter, the answer its slot.  News makes a rethink due; anything else is read, and that is all. */
  lemma OwnerIsTaken(owned: bool, es: seq<Event>)
    ensures var s, t := Reach(owned, es), Step(Reach(owned, es), Deliver);
            && (t.link.mce == s.link.mce ==> t == s.(link := t.link))
            && (t.link.mce != s.link.mce ==> t.inShutdown || t.rethink)
            && (Reads(s) && s.link.bus && s.link.down != [] ==>
                  var news := s.link.down[0];
                  && t.link.down == s.link.down[1..]
                  && t.link.mce == if (if news.Signal? then s.link.filter else s.link.query) then Of(news.running) else s.link.mce)
  {
  }

  /** A period that comes in while the opening message is flushed is the one the timer gets;
      nothing more is sent. */
  lemma PeriodDuringStart(owned: bool, es: seq<Event>, val: int)
    requires -2147483 <= val <= 2147483
    requires var s := Reach(owned, es); s.at.Announcing? && s.periodPc
    ensures var s := Reach(owned, es);
            var r := Step(Step(s, PeriodReply(val)), Resume);
            Free(r) && r.trace == s.trace && r.timer == (if val <= 0 then RENEW_MS else val * 1000)
  {
    RunKeeps(owned, es);
    var s, ms := Reach(owned, es), if val <= 0 then RENEW_MS else val * 1000;
    assert s.timer == 0 && !s.inShutdown && !s.at.nested;
    HeardInFlush(s, val, ms);
  }

  lemma HeardInFlush(s: Cpu, val: int, ms: nat)
    requires -2147483 <= val <= 2147483 && ms == if val <= 0 then RENEW_MS else val * 1000
    requires s.at == Announcing(false) && s.periodPc && s.timer == 0 && !s.inShutdown
    ensures Step(Step(s, PeriodReply(val)), Resume) == s.(periodPc := false, period := ms, timer := ms, at := Idle)
  {
    assert Step(s, PeriodReply(val)) == s.(periodPc := false, period := ms);
  }

  /** One that comes in while a renewal is flushed renews at once, unless it is the period in
      force, and the timer of the renewal is replaced before its callback goes on. */
  lemma PeriodDuringRenewal(owned: bool, es: seq<Event>, val: int)
    requires -2147483 <= val <= 2147483
    requires var s := Reach(owned, es); s.at.Flushing? && s.timer != 0 && s.periodPc
    ensures var s, ms := Reach(owned, es), if val <= 0 then RENEW_MS else val * 1000;
            var heard := Step(s, PeriodReply(val));
            if ms == RENEW_MS then heard.at.Flushing? && heard.trace == s.trace && heard.timer == ms
            else
              var r := Step(Step(heard, Resume), Resume);
              heard.at == Announcing(true) && r.at.Flushing? && r.trace == s.trace + [Renew] && r.timer == ms
  {
    RunKeeps(owned, es);
    var s, ms := Reach(owned, es), if val <= 0 then RENEW_MS else val * 1000;
    if ms != RENEW_MS {
      RenewedInFlush(s, Step(s, PeriodReply(val)), ms);
    }
  }

  lemma RenewedInFlush(s: Cpu, heard: Cpu, ms: nat)
    requires ms > 0 && heard == s.(periodPc := false, period := ms, trace := s.trace + [Renew], at := Announcing(true))
    requires s.timer != 0 && !s.inShutdown
    ensures var r := Step(Step(heard, Resume), Resume);
            r.at.Flushing? && r.trace == s.trace + [Renew] && r.timer == ms
  {
    assert Step(heard, Resume) == heard.(timer := 0, at := Arming(true));
  }

  /** A call takes the request to what it asks for, and schedules a rethink if that is news. */
  lemma CallsAreTaken(owned: bool, es: seq<Event>)
    ensures var s := Reach(owned, es);
            var t, u := Step(s, ApiStart), Step(s, ApiStop);
            ApiOk(s) ==>
              && t.requested && (!s.requested ==> t.rethink) && (s.requested ==> t == s)
              && !u.requested && (s.requested ==> u.rethink) && (!s.requested ==> u == s)
  {
  }

  /** Once the last reference is gone no call does anything, and the main loop can begin the
      shutdown whenever no callback runs. */
  lemma LastUnrefEnds(owned: bool, es: seq<Event>)
    ensures var s, t := Reach(owned, es), Step(Reach(owned, es), LastUnref);
            && t == s.(released := true) && Step(t, ApiStart) == t && Step(t, ApiStop) == t
            && (Free(t) && !t.inShutdown ==> Step(t, ShutdownCb).inShutdown)
  {
    BeginsShutdown(Step(Reach(owned, es), LastUnref));
  }

  lemma BeginsShutdown(s: Cpu)
    requires s.released
    ensures Free(s) && !s.inShutdown ==> Step(s, ShutdownCb).inShutdown
  {
    assert Sweep(s.(inShutdown := true), OwnerQuery).inShutdown;
  }

  /** The connection is let go only in shutdown, after the STOP of a session that ran. */
  lemma StopThenDisconnect(owned: bool, es: seq<Event>, e: Event)
    ensures var s := Reach(owned, es);
            var t := Step(s, e);
            s.link.bus && !t.link.bus ==> t.inShutdown && Free(t) && !Open(t.trace)
  {
    RunKeeps(owned, es);
    var s := Reach(owned, es);
    StepKeeps(s, e);
  }

  /** The shutdown callback leaves every slot empty, the filter removed, the bus released
      and the session ended. */
  lemma ShutdownComplete(owned: bool, es: seq<Event>)
    ensures var s := Reach(owned, es);
            s.inShutdown && Free(s) ==>
              && !Open(s.trace) && s.timer == 0 && !s.rethink && !s.connectId && !s.periodPc
              && !s.link.query && !s.link.filter && !s.link.bus
  {
    RunKeeps(owned, es);
  }

  /** And so it stays: nothing is started, sent or believed any more. */
  lemma StaysShut(owned: bool, es: seq<Event>, e: Event)
    ensures var s := Reach(owned, es);
            s.inShutdown && Free(s) ==>
              Step(s, e) == s.(link := Step(s, e).link)
              && Step(s, e).link.(owned := s.link.owned, up := s.link.up, down := s.link.down, matched := s.link.matched) == s.link
  {
    RunKeeps(owned, es);
  }
}
