/** What the display session controller keeps, in every run. */
module DisplayTheorems {
  import opened MceOwner
  import opened DisplayBus
  import opened Sessions
  import opened DisplayProtocol

  /** The session timer, the messages and the position agree. */
  predicate SessionInv(s: Display) {
    && Grammar(s.trace, true)
    && (s.timer ==> s.bus)
    && match s.at
       case Stopping => !s.timer && Open(s.trace) && !s.inShutdown
       case Sweeping(Rethink) => (s.timer <==> Open(s.trace)) && s.inShutdown
       case Sweeping(StopMessage) => !s.timer && Open(s.trace) && s.inShutdown
       case Sweeping(_) => !s.timer && !Open(s.trace) && s.inShutdown
       case Idle => s.timer <==> Open(s.trace)
       case _ => (s.timer <==> Open(s.trace)) && !s.inShutdown
  }

  /** No lost update: a rethink is due, or the session is, or is about to be, what is wanted. */
  predicate RethinkInv(s: Display) {
    s.inShutdown || s.rethink ||
    match s.at
    case Stopping => !Want(s)
    case Clearing => true  // a rethink will be scheduled
    case _ => s.timer <==> Want(s)
  }

  /** What the object believes once the handler that dropped the mutex is done. */
  function Believed(v: View, at: At): View {
    match at
    case Updating(owner) => SetOwner(v, owner)
    case Clearing => v.(mode := NoMode)
    case Moding(mode) => v.(mode := mode)
    case _ => v
  }

  predicate LinkInv(s: Display) {
    && (s.bus ==> s.attempted)
    && (s.requested || s.rethink ==> s.attempted)
    && (s.at.Updating? ==> !s.view.query)
    && (s.at.Clearing? ==> !s.view.mce.Running?)
    && (s.at.Clearing? || s.at.Moding? ==> s.view.modePc == 0)
    && (!s.bus ==> !s.view.query && s.view.modePc == 0 && !s.filter)
    && (!s.inShutdown ==>
          if !s.bus then s.view == NoView() && s.wire == NoWire(s.wire.owned, s.wire.allowed) && (s.at.Idle? || s.at.Sweeping?)
          else !s.wire.up.Unsent? && Asked(s.view.modePc, s.wire) && (s.filter ==> Tracks(Believed(s.view, s.at), s.wire)))
  }

  predicate ShutInv(s: Display) {
    && (s.inShutdown ==> s.released)
    && (s.inShutdown && s.at.Idle? ==>
          !s.view.query && s.view.modePc == 0 && !s.rethink && !s.timer && !s.filter && !s.bus)
    && match s.at
       case Sweeping(Rethink) => true
       case Sweeping(ModeQuery) => !s.rethink && !s.view.query
       case Sweeping(_) => !s.rethink
       case _ => true
  }

  predicate Inv(s: Display) { SessionInv(s) && RethinkInv(s) && LinkInv(s) && ShutInv(s) }

  lemma NameChangeKeeps(s: Display, owned: bool, allowed: bool)
    requires Inv(s)
    ensures Inv(Step(s, NameChange(owned, allowed)))
  {
    if Asked(s.view.modePc, s.wire) { OutsideAsked(s.view.modePc, s.wire, owned, allowed); }
    if !s.inShutdown && s.bus && s.filter { NameChangedTracks(Believed(s.view, s.at), s.wire, owned, allowed); }
  }

  lemma ModeChangeKeeps(s: Display, allowed: bool)
    requires Inv(s)
    ensures Inv(Step(s, ModeChange(allowed)))
  {
    if Asked(s.view.modePc, s.wire) { OutsideAsked(s.view.modePc, s.wire, s.wire.owned, allowed); }
    if !s.inShutdown && s.bus && s.filter { ModeChangedTracks(Believed(s.view, s.at), s.wire, allowed); }
  }

  lemma DaemonStepKeeps(s: Display)
    requires Inv(s)
    ensures Inv(Step(s, DaemonStep))
  {
    if Asked(s.view.modePc, s.wire) { OutsideAsked(s.view.modePc, s.wire, s.wire.owned, s.wire.allowed); }
    if !s.inShutdown && s.bus && s.filter { TurnTracks(Believed(s.view, s.at), s.wire); }
  }

  lemma ApiStartKeeps(s: Display, busOk: bool, filterOk: bool)
    requires Inv(s)
    ensures Inv(Step(s, ApiStart(busOk, filterOk)))
  {
  }

  lemma ApiKeeps(s: Display, e: Event)
    requires Inv(s) && (e.ApiStop? || e.LastUnref?)
    ensures Inv(Step(s, e))
  {
  }

  lemma RethinkKeeps(s: Display)
    requires Inv(s)
    ensures Inv(Step(s, RethinkCb))
  {
    TraceGrows(s.trace, true);
  }

  lemma RenewKeeps(s: Display)
    requires Inv(s)
    ensures Inv(Step(s, RenewCb))
  {
    TraceGrows(s.trace, true);
  }

  /** A stretch of a handler: the rethink is scheduled, or will be, if what is wanted may
      change, and the slots fit the position. */
  predicate Begins(v: View, c: Change) {
    && (c.at.Idle? || c.at.Updating? || c.at.Clearing? || c.at.Moding?)
    && (!c.rethink && !c.at.Clearing? ==>
          ((c.view.mce.Running? && c.view.mode.Allowed?) <==> (v.mce.Running? && v.mode.Allowed?)))
    && (c.at.Updating? ==> !c.view.query)
    && (c.at.Clearing? ==> !c.view.mce.Running?)
    && (c.at.Clearing? || c.at.Moding? ==> c.view.modePc == 0)
    && (c.view.modePc == 0 || c.view.modePc == c.call || c.view.modePc == v.modePc)
  }

  lemma OwnerUpdateBegins(v: View, owner: Owner)
    ensures Begins(v, OwnerUpdate(v, owner))
    ensures var c := OwnerUpdate(v, owner); Believed(c.view, c.at) == SetOwner(v.(query := false), owner)
  {
  }

  lemma ModeUpdateBegins(v: View, mode: Mode)
    ensures Begins(v, ModeUpdate(v, mode))
    ensures var c := ModeUpdate(v, mode); Believed(c.view, c.at) == v.(mode := mode, modePc := 0)
  {
  }

  /** A handler's stretches add up to the effect of its message. */
  lemma HandleBegins(v: View, filter: bool, news: Message)
    ensures Begins(v, Handle(v, filter, news))
    ensures var c := Handle(v, filter, news); filter ==> Believed(c.view, c.at) == Read(v, news)
    ensures news.ModeReply? && Handle(v, filter, news).view.modePc == news.call ==> news.call == 0
  {
  }

  /** The invariant, but for a message that has been taken off the queue and not yet heeded. */
  predicate Half(s: Display, c: Change) {
    && SessionInv(s) && RethinkInv(s) && ShutInv(s)
    && s.bus && s.attempted && !s.inShutdown && !s.wire.up.Unsent?
    && (s.at.Idle? || s.at.Updating? || s.at.Clearing? || s.at.Moding?)
    && (s.filter ==> Tracks(Believed(c.view, c.at), s.wire))
    && (c.view.modePc == c.call || Asked(c.view.modePc, s.wire))
  }

  lemma ChangedKeeps(s: Display, c: Change)
    requires Half(s, c) && Begins(s.view, c)
    requires s.at.Clearing? ==> c.at.Clearing? || c.rethink
    ensures Inv(Changed(s, c))
  {
  }

  lemma DeliverKeeps(s: Display)
    requires Inv(s) && Free(s) && s.bus && s.wire.down != []
    ensures Inv(Step(s, Deliver))
  {
    var news := s.wire.down[0];
    HandleBegins(s.view, s.filter, news);
    if s.filter { ReadTracks(s.view, s.wire); }
    ChangedKeeps(Popped(s), Handle(s.view, s.filter, news));
  }

  lemma StopSessionKeeps(s: Display)
    requires Inv(s) && s.at.Stopping?
    ensures Inv(StopSession(s))
  {
    TraceGrows(s.trace, true);
  }

  lemma UpdatingKeeps(s: Display)
    requires Inv(s) && s.at.Updating?
    ensures Inv(GoOn(s))
  {
    OwnerUpdateBegins(s.view, s.at.owner);
    ChangedKeeps(s, OwnerUpdate(s.view, s.at.owner));
  }

  lemma ModingKeeps(s: Display)
    requires Inv(s) && (s.at.Moding? || s.at.Clearing?)
    ensures Inv(GoOn(s))
  {
    ModeUpdateBegins(s.view, if s.at.Moding? then s.at.mode else NoMode);
    ChangedKeeps(s, if s.at.Moding? then ModeUpdate(s.view, s.at.mode) else ModeCleared(s.view));
  }

  lemma SweepModeKeeps(s: Display)
    requires Inv(s.(at := Sweeping(ModeQuery)))
    ensures Inv(SweepMode(s))
  {
  }

  lemma SweepOwnerKeeps(s: Display)
    requires Inv(s.(at := Sweeping(OwnerQuery)))
    ensures Inv(SweepOwner(s))
  {
    if !s.view.query { SweepModeKeeps(s); }
  }

  lemma SweepStopMessageKeeps(s: Display)
    requires Inv(s.(at := Sweeping(StopMessage)))
    ensures Inv(SweepStopMessage(s))
  {
    TraceGrows(s.trace, true);
    var told := s.(trace := s.trace + [Ended(s)]);
    if !s.timer && s.bus { SweepOwnerKeeps(told); }
  }

  lemma SweepRethinkKeeps(s: Display)
    requires Inv(s.(at := Sweeping(Rethink)))
    ensures Inv(SweepRethink(s))
  {
    if !s.rethink && !s.timer && s.bus { SweepOwnerKeeps(s); }
  }

  lemma ResumeKeeps(s: Display)
    requires Inv(s)
    ensures Inv(GoOn(s))
  {
    match s.at
    case Idle =>
    case Stopping => StopSessionKeeps(s);
    case Updating(_) => UpdatingKeeps(s);
    case Clearing => ModingKeeps(s);
    case Moding(_) => ModingKeeps(s);
    case Sweeping(Rethink) => SweepRethinkKeeps(s);
    case Sweeping(StopMessage) => SweepStopMessageKeeps(s);
    case Sweeping(OwnerQuery) => SweepOwnerKeeps(s);
    case Sweeping(ModeQuery) => SweepModeKeeps(s);
  }

  lemma ShutdownKeeps(s: Display)
    requires Inv(s)
    ensures Inv(Step(s, ShutdownCb))
  {
    if Free(s) && s.released && !s.inShutdown { SweepRethinkKeeps(s.(inShutdown := true)); }
  }

  lemma StepKeeps(s: Display, e: Event)
    requires Inv(s)
    ensures Inv(Step(s, e))
  {
    match e
    case ApiStart(busOk, filterOk) => ApiStartKeeps(s, busOk, filterOk);
    case ApiStop => ApiKeeps(s, e);
    case LastUnref => ApiKeeps(s, e);
    case NameChange(owned, allowed) => NameChangeKeeps(s, owned, allowed);
    case ModeChange(allowed) => ModeChangeKeeps(s, allowed);
    case DaemonStep => DaemonStepKeeps(s);
    case Deliver => if Free(s) && s.bus && s.wire.down != [] { DeliverKeeps(s); }
    case RethinkCb => RethinkKeeps(s);
    case RenewCb => RenewKeeps(s);
    case ShutdownCb => ShutdownKeeps(s);
    case Resume => ResumeKeeps(s);
  }

  lemma {:induction false} RunKeeps(owned: bool, allowed: bool, es: seq<Event>)
    ensures Inv(Reach(owned, allowed, es))
  {
    if es != [] {
      RunKeeps(owned, allowed, es[..|es| - 1]);
      StepKeeps(Reach(owned, allowed, es[..|es| - 1]), es[|es| - 1]);
    }
  }

  // ---------------------------------------------------------------- what every run has

  /** No update is lost: between callbacks, and unless a rethink is due, a session runs
      exactly when it is requested, MCE is believed to run and to allow it. */
  lemma NoLostUpdate(owned: bool, allowed: bool, es: seq<Event>)
    ensures var s := Reach(owned, allowed, es);
            Free(s) && !s.inShutdown && !s.rethink ==>
              (s.timer <==> s.requested && s.view.mce.Running? && s.view.mode.Allowed?)
  {
    RunKeeps(owned, allowed, es);
  }

  /** What is believed follows the truth: the messages under way lead to it, though a signal
      cancels the owner query and a mode signal the mode query. */
  lemma BeliefTracking(owned: bool, allowed: bool, es: seq<Event>)
    ensures var s := Reach(owned, allowed, es);
            !s.inShutdown && s.bus && s.filter ==>
              var f := ReadAll(Believed(s.view, s.at), s.wire.down);
              && f.mce == (if f.query then Unknown else Of(s.wire.owned))
              && (s.wire.up.Handled? ==> !f.query)
              && (f.mce.Running? && f.modePc == 0 ==> f.mode == Real(s.wire.allowed))
  {
    RunKeeps(owned, allowed, es);
  }

  /** The owner query is made once, when the object connects. */
  predicate Unasked(s: Display) { s.attempted && !s.view.query }

  lemma ChangedUnasked(s: Display, c: Change)
    requires s.attempted && !c.view.query
    ensures Unasked(Changed(s, c))
  {
  }

  lemma HandleUnasked(v: View, filter: bool, news: Message)
    ensures !v.query || (news.NameSignal? && filter) ==> !Handle(v, filter, news).view.query
  {
  }

  lemma OwnerUnasked(s: Display)
    requires Unasked(s)
    ensures Unasked(SweepOwner(s))
  {
  }

  lemma SweepUnasked(s: Display, stage: Stage)
    requires Unasked(s)
    ensures Unasked(Sweep(s, stage))
  {
    OwnerUnasked(s);
    OwnerUnasked(s.(trace := s.trace + [Ended(s)]));
  }

  lemma ResumeUnasked(s: Display)
    requires Unasked(s)
    ensures Unasked(GoOn(s))
  {
    match s.at
    case Stopping =>
    case Sweeping(stage) => SweepUnasked(s, stage);
    case Updating(owner) => ChangedUnasked(s, OwnerUpdate(s.view, owner));
    case Clearing => ChangedUnasked(s, ModeCleared(s.view));
    case Moding(mode) => ChangedUnasked(s, ModeUpdate(s.view, mode));
    case _ =>
  }

  lemma StepUnasked(s: Display, e: Event)
    requires Unasked(s)
    ensures Unasked(Step(s, e))
  {
    match e
    case Deliver =>
      if Free(s) && s.bus && s.wire.down != [] {
        HandleUnasked(s.view, s.filter, s.wire.down[0]);
        ChangedUnasked(Popped(s), Handle(s.view, s.filter, s.wire.down[0]));
      }
    case Resume => ResumeUnasked(s);
    case _ =>
  }

  lemma {:induction false} RunUnasked(s: Display, es: seq<Event>)
    requires Unasked(s)
    ensures Unasked(Run(s, es))
  {
    if es != [] {
      RunUnasked(s, es[..|es| - 1]);
      StepUnasked(Run(s, es[..|es| - 1]), es[|es| - 1]);
    }
  }

  /** The answer to an owner query that a signal has cancelled is ignored: however much later it
      is dispatched, it is taken off the queue and nothing else changes. */
  lemma LateReplyIgnored(owned: bool, allowed: bool, es: seq<Event>, later: seq<Event>)
    requires var s := Reach(owned, allowed, es);
             Free(s) && s.bus && s.filter && s.wire.down != [] && s.wire.down[0].NameSignal?
    ensures var t := Run(Step(Reach(owned, allowed, es), Deliver), later);
            Free(t) && t.bus && t.wire.down != [] && t.wire.down[0].NameReply? ==> Step(t, Deliver) == Popped(t)
  {
    var s := Reach(owned, allowed, es);
    RunKeeps(owned, allowed, es);
    HandleUnasked(s.view, s.filter, s.wire.down[0]);
    ChangedUnasked(Popped(s), Handle(s.view, s.filter, s.wire.down[0]));
    RunUnasked(Step(s, Deliver), later);
  }

  // ------------------------------------------------------------- what a step sends

  /** What a step may send: nothing, or one message, which a running MCE gets; a session that
      ends while MCE does not run lapses untold. */
  predicate Tells(s: Display, after: seq<Msg>) {
    || after == s.trace
    || (s.view.mce.Running? && (after == s.trace + [Start] || after == s.trace + [Renew] || after == s.trace + [Stop]))
    || (!s.view.mce.Running? && after == s.trace + [Lapse])
  }

  lemma ModeSends(s: Display)
    ensures SweepMode(s).trace == s.trace
  {
  }

  lemma OwnerSends(s: Display)
    ensures SweepOwner(s).trace == s.trace
  {
    if !s.view.query { ModeSends(s); }
  }

  lemma DisconnectSends(s: Display)
    ensures Disconnect(s).trace == s.trace
  {
    if s.bus { OwnerSends(s); }
  }

  lemma StopMessageTells(s: Display)
    ensures Tells(s, SweepStopMessage(s).trace)
  {
    if !s.timer { DisconnectSends(s.(trace := s.trace + [Ended(s)])); }
  }

  lemma SweepRethinkSends(s: Display)
    ensures SweepRethink(s).trace == s.trace
  {
    if !s.rethink && !s.timer { DisconnectSends(s); }
  }

  lemma SweepTells(s: Display, stage: Stage)
    ensures Tells(s, Sweep(s, stage).trace)
  {
    match stage
    case Rethink => SweepRethinkSends(s);
    case StopMessage => StopMessageTells(s);
    case OwnerQuery => OwnerSends(s);
    case ModeQuery => ModeSends(s);
  }

  lemma ChangedSends(s: Display, c: Change)
    ensures Changed(s, c).trace == s.trace
  {
  }

  lemma HandlerTells(s: Display)
    requires !s.at.Sweeping?
    ensures Tells(s, GoOn(s).trace)
  {
    match s.at
    case Updating(owner) => ChangedSends(s, OwnerUpdate(s.view, owner));
    case Clearing => ChangedSends(s, ModeCleared(s.view));
    case Moding(mode) => ChangedSends(s, ModeUpdate(s.view, mode));
    case _ =>
  }

  lemma ResumeTells(s: Display)
    ensures Tells(s, GoOn(s).trace)
  {
    if s.at.Sweeping? {
      var stage, r := s.at.stage, GoOn(s);
      assert r == Sweep(s, stage);
      SweepTells(s, stage);
    } else {
      HandlerTells(s);
    }
  }

  lemma ShutdownSends(s: Display)
    ensures Step(s, ShutdownCb).trace == s.trace
  {
    SweepRethinkSends(s.(inShutdown := true));
  }

  lemma DeliverSends(s: Display)
    ensures Step(s, Deliver).trace == s.trace
  {
    if Free(s) && s.bus && s.wire.down != [] {
      ChangedSends(Popped(s), Handle(s.view, s.filter, s.wire.down[0]));
    }
  }

  lemma RethinkNowTells(s: Display)
    ensures Tells(s, RethinkNow(s).trace)
  {
  }

  lemma ConnectSends(s: Display, busOk: bool, filterOk: bool)
    ensures Connect(s, busOk, filterOk).trace == s.trace
  {
  }

  lemma RethinkCbTells(s: Display)
    ensures Tells(s, Step(s, RethinkCb).trace)
  {
    RethinkNowTells(s.(rethink := false));
  }

  lemma PlainTells(s: Display, e: Event)
    requires !e.Resume? && !e.ShutdownCb? && !e.Deliver? && !e.RethinkCb?
    ensures Tells(s, Step(s, e).trace)
  {
    if e.ApiStart? { ConnectSends(s, e.busOk, e.filterOk); }
  }

  lemma StepTells(s: Display, e: Event)
    ensures Tells(s, Step(s, e).trace)
  {
    if e.Resume? {
      ResumeTells(s);
    } else if e.ShutdownCb? {
      ShutdownSends(s);
    } else if e.Deliver? {
      DeliverSends(s);
    } else if e.RethinkCb? {
      RethinkCbTells(s);
    } else {
      PlainTells(s, e);
    }
  }

  /** In every run a step sends at most one message.  A session's end is sent to MCE exactly if
      MCE is believed to run at that moment, and nothing else is sent to one that does not. */
  lemma EndsAreTold(owned: bool, allowed: bool, es: seq<Event>, e: Event)
    ensures var s, t := Reach(owned, allowed, es), Step(Reach(owned, allowed, es), e);
            t.trace == s.trace
            || (&& |t.trace| == |s.trace| + 1 && t.trace[..|s.trace|] == s.trace
                && var m := t.trace[|s.trace|];
                   if Ends(m) then m.Stop? <==> s.view.mce.Running? else s.view.mce.Running?)
  {
    StepTells(Reach(owned, allowed, es), e);
  }

  /** Between callbacks a session is open, as far as MCE has been told, exactly when the
      renew timer is in its slot. */
  lemma MessageTrace(owned: bool, allowed: bool, es: seq<Event>)
    ensures var s := Reach(owned, allowed, es);
            Grammar(s.trace, true) && (Free(s) ==> (s.timer <==> Open(s.trace)))
  {
    RunKeeps(owned, allowed, es);
  }

  /** The first start connects, with the filter if it can be added and its match rules before the
      owner query; no later one does. */
  lemma FirstStartConnects(owned: bool, allowed: bool, es: seq<Event>, busOk: bool, filterOk: bool)
    ensures var s, t := Reach(owned, allowed, es), Step(Reach(owned, allowed, es), ApiStart(busOk, filterOk));
            ApiOk(s) && !s.requested ==>
              && t.requested && t.rethink && t.attempted
              && (if s.attempted then t.bus == s.bus && t.filter == s.filter && t.view == s.view
                  else t.bus == busOk && t.filter == (busOk && filterOk) && t.view.query == busOk
                       && (busOk ==> t.wire.up == if filterOk then RuleThenQuery else QueryOnly))
  {
    RunKeeps(owned, allowed, es);
  }

  /** MCE's name and, while it has one, its mode change at any time, and the object hears of it
      only by messages. */
  lemma WorldIsFree(owned: bool, allowed: bool, es: seq<Event>, name: bool, mode: bool)
    ensures var s := Reach(owned, allowed, es);
            var n, m := Step(s, NameChange(name, mode)), Step(s, ModeChange(mode));
            && n == s.(wire := n.wire) && n.wire.owned == name && (name != s.wire.owned ==> n.wire.allowed == mode)
            && m == s.(wire := m.wire) && m.wire.owned == s.wire.owned && (s.wire.owned ==> m.wire.allowed == mode)
  {
  }

  /** A call takes the request to what it asks for, and schedules a rethink if that is news. */
  lemma CallsAreTaken(owned: bool, allowed: bool, es: seq<Event>, busOk: bool, filterOk: bool)
    ensures var s := Reach(owned, allowed, es);
            var t, u := Step(s, ApiStart(busOk, filterOk)), Step(s, ApiStop);
            ApiOk(s) ==>
              && t.requested && (!s.requested ==> t.rethink) && (s.requested ==> t == s)
              && !u.requested && (s.requested ==> u.rethink) && (!s.requested ==> u == s)
  {
  }

  /** Once the last reference is gone no call does anything, and the main loop can begin the
      shutdown whenever no callback runs. */
  lemma LastUnrefEnds(owned: bool, allowed: bool, es: seq<Event>, busOk: bool, filterOk: bool)
    ensures var s, t := Reach(owned, allowed, es), Step(Reach(owned, allowed, es), LastUnref);
            && t == s.(released := true) && Step(t, ApiStart(busOk, filterOk)) == t && Step(t, ApiStop) == t
            && (Free(t) && !t.inShutdown ==> Step(t, ShutdownCb).inShutdown)
  {
    BeginsShutdown(Step(Reach(owned, allowed, es), LastUnref));
  }

  lemma BeginsShutdown(s: Display)
    requires s.released
    ensures Free(s) && !s.inShutdown ==> Step(s, ShutdownCb).inShutdown
  {
    assert SweepRethink(s.(inShutdown := true)).inShutdown;
  }

  /** The connection is let go only in shutdown, after the end of a session that ran. */
  lemma StopThenDisconnect(owned: bool, allowed: bool, es: seq<Event>, e: Event)
    ensures var s := Reach(owned, allowed, es);
            var t := Step(s, e);
            s.bus && !t.bus ==> t.inShutdown && Free(t) && !Open(t.trace)
  {
    RunKeeps(owned, allowed, es);
    StepKeeps(Reach(owned, allowed, es), e);
  }

  /** The shutdown callback leaves every slot empty, the filter removed, the bus released
      and the session ended. */
  lemma ShutdownComplete(owned: bool, allowed: bool, es: seq<Event>)
    ensures var s := Reach(owned, allowed, es);
            s.inShutdown && Free(s) ==>
              && !Open(s.trace) && !s.timer && !s.rethink && !s.filter && !s.bus
              && !s.view.query && s.view.modePc == 0
  {
    RunKeeps(owned, allowed, es);
  }

  /** And so it stays. */
  lemma StaysShut(owned: bool, allowed: bool, es: seq<Event>, e: Event)
    ensures var s := Reach(owned, allowed, es);
            s.inShutdown && Free(s) ==> Step(s, e) == s.(wire := Step(s, e).wire)
  {
    RunKeeps(owned, allowed, es);
  }
}
