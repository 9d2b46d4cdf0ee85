/** Whether the MCE that owns the name now has been told of the display session; as `CpuTold`
    does for the CPU session. */
module DisplayTold {
  import opened MceOwner
  import opened DisplayBus
  import opened Sessions
  import opened DisplayProtocol
  import opened DisplayTheorems
  import opened DisplaySettles

  /** The step gives the name to an MCE that did not have it. */
  predicate TakesName(s: Display, e: Event) { e.NameChange? && e.owned && !s.wire.owned }

  /** How many sessions had been told of, renewed and ended when the present owner took the name. */
  function Since(owned: bool, allowed: bool, es: seq<Event>): nat {
    if es == [] then 0
    else
      var before := es[..|es| - 1];
      var s := Reach(owned, allowed, before);
      if TakesName(s, es[|es| - 1]) then |s.trace| else Since(owned, allowed, before)
  }

  /** The next message is one of the name's owner that the object still listens to. */
  predicate Heard(s: Display) {
    && s.wire.down != []
    && ((s.wire.down[0].NameSignal? && s.filter) || (s.wire.down[0].NameReply? && s.view.query))
  }

  /** The step makes the controller hear that MCE runs. */
  predicate HearsRunning(s: Display, e: Event) { e.Deliver? && Free(s) && s.bus && Heard(s) && s.wire.down[0].running }

  /** A session was open when the controller last heard that MCE runs. */
  function Overlap(owned: bool, allowed: bool, es: seq<Event>): bool {
    if es == [] then false
    else
      var s := Reach(owned, allowed, es[..|es| - 1]);
      if HearsRunning(s, es[|es| - 1]) then Open(s.trace) else Overlap(owned, allowed, es[..|es| - 1])
  }

  /** The present owner has last been told to keep the session open. */
  predicate Told(owned: bool, allowed: bool, es: seq<Event>)
    requires Since(owned, allowed, es) <= |Reach(owned, allowed, es).trace|
  {
    Open(Reach(owned, allowed, es).trace[Since(owned, allowed, es)..])
  }

  // ------------------------------------------------------- what is still to be heard

  /** No message under way will be heard to tell of the owner. */
  predicate Silent(query: bool, down: seq<Message>)
    decreases |down|
  {
    down == [] || (!down[0].NameSignal? && (down[0].NameReply? ==> !query) && Silent(query, down[1..]))
  }

  lemma {:induction false} SilentGrows(query: bool, down: seq<Message>, news: Message)
    ensures Silent(query, down + [news]) <==>
            Silent(query, down) && !news.NameSignal? && (news.NameReply? ==> !query)
    decreases |down|
  {
    var all := down + [news];
    if down == [] {
      assert all[1..] == [];
    } else {
      assert all[1..] == down[1..] + [news];
      SilentGrows(query, down[1..], news);
    }
  }

  /** Then they leave the owner as it is believed to be. */
  lemma {:induction false} SilentKeepsOwner(v: View, down: seq<Message>)
    requires Silent(v.query, down)
    ensures ReadAll(v, down).mce == v.mce
    decreases |down|
  {
    if down != [] {
      SilentKeepsOwner(Read(v, down[0]), down[1..]);
    }
  }

  /** No news of the owner is to come. */
  predicate Settled(s: Display) {
    && !s.inShutdown && s.filter && s.wire.owned
    && (s.wire.up.Handled? || (s.wire.up.QueryOnly? && !s.view.query)) && Silent(s.view.query, s.wire.down)
  }

  /** What is known of the owner then. */
  predicate Known(s: Display, since: nat, overlap: bool) {
    since <= |s.trace| && (Settled(s) ==> overlap || !Open(s.trace) || |s.trace| > since)
  }

  lemma NameChangeKnown(s: Display, b: bool, allowed: bool, since: nat, overlap: bool)
    requires Inv(s) && Known(s, since, overlap)
    ensures Known(Step(s, NameChange(b, allowed)), if TakesName(s, NameChange(b, allowed)) then |s.trace| else since, overlap)
  {
    SilentGrows(s.view.query, s.wire.down, NameSignal(b));
  }

  lemma ModeChangeKnown(s: Display, allowed: bool, since: nat, overlap: bool)
    requires Known(s, since, overlap)
    ensures Known(Step(s, ModeChange(allowed)), since, overlap)
  {
    SilentGrows(s.view.query, s.wire.down, ModeSignal(allowed));
  }

  lemma DaemonKnown(s: Display, since: nat, overlap: bool)
    requires Inv(s) && Known(s, since, overlap)
    ensures Known(Step(s, DaemonStep), since, overlap)
  {
    SilentGrows(s.view.query, s.wire.down, NameReply(s.wire.owned));
    if s.wire.asks != [] {
      SilentGrows(s.view.query, s.wire.down, ModeReply(s.wire.asks[0], if s.wire.owned then Real(s.wire.allowed) else NoMode));
    }
  }

  /** A message that is heard to tell of no owner is not the last one while there is one. */
  lemma LastIsTrue(s: Display)
    requires Inv(s) && Free(s) && s.bus && s.filter && !s.inShutdown && Heard(s) && s.wire.owned
    requires Silent(false, s.wire.down[1..])
    ensures s.wire.down[0].running
  {
    SilentKeepsOwner(Read(s.view, s.wire.down[0]), s.wire.down[1..]);
  }

  /** What the handlers do with the owner query's slot. */
  lemma HandleAsks(v: View, filter: bool, news: Message)
    ensures (news.NameSignal? && filter) || (news.NameReply? && v.query) ==> !Handle(v, filter, news).view.query
    ensures !(news.NameSignal? && filter) && !(news.NameReply? && v.query) ==> Handle(v, filter, news).view.query == v.query
  {
  }

  lemma DeliverKnown(s: Display, since: nat, overlap: bool)
    requires Inv(s) && Known(s, since, overlap)
    ensures Known(Step(s, Deliver), since, if HearsRunning(s, Deliver) then Open(s.trace) else overlap)
  {
    if Free(s) && s.bus && s.wire.down != [] {
      HandleAsks(s.view, s.filter, s.wire.down[0]);
      if Settled(Step(s, Deliver)) && Heard(s) { LastIsTrue(s); }
    }
  }

  /** Steps that are none of the bus. */
  lemma SameNews(s: Display, e: Event)
    requires Inv(s) && (e.ApiStop? || e.LastUnref? || e.RethinkCb? || e.RenewCb? || e.ShutdownCb?)
    ensures var t := Step(s, e);
            !t.inShutdown ==>
              t.wire.owned == s.wire.owned && t.wire.up == s.wire.up && t.wire.down == s.wire.down
              && t.view.query == s.view.query && t.filter == s.filter && !s.inShutdown
  {
  }

  lemma ChangedNews(s: Display, c: Change)
    ensures var t := Changed(s, c);
            && t.wire.owned == s.wire.owned && t.wire.up == s.wire.up && t.wire.down == s.wire.down
            && t.view.query == c.view.query && t.filter == s.filter
  {
  }

  lemma ResumeNews(s: Display)
    requires Inv(s)
    ensures var t := GoOn(s);
            !t.inShutdown ==>
              t.wire.owned == s.wire.owned && t.wire.up == s.wire.up && t.wire.down == s.wire.down
              && t.view.query == s.view.query && t.filter == s.filter && !s.inShutdown
  {
    match s.at
    case Updating(owner) => ChangedNews(s, OwnerUpdate(s.view, owner));
    case Clearing => ChangedNews(s, ModeCleared(s.view));
    case Moding(mode) => ChangedNews(s, ModeUpdate(s.view, mode));
    case _ =>
  }

  lemma OtherKnown(s: Display, e: Event, since: nat, overlap: bool)
    requires Inv(s) && Known(s, since, overlap)
    requires e.ApiStop? || e.LastUnref? || e.RethinkCb? || e.RenewCb? || e.ShutdownCb? || e.Resume?
    ensures Known(Step(s, e), since, overlap)
  {
    StepTells(s, e);
    if e.Resume? { ResumeNews(s); } else { SameNews(s, e); }
  }

  lemma ApiStartKnown(s: Display, busOk: bool, filterOk: bool, since: nat, overlap: bool)
    requires Inv(s) && Known(s, since, overlap)
    ensures Known(Step(s, ApiStart(busOk, filterOk)), since, overlap)
  {
  }

  lemma StepKnown(s: Display, e: Event, since: nat, overlap: bool)
    requires Inv(s) && Known(s, since, overlap)
    ensures Known(Step(s, e), if TakesName(s, e) then |s.trace| else since,
                  if HearsRunning(s, e) then Open(s.trace) else overlap)
  {
    match e
    case NameChange(b, allowed) => NameChangeKnown(s, b, allowed, since, overlap);
    case ModeChange(allowed) => ModeChangeKnown(s, allowed, since, overlap);
    case DaemonStep => DaemonKnown(s, since, overlap);
    case Deliver => DeliverKnown(s, since, overlap);
    case ApiStart(busOk, filterOk) => ApiStartKnown(s, busOk, filterOk, since, overlap);
    case _ => OtherKnown(s, e, since, overlap);
  }

  lemma {:induction false} AlwaysKnown(owned: bool, allowed: bool, es: seq<Event>)
    ensures Known(Reach(owned, allowed, es), Since(owned, allowed, es), Overlap(owned, allowed, es))
  {
    if es != [] {
      var before := es[..|es| - 1];
      AlwaysKnown(owned, allowed, before);
      RunKeeps(owned, allowed, before);
      StepKnown(Reach(owned, allowed, before), es[|es| - 1], Since(owned, allowed, before), Overlap(owned, allowed, before));
    }
  }

  /** At rest the MCE that owns the name has been told to keep the session open exactly when
      there is one, and it was not open already when that MCE was heard to run, or something
      has been sent since that MCE took the name. */
  lemma ToldAtRest(owned: bool, allowed: bool, es: seq<Event>)
    ensures Since(owned, allowed, es) <= |Reach(owned, allowed, es).trace|
    ensures var s := Reach(owned, allowed, es);
            Quiet(s) && s.filter ==>
              (Told(owned, allowed, es) <==>
                 s.timer && (!Overlap(owned, allowed, es) || |s.trace| > Since(owned, allowed, es)))
  {
    AlwaysKnown(owned, allowed, es);
    Convergence(owned, allowed, es);
    LastSince(Reach(owned, allowed, es).trace, Since(owned, allowed, es));
    if Quiet(Reach(owned, allowed, es)) && Reach(owned, allowed, es).filter { FilterHasBus(owned, allowed, es); }
  }

  lemma FilterHasBus(owned: bool, allowed: bool, es: seq<Event>)
    requires Reach(owned, allowed, es).filter && Free(Reach(owned, allowed, es))
    ensures Reach(owned, allowed, es).bus && !Reach(owned, allowed, es).inShutdown
  {
    RunKeeps(owned, allowed, es);
  }

  lemma Goes(owned: bool, allowed: bool, es: seq<Event>, e: Event)
    ensures var s := Reach(owned, allowed, es);
            && Reach(owned, allowed, es + [e]) == Step(s, e)
            && Since(owned, allowed, es + [e]) == if TakesName(s, e) then |s.trace| else Since(owned, allowed, es)
  {
    assert (es + [e])[..|es|] == es;
  }

  lemma RenewOnce(s: Display)
    requires Inv(s) && Free(s) && s.timer && !s.rethink && !s.inShutdown
    ensures Step(s, RenewCb) == s.(trace := s.trace + [Renew])
  {
  }

  /** Whoever owns the name is told by the next renewal, and the controller is at rest again. */
  lemma RenewalTells(owned: bool, allowed: bool, es: seq<Event>)
    requires var s := Reach(owned, allowed, es); Quiet(s) && s.timer
    ensures var after := es + [RenewCb];
            && Since(owned, allowed, after) <= |Reach(owned, allowed, after).trace|
            && Told(owned, allowed, after) && Quiet(Reach(owned, allowed, after))
  {
    RunKeeps(owned, allowed, es);
    AlwaysKnown(owned, allowed, es);
    RenewOnce(Reach(owned, allowed, es));
    Goes(owned, allowed, es, RenewCb);
  }

  // ------------------------------------------------------- a run where nobody tells it

  /** Connected, with MCE heard to run and nothing to do but what is given. */
  function Attached(mode: Mode, modePc: nat, serial: Serial, timer: bool, asks: seq<nat>, trace: seq<Msg>): Display {
    Display(true, true, true, View(Running, false, mode, modePc, serial), timer, mode.NoMode?, true, false, false,
            Idle, trace, Wire(true, true, true, Handled, asks, []))
  }

  /** The first start connects, and MCE is heard to run. */
  lemma Connects() returns (es: seq<Event>)
    ensures Reach(true, true, es) == Attached(NoMode, 1, 2, false, [1], [])
  {
    es := [];
    Goes(true, true, es, ApiStart(true, true));
    es := es + [ApiStart(true, true)];
    Goes(true, true, es, DaemonStep);
    es := es + [DaemonStep];
    Goes(true, true, es, DaemonStep);
    es := es + [DaemonStep];
    assert Reach(true, true, es).wire.down == [NameReply(true)];
    Goes(true, true, es, Deliver);
    es := es + [Deliver];
  }

  /** MCE's answer comes in, and a rethink is due. */
  lemma ModeAnswered(s: Display, call: nat)
    requires s.at.Idle? && s.bus && !s.inShutdown && call != 0 && s.view.modePc == call && s.view.mode.NoMode?
    requires s.wire.owned && s.wire.allowed && s.wire.up.Handled? && s.wire.asks == [call] && s.wire.down == []
    ensures Step(Step(s, DaemonStep), Deliver)
              == s.(view := s.view.(mode := Allowed, modePc := 0), wire := s.wire.(asks := []), rethink := true)
  {
    var t := Step(s, DaemonStep);
    assert t.wire.down == [ModeReply(call, Allowed)];
    assert t == s.(wire := t.wire);
  }

  /** Its mode is answered, and the session is announced. */
  lemma Starts() returns (es: seq<Event>)
    ensures Reach(true, true, es) == Attached(Allowed, 0, 2, true, [], [Start])
  {
    es := Connects();
    ModeAnswered(Reach(true, true, es), 1);
    Goes(true, true, es, DaemonStep);
    Goes(true, true, es + [DaemonStep], Deliver);
    es := es + [DaemonStep] + [Deliver];
    RethinkStarts(Reach(true, true, es));
    Goes(true, true, es, RethinkCb);
    es := es + [RethinkCb];
  }

  lemma RethinkStarts(s: Display)
    requires s.at.Idle? && !s.inShutdown && s.rethink && Want(s) && !s.timer
    ensures Step(s, RethinkCb) == s.(rethink := false, timer := true, trace := s.trace + [Start])
  {
  }

  /** MCE loses its name and gets it back, and the controller has heard of neither. */
  lemma Replaced() returns (es: seq<Event>)
    ensures var s := Reach(true, true, es);
            && s == Attached(Allowed, 0, 2, true, [], [Start]).(wire := s.wire)
            && s.wire == Wire(true, true, true, Handled, [], [NameSignal(false), NameSignal(true)])
    ensures Since(true, true, es) == 1
  {
    es := Starts();
    Goes(true, true, es, NameChange(false, true));
    es := es + [NameChange(false, true)];
    Goes(true, true, es, NameChange(true, true));
    es := es + [NameChange(true, true)];
  }

  lemma HeardOfBoth() returns (es: seq<Event>)
    ensures Reach(true, true, es) == Attached(NoMode, 2, 3, true, [2], [Start]) && Since(true, true, es) == 1
  {
    es := Replaced();
    Goes(true, true, es, Deliver);
    es := es + [Deliver];
    assert Reach(true, true, es).wire.down == [NameSignal(true)];
    Goes(true, true, es, Deliver);
    es := es + [Deliver];
  }

  lemma AllowsAgain() returns (es: seq<Event>)
    ensures Reach(true, true, es) == Attached(Allowed, 0, 3, true, [], [Start]).(rethink := true)
    ensures Since(true, true, es) == 1
  {
    es := HeardOfBoth();
    ModeAnswered(Reach(true, true, es), 2);
    Goes(true, true, es, DaemonStep);
    Goes(true, true, es + [DaemonStep], Deliver);
    es := es + [DaemonStep] + [Deliver];
  }

  /** A rethink that finds the session as it should be. */
  lemma RethinkFinds(s: Display)
    requires s.at.Idle? && !s.inShutdown && s.rethink && (Want(s) <==> s.timer)
    ensures Step(s, RethinkCb) == s.(rethink := false)
  {
  }

  /** MCE is replaced before the controller rethinks: at rest, with the session running, the
      new MCE has been told nothing. */
  lemma NewOwnerUntold() returns (es: seq<Event>)
    ensures var s := Reach(true, true, es); Quiet(s) && s.filter && s.timer && s.requested && s.wire.owned && s.wire.allowed
    ensures Since(true, true, es) <= |Reach(true, true, es).trace| && !Told(true, true, es)
  {
    es := AllowsAgain();
    RethinkFinds(Reach(true, true, es));
    Goes(true, true, es, RethinkCb);
    es := es + [RethinkCb];
  }
}
