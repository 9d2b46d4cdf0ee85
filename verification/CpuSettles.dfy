/** The CPU session controller comes to rest in the state it should be in. */
module CpuSettles {
  import opened MceOwner
  import opened BusLink
  import opened Sessions
  import opened CpuProtocol
  import opened CpuTheorems

  /** No callback is due or running, and the bus has nothing under way. */
  predicate Quiet(s: Cpu) {
    && s.at.Idle? && !s.rethink && !s.connectId && (s.released ==> s.inShutdown)
    && (s.link.bus ==> s.link.up.Handled? && s.link.down == [])
  }

  function StageLeft(stage: Stage): nat {
    match stage
    case OwnerQuery => 9 case PeriodQuery => 8 case Rethink => 7 case Session => 6
    case StopMessage => 5 case Farewell => 4 case Connect => 4
  }

  function AtLeft(at: At): nat {
    match at
    case Idle => 0 case Stopping => 2 case Flushing => 1
    case Announcing(nested) => if nested then 3 else 2
    case Arming(nested) => if nested then 3 else 2
    case Sweeping(stage) => StageLeft(stage)
  }

  function If(b: bool, weight: nat): nat { if b then weight else 0 }

  function UpLeft(up: Outbox): nat {
    if up.RuleThenQuery? then 600 else if up.QueryOnly? then 300 else 0
  }

  /** The work left. */
  function Left(s: Cpu): nat { AtLeft(s.at) + If(s.timer != 0, 1) + SlotsLeft(s) + MessagesLeft(s.link) }

  function SlotsLeft(s: Cpu): nat {
    If(s.connectId, 1000) + If(s.released && !s.inShutdown, 50) + If(s.periodPc, 20) + If(s.rethink, 10)
  }

  function MessagesLeft(l: Link): nat { If(l.query, 5) + UpLeft(l.up) + 100 * |l.down| }

  lemma ConnectLessens(s: Cpu)
    ensures Left(SweepConnect(s)) < Left(s.(at := Sweeping(Connect)))
  {
  }

  lemma StopMessageLessens(s: Cpu)
    ensures Left(SweepStopMessage(s)) < Left(s.(at := Sweeping(StopMessage)))
  {
    if s.timer == 0 && !s.link.bus { ConnectLessens(s); }
  }

  lemma SessionLessens(s: Cpu)
    ensures Left(SweepSession(s)) < Left(s.(at := Sweeping(Session)))
  {
    if s.timer == 0 { ConnectLessens(s); }
  }

  lemma RethinkLessens(s: Cpu)
    ensures Left(SweepRethink(s)) < Left(s.(at := Sweeping(Rethink)))
  {
    if !s.rethink { SessionLessens(s); }
  }

  lemma PeriodLessens(s: Cpu)
    ensures Left(SweepPeriod(s)) < Left(s.(at := Sweeping(PeriodQuery)))
  {
    if !s.periodPc { RethinkLessens(s); }
  }

  lemma OwnerLessens(s: Cpu)
    ensures Left(SweepOwner(s)) < Left(s.(at := Sweeping(OwnerQuery)))
  {
    if !s.link.query { PeriodLessens(s); }
  }

  lemma EarlySweepLessens(s: Cpu, stage: Stage)
    requires stage.OwnerQuery? || stage.PeriodQuery? || stage.Rethink?
    ensures Left(Sweep(s, stage)) < Left(s.(at := Sweeping(stage)))
  {
    match stage
    case OwnerQuery => OwnerLessens(s);
    case PeriodQuery => PeriodLessens(s);
    case Rethink => RethinkLessens(s);
  }

  lemma LateSweepLessens(s: Cpu, stage: Stage)
    requires stage.Session? || stage.StopMessage? || stage.Farewell? || stage.Connect?
    ensures Left(Sweep(s, stage)) < Left(s.(at := Sweeping(stage)))
  {
    match stage
    case Session => SessionLessens(s);
    case StopMessage => StopMessageLessens(s);
    case Farewell => ConnectLessens(s);
    case Connect => ConnectLessens(s);
  }

  lemma SweepLessens(s: Cpu, stage: Stage)
    ensures Left(Sweep(s, stage)) < Left(s.(at := Sweeping(stage)))
  {
    if stage.OwnerQuery? || stage.PeriodQuery? || stage.Rethink? {
      EarlySweepLessens(s, stage);
    } else {
      LateSweepLessens(s, stage);
    }
  }

  lemma ResumeLessens(s: Cpu)
    requires Inv(s) && !s.at.Idle?
    ensures Left(GoOn(s)) < Left(s)
  {
    if s.at.Sweeping? { SweepLessens(s, s.at.stage); }
  }

  /** Setting the new timer touches no slot but its own. */
  lemma ArmMoves(s: Cpu, nested: bool)
    ensures SlotsLeft(Arm(s, nested)) == SlotsLeft(s) && AtLeft(Arm(s, nested).at) <= 3
  {
  }

  lemma AnnounceMoves(s: Cpu, m: Msg)
    ensures SlotsLeft(Announce(s, m)) == SlotsLeft(s) && AtLeft(Announce(s, m).at) <= 3
  {
    if s.link.bus {
      var r := s.(trace := s.trace + [m], at := Announcing(!s.at.Idle?));
      assert Announce(s, m) == r && SlotsLeft(r) == SlotsLeft(s);
    } else {
      ArmMoves(s, !s.at.Idle?);
    }
  }

  /** Announcing a session costs no more than the flush and the new timer. */
  lemma AnnounceCosts(s: Cpu, m: Msg)
    ensures Left(Announce(s, m)) <= Left(s) + 4
  {
    AnnounceMoves(s, m);
  }

  lemma PeriodReplyLessens(s: Cpu, ms: int)
    requires Reads(s) && s.periodPc
    ensures Left(SetPeriod(s.(periodPc := false), ms)) < Left(s)
  {
    var t := s.(periodPc := false, period := if ms <= 0 then RENEW_MS else ms);
    AnnounceCosts(t, Renew);
    assert Left(t) + 20 == Left(s);
  }

  lemma RethinkCbLessens(s: Cpu)
    requires Free(s) && s.rethink
    ensures Left(RethinkNow(s.(rethink := false))) < Left(s)
  {
  }

  lemma ConnectCbLessens(s: Cpu, busOk: bool, filterOk: bool)
    requires Free(s) && s.connectId
    ensures Left(ConnectNow(s, busOk, filterOk)) < Left(s)
  {
  }

  lemma HeedCosts(s: Cpu, link: Link)
    ensures SlotsLeft(Heed(s, link)) <= SlotsLeft(s) + 30
    ensures Heed(s, link).at == s.at && Heed(s, link).timer == s.timer
  {
  }

  lemma DeliverLessens(s: Cpu)
    requires s.link.down != []
    ensures Left(Heed(s, Read(s.link, false))) < Left(s)
  {
    HeedCosts(s, Read(s.link, false));
    assert MessagesLeft(Read(s.link, false)) + 100 <= MessagesLeft(s.link);
  }

  lemma DaemonStepLessens(s: Cpu)
    ensures DaemonTurn(s.link) == s.link || Left(s.(link := DaemonTurn(s.link))) < Left(s)
  {
  }

  lemma ShutdownLessens(s: Cpu)
    ensures Step(s, ShutdownCb) == s || Left(Step(s, ShutdownCb)) < Left(s)
  {
    OwnerLessens(s.(inShutdown := true));
  }

  /** Only requests, changes of the name and renewals can go on for ever: every other step
      that changes anything lessens the work left. */
  lemma Lessens(s: Cpu, e: Event)
    requires Inv(s) && Pending(e)
    ensures Step(s, e) == s || Left(Step(s, e)) < Left(s)
  {
    match e
    case DaemonStep => DaemonStepLessens(s);
    case Deliver => if s.link.down != [] { DeliverLessens(s); }
    case PeriodReply(val) => if Reads(s) && s.periodPc { PeriodReplyLessens(s, val * 1000); }
    case RethinkCb => if Free(s) && s.rethink { RethinkCbLessens(s); }
    case ConnectCb(busOk, filterOk) => if Free(s) && s.connectId { ConnectCbLessens(s, busOk, filterOk); }
    case ShutdownCb => ShutdownLessens(s);
    case Resume => if !Free(s) { ResumeLessens(s); }
  }

  /** As long as the object is not at rest, one of these steps is possible. */
  lemma NextStep(s: Cpu) returns (e: Event)
    requires Inv(s) && !Quiet(s)
    ensures Pending(e) && Left(Step(s, e)) < Left(s)
  {
    e := if !s.at.Idle? then Resume
         else if s.released && !s.inShutdown then ShutdownCb
         else if s.rethink then RethinkCb
         else if s.connectId then ConnectCb(true, true)
         else if s.link.down != [] then Deliver
         else DaemonStep;
    Lessens(s, e);
  }

  /** At rest the session is what it should be: running, renewed and announced to MCE exactly
      when it is requested and MCE really owns its name.  Without a connection there is none,
      and a connection whose filter could not be installed is not followed. */
  lemma Convergence(owned: bool, es: seq<Event>)
    ensures var s := Reach(owned, es);
            Quiet(s) && (s.link.filter || !s.link.bus) ==>
              && (s.timer != 0 <==> s.requested && s.link.owned && s.link.bus)
              && (Open(s.trace) <==> s.timer != 0)
              && (s.link.bus ==> !s.released) && (!s.released ==> s.attempted)
  {
    RunKeeps(owned, es);
  }

  lemma Progress(owned: bool, es: seq<Event>) returns (e: Event)
    requires !Quiet(Reach(owned, es))
    ensures Pending(e)
    ensures Left(Reach(owned, es + [e])) < Left(Reach(owned, es))
  {
    RunKeeps(owned, es);
    e := NextStep(Reach(owned, es));
    assert (es + [e])[..|es|] == es;
  }

  /** None of these steps makes a request, or changes anything at MCE. */
  lemma {:induction false} WishesStay(owned: bool, es: seq<Event>, more: seq<Event>)
    requires forall i | 0 <= i < |more| :: Pending(more[i])
    ensures SameWishes(Reach(owned, es), Reach(owned, es + more))
  {
    var all := es + more;
    if more == [] {
      assert all == es;
    } else {
      var init := more[..|more| - 1];
      WishesStay(owned, es, init);
      assert all[..|all| - 1] == es + init;
    }
  }

  lemma Settles(owned: bool, es: seq<Event>) returns (more: seq<Event>)
    ensures forall i | 0 <= i < |more| :: Pending(more[i])
    ensures Quiet(Reach(owned, es + more))
  {
    more := [];
    while !Quiet(Reach(owned, es + more))
      invariant forall i | 0 <= i < |more| :: Pending(more[i])
      decreases Left(Reach(owned, es + more))
    {
      var e := Progress(owned, es + more);
      assert es + (more + [e]) == es + more + [e];
      more := more + [e];
    }
  }

  /** From any reachable state the controller's own steps and the daemon's lead there: the
      session follows the requests made and the name's state so far. */
  lemma Converges(owned: bool, es: seq<Event>) returns (more: seq<Event>)
    ensures forall i | 0 <= i < |more| :: Pending(more[i])
    ensures var s, t := Reach(owned, es), Reach(owned, es + more);
            && Quiet(t)
            && (t.link.filter || !t.link.bus ==> (t.timer != 0 <==> s.requested && s.link.owned && t.link.bus))
            && (s.released <==> t.inShutdown)
  {
    more := Settles(owned, es);
    WishesStay(owned, es, more);
    Convergence(owned, es + more);
    RunKeeps(owned, es + more);
  }
}
