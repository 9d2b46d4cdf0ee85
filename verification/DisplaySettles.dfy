/** The display session controller comes to rest in the state it should be in. */
module DisplaySettles {
  import opened MceOwner
  import opened DisplayBus
  import opened Sessions
  import opened DisplayProtocol
  import opened DisplayTheorems

  /** No callback is due or running, and the bus has nothing under way. */
  predicate Quiet(s: Display) {
    && s.at.Idle? && !s.rethink && (s.released ==> s.inShutdown)
    && (s.bus ==> s.wire.up.Handled? && s.wire.asks == [] && s.wire.down == [])
  }

  function AtLeft(at: At): nat {
    match at
    case Idle => 0 case Stopping => 2 case Updating(_) => 70 case Clearing => 15 case Moding(_) => 15
    case Sweeping(Rethink) => 9 case Sweeping(StopMessage) => 8
    case Sweeping(OwnerQuery) => 7 case Sweeping(ModeQuery) => 6
  }

  function If(b: bool, weight: nat): nat { if b then weight else 0 }

  function ViewLeft(v: View): nat { If(v.query, 5) + If(v.modePc != 0, 5) }

  function Weight(news: Message): nat { if news.NameSignal? || news.NameReply? then 100 else 30 }

  function DownLeft(down: seq<Message>): nat {
    if down == [] then 0
    else Weight(down[0]) + DownLeft(down[1..])
  }

  function UpLeft(up: Outbox): nat {
    if up.RuleThenQuery? then 600 else if up.QueryOnly? then 300 else 0
  }

  function WireLeft(w: Wire): nat {
    UpLeft(w.up) + 40 * |w.asks| + DownLeft(w.down)
  }

  /** The work left. */
  function Left(s: Display): nat {
    AtLeft(s.at) + If(s.timer, 1) + If(s.rethink, 10) + If(s.released && !s.inShutdown, 50)
    + ViewLeft(s.view) + WireLeft(s.wire)
  }

  lemma {:induction false} DownLeftGrows(down: seq<Message>, news: Message)
    ensures DownLeft(down + [news]) == DownLeft(down) + Weight(news)
  {
    var all := down + [news];
    if down == [] {
      assert all[1..] == [];
    } else {
      assert all[1..] == down[1..] + [news];
      DownLeftGrows(down[1..], news);
    }
  }

  lemma TurnLessens(w: Wire)
    ensures Turn(w) == w || WireLeft(Turn(w)) < WireLeft(w)
  {
    DownLeftGrows(w.down, NameReply(w.owned));
    if w.asks != [] { DownLeftGrows(w.down, ModeReply(w.asks[0], if w.owned then Real(w.allowed) else NoMode)); }
  }

  /** What a stretch of a handler adds to the work. */
  function Added(c: Change): nat { AtLeft(c.at) + If(c.rethink, 10) + ViewLeft(c.view) + If(c.call != 0, 40) }

  lemma OwnerUpdateLessens(v: View, owner: Owner)
    ensures Added(OwnerUpdate(v, owner)) < 75 + ViewLeft(v)
    ensures !v.query ==> Added(OwnerUpdate(v, owner)) < 70 + ViewLeft(v)
  {
  }

  lemma HandleLessens(v: View, filter: bool, news: Message)
    ensures Added(Handle(v, filter, news)) < ViewLeft(v) + Weight(news)
  {
    if news.NameSignal? { OwnerUpdateLessens(v, Of(news.running)); }
    if news.NameReply? && v.query { OwnerUpdateLessens(v.(query := false), Of(news.running)); }
  }

  lemma ChangedLessens(s: Display, c: Change, done: nat)
    requires Added(c) < AtLeft(s.at) + ViewLeft(s.view) + done
    ensures Left(Changed(s, c)) < Left(s) + done
  {
  }

  lemma PoppedLessens(s: Display)
    requires s.wire.down != []
    ensures Left(Popped(s)) + Weight(s.wire.down[0]) == Left(s)
  {
  }

  lemma DeliverLessens(s: Display)
    requires Free(s) && s.wire.down != []
    ensures Left(Changed(Popped(s), Handle(s.view, s.filter, s.wire.down[0]))) < Left(s)
  {
    var news := s.wire.down[0];
    HandleLessens(s.view, s.filter, news);
    PoppedLessens(s);
    ChangedLessens(Popped(s), Handle(s.view, s.filter, news), Weight(news));
  }

  lemma LeftSplits(s: Display, view: View, at: At)
    ensures Left(s.(view := view, at := at)) + AtLeft(s.at) + ViewLeft(s.view) == Left(s) + AtLeft(at) + ViewLeft(view)
  {
  }

  lemma SweepModeLessens(s: Display)
    ensures Left(SweepMode(s)) < Left(s.(at := Sweeping(ModeQuery)))
  {
    var r := SweepMode(s);
    LeftSplits(s, r.view, r.at);
    LeftSplits(s, s.view, Sweeping(ModeQuery));
    if s.view.modePc == 0 { assert Left(r) == Left(s.(view := r.view, at := r.at)); }
  }

  lemma SweepOwnerLessens(s: Display)
    ensures Left(SweepOwner(s)) < Left(s.(at := Sweeping(OwnerQuery)))
  {
    if !s.view.query { SweepModeLessens(s); }
  }

  lemma StopMessageLessens(s: Display)
    ensures Left(SweepStopMessage(s)) < Left(s.(at := Sweeping(StopMessage)))
  {
    SweepOwnerLessens(s.(trace := s.trace + [Ended(s)]));
  }

  lemma SweepRethinkLessens(s: Display)
    ensures Left(SweepRethink(s)) < Left(s.(at := Sweeping(Rethink)))
  {
    SweepOwnerLessens(s);
  }

  lemma ResumeLessens(s: Display)
    requires Inv(s) && !s.at.Idle?
    ensures Left(GoOn(s)) < Left(s)
  {
    match s.at
    case Stopping =>
    case Updating(owner) =>
      OwnerUpdateLessens(s.view, owner);
      ChangedLessens(s, OwnerUpdate(s.view, owner), 0);
    case Clearing => ChangedLessens(s, ModeCleared(s.view), 0);
    case Moding(mode) => ChangedLessens(s, ModeUpdate(s.view, mode), 0);
    case Sweeping(Rethink) => SweepRethinkLessens(s);
    case Sweeping(StopMessage) => StopMessageLessens(s);
    case Sweeping(OwnerQuery) => SweepOwnerLessens(s);
    case Sweeping(ModeQuery) => SweepModeLessens(s);
  }

  lemma RethinkLessens(s: Display)
    requires Free(s) && s.rethink
    ensures Left(Step(s, RethinkCb)) < Left(s)
  {
  }

  lemma ShutdownLessens(s: Display)
    ensures Step(s, ShutdownCb) == s || Left(Step(s, ShutdownCb)) < Left(s)
  {
    SweepRethinkLessens(s.(inShutdown := true));
  }

  /** Only requests, changes at MCE and renewals can go on for ever: every other step that
      changes anything lessens the work left. */
  lemma Lessens(s: Display, e: Event)
    requires Inv(s) && Pending(e)
    ensures Step(s, e) == s || Left(Step(s, e)) < Left(s)
  {
    match e
    case DaemonStep => TurnLessens(s.wire);
    case Deliver => if Free(s) && s.bus && s.wire.down != [] { DeliverLessens(s); }
    case RethinkCb => if Free(s) && s.rethink { RethinkLessens(s); }
    case ShutdownCb => ShutdownLessens(s);
    case Resume => if !Free(s) { ResumeLessens(s); }
  }

  /** As long as the object is not at rest, one of these steps is possible. */
  lemma NextStep(s: Display) returns (e: Event)
    requires Inv(s) && !Quiet(s)
    ensures Pending(e) && Left(Step(s, e)) < Left(s)
  {
    if !s.at.Idle? {
      e := Resume;
      ResumeLessens(s);
    } else if s.released && !s.inShutdown {
      e := ShutdownCb;
      ShutdownLessens(s);
    } else if s.rethink {
      e := RethinkCb;
      RethinkLessens(s);
    } else if s.wire.down != [] {
      e := Deliver;
      DeliverLessens(s);
    } else {
      e := DaemonStep;
      TurnLessens(s.wire);
    }
  }

  /** At rest the session is what it should be: blanking is prevented exactly when that is
      requested, MCE really owns its name and really allows it. */
  lemma Convergence(owned: bool, allowed: bool, es: seq<Event>)
    ensures var s := Reach(owned, allowed, es);
            Quiet(s) && (s.filter || !s.bus) ==>
              && (s.timer <==> s.requested && s.wire.owned && s.wire.allowed && s.bus)
              && (Open(s.trace) <==> s.timer) && (s.bus ==> !s.released)
  {
    RunKeeps(owned, allowed, es);
    var s := Reach(owned, allowed, es);
    if Quiet(s) && s.filter && s.bus { AtRest(s.view, s.wire); }
  }

  lemma Progress(owned: bool, allowed: bool, es: seq<Event>) returns (e: Event)
    requires !Quiet(Reach(owned, allowed, es))
    ensures Pending(e)
    ensures Left(Reach(owned, allowed, es + [e])) < Left(Reach(owned, allowed, es))
  {
    RunKeeps(owned, allowed, es);
    e := NextStep(Reach(owned, allowed, es));
    assert (es + [e])[..|es|] == es;
  }

  /** None of these steps makes a request, or changes anything at MCE. */
  lemma {:induction false} WishesStay(owned: bool, allowed: bool, es: seq<Event>, more: seq<Event>)
    requires forall i | 0 <= i < |more| :: Pending(more[i])
    ensures SameWishes(Reach(owned, allowed, es), Reach(owned, allowed, es + more))
  {
    var all := es + more;
    if more == [] {
      assert all == es;
    } else {
      var init := more[..|more| - 1];
      WishesStay(owned, allowed, es, init);
      assert all[..|all| - 1] == es + init;
    }
  }

  lemma Settles(owned: bool, allowed: bool, es: seq<Event>) returns (more: seq<Event>)
    ensures forall i | 0 <= i < |more| :: Pending(more[i])
    ensures Quiet(Reach(owned, allowed, es + more))
  {
    more := [];
    while !Quiet(Reach(owned, allowed, es + more))
      invariant forall i | 0 <= i < |more| :: Pending(more[i])
      decreases Left(Reach(owned, allowed, es + more))
    {
      var e := Progress(owned, allowed, es + more);
      assert es + (more + [e]) == es + more + [e];
      more := more + [e];
    }
  }

  /** From any reachable state the controller's own steps and the daemon's lead there: the
      session follows the requests made and MCE's state so far. */
  lemma Converges(owned: bool, allowed: bool, es: seq<Event>) returns (more: seq<Event>)
    ensures forall i | 0 <= i < |more| :: Pending(more[i])
    ensures var s, t := Reach(owned, allowed, es), Reach(owned, allowed, es + more);
            && Quiet(t)
            && (t.filter || !t.bus ==> (t.timer <==> s.requested && s.wire.owned && s.wire.allowed && t.bus))
            && (s.released <==> t.inShutdown)
  {
    more := Settles(owned, allowed, es);
    WishesStay(owned, allowed, es, more);
    Convergence(owned, allowed, es + more);
    RunKeeps(owned, allowed, es + more);
  }
}
