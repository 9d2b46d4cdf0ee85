/** `displaykeepalive_t` of lib-glib/keepalive-displaykeepalive.c: its fields and its
    handlers, each proved to take the steps of `DisplayProtocol`.

    Wherever a handler drops the mutex it is handed the steps (`w`) that other threads, the
    bus daemon and MCE take meanwhile. */
module DisplayKeepalive {
  import opened MceOwner
  import opened DisplayBus
  import opened Sessions
  import opened DisplayProtocol
  import opened DisplayTheorems

  /** What can happen while a handler does not hold the mutex. */
  predicate Foreign(es: seq<Event>) {
    forall i | 0 <= i < |es| ::
      es[i].ApiStart? || es[i].ApiStop? || es[i].LastUnref? || es[i].NameChange? || es[i].ModeChange? || es[i].DaemonStep?
  }

  /** And what it leaves alone, once the connection has been tried. */
  predicate Leaves(s: Display, t: Display) {
    && t.timer == s.timer && t.inShutdown == s.inShutdown && t.at == s.at && t.trace == s.trace
    && (s.attempted ==> t.attempted && t.bus == s.bus && t.filter == s.filter && t.view == s.view)
    && (s.inShutdown && s.released ==>
          t.rethink == s.rethink && t.released && t.bus == s.bus && t.filter == s.filter && t.view == s.view)
  }

  lemma ApiLeaves(s: Display, e: Event)
    requires e.ApiStart? || e.ApiStop? || e.LastUnref?
    ensures Leaves(s, Step(s, e))
  {
  }

  lemma OutsideLeaves(s: Display, e: Event)
    requires e.NameChange? || e.ModeChange? || e.DaemonStep?
    ensures Leaves(s, Step(s, e))
  {
    assert Step(s, e) == s.(wire := Step(s, e).wire);
  }

  lemma StepLeaves(s: Display, e: Event)
    requires Foreign([e])
    ensures Leaves(s, Step(s, e))
  {
    assert [e][0] == e;
    if e.ApiStart? || e.ApiStop? || e.LastUnref? { ApiLeaves(s, e); } else { OutsideLeaves(s, e); }
  }

  /** A run with the states it goes through. */
  ghost predicate Trail(owned: bool, allowed: bool, es: seq<Event>, states: seq<Display>) {
    && |states| == |es| + 1 && states[0] == Init(owned, allowed)
    && forall i {:trigger es[i]} | 0 <= i < |es| :: states[i + 1] == Step(states[i], es[i])
  }

  lemma {:induction false} TrailReaches(owned: bool, allowed: bool, es: seq<Event>, states: seq<Display>)
    requires Trail(owned, allowed, es, states)
    ensures states[|es|] == Reach(owned, allowed, es)
  {
    if es != [] {
      var n := |es| - 1;
      assert Trail(owned, allowed, es[..n], states[..|es|]) by {
        forall i | 0 <= i < n ensures states[i + 1] == Step(states[i], es[..n][i]) { assert es[i] == es[..n][i]; }
      }
      TrailReaches(owned, allowed, es[..n], states[..|es|]);
      assert es[n] == es[|es| - 1];
    }
  }

  lemma TrailGrows(owned: bool, allowed: bool, es: seq<Event>, states: seq<Display>, e: Event)
    requires Trail(owned, allowed, es, states)
    ensures Trail(owned, allowed, es + [e], states + [Step(states[|es|], e)])
  {
    var all := es + [e];
    var more := states + [Step(states[|es|], e)];
    forall i | 0 <= i < |all| ensures more[i + 1] == Step(more[i], all[i]) {
      if i < |es| { assert all[i] == es[i]; }
    }
  }

  lemma TrailInv(owned: bool, allowed: bool, es: seq<Event>, states: seq<Display>)
    requires Trail(owned, allowed, es, states)
    ensures Inv(states[|es|])
  {
    TrailReaches(owned, allowed, es, states);
    RunKeeps(owned, allowed, es);
  }

  lemma TrailBus(owned: bool, allowed: bool, es: seq<Event>, states: seq<Display>)
    requires Trail(owned, allowed, es, states)
    ensures var s := states[|es|];
            && (s.timer ==> s.bus) && (s.bus ==> s.attempted)
            && (s.rethink ==> s.attempted) && (s.inShutdown && s.at.Idle? ==> !s.bus)
  {
    TrailInv(owned, allowed, es, states);
  }

  lemma TrailShut(owned: bool, allowed: bool, es: seq<Event>, states: seq<Display>)
    requires Trail(owned, allowed, es, states)
    ensures var s := states[|es|];
            s.inShutdown && Free(s) ==>
              !s.timer && !s.rethink && !s.filter && !s.bus && !s.view.query && s.view.modePc == 0
  {
    TrailInv(owned, allowed, es, states);
  }

  /** A stretch of a handler leaves nothing of the old view. */
  lemma ChangedForgets(s: Display, view: View, c: Change)
    ensures Changed(s.(view := view), c) == Changed(s, c)
  {
  }

  class DisplayKeepalive {
    // displaykeepalive_t; a slot is false when empty
    var requested: bool
    var systembus: bool
    var filterAdded: bool
    var view: View  // dka_mce_service, dka_preventmode and the slots of their queries
    var sessionRenew: bool
    var rethink: bool
    var connectAttempted: bool
    var inShutdown: bool
    // around it: the last external reference is gone, where a handler stands, what MCE was
    // told, and the other end of the bus
    var released: bool
    var at: At
    var trace: seq<Msg>
    var wire: Wire
    // the steps taken, and the states they led through
    ghost var history: seq<Event>
    ghost var states: seq<Display>
    ghost const owned: bool
    ghost const allowed: bool

    function State(): (s: Display)
      reads this
    {
      Display(requested, systembus, filterAdded, view, sessionRenew, rethink, connectAttempted, inShutdown,
              released, at, trace, wire)
    }

    ghost predicate Followed()
      reads this
    {
      Trail(owned, allowed, history, states)
    }

    /** Where the steps taken lead. */
    ghost function Ahead(): (s: Display)
      requires |states| > 0
      reads this
    {
      states[|states| - 1]
    }

    /** The state is the one the protocol has reached. */
    ghost predicate Exact()
      reads this
    {
      Followed() && State() == Ahead()
    }

    /** And no handler is running. */
    ghost predicate Valid()
      reads this
    {
      Exact() && at.Idle?
    }

    constructor (owned: bool, allowed: bool)
      ensures Valid() && history == [] && this.owned == owned && this.allowed == allowed
    {
      requested, systembus, filterAdded, view := false, false, false, NoView();
      sessionRenew, rethink, connectAttempted, inShutdown := false, false, false, false;
      released, at, trace, wire := false, Idle, [], NoWire(owned, allowed);
      this.owned, this.allowed, history, states := owned, allowed, [], [Init(owned, allowed)];
    }

    /** The step `e` is taken, or begins. */
    ghost method Log(e: Event)
      requires Followed()
      modifies this`history, this`states
      ensures Followed() && history == old(history) + [e] && Ahead() == Step(old(Ahead()), e)
    {
      TrailGrows(owned, allowed, history, states, e);
      history, states := history + [e], states + [Step(Ahead(), e)];
    }

    /** `displaykeepalive_rethink_schedule_locked` */
    method RethinkScheduleLocked()
      modifies this`rethink
      ensures rethink == (old(rethink) || !inShutdown)
    {
      if !inShutdown && !rethink {
        rethink := true;
      }
    }

    /** `displaykeepalive_dbus_connect_locked` */
    method DbusConnectLocked(busOk: bool, filterOk: bool)
      modifies this`connectAttempted, this`systembus, this`filterAdded, this`view, this`wire
      ensures State() == Connect(old(State()), busOk, filterOk) && connectAttempted
      ensures old(connectAttempted) ==> systembus == old(systembus)
      ensures !old(connectAttempted) && busOk ==>
                systembus && (filterAdded <==> filterOk) && view.query && wire.up == if filterOk then RuleThenQuery else QueryOnly
    {
      if !connectAttempted {
        connectAttempted := true;
        if busOk {
          systembus, filterAdded := true, filterOk;
          view := view.(query := true);
          wire := wire.(up := if filterOk then RuleThenQuery else QueryOnly);
        }
      }
    }

    /** `displaykeepalive_start` */
    method ApiStart(busOk: bool, filterOk: bool)
      requires Exact() && ApiOk(State())
      modifies this
      ensures Exact() && history == old(history) + [Event.ApiStart(busOk, filterOk)]
      ensures State() == Step(old(State()), Event.ApiStart(busOk, filterOk))
      ensures requested && (!old(requested) ==> rethink)
    {
      if !requested {
        requested := true;
        DbusConnectLocked(busOk, filterOk);
        RethinkScheduleLocked();
      }
      Log(Event.ApiStart(busOk, filterOk));
    }

    /** `displaykeepalive_stop` */
    method ApiStop()
      requires Exact() && ApiOk(State())
      modifies this
      ensures Exact() && history == old(history) + [Event.ApiStop] && State() == Step(old(State()), Event.ApiStop)
      ensures !requested && (old(requested) ==> rethink)
    {
      if requested {
        requested := false;
        RethinkScheduleLocked();
      }
      Log(Event.ApiStop);
    }

    /** The daemon or MCE acts, the last reference goes, or a call comes too late. */
    method Outside(e: Event)
      requires Exact() && Foreign([e]) && (e.ApiStart? || e.ApiStop? ==> !ApiOk(State()))
      modifies this
      ensures Exact() && history == old(history) + [e] && State() == Step(old(State()), e)
    {
      assert [e][0] == e;
      if e.NameChange? {
        wire := NameChanged(wire, e.owned, e.allowed);
      } else if e.ModeChange? {
        wire := ModeChanged(wire, e.allowed);
      } else if e.DaemonStep? {
        wire := Turn(wire);
      } else if e.LastUnref? {
        released := true;
      }
      Log(e);
    }

    method One(e: Event)
      requires Exact() && Foreign([e])
      modifies this
      ensures Exact() && history == old(history) + [e] && State() == Step(old(State()), e)
    {
      assert [e][0] == e;
      if e.ApiStart? && !released && !inShutdown {
        ApiStart(e.busOk, e.filterOk);
      } else if e.ApiStop? && !released && !inShutdown {
        ApiStop();
      } else {
        Outside(e);
      }
    }

    /** Others act while the mutex is free. */
    method Others(w: seq<Event>)
      requires Exact() && Foreign(w)
      modifies this
      ensures Exact() && history == old(history) + w && Leaves(old(State()), State())
    {
      for i := 0 to |w|
        invariant Exact() && history == old(history) + w[..i] && Leaves(old(State()), State())
      {
        StepLeaves(State(), w[i]);
        One(w[i]);
        assert w[..i + 1] == w[..i] + [w[i]];
      }
      assert w[..|w|] == w;
    }

    /** The handler has the mutex back. */
    ghost method Resumes()
      requires Exact()
      modifies this`history, this`states
      ensures Followed() && history == old(history) + [Resume] && GoOn(State()) == Ahead()
    {
      Log(Resume);
    }

    /** An unlocked stretch of a handler. */
    method Window(w: seq<Event>)
      requires Exact() && Foreign(w)
      modifies this
      ensures Followed() && GoOn(State()) == Ahead() && history == old(history) + w + [Resume]
      ensures Leaves(old(State()), State())
    {
      Others(w);
      Resumes();
    }

    /** `displaykeepalive_session_ipc_locked`: only a running MCE is told. */
    method SessionIpcLocked(m: Msg)
      modifies this`trace
      ensures trace == if view.mce.Running? then old(trace) + [m] else old(trace)
    {
      if view.mce.Running? {
        trace := trace + [m];
      }
    }

    /** `displaykeepalive_session_start_locked` */
    method SessionStartLocked()
      requires !inShutdown && view.mce.Running?
      modifies this`sessionRenew, this`trace
      ensures sessionRenew && trace == old(trace) + if old(sessionRenew) then [] else [Start]
    {
      if !sessionRenew {
        sessionRenew := true;
        SessionIpcLocked(Start);
      }
    }

    /** `displaykeepalive_session_stop_locked`: the mutex is dropped while the timer goes. */
    method SessionStopLocked(w: seq<Event>)
      requires Followed() && Foreign(w) && at.Idle? && connectAttempted
      requires (if sessionRenew then StopSession(State()) else State()) == Ahead()
      modifies this
      ensures Valid() && !sessionRenew && view == old(view) && old(history) <= history
      ensures trace == old(trace) + if !old(sessionRenew) then [] else if old(view.mce.Running?) then [Stop] else [Lapse]
    {
      if sessionRenew {
        SessionTimerTaken(w);
        SessionEnds();
        at := Idle;
      }
    }

    /** The end of a session is sent, or, with no MCE to send it to, only noted. */
    method SessionEnds()
      modifies this`trace
      ensures trace == old(trace) + if view.mce.Running? then [Stop] else [Lapse]
    {
      SessionIpcLocked(Stop);
      if !view.mce.Running? {
        trace := trace + [Lapse];
      }
    }

    /** The renew timer is out of its slot, and the mutex dropped. */
    method SessionTimerTaken(w: seq<Event>)
      requires Followed() && Foreign(w) && connectAttempted && sessionRenew && StopSession(State()) == Ahead()
      modifies this
      ensures Followed() && old(history) <= history && StopSession(State()) == Ahead()
      ensures !sessionRenew && view == old(view) && trace == old(trace)
    {
      sessionRenew, at := false, Stopping;
      Window(w);
    }

    /** `displaykeepalive_rethink_now_locked`, its own timer out of the way */
    method RethinkNowLocked(w: seq<Event>)
      requires Followed() && Foreign(w) && at.Idle? && connectAttempted && RethinkNow(State()) == Ahead()
      modifies this
      ensures Valid() && old(history) <= history
      ensures sessionRenew <==> old(!inShutdown && view.mce.Running? && view.mode.Allowed? && requested)
      ensures trace == old(trace) +
                if old(sessionRenew == Want(State())) then [] else if !old(sessionRenew) then [Start]
                else if old(view.mce.Running?) then [Stop] else [Lapse]
    {
      var needRenewLoop := false;
      if !inShutdown && view.mce.Running? && view.mode.Allowed? {
        needRenewLoop := requested;
      }
      if needRenewLoop {
        SessionStartLocked();
      } else {
        SessionStopLocked(w);
      }
    }

    /** `displaykeepalive_rethink_cb` */
    method DelayedRethinkCb(w: seq<Event>)
      requires Valid() && Foreign(w) && rethink && !inShutdown
      modifies this
      ensures Valid() && old(history) + [RethinkCb] <= history
      ensures sessionRenew <==> old(view.mce.Running? && view.mode.Allowed? && requested)
      ensures trace == old(trace) +
                if old(sessionRenew == Want(State())) then [] else if !old(sessionRenew) then [Start]
                else if old(view.mce.Running?) then [Stop] else [Lapse]
    {
      TrailBus(owned, allowed, history, states);
      Log(RethinkCb);
      rethink := false;
      RethinkNowLocked(w);
    }

    /** `displaykeepalive_session_renew_cb` */
    method SessionRenewCb()
      requires Valid() && sessionRenew
      modifies this
      ensures Valid() && history == old(history) + [RenewCb]
      ensures sessionRenew == !inShutdown
      ensures trace == old(trace) + if !inShutdown && view.mce.Running? then [Renew] else []
    {
      Log(RenewCb);
      if inShutdown {
        sessionRenew := false;
      } else {
        SessionIpcLocked(Renew);
      }
    }

    /** What is left to do of an update of the mode, when the mutex is dropped at `next`. */
    ghost function ModeRest(next: At): (c: Change)
      requires next.Clearing? || next.Moding?
      reads this
    {
      if next.Clearing? then ModeCleared(view) else ModeUpdate(view, next.mode)
    }

    /** `displaykeepalive_dbus_cancel_preventmode_query_locked` */
    method PreventmodeQueryCancelLocked(next: At, w: seq<Event>)
      requires Followed() && Foreign(w) && connectAttempted && (next.Clearing? || next.Moding?)
      requires Changed(State(), ModeRest(next)) == Ahead()
      modifies this
      ensures Followed() && inShutdown == old(inShutdown)
      ensures Changed(State(), ModeRest(next)) == Ahead()
      ensures view == old(view).(modePc := 0)
    {
      while view.modePc != 0
        invariant Followed() && connectAttempted && inShutdown == old(inShutdown)
        invariant Changed(State(), ModeRest(next)) == Ahead()
        invariant view.(modePc := 0) == old(view).(modePc := 0)
        decreases view.modePc
      {
        view, at := view.(modePc := 0), next;
        Window(w);
      }
    }

    /** `displaykeepalive_preventmode_update_locked` for the owner that has gone, and the
        rethink after it */
    method ModeClearLocked(w: seq<Event>)
      requires Followed() && Foreign(w) && connectAttempted
      requires Changed(State(), ModeCleared(view)) == Ahead()
      modifies this
      ensures Valid() && view == old(view).(mode := NoMode, modePc := 0) && inShutdown == old(inShutdown)
      ensures !inShutdown ==> rethink
    {
      PreventmodeQueryCancelLocked(Clearing, w);
      view, at := view.(mode := NoMode), Idle;
      RethinkScheduleLocked();
    }

    /** `displaykeepalive_preventmode_update_locked` */
    method PreventmodeUpdateLocked(mode: Mode, w: seq<Event>)
      requires Followed() && Foreign(w) && connectAttempted
      requires Changed(State(), ModeUpdate(view, mode)) == Ahead()
      modifies this
      ensures Valid() && view == old(view).(mode := mode, modePc := 0) && inShutdown == old(inShutdown)
      ensures mode != old(view.mode) && !inShutdown ==> rethink
    {
      PreventmodeQueryCancelLocked(Moding(mode), w);
      ModeSetLocked(mode);
    }

    /** The rest of it */
    method ModeSetLocked(mode: Mode)
      requires Followed() && view.modePc == 0
      requires Changed(State(), ModeUpdate(view, mode)) == Ahead()
      modifies this`view, this`at, this`rethink
      ensures Valid() && view == old(view).(mode := mode)
      ensures mode != old(view.mode) && !inShutdown ==> rethink
    {
      var changed := view.mode != mode;
      view, at := view.(mode := mode), Idle;
      if changed {
        RethinkScheduleLocked();
      }
    }

    /** `displaykeepalive_dbus_cancel_mce_owner_query_locked` for a new owner */
    method OwnerQueryCancelLocked(owner: Owner, w: seq<Event>)
      requires Followed() && Foreign(w) && connectAttempted
      requires Changed(State(), OwnerUpdate(view, owner)) == Ahead()
      modifies this
      ensures Followed() && connectAttempted && inShutdown == old(inShutdown)
      ensures Changed(State(), OwnerSet(view, owner)) == Ahead()
      ensures view == old(view).(query := false)
    {
      while view.query
        invariant Followed() && connectAttempted && inShutdown == old(inShutdown)
        invariant Changed(State(), OwnerUpdate(view, owner)) == Ahead()
        invariant view.(query := false) == old(view).(query := false)
        decreases view.query
      {
        view, at := view.(query := false), Updating(owner);
        Window(w);
      }
    }

    /** The rest of `displaykeepalive_mce_owner_update_locked` */
    method OwnerSetLocked(owner: Owner, w: seq<Event>)
      requires Followed() && Foreign(w) && connectAttempted && owner != view.mce
      requires Changed(State(), OwnerSet(view, owner)) == Ahead()
      modifies this
      ensures Valid() && view == SetOwner(old(view), owner) && inShutdown == old(inShutdown)
      ensures !inShutdown ==> rethink
    {
      if !owner.Running? {
        view := view.(mce := owner);
        ModeClearLocked(w);
      } else {
        OwnerUpLocked(owner);
      }
    }

    /** MCE has come up: a mode query is started unless one is open, and a rethink scheduled. */
    method OwnerUpLocked(owner: Owner)
      requires Followed() && owner != view.mce && owner.Running?
      requires Changed(State(), OwnerSet(view, owner)) == Ahead()
      modifies this`view, this`wire, this`at, this`rethink
      ensures Valid() && view == SetOwner(old(view), owner) && (!inShutdown ==> rethink)
    {
      if view.modePc == 0 {
        wire := wire.(asks := wire.asks + [view.serial]);
        view := view.(mce := owner, modePc := view.serial, serial := view.serial + 1);
      } else {
        view := view.(mce := owner);
      }
      RethinkScheduleLocked();
      at := Idle;
    }

    /** `displaykeepalive_mce_owner_update_locked` */
    method MceOwnerUpdateLocked(owner: Owner, w1: seq<Event>, w2: seq<Event>)
      requires Followed() && Foreign(w1) && Foreign(w2) && connectAttempted
      requires Changed(State(), OwnerUpdate(view, owner)) == Ahead()
      modifies this
      ensures Valid() && view == SetOwner(old(view).(query := false), owner) && inShutdown == old(inShutdown)
      ensures owner != old(view.mce) && !inShutdown ==> rethink
    {
      OwnerQueryCancelLocked(owner, w1);
      if view.mce == owner {
        at := Idle;
      } else {
        OwnerSetLocked(owner, w2);
      }
    }

    /** The next message under way is dispatched: `displaykeepalive_dbus_message_filter_cb`
        hears a signal, and the callback of a query its answer. */
    method Dispatched(news: Message, w1: seq<Event>, w2: seq<Event>)
      requires Valid() && systembus && !inShutdown && wire.down != [] && news == wire.down[0]
      requires Foreign(w1) && Foreign(w2)
      modifies this
      ensures Valid() && (old(filterAdded) ==> view == Read(old(view), news))
      ensures view.mce != old(view.mce) || view.mode != old(view.mode) ==> rethink
    {
      TrailBus(owned, allowed, history, states);
      Log(Deliver);
      wire := wire.(down := wire.down[1..]);
      if news.NameSignal? || news.NameReply? {
        NameHeard(news, w1, w2);
      } else if news.ModeSignal? {
        ModeHeard(news, w1);
      } else if news.call != 0 && view.modePc == news.call {
        ModeAnswered(news.mode, w1);
      }
    }

    /** `displaykeepalive_dbus_handle_nameowner_signal_locked` and
        `displaykeepalive_dbus_mce_owner_query_reply_cb` */
    method NameHeard(news: Message, w1: seq<Event>, w2: seq<Event>)
      requires Followed() && at.Idle? && connectAttempted && !inShutdown && (news.NameSignal? || news.NameReply?)
      requires Foreign(w1) && Foreign(w2) && Changed(State(), Handle(view, filterAdded, news)) == Ahead()
      modifies this
      ensures Valid()
      ensures view == if old(filterAdded) || (news.NameReply? && old(view.query)) then Read(old(view), news) else old(view)
      ensures view.mce != old(view.mce) || view.mode != old(view.mode) ==> rethink
    {
      if news.NameReply? && view.query {
        view := view.(query := false);
        MceOwnerUpdateLocked(Of(news.running), w1, w2);
      } else if news.NameSignal? && filterAdded {
        MceOwnerUpdateLocked(Of(news.running), w1, w2);
      }
    }

    /** `displaykeepalive_dbus_handle_preventmode_signal_locked` */
    method ModeHeard(news: Message, w: seq<Event>)
      requires Followed() && at.Idle? && connectAttempted && !inShutdown && news.ModeSignal?
      requires Foreign(w) && Changed(State(), Handle(view, filterAdded, news)) == Ahead()
      modifies this
      ensures Valid() && view == if old(filterAdded) then Read(old(view), news) else old(view)
      ensures view.mce != old(view.mce) || view.mode != old(view.mode) ==> rethink
    {
      if filterAdded {
        PreventmodeUpdateLocked(Real(news.allowed), w);
      }
    }

    /** `displaykeepalive_dbus_preventmode_reply_cb`, for the call in the slot */
    method ModeAnswered(mode: Mode, w: seq<Event>)
      requires Followed() && at.Idle? && connectAttempted && !inShutdown && view.modePc != 0
      requires Foreign(w) && Changed(State(), Handle(view, filterAdded, ModeReply(view.modePc, mode))) == Ahead()
      modifies this
      ensures Valid() && view == Read(old(view), ModeReply(old(view.modePc), mode))
      ensures view.mode != old(view.mode) ==> rethink
    {
      if mode.NoMode? {
        view := view.(modePc := 0);
      } else {
        ChangedForgets(State(), view.(modePc := 0), ModeUpdate(view.(modePc := 0), mode));
        view := view.(modePc := 0);
        PreventmodeUpdateLocked(mode, w);
      }
    }

    // the parts of the shutdown callback; the object is in shutdown and nobody refers to it

    /** `displaykeepalive_rethink_cancel_locked` */
    method RethinkCancelLocked(w: seq<Event>)
      requires Followed() && Foreign(w) && inShutdown && released && SweepRethink(State()) == Ahead()
      modifies this
      ensures Followed() && inShutdown && released && SweepRethink(State()) == Ahead() && !rethink
      ensures trace == old(trace) && sessionRenew == old(sessionRenew) && systembus == old(systembus) && view == old(view)
    {
      while rethink
        invariant Followed() && inShutdown && released && SweepRethink(State()) == Ahead()
        invariant trace == old(trace) && sessionRenew == old(sessionRenew) && systembus == old(systembus) && view == old(view)
        decreases rethink
      {
        rethink, at := false, Sweeping(Rethink);
        Window(w);
      }
    }

    /** The session ends: the timer goes, the mutex being dropped, and MCE is told. */
    method SessionSwept(w: seq<Event>)
      requires Followed() && Foreign(w) && inShutdown && released && !rethink && SweepRethink(State()) == Ahead()
      modifies this
      ensures Followed() && inShutdown && released && Disconnect(State()) == Ahead() && systembus == old(systembus)
      ensures trace == old(trace) + if !old(sessionRenew) then [] else if old(view.mce.Running?) then [Stop] else [Lapse]
    {
      if sessionRenew {
        sessionRenew, at := false, Sweeping(StopMessage);
        Window(w);
        SessionEnds();
      }
    }

    /** `displaykeepalive_dbus_cancel_mce_owner_query_locked` */
    method OwnerQuerySwept(w: seq<Event>)
      requires Followed() && Foreign(w) && inShutdown && released && SweepOwner(State()) == Ahead()
      modifies this
      ensures Followed() && inShutdown && released && SweepMode(State()) == Ahead() && trace == old(trace)
    {
      while view.query
        invariant Followed() && inShutdown && released && SweepOwner(State()) == Ahead() && trace == old(trace)
        decreases view.query
      {
        view, at := view.(query := false), Sweeping(OwnerQuery);
        Window(w);
      }
    }

    /** `displaykeepalive_dbus_cancel_preventmode_query_locked` */
    method ModeQuerySwept(w: seq<Event>)
      requires Followed() && Foreign(w) && inShutdown && released && SweepMode(State()) == Ahead()
      modifies this
      ensures Followed() && inShutdown && SweepMode(State()) == Ahead() && view.modePc == 0 && trace == old(trace)
    {
      while view.modePc != 0
        invariant Followed() && inShutdown && released && SweepMode(State()) == Ahead() && trace == old(trace)
        decreases view.modePc
      {
        view, at := view.(modePc := 0), Sweeping(ModeQuery);
        Window(w);
      }
    }

    /** `displaykeepalive_dbus_disconnect_locked` */
    method DbusDisconnectLocked(w1: seq<Event>, w2: seq<Event>)
      requires Followed() && Foreign(w1) && Foreign(w2) && inShutdown && released && Disconnect(State()) == Ahead()
      modifies this
      ensures Valid() && inShutdown && trace == old(trace)
    {
      if systembus {
        OwnerQuerySwept(w1);
        ModeQuerySwept(w2);
        filterAdded, systembus := false, false;
      }
      at := Idle;
    }

    /** `displaykeepalive_shutdown_locked_cb`: a session that ran is ended, and then nothing is left. */
    method ShutdownLockedCb(w1: seq<Event>, w2: seq<Event>, w3: seq<Event>, w4: seq<Event>)
      requires Valid() && released && !inShutdown
      requires Foreign(w1) && Foreign(w2) && Foreign(w3) && Foreign(w4)
      modifies this
      ensures Valid() && inShutdown
      ensures trace == old(trace) + if !old(sessionRenew) then [] else if old(view.mce.Running?) then [Stop] else [Lapse]
      ensures !sessionRenew && !rethink && !filterAdded && !systembus && !view.query && view.modePc == 0
    {
      Log(ShutdownCb);
      inShutdown := true;
      RethinkCancelLocked(w1);
      SessionSwept(w2);
      DbusDisconnectLocked(w3, w4);
      TrailShut(owned, allowed, history, states);
    }
  }
}
