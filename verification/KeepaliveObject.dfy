/** `keepalive_object_t` and its functions, each proved to be a run of the protocol.

    A method works for one activity `t`.  Where the C code drops the mutex, the method
    lets other activities run: `windows` lists what they do in each unlocked stretch, so a
    contract holds for every such behaviour.  `false` as the method's result means that
    another activity still has the mutex and the call has not come back.
 */
module KeepaliveObject {
  import opened ObjectProtocol
  import opened ObjectSafety
  import opened ObjectReclaim
  import opened ObjectMeasure
  import opened ObjectTheorems

  /** Steps of others than `t`; one of them may give up the reference that `t` relied on. */
  predicate Foreign(es: seq<Event>, t: Tid) { forall i | 0 <= i < |es| :: es[i].t != t || es[i] == Desert(t) }

  /** The activity is where it was, though its reference may be gone if it is in a start function. */
  predicate Stays(a: Act, a': Act) {
    a' == a || (a.role.Api? && Starting(a.pc) && a' == a.(role := Orphan))
  }

  /** Nobody else moves an activity, takes the lock on its behalf, or gets between it and
      the main loop. */
  ghost predicate Leaves(s: Kao, s': Kao, t: Tid) {
    && (t in s.acts <==> t in s'.acts)
    && (t in s.acts ==> Stays(s.acts[t], s'.acts[t]))
    && (s.lock != Some(t) ==> s'.lock != Some(t))
    && (t in s.acts && !s.acts[t].pc.Window? && Top(s, t) ==> Top(s', t))
  }

  predicate CallsBack(e: Event) {
    e.CallApi? || e.Desert? || e.DispatchSource? || e.HearSignal? || e.RunNotify? || e.Destroy? || e.Return?
  }

  predicate Locks(e: Event) { e.Acquire? || e.OpenWindow? || e.SkipFlush? || e.Release? }

  predicate Cancels(e: Event) { e.BeginCancel? || e.LoopStep? || e.RemoveSource? }

  lemma BoundaryLeaves(s: Kao, e: Event, t: Tid)
    requires Enabled(s, e) && (e.t != t || e == Desert(t))
    requires CallsBack(e)
    ensures Leaves(s, Apply(s, e), t)
  {
  }

  lemma LockingLeaves(s: Kao, e: Event, t: Tid)
    requires Enabled(s, e) && e.t != t
    requires Locks(e)
    ensures Leaves(s, Apply(s, e), t)
  {
  }

  lemma LoopLeaves(s: Kao, u: Tid, ok: bool, t: Tid)
    requires u in s.acts && s.acts[u].pc.Loop? && s.lock == Some(u) && u != t
    ensures Leaves(s, DoLoop(s, u, ok), t)
  {
  }

  lemma BeginCancelLeaves(s: Kao, u: Tid, slot: Slot, after: After, t: Tid)
    requires u in s.acts && u != t
    ensures Leaves(s, DoBeginCancel(s, u, slot, after), t)
  {
  }

  lemma UnrefExternalLeaves(s: Kao, u: Tid, t: Tid)
    requires u in s.acts && u != t
    ensures Leaves(s, DoUnrefExternal(s, u), t)
  {
  }

  lemma CancellingLeaves(s: Kao, e: Event, t: Tid)
    requires Enabled(s, e) && e.t != t
    requires Cancels(e)
    ensures Leaves(s, Apply(s, e), t)
  {
    match e
    case LoopStep(u, ok) => LoopLeaves(s, u, ok, t);
    case BeginCancel(u, slot, after) => BeginCancelLeaves(s, u, slot, after, t);
    case _ =>
  }

  lemma CountingLeaves(s: Kao, e: Event, t: Tid)
    requires Enabled(s, e) && e.t != t
    requires !CallsBack(e) && !Locks(e) && !Cancels(e)
    ensures Leaves(s, Apply(s, e), t)
  {
    if e.UnrefExternal? {
      UnrefExternalLeaves(s, e.t, t);
    }
  }

  lemma OtherLeaves(s: Kao, e: Event, t: Tid)
    requires Enabled(s, e) && e.t != t && !CallsBack(e)
    ensures Leaves(s, Apply(s, e), t)
  {
    if Locks(e) {
      LockingLeaves(s, e, t);
    } else if Cancels(e) {
      CancellingLeaves(s, e, t);
    } else {
      CountingLeaves(s, e, t);
    }
  }

  lemma ApplyLeaves(s: Kao, e: Event, t: Tid)
    requires Enabled(s, e) && (e.t != t || e == Desert(t))
    ensures Leaves(s, Apply(s, e), t)
  {
    if CallsBack(e) {
      BoundaryLeaves(s, e, t);
    } else {
      OtherLeaves(s, e, t);
    }
  }

  lemma StepLeaves(s: Kao, e: Event, t: Tid)
    requires e.t != t || e == Desert(t)
    ensures Leaves(s, Step(s, e), t)
  {
    if Enabled(s, e) {
      ApplyLeaves(s, e, t);
    }
  }

  /** A run with the states it goes through. */
  ghost predicate Trail(owned: set<Slot>, es: seq<Event>, states: seq<Kao>) {
    && |states| == |es| + 1 && states[0] == Init(owned)
    && forall i {:trigger es[i]} | 0 <= i < |es| :: states[i + 1] == Step(states[i], es[i])
  }

  lemma {:induction false} TrailReaches(owned: set<Slot>, es: seq<Event>, states: seq<Kao>)
    requires Trail(owned, es, states)
    ensures states[|es|] == Reach(owned, es)
  {
    if es != [] {
      var n := |es| - 1;
      assert Trail(owned, es[..n], states[..|es|]) by {
        forall i | 0 <= i < n ensures states[i + 1] == Step(states[i], es[..n][i]) { assert es[i] == es[..n][i]; }
      }
      TrailReaches(owned, es[..n], states[..|es|]);
      assert es[n] == es[|es| - 1];
    }
  }

  lemma TrailGrows(owned: set<Slot>, es: seq<Event>, states: seq<Kao>, e: Event)
    requires Trail(owned, es, states)
    ensures Trail(owned, es + [e], states + [Step(states[|es|], e)])
  {
    var all := es + [e];
    var more := states + [Step(states[|es|], e)];
    forall i | 0 <= i < |all| ensures more[i + 1] == Step(more[i], all[i]) {
      if i < |es| { assert all[i] == es[i]; }
    }
  }

  lemma TrailApplies(owned: set<Slot>, es: seq<Event>, states: seq<Kao>, e: Event)
    requires Trail(owned, es, states) && Enabled(states[|es|], e)
    ensures Step(states[|es|], e) == Apply(states[|es|], e)
  {
    TrailReaches(owned, es, states);
    RunInv(owned, es);
    StepIsApply(states[|es|], e);
  }

  /** What every reached state says about an activity in it. */
  lemma TrailCovers(owned: set<Slot>, es: seq<Event>, states: seq<Kao>, t: Tid)
    requires Trail(owned, es, states) && t in states[|es|].acts
    ensures var s, a := states[|es|], states[|es|].acts[t];
            && !s.log.aborted
            && (a.role.Api? ==> s.ext > 0)
            && (a.role.Notify? || Starting(a.pc) ==> s.internal > 0)
            && (a.role.Api? || OnMain(a.role) ==> Alive(s))
            && (OnMain(a.role) && !a.pc.Window? ==> Top(s, t))
            && (a.role.Notify? ==> !a.doomed && (a.pc.Enter? || a.pc.Held?))
  {
    TrailReaches(owned, es, states);
    RunInv(owned, es);
    var s, a := states[|es|], states[|es|].acts[t];
    if a.role.Api? || OnMain(a.role) || a.role.Notify? || Starting(a.pc) {
      Covered(s, t);
    }
    assert PcOk(a);
  }

  lemma TrailShuts(owned: set<Slot>, es: seq<Event>, states: seq<Kao>, t: Tid)
    requires Trail(owned, es, states) && InScript(states[|es|], t)
    ensures var s := states[|es|];
            && s.ext == 0 && !s.log.aborted && s.owned == owned
            && (s.shutdownId != 0 ==> !s.inShutdown && s.log.shutdownRuns == 0)
            && (s.shutdownId == 0 ==> s.inShutdown)
  {
    TrailReaches(owned, es, states);
    RunInv(owned, es);
    OwnedStays(owned, es);
    var s := states[|es|];
    assert ActOk(s, t);
  }

  /** Shutdown is not scheduled before the last reference goes. */
  lemma TrailUnshut(owned: set<Slot>, es: seq<Event>, states: seq<Kao>)
    requires Trail(owned, es, states)
    ensures var s := states[|es|]; s.nextId > 0 && (s.ext > 0 ==> s.shutdownId == 0 && !s.inShutdown)
  {
    TrailReaches(owned, es, states);
    RunInv(owned, es);
    OneShutdown(owned, es);
  }

  /** A turn that takes an id out does not end in the delete callback. */
  lemma TrailTakes(owned: set<Slot>, es: seq<Event>, states: seq<Kao>, t: Tid)
    requires Trail(owned, es, states) && CanLoop(states[|es|], t)
    ensures Alive(states[|es|])
  {
    TrailReaches(owned, es, states);
    RunInv(owned, es);
    var s := states[|es|];
    assert PcOk(s.acts[t]);
    assert s.acts[t].role.Api? || OnMain(s.acts[t].role) || Starting(s.acts[t].pc);
    Covered(s, t);
  }

  /** The end of a start function: the transient reference passes on or is dropped. */
  lemma LoopCreates(s: Kao, t: Tid, ok: bool)
    requires CanLoop(s, t) && Starting(s.acts[t].pc) && s.acts[t].pc.slot !in s.slots
    ensures var s', pc := DoLoop(s, t, ok), s.acts[t].pc;
            var started := ok && (s.inShutdown ==> pc.after.kind.Call?);
            && AtHeld(s', t) && s'.acts[t] == s.acts[t].(pc := Held) && s'.inShutdown == s.inShutdown
            && (s.internal > 0 ==> s'.internal == s.internal - (if started then 0 else 1))
            && (if started then pc.slot in s'.slots && s'.slots[pc.slot] == s.nextId &&
                                s.nextId in s'.sources && s'.sources[s.nextId].Live?
                else s'.slots == s.slots && s'.sources == s.sources)
  {
  }

  class KeepaliveObject {
    var refcountExternal: nat
    var refcountInternal: nat
    var inShutdown: bool
    var shutdownId: Sid
    var slots: map<Slot, Sid>

    /** The mutex, the activities and the sources; its copies of the fields are unused. */
    var world: Kao
    ghost var history: seq<Event>
    ghost var states: seq<Kao>
    const owned: set<Slot>

    function State(): Kao
      reads this
    {
      world.(ext := refcountExternal, internal := refcountInternal, inShutdown := inShutdown,
             shutdownId := shutdownId, slots := slots)
    }

    ghost predicate Followed()
      reads this
    {
      Trail(owned, history, states)
    }

    /** Where the steps taken lead. */
    ghost function Ahead(): Kao
      requires |states| > 0
      reads this
    {
      states[|states| - 1]
    }

    /** The fields are what the history of steps has made of them. */
    ghost predicate Valid()
      reads this
    {
      Followed() && State() == Ahead()
    }

    constructor (owned: set<Slot>)
      ensures Valid() && this.owned == owned && history == []
      ensures refcountExternal == 1 && refcountInternal == 0 && !inShutdown && slots == map[]
    {
      this.owned := owned;
      refcountExternal, refcountInternal := 1, 0;
      inShutdown, shutdownId := false, 0;
      slots := map[];
      world := Init(owned);
      history := [];
      states := [Init(owned)];
    }

    /** The fields now stand where this step leads. */
    ghost method Took(e: Event)
      requires Followed() && Enabled(Ahead(), e) && State() == Apply(Ahead(), e)
      modifies `history, `states
      ensures Valid() && history == old(history) + [e]
    {
      TrailApplies(owned, history, states, e);
      TrailGrows(owned, history, states, e);
      states := states + [Step(Ahead(), e)];
      history := history + [e];
    }

    /** `keepalive_object_lock`: comes back once the mutex is free. */
    method Lock(t: Tid)
      requires Valid() && CanAcquire(State(), t)
      modifies this
      ensures Valid() && history == old(history) + [Acquire(t)]
      ensures State() == DoAcquire(old(State()), t)
    {
      TrailCovers(owned, history, states, t);
      var pc := world.acts[t].pc;
      var next := if pc.Relock? then Loop(pc.slot, pc.after) else Held;
      world := world.(lock := Some(t), acts := world.acts[t := world.acts[t].(pc := next)]);
      Took(Acquire(t));
    }

    /** `keepalive_object_unlock`: whether to delete is decided before the mutex is free;
        the delete callback itself is the `Destroy` step that follows. */
    method Unlock(t: Tid, next: Pc)
      requires t in world.acts
      modifies `world
      ensures State() == ObjectProtocol.Unlock(old(State()), t, next)
    {
      var destroy := refcountExternal == 0 && refcountInternal == 0;
      world := world.(lock := None, acts := world.acts[t := world.acts[t].(pc := next, doomed := destroy)]);
    }

    /** Leaves the object for good. */
    method UnlockLast(t: Tid)
      requires Valid() && CanRelease(State(), t)
      modifies this
      ensures Valid() && history == old(history) + [Release(t)]
      ensures State() == ObjectProtocol.Unlock(old(State()), t, Out)
    {
      TrailCovers(owned, history, states, t);
      Unlock(t, Out);
      Took(Release(t));
    }

    /** `keepalive_object_ref_external_locked` */
    method RefExternalLocked(t: Tid)
      requires Valid() && IsApi(State(), t)
      modifies this
      ensures Valid() && history == old(history) + [RefExternal(t)]
      ensures refcountExternal == old(refcountExternal) + 1 && refcountInternal == old(refcountInternal)
    {
      TrailCovers(owned, history, states, t);
      if refcountExternal <= 0 {
        assert false;  // the abort is out of reach
      }
      refcountExternal := refcountExternal + 1;
      Took(RefExternal(t));
    }

    /** `keepalive_object_ref_internal_locked` */
    method RefInternalLocked()
      modifies `refcountInternal, `world
      ensures State() == AddInternal(old(State()))
      ensures if refcountExternal <= 0 && old(refcountInternal) <= 0 then world.log.aborted
              else world == old(world) && refcountInternal == old(refcountInternal) + 1
    {
      if refcountExternal <= 0 && refcountInternal <= 0 {
        world := Aborted(world);
      } else {
        refcountInternal := refcountInternal + 1;
      }
    }

    /** `keepalive_object_unref_internal_locked` */
    method UnrefInternalLocked()
      modifies `refcountInternal, `world
      ensures State() == DropInternal(old(State()))
      ensures if old(refcountInternal) <= 0 then world.log.aborted
              else world == old(world) && refcountInternal == old(refcountInternal) - 1
    {
      if refcountInternal <= 0 {
        world := Aborted(world);
      } else {
        refcountInternal := refcountInternal - 1;
      }
    }

    /** `keepalive_object_shutdown_locked`; the timer start finds its own slot empty. */
    method ShutdownLocked()
      requires !world.log.aborted
      modifies `refcountInternal, `world, `shutdownId
      ensures State() == ScheduleShutdown(old(State()))
      ensures !inShutdown && old(shutdownId) == 0 && !world.log.aborted ==>
                shutdownId == old(world.nextId) && refcountInternal == old(refcountInternal) + 1
      ensures inShutdown || old(shutdownId) != 0 ==> refcountInternal == old(refcountInternal) && world == old(world)
    {
      if !inShutdown && shutdownId == 0 {
        RefInternalLocked();
        if !world.log.aborted {
          shutdownId := world.nextId;
          world := world.(shutdownSrc := world.nextId, sources := world.sources[world.nextId := Live],
                          nextId := world.nextId + 1);
        }
      }
    }

    /** `keepalive_object_unref_external_locked`: shutdown is scheduled before the last
        reference goes. */
    method UnrefExternalLocked(t: Tid)
      requires Valid() && IsApi(State(), t)
      modifies this
      ensures Valid() && history == old(history) + [UnrefExternal(t)]
      ensures refcountExternal == old(refcountExternal) - 1
      ensures refcountExternal == 0 ==> shutdownId != 0 && refcountInternal == old(refcountInternal) + 1
      ensures refcountExternal > 0 ==> refcountInternal == old(refcountInternal)
    {
      TrailCovers(owned, history, states, t);
      TrailUnshut(owned, history, states);
      if refcountExternal <= 0 {
        assert false;  // the abort is out of reach
      }
      if refcountExternal == 1 {
        ShutdownLocked();
      }
      refcountExternal := refcountExternal - 1;
      world := world.(acts := world.acts[t := world.acts[t].(role := Leaving)]);
      Took(UnrefExternal(t));
    }

    /** `keepalive_object_unref_internal_cb`, the destroy notification. */
    method UnrefInternalCb(t: Tid)
      requires Valid() && CanAcquire(State(), t) && world.acts[t].role.Notify?
      modifies this
      ensures Valid() && history == old(history) + [Acquire(t), UnrefInternal(t), Release(t)]
      ensures refcountInternal == old(refcountInternal) - 1
      ensures world.sources == old(world.sources) - {old(world.acts[t].role.id)}
    {
      TrailCovers(owned, history, states, t);
      Lock(t);
      DropSource(t);
      UnlockLast(t);
      assert history == old(history) + [Acquire(t), UnrefInternal(t), Release(t)];
    }

    method DropSource(t: Tid)
      requires Valid() && CanUnrefInternal(State(), t)
      modifies this
      ensures Valid() && history == old(history) + [UnrefInternal(t)]
      ensures State() == DoUnrefInternal(old(State()), t) && refcountInternal == old(refcountInternal) - 1
      ensures AtHeld(State(), t) && world.acts[t].role.Notified?
      ensures world.sources == old(world.sources) - {old(world.acts[t].role.id)}
    {
      TrailCovers(owned, history, states, t);
      var id := world.acts[t].role.id;
      UnrefInternalLocked();
      world := world.(acts := world.acts[t := world.acts[t].(role := Notified)], sources := world.sources - {id});
      Took(UnrefInternal(t));
    }

    /** Another activity takes a step. */
    method OtherStep(e: Event)
      requires Valid()
      modifies this
      ensures Valid() && history == old(history) + [e]
      ensures State() == Step(old(State()), e)
    {
      TrailGrows(owned, history, states, e);
      world := Step(State(), e);
      refcountExternal, refcountInternal := world.ext, world.internal;
      inShutdown, shutdownId, slots := world.inShutdown, world.shutdownId, world.slots;
      states := states + [Step(Ahead(), e)];
      history := history + [e];
    }

    /** Other activities run while this one does not hold the mutex. */
    method Others(es: seq<Event>, t: Tid)
      requires Valid() && Foreign(es, t)
      modifies this
      ensures Valid() && history == old(history) + es && (es == [] ==> State() == old(State()))
      ensures Leaves(old(State()), State(), t)
    {
      var i := 0;
      while i < |es|
        invariant Valid() && 0 <= i <= |es| && history == old(history) + es[..i]
        invariant i == 0 ==> State() == old(State())
        invariant Leaves(old(State()), State(), t)
      {
        Other(es[i], t);
        assert es[..i + 1] == es[..i] + [es[i]];
        i := i + 1;
      }
      assert es[..i] == es;
    }

    method Other(e: Event, t: Tid)
      requires Valid() && (e.t != t || e == Desert(t))
      modifies this
      ensures Valid() && history == old(history) + [e]
      ensures Leaves(old(State()), State(), t)
    {
      StepLeaves(State(), e, t);
      OtherStep(e);
    }

    /** Turn of a cancel loop: empties the slot and drops the mutex. */
    method TakeOut(t: Tid)
      requires Valid() && CanLoop(State(), t) && world.acts[t].pc.slot in slots
      modifies this
      ensures Valid() && history == old(history) + [LoopStep(t, true)]
      ensures State() == DoLoop(old(State()), t, true)
    {
      TrailCovers(owned, history, states, t);
      var pc := world.acts[t].pc;
      var id := slots[pc.slot];
      slots := slots - {pc.slot};
      Unlock(t, Cancelling(pc.slot, id, pc.after));
      Took(LoopStep(t, true));
    }

    /** `g_source_remove` / `dbus_pending_call_unref` of the id taken out. */
    method RemoveTaken(t: Tid)
      requires Valid() && CanRemove(State(), t)
      modifies this
      ensures Valid() && history == old(history) + [RemoveSource(t)]
      ensures State() == DoRemove(old(State()), t)
    {
      TrailCovers(owned, history, states, t);
      var pc := world.acts[t].pc;
      world := world.(acts := world.acts[t := world.acts[t].(pc := Relock(pc.slot, pc.after))],
                      sources := Removed(world.sources, pc.id));
      Took(RemoveSource(t));
    }

    /** One turn: the slot is emptied, the mutex dropped, the id removed, and the mutex
        taken again after others have acted. */
    method Turn(t: Tid, slot: Slot, after: After, others: seq<Event>) returns (back: bool)
      requires Valid() && CanLoop(State(), t) && world.acts[t].pc == Loop(slot, after) && slot in slots
      requires Foreign(others, t)
      modifies this
      ensures Valid()
      ensures history == old(history) + [LoopStep(t, true), RemoveSource(t)] + others + (if back then [Acquire(t)] else [])
      ensures back ==> CanLoop(State(), t) && Stays(old(world.acts[t]), world.acts[t])
      ensures others == [] ==> back && slots == old(slots) - {slot}
    {
      TrailTakes(owned, history, states, t);
      TakeOut(t);
      RemoveTaken(t);
      assert history == old(history) + [LoopStep(t, true), RemoveSource(t)];
      Others(others, t);
      back := world.lock.None?;
      if back {
        TrailCovers(owned, history, states, t);
        Lock(t);
      }
    }

    /** The loop shared by the stop, cancel and start functions.  Each turn may find the
        slot refilled by what ran meanwhile; the loop is bounded by the unlocked
        stretches in which others still act. */
    method CancelLoop(t: Tid, slot: Slot, after: After, windows: seq<seq<Event>>) returns (back: bool)
      requires Valid() && CanLoop(State(), t) && world.acts[t].pc == Loop(slot, after)
      requires forall i | 0 <= i < |windows| :: Foreign(windows[i], t)
      modifies this
      ensures Valid() && old(history) <= history
      ensures back ==> CanLoop(State(), t) && Stays(old(world.acts[t]), world.acts[t]) && slot !in slots
      ensures slot !in old(slots) ==> back && State() == old(State()) && history == old(history)
    {
      var i := 0;
      back := true;
      while back && slot in slots
        invariant Valid() && old(history) <= history && 0 <= i
        invariant back ==> CanLoop(State(), t) && Stays(old(world.acts[t]), world.acts[t])
        invariant slot !in old(slots) ==> back && State() == old(State()) && history == old(history)
        decreases if i < |windows| then |windows| - i else 0, back && slot in slots
      {
        back := Turn(t, slot, after, if i < |windows| then windows[i] else []);
        i := i + 1;
      }
    }

    /** `keepalive_object_timer_stop_locked`, `..._ipc_cancel_locked` and
        `..._iowatch_stop_locked`: on return the slot is empty and the mutex held,
        whatever the others put into the slot meanwhile. */
    method StopLocked(t: Tid, slot: Slot, windows: seq<seq<Event>>) returns (back: bool)
      requires Valid() && CanBeginCancel(State(), t, slot, Stop)
      requires forall i | 0 <= i < |windows| :: Foreign(windows[i], t)
      modifies this
      ensures Valid() && old(history) <= history
      ensures back ==> AtHeld(State(), t) && world.acts[t] == old(world.acts[t]) && slot !in slots
      ensures slot !in old(slots) ==> back && slots == old(slots) && world.sources == old(world.sources)
    {
      BeginLoop(t, slot, Stop);
      back := CancelLoop(t, slot, Stop, windows);
      if back {
        EndLoop(t);
      }
    }

    /** `keepalive_object_timer_start_locked`, `..._iowatch_start_locked` and
        `..._ipc_start_locked_va`: the transient reference taken first passes to the new
        source, or is dropped again when none is created, and in shutdown no timer and no
        watch is. */
    method StartLocked(t: Tid, slot: Slot, kind: Kind, ok: bool, windows: seq<seq<Event>>)
        returns (back: bool, started: bool)
      requires Valid() && CanBeginCancel(State(), t, slot, Start(kind))
      requires forall i | 0 <= i < |windows| :: Foreign(windows[i], t)
      modifies this
      ensures Valid() && old(history) <= history
      ensures back ==> AtHeld(State(), t) && world.acts[t].role in {old(world.acts[t].role), Orphan}
      ensures back ==> (started <==> slot in slots) && (started <==> ok && (inShutdown ==> kind.Call?))
      ensures back && started ==> slots[slot] in world.sources && world.sources[slots[slot]].Live?
      ensures slot !in old(slots) ==> back && refcountInternal == old(refcountInternal) + (if started then 1 else 0)
    {
      BeginLoop(t, slot, Start(kind));
      back := CancelLoop(t, slot, Start(kind), windows);
      started := false;
      if back {
        started := EndStart(t, slot, kind, ok);
      }
    }

    /** The loop of a start function has found the slot empty. */
    method EndStart(t: Tid, slot: Slot, kind: Kind, ok: bool) returns (started: bool)
      requires Valid() && CanLoop(State(), t) && world.acts[t].pc == Loop(slot, Start(kind)) && slot !in slots
      modifies this
      ensures Valid() && history == old(history) + [LoopStep(t, ok)]
      ensures AtHeld(State(), t) && world.acts[t] == old(world.acts[t]).(pc := Held)
      ensures (started <==> slot in slots) && (started <==> ok && (inShutdown ==> kind.Call?))
      ensures started ==> slots[slot] in world.sources && world.sources[slots[slot]].Live?
      ensures refcountInternal == old(refcountInternal) - (if started then 0 else 1)
    {
      LoopCreates(State(), t, ok);
      started := ok && (inShutdown ==> kind.Call?);
      if started {
        Create(t, slot, kind);
      } else {
        GiveUp(t, slot, kind, ok);
      }
    }

    method BeginLoop(t: Tid, slot: Slot, after: After)
      requires Valid() && CanBeginCancel(State(), t, slot, after)
      modifies this
      ensures Valid() && history == old(history) + [BeginCancel(t, slot, after)]
      ensures State() == DoBeginCancel(old(State()), t, slot, after)
      ensures refcountInternal == old(refcountInternal) + (if after.Start? then 1 else 0)
    {
      TrailCovers(owned, history, states, t);
      var rest, budget := Popped(State(), t), Spent(State(), t);
      if after.Start? {
        RefInternalLocked();
      }
      world := world.(todo := rest, budget := budget, acts := world.acts[t := world.acts[t].(pc := Loop(slot, after))]);
      Took(BeginCancel(t, slot, after));
    }

    /** The loop of a stop function has found the slot empty. */
    method EndLoop(t: Tid)
      requires Valid() && CanLoop(State(), t) && world.acts[t].pc.slot !in slots && world.acts[t].pc.after.Stop?
      modifies this
      ensures Valid() && history == old(history) + [LoopStep(t, true)]
      ensures State() == DoLoop(old(State()), t, true)
    {
      TrailCovers(owned, history, states, t);
      world := world.(acts := world.acts[t := world.acts[t].(pc := Held)]);
      Took(LoopStep(t, true));
    }

    /** The loop of a start function has found the slot empty, and a source is created. */
    method Create(t: Tid, slot: Slot, kind: Kind)
      requires Valid() && CanLoop(State(), t) && world.acts[t].pc == Loop(slot, Start(kind)) && slot !in slots
      requires inShutdown ==> kind.Call?
      modifies this
      ensures Valid() && history == old(history) + [LoopStep(t, true)]
      ensures State() == DoLoop(old(State()), t, true) && old(refcountInternal) > 0
    {
      TrailCovers(owned, history, states, t);
      slots := slots[slot := world.nextId];
      var calls := AddCall(world.calls, kind, world.nextId);
      world := world.(acts := world.acts[t := world.acts[t].(pc := Held)], calls := calls,
                      sources := world.sources[world.nextId := Live], nextId := world.nextId + 1);
      Took(LoopStep(t, true));
    }

    /** The same with no source created: the transient reference is dropped. */
    method GiveUp(t: Tid, slot: Slot, kind: Kind, ok: bool)
      requires Valid() && CanLoop(State(), t) && world.acts[t].pc == Loop(slot, Start(kind)) && slot !in slots
      requires ok ==> inShutdown && !kind.Call?
      modifies this
      ensures Valid() && history == old(history) + [LoopStep(t, ok)]
      ensures State() == DoLoop(old(State()), t, ok) && old(refcountInternal) > 0
    {
      TrailCovers(owned, history, states, t);
      UnrefInternalLocked();
      world := world.(acts := world.acts[t := world.acts[t].(pc := Held)]);
      Took(LoopStep(t, ok));
    }

    /** `keepalive_object_ipc_finish_locked`: true, and the slot emptied, exactly when the
        slot still holds the call whose callback is running. */
    method IpcFinishLocked(t: Tid, slot: Slot) returns (finished: bool)
      requires Valid() && Free(State(), t) && world.acts[t].role.Dispatch?
      modifies this
      ensures Valid()
      ensures world == old(world)
      ensures finished <==> slot in old(slots) && old(slots[slot]) == old(world.acts[t].role.id)
      ensures slots == (if finished then old(slots) - {slot} else old(slots))
      ensures history == old(history) + (if finished then [ClearOwn(t, slot)] else [])
    {
      finished := false;
      if slot in slots && slots[slot] == world.acts[t].role.id {
        TrailCovers(owned, history, states, t);
        slots := slots - {slot};
        Took(ClearOwn(t, slot));
        finished := true;
      }
    }

    /** `keepalive_object_shutdown_cb`, up to the derived object's callback, which runs
        with the mutex held and empties every slot (`script`). */
    method ShutdownCb(t: Tid, script: seq<Op>, budget: nat)
      requires Valid() && CanAcquire(State(), t) && InScript(State(), t) && world.acts[t].pc.Enter?
      requires Covers(script, owned)
      requires forall i | 0 <= i < |script| :: script[i].CancelSlot? ==> script[i].slot in owned
      modifies this
      ensures Valid() && inShutdown && shutdownId == 0 && refcountExternal == 0 && AtHeld(State(), t)
      ensures old(shutdownId) != 0 ==>
                !old(inShutdown) && world.todo == script && world.log.shutdownRuns == 1
                && history == old(history) + [Acquire(t), BeginShutdown(t, script, budget)]
    {
      Lock(t);
      TrailShuts(owned, history, states, t);
      if shutdownId != 0 {
        shutdownId := 0;
        inShutdown := true;
        var log := world.log.(shutdownRuns := world.log.shutdownRuns + 1);
        world := world.(todo := script, budget := budget, log := log);
        Took(BeginShutdown(t, script, budget));
        assert history == old(history) + [Acquire(t), BeginShutdown(t, script, budget)];
      }
    }
  }
}
