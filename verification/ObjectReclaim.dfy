/** What reclamation rests on: no source is forgotten, the shutdown callback leaves nothing
    behind that will not end by itself, and whoever brings both counts to zero acts on it. */
module ObjectReclaim {
  import opened ObjectProtocol
  import opened ObjectSafety

  /** No live source is forgotten. */
  predicate Remembered(s: Kao) {
    && s.slots.Keys <= s.owned
    && (forall id | id in s.sources && s.sources[id].Live? && id != s.shutdownSrc :: Tracked(s, id))
  }

  /** An id is in one place at a time. */
  predicate OnePlace(s: Kao) {
    && (forall a, b | a in s.slots && b in s.slots && a != b :: s.slots[a] != s.slots[b])
    && (forall t, slot | t in s.acts && s.acts[t].pc.Cancelling? && slot in s.slots :: s.slots[slot] != s.acts[t].pc.id)
    && (forall t, u | t in s.acts && u in s.acts && t != u && s.acts[t].pc.Cancelling? && s.acts[u].pc.Cancelling? ::
          s.acts[t].pc.id != s.acts[u].pc.id)
  }

  /** The reply of a pending call that is still in a slot is yet to come, or being handled. */
  predicate Answered(s: Kao) {
    && (forall slot | slot in s.slots && s.slots[slot] in s.calls :: Answerable(s, s.slots[slot]))
    && (forall t | t in s.acts && s.acts[t].pc.Out? && s.acts[t].role.Dispatch? && s.acts[t].role.id in s.calls ::
          !InSlot(s, s.acts[t].role.id))
  }

  predicate Track(s: Kao) { Remembered(s) && OnePlace(s) && Answered(s) }

  predicate Answerable(s: Kao, id: Sid) {
    id in s.sources && (s.sources[id].Live? || s.sources[id].Dispatching?)
  }

  predicate Looping(pc: Pc) { pc.Loop? || pc.Cancelling? || pc.Relock? }

  predicate InLoop(pc: Pc, slot: Slot) { Looping(pc) && pc.slot == slot }

  /** The shutdown callback still has every filled slot before it, save those that hold a
      pending call begun before it; afterwards only such slots are left. */
  predicate Sweep(s: Kao) {
    && (forall t | t in s.acts && Looping(s.acts[t].pc) :: s.acts[t].pc.slot in s.owned)
    && (forall i | 0 <= i < |s.todo| :: s.todo[i].CancelSlot? ==> s.todo[i].slot in s.owned)
    && (s.inShutdown && !s.log.shutdownReturned ==> s.main != [] && s.main[0] in s.acts && InScript(s, s.main[0]))
    && (s.inShutdown && !s.log.shutdownReturned ==>
          forall slot | slot in s.slots ::
            CancelSlot(slot) in s.todo || InLoop(s.acts[s.main[0]].pc, slot) || s.slots[slot] in s.calls)
    && (s.log.shutdownReturned ==> forall slot | slot in s.slots :: s.slots[slot] in s.calls)
    && (forall t | t in s.acts && InScript(s, t) :: !Starting(s.acts[t].pc))
    && (forall t | t in s.acts && InScript(s, t) && !s.inShutdown ::
          s.main == [t] && (s.acts[t].pc.Enter? || s.acts[t].pc.Held?))
  }

  /** Whoever brought both counts to zero is still to act on it. */
  predicate ZeroInv(s: Kao) {
    s.ext == 0 && s.internal == 0 && s.log.deletes == 0 ==>
      s.lock.Some? || exists t | t in s.acts :: s.acts[t].doomed
  }

  predicate Clean(s: Kao) { Track(s) && Sweep(s) && ZeroInv(s) }

  // ----------------------------------------------------------- general steps

  lemma TrackedStays(s: Kao, s': Kao, id: Sid, t: Tid)
    requires Tracked(s, id) && s'.slots == s.slots && OnlyActChanges(s, s', t)
    requires t in s.acts && s.acts[t].pc.Cancelling? ==> t in s'.acts && s'.acts[t].pc == s.acts[t].pc
    ensures Tracked(s', id)
  {
    if slot :| slot in s.slots && s.slots[slot] == id {
      assert slot in s'.slots && s'.slots[slot] == id;
    } else {
      var u :| u in s.acts && s.acts[u].pc.Cancelling? && s.acts[u].pc.id == id;
      assert u in s'.acts && s'.acts[u].pc.Cancelling? && s'.acts[u].pc.id == id;
    }
  }

  /** A step that moves no id. */
  lemma TrackQuiet(s: Kao, s': Kao, t: Tid)
    requires Track(s) && OnlyActChanges(s, s', t)
    requires s'.slots == s.slots && s'.owned == s.owned && s'.calls == s.calls
    requires s'.shutdownSrc == s.shutdownSrc || s.shutdownSrc !in s.sources
    requires forall id | id in s'.sources && s'.sources[id].Live? && id != s'.shutdownSrc ::
               id in s.sources && (s.sources[id].Live? || Tracked(s, id))
    requires forall id | Answerable(s, id) && InSlot(s, id) && id in s.calls :: Answerable(s', id)
    requires t in s.acts && s.acts[t].pc.Cancelling? ==> t in s'.acts && s'.acts[t].pc == s.acts[t].pc
    requires t in s'.acts && s'.acts[t].pc.Cancelling? ==> t in s.acts && s'.acts[t].pc == s.acts[t].pc
    requires t in s'.acts && s'.acts[t].pc.Out? && s'.acts[t].role.Dispatch? && s'.acts[t].role.id in s.calls ==>
               !InSlot(s, s'.acts[t].role.id)
    ensures Track(s')
  {
    forall id | id in s'.sources && s'.sources[id].Live? && id != s'.shutdownSrc
      ensures Tracked(s', id)
    {
      TrackedStays(s, s', id, t);
    }
  }

  /** A step that leaves script and slots alone. */
  lemma SweepQuiet(s: Kao, s': Kao, t: Tid)
    requires Sweep(s) && OnlyActChanges(s, s', t)
    requires s'.slots == s.slots && s'.owned == s.owned && s'.calls == s.calls && s'.todo == s.todo
    requires s'.inShutdown == s.inShutdown && s'.log.shutdownReturned == s.log.shutdownReturned
    requires s'.shutdownSrc == s.shutdownSrc || !s.inShutdown
    requires s.inShutdown && !s.log.shutdownReturned ==> s'.main != [] && s'.main[0] == s.main[0]
    requires t in s'.acts && Looping(s'.acts[t].pc) ==> s'.acts[t].pc.slot in s.owned
    requires s.inShutdown && t in s.acts && InScript(s, t) ==>
               && t in s'.acts && InScript(s', t)
               && forall slot | InLoop(s.acts[t].pc, slot) && slot in s.slots :: InLoop(s'.acts[t].pc, slot)
    requires t in s'.acts && InScript(s', t) ==> !Starting(s'.acts[t].pc)
    requires !s.inShutdown ==> forall u | u in s'.acts && InScript(s', u) ::
               s'.main == [u] && (s'.acts[u].pc.Enter? || s'.acts[u].pc.Held?)
    ensures Sweep(s')
  {
  }

  lemma ZeroStays(s: Kao, s': Kao, t: Tid)
    requires ZeroInv(s) && OnlyActChanges(s, s', t)
    requires s'.ext == 0 && s'.internal == 0 && s'.log.deletes == 0 ==>
               s.ext == 0 && s.internal == 0 && s.log.deletes == 0
    requires s.lock.Some? ==> s'.lock.Some?
    requires t in s.acts && s.acts[t].doomed ==> t in s'.acts && s'.acts[t].doomed
    ensures ZeroInv(s')
  {
    if s.lock.None? && s'.ext == 0 && s'.internal == 0 && s'.log.deletes == 0 {
      var u :| u in s.acts && s.acts[u].doomed;
      assert u in s'.acts && s'.acts[u].doomed;
    }
  }

  // ------------------------------------------------------ event by event

  lemma CallApiClean(s: Kao, t: Tid)
    requires Clean(s) && CanCallApi(s, t)
    ensures Clean(DoCallApi(s, t))
  {
    var s' := DoCallApi(s, t);
    TrackQuiet(s, s', t);
    SweepQuiet(s, s', t);
    ZeroStays(s, s', t);
  }

  lemma DesertClean(s: Kao, t: Tid)
    requires Clean(s) && CanDesert(s, t)
    ensures Clean(DoDesert(s, t))
  {
    var s' := DoDesert(s, t);
    TrackQuiet(s, s', t);
    SweepQuiet(s, s', t);
    ZeroStays(s, s', t);
  }

  lemma DispatchClean(s: Kao, t: Tid, id: Sid)
    requires Clean(s) && StackInv(s) && ShutdownInv(s) && CanDispatch(s, t, id)
    requires id == s.shutdownSrc ==> id !in s.calls
    ensures Clean(DoDispatch(s, t, id))
  {
    var s' := DoDispatch(s, t, id);
    TrackQuiet(s, s', t);
    SweepQuiet(s, s', t);
    ZeroStays(s, s', t);
  }

  lemma HearClean(s: Kao, t: Tid)
    requires Clean(s) && CanHear(s, t)
    ensures Clean(DoHear(s, t))
  {
    var s' := DoHear(s, t);
    TrackQuiet(s, s', t);
    SweepQuiet(s, s', t);
    ZeroStays(s, s', t);
  }

  lemma NotifyClean(s: Kao, t: Tid, id: Sid)
    requires Clean(s) && CanNotify(s, t, id)
    ensures Clean(DoNotify(s, t, id))
  {
    var s' := DoNotify(s, t, id);
    TrackQuiet(s, s', t);
    SweepQuiet(s, s', t);
    ZeroStays(s, s', t);
  }

  lemma AcquireClean(s: Kao, t: Tid)
    requires Clean(s) && CanAcquire(s, t)
    ensures Clean(DoAcquire(s, t))
  {
    var s' := DoAcquire(s, t);
    TrackQuiet(s, s', t);
    SweepQuiet(s, s', t);
    ZeroStays(s, s', t);
  }

  lemma RefExternalClean(s: Kao, t: Tid)
    requires Clean(s) && s.ext > 0 && IsApi(s, t)
    ensures Clean(AddExternal(s))
  {
    var s' := AddExternal(s);
    TrackQuiet(s, s', t);
    SweepQuiet(s, s', t);
  }

  lemma UnrefExternalSources(s: Kao, t: Tid)
    requires t in s.acts
    ensures var s' := DoUnrefExternal(s, t);
            && s'.slots == s.slots && s'.owned == s.owned && s'.calls == s.calls && s'.log.deletes == s.log.deletes
            && s'.lock == s.lock && (s'.ext == 0 ==> s.ext == 0 || s'.internal > 0 || s'.shutdownSrc == s.shutdownSrc)
            && (s'.sources == s.sources || (s'.shutdownSrc == s.nextId && s'.sources == s.sources[s.nextId := Live]))
  {
  }

  lemma UnrefExternalClean(s: Kao, t: Tid)
    requires Clean(s) && IdInv(s) && PairInv(s) && ShutdownInv(s) && s.ext > 0 && IsApi(s, t)
    ensures Clean(DoUnrefExternal(s, t))
  {
    var s' := DoUnrefExternal(s, t);
    UnrefExternalFrame(s, t);
    UnrefExternalSources(s, t);
    TrackQuiet(s, s', t);
    SweepQuiet(s, s', t);
  }

  lemma UnrefInternalClean(s: Kao, t: Tid)
    requires Clean(s) && PairInv(s) && s.internal > 0 && CanUnrefInternal(s, t)
    ensures Clean(DoUnrefInternal(s, t))
  {
    var s' := DoUnrefInternal(s, t);
    TrackQuiet(s, s', t);
    SweepQuiet(s, s', t);
  }

  /** The shutdown callback takes its next instruction. */
  lemma ScriptStep(s: Kao, s': Kao, t: Tid)
    requires Sweep(s) && OnlyActChanges(s, s', t) && t in s.acts && InScript(s, t) && s.inShutdown && s.todo != []
    requires !Looping(s.acts[t].pc) && s.main != [] && s.main[0] == t
    requires s'.slots == s.slots && s'.owned == s.owned && s'.calls == s.calls && s'.todo == s.todo[1..]
    requires s'.inShutdown && s'.log == s.log && s'.shutdownSrc == s.shutdownSrc && s'.main == s.main
    requires t in s'.acts && InScript(s', t) && !Starting(s'.acts[t].pc)
    requires s.todo[0].CancelSlot? ==> InLoop(s'.acts[t].pc, s.todo[0].slot)
    requires Looping(s'.acts[t].pc) ==> s'.acts[t].pc.slot in s.owned
    ensures Sweep(s')
  {
    assert s.todo == [s.todo[0]] + s'.todo;
  }

  lemma BeginCancelClean(s: Kao, t: Tid, slot: Slot, after: After)
    requires Clean(s) && Alive(s) && FilterInv(s) && CanBeginCancel(s, t, slot, after)
    ensures Clean(DoBeginCancel(s, t, slot, after))
  {
    var s' := DoBeginCancel(s, t, slot, after);
    TrackQuiet(s, s', t);
    if InScript(s, t) {
      ScriptStep(s, s', t);
    } else {
      SweepQuiet(s, s', t);
    }
  }

  lemma LoopTakesTrack(s: Kao, t: Tid, ok: bool)
    requires Track(s) && CanLoop(s, t) && s.acts[t].pc.slot in s.slots
    ensures Track(DoLoop(s, t, ok))
  {
    var s' := DoLoop(s, t, ok);
    var slot := s.acts[t].pc.slot;
    forall id | id in s'.sources && s'.sources[id].Live? && id != s'.shutdownSrc
      ensures Tracked(s', id)
    {
      if id == s.slots[slot] {
        assert s'.acts[t].pc.Cancelling? && s'.acts[t].pc.id == id;
      } else if other :| other in s.slots && s.slots[other] == id {
        assert other in s'.slots && s'.slots[other] == id;
      } else {
        var u :| u in s.acts && s.acts[u].pc.Cancelling? && s.acts[u].pc.id == id;
        assert u in s'.acts && s'.acts[u].pc.Cancelling? && s'.acts[u].pc.id == id;
      }
    }
  }

  lemma LoopTakesSweep(s: Kao, t: Tid, ok: bool)
    requires Sweep(s) && CanLoop(s, t) && s.acts[t].pc.slot in s.slots
    ensures Sweep(DoLoop(s, t, ok))
  {
  }

  lemma LoopTakesClean(s: Kao, t: Tid, ok: bool)
    requires Clean(s) && CanLoop(s, t) && s.acts[t].pc.slot in s.slots
    ensures Clean(DoLoop(s, t, ok))
  {
    LoopTakesTrack(s, t, ok);
    LoopTakesSweep(s, t, ok);
    assert DoLoop(s, t, ok).acts[t].doomed == (s.ext == 0 && s.internal == 0);
  }

  lemma LoopStopsClean(s: Kao, t: Tid, ok: bool)
    requires Clean(s) && CanLoop(s, t) && s.acts[t].pc.slot !in s.slots && s.acts[t].pc.after.Stop?
    ensures Clean(DoLoop(s, t, ok))
  {
    var s' := DoLoop(s, t, ok);
    TrackQuiet(s, s', t);
    SweepQuiet(s, s', t);
    ZeroStays(s, s', t);
  }

  /** The end of a start function that creates nothing. */
  lemma GivesUpIs(s: Kao, t: Tid, ok: bool)
    requires CanLoop(s, t) && s.acts[t].pc.slot !in s.slots && s.acts[t].pc.after.Start?
    requires DoLoop(s, t, ok).nextId == s.nextId
    ensures var s' := DoLoop(s, t, ok);
            && s'.acts == s.acts[t := s.acts[t].(pc := Held)] && s'.lock == s.lock
            && s'.slots == s.slots && s'.sources == s.sources && s'.calls == s.calls && s'.owned == s.owned
            && s'.shutdownId == s.shutdownId
  {
  }

  lemma GivesUpClean(s: Kao, t: Tid, ok: bool)
    requires Clean(s) && CanLoop(s, t) && s.acts[t].pc.slot !in s.slots && s.acts[t].pc.after.Start?
    requires DoLoop(s, t, ok).nextId == s.nextId
    ensures Clean(DoLoop(s, t, ok))
  {
    GivesUpIs(s, t, ok);
    HeldClean(s, DoLoop(s, t, ok), t);
  }

  lemma HeldClean(s: Kao, s': Kao, t: Tid)
    requires Clean(s) && CanLoop(s, t) && SameScript(s, s') && Starting(s.acts[t].pc)
    requires s'.acts == s.acts[t := s.acts[t].(pc := Held)] && s'.lock == s.lock
    requires s'.slots == s.slots && s'.sources == s.sources && s'.calls == s.calls && s'.owned == s.owned
    ensures Clean(s')
  {
    TrackQuiet(s, s', t);
    SweepQuiet(s, s', t);
  }

  /** The end of a start function that creates a source. */
  predicate Created(s: Kao, s': Kao, t: Tid, slot: Slot)
    requires t in s.acts
  {
    && s'.acts == s.acts[t := s.acts[t].(pc := Held)]
    && s'.slots == s.slots[slot := s.nextId] && s'.sources == s.sources[s.nextId := Live]
    && (s'.calls == s.calls || s'.calls == s.calls + {s.nextId})
    && s'.owned == s.owned && s'.shutdownSrc == s.shutdownSrc
  }

  lemma CreatesIs(s: Kao, t: Tid, ok: bool)
    requires t in s.acts && s.acts[t].pc.Loop? && s.acts[t].pc.slot !in s.slots && DoLoop(s, t, ok).nextId != s.nextId
    ensures Created(s, DoLoop(s, t, ok), t, s.acts[t].pc.slot)
  {
  }

  lemma CreatesRemembered(s: Kao, s': Kao, t: Tid, slot: Slot)
    requires Remembered(s) && t in s.acts && s.acts[t].pc.Loop?
    requires slot !in s.slots && slot in s.owned && Created(s, s', t, slot)
    ensures Remembered(s')
  {
    forall id | id in s'.sources && s'.sources[id].Live? && id != s'.shutdownSrc
      ensures Tracked(s', id)
    {
      if id == s.nextId {
        assert slot in s'.slots && s'.slots[slot] == id;
      } else if other :| other in s.slots && s.slots[other] == id {
        assert other in s'.slots && s'.slots[other] == id;
      } else {
        var u :| u in s.acts && s.acts[u].pc.Cancelling? && s.acts[u].pc.id == id;
        assert u in s'.acts && s'.acts[u].pc.Cancelling? && s'.acts[u].pc.id == id;
      }
    }
  }

  lemma CreatesOnePlace(s: Kao, s': Kao, t: Tid, slot: Slot)
    requires OnePlace(s) && IdInv(s) && t in s.acts && s.acts[t].pc.Loop? && slot !in s.slots && Created(s, s', t, slot)
    ensures OnePlace(s')
  {
  }

  lemma CreatesAnswered(s: Kao, s': Kao, t: Tid, slot: Slot)
    requires Answered(s) && t in s.acts && s.acts[t].pc.Loop? && slot !in s.slots && Created(s, s', t, slot)
    requires forall u | u in s.acts && s.acts[u].role.Dispatch? :: s.acts[u].role.id != s.nextId
    requires forall other | other in s.slots :: s.slots[other] != s.nextId
    ensures Answered(s')
  {
  }

  lemma CreatesTrack(s: Kao, s': Kao, t: Tid, slot: Slot)
    requires Track(s) && IdInv(s) && PairInv(s) && t in s.acts && s.acts[t].pc.Loop?
    requires slot !in s.slots && slot in s.owned && Created(s, s', t, slot)
    ensures Track(s')
  {
    CreatesRemembered(s, s', t, slot);
    CreatesOnePlace(s, s', t, slot);
    CreatesAnswered(s, s', t, slot);
  }

  /** What a start function creates in shutdown is a pending call. */
  lemma CreatesSweep(s: Kao, t: Tid, ok: bool)
    requires Sweep(s) && CanLoop(s, t) && s.acts[t].pc.slot !in s.slots && DoLoop(s, t, ok).nextId != s.nextId
    requires s.log.shutdownReturned ==> s.inShutdown
    requires s.shutdownSrc < s.nextId
    ensures Sweep(DoLoop(s, t, ok))
  {
    var s' := DoLoop(s, t, ok);
    assert s.inShutdown ==> s.nextId in s'.calls;
  }

  lemma CreatesClean(s: Kao, t: Tid, ok: bool)
    requires Clean(s) && Shape(s) && Life(s) && CanLoop(s, t)
    requires s.acts[t].pc.slot !in s.slots && DoLoop(s, t, ok).nextId != s.nextId
    ensures Clean(DoLoop(s, t, ok))
  {
    CreatesIs(s, t, ok);
    CreatesTrack(s, DoLoop(s, t, ok), t, s.acts[t].pc.slot);
    CreatesSweep(s, t, ok);
    ZeroStays(s, DoLoop(s, t, ok), t);
  }

  lemma RemoveTrack(s: Kao, t: Tid)
    requires Track(s) && CanRemove(s, t)
    ensures Track(DoRemove(s, t))
  {
    var s' := DoRemove(s, t);
    forall id | id in s'.sources && s'.sources[id].Live? && id != s'.shutdownSrc
      ensures Tracked(s', id)
    {
      assert id != s.acts[t].pc.id;
      if other :| other in s.slots && s.slots[other] == id {
        assert other in s'.slots && s'.slots[other] == id;
      } else {
        var u :| u in s.acts && s.acts[u].pc.Cancelling? && s.acts[u].pc.id == id;
        assert u in s'.acts && s'.acts[u].pc.Cancelling? && s'.acts[u].pc.id == id;
      }
    }
  }

  lemma RemoveClean(s: Kao, t: Tid)
    requires Clean(s) && CanRemove(s, t)
    ensures Clean(DoRemove(s, t))
  {
    var s' := DoRemove(s, t);
    RemoveTrack(s, t);
    SweepQuiet(s, s', t);
    ZeroStays(s, s', t);
  }

  lemma OpenWindowClean(s: Kao, t: Tid)
    requires Clean(s) && Alive(s) && FilterInv(s) && CanOpenWindow(s, t)
    ensures Clean(DoOpenWindow(s, t))
  {
    var s' := DoOpenWindow(s, t);
    TrackQuiet(s, s', t);
    if InScript(s, t) {
      ScriptStep(s, s', t);
    } else {
      SweepQuiet(s, s', t);
    }
  }

  lemma ScriptClean(s: Kao, s': Kao, t: Tid)
    requires Clean(s) && FilterInv(s) && (Scripted(s, t, FlushBus) || Scripted(s, t, DropFilter))
    requires s' == s.(todo := Popped(s, t), filter := s'.filter)
    ensures Clean(s')
  {
    TrackQuiet(s, s', t);
    ScriptStep(s, s', t);
  }

  lemma InstallFilterClean(s: Kao, t: Tid)
    requires Clean(s) && CanInstallFilter(s, t)
    ensures Clean(s.(filter := true))
  {
    var s' := s.(filter := true);
    TrackQuiet(s, s', t);
    SweepQuiet(s, s', t);
  }

  lemma ClearOwnTrack(s: Kao, t: Tid, slot: Slot)
    requires Track(s) && PairInv(s) && CanClearOwn(s, t, slot)
    ensures Track(s.(slots := s.slots - {slot}))
  {
    var s' := s.(slots := s.slots - {slot});
    forall id | id in s'.sources && s'.sources[id].Live? && id != s'.shutdownSrc
      ensures Tracked(s', id)
    {
      assert id != s.slots[slot];
      if other :| other in s.slots && s.slots[other] == id {
        assert other in s'.slots && s'.slots[other] == id;
      } else {
        var u :| u in s.acts && s.acts[u].pc.Cancelling? && s.acts[u].pc.id == id;
        assert u in s'.acts && s'.acts[u].pc.Cancelling? && s'.acts[u].pc.id == id;
      }
    }
  }

  lemma ClearOwnClean(s: Kao, t: Tid, slot: Slot)
    requires Clean(s) && PairInv(s) && CanClearOwn(s, t, slot)
    ensures Clean(s.(slots := s.slots - {slot}))
  {
    ClearOwnTrack(s, t, slot);
    ZeroStays(s, s.(slots := s.slots - {slot}), t);
  }

  lemma BeginShutdownClean(s: Kao, t: Tid, script: seq<Op>, budget: nat)
    requires Clean(s) && ShutdownInv(s) && CanBeginShutdown(s, t, script)
    ensures Clean(DoBeginShutdown(s, script, budget))
  {
    var s' := DoBeginShutdown(s, script, budget);
    TrackQuiet(s, s', t);
    ZeroStays(s, s', t);
  }

  lemma ReleaseClean(s: Kao, t: Tid)
    requires Clean(s) && ShutdownInv(s) && PairInv(s) && CanRelease(s, t)
    ensures Clean(Unlock(s, t, Out))
  {
    var s' := Unlock(s, t, Out);
    assert s'.acts[t].doomed == (s.ext == 0 && s.internal == 0);
    TrackQuiet(s, s', t);
    SweepQuiet(s, s', t);
  }

  lemma DestroyClean(s: Kao, t: Tid)
    requires Clean(s) && CanDestroy(s, t)
    ensures Clean(DoDestroy(s, t))
  {
    var s' := DoDestroy(s, t);
    TrackQuiet(s, s', t);
    SweepQuiet(s, s', t);
  }

  lemma ReturnOtherClean(s: Kao, t: Tid, keep: bool)
    requires Clean(s) && PcInv(s) && CanReturn(s, t, keep) && !OnMain(s.acts[t].role)
    ensures Clean(DoReturn(s, t, keep))
  {
    var s' := DoReturn(s, t, keep);
    TrackQuiet(s, s', t);
    SweepQuiet(s, s', t);
    ZeroStays(s, s', t);
  }

  lemma ReturnCallbackTrack(s: Kao, t: Tid, keep: bool)
    requires Track(s) && Shape(s)
    requires CanReturn(s, t, keep) && OnMain(s.acts[t].role) && !InScript(s, t)
    ensures Track(DoReturn(s, t, keep))
  {
    TrackQuiet(s, DoReturn(s, t, keep), t);
  }

  lemma ReturnCallbackSweep(s: Kao, t: Tid, keep: bool)
    requires Sweep(s) && StackInv(s) && FilterInv(s)
    requires CanReturn(s, t, keep) && OnMain(s.acts[t].role) && !InScript(s, t)
    ensures Sweep(DoReturn(s, t, keep))
  {
    SweepQuiet(s, DoReturn(s, t, keep), t);
  }

  lemma ReturnCallbackClean(s: Kao, t: Tid, keep: bool)
    requires Clean(s) && Shape(s) && StackInv(s) && FilterInv(s)
    requires CanReturn(s, t, keep) && OnMain(s.acts[t].role) && !InScript(s, t)
    ensures Clean(DoReturn(s, t, keep))
  {
    ReturnCallbackTrack(s, t, keep);
    ReturnCallbackSweep(s, t, keep);
    ZeroStays(s, DoReturn(s, t, keep), t);
  }

  lemma ReturnScriptTrack(s: Kao, t: Tid)
    requires Track(s) && Core(s) && CanReturn(s, t, false) && InScript(s, t)
    ensures Track(DoReturn(s, t, false))
  {
    TrackQuiet(s, DoReturn(s, t, false), t);
  }

  lemma ReturnScriptSweep(s: Kao, t: Tid)
    requires Sweep(s) && Inv(s) && CanReturn(s, t, false) && InScript(s, t)
    ensures Sweep(DoReturn(s, t, false))
  {
    ScriptAlone(s, t);
  }

  lemma ReturnScriptClean(s: Kao, t: Tid)
    requires Clean(s) && Inv(s) && CanReturn(s, t, false) && InScript(s, t)
    ensures Clean(DoReturn(s, t, false))
  {
    ReturnScriptTrack(s, t);
    ReturnScriptSweep(s, t);
    ZeroStays(s, DoReturn(s, t, false), t);
  }

  lemma ReturnClean(s: Kao, t: Tid, keep: bool)
    requires Clean(s) && Inv(s) && CanReturn(s, t, keep)
    ensures Clean(DoReturn(s, t, keep))
  {
    if InScript(s, t) {
      ReturnScriptClean(s, t);
    } else if OnMain(s.acts[t].role) {
      ReturnCallbackClean(s, t, keep);
    } else {
      ReturnOtherClean(s, t, keep);
    }
  }

  lemma BoundaryClean(s: Kao, e: Event)
    requires Inv(s) && Clean(s) && Enabled(s, e)
    requires e.CallApi? || e.Desert? || e.DispatchSource? || e.HearSignal? || e.RunNotify? || e.Destroy? || e.Return?
    ensures Clean(Apply(s, e))
  {
    match e
    case CallApi(t) => CallApiClean(s, t);
    case Desert(t) => DesertClean(s, t);
    case DispatchSource(t, id) => DispatchClean(s, t, id);
    case HearSignal(t) => HearClean(s, t);
    case RunNotify(t, id) => NotifyClean(s, t, id);
    case Destroy(t) => DestroyClean(s, t);
    case Return(t, keep) => ReturnClean(s, t, keep);
  }

  lemma UnrefsClean(s: Kao, t: Tid)
    requires Inv(s) && Clean(s) && IsApi(s, t)
    ensures Clean(DoUnrefExternal(s, t))
  {
    Covered(s, t);
    UnrefExternalClean(s, t);
  }

  lemma CountingClean(s: Kao, e: Event)
    requires Inv(s) && Clean(s) && Enabled(s, e)
    requires e.RefExternal? || e.UnrefExternal? || e.UnrefInternal? || e.ClearOwn?
    ensures Clean(Apply(s, e))
  {
    match e
    case RefExternal(t) => Covered(s, t); RefExternalClean(s, t);
    case UnrefExternal(t) => UnrefsClean(s, t);
    case UnrefInternal(t) => Covered(s, t); UnrefInternalClean(s, t);
    case ClearOwn(t, slot) => ClearOwnClean(s, t, slot);
  }

  lemma ShutdownClean(s: Kao, e: Event)
    requires Inv(s) && Clean(s) && Enabled(s, e)
    requires e.BeginShutdown? || e.RemoveFilter? || e.InstallFilter? || e.SkipFlush?
    ensures Clean(Apply(s, e))
  {
    match e
    case BeginShutdown(t, script, budget) => BeginShutdownClean(s, t, script, budget);
    case InstallFilter(t) => InstallFilterClean(s, t);
    case RemoveFilter(t) => ScriptClean(s, s.(todo := Popped(s, t), filter := false), t);
    case SkipFlush(t) => ScriptClean(s, s.(todo := Popped(s, t)), t);
  }

  lemma LockingClean(s: Kao, e: Event)
    requires Inv(s) && Clean(s) && Enabled(s, e) && (e.Acquire? || e.OpenWindow? || e.Release?)
    ensures Clean(Apply(s, e))
  {
    match e
    case Acquire(t) => AcquireClean(s, t);
    case OpenWindow(t) => Covered(s, t); OpenWindowClean(s, t);
    case Release(t) => ReleaseClean(s, t);
  }

  lemma BeginsClean(s: Kao, t: Tid, slot: Slot, after: After)
    requires Inv(s) && Clean(s) && CanBeginCancel(s, t, slot, after)
    ensures Clean(DoBeginCancel(s, t, slot, after))
  {
    Covered(s, t);
    BeginCancelClean(s, t, slot, after);
  }

  lemma CancellingClean(s: Kao, e: Event)
    requires Inv(s) && Clean(s) && Enabled(s, e) && (e.BeginCancel? || e.LoopStep? || e.RemoveSource?)
    ensures Clean(Apply(s, e))
  {
    match e
    case BeginCancel(t, slot, after) => BeginsClean(s, t, slot, after);
    case LoopStep(t, ok) => LoopClean(s, t, ok);
    case RemoveSource(t) => RemoveClean(s, t);
  }

  lemma LoopClean(s: Kao, t: Tid, ok: bool)
    requires Inv(s) && Clean(s) && CanLoop(s, t)
    ensures Clean(DoLoop(s, t, ok))
  {
    if s.acts[t].pc.slot in s.slots {
      LoopTakesClean(s, t, ok);
    } else if s.acts[t].pc.after.Stop? {
      LoopStopsClean(s, t, ok);
    } else if DoLoop(s, t, ok).nextId == s.nextId {
      GivesUpClean(s, t, ok);
    } else {
      CreatesClean(s, t, ok);
    }
  }

  lemma ApplyKeepsClean(s: Kao, e: Event)
    requires Inv(s) && Clean(s) && Enabled(s, e)
    ensures Clean(Apply(s, e))
  {
    if e.CallApi? || e.Desert? || e.DispatchSource? || e.HearSignal? || e.RunNotify? || e.Destroy? || e.Return? {
      BoundaryClean(s, e);
    } else if e.Acquire? || e.OpenWindow? || e.Release? {
      LockingClean(s, e);
    } else if e.BeginCancel? || e.LoopStep? || e.RemoveSource? {
      CancellingClean(s, e);
    } else if e.BeginShutdown? || e.RemoveFilter? || e.InstallFilter? || e.SkipFlush? {
      ShutdownClean(s, e);
    } else {
      CountingClean(s, e);
    }
  }

  lemma StepIsApply(s: Kao, e: Event)
    requires Inv(s) && Enabled(s, e)
    ensures Step(s, e) == Apply(s, e)
  {
    if Touches(e) && s.log.deletes > 0 {
      Untouchable(s, e);
    }
  }

  lemma StepKeepsClean(s: Kao, e: Event)
    requires Inv(s) && Clean(s)
    ensures Clean(Step(s, e))
  {
    if Enabled(s, e) {
      StepIsApply(s, e);
      ApplyKeepsClean(s, e);
    }
  }
}
