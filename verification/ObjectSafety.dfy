/** Every interleaving keeps the object's reference counts exact, deletes it at most once
    and only when nothing can reach it any more, and shuts it down exactly once. */
module ObjectSafety {
  import opened ObjectProtocol

  // ------------------------------------------------- what one change does

  /** An activity that may still take the lock is covered by a reference. */
  lemma Covered(s: Kao, t: Tid)
    requires Inv(s) && t in s.acts
    requires s.acts[t].role.Api? || OnMain(s.acts[t].role) || s.acts[t].role.Notify? || Starting(s.acts[t].pc)
    ensures Alive(s)
    ensures s.acts[t].role.Api? ==> s.ext > 0
    ensures Starting(s.acts[t].pc) ==> s.internal > 0
    ensures s.acts[t].role.Dispatch? || s.acts[t].role.Notify? ==> |s.sources| > 0
    ensures s.acts[t].role.Heard? && s.ext == 0 ==> |s.sources| > 0
  {
    if s.acts[t].role.Api? {
      assert t in Borrowers(s);
    }
    if Starting(s.acts[t].pc) {
      assert t in Starters(s);
    }
    if s.acts[t].role.Dispatch? || s.acts[t].role.Notify? {
      assert s.acts[t].role.id in s.sources.Keys;
    }
    if s.acts[t].role.Heard? && s.ext == 0 {
      assert s.shutdownSrc in s.sources.Keys;
    }
  }

  ghost predicate OnlyActChanges(s: Kao, s': Kao, t: Tid) {
    forall u | u != t :: (u in s.acts <==> u in s'.acts) && (u in s.acts ==> s.acts[u] == s'.acts[u])
  }

  function Borrows(s: Kao, t: Tid): nat { if t in s.acts && s.acts[t].role.Api? then 1 else 0 }

  function Starts(s: Kao, t: Tid): nat { if t in s.acts && Starting(s.acts[t].pc) then 1 else 0 }

  lemma SetChange<T>(a: set<T>, b: set<T>, x: T)
    requires a - {x} == b - {x}
    ensures |b| == |a| - (if x in a then 1 else 0) + (if x in b then 1 else 0)
  {
    assert a == (if x in a then (a - {x}) + {x} else a - {x});
    assert b == (if x in b then (b - {x}) + {x} else b - {x});
  }

  /** The counts move by what the one changed activity contributes. */
  lemma CountsMove(s: Kao, s': Kao, t: Tid)
    requires OnlyActChanges(s, s', t)
    ensures |Borrowers(s')| == |Borrowers(s)| - Borrows(s, t) + Borrows(s', t)
    ensures |Starters(s')| == |Starters(s)| - Starts(s, t) + Starts(s', t)
  {
    assert Borrowers(s) - {t} == Borrowers(s') - {t};
    assert Starters(s) - {t} == Starters(s') - {t};
    SetChange(Borrowers(s), Borrowers(s'), t);
    SetChange(Starters(s), Starters(s'), t);
  }

  /** An activity moves on in its own code; it may take or drop the lock on the way. */
  lemma MoveShape(s: Kao, s': Kao, t: Tid, a: Act)
    requires Shape(s) && t in s.acts
    requires s'.acts == s.acts[t := a] && a.role == s.acts[t].role && PcOk(a)
    requires s'.sources == s.sources && s'.main == s.main && s'.nextId == s.nextId
    requires HoldsLock(a.pc) <==> s'.lock == Some(t)
    requires s'.lock == s.lock || (s.lock in {None, Some(t)} && s'.lock in {None, Some(t)})
    ensures Shape(s')
  {
  }

  lemma MoveLife(s: Kao, s': Kao, t: Tid, a: Act)
    requires Life(s) && Alive(s) && t in s.acts
    requires s'.acts == s.acts[t := a] && a.role == s.acts[t].role && !a.doomed
    requires s'.ext == s.ext && s'.internal == s.internal && s'.inShutdown == s.inShutdown
    requires s'.shutdownId == s.shutdownId && s'.shutdownSrc == s.shutdownSrc && s'.log == s.log
    requires s'.slots == s.slots && s'.calls == s.calls && s'.nextId == s.nextId && s'.sources == s.sources
    requires s'.todo == s.todo || (s.todo != [] && s'.todo == s.todo[1..])
    requires a.pc.Cancelling? ==> s.acts[t].pc == a.pc
    requires InScript(s, t) && a.pc.Out? ==> s.inShutdown && s.todo == []
    ensures Life(s')
  {
  }

  /** An activity that is no source's takes another role of that sort. */
  lemma RoleShape(s: Kao, s': Kao, t: Tid, a: Act)
    requires Shape(s) && t in s.acts && s.acts[t].role.Api?
    requires s'.acts == s.acts[t := a] && (a.role.Orphan? || a.role.Leaving?) && PcOk(a) && a.pc == s.acts[t].pc
    requires s'.sources == s.sources && s'.main == s.main && s'.nextId == s.nextId && s'.lock == s.lock
    ensures Shape(s')
  {
  }

  lemma AddSourceShape(s: Kao, s': Kao)
    requires Shape(s)
    requires s'.sources == s.sources[s.nextId := Live] && s'.nextId == s.nextId + 1
    requires s'.acts == s.acts && s'.main == s.main && s'.lock == s.lock
    ensures Shape(s')
    ensures |s'.sources| == |s.sources| + 1
  {
  }

  lemma RemoveIdShape(s: Kao, s': Kao, id: Sid)
    requires Shape(s)
    requires s'.sources == Removed(s.sources, id)
    requires s'.acts == s.acts && s'.main == s.main && s'.lock == s.lock && s'.nextId == s.nextId
    ensures Shape(s')
    ensures |s'.sources| == |s.sources|
  {
    assert s'.sources.Keys == s.sources.Keys;
  }

  // ------------------------------------------------------ event by event

  lemma CallApiShape(s: Kao, t: Tid)
    requires Shape(s) && CanCallApi(s, t)
    ensures Shape(DoCallApi(s, t))
  {
  }

  lemma CallApiKeeps(s: Kao, t: Tid)
    requires Core(s) && CanCallApi(s, t)
    ensures Core(DoCallApi(s, t))
  {
    CallApiShape(s, t);
    CountsMove(s, DoCallApi(s, t), t);
  }

  lemma DesertKeeps(s: Kao, t: Tid)
    requires Core(s) && CanDesert(s, t)
    ensures Core(DoDesert(s, t))
  {
    var s' := DoDesert(s, t);
    RoleShape(s, s', t, s'.acts[t]);
    CountsMove(s, s', t);
  }

  lemma HearShape(s: Kao, t: Tid)
    requires Shape(s) && CanHear(s, t)
    ensures Shape(DoHear(s, t))
  {
  }

  lemma HearKeeps(s: Kao, t: Tid)
    requires Core(s) && CanHear(s, t)
    ensures Core(DoHear(s, t))
  {
    HearShape(s, t);
    CountsMove(s, DoHear(s, t), t);
  }

  lemma FilterKeeps(s: Kao, t: Tid)
    requires Core(s) && (Scripted(s, t, DropFilter) || CanInstallFilter(s, t))
    ensures Core(s.(todo := Popped(s, t), filter := false)) && Core(s.(filter := true))
  {
    CountsMove(s, s.(todo := Popped(s, t), filter := false), t);
    CountsMove(s, s.(filter := true), t);
  }

  lemma DispatchShape(s: Kao, t: Tid, id: Sid)
    requires Shape(s) && CanDispatch(s, t, id)
    ensures Shape(DoDispatch(s, t, id))
  {
  }

  lemma DispatchKeeps(s: Kao, t: Tid, id: Sid)
    requires Core(s) && CanDispatch(s, t, id)
    ensures Core(DoDispatch(s, t, id))
  {
    DispatchShape(s, t, id);
    CountsMove(s, DoDispatch(s, t, id), t);
    assert DoDispatch(s, t, id).sources.Keys == s.sources.Keys;
  }

  lemma NotifyShape(s: Kao, t: Tid, id: Sid)
    requires Shape(s) && CanNotify(s, t, id)
    ensures Shape(DoNotify(s, t, id))
  {
  }

  lemma NotifyKeeps(s: Kao, t: Tid, id: Sid)
    requires Core(s) && CanNotify(s, t, id)
    ensures Core(DoNotify(s, t, id))
  {
    NotifyShape(s, t, id);
    CountsMove(s, DoNotify(s, t, id), t);
    assert DoNotify(s, t, id).sources.Keys == s.sources.Keys;
  }

  lemma AcquireKeeps(s: Kao, t: Tid)
    requires Core(s) && Alive(s) && CanAcquire(s, t)
    ensures Core(DoAcquire(s, t))
  {
    var s' := DoAcquire(s, t);
    CountsMove(s, s', t);
    MoveShape(s, s', t, s'.acts[t]);
    MoveLife(s, s', t, s'.acts[t]);
  }

  lemma RefExternalKeeps(s: Kao, t: Tid)
    requires Core(s) && s.ext > 0 && IsApi(s, t)
    ensures Core(AddExternal(s))
  {
    CountsMove(s, AddExternal(s), t);
  }

  lemma ScheduleShutdownShape(s: Kao, s': Kao)
    requires Shape(s) && Life(s) && s.ext == 1 && s' == ScheduleShutdown(s)
    ensures Shape(s') && s'.acts == s.acts && |s'.sources| == |s.sources| + 1 && s'.internal == s.internal + 1
  {
    AddSourceShape(s, s');
  }

  lemma UnrefExternalShape(s: Kao, t: Tid)
    requires Shape(s) && Life(s) && s.ext > 0 && IsApi(s, t)
    ensures Shape(DoUnrefExternal(s, t))
    ensures var s' := DoUnrefExternal(s, t); |s'.sources| - |s.sources| == s'.internal - s.internal && s'.ext == s.ext - 1
  {
    var s1 := if s.ext == 1 then ScheduleShutdown(s) else s;
    if s.ext == 1 {
      ScheduleShutdownShape(s, s1);
    }
    var s' := DoUnrefExternal(s, t);
    RoleShape(s1, s', t, s'.acts[t]);
  }

  lemma UnrefExternalLife(s: Kao, t: Tid)
    requires Shape(s) && Life(s) && s.ext > 0 && IsApi(s, t)
    ensures Life(DoUnrefExternal(s, t))
  {
  }

  lemma UnrefExternalKeeps(s: Kao, t: Tid)
    requires Core(s) && s.ext > 0 && IsApi(s, t)
    ensures Core(DoUnrefExternal(s, t))
  {
    UnrefExternalShape(s, t);
    UnrefExternalLife(s, t);
    CountsMove(s, DoUnrefExternal(s, t), t);
  }

  lemma UnrefInternalShape(s: Kao, t: Tid)
    requires Shape(s) && s.internal > 0 && CanUnrefInternal(s, t)
    ensures Shape(DoUnrefInternal(s, t))
  {
  }

  lemma UnrefInternalLife(s: Kao, t: Tid)
    requires Shape(s) && Life(s) && s.internal > 0 && CanUnrefInternal(s, t)
    ensures Life(DoUnrefInternal(s, t))
  {
  }

  lemma UnrefInternalKeeps(s: Kao, t: Tid)
    requires Core(s) && s.internal > 0 && CanUnrefInternal(s, t)
    ensures Core(DoUnrefInternal(s, t))
  {
    UnrefInternalShape(s, t);
    UnrefInternalLife(s, t);
    CountsMove(s, DoUnrefInternal(s, t), t);
    assert s.acts[t].role.id in s.sources;
    assert |DoUnrefInternal(s, t).sources| == |s.sources| - 1;
  }

  lemma BeginCancelLife(s: Kao, t: Tid, slot: Slot, after: After)
    requires Life(s) && Alive(s) && CanBeginCancel(s, t, slot, after)
    ensures Life(DoBeginCancel(s, t, slot, after))
  {
  }

  lemma BeginCancelKeeps(s: Kao, t: Tid, slot: Slot, after: After)
    requires Core(s) && Alive(s) && CanBeginCancel(s, t, slot, after)
    ensures Core(DoBeginCancel(s, t, slot, after))
  {
    var s' := DoBeginCancel(s, t, slot, after);
    BeginCancelLife(s, t, slot, after);
    CountsMove(s, s', t);
    MoveShape(s, s', t, s'.acts[t]);
  }

  lemma LoopTakesLife(s: Kao, t: Tid, ok: bool)
    requires Life(s) && Alive(s) && CanLoop(s, t) && s.acts[t].pc.slot in s.slots
    ensures Life(DoLoop(s, t, ok))
  {
  }

  lemma LoopTakesKeeps(s: Kao, t: Tid, ok: bool)
    requires Core(s) && Alive(s) && CanLoop(s, t) && s.acts[t].pc.slot in s.slots
    ensures Core(DoLoop(s, t, ok))
  {
    var s' := DoLoop(s, t, ok);
    LoopTakesLife(s, t, ok);
    CountsMove(s, s', t);
    MoveShape(s, s', t, s'.acts[t]);
  }

  lemma LoopStopsKeeps(s: Kao, t: Tid, ok: bool)
    requires Core(s) && CanLoop(s, t) && s.acts[t].pc.slot !in s.slots && s.acts[t].pc.after.Stop?
    ensures Core(DoLoop(s, t, ok))
  {
    var s' := DoLoop(s, t, ok);
    CountsMove(s, s', t);
    MoveShape(s, s', t, s'.acts[t]);
  }

  lemma LoopStartsShape(s: Kao, t: Tid, ok: bool)
    requires Core(s) && CanLoop(s, t) && s.acts[t].pc.slot !in s.slots && s.acts[t].pc.after.Start?
    ensures s.internal > 0
    ensures Shape(DoLoop(s, t, ok))
    ensures DoLoop(s, t, ok).nextId == s.nextId ==> DoLoop(s, t, ok).sources == s.sources
    ensures DoLoop(s, t, ok).nextId != s.nextId ==> |DoLoop(s, t, ok).sources| == |s.sources| + 1
  {
    var s' := DoLoop(s, t, ok);
    var s1 := SetPc(s, t, Held);
    assert t in Starters(s);
    MoveShape(s, s1, t, s'.acts[t]);
    if s'.nextId != s.nextId {
      AddSourceShape(s1, s');
    }
  }

  lemma LoopStartsLife(s: Kao, t: Tid, ok: bool)
    requires Core(s) && CanLoop(s, t) && s.acts[t].pc.slot !in s.slots && s.acts[t].pc.after.Start?
    requires s.internal > 0
    ensures Life(DoLoop(s, t, ok))
  {
  }

  lemma LoopStartsCount(s: Kao, t: Tid, ok: bool)
    requires CountInv(s) && t in s.acts && s.acts[t].pc.Loop? && s.nextId !in s.sources
    requires s.acts[t].pc.slot !in s.slots && s.acts[t].pc.after.Start? && s.internal > 0
    ensures CountInv(DoLoop(s, t, ok))
  {
    CountsMove(s, DoLoop(s, t, ok), t);
  }

  lemma LoopStartsKeeps(s: Kao, t: Tid, ok: bool)
    requires Core(s) && CanLoop(s, t) && s.acts[t].pc.slot !in s.slots && s.acts[t].pc.after.Start?
    ensures Core(DoLoop(s, t, ok))
  {
    LoopStartsShape(s, t, ok);
    LoopStartsLife(s, t, ok);
    LoopStartsCount(s, t, ok);
  }

  lemma RemoveShape(s: Kao, t: Tid)
    requires Shape(s) && CanRemove(s, t)
    ensures Shape(DoRemove(s, t)) && |DoRemove(s, t).sources| == |s.sources|
  {
    var s' := DoRemove(s, t);
    var s1 := s.(sources := s'.sources);
    RemoveIdShape(s, s1, s.acts[t].pc.id);
    MoveShape(s1, s', t, s'.acts[t]);
  }

  lemma RemoveLife(s: Kao, t: Tid)
    requires Life(s) && CanRemove(s, t)
    ensures Life(DoRemove(s, t))
  {
  }

  lemma RemoveKeeps(s: Kao, t: Tid)
    requires Core(s) && CanRemove(s, t)
    ensures Core(DoRemove(s, t))
  {
    RemoveShape(s, t);
    RemoveLife(s, t);
    CountsMove(s, DoRemove(s, t), t);
  }

  lemma OpenWindowKeeps(s: Kao, t: Tid)
    requires Core(s) && Alive(s) && CanOpenWindow(s, t)
    ensures Core(DoOpenWindow(s, t))
  {
    var s' := DoOpenWindow(s, t);
    CountsMove(s, s', t);
    MoveShape(s, s', t, s'.acts[t]);
    MoveLife(s, s', t, s'.acts[t]);
  }

  lemma SkipFlushKeeps(s: Kao, t: Tid)
    requires Core(s) && Scripted(s, t, FlushBus)
    ensures Core(s.(todo := Popped(s, t)))
  {
    CountsMove(s, s.(todo := Popped(s, t)), t);
  }

  lemma ClearOwnKeeps(s: Kao, t: Tid, slot: Slot)
    requires Core(s) && CanClearOwn(s, t, slot)
    ensures Core(s.(slots := s.slots - {slot}))
  {
    CountsMove(s, s.(slots := s.slots - {slot}), t);
  }

  lemma BeginShutdownKeeps(s: Kao, t: Tid, script: seq<Op>, budget: nat)
    requires Core(s) && CanBeginShutdown(s, t, script)
    ensures Core(DoBeginShutdown(s, script, budget))
  {
    CountsMove(s, DoBeginShutdown(s, script, budget), t);
  }

  lemma ReleaseLife(s: Kao, t: Tid)
    requires Shape(s) && Life(s) && CanRelease(s, t)
    ensures Life(Unlock(s, t, Out))
  {
  }

  lemma ReleaseKeeps(s: Kao, t: Tid)
    requires Core(s) && CanRelease(s, t) && (s.acts[t].role.Api? || OnMain(s.acts[t].role) ==> Alive(s))
    ensures Core(Unlock(s, t, Out))
  {
    var s' := Unlock(s, t, Out);
    ReleaseLife(s, t);
    CountsMove(s, s', t);
    MoveShape(s, s', t, s'.acts[t]);
  }

  lemma DestroyKeeps(s: Kao, t: Tid)
    requires Core(s) && CanDestroy(s, t)
    ensures Core(DoDestroy(s, t))
  {
    CountsMove(s, DoDestroy(s, t), t);
  }

  lemma ReturnDispatchShape(s: Kao, t: Tid, keep: bool)
    requires Shape(s) && CanReturn(s, t, keep) && s.acts[t].role.Dispatch?
    ensures Shape(DoReturn(s, t, keep))
    ensures DoReturn(s, t, keep).sources.Keys == s.sources.Keys
  {
  }

  lemma ReturnOtherShape(s: Kao, t: Tid, keep: bool)
    requires Shape(s) && CanReturn(s, t, keep) && !s.acts[t].role.Dispatch?
    ensures Shape(DoReturn(s, t, keep))
    ensures DoReturn(s, t, keep).sources == s.sources
  {
  }

  lemma ReturnDispatchLife(s: Kao, t: Tid, keep: bool)
    requires Core(s) && CanReturn(s, t, keep) && s.acts[t].role.Dispatch?
    ensures Life(DoReturn(s, t, keep))
  {
  }

  lemma ReturnOtherLife(s: Kao, t: Tid, keep: bool)
    requires Life(s) && CanReturn(s, t, keep) && !s.acts[t].role.Dispatch?
    ensures Life(DoReturn(s, t, keep))
  {
  }

  lemma ReturnKeeps(s: Kao, t: Tid, keep: bool)
    requires Core(s) && CanReturn(s, t, keep)
    ensures Core(DoReturn(s, t, keep))
  {
    if s.acts[t].role.Dispatch? {
      ReturnDispatchShape(s, t, keep);
      ReturnDispatchLife(s, t, keep);
    } else {
      ReturnOtherShape(s, t, keep);
      ReturnOtherLife(s, t, keep);
    }
    CountsMove(s, DoReturn(s, t, keep), t);
    assert |DoReturn(s, t, keep).sources| == |s.sources|;
  }

  lemma BoundaryKeeps(s: Kao, e: Event)
    requires Inv(s) && Enabled(s, e)
    requires e.CallApi? || e.Desert? || e.DispatchSource? || e.HearSignal? || e.RunNotify? || e.Destroy? || e.Return?
    ensures Core(Apply(s, e))
  {
    match e
    case CallApi(t) => CallApiKeeps(s, t);
    case Desert(t) => DesertKeeps(s, t);
    case HearSignal(t) => HearKeeps(s, t);
    case DispatchSource(t, id) => DispatchKeeps(s, t, id);
    case RunNotify(t, id) => NotifyKeeps(s, t, id);
    case Destroy(t) => DestroyKeeps(s, t);
    case Return(t, keep) => ReturnKeeps(s, t, keep);
  }

  lemma CountingKeeps(s: Kao, e: Event)
    requires Inv(s) && Enabled(s, e)
    requires e.RefExternal? || e.UnrefExternal? || e.UnrefInternal? || e.ClearOwn?
    ensures Core(Apply(s, e))
  {
    match e
    case RefExternal(t) => Covered(s, t); RefExternalKeeps(s, t);
    case UnrefExternal(t) => Covered(s, t); UnrefExternalKeeps(s, t);
    case UnrefInternal(t) => Covered(s, t); UnrefInternalKeeps(s, t);
    case ClearOwn(t, slot) => ClearOwnKeeps(s, t, slot);
  }

  lemma ShutdownKeeps(s: Kao, e: Event)
    requires Inv(s) && Enabled(s, e) && (e.BeginShutdown? || e.RemoveFilter? || e.InstallFilter?)
    ensures Core(Apply(s, e))
  {
    match e
    case BeginShutdown(t, script, budget) => BeginShutdownKeeps(s, t, script, budget);
    case RemoveFilter(t) => FilterKeeps(s, t);
    case InstallFilter(t) => FilterKeeps(s, t);
  }

  lemma LockingKeeps(s: Kao, e: Event)
    requires Inv(s) && Enabled(s, e) && (e.Acquire? || e.OpenWindow? || e.SkipFlush?)
    ensures Core(Apply(s, e))
  {
    match e
    case Acquire(t) => Covered(s, t); AcquireKeeps(s, t);
    case OpenWindow(t) => Covered(s, t); OpenWindowKeeps(s, t);
    case SkipFlush(t) => SkipFlushKeeps(s, t);
  }

  lemma UnlockingKeeps(s: Kao, t: Tid)
    requires Inv(s) && CanRelease(s, t)
    ensures Core(Unlock(s, t, Out))
  {
    if s.acts[t].role.Api? || OnMain(s.acts[t].role) {
      Covered(s, t);
    }
    ReleaseKeeps(s, t);
  }

  lemma LoopKeeps(s: Kao, t: Tid, ok: bool)
    requires Inv(s) && CanLoop(s, t)
    ensures Core(DoLoop(s, t, ok))
  {
    if s.acts[t].pc.slot in s.slots {
      Covered(s, t);
      LoopTakesKeeps(s, t, ok);
    } else if s.acts[t].pc.after.Stop? {
      LoopStopsKeeps(s, t, ok);
    } else {
      LoopStartsKeeps(s, t, ok);
    }
  }

  lemma CancellingKeeps(s: Kao, e: Event)
    requires Inv(s) && Enabled(s, e)
    requires e.BeginCancel? || e.LoopStep? || e.RemoveSource?
    ensures Core(Apply(s, e))
  {
    match e
    case BeginCancel(t, slot, after) => Covered(s, t); BeginCancelKeeps(s, t, slot, after);
    case LoopStep(t, ok) => LoopKeeps(s, t, ok);
    case RemoveSource(t) => RemoveKeeps(s, t);
  }

  lemma CoreKeeps(s: Kao, e: Event)
    requires Inv(s) && Enabled(s, e)
    ensures Core(Apply(s, e))
  {
    if e.CallApi? || e.Desert? || e.DispatchSource? || e.HearSignal? || e.RunNotify? || e.Destroy? || e.Return? {
      BoundaryKeeps(s, e);
    } else if e.Acquire? || e.OpenWindow? || e.SkipFlush? {
      LockingKeeps(s, e);
    } else if e.Release? {
      UnlockingKeeps(s, e.t);
    } else if e.BeginCancel? || e.LoopStep? || e.RemoveSource? {
      CancellingKeeps(s, e);
    } else if e.BeginShutdown? || e.RemoveFilter? || e.InstallFilter? {
      ShutdownKeeps(s, e);
    } else {
      CountingKeeps(s, e);
    }
  }

  // ------------------------------------------------- the main loop's stack

  /** A step that starts and ends no callback. */
  lemma StackMoves(s: Kao, s': Kao, t: Tid)
    requires StackInv(s) && OnlyActChanges(s, s', t) && s'.main == s.main
    requires t in s.acts && OnMain(s.acts[t].role) ==>
               t in s'.acts && OnMain(s'.acts[t].role) && (s.acts[t].pc.Window? ==> Top(s, t) || s'.acts[t].pc.Window?)
    requires t in s'.acts && OnMain(s'.acts[t].role) ==> t in s.acts && OnMain(s.acts[t].role)
    ensures StackInv(s')
  {
  }

  lemma StackPush(s: Kao, s': Kao, t: Tid)
    requires StackInv(s) && t !in s.acts && (s.main == [] || Flushing(s))
    requires s'.main == s.main + [t] && OnlyActChanges(s, s', t) && t in s'.acts && OnMain(s'.acts[t].role)
    ensures StackInv(s')
  {
  }

  lemma StackPop(s: Kao, s': Kao, t: Tid)
    requires StackInv(s) && Top(s, t)
    requires s'.main == Below(s.main) && s'.acts == s.acts - {t}
    ensures StackInv(s')
  {
  }

  // ---------------------------------------------------------- the filter

  lemma Later<T>(todo: seq<T>, x: T)
    requires x in todo && todo[0] != x
    ensures x in todo[1..]
  {
    assert todo == [todo[0]] + todo[1..];
  }

  /** When the shutdown callback returns it is the only callback there is. */
  lemma ScriptAlone(s: Kao, t: Tid)
    requires Inv(s) && t in s.acts && InScript(s, t) && Top(s, t)
    ensures s.main == [t] && forall u | u in s.acts && OnMain(s.acts[u].role) :: u == t
  {
    assert s.main[0] == t;
  }

  predicate Around(s: Kao) { StackInv(s) && FilterInv(s) }

  /** A step that starts and ends no callback and leaves script and filter alone. */
  lemma AroundMoves(s: Kao, s': Kao, t: Tid)
    requires Around(s) && t in s.acts && s'.main == s.main && OnlyActChanges(s, s', t)
    requires t in s'.acts && (s.acts[t].pc.Window? ==> OnMain(s.acts[t].role) ==> Top(s, t))
    requires s'.acts[t].role == s.acts[t].role || (!OnMain(s.acts[t].role) && !OnMain(s'.acts[t].role))
    requires s'.inShutdown == s.inShutdown && s'.filter == s.filter && s'.log.shutdownReturned == s.log.shutdownReturned
    requires s'.todo == s.todo || (s.todo != [] && s'.todo == s.todo[1..] && s.todo[0] != DropFilter)
    requires s'.shutdownSrc == s.shutdownSrc
             || forall u | u in s.acts && s.acts[u].role.Dispatch? :: s.acts[u].role.id != s'.shutdownSrc
    ensures Around(s')
  {
    StackMoves(s, s', t);
    if s.inShutdown && s.filter && s'.todo != s.todo { Later(s.todo, DropFilter); }
  }

  lemma StartsAround(s: Kao, e: Event)
    requires Around(s) && Enabled(s, e) && (e.CallApi? || e.RunNotify?)
    ensures Around(Apply(s, e))
  {
    StackMoves(s, Apply(s, e), e.t);
  }

  lemma DispatchAround(s: Kao, t: Tid, id: Sid)
    requires Around(s) && IdInv(s) && CanDispatch(s, t, id)
    ensures Around(DoDispatch(s, t, id))
  {
    StackPush(s, DoDispatch(s, t, id), t);
  }

  lemma HearAround(s: Kao, t: Tid)
    requires Around(s) && CanHear(s, t)
    ensures Around(DoHear(s, t))
  {
    StackPush(s, DoHear(s, t), t);
  }

  lemma ReturnScriptAround(s: Kao, t: Tid)
    requires Inv(s) && CanReturn(s, t, false) && InScript(s, t)
    ensures Around(DoReturn(s, t, false))
  {
    ScriptAlone(s, t);
    StackPop(s, DoReturn(s, t, false), t);
  }

  lemma ReturnCallbackAround(s: Kao, t: Tid, keep: bool)
    requires Around(s) && CanReturn(s, t, keep) && OnMain(s.acts[t].role) && !InScript(s, t)
    ensures Around(DoReturn(s, t, keep))
  {
    var s' := DoReturn(s, t, keep);
    StackPop(s, s', t);
    forall u | u in s'.acts && InScript(s', u)
      ensures s'.main != [] && s'.main[0] == u
    {
      assert s.main[0] == u && u != t;
    }
  }

  lemma ReturnOtherAround(s: Kao, t: Tid, keep: bool)
    requires Around(s) && CanReturn(s, t, keep) && !OnMain(s.acts[t].role)
    ensures Around(DoReturn(s, t, keep))
  {
    StackMoves(s, DoReturn(s, t, keep), t);
  }

  lemma ReturnAround(s: Kao, t: Tid, keep: bool)
    requires Inv(s) && CanReturn(s, t, keep)
    ensures Around(DoReturn(s, t, keep))
  {
    if InScript(s, t) {
      ReturnScriptAround(s, t);
    } else if OnMain(s.acts[t].role) {
      ReturnCallbackAround(s, t, keep);
    } else {
      ReturnOtherAround(s, t, keep);
    }
  }

  lemma UnrefExternalFrame(s: Kao, t: Tid)
    requires t in s.acts
    ensures var s' := DoUnrefExternal(s, t);
            && s'.acts == s.acts[t := s.acts[t].(role := Leaving)] && s'.main == s.main && s'.filter == s.filter
            && s'.todo == s.todo && s'.inShutdown == s.inShutdown && s'.log.shutdownReturned == s.log.shutdownReturned
            && (s'.shutdownSrc == s.shutdownSrc || s'.shutdownSrc == s.nextId)
  {
  }

  lemma UnrefExternalAround(s: Kao, t: Tid)
    requires Around(s) && PairInv(s) && IsApi(s, t)
    ensures Around(DoUnrefExternal(s, t))
  {
    UnrefExternalFrame(s, t);
    AroundMoves(s, DoUnrefExternal(s, t), t);
  }

  lemma CountingAround(s: Kao, e: Event)
    requires Around(s) && PcInv(s) && Enabled(s, e) && (e.Desert? || e.Destroy? || e.RefExternal? || e.ClearOwn?)
    ensures Around(Apply(s, e))
  {
    AroundMoves(s, Apply(s, e), e.t);
  }

  lemma UnrefInternalAround(s: Kao, t: Tid)
    requires Around(s) && CanUnrefInternal(s, t)
    ensures Around(DoUnrefInternal(s, t))
  {
    AroundMoves(s, DoUnrefInternal(s, t), t);
  }

  lemma ShutdownAround(s: Kao, e: Event)
    requires Around(s) && Enabled(s, e) && (e.BeginShutdown? || e.RemoveFilter? || e.InstallFilter?)
    requires s.log.shutdownReturned ==> s.inShutdown
    ensures Around(Apply(s, e))
  {
    StackMoves(s, Apply(s, e), e.t);
  }

  lemma LockingAround(s: Kao, e: Event)
    requires Around(s) && Enabled(s, e) && (e.Acquire? || e.OpenWindow? || e.SkipFlush? || e.Release?)
    ensures Around(Apply(s, e))
  {
    AroundMoves(s, Apply(s, e), e.t);
  }

  lemma BeginCancelAround(s: Kao, t: Tid, slot: Slot, after: After)
    requires Around(s) && CanBeginCancel(s, t, slot, after)
    ensures Around(DoBeginCancel(s, t, slot, after))
  {
    AroundMoves(s, DoBeginCancel(s, t, slot, after), t);
  }

  lemma LoopActs(s: Kao, t: Tid, ok: bool)
    requires CanLoop(s, t)
    ensures var s' := DoLoop(s, t, ok);
            OnlyActChanges(s, s', t) && t in s'.acts && s'.acts[t].role == s.acts[t].role
  {
  }

  lemma LoopAround(s: Kao, t: Tid, ok: bool)
    requires Around(s) && CanLoop(s, t)
    ensures Around(DoLoop(s, t, ok))
  {
    LoopActs(s, t, ok);
    AroundMoves(s, DoLoop(s, t, ok), t);
  }

  lemma RemoveAround(s: Kao, t: Tid)
    requires Around(s) && CanRemove(s, t)
    ensures Around(DoRemove(s, t))
  {
    AroundMoves(s, DoRemove(s, t), t);
  }

  lemma CallbacksAround(s: Kao, e: Event)
    requires Inv(s) && Enabled(s, e) && (e.DispatchSource? || e.HearSignal? || e.Return?)
    ensures Around(Apply(s, e))
  {
    match e
    case DispatchSource(t, id) => DispatchAround(s, t, id);
    case HearSignal(t) => HearAround(s, t);
    case Return(t, keep) => ReturnAround(s, t, keep);
  }

  lemma AroundKeeps(s: Kao, e: Event)
    requires Inv(s) && Enabled(s, e)
    ensures Around(Apply(s, e))
  {
    if e.DispatchSource? || e.HearSignal? || e.Return? {
      CallbacksAround(s, e);
    } else if e.CallApi? || e.RunNotify? {
      StartsAround(s, e);
    } else {
      OthersAround(s, e);
    }
  }

  lemma OthersAround(s: Kao, e: Event)
    requires Inv(s) && Enabled(s, e)
    requires !e.DispatchSource? && !e.HearSignal? && !e.Return? && !e.CallApi? && !e.RunNotify?
    ensures Around(Apply(s, e))
  {
    if e.BeginShutdown? || e.RemoveFilter? || e.InstallFilter? {
      ShutdownAround(s, e);
    } else if e.Acquire? || e.OpenWindow? || e.SkipFlush? || e.Release? {
      LockingAround(s, e);
    } else if e.BeginCancel? || e.LoopStep? || e.RemoveSource? {
      CancellingAround(s, e);
    } else if e.UnrefExternal? {
      UnrefExternalAround(s, e.t);
    } else if e.UnrefInternal? {
      UnrefInternalAround(s, e.t);
    } else {
      CountingAround(s, e);
    }
  }

  lemma CancellingAround(s: Kao, e: Event)
    requires Around(s) && Enabled(s, e) && (e.BeginCancel? || e.LoopStep? || e.RemoveSource?)
    ensures Around(Apply(s, e))
  {
    match e
    case BeginCancel(t, slot, after) => BeginCancelAround(s, t, slot, after);
    case LoopStep(t, ok) => LoopAround(s, t, ok);
    case RemoveSource(t) => RemoveAround(s, t);
  }

  lemma ApplyKeeps(s: Kao, e: Event)
    requires Inv(s) && Enabled(s, e)
    ensures Inv(Apply(s, e))
  {
    CoreKeeps(s, e);
    AroundKeeps(s, e);
  }

  // ------------------------------------------------------------ the whole

  /** Once the object is dead only the leftovers of finished activities remain. */
  lemma DeadIsQuiet(s: Kao, t: Tid)
    requires Inv(s) && s.log.deletes > 0 && t in s.acts
    ensures s.acts[t].pc.Out? && !s.acts[t].doomed
  {
    if s.acts[t].role.Api? || OnMain(s.acts[t].role) || s.acts[t].role.Notify? || Starting(s.acts[t].pc) {
      Covered(s, t);
    }
  }

  /** After the delete callback no step that reaches into the object is enabled. */
  lemma Untouchable(s: Kao, e: Event)
    requires Inv(s) && s.log.deletes > 0 && Touches(e)
    ensures !Enabled(s, e)
  {
    if e.t in s.acts {
      DeadIsQuiet(s, e.t);
    }
  }

  /** No step of any interleaving breaks the invariant, aborts, or touches a deleted object. */
  lemma StepKeeps(s: Kao, e: Event)
    requires Inv(s)
    ensures Inv(Step(s, e))
  {
    if Enabled(s, e) {
      ApplyKeeps(s, e);
      if Touches(e) && s.log.deletes > 0 {
        Untouchable(s, e);
      }
    }
  }
}
