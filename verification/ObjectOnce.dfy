/** Each source id is handed out once, kept in one place at a time, and removed at most
    once, over every run. */
module ObjectOnce {
  import opened ObjectProtocol
  import opened ObjectSafety
  import opened ObjectReclaim
  import opened ObjectMeasure
  import opened ObjectTheorems

  function HeldBySlots(s: Kao, id: Sid): set<Slot> { set slot | slot in s.slots && s.slots[slot] == id }

  function HeldByLoops(s: Kao, id: Sid): set<Tid> {
    set t | t in s.acts && s.acts[t].pc.Cancelling? && s.acts[t].pc.id == id
  }

  /** How many slots and cancel loops have the id. */
  function Custody(s: Kao, id: Sid): nat { |HeldBySlots(s, id)| + |HeldByLoops(s, id)| }

  /** The step removes the source with this id. */
  predicate Takes(s: Kao, e: Event, id: Sid) {
    e.RemoveSource? && CanRemove(s, e.t) && s.acts[e.t].pc.id == id
  }

  function Removals(owned: set<Slot>, es: seq<Event>, id: Sid): nat {
    if es == [] then 0
    else
      var before := es[..|es| - 1];
      Removals(owned, before, id)
      + (if Enabled(Reach(owned, before), es[|es| - 1]) && Takes(Reach(owned, before), es[|es| - 1], id) then 1 else 0)
  }

  lemma Fewer<T>(a: set<T>, b: set<T>)
    requires a <= b
    ensures |a| <= |b|
  {
    assert b == a + (b - a);
  }

  /** A step that fills no slot and puts no activity into a cancel loop. */
  lemma QuietCustody(s: Kao, s': Kao, t: Tid, id: Sid)
    requires OnlyActChanges(s, s', t)
    requires forall slot | slot in s'.slots :: slot in s.slots && s.slots[slot] == s'.slots[slot]
    requires t in s'.acts && s'.acts[t].pc.Cancelling? ==> t in s.acts && s.acts[t].pc == s'.acts[t].pc
    ensures Custody(s', id) <= Custody(s, id)
  {
    Fewer(HeldBySlots(s', id), HeldBySlots(s, id));
    Fewer(HeldByLoops(s', id), HeldByLoops(s, id));
  }

  lemma TakeCustody(s: Kao, t: Tid, ok: bool, id: Sid)
    requires CanLoop(s, t) && s.acts[t].pc.slot in s.slots
    ensures Custody(DoLoop(s, t, ok), id) <= Custody(s, id)
  {
    var s' := DoLoop(s, t, ok);
    var slot := s.acts[t].pc.slot;
    SetChange(HeldBySlots(s, id), HeldBySlots(s', id), slot);
    SetChange(HeldByLoops(s, id), HeldByLoops(s', id), t);
  }

  lemma FillCustody(s: Kao, s': Kao, slot: Slot, id: Sid)
    requires slot !in s.slots && s'.slots == s.slots[slot := s.nextId]
    ensures |HeldBySlots(s', id)| == |HeldBySlots(s, id)| + (if id == s.nextId then 1 else 0)
  {
    SetChange(HeldBySlots(s, id), HeldBySlots(s', id), slot);
  }

  lemma CreateCustody(s: Kao, t: Tid, ok: bool, id: Sid)
    requires CanLoop(s, t) && s.acts[t].pc.slot !in s.slots && DoLoop(s, t, ok).nextId != s.nextId
    ensures Custody(DoLoop(s, t, ok), id) <= Custody(s, id) + (if id == s.nextId then 1 else 0)
  {
    var s' := DoLoop(s, t, ok);
    FillCustody(s, s', s.acts[t].pc.slot, id);
    assert HeldByLoops(s', id) == HeldByLoops(s, id);
  }

  lemma EndSlots(s: Kao, t: Tid, ok: bool)
    requires CanLoop(s, t) && s.acts[t].pc.slot !in s.slots && DoLoop(s, t, ok).nextId == s.nextId
    ensures DoLoop(s, t, ok).slots == s.slots
  {
  }

  lemma EndActs(s: Kao, t: Tid, ok: bool)
    requires CanLoop(s, t) && s.acts[t].pc.slot !in s.slots && DoLoop(s, t, ok).nextId == s.nextId
    ensures DoLoop(s, t, ok).acts == s.acts[t := s.acts[t].(pc := Held)]
  {
  }

  lemma EndCustody(s: Kao, s': Kao, t: Tid, id: Sid)
    requires t in s.acts && s'.slots == s.slots && s'.acts == s.acts[t := s.acts[t].(pc := Held)]
    ensures Custody(s', id) <= Custody(s, id)
  {
    QuietCustody(s, s', t, id);
  }

  lemma RemoveCustody(s: Kao, t: Tid, id: Sid)
    requires CanRemove(s, t)
    ensures Custody(DoRemove(s, t), id) + (if s.acts[t].pc.id == id then 1 else 0) == Custody(s, id)
  {
    var s' := DoRemove(s, t);
    assert HeldBySlots(s', id) == HeldBySlots(s, id);
    SetChange(HeldByLoops(s, id), HeldByLoops(s', id), t);
  }

  lemma StartCustody(s: Kao, e: Event, id: Sid)
    requires Enabled(s, e) && (e.CallApi? || e.DispatchSource? || e.HearSignal? || e.RunNotify?)
    ensures Custody(Apply(s, e), id) <= Custody(s, id)
  {
    QuietCustody(s, Apply(s, e), e.t, id);
  }

  lemma ReturnCustody(s: Kao, t: Tid, keep: bool, id: Sid)
    requires CanReturn(s, t, keep)
    ensures Custody(DoReturn(s, t, keep), id) <= Custody(s, id)
  {
    QuietCustody(s, DoReturn(s, t, keep), t, id);
  }

  lemma BoundaryCustody(s: Kao, e: Event, id: Sid)
    requires PcInv(s) && Enabled(s, e)
    requires e.CallApi? || e.Desert? || e.DispatchSource? || e.HearSignal? || e.RunNotify? || e.Destroy? || e.Return?
    ensures Custody(Apply(s, e), id) <= Custody(s, id)
  {
    match e
    case Return(t, keep) => ReturnCustody(s, t, keep, id);
    case Desert(t) => QuietCustody(s, DoDesert(s, t), t, id);
    case Destroy(t) => QuietCustody(s, DoDestroy(s, t), t, id);
    case _ => StartCustody(s, e, id);
  }

  lemma UnrefExternalCustody(s: Kao, t: Tid, id: Sid)
    requires IsApi(s, t)
    ensures Custody(DoUnrefExternal(s, t), id) <= Custody(s, id)
  {
    var s' := DoUnrefExternal(s, t);
    assert s'.slots == s.slots;
    QuietCustody(s, s', t, id);
  }

  lemma CountingCustody(s: Kao, e: Event, id: Sid)
    requires Enabled(s, e)
    requires e.RefExternal? || e.UnrefExternal? || e.UnrefInternal? || e.ClearOwn? || e.BeginShutdown?
             || e.RemoveFilter? || e.InstallFilter?
    ensures Custody(Apply(s, e), id) <= Custody(s, id)
  {
    match e
    case UnrefExternal(t) => UnrefExternalCustody(s, t, id);
    case UnrefInternal(t) => QuietCustody(s, DoUnrefInternal(s, t), t, id);
    case ClearOwn(t, slot) => QuietCustody(s, s.(slots := s.slots - {slot}), t, id);
    case RefExternal(t) => QuietCustody(s, AddExternal(s), t, id);
    case BeginShutdown(t, script, budget) => QuietCustody(s, DoBeginShutdown(s, script, budget), t, id);
    case RemoveFilter(t) => QuietCustody(s, s.(todo := Popped(s, t), filter := false), t, id);
    case InstallFilter(t) => QuietCustody(s, s.(filter := true), t, id);
  }

  lemma BeginCustody(s: Kao, t: Tid, slot: Slot, after: After, id: Sid)
    requires CanBeginCancel(s, t, slot, after)
    ensures Custody(DoBeginCancel(s, t, slot, after), id) <= Custody(s, id)
  {
    QuietCustody(s, DoBeginCancel(s, t, slot, after), t, id);
  }

  lemma LockingCustody(s: Kao, e: Event, id: Sid)
    requires Enabled(s, e)
    requires e.Acquire? || e.OpenWindow? || e.SkipFlush? || e.Release? || e.BeginCancel?
    ensures Custody(Apply(s, e), id) <= Custody(s, id)
  {
    match e
    case BeginCancel(t, slot, after) => BeginCustody(s, t, slot, after, id);
    case Acquire(t) => QuietCustody(s, DoAcquire(s, t), t, id);
    case OpenWindow(t) => QuietCustody(s, DoOpenWindow(s, t), t, id);
    case Release(t) => QuietCustody(s, ObjectProtocol.Unlock(s, t, Out), t, id);
    case SkipFlush(t) => QuietCustody(s, s.(todo := Popped(s, t)), t, id);
  }

  lemma LoopCustody(s: Kao, t: Tid, ok: bool, id: Sid)
    requires CanLoop(s, t)
    ensures Custody(DoLoop(s, t, ok), id) <= Custody(s, id) + (if id == s.nextId then 1 else 0)
  {
    if s.acts[t].pc.slot in s.slots {
      TakeCustody(s, t, ok, id);
    } else if DoLoop(s, t, ok).nextId != s.nextId {
      CreateCustody(s, t, ok, id);
    } else {
      EndSlots(s, t, ok);
      EndActs(s, t, ok);
      EndCustody(s, DoLoop(s, t, ok), t, id);
    }
  }

  lemma QuietStepCustody(s: Kao, e: Event, id: Sid)
    requires PcInv(s) && Enabled(s, e) && !e.LoopStep? && !e.RemoveSource?
    ensures Custody(Apply(s, e), id) <= Custody(s, id)
  {
    if e.CallApi? || e.Desert? || e.DispatchSource? || e.HearSignal? || e.RunNotify? || e.Destroy? || e.Return? {
      BoundaryCustody(s, e, id);
    } else if e.Acquire? || e.OpenWindow? || e.SkipFlush? || e.Release? || e.BeginCancel? {
      LockingCustody(s, e, id);
    } else {
      CountingCustody(s, e, id);
    }
  }

  lemma StepCustody(s: Kao, e: Event, id: Sid)
    requires PcInv(s) && Enabled(s, e)
    ensures Custody(Apply(s, e), id) + (if Takes(s, e, id) then 1 else 0)
            <= Custody(s, id) + (if id == s.nextId then 1 else 0)
  {
    match e
    case LoopStep(t, ok) => LoopCustody(s, t, ok, id);
    case RemoveSource(t) => RemoveCustody(s, t, id);
    case _ => QuietStepCustody(s, e, id);
  }

  /** No one has an id that has not been handed out. */
  lemma UnbornCustody(s: Kao, id: Sid)
    requires IdInv(s) && id >= s.nextId
    ensures Custody(s, id) == 0
  {
    assert HeldBySlots(s, id) == {} && HeldByLoops(s, id) == {};
  }

  lemma AnotherStep(owned: set<Slot>, before: seq<Event>, e: Event, id: Sid)
    ensures Removals(owned, before + [e], id) + Custody(Reach(owned, before + [e]), id)
            <= Removals(owned, before, id) + Custody(Reach(owned, before), id)
               + (if id == Reach(owned, before).nextId then 1 else 0)
  {
    var s := Reach(owned, before);
    assert (before + [e])[..|before|] == before;
    RunInv(owned, before);
    if Enabled(s, e) {
      StepIsApply(s, e);
      StepCustody(s, e, id);
    }
  }

  lemma UnbornStays(owned: set<Slot>, es: seq<Event>, id: Sid)
    requires id >= Reach(owned, es).nextId
    ensures Custody(Reach(owned, es), id) == 0
  {
    RunInv(owned, es);
    UnbornCustody(Reach(owned, es), id);
  }

  lemma UnbornNotTaken(owned: set<Slot>, before: seq<Event>, e: Event, id: Sid)
    requires id >= Reach(owned, before).nextId
    ensures Removals(owned, before + [e], id) == Removals(owned, before, id)
  {
    assert (before + [e])[..|before|] == before;
    RunInv(owned, before);
  }

  /** The places that have an id, plus the times it has been removed, never exceed one. */
  lemma {:induction false} OneCustodian(owned: set<Slot>, es: seq<Event>, id: Sid)
    ensures Removals(owned, es, id) + Custody(Reach(owned, es), id)
            <= (if id < Reach(owned, es).nextId then 1 else 0)
  {
    if es == [] {
      assert HeldBySlots(Init(owned), id) == {} && HeldByLoops(Init(owned), id) == {};
    } else {
      var before, e := es[..|es| - 1], es[|es| - 1];
      assert es == before + [e];
      OneCustodian(owned, before, id);
      AnotherStep(owned, before, e, id);
      if id >= Reach(owned, es).nextId {
        UnbornStays(owned, es, id);
        UnbornNotTaken(owned, before, e, id);
      }
    }
  }

  /** Every source is removed at most once, and two cancel loops never hold the same id. */
  lemma RemovedAtMostOnce(owned: set<Slot>, es: seq<Event>, id: Sid)
    ensures Removals(owned, es, id) <= 1
    ensures forall t, u ::
              t in HeldByLoops(Reach(owned, es), id) && u in HeldByLoops(Reach(owned, es), id) ==> t == u
  {
    OneCustodian(owned, es, id);
    var loops := HeldByLoops(Reach(owned, es), id);
    forall t, u | t in loops && u in loops
      ensures t == u
    {
      if t != u {
        Fewer({t, u}, loops);
      }
    }
  }
}
