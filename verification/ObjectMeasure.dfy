/** From the dispatch of the shutdown source on, every step leaves less to do, and there is
    something to do until the object is deleted. */
module ObjectMeasure {
  import opened ObjectProtocol
  import opened ObjectSafety
  import opened ObjectReclaim

  /** The last external reference is gone and the shutdown source has been dispatched. */
  predicate Closing(s: Kao) {
    s.ext == 0 && !(s.shutdownSrc in s.sources && s.sources[s.shutdownSrc].Live?)
  }

  // ------------------------------------------------------------ the measure

  function Stage(p: Phase): nat {
    match p
    case Live => 4
    case Dispatching(_, _) => 3
    case Awaiting => 2
    case Notifying(_) => 1
  }

  function Rank(a: Act): nat {
    match a.pc
    case Enter => 7
    case Cancelling(_, _, _) => 6
    case Relock(_, _) => 5
    case Loop(_, _) => 4
    case Window => 4
    case Held => 3
    case Out => if a.doomed then 2 else 1
  }

  function AtStage(s: Kao, k: nat): set<Sid> { set id | id in s.sources && Stage(s.sources[id]) >= k }

  function AtRank(s: Kao, k: nat): set<Tid> { set t | t in s.acts && Rank(s.acts[t]) >= k }

  /** The stages of all sources together. */
  function Stages(s: Kao): nat { |AtStage(s, 1)| + |AtStage(s, 2)| + |AtStage(s, 3)| + |AtStage(s, 4)| }

  /** The ranks of all activities together. */
  function Ranks(s: Kao): nat {
    |AtRank(s, 1)| + |AtRank(s, 2)| + |AtRank(s, 3)| + |AtRank(s, 4)| + |AtRank(s, 5)| + |AtRank(s, 6)| + |AtRank(s, 7)|
  }

  /** What is left to do: to begin the shutdown callback; what handlers in a flush may still
      begin; start functions in progress; the sources' stages; instructions of the shutdown
      callback; filled slots; the activities' positions. */
  datatype Load = Load(notBegun: nat, budget: nat, starters: nat, stages: nat, todo: nat, slots: nat, ranks: nat)

  function Weigh(s: Kao): Load {
    Load(if s.inShutdown then 0 else 1, s.budget, |Starters(s)|, Stages(s), |s.todo|, |s.slots|, Ranks(s))
  }

  /** Lexicographically smaller. */
  predicate Lighter(v: Load, w: Load) {
    if v.notBegun != w.notBegun then v.notBegun < w.notBegun
    else if v.budget != w.budget then v.budget < w.budget
    else if v.starters != w.starters then v.starters < w.starters
    else if v.stages != w.stages then v.stages < w.stages
    else if v.todo != w.todo then v.todo < w.todo
    else if v.slots != w.slots then v.slots < w.slots
    else v.ranks < w.ranks
  }

  predicate Shrinks(s': Kao, s: Kao) { Lighter(Weigh(s'), Weigh(s)) }

  function StageOf(s: Kao, id: Sid): nat { if id in s.sources then Stage(s.sources[id]) else 0 }

  function RankOf(s: Kao, t: Tid): nat { if t in s.acts then Rank(s.acts[t]) else 0 }

  ghost predicate OnlySourceChanges(s: Kao, s': Kao, id: Sid) {
    forall x | x != id :: (x in s.sources <==> x in s'.sources) && (x in s.sources ==> s.sources[x] == s'.sources[x])
  }

  lemma StageMoves(s: Kao, s': Kao, id: Sid, k: nat)
    requires OnlySourceChanges(s, s', id) && k > 0
    ensures |AtStage(s', k)| + (if StageOf(s, id) >= k then 1 else 0) == |AtStage(s, k)| + (if StageOf(s', id) >= k then 1 else 0)
  {
    SetChange(AtStage(s, k), AtStage(s', k), id);
  }

  lemma StagesMove(s: Kao, s': Kao, id: Sid)
    requires OnlySourceChanges(s, s', id)
    ensures Stages(s') + StageOf(s, id) == Stages(s) + StageOf(s', id)
  {
    StageMoves(s, s', id, 1);
    StageMoves(s, s', id, 2);
    StageMoves(s, s', id, 3);
    StageMoves(s, s', id, 4);
  }

  lemma SameStages(s: Kao, s': Kao)
    requires s'.sources == s.sources
    ensures Stages(s') == Stages(s)
  {
    assert AtStage(s', 1) == AtStage(s, 1) && AtStage(s', 2) == AtStage(s, 2);
    assert AtStage(s', 3) == AtStage(s, 3) && AtStage(s', 4) == AtStage(s, 4);
  }

  lemma RankMoves(s: Kao, s': Kao, t: Tid, k: nat)
    requires OnlyActChanges(s, s', t) && k > 0
    ensures |AtRank(s', k)| + (if RankOf(s, t) >= k then 1 else 0) == |AtRank(s, k)| + (if RankOf(s', t) >= k then 1 else 0)
  {
    SetChange(AtRank(s, k), AtRank(s', k), t);
  }

  lemma RanksMove(s: Kao, s': Kao, t: Tid)
    requires OnlyActChanges(s, s', t)
    ensures Ranks(s') + RankOf(s, t) == Ranks(s) + RankOf(s', t)
  {
    RankMoves(s, s', t, 1);
    RankMoves(s, s', t, 2);
    RankMoves(s, s', t, 3);
    RankMoves(s, s', t, 4);
    RankMoves(s, s', t, 5);
    RankMoves(s, s', t, 6);
    RankMoves(s, s', t, 7);
  }

  /** An activity moves on. */
  lemma MoveShrinks(s: Kao, s': Kao, t: Tid)
    requires OnlyActChanges(s, s', t) && RankOf(s', t) < RankOf(s, t) && Starts(s', t) <= Starts(s, t)
    requires s'.inShutdown == s.inShutdown && s'.budget == s.budget && s'.todo == s.todo && s'.slots == s.slots
    requires Stages(s') <= Stages(s)
    ensures Shrinks(s', s)
  {
    CountsMove(s, s', t);
    RanksMove(s, s', t);
  }

  /** A source gets a stage further. */
  lemma StageShrinks(s: Kao, s': Kao, t: Tid, id: Sid)
    requires OnlyActChanges(s, s', t) && Starts(s', t) <= Starts(s, t)
    requires OnlySourceChanges(s, s', id) && StageOf(s', id) < StageOf(s, id)
    requires s'.inShutdown == s.inShutdown && s'.budget == s.budget
    ensures Shrinks(s', s)
  {
    CountsMove(s, s', t);
    StagesMove(s, s', id);
  }

  /** The shutdown callback takes an instruction, or a slot is emptied. */
  lemma TakeShrinks(s: Kao, s': Kao, t: Tid)
    requires OnlyActChanges(s, s', t) && Starts(s', t) <= Starts(s, t) && s'.sources == s.sources
    requires s'.inShutdown == s.inShutdown && s'.budget == s.budget
    requires |s'.todo| < |s.todo| || (|s'.todo| == |s.todo| && |s'.slots| < |s.slots|)
    ensures Shrinks(s', s)
  {
    CountsMove(s, s', t);
    SameStages(s, s');
  }

  // ------------------------------------------------------------ who can act

  lemma WhoActs(s: Kao, t: Tid)
    requires Inv(s) && Clean(s) && Closing(s) && t in s.acts
    ensures !s.acts[t].role.Api?
    ensures !s.inShutdown && OnMain(s.acts[t].role) ==>
              InScript(s, t) && s.main == [t] && (s.acts[t].pc.Enter? || s.acts[t].pc.Held?)
  {
    if s.acts[t].role.Api? {
      Covered(s, t);
    }
    if !s.inShutdown && OnMain(s.acts[t].role) {
      ScriptRuns(s);
    }
  }

  /** Before it begins, the shutdown callback is the one callback there is. */
  lemma ScriptRuns(s: Kao)
    requires Inv(s) && Clean(s) && Closing(s) && !s.inShutdown
    ensures |s.main| == 1 && s.main[0] in s.acts && InScript(s, s.main[0])
    ensures s.acts[s.main[0]].pc.Enter? || s.acts[s.main[0]].pc.Held?
  {
    assert s.sources[s.shutdownSrc].Dispatching?;
    var t := s.sources[s.shutdownSrc].runner;
    assert t in s.acts && InScript(s, t);
  }

  /** No call is in progress, and until shutdown has begun its callback is the only one. */
  predicate Closed(s: Kao) {
    && s.ext == 0
    && (forall t | t in s.acts :: !s.acts[t].role.Api?)
    && (!s.inShutdown ==>
          && |s.main| == 1 && s.main[0] in s.acts && InScript(s, s.main[0]) && !s.acts[s.main[0]].pc.Window?
          && forall t | t in s.acts && OnMain(s.acts[t].role) :: InScript(s, t) && !Looping(s.acts[t].pc))
  }

  lemma ClosingIsClosed(s: Kao)
    requires Inv(s) && Clean(s) && Closing(s)
    ensures Closed(s)
  {
    forall t | t in s.acts
      ensures !s.acts[t].role.Api?
      ensures !s.inShutdown && OnMain(s.acts[t].role) ==> InScript(s, t) && !Looping(s.acts[t].pc)
    {
      WhoActs(s, t);
    }
    if !s.inShutdown { ScriptRuns(s); }
  }

  /** The steps that are over by then. */
  lemma CallsOver(s: Kao, e: Event)
    requires Closed(s) && Enabled(s, e)
    ensures !e.CallApi? && !e.Desert? && !e.RefExternal? && !e.UnrefExternal?
  {
  }

  lemma NotYet(s: Kao, e: Event)
    requires Closed(s) && ShutdownInv(s) && Enabled(s, e)
    ensures !e.InstallFilter?
    ensures e.DispatchSource? || e.HearSignal? || e.OpenWindow? || e.BeginCancel? ==> s.inShutdown
    ensures e.ClearOwn? || e.SkipFlush? || e.RemoveFilter? ==> s.inShutdown
    ensures e.Return? && e.keep ==> false
  {
  }

  // ------------------------------------------------------ event by event

  lemma BeginShutdownShrinks(s: Kao, t: Tid, script: seq<Op>, budget: nat)
    requires ShutdownInv(s) && CanBeginShutdown(s, t, script)
    ensures Shrinks(DoBeginShutdown(s, script, budget), s)
  {
  }

  lemma DispatchShrinks(s: Kao, t: Tid, id: Sid)
    requires CanDispatch(s, t, id)
    ensures Shrinks(DoDispatch(s, t, id), s)
  {
    StageShrinks(s, DoDispatch(s, t, id), t, id);
  }

  lemma HearShrinks(s: Kao, t: Tid)
    requires CanHear(s, t) && s.inShutdown
    ensures Shrinks(DoHear(s, t), s)
  {
  }

  lemma NotifyShrinks(s: Kao, t: Tid, id: Sid)
    requires CanNotify(s, t, id)
    ensures Shrinks(DoNotify(s, t, id), s)
  {
    StageShrinks(s, DoNotify(s, t, id), t, id);
  }

  lemma AcquireShrinks(s: Kao, t: Tid)
    requires CanAcquire(s, t)
    ensures Shrinks(DoAcquire(s, t), s)
  {
    SameStages(s, DoAcquire(s, t));
    MoveShrinks(s, DoAcquire(s, t), t);
  }

  lemma UnrefInternalShrinks(s: Kao, t: Tid)
    requires PairInv(s) && CanUnrefInternal(s, t)
    ensures Shrinks(DoUnrefInternal(s, t), s)
  {
    StageShrinks(s, DoUnrefInternal(s, t), t, s.acts[t].role.id);
  }

  lemma BeginCancelShrinks(s: Kao, t: Tid, slot: Slot, after: After)
    requires s.inShutdown && CanBeginCancel(s, t, slot, after)
    ensures Shrinks(DoBeginCancel(s, t, slot, after), s)
  {
    if InScript(s, t) { TakeShrinks(s, DoBeginCancel(s, t, slot, after), t); }
  }

  lemma OpenWindowShrinks(s: Kao, t: Tid)
    requires s.inShutdown && CanOpenWindow(s, t)
    ensures Shrinks(DoOpenWindow(s, t), s)
  {
    if InScript(s, t) { TakeShrinks(s, DoOpenWindow(s, t), t); }
  }

  lemma LoopTakesShrinks(s: Kao, t: Tid, ok: bool)
    requires CanLoop(s, t) && s.acts[t].pc.slot in s.slots
    ensures Shrinks(DoLoop(s, t, ok), s)
  {
    assert |s.slots - {s.acts[t].pc.slot}| == |s.slots| - 1;
    TakeShrinks(s, DoLoop(s, t, ok), t);
  }

  lemma LoopStopsShrinks(s: Kao, t: Tid, ok: bool)
    requires CanLoop(s, t) && s.acts[t].pc.slot !in s.slots && s.acts[t].pc.after.Stop?
    ensures Shrinks(DoLoop(s, t, ok), s)
  {
    SameStages(s, DoLoop(s, t, ok));
    MoveShrinks(s, DoLoop(s, t, ok), t);
  }

  /** A start function comes to its end. */
  lemma StartEnds(s: Kao, s': Kao, t: Tid)
    requires t in s.acts && Starting(s.acts[t].pc) && SameScript(s, s')
    requires s'.acts == s.acts[t := s.acts[t].(pc := Held)]
    ensures Shrinks(s', s)
  {
    CountsMove(s, s', t);
  }

  lemma LoopStartsShrinks(s: Kao, t: Tid, ok: bool)
    requires CanLoop(s, t) && s.acts[t].pc.slot !in s.slots && s.acts[t].pc.after.Start?
    ensures Shrinks(DoLoop(s, t, ok), s)
  {
    if DoLoop(s, t, ok).nextId == s.nextId { GivesUpIs(s, t, ok); } else { CreatesIs(s, t, ok); }
    StartEnds(s, DoLoop(s, t, ok), t);
  }

  lemma RemoveShrinks(s: Kao, t: Tid)
    requires CanRemove(s, t)
    ensures Shrinks(DoRemove(s, t), s)
  {
    var s' := DoRemove(s, t);
    StagesMove(s, s', s.acts[t].pc.id);
    MoveShrinks(s, s', t);
  }

  lemma ReleaseShrinks(s: Kao, t: Tid)
    requires CanRelease(s, t)
    ensures Shrinks(Unlock(s, t, Out), s)
  {
    SameStages(s, Unlock(s, t, Out));
    MoveShrinks(s, Unlock(s, t, Out), t);
  }

  lemma DestroyShrinks(s: Kao, t: Tid)
    requires PcInv(s) && CanDestroy(s, t)
    ensures Shrinks(DoDestroy(s, t), s)
  {
    SameStages(s, DoDestroy(s, t));
    MoveShrinks(s, DoDestroy(s, t), t);
  }

  lemma ReturnShrinks(s: Kao, t: Tid)
    requires PairInv(s) && CanReturn(s, t, false)
    ensures Shrinks(DoReturn(s, t, false), s)
  {
    var s' := DoReturn(s, t, false);
    if s.acts[t].role.Dispatch? {
      StageShrinks(s, s', t, s.acts[t].role.id);
    } else {
      SameStages(s, s');
      MoveShrinks(s, s', t);
    }
  }

  lemma ClearOwnShrinks(s: Kao, t: Tid, slot: Slot)
    requires CanClearOwn(s, t, slot)
    ensures Shrinks(s.(slots := s.slots - {slot}), s)
  {
    assert |s.slots - {slot}| == |s.slots| - 1;
    TakeShrinks(s, s.(slots := s.slots - {slot}), t);
  }

  lemma ScriptShrinks(s: Kao, s': Kao, t: Tid)
    requires s.inShutdown && (Scripted(s, t, FlushBus) || Scripted(s, t, DropFilter))
    requires s' == s.(todo := Popped(s, t), filter := s'.filter)
    ensures Shrinks(s', s)
  {
    TakeShrinks(s, s', t);
  }

  lemma BoundaryShrinks(s: Kao, e: Event)
    requires Inv(s) && Closed(s) && Enabled(s, e)
    requires e.DispatchSource? || e.HearSignal? || e.RunNotify? || e.Destroy? || e.Return?
    ensures Shrinks(Apply(s, e), s)
  {
    NotYet(s, e);
    match e
    case DispatchSource(t, id) => DispatchShrinks(s, t, id);
    case HearSignal(t) => HearShrinks(s, t);
    case RunNotify(t, id) => NotifyShrinks(s, t, id);
    case Destroy(t) => DestroyShrinks(s, t);
    case Return(t, keep) => ReturnShrinks(s, t);
  }

  lemma CancellingShrinks(s: Kao, e: Event)
    requires Inv(s) && Closed(s) && Enabled(s, e) && (e.BeginCancel? || e.LoopStep? || e.RemoveSource?)
    ensures Shrinks(Apply(s, e), s)
  {
    NotYet(s, e);
    match e
    case BeginCancel(t, slot, after) => BeginCancelShrinks(s, t, slot, after);
    case LoopStep(t, ok) => LoopShrinks(s, t, ok);
    case RemoveSource(t) => RemoveShrinks(s, t);
  }

  lemma LoopShrinks(s: Kao, t: Tid, ok: bool)
    requires CanLoop(s, t)
    ensures Shrinks(DoLoop(s, t, ok), s)
  {
    if s.acts[t].pc.slot in s.slots {
      LoopTakesShrinks(s, t, ok);
    } else if s.acts[t].pc.after.Stop? {
      LoopStopsShrinks(s, t, ok);
    } else {
      LoopStartsShrinks(s, t, ok);
    }
  }

  lemma LockingShrinks(s: Kao, e: Event)
    requires Inv(s) && Closed(s) && Enabled(s, e) && (e.Acquire? || e.OpenWindow? || e.Release? || e.UnrefInternal?)
    ensures Shrinks(Apply(s, e), s)
  {
    NotYet(s, e);
    match e
    case Acquire(t) => AcquireShrinks(s, t);
    case OpenWindow(t) => OpenWindowShrinks(s, t);
    case Release(t) => ReleaseShrinks(s, t);
    case UnrefInternal(t) => UnrefInternalShrinks(s, t);
  }

  lemma ScriptedShrinks(s: Kao, e: Event)
    requires Inv(s) && Closed(s) && Enabled(s, e)
    requires e.SkipFlush? || e.RemoveFilter? || e.ClearOwn? || e.BeginShutdown?
    ensures Shrinks(Apply(s, e), s)
  {
    NotYet(s, e);
    match e
    case SkipFlush(t) => ScriptShrinks(s, s.(todo := Popped(s, t)), t);
    case RemoveFilter(t) => ScriptShrinks(s, s.(todo := Popped(s, t), filter := false), t);
    case ClearOwn(t, slot) => ClearOwnShrinks(s, t, slot);
    case BeginShutdown(t, script, budget) => BeginShutdownShrinks(s, t, script, budget);
  }

  lemma StepShrinks(s: Kao, e: Event)
    requires Inv(s) && Clean(s) && Closing(s) && Enabled(s, e)
    ensures Shrinks(Apply(s, e), s)
  {
    ClosingIsClosed(s);
    CallsOver(s, e);
    NotYet(s, e);
    if e.DispatchSource? || e.HearSignal? || e.RunNotify? || e.Destroy? || e.Return? {
      BoundaryShrinks(s, e);
    } else if e.BeginCancel? || e.LoopStep? || e.RemoveSource? {
      CancellingShrinks(s, e);
    } else if e.Acquire? || e.OpenWindow? || e.Release? || e.UnrefInternal? {
      LockingShrinks(s, e);
    } else {
      ScriptedShrinks(s, e);
    }
  }

  // --------------------------------------------------------- no way back

  lemma ReturnCloses(s: Kao, t: Tid, keep: bool)
    requires Inv(s) && Closing(s) && CanReturn(s, t, keep)
    ensures Closing(DoReturn(s, t, keep))
  {
  }

  lemma CallbackCloses(s: Kao, t: Tid, id: Sid)
    requires Inv(s) && Closing(s) && CanDispatch(s, t, id)
    ensures Closing(DoDispatch(s, t, id))
  {
  }

  lemma OutsideCloses(s: Kao, e: Event)
    requires Inv(s) && Closing(s) && Enabled(s, e) && (e.HearSignal? || e.RunNotify? || e.Destroy?)
    ensures Closing(Apply(s, e))
  {
  }

  lemma BoundaryCloses(s: Kao, e: Event)
    requires Inv(s) && Closed(s) && Closing(s) && Enabled(s, e)
    requires e.DispatchSource? || e.HearSignal? || e.RunNotify? || e.Destroy? || e.Return?
    ensures Closing(Apply(s, e))
  {
    if e.Return? {
      ReturnCloses(s, e.t, e.keep);
    } else if e.DispatchSource? {
      CallbackCloses(s, e.t, e.id);
    } else {
      OutsideCloses(s, e);
    }
  }

  lemma LoopCloses(s: Kao, t: Tid, ok: bool)
    requires ShutdownInv(s) && Closing(s) && CanLoop(s, t)
    ensures Closing(DoLoop(s, t, ok))
  {
  }

  lemma CancellingCloses(s: Kao, e: Event)
    requires ShutdownInv(s) && Closing(s) && Enabled(s, e) && (e.BeginCancel? || e.LoopStep? || e.RemoveSource?)
    ensures Closing(Apply(s, e))
  {
    match e
    case LoopStep(t, ok) => LoopCloses(s, t, ok);
    case _ =>
  }

  lemma OthersClose(s: Kao, e: Event)
    requires Closing(s) && Enabled(s, e)
    requires e.Acquire? || e.OpenWindow? || e.Release? || e.UnrefInternal? || e.SkipFlush? || e.RemoveFilter?
             || e.ClearOwn? || e.BeginShutdown?
    ensures Closing(Apply(s, e))
  {
  }

  lemma StepCloses(s: Kao, e: Event)
    requires Inv(s) && Clean(s) && Closing(s) && Enabled(s, e)
    ensures Closing(Apply(s, e))
  {
    ClosingIsClosed(s);
    CallsOver(s, e);
    NotYet(s, e);
    if e.DispatchSource? || e.HearSignal? || e.RunNotify? || e.Destroy? || e.Return? {
      BoundaryCloses(s, e);
    } else if e.BeginCancel? || e.LoopStep? || e.RemoveSource? {
      CancellingCloses(s, e);
    } else {
      OthersClose(s, e);
    }
  }

  // ------------------------------------------------------------- progress

  /** Deleted, with every activity gone. */
  predicate Final(s: Kao) { s.log.deletes == 1 && s.acts == map[] }

  /** Some script that empties every slot and removes the filter. */
  lemma SomeScript(owned: set<Slot>) returns (script: seq<Op>)
    ensures Covers(script, owned)
    ensures forall i | 0 <= i < |script| :: script[i].CancelSlot? ==> script[i].slot in owned
  {
    script := [DropFilter];
    var rest := owned;
    while rest != {}
      invariant rest <= owned && DropFilter in script
      invariant forall slot | slot in owned && slot !in rest :: CancelSlot(slot) in script
      invariant forall i | 0 <= i < |script| :: script[i].CancelSlot? ==> script[i].slot in owned
    {
      var slot :| slot in rest;
      script := script + [CancelSlot(slot)];
      rest := rest - {slot};
    }
  }

  /** What the shutdown callback can do next with the lock. */
  lemma ScriptProgress(s: Kao, t: Tid) returns (e: Event)
    requires Inv(s) && Clean(s) && AtHeld(s, t) && InScript(s, t) && !s.log.aborted
    ensures Enabled(s, e)
  {
    if !s.inShutdown {
      var script := SomeScript(s.owned);
      e := BeginShutdown(t, script, 0);
    } else if s.todo == [] {
      e := Release(t);
    } else {
      match s.todo[0]
      case FlushBus => e := SkipFlush(t);
      case DropFilter => e := RemoveFilter(t);
      case CancelSlot(slot) => e := BeginCancel(t, slot, Stop);
    }
  }

  /** What an activity can do next with the lock, once no call is in progress. */
  lemma HolderProgress(s: Kao, t: Tid) returns (e: Event)
    requires Inv(s) && Clean(s) && s.ext == 0 && s.lock == Some(t)
    ensures Enabled(s, e)
  {
    var a := s.acts[t];
    if a.role.Api? {
      Covered(s, t);
    }
    if a.pc.Loop? {
      e := LoopStep(t, true);
    } else if a.role.Notify? {
      e := UnrefInternal(t);
    } else if InScript(s, t) {
      e := ScriptProgress(s, t);
    } else if a.role.Dispatch? && InSlot(s, a.role.id) {
      var slot :| slot in s.slots && s.slots[slot] == a.role.id;
      e := ClearOwn(t, slot);
    } else {
      e := Release(t);
    }
  }

  /** What an activity can do next while the lock is free; of the main loop's, the innermost. */
  lemma FreeProgress(s: Kao, t: Tid) returns (e: Event)
    requires Inv(s) && t in s.acts && s.lock.None? && (OnMain(s.acts[t].role) ==> Top(s, t))
    ensures Enabled(s, e)
  {
    var a := s.acts[t];
    if a.doomed {
      e := Destroy(t);
    } else if a.pc.Out? {
      e := Return(t, false);
    } else if a.pc.Cancelling? {
      e := RemoveSource(t);
    } else {
      e := Acquire(t);
    }
  }

  lemma NoCallbacks(s: Kao)
    requires StackInv(s) && forall t | t in s.acts :: !OnMain(s.acts[t].role)
    ensures s.main == []
  {
    if s.main != [] { Outermost(s); }
  }

  lemma Outermost(s: Kao)
    requires StackInv(s) && s.main != []
    ensures s.main[0] in s.acts && OnMain(s.acts[s.main[0]].role)
  {
  }

  lemma NoSlots(s: Kao)
    requires Answered(s) && s.sources == map[] && forall slot | slot in s.slots :: s.slots[slot] in s.calls
    ensures s.slots == map[]
  {
    forall slot | slot in s.slots
      ensures false
    {
      SlotHasSource(s, slot);
    }
  }

  lemma SlotHasSource(s: Kao, slot: Slot)
    requires Answered(s) && slot in s.slots && s.slots[slot] in s.calls
    ensures s.slots[slot] in s.sources
  {
  }

  /** With no activity about, a callback or a notification is due. */
  lemma SourceProgress(s: Kao) returns (e: Event)
    requires Inv(s) && Clean(s) && s.ext == 0 && s.acts == map[] && !Final(s)
    ensures Enabled(s, e)
  {
    NoCallbacks(s);
    assert Starters(s) == {};
    assert s.internal > 0;
    var id :| id in s.sources;
    assert SourceOk(s, id);
    e := if s.sources[id].Awaiting? then RunNotify(0, id) else DispatchSource(0, id);
  }

  /** After the last unref nothing gets stuck short of deletion. */
  lemma Progress(s: Kao) returns (e: Event)
    requires Inv(s) && Clean(s) && s.ext == 0 && !Final(s)
    ensures Enabled(s, e)
  {
    if s.lock.Some? {
      e := HolderProgress(s, s.lock.value);
    } else if s.main != [] {
      e := FreeProgress(s, s.main[|s.main| - 1]);
    } else if t :| t in s.acts {
      e := FreeProgress(s, t);
    } else {
      assert s.acts == map[];
      e := SourceProgress(s);
    }
  }

  lemma FinalIsClean(s: Kao)
    requires Inv(s) && Clean(s) && Final(s)
    ensures s.ext == 0 && s.internal == 0 && s.sources == map[] && s.slots == map[] && !s.filter
    ensures s.log.shutdownRuns == 1 && s.log.shutdownReturned && s.lock.None?
  {
    assert |s.sources| == 0;
    assert s.sources == map[];
    assert s.log.shutdownReturned;
    NoSlots(s);
  }
}
