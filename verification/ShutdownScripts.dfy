/** The shutdown callbacks of the two session controllers are scripts of the kind that the
    lifetime protocol of their objects takes for granted: they empty every slot, remove the bus
    filter and fill nothing, and no handler that comes meanwhile fills anything either. */
module ShutdownScripts {
  import OP = ObjectProtocol
  import CP = CpuProtocol
  import CT = CpuTheorems
  import DP = DisplayProtocol
  import DT = DisplayTheorems
  import BusLink
  import DisplayBus
  import Sessions

  // slots of a controller
  const OWNER_QUERY: OP.Slot := 0
  const MODE_OR_PERIOD_QUERY: OP.Slot := 1
  const RETHINK: OP.Slot := 2
  const SESSION: OP.Slot := 3
  const CONNECT: OP.Slot := 4

  /** What is still to do is the end of what was to do before. */
  predicate Later(rest: seq<OP.Op>, before: seq<OP.Op>) {
    |rest| <= |before| && rest == before[|before| - |rest|..]
  }

  lemma EndsLater(script: seq<OP.Op>, i: nat, j: nat)
    requires i <= j <= |script|
    ensures Later(script[j..], script[i..])
  {
  }

  // ------------------------------------------------------------------- the CPU controller

  const CPU_SLOTS: set<OP.Slot> := {OWNER_QUERY, MODE_OR_PERIOD_QUERY, RETHINK, SESSION, CONNECT}

  /** `cpukeepalive_shutdown_locked_cb` */
  const CPU_SCRIPT: seq<OP.Op> := [
    OP.CancelSlot(OWNER_QUERY), OP.CancelSlot(MODE_OR_PERIOD_QUERY), OP.CancelSlot(RETHINK), OP.CancelSlot(SESSION),
    OP.FlushBus, OP.CancelSlot(CONNECT), OP.DropFilter]

  lemma CpuScriptCovers()
    ensures OP.Covers(CPU_SCRIPT, CPU_SLOTS)
  {
    assert CPU_SCRIPT[0] == OP.CancelSlot(OWNER_QUERY) && CPU_SCRIPT[1] == OP.CancelSlot(MODE_OR_PERIOD_QUERY);
    assert CPU_SCRIPT[2] == OP.CancelSlot(RETHINK) && CPU_SCRIPT[3] == OP.CancelSlot(SESSION);
    assert CPU_SCRIPT[5] == OP.CancelSlot(CONNECT) && CPU_SCRIPT[6] == OP.DropFilter;
  }

  /** How far the callback has come at each of its unlocked stretches. */
  function CpuDone(at: CP.At): nat {
    match at
    case Sweeping(OwnerQuery) => 1
    case Sweeping(PeriodQuery) => 2
    case Sweeping(Rethink) => 3
    case Sweeping(Session) => 3
    case Sweeping(StopMessage) => 4
    case Sweeping(Farewell) => 5
    case Sweeping(Connect) => 6
    case _ => 7
  }

  function CpuTodo(at: CP.At): seq<OP.Op> { CPU_SCRIPT[CpuDone(at)..] }

  predicate CpuFilled(s: CP.Cpu, slot: OP.Slot) {
    if slot == OWNER_QUERY then s.link.query
    else if slot == MODE_OR_PERIOD_QUERY then s.periodPc
    else if slot == RETHINK then s.rethink
    else if slot == SESSION then s.timer != 0
    else slot == CONNECT && s.connectId
  }

  /** What is filled is still to be emptied, and a filter that is there is still to be removed. */
  predicate CpuSwept(s: CP.Cpu) {
    && (forall slot | slot in CPU_SLOTS && CpuFilled(s, slot) :: OP.CancelSlot(slot) in CpuTodo(s.at))
    && (s.link.filter ==> OP.DropFilter in CpuTodo(s.at))
  }

  /** The slot being emptied is empty whenever the mutex is dropped. */
  predicate CpuEmptied(s: CP.Cpu) {
    match s.at
    case Sweeping(OwnerQuery) => !s.link.query
    case Sweeping(PeriodQuery) => !s.periodPc
    case Sweeping(Rethink) => !s.rethink
    case Sweeping(Connect) => !s.connectId
    case _ => true
  }

  /** No slot of `t` is filled that is not filled in `s`. */
  predicate CpuNoMore(t: CP.Cpu, s: CP.Cpu) {
    && (t.link.query ==> s.link.query) && (t.periodPc ==> s.periodPc) && (t.rethink ==> s.rethink)
    && (t.timer != 0 ==> s.timer != 0) && (t.connectId ==> s.connectId) && (t.link.filter ==> s.link.filter)
  }

  /** A part of the callback, up to where it drops the mutex. */
  predicate CpuPart(r: CP.Cpu, s: CP.Cpu, done: nat) { CpuEmptied(r) && CpuNoMore(r, s) && done <= CpuDone(r.at) }

  lemma CpuConnectPart(s: CP.Cpu)
    ensures CpuPart(CP.SweepConnect(s), s, 6)
  {
  }

  lemma CpuStopPart(s: CP.Cpu)
    ensures CpuPart(CP.SweepStopMessage(s), s, 4)
  {
    if s.timer == 0 && !s.link.bus { CpuConnectPart(s); }
  }

  lemma CpuSessionPart(s: CP.Cpu)
    ensures CpuPart(CP.SweepSession(s), s, 4)
  {
    if s.timer == 0 { CpuConnectPart(s); }
  }

  lemma CpuRethinkPart(s: CP.Cpu)
    ensures CpuPart(CP.SweepRethink(s), s, 3)
  {
    CpuSessionPart(s);
  }

  lemma CpuPeriodPart(s: CP.Cpu)
    ensures CpuPart(CP.SweepPeriod(s), s, 2)
  {
    CpuRethinkPart(s);
  }

  lemma CpuOwnerPart(s: CP.Cpu)
    ensures CpuPart(CP.SweepOwner(s), s, 1)
  {
    CpuPeriodPart(s);
  }

  lemma CpuSweepPart(s: CP.Cpu, stage: CP.Stage)
    ensures CpuPart(CP.Sweep(s, stage), s, CpuDone(CP.Sweeping(stage)))
  {
    match stage
    case OwnerQuery => CpuOwnerPart(s);
    case PeriodQuery => CpuPeriodPart(s);
    case Rethink => CpuRethinkPart(s);
    case Session => CpuSessionPart(s);
    case StopMessage => CpuStopPart(s);
    case Farewell => CpuConnectPart(s);
    case Connect => CpuConnectPart(s);
  }

  /** A signal heard in the flush of the callback's STOP: its rethink is refused, and so is the
      query for the period. */
  lemma CpuHeeds(s: CP.Cpu, link: BusLink.Link)
    requires s.inShutdown && (link.query ==> s.link.query) && link.filter == s.link.filter
    ensures CpuNoMore(CP.Heed(s, link), s) && CP.Heed(s, link).at == s.at
  {
  }

  lemma CpuHeardInShutdown(s: CP.Cpu)
    requires s.inShutdown
    ensures CpuNoMore(CP.Step(s, CP.Deliver), s) && CP.Step(s, CP.Deliver).at == s.at
  {
    if s.link.down != [] { CpuHeeds(s, BusLink.Read(s.link, false)); }
  }

  /** In shutdown nothing is filled by anyone, and only the callback itself goes on. */
  lemma CpuFillsNothing(s: CP.Cpu, e: CP.Event)
    requires CT.Inv(s) && s.inShutdown
    ensures CpuNoMore(CP.Step(s, e), s) && CpuDone(s.at) <= CpuDone(CP.Step(s, e).at)
    ensures !e.Resume? ==> CP.Step(s, e).at == s.at
  {
    match e
    case Resume => if s.at.Sweeping? { CpuSweepPart(s, s.at.stage); }
    case Deliver => CpuHeardInShutdown(s);
    case _ =>
  }

  lemma CpuResumeEmpties(s: CP.Cpu)
    requires s.at.Sweeping?
    ensures CpuEmptied(CP.GoOn(s))
  {
    var stage, r := s.at.stage, CP.GoOn(s);
    assert r == CP.Sweep(s, stage);
    CpuSweepPart(s, stage);
  }

  lemma CpuShutdownEmpties(s: CP.Cpu)
    requires CpuEmptied(s)
    ensures CpuEmptied(CP.Step(s, CP.ShutdownCb))
  {
    CpuOwnerPart(s.(inShutdown := true));
  }

  /** Only the callback's own step begins shutdown, and none ends it. */
  lemma CpuSameShutdown(s: CP.Cpu, e: CP.Event)
    requires !e.ShutdownCb?
    ensures CP.Step(s, e).inShutdown == s.inShutdown
  {
    if e.Resume? && s.at.Sweeping? {
      var stage, r := s.at.stage, CP.Sweep(s, s.at.stage);
      assert CP.Step(s, e) == r && r.inShutdown == s.inShutdown;
    }
  }

  lemma CpuStaysEmptied(s: CP.Cpu, e: CP.Event)
    requires CT.Inv(s) && CpuEmptied(s)
    ensures CpuEmptied(CP.Step(s, e))
  {
    if e.Resume? && s.at.Sweeping? {
      CpuResumeEmpties(s);
    } else if e.ShutdownCb? {
      CpuShutdownEmpties(s);
    } else if s.inShutdown {
      CpuFillsNothing(s, e);
    } else {
      CT.StepKeeps(s, e);
      CpuSameShutdown(s, e);
    }
  }

  lemma {:induction false} CpuAlwaysEmptied(owned: bool, es: seq<CP.Event>)
    ensures CpuEmptied(CP.Reach(owned, es)) && CT.Inv(CP.Reach(owned, es))
  {
    CT.RunKeeps(owned, es);
    if es != [] {
      CpuAlwaysEmptied(owned, es[..|es| - 1]);
      CpuStaysEmptied(CP.Reach(owned, es[..|es| - 1]), es[|es| - 1]);
    }
  }

  /** The instructions after the first `n`. */
  lemma CpuRest(at: CP.At)
    ensures forall i | CpuDone(at) <= i < |CPU_SCRIPT| :: CPU_SCRIPT[i] in CpuTodo(at)
  {
    forall i | CpuDone(at) <= i < |CPU_SCRIPT|
      ensures CPU_SCRIPT[i] in CpuTodo(at)
    {
      assert CpuTodo(at)[i - CpuDone(at)] == CPU_SCRIPT[i];
    }
  }

  /** Where in the script a slot is emptied. */
  function CpuPlace(slot: OP.Slot): nat { if slot == CONNECT then 5 else slot }

  /** A slot that is filled is emptied later than what has been done. */
  lemma CpuNotYet(s: CP.Cpu, slot: OP.Slot)
    requires CT.Inv(s) && CpuEmptied(s) && s.inShutdown && slot in CPU_SLOTS && CpuFilled(s, slot)
    ensures CpuDone(s.at) <= CpuPlace(slot)
  {
  }

  lemma CpuIsSwept(s: CP.Cpu)
    requires CT.Inv(s) && CpuEmptied(s) && s.inShutdown
    ensures CpuSwept(s)
  {
    CpuRest(s.at);
    forall slot | slot in CPU_SLOTS && CpuFilled(s, slot)
      ensures OP.CancelSlot(slot) in CpuTodo(s.at)
    {
      CpuNotYet(s, slot);
      assert CPU_SCRIPT[CpuPlace(slot)] == OP.CancelSlot(slot);
    }
    if s.link.filter { assert CPU_SCRIPT[6] == OP.DropFilter; }
  }

  /** When the callback is done nothing is left. */
  lemma CpuIsDone(s: CP.Cpu)
    requires CT.Inv(s) && s.inShutdown && s.at.Idle?
    ensures !s.link.filter && forall slot | slot in CPU_SLOTS :: !CpuFilled(s, slot)
  {
  }

  lemma CpuStepSwept(s: CP.Cpu, e: CP.Event)
    requires CT.Inv(s) && CpuEmptied(s)
    ensures var t := CP.Step(s, e);
            && (t.inShutdown ==> CpuSwept(t))
            && (t.inShutdown && t.at.Idle? ==> !t.link.filter && forall slot | slot in CPU_SLOTS :: !CpuFilled(t, slot))
  {
    var t := CP.Step(s, e);
    CpuStaysEmptied(s, e);
    CT.StepKeeps(s, e);
    if t.inShutdown {
      CpuIsSwept(t);
      if t.at.Idle? { CpuIsDone(t); }
    }
  }

  lemma CpuStepGoesOn(s: CP.Cpu, e: CP.Event)
    requires CT.Inv(s) && s.inShutdown
    ensures var t := CP.Step(s, e);
            && t.inShutdown && (t.link.filter ==> s.link.filter) && Later(CpuTodo(t.at), CpuTodo(s.at))
            && forall slot | CpuFilled(t, slot) :: CpuFilled(s, slot)
  {
    CpuFillsNothing(s, e);
    CpuLater(CP.Step(s, e).at, s.at);
    CpuStaysShutdown(s, e);
  }

  lemma CpuStaysShutdown(s: CP.Cpu, e: CP.Event)
    requires s.inShutdown
    ensures CP.Step(s, e).inShutdown
  {
    if !e.ShutdownCb? { CpuSameShutdown(s, e); }
  }

  lemma CpuLater(after: CP.At, before: CP.At)
    requires CpuDone(before) <= CpuDone(after)
    ensures Later(CpuTodo(after), CpuTodo(before))
  {
    EndsLater(CPU_SCRIPT, CpuDone(before), CpuDone(after));
  }

  /** In every run: from the moment the CPU controller is in shutdown its callback goes through
      its script, what it has yet to empty is all that is filled, nothing is filled any more,
      and when it is done every slot is empty and the filter gone. */
  lemma CpuSweeps(owned: bool, es: seq<CP.Event>, e: CP.Event)
    ensures var s, t := CP.Reach(owned, es), CP.Step(CP.Reach(owned, es), e);
            && (t.inShutdown ==> CpuSwept(t))
            && (t.inShutdown && t.at.Idle? ==> !t.link.filter && forall slot | slot in CPU_SLOTS :: !CpuFilled(t, slot))
            && (s.inShutdown ==>
                  && t.inShutdown && (t.link.filter ==> s.link.filter) && Later(CpuTodo(t.at), CpuTodo(s.at))
                  && forall slot | CpuFilled(t, slot) :: CpuFilled(s, slot))
  {
    var s := CP.Reach(owned, es);
    CpuAlwaysEmptied(owned, es);
    CpuStepSwept(s, e);
    if s.inShutdown { CpuStepGoesOn(s, e); }
  }

  // --------------------------------------------------------------- the display controller

  const DISPLAY_SLOTS: set<OP.Slot> := {OWNER_QUERY, MODE_OR_PERIOD_QUERY, RETHINK, SESSION}

  /** `displaykeepalive_shutdown_locked_cb`; it flushes nothing. */
  const DISPLAY_SCRIPT: seq<OP.Op> := [
    OP.CancelSlot(RETHINK), OP.CancelSlot(SESSION), OP.CancelSlot(OWNER_QUERY), OP.CancelSlot(MODE_OR_PERIOD_QUERY),
    OP.DropFilter]

  lemma DisplayScriptCovers()
    ensures OP.Covers(DISPLAY_SCRIPT, DISPLAY_SLOTS)
  {
    assert DISPLAY_SCRIPT[0] == OP.CancelSlot(RETHINK) && DISPLAY_SCRIPT[1] == OP.CancelSlot(SESSION);
    assert DISPLAY_SCRIPT[2] == OP.CancelSlot(OWNER_QUERY) && DISPLAY_SCRIPT[3] == OP.CancelSlot(MODE_OR_PERIOD_QUERY);
    assert DISPLAY_SCRIPT[4] == OP.DropFilter;
  }

  function DisplayDone(at: DP.At): nat {
    match at
    case Sweeping(Rethink) => 1
    case Sweeping(StopMessage) => 2
    case Sweeping(OwnerQuery) => 3
    case Sweeping(ModeQuery) => 4
    case _ => 5
  }

  function DisplayTodo(at: DP.At): seq<OP.Op> { DISPLAY_SCRIPT[DisplayDone(at)..] }

  predicate DisplayFilled(s: DP.Display, slot: OP.Slot) {
    if slot == OWNER_QUERY then s.view.query
    else if slot == MODE_OR_PERIOD_QUERY then s.view.modePc != 0
    else if slot == RETHINK then s.rethink
    else slot == SESSION && s.timer
  }

  predicate DisplaySwept(s: DP.Display) {
    && (forall slot | slot in DISPLAY_SLOTS && DisplayFilled(s, slot) :: OP.CancelSlot(slot) in DisplayTodo(s.at))
    && (s.filter ==> OP.DropFilter in DisplayTodo(s.at))
  }

  predicate DisplayEmptied(s: DP.Display) {
    match s.at
    case Sweeping(Rethink) => !s.rethink
    case Sweeping(OwnerQuery) => !s.view.query
    case Sweeping(ModeQuery) => s.view.modePc == 0
    case _ => true
  }

  predicate DisplayNoMore(t: DP.Display, s: DP.Display) {
    && (t.view.query ==> s.view.query) && (t.view.modePc != 0 ==> s.view.modePc != 0) && (t.rethink ==> s.rethink)
    && (t.timer ==> s.timer) && (t.filter ==> s.filter)
  }

  predicate DisplayPart(r: DP.Display, s: DP.Display, done: nat) {
    DisplayEmptied(r) && DisplayNoMore(r, s) && done <= DisplayDone(r.at)
  }

  lemma DisplayModeTaken(s: DP.Display)
    requires s.view.modePc != 0
    ensures DisplayPart(DP.SweepMode(s), s, 4)
  {
  }

  lemma DisplayModeEmpty(s: DP.Display)
    requires s.view.modePc == 0
    ensures DisplayPart(DP.SweepMode(s), s, 4)
  {
  }

  lemma DisplayModePart(s: DP.Display)
    ensures DisplayPart(DP.SweepMode(s), s, 4)
  {
    if s.view.modePc != 0 { DisplayModeTaken(s); } else { DisplayModeEmpty(s); }
  }

  lemma DisplayOwnerPart(s: DP.Display)
    ensures DisplayPart(DP.SweepOwner(s), s, 3)
  {
    if !s.view.query { DisplayModePart(s); }
  }

  lemma DisplayStopPart(s: DP.Display)
    ensures DisplayPart(DP.SweepStopMessage(s), s, 2)
  {
    if !s.timer && s.bus { DisplayOwnerPart(s.(trace := s.trace + [DP.Ended(s)])); }
  }

  lemma DisplayRethinkPart(s: DP.Display)
    ensures DisplayPart(DP.SweepRethink(s), s, 1)
  {
    if !s.rethink && !s.timer && s.bus { DisplayOwnerPart(s); }
  }

  lemma DisplaySessionPart(s: DP.Display, stage: DP.Stage)
    requires stage.Rethink? || stage.StopMessage?
    ensures DisplayPart(DP.Sweep(s, stage), s, DisplayDone(DP.Sweeping(stage)))
  {
    if stage.Rethink? { DisplayRethinkPart(s); } else { DisplayStopPart(s); }
  }

  lemma DisplaySweepPart(s: DP.Display, stage: DP.Stage)
    ensures DisplayPart(DP.Sweep(s, stage), s, DisplayDone(DP.Sweeping(stage)))
  {
    if stage.Rethink? || stage.StopMessage? {
      DisplaySessionPart(s, stage);
    } else if stage.OwnerQuery? {
      DisplayOwnerPart(s);
    } else {
      DisplayModePart(s);
    }
  }

  /** In shutdown nothing is filled by anyone, and only the callback itself goes on. */
  lemma DisplayFillsNothing(s: DP.Display, e: DP.Event)
    requires DT.Inv(s) && s.inShutdown
    ensures DisplayNoMore(DP.Step(s, e), s) && DisplayDone(s.at) <= DisplayDone(DP.Step(s, e).at)
    ensures !e.Resume? ==> DP.Step(s, e).at == s.at
  {
    match e
    case Resume => if s.at.Sweeping? { DisplaySweepPart(s, s.at.stage); }
    case _ =>
  }

  lemma DisplayResumeEmpties(s: DP.Display)
    requires s.at.Sweeping?
    ensures DisplayEmptied(DP.GoOn(s))
  {
    var stage, r := s.at.stage, DP.GoOn(s);
    assert r == DP.Sweep(s, stage);
    DisplaySweepPart(s, stage);
  }

  lemma DisplayShutdownEmpties(s: DP.Display)
    requires DisplayEmptied(s)
    ensures DisplayEmptied(DP.Step(s, DP.ShutdownCb))
  {
    DisplayRethinkPart(s.(inShutdown := true));
  }

  lemma DisplaySameShutdown(s: DP.Display, e: DP.Event)
    requires !e.ShutdownCb?
    ensures DP.Step(s, e).inShutdown == s.inShutdown
  {
    if e.Resume? && s.at.Sweeping? {
      var stage, r := s.at.stage, DP.Sweep(s, s.at.stage);
      assert DP.Step(s, e) == r && r.inShutdown == s.inShutdown;
    }
  }

  lemma DisplayStaysEmptied(s: DP.Display, e: DP.Event)
    requires DT.Inv(s) && DisplayEmptied(s)
    ensures DisplayEmptied(DP.Step(s, e))
  {
    if e.Resume? && s.at.Sweeping? {
      DisplayResumeEmpties(s);
    } else if e.ShutdownCb? {
      DisplayShutdownEmpties(s);
    } else if s.inShutdown {
      DisplayFillsNothing(s, e);
    } else {
      DT.StepKeeps(s, e);
      DisplaySameShutdown(s, e);
    }
  }

  lemma {:induction false} DisplayAlwaysEmptied(owned: bool, allowed: bool, es: seq<DP.Event>)
    ensures DisplayEmptied(DP.Reach(owned, allowed, es)) && DT.Inv(DP.Reach(owned, allowed, es))
  {
    DT.RunKeeps(owned, allowed, es);
    if es != [] {
      DisplayAlwaysEmptied(owned, allowed, es[..|es| - 1]);
      DisplayStaysEmptied(DP.Reach(owned, allowed, es[..|es| - 1]), es[|es| - 1]);
    }
  }

  lemma DisplayRest(at: DP.At)
    ensures forall i | DisplayDone(at) <= i < |DISPLAY_SCRIPT| :: DISPLAY_SCRIPT[i] in DisplayTodo(at)
  {
    forall i | DisplayDone(at) <= i < |DISPLAY_SCRIPT|
      ensures DISPLAY_SCRIPT[i] in DisplayTodo(at)
    {
      assert DisplayTodo(at)[i - DisplayDone(at)] == DISPLAY_SCRIPT[i];
    }
  }

  function DisplayPlace(slot: OP.Slot): nat {
    if slot == RETHINK then 0 else if slot == SESSION then 1 else if slot == OWNER_QUERY then 2 else 3
  }

  lemma DisplayNotYet(s: DP.Display, slot: OP.Slot)
    requires DT.Inv(s) && DisplayEmptied(s) && s.inShutdown && slot in DISPLAY_SLOTS && DisplayFilled(s, slot)
    ensures DisplayDone(s.at) <= DisplayPlace(slot)
  {
  }

  lemma DisplayIsSwept(s: DP.Display)
    requires DT.Inv(s) && DisplayEmptied(s) && s.inShutdown
    ensures DisplaySwept(s)
  {
    DisplayRest(s.at);
    forall slot | slot in DISPLAY_SLOTS && DisplayFilled(s, slot)
      ensures OP.CancelSlot(slot) in DisplayTodo(s.at)
    {
      DisplayNotYet(s, slot);
      assert DISPLAY_SCRIPT[DisplayPlace(slot)] == OP.CancelSlot(slot);
    }
    if s.filter { assert DISPLAY_SCRIPT[4] == OP.DropFilter; }
  }

  /** When the callback is done nothing is left. */
  lemma DisplayIsDone(s: DP.Display)
    requires DT.Inv(s) && s.inShutdown && s.at.Idle?
    ensures !s.filter && forall slot | slot in DISPLAY_SLOTS :: !DisplayFilled(s, slot)
  {
  }

  lemma DisplayStepSwept(s: DP.Display, e: DP.Event)
    requires DT.Inv(s) && DisplayEmptied(s)
    ensures var t := DP.Step(s, e);
            && (t.inShutdown ==> DisplaySwept(t))
            && (t.inShutdown && t.at.Idle? ==> !t.filter && forall slot | slot in DISPLAY_SLOTS :: !DisplayFilled(t, slot))
  {
    var t := DP.Step(s, e);
    DisplayStaysEmptied(s, e);
    DT.StepKeeps(s, e);
    if t.inShutdown {
      DisplayIsSwept(t);
      if t.at.Idle? { DisplayIsDone(t); }
    }
  }

  lemma DisplayStepGoesOn(s: DP.Display, e: DP.Event)
    requires DT.Inv(s) && s.inShutdown
    ensures var t := DP.Step(s, e);
            && t.inShutdown && (t.filter ==> s.filter) && Later(DisplayTodo(t.at), DisplayTodo(s.at))
            && forall slot | DisplayFilled(t, slot) :: DisplayFilled(s, slot)
  {
    DisplayFillsNothing(s, e);
    DisplayLater(DP.Step(s, e).at, s.at);
    DisplayStaysShutdown(s, e);
  }

  lemma DisplayStaysShutdown(s: DP.Display, e: DP.Event)
    requires s.inShutdown
    ensures DP.Step(s, e).inShutdown
  {
    if !e.ShutdownCb? { DisplaySameShutdown(s, e); }
  }

  lemma DisplayLater(after: DP.At, before: DP.At)
    requires DisplayDone(before) <= DisplayDone(after)
    ensures Later(DisplayTodo(after), DisplayTodo(before))
  {
    EndsLater(DISPLAY_SCRIPT, DisplayDone(before), DisplayDone(after));
  }

  /** The same of the display controller. */
  lemma DisplaySweeps(owned: bool, allowed: bool, es: seq<DP.Event>, e: DP.Event)
    ensures var s, t := DP.Reach(owned, allowed, es), DP.Step(DP.Reach(owned, allowed, es), e);
            && (t.inShutdown ==> DisplaySwept(t))
            && (t.inShutdown && t.at.Idle? ==> !t.filter && forall slot | slot in DISPLAY_SLOTS :: !DisplayFilled(t, slot))
            && (s.inShutdown ==>
                  && t.inShutdown && (t.filter ==> s.filter) && Later(DisplayTodo(t.at), DisplayTodo(s.at))
                  && forall slot | DisplayFilled(t, slot) :: DisplayFilled(s, slot))
  {
    var s := DP.Reach(owned, allowed, es);
    DisplayAlwaysEmptied(owned, allowed, es);
    DisplayStepSwept(s, e);
    if s.inShutdown { DisplayStepGoesOn(s, e); }
  }
}
