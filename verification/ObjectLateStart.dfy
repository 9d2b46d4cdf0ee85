/** A run in which a start function is still unlocked when shutdown begins: its caller's
    reference was the last one, and another thread gave it up meanwhile. */
module ObjectLateStart {
  import opened ObjectProtocol
  import opened ObjectTheorems

  const SLOT: Slot := 7
  const STARTER: Tid := 1
  const UNREF: Tid := 2
  const LOOP: Tid := 3
  const START := Start(Timer)

  /** Before the shutdown callback runs; no bus, no pending calls. */
  function Before(ext: nat, internal: nat, slots: map<Slot, Sid>, lock: Option<Tid>, acts: map<Tid, Act>,
                  sources: map<Sid, Phase>, nextId: Sid, shutdownSrc: Sid): Kao {
    Kao(ext, internal, false, shutdownSrc, slots, false, {SLOT}, lock, acts, [], sources, {}, nextId, 0,
        shutdownSrc, [], Log(0, false, 0, false, false))
  }

  /** While it runs: the starter is at `pc`, the callback at `at`. */
  function During(inShutdown: bool, shutdownId: Sid, runs: nat, lock: Option<Tid>, pc: Pc, at: Pc, timer: Phase,
                  todo: seq<Op>): Kao {
    Kao(0, 3, inShutdown, shutdownId, map[], false, {SLOT}, lock,
        map[STARTER := Act(Orphan, pc, false), UNREF := Act(Leaving, Out, false), LOOP := Act(Dispatch(2), at, false)],
        [LOOP], map[1 := timer, 2 := Dispatching(LOOP, false)], {}, 3, 0, 2, todo, Log(runs, false, 0, false, false))
  }

  lemma Goes(es: seq<Event>, e: Event, s: Kao, s': Kao)
    requires Reach({SLOT}, es) == s && Enabled(s, e) && s.log.deletes == 0
    requires var r := Apply(s, e);
             r.acts == s'.acts && r.sources == s'.sources && r.slots == s'.slots
             && r == s'.(acts := r.acts, sources := r.sources, slots := r.slots)
    ensures Reach({SLOT}, es + [e]) == s'
  {
    assert (es + [e])[..|es|] == es;
  }

  function Calling(pc: Pc): map<Tid, Act> { map[STARTER := Act(Api, pc, false)] }

  /** A timer has been started. */
  lemma TimerStarts() returns (es: seq<Event>)
    ensures Reach({SLOT}, es) == Before(1, 1, map[SLOT := 1], Some(STARTER), Calling(Held), map[1 := Live], 2, 0)
  {
    var s0, s1 := Init({SLOT}), Before(1, 0, map[], None, Calling(Enter), map[], 1, 0);
    var s2 := Before(1, 0, map[], Some(STARTER), Calling(Held), map[], 1, 0);
    var s3 := Before(1, 1, map[], Some(STARTER), Calling(Loop(SLOT, START)), map[], 1, 0);
    assert Borrowers(s0) == {};
    Goes([], CallApi(STARTER), s0, s1);
    Goes([] + [CallApi(STARTER)], Acquire(STARTER), s1, s2);
    Goes([] + [CallApi(STARTER)] + [Acquire(STARTER)], BeginCancel(STARTER, SLOT, START), s2, s3);
    es := [] + [CallApi(STARTER)] + [Acquire(STARTER)] + [BeginCancel(STARTER, SLOT, START)];
    Goes(es, LoopStep(STARTER, true), s3,
         Before(1, 1, map[SLOT := 1], Some(STARTER), Calling(Held), map[1 := Live], 2, 0));
    es := es + [LoopStep(STARTER, true)];
  }

  /** It is started again, and the loop drops the mutex with the old id in hand. */
  lemma StartWaits() returns (es: seq<Event>)
    ensures Reach({SLOT}, es) ==
            Before(1, 2, map[], None, map[STARTER := Act(Orphan, Cancelling(SLOT, 1, START), false)], map[1 := Live], 2, 0)
  {
    es := TimerStarts();
    var s0 := Reach({SLOT}, es);
    var s1 := Before(1, 2, map[SLOT := 1], Some(STARTER), Calling(Loop(SLOT, START)), map[1 := Live], 2, 0);
    var s2 := Before(1, 2, map[], None, Calling(Cancelling(SLOT, 1, START)), map[1 := Live], 2, 0);
    Goes(es, BeginCancel(STARTER, SLOT, START), s0, s1);
    es := es + [BeginCancel(STARTER, SLOT, START)];
    Goes(es, LoopStep(STARTER, true), s1, s2);
    es := es + [LoopStep(STARTER, true)];
    Goes(es, Desert(STARTER), s2,
         s2.(acts := map[STARTER := Act(Orphan, Cancelling(SLOT, 1, START), false)]));
    es := es + [Desert(STARTER)];
  }

  function Waiting(role: Role, pc: Pc): map<Tid, Act> {
    map[STARTER := Act(Orphan, Cancelling(SLOT, 1, START), false), UNREF := Act(role, pc, false)]
  }

  /** Another call comes in, with the reference that the first one had. */
  lemma UnrefEnters() returns (es: seq<Event>)
    ensures Reach({SLOT}, es) == Before(1, 2, map[], Some(UNREF), Waiting(Api, Held), map[1 := Live], 2, 0)
  {
    es := StartWaits();
    var s0, s1 := Reach({SLOT}, es), Before(1, 2, map[], None, Waiting(Api, Enter), map[1 := Live], 2, 0);
    assert Borrowers(s0) == {};
    Goes(es, CallApi(UNREF), s0, s1);
    es := es + [CallApi(UNREF)];
    Goes(es, Acquire(UNREF), s1, Before(1, 2, map[], Some(UNREF), Waiting(Api, Held), map[1 := Live], 2, 0));
    es := es + [Acquire(UNREF)];
  }

  /** The last reference goes, and the shutdown source is scheduled. */
  lemma LastUnref() returns (es: seq<Event>)
    ensures Reach({SLOT}, es) == Before(0, 3, map[], None, Waiting(Leaving, Out), map[1 := Live, 2 := Live], 3, 2)
  {
    es := UnrefEnters();
    var s0 := Reach({SLOT}, es);
    var s1 := Before(0, 3, map[], Some(UNREF), Waiting(Leaving, Held), map[1 := Live, 2 := Live], 3, 2);
    Goes(es, UnrefExternal(UNREF), s0, s1);
    es := es + [UnrefExternal(UNREF)];
    Goes(es, Release(UNREF), s1, Before(0, 3, map[], None, Waiting(Leaving, Out), map[1 := Live, 2 := Live], 3, 2));
    es := es + [Release(UNREF)];
  }

  const WAITS := Cancelling(SLOT, 1, START)

  lemma ShutdownDispatched() returns (es: seq<Event>)
    ensures Reach({SLOT}, es) == During(false, 2, 0, Some(LOOP), WAITS, Held, Live, [])
  {
    es := LastUnref();
    var s0, s1 := Reach({SLOT}, es), During(false, 2, 0, None, WAITS, Enter, Live, []);
    Goes(es, DispatchSource(LOOP, 2), s0, s1);
    es := es + [DispatchSource(LOOP, 2)];
    Goes(es, Acquire(LOOP), s1, During(false, 2, 0, Some(LOOP), WAITS, Held, Live, []));
    es := es + [Acquire(LOOP)];
  }

  /** The shutdown callback begins while the start function waits. */
  lemma ShutdownBegins() returns (es: seq<Event>)
    ensures Reach({SLOT}, es) == During(true, 0, 1, Some(LOOP), WAITS, Held, Live, [CancelSlot(SLOT), DropFilter])
  {
    es := ShutdownDispatched();
    var script := [CancelSlot(SLOT), DropFilter];
    assert script[0] == CancelSlot(SLOT) && script[1] == DropFilter;
    Goes(es, BeginShutdown(LOOP, script, 0), Reach({SLOT}, es),
         During(true, 0, 1, Some(LOOP), WAITS, Held, Live, script));
    es := es + [BeginShutdown(LOOP, script, 0)];
  }

  /** It finds the slot empty, */
  lemma ShutdownSweeps() returns (es: seq<Event>)
    ensures Reach({SLOT}, es) == During(true, 0, 1, Some(LOOP), WAITS, Held, Live, [DropFilter])
  {
    es := ShutdownBegins();
    var s0, s1 := Reach({SLOT}, es), During(true, 0, 1, Some(LOOP), WAITS, Loop(SLOT, Stop), Live, [DropFilter]);
    Goes(es, BeginCancel(LOOP, SLOT, Stop), s0, s1);
    es := es + [BeginCancel(LOOP, SLOT, Stop)];
    Goes(es, LoopStep(LOOP, true), s1, During(true, 0, 1, Some(LOOP), WAITS, Held, Live, [DropFilter]));
    es := es + [LoopStep(LOOP, true)];
  }

  /** and comes back. */
  lemma ShutdownEnds() returns (es: seq<Event>)
    ensures Reach({SLOT}, es) == During(true, 0, 1, None, WAITS, Out, Live, [])
  {
    es := ShutdownSweeps();
    var s0, s1 := Reach({SLOT}, es), During(true, 0, 1, Some(LOOP), WAITS, Held, Live, []);
    Goes(es, RemoveFilter(LOOP), s0, s1);
    es := es + [RemoveFilter(LOOP)];
    Goes(es, Release(LOOP), s1, During(true, 0, 1, None, WAITS, Out, Live, []));
    es := es + [Release(LOOP)];
  }

  /** The start function comes back to its loop in shutdown, with nothing in its slot and the
      toolkit ready to create a timer; the step that would have created it does not. */
  lemma LateStart() returns (es: seq<Event>, e: Event)
    ensures var s := Reach({SLOT}, es);
            && s.inShutdown && s.todo == [] && e == LoopStep(STARTER, true) && Enabled(s, e)
            && s.acts[STARTER].pc == Loop(SLOT, Start(Timer)) && SLOT !in s.slots
    ensures Reach({SLOT}, es + [e]).slots == map[]
    ensures Reach({SLOT}, es + [e]).sources == map[1 := Awaiting, 2 := Dispatching(LOOP, false)]
    ensures Reach({SLOT}, es + [e]).internal == 2
  {
    es := ShutdownEnds();
    var s0 := Reach({SLOT}, es);
    var s1 := During(true, 0, 1, None, Relock(SLOT, START), Out, Awaiting, []);
    var s2 := During(true, 0, 1, Some(STARTER), Loop(SLOT, START), Out, Awaiting, []);
    Goes(es, RemoveSource(STARTER), s0, s1);
    es := es + [RemoveSource(STARTER)];
    Goes(es, Acquire(STARTER), s1, s2);
    es := es + [Acquire(STARTER)];
    e := LoopStep(STARTER, true);
    assert (es + [e])[..|es|] == es;
  }
}
