/** What holds of a `keepalive_object_t` in every run: any number of threads, any order
    of steps. */
module ObjectTheorems {
  import opened ObjectProtocol
  import opened ObjectSafety
  import opened ObjectReclaim
  import opened ObjectMeasure

  function Reach(owned: set<Slot>, es: seq<Event>): Kao { Run(Init(owned), es) }

  lemma {:induction false} RunInv(owned: set<Slot>, es: seq<Event>)
    ensures Inv(Reach(owned, es)) && Clean(Reach(owned, es))
  {
    if es == [] {
      assert Borrowers(Init(owned)) == {} && Starters(Init(owned)) == {};
    } else {
      var s := Reach(owned, es[..|es| - 1]);
      RunInv(owned, es[..|es| - 1]);
      StepKeeps(s, es[|es| - 1]);
      StepKeepsClean(s, es[|es| - 1]);
    }
  }

  /** Reference accounting: no ref or unref can abort, and the internal count is exactly
      the sources whose notification has not dropped its reference plus the start
      functions in progress. */
  lemma ReferenceAccounting(owned: set<Slot>, es: seq<Event>)
    ensures var s := Reach(owned, es);
            !s.log.aborted && s.internal == |s.sources| + |Starters(s)| && |Borrowers(s)| <= s.ext
  {
    RunInv(owned, es);
  }

  /** What that accounting is for: whenever a reference is taken or dropped the count it needs is
      there, so that an abort would have to be a wrong count; and each moves its count by one. */
  lemma AbortsAreOutOfReach(owned: set<Slot>, es: seq<Event>, e: Event)
    requires Enabled(Reach(owned, es), e)
    ensures var s, s' := Reach(owned, es), Reach(owned, es + [e]);
            && (e.RefExternal? || e.UnrefExternal? ==> s.ext > 0)
            && (e.BeginCancel? && e.after.Start? ==> s.ext > 0 || s.internal > 0)
            && (e.UnrefInternal? || (e.LoopStep? && s.acts[e.t].pc.after.Start?) ==> s.internal > 0)
            && s'.ext == s.ext + (if e.RefExternal? then 1 else if e.UnrefExternal? then -1 else 0)
            && (e.UnrefInternal? ==> s'.internal == s.internal - 1)
            && (e.UnrefExternal? ==> s'.internal == s.internal + (if s.ext == 1 then 1 else 0))
  {
    RunInv(owned, es);
    assert (es + [e])[..|es|] == es;
    StepIsApply(Reach(owned, es), e);
    CountsSuffice(Reach(owned, es), e);
    CountsMoveByOne(Reach(owned, es), e);
  }

  lemma CountsSuffice(s: Kao, e: Event)
    requires Inv(s) && Enabled(s, e)
    ensures e.RefExternal? || e.UnrefExternal? ==> s.ext > 0
    ensures e.BeginCancel? && e.after.Start? ==> s.ext > 0 || s.internal > 0
    ensures e.UnrefInternal? || (e.LoopStep? && s.acts[e.t].pc.after.Start?) ==> s.internal > 0
  {
    if e.RefExternal? || e.UnrefExternal? || e.BeginCancel? || e.UnrefInternal? || (e.LoopStep? && s.acts[e.t].pc.after.Start?) {
      Covered(s, e.t);
    }
  }

  lemma CountsMoveByOne(s: Kao, e: Event)
    requires Enabled(s, e)
    requires e.RefExternal? || e.UnrefExternal? ==> s.ext > 0
    requires e.UnrefInternal? ==> s.internal > 0
    requires e.UnrefExternal? && s.ext == 1 ==> !s.inShutdown && s.shutdownId == 0
    ensures var s' := Apply(s, e);
            && s'.ext == s.ext + (if e.RefExternal? then 1 else if e.UnrefExternal? then -1 else 0)
            && (e.UnrefInternal? ==> s'.internal == s.internal - 1)
            && (e.UnrefExternal? ==> s'.internal == s.internal + (if s.ext == 1 then 1 else 0))
  {
  }

  /** Delete safety: at most one delete, only after the shutdown callback has returned and
      with no reference, source, slot, bus filter or call left; nothing touches the object
      afterwards, and what activities are left have unlocked it for the last time. */
  lemma DeleteSafety(owned: set<Slot>, es: seq<Event>)
    ensures var s := Reach(owned, es);
            && s.log.deletes <= 1 && !s.log.touchedDead
            && (s.log.deletes == 1 ==>
                  s.ext == 0 && s.internal == 0 && s.sources == map[] && Borrowers(s) == {} &&
                  s.lock.None? && s.log.shutdownRuns == 1 && s.log.shutdownReturned && s.slots == map[] &&
                  !s.filter && s.main == [] && forall t | t in s.acts :: s.acts[t].pc.Out? && !s.acts[t].doomed)
  {
    RunInv(owned, es);
    var s := Reach(owned, es);
    if s.log.deletes == 1 {
      assert |s.sources| == 0;
      assert |Borrowers(s)| == 0;
      NothingLeft(s);
    }
  }

  lemma NothingLeft(s: Kao)
    requires Inv(s) && Clean(s) && s.log.deletes == 1 && s.sources == map[]
    ensures s.slots == map[] && s.main == [] && s.log.shutdownReturned && !s.filter
    ensures forall t | t in s.acts :: s.acts[t].pc.Out? && !s.acts[t].doomed
  {
    forall t | t in s.acts
      ensures s.acts[t].pc.Out? && !s.acts[t].doomed && !OnMain(s.acts[t].role)
    {
      DeadIsQuiet(s, t);
    }
    NoCallbacks(s);
    NoSlots(s);
  }

  /** An unlock that decides to delete is the last use of the object by anyone. */
  lemma DoomIsExclusive(owned: set<Slot>, es: seq<Event>, t: Tid, e: Event)
    requires var s := Reach(owned, es); t in s.acts && s.acts[t].doomed
    ensures Touches(e) && e != Destroy(t) ==> !Enabled(Reach(owned, es), e)
  {
    RunInv(owned, es);
    var s := Reach(owned, es);
    if e.t in s.acts && e.t != t {
      DoomedIsQuiet(s, t, e.t);
    }
    OutTouchesNothing(s, t, e);
  }

  lemma DoomedIsQuiet(s: Kao, t: Tid, u: Tid)
    requires Inv(s) && t in s.acts && s.acts[t].doomed && u in s.acts && u != t
    ensures s.acts[u].pc.Out? && !s.acts[u].doomed
  {
    if s.acts[u].role.Api? || OnMain(s.acts[u].role) || s.acts[u].role.Notify? || Starting(s.acts[u].pc) {
      Covered(s, u);
    }
  }

  lemma OutTouchesNothing(s: Kao, t: Tid, e: Event)
    requires t in s.acts && s.acts[t].doomed && s.acts[t].pc.Out?
    requires e.t in s.acts && e.t != t ==> s.acts[e.t].pc.Out? && !s.acts[e.t].doomed
    ensures Touches(e) && e != Destroy(t) ==> !Enabled(s, e)
  {
  }

  /** Exactly one shutdown: the external count is zero exactly when the shutdown source is
      scheduled or its callback has begun, the callback begins at most once, and until it
      is done its source keeps the object in memory. */
  lemma OneShutdown(owned: set<Slot>, es: seq<Event>)
    ensures var s := Reach(owned, es);
            && (s.ext == 0 <==> s.shutdownId != 0 || s.inShutdown)
            && !(s.shutdownId != 0 && s.inShutdown)
            && s.log.shutdownRuns == (if s.inShutdown then 1 else 0)
            && (s.ext == 0 && !s.log.shutdownReturned ==> s.shutdownSrc in s.sources && s.internal > 0)
  {
    RunInv(owned, es);
    var s := Reach(owned, es);
    if s.ext == 0 && !s.log.shutdownReturned {
      assert s.shutdownSrc in s.sources.Keys;
    }
  }

  /** The shutdown callback begins with any script that covers the slots and the filter, and
      leaves the handlers any amount of work. */
  lemma ShutdownBegins(owned: set<Slot>, es: seq<Event>, t: Tid, script: seq<Op>, budget: nat)
    requires var s := Reach(owned, es); AtHeld(s, t) && InScript(s, t) && s.shutdownId != 0 && Covers(script, owned)
    requires forall i | 0 <= i < |script| :: script[i].CancelSlot? ==> script[i].slot in owned
    ensures var s, s' := Reach(owned, es), Reach(owned, es + [BeginShutdown(t, script, budget)]);
            s'.inShutdown && s'.shutdownId == 0 && s'.todo == script && s'.budget == budget
            && s'.slots == s.slots && s'.sources == s.sources && s'.acts == s.acts && s'.filter == s.filter
  {
    RunInv(owned, es);
    OwnedStays(owned, es);
    assert (es + [BeginShutdown(t, script, budget)])[..|es|] == es;
    StepIsApply(Reach(owned, es), BeginShutdown(t, script, budget));
  }

  lemma {:induction false} OwnedStays(owned: set<Slot>, es: seq<Event>)
    ensures Reach(owned, es).owned == owned
  {
    if es != [] {
      OwnedStays(owned, es[..|es| - 1]);
    }
  }

  /** A callback that asks to go on leaves its source with the main loop, unless that was removed
      meanwhile; any other one leaves it to its destroy notification. */
  lemma CallbackDecides(owned: set<Slot>, es: seq<Event>, t: Tid, keep: bool)
    requires var s := Reach(owned, es); Enabled(s, Return(t, keep)) && s.acts[t].role.Dispatch?
    ensures var s, s' := Reach(owned, es), Reach(owned, es + [Return(t, keep)]);
            var id := s.acts[t].role.id;
            && id in s.sources && s.sources[id].Dispatching? && id in s'.sources && t !in s'.acts
            && (s'.sources[id].Live? <==> keep && !s.sources[id].removed)
            && (!s'.sources[id].Live? ==> s'.sources[id].Awaiting?)
  {
    RunInv(owned, es);
    var s := Reach(owned, es);
    assert ActOk(s, t);
    assert (es + [Return(t, keep)])[..|es|] == es;
    StepIsApply(s, Return(t, keep));
  }

  /** The bus filter is there from the moment it is installed, and is heard by the main loop. */
  lemma FilterIsHeard(owned: set<Slot>, es: seq<Event>, t: Tid, u: Tid)
    requires Enabled(Reach(owned, es), InstallFilter(t)) && u !in Reach(owned, es).acts
    ensures var s := Reach(owned, es + [InstallFilter(t)]);
            s.filter && (s.main == [] ==> Enabled(s, HearSignal(u)))
  {
    RunInv(owned, es);
    assert (es + [InstallFilter(t)])[..|es|] == es;
    StepIsApply(Reach(owned, es), InstallFilter(t));
  }

  /** In shutdown no step creates a timer or a watch, not even a start that waits in its
      unlocked stretch, and no external reference and no bus filter comes back.  What a step
      can still create is a pending call, by the end of a start begun for one. */
  lemma NothingNewInShutdown(owned: set<Slot>, es: seq<Event>, e: Event)
    requires Reach(owned, es).inShutdown
    ensures var s, s' := Reach(owned, es), Reach(owned, es + [e]);
            && s'.inShutdown && s'.ext == 0 && (s'.filter ==> s.filter)
            && if e.LoopStep? && Enabled(s, e) && s.acts[e.t].pc.after == Start(Call)
               then s'.sources.Keys <= s.sources.Keys + (s'.calls - s.calls)
                    && s'.slots.Keys <= s.slots.Keys + {s.acts[e.t].pc.slot}
               else s'.sources.Keys <= s.sources.Keys && s'.slots.Keys <= s.slots.Keys
  {
    RunInv(owned, es);
    var s := Reach(owned, es);
    assert (es + [e])[..|es|] == es;
    if Enabled(s, e) {
      StepIsApply(s, e);
      assert Closing(s);
      ClosingIsClosed(s);
      StepCloses(s, e);
      OldSources(s, e);
    }
  }

  lemma OldSources(s: Kao, e: Event)
    requires Inv(s) && Closed(s) && s.inShutdown && Enabled(s, e)
    ensures var s' := Apply(s, e);
            && (s'.filter ==> s.filter)
            && if e.LoopStep? && s.acts[e.t].pc.after == Start(Call)
               then s'.sources.Keys <= s.sources.Keys + (s'.calls - s.calls)
                    && s'.slots.Keys <= s.slots.Keys + {s.acts[e.t].pc.slot}
               else s'.sources.Keys <= s.sources.Keys && s'.slots.Keys <= s.slots.Keys
  {
    CallsOver(s, e);
    NotYet(s, e);
    if e.LoopStep? {
      LoopSources(s, e.t, e.ok);
    } else if e.DispatchSource? || e.RunNotify? || e.Return? || e.RemoveSource? || e.UnrefInternal? {
      OldKeys(s, e);
    } else {
      OtherKeys(s, e);
    }
  }

  lemma LoopSources(s: Kao, t: Tid, ok: bool)
    requires IdInv(s) && CanLoop(s, t) && s.inShutdown
    ensures var s' := DoLoop(s, t, ok);
            if s.acts[t].pc.after == Start(Call)
            then s'.sources.Keys <= s.sources.Keys + (s'.calls - s.calls)
                 && s'.slots.Keys <= s.slots.Keys + {s.acts[t].pc.slot}
            else s'.sources.Keys <= s.sources.Keys && s'.slots.Keys <= s.slots.Keys
  {
  }

  lemma OldKeys(s: Kao, e: Event)
    requires PairInv(s) && Enabled(s, e)
    requires e.DispatchSource? || e.RunNotify? || e.Return? || e.RemoveSource? || e.UnrefInternal?
    ensures var s' := Apply(s, e);
            s'.sources.Keys <= s.sources.Keys && s'.slots == s.slots && s'.filter == s.filter
  {
    match e
    case Return(t, keep) => ReturnKeys(s, t, keep);
    case UnrefInternal(t) => UnrefKeys(s, t);
    case _ =>
  }

  lemma ReturnKeys(s: Kao, t: Tid, keep: bool)
    requires t in s.acts
    ensures var s' := DoReturn(s, t, keep);
            s'.sources.Keys <= s.sources.Keys && s'.slots == s.slots && s'.filter == s.filter
  {
  }

  lemma UnrefKeys(s: Kao, t: Tid)
    requires CanUnrefInternal(s, t)
    ensures var s' := DoUnrefInternal(s, t);
            s'.sources.Keys <= s.sources.Keys && s'.slots == s.slots && s'.filter == s.filter
  {
  }

  lemma OtherKeys(s: Kao, e: Event)
    requires s.inShutdown && Enabled(s, e)
    requires e.HearSignal? || e.Acquire? || e.BeginCancel? || e.OpenWindow? || e.SkipFlush? || e.RemoveFilter?
             || e.ClearOwn? || e.BeginShutdown? || e.Release? || e.Destroy?
    ensures var s' := Apply(s, e);
            s'.sources.Keys <= s.sources.Keys && s'.slots.Keys <= s.slots.Keys && (s'.filter ==> s.filter)
  {
  }

  // --------------------------------------------------------- reclamation

  /** After the last external unref the object is deleted, or some step is enabled. */
  lemma NeverStuck(owned: set<Slot>, es: seq<Event>) returns (e: Event)
    requires Reach(owned, es).ext == 0 && !Final(Reach(owned, es))
    ensures Enabled(Reach(owned, es), e)
  {
    RunInv(owned, es);
    e := Progress(Reach(owned, es));
  }

  /** From the dispatch of the shutdown source on, every step leaves less to do. */
  lemma StepBrings(owned: set<Slot>, es: seq<Event>, e: Event)
    requires Closing(Reach(owned, es)) && Enabled(Reach(owned, es), e)
    ensures Closing(Reach(owned, es + [e]))
    ensures Shrinks(Reach(owned, es + [e]), Reach(owned, es))
  {
    RunInv(owned, es);
    assert (es + [e])[..|es|] == es;
    StepIsApply(Reach(owned, es), e);
    StepCloses(Reach(owned, es), e);
    StepShrinks(Reach(owned, es), e);
  }

  /** The first `n` steps of a schedule, after what has happened before. */
  ghost function Followed(es: seq<Event>, schedule: nat -> Event, n: nat): seq<Event> {
    if n == 0 then es else Followed(es, schedule, n - 1) + [schedule(n - 1)]
  }

  /** The schedule takes an enabled step whenever there is one. */
  ghost predicate Busy(owned: set<Slot>, es: seq<Event>, schedule: nat -> Event) {
    forall k: nat :: Final(Reach(owned, Followed(es, schedule, k)))
                     || Enabled(Reach(owned, Followed(es, schedule, k)), schedule(k))
  }

  /** A sequence of weights does not get lighter for ever. */
  lemma Bottoms(weights: nat -> Load, from: nat, w: Load) returns (n: nat)
    requires w == weights(from)
    ensures n >= from && !Lighter(weights(n + 1), weights(n))
    decreases w.notBegun, w.budget, w.starters, w.stages, w.todo, w.slots, w.ranks
  {
    if Lighter(weights(from + 1), w) {
      n := Bottoms(weights, from + 1, weights(from + 1));
    } else {
      n := from;
    }
  }

  lemma {:induction false} StillClosing(owned: set<Slot>, es: seq<Event>, schedule: nat -> Event, k: nat, n: nat)
    requires k <= n && Closing(Reach(owned, Followed(es, schedule, k)))
    ensures Closing(Reach(owned, Followed(es, schedule, n)))
  {
    if n > k {
      StillClosing(owned, es, schedule, k, n - 1);
      var before := Followed(es, schedule, n - 1);
      var e := schedule(n - 1);
      if Enabled(Reach(owned, before), e) {
        StepBrings(owned, before, e);
      } else {
        assert (before + [e])[..|before|] == before;
      }
    }
  }

  lemma GetsLighter(owned: set<Slot>, es: seq<Event>, schedule: nat -> Event, n: nat)
    requires Busy(owned, es, schedule) && Closing(Reach(owned, Followed(es, schedule, n)))
    ensures Final(Reach(owned, Followed(es, schedule, n))) ||
            Lighter(Weigh(Reach(owned, Followed(es, schedule, n + 1))),
                    Weigh(Reach(owned, Followed(es, schedule, n))))
  {
    if !Final(Reach(owned, Followed(es, schedule, n))) {
      StepBrings(owned, Followed(es, schedule, n), schedule(n));
    }
  }

  lemma ClosingEnds(owned: set<Slot>, es: seq<Event>, schedule: nat -> Event, k: nat) returns (n: nat)
    requires Busy(owned, es, schedule) && Closing(Reach(owned, Followed(es, schedule, k)))
    ensures Final(Reach(owned, Followed(es, schedule, n)))
  {
    var weights := (i: nat) => Weigh(Reach(owned, Followed(es, schedule, i)));
    n := Bottoms(weights, k, weights(k));
    StillClosing(owned, es, schedule, k, n);
    GetsLighter(owned, es, schedule, n);
  }

  /** The schedule comes to dispatch the shutdown source. */
  ghost predicate DispatchesShutdown(owned: set<Slot>, es: seq<Event>, schedule: nat -> Event, k: nat) {
    var s, e := Reach(owned, Followed(es, schedule, k)), schedule(k);
    e.DispatchSource? && e.id == s.shutdownSrc && Enabled(s, e)
  }

  lemma DispatchCloses(owned: set<Slot>, es: seq<Event>, e: Event)
    requires var s := Reach(owned, es); e.DispatchSource? && e.id == s.shutdownSrc && Enabled(s, e)
    ensures Closing(Reach(owned, es + [e]))
  {
    RunInv(owned, es);
    assert (es + [e])[..|es|] == es;
    StepIsApply(Reach(owned, es), e);
  }

  /** Guaranteed reclamation: every schedule that does not idle and at some point dispatches
      the shutdown source, as a fair main loop does after the last external unref, deletes the
      object, and then every slot and source is gone and the bus filter removed. */
  lemma Reclaimed(owned: set<Slot>, es: seq<Event>, schedule: nat -> Event, k: nat) returns (n: nat)
    requires Busy(owned, es, schedule) && DispatchesShutdown(owned, es, schedule, k)
    ensures var s := Reach(owned, Followed(es, schedule, n));
            Final(s) && s.sources == map[] && s.slots == map[] && s.internal == 0 && s.ext == 0 && !s.filter
  {
    DispatchCloses(owned, Followed(es, schedule, k), schedule(k));
    n := ClosingEnds(owned, es, schedule, k + 1);
    RunInv(owned, Followed(es, schedule, n));
    FinalIsClean(Reach(owned, Followed(es, schedule, n)));
  }
}
