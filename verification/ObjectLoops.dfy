/** The cancel loop of the stop, cancel and start functions over whole runs: while it works
    without the mutex, any number of others may fill or empty its slot again. */
module ObjectLoops {
  import opened ObjectProtocol
  import opened ObjectSafety
  import opened ObjectReclaim
  import opened ObjectTheorems
  import opened ObjectOnce
  import opened KeepaliveObject

  /** The step is a turn of the activity's loop that takes an id out of the slot. */
  predicate TakesOut(s: Kao, e: Event, t: Tid) {
    e.LoopStep? && e.t == t && Enabled(s, e) && s.acts[t].pc.slot in s.slots
  }

  /** The ids the activity takes out, in order. */
  function TakenIds(owned: set<Slot>, start: seq<Event>, more: seq<Event>, t: Tid): seq<Sid> {
    if more == [] then []
    else
      var before, e := more[..|more| - 1], more[|more| - 1];
      var s := Reach(owned, start + before);
      TakenIds(owned, start, before, t) + (if TakesOut(s, e, t) then [s.slots[s.acts[t].pc.slot]] else [])
  }

  /** How often an empty slot is filled. */
  function Fills(owned: set<Slot>, start: seq<Event>, more: seq<Event>, slot: Slot): nat {
    if more == [] then 0
    else
      var before := more[..|more| - 1];
      Fills(owned, start, before, slot)
      + (if slot !in Reach(owned, start + before).slots && slot in Reach(owned, start + more).slots then 1 else 0)
  }

  predicate Inside(s: Kao, t: Tid, slot: Slot) { t in s.acts && InLoop(s.acts[t].pc, slot) }

  /** The activity does not leave the loop. */
  ghost predicate StaysInside(owned: set<Slot>, start: seq<Event>, more: seq<Event>, t: Tid, slot: Slot) {
    forall k {:trigger more[..k]} | 0 <= k <= |more| :: Inside(Reach(owned, start + more[..k]), t, slot)
  }

  function Filled(s: Kao, slot: Slot): nat { if slot in s.slots then 1 else 0 }

  /** What is still in the loop's hands: the last id taken, until it is removed. */
  function InHand(s: Kao, t: Tid): nat { if t in s.acts && s.acts[t].pc.Cancelling? then 1 else 0 }

  /** The ids removed so far. */
  ghost function RemovedBy(owned: set<Slot>, es: seq<Event>): iset<Sid> { iset id: Sid | Removals(owned, es, id) == 1 }

  /** In the middle of the loop: all ids taken but the one in hand have been removed, they are
      distinct, and no more than what was there and what has been filled in. */
  predicate Halfway(s: Kao, taken: seq<Sid>, removed: iset<Sid>, most: nat, t: Tid, slot: Slot) {
    && InHand(s, t) <= |taken|
    && (InHand(s, t) == 1 ==> taken[|taken| - 1] == s.acts[t].pc.id)
    && (forall i | 0 <= i < |taken| - InHand(s, t) :: taken[i] in removed)
    && (forall i, j | 0 <= i < j < |taken| :: taken[i] != taken[j])
    && |taken| + Filled(s, slot) <= most
  }

  /** The activity is half-way through its loop after `more`. */
  ghost predicate HalfwayAt(owned: set<Slot>, start: seq<Event>, more: seq<Event>, t: Tid, slot: Slot) {
    Halfway(Reach(owned, start + more), TakenIds(owned, start, more, t), RemovedBy(owned, start + more),
            Filled(Reach(owned, start), slot) + Fills(owned, start, more, slot), t, slot)
  }

  /** An id that a slot or a loop has is not removed yet. */
  lemma HeldNotRemoved(owned: set<Slot>, es: seq<Event>, id: Sid, slot: Slot)
    requires slot in Reach(owned, es).slots && Reach(owned, es).slots[slot] == id
    ensures Removals(owned, es, id) == 0
  {
    OneCustodian(owned, es, id);
    assert slot in HeldBySlots(Reach(owned, es), id);
  }

  lemma RemovalsGrow(owned: set<Slot>, es: seq<Event>, e: Event, id: Sid)
    ensures Removals(owned, es, id) <= Removals(owned, es + [e], id) <= 1
    ensures Enabled(Reach(owned, es), e) && Takes(Reach(owned, es), e, id) ==> Removals(owned, es + [e], id) == 1
  {
    assert (es + [e])[..|es|] == es;
    RemovedAtMostOnce(owned, es + [e], id);
  }

  /** One step of the activity inside its loop. */
  lemma OwnSteps(s: Kao, e: Event, t: Tid)
    requires Enabled(s, e) && e.t == t && t in s.acts && Looping(s.acts[t].pc)
    ensures e.LoopStep? || e.RemoveSource? || e.Acquire? || e.Desert? || e.Destroy?
    ensures e.LoopStep? <==> s.acts[t].pc.Loop? && !e.Destroy?
    ensures e.RemoveSource? ==> s.acts[t].pc.Cancelling?
    ensures e.Acquire? ==> s.acts[t].pc.Relock?
  {
  }

  datatype Change = Taken(id: Sid) | Gone(id: Sid) | Neither

  /** What a step does to the loop. */
  function ChangeOf(s: Kao, e: Event, t: Tid): Change {
    if TakesOut(s, e, t) then Taken(s.slots[s.acts[t].pc.slot])
    else if e.RemoveSource? && e.t == t && Enabled(s, e) then Gone(s.acts[t].pc.id)
    else Neither
  }

  function Gain(change: Change): seq<Sid> { if change.Taken? then [change.id] else [] }

  predicate Changed(s: Kao, s': Kao, t: Tid, slot: Slot, change: Change)
    requires t in s.acts && t in s'.acts
  {
    match change
    case Taken(id) => slot in s.slots && s.slots[slot] == id && slot !in s'.slots && InHand(s, t) == 0
                      && s'.acts[t].pc.Cancelling? && s'.acts[t].pc.id == id
    case Gone(id) => s.acts[t].pc.Cancelling? && s.acts[t].pc.id == id && InHand(s', t) == 0
                     && (slot in s'.slots ==> slot in s.slots)
    case Neither => InHand(s', t) == InHand(s, t) && (InHand(s, t) == 1 ==> s'.acts[t].pc.id == s.acts[t].pc.id)
  }

  lemma ApplyChanges(s: Kao, e: Event, t: Tid, slot: Slot)
    requires Enabled(s, e) && Inside(s, t, slot) && Inside(Apply(s, e), t, slot)
    ensures Changed(s, Apply(s, e), t, slot, ChangeOf(s, e, t))
  {
    if e.t != t {
      ApplyLeaves(s, e, t);
    } else {
      OwnSteps(s, e, t);
    }
  }

  lemma ReachGoesOn(owned: set<Slot>, es: seq<Event>, e: Event)
    ensures var s := Reach(owned, es);
            Reach(owned, es + [e]) == (if Enabled(s, e) then Apply(s, e) else s)
  {
    assert (es + [e])[..|es|] == es;
    RunInv(owned, es);
    if Enabled(Reach(owned, es), e) {
      StepIsApply(Reach(owned, es), e);
    }
  }

  lemma StepChanges(owned: set<Slot>, es: seq<Event>, e: Event, t: Tid, slot: Slot)
    requires Inside(Reach(owned, es), t, slot) && Inside(Reach(owned, es + [e]), t, slot)
    ensures Changed(Reach(owned, es), Reach(owned, es + [e]), t, slot, ChangeOf(Reach(owned, es), e, t))
  {
    ReachGoesOn(owned, es, e);
    if Enabled(Reach(owned, es), e) {
      ApplyChanges(Reach(owned, es), e, t, slot);
    }
  }

  /** The run after one more step: what has been taken, and what has been filled in. */
  lemma Unfolds(owned: set<Slot>, start: seq<Event>, before: seq<Event>, e: Event, t: Tid, slot: Slot)
    ensures start + (before + [e]) == (start + before) + [e]
    ensures var s, s' := Reach(owned, start + before), Reach(owned, start + before + [e]);
            && TakenIds(owned, start, before + [e], t)
                 == TakenIds(owned, start, before, t) + Gain(ChangeOf(s, e, t))
            && Fills(owned, start, before + [e], slot)
                 == Fills(owned, start, before, slot) + (if slot !in s.slots && slot in s'.slots then 1 else 0)
  {
    assert start + (before + [e]) == (start + before) + [e];
    assert (before + [e])[..|before|] == before;
  }

  /** Ids that were removed stay so, and one that a slot has is not among them. */
  lemma StayRemoved(owned: set<Slot>, es: seq<Event>, e: Event)
    ensures RemovedBy(owned, es) <= RemovedBy(owned, es + [e])
  {
    forall id | id in RemovedBy(owned, es)
      ensures id in RemovedBy(owned, es + [e])
    {
      RemovalsGrow(owned, es, e, id);
    }
  }

  lemma GoneIsRemoved(owned: set<Slot>, es: seq<Event>, e: Event, t: Tid)
    requires ChangeOf(Reach(owned, es), e, t).Gone?
    ensures ChangeOf(Reach(owned, es), e, t).id in RemovedBy(owned, es + [e])
  {
    RemovalsGrow(owned, es, e, ChangeOf(Reach(owned, es), e, t).id);
  }

  /** A step of the run, as far as it concerns the loop. */
  lemma Advance(s: Kao, s': Kao, taken: seq<Sid>, removed: iset<Sid>, removed': iset<Sid>, most: nat, t: Tid, slot: Slot,
                change: Change)
    requires Halfway(s, taken, removed, most, t, slot)
    requires t in s.acts && t in s'.acts && Changed(s, s', t, slot, change) && removed <= removed'
    requires change.Gone? ==> change.id in removed'
    requires change.Taken? ==> change.id !in removed
    ensures Halfway(s', taken + Gain(change), removed',
                    most + (if slot !in s.slots && slot in s'.slots then 1 else 0), t, slot)
  {
    if !change.Taken? { assert taken + [] == taken; }
  }

  lemma NextHalf(owned: set<Slot>, start: seq<Event>, before: seq<Event>, e: Event, t: Tid, slot: Slot)
    requires HalfwayAt(owned, start, before, t, slot)
    requires Inside(Reach(owned, start + before), t, slot) && Inside(Reach(owned, start + before + [e]), t, slot)
    ensures HalfwayAt(owned, start, before + [e], t, slot)
  {
    var es := start + before;
    var s := Reach(owned, es);
    var change := ChangeOf(s, e, t);
    StepChanges(owned, es, e, t, slot);
    Unfolds(owned, start, before, e, t, slot);
    StayRemoved(owned, es, e);
    if change.Gone? { GoneIsRemoved(owned, es, e, t); }
    if change.Taken? { HeldNotRemoved(owned, es, change.id, slot); }
    Advance(s, Reach(owned, es + [e]), TakenIds(owned, start, before, t), RemovedBy(owned, es), RemovedBy(owned, es + [e]),
            Filled(Reach(owned, start), slot) + Fills(owned, start, before, slot), t, slot, change);
  }

  lemma {:induction false} LoopKeepsCount(owned: set<Slot>, start: seq<Event>, more: seq<Event>, t: Tid, slot: Slot)
    requires StaysInside(owned, start, more, t, slot) && InHand(Reach(owned, start), t) == 0
    ensures HalfwayAt(owned, start, more, t, slot)
  {
    if more == [] {
      assert start + more == start;
    } else {
      var before, e := more[..|more| - 1], more[|more| - 1];
      assert more == before + [e] && start + more == start + before + [e];
      assert StaysInside(owned, start, before, t, slot) by {
        forall k | 0 <= k <= |before|
          ensures Inside(Reach(owned, start + before[..k]), t, slot)
        {
          assert before[..k] == more[..k];
        }
      }
      LoopKeepsCount(owned, start, before, t, slot);
      assert more[..|before|] == before && more[..|more|] == more;
      NextHalf(owned, start, before, e, t, slot);
    }
  }

  /** A loop is left only with its slot empty. */
  lemma LeavesEmpty(s: Kao, t: Tid, ok: bool)
    requires CanLoop(s, t) && DoLoop(s, t, ok).acts[t].pc.Held?
    ensures s.acts[t].pc.slot !in s.slots
  {
  }

  lemma Enters(owned: set<Slot>, es: seq<Event>, t: Tid, slot: Slot, after: After)
    requires Enabled(Reach(owned, es), BeginCancel(t, slot, after))
    ensures var s, s' := Reach(owned, es), Reach(owned, es + [BeginCancel(t, slot, after)]);
            s'.slots == s.slots && InHand(s', t) == 0
  {
    ReachGoesOn(owned, es, BeginCancel(t, slot, after));
  }

  /** The activity enters a cancel loop after `es`, is in it throughout `more`, and its next
      step leaves it with the mutex held. */
  ghost predicate RunsLoop(owned: set<Slot>, es: seq<Event>, t: Tid, slot: Slot, after: After, more: seq<Event>, ok: bool) {
    var start := es + [BeginCancel(t, slot, after)];
    var end := Reach(owned, start + more);
    && Enabled(Reach(owned, es), BeginCancel(t, slot, after))
    && StaysInside(owned, start, more, t, slot)
    && Inside(end, t, slot) && CanLoop(end, t) && !end.log.aborted
    && DoLoop(end, t, ok).acts[t].pc.Held?
  }

  /** Whatever the others do meanwhile, an activity that has entered a cancel loop and leaves
      it does so with the slot empty.  The ids it took out are all different, it has removed
      each of them, nobody removes one twice, and there are no more of them than what it found
      and what was filled in behind its back. */
  lemma CancelLoopEnds(owned: set<Slot>, es: seq<Event>, t: Tid, slot: Slot, after: After, more: seq<Event>, ok: bool)
    requires RunsLoop(owned, es, t, slot, after, more, ok)
    ensures var start := es + [BeginCancel(t, slot, after)];
            var taken := TakenIds(owned, start, more, t);
            && slot !in Reach(owned, start + more).slots
            && |taken| <= Filled(Reach(owned, es), slot) + Fills(owned, start, more, slot)
            && (forall i | 0 <= i < |taken| :: Removals(owned, start + more, taken[i]) == 1)
            && (forall i, j | 0 <= i < j < |taken| :: taken[i] != taken[j])
  {
    var start := es + [BeginCancel(t, slot, after)];
    Enters(owned, es, t, slot, after);
    LoopKeepsCount(owned, start, more, t, slot);
    LeavesEmpty(Reach(owned, start + more), t, ok);
  }
}
