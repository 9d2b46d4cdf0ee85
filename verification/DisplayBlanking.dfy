/** `DisplayBlankingSingleton` and `DisplayBlankingPrivate` of lib/displayblanking_p.cpp: one
    shared object under any number of clients.

    A client's destructor first takes back its prevention, whose signal may run arbitrary
    code, and then lets go of the singleton; in between the client is `dying`. */
module DisplayBlanking {
  import opened Sessions

  datatype Instance = NoInstance | Instance(refCount: int, objects: set<Client>, allowed: bool, timer: bool)

  datatype Blanking = Blanking(
    instance: Instance,
    live: set<Client>, dying: set<Client>,
    prevents: set<Client>,  // the clients with m_preventBlanking
    trace: seq<Msg>)   // what MCE has been told

  datatype Event =
    | Create(client: Client) | SetPrevent(client: Client, prevent: bool) | BeginDelete(client: Client) | EndDelete(client: Client)
    | PreventMode(allowed: bool) | RenewTimer

  function Init(): Blanking { Blanking(NoInstance, {}, {}, {}, []) }

  predicate Wanted(i: Instance) { i.Instance? && i.allowed && i.objects != {} }

  function Evaluated(i: Instance): Instance
    requires i.Instance?
  {
    i.(timer := Wanted(i))
  }

  /** What `evaluateKeepalive` tells MCE */
  function Told(i: Instance): seq<Msg>
    requires i.Instance?
  {
    if i.timer == Wanted(i) then [] else if Wanted(i) then [Start] else [Stop]
  }

  /** `instance` */
  function Created(s: Blanking, client: Client): Blanking {
    var i := if s.instance.NoInstance? then Instance(0, {}, false, false) else s.instance;
    s.(instance := i.(refCount := i.refCount + 1), live := s.live + {client})
  }

  /** `setPreventBlanking` with `attachPreventingObject` and `detachPreventingObject` */
  function Prevented(s: Blanking, client: Client, prevent: bool): Blanking {
    if (client in s.prevents) == prevent || s.instance.NoInstance? then s
    else
      var objects := if prevent then s.instance.objects + {client} else s.instance.objects - {client};
      var i := s.instance.(objects := objects);
      var prevents := if prevent then s.prevents + {client} else s.prevents - {client};
      s.(instance := Evaluated(i), prevents := prevents, trace := s.trace + Told(i))
  }

  /** `releaseInstance`, and the end of the client */
  function Deleted(s: Blanking, client: Client): Blanking {
    var i := s.instance;
    var next := if i.NoInstance? || i.refCount <= 0 then i
                else if i.refCount == 1 then NoInstance
                else i.(refCount := i.refCount - 1);
    s.(instance := next, live := s.live - {client}, dying := s.dying - {client}, prevents := s.prevents - {client})
  }

  /** `updatePreventMode` */
  function Moded(s: Blanking, allowed: bool): Blanking {
    if s.instance.NoInstance? || s.instance.allowed == allowed then s
    else
      var i := s.instance.(allowed := allowed);
      s.(instance := Evaluated(i), trace := s.trace + Told(i))
  }

  /** No client is created twice or used when gone; the handler of the signal that its
      destructor emits may still make it prevent blanking again. */
  function Step(s: Blanking, e: Event): Blanking {
    match e
    case Create(c) => if c in s.live then s else Created(s, c)
    case SetPrevent(c, prevent) => if c in s.live then Prevented(s, c, prevent) else s
    case BeginDelete(c) =>
      if c in s.live && c !in s.dying then Prevented(s, c, false).(dying := s.dying + {c}) else s
    case EndDelete(c) => if c in s.dying then Deleted(s, c) else s
    case PreventMode(allowed) => Moded(s, allowed)
    case RenewTimer => if s.instance.Instance? && s.instance.timer then s.(trace := s.trace + [Renew]) else s
  }

  function Run(s: Blanking, es: seq<Event>): Blanking {
    if es == [] then s else Step(Run(s, es[..|es| - 1]), es[|es| - 1])
  }

  /** There is an instance exactly while there are clients.  It counts them, holds those that
      prevent blanking, and renews exactly while prevention is allowed and wanted; MCE has been
      told so. */
  predicate Inv(s: Blanking) {
    && (s.instance.NoInstance? <==> s.live == {})
    && s.prevents <= s.live
    && (s.instance.Instance? ==>
          && s.instance.refCount == |s.live|
          && s.instance.objects == s.prevents
          && (s.instance.timer <==> s.instance.allowed && s.prevents != {}))
    && Grammar(s.trace, false)
    && (Open(s.trace) <==> s.instance.Instance? && s.instance.timer)
  }

  /** Clients whose destructor runs are still there. */
  predicate Orderly(s: Blanking) { s.dying <= s.live }

  /** The client does not prevent blanking when it lets go of the singleton, or is the last one
      and not allowed to. */
  predicate Harmless(s: Blanking, client: Client) {
    client !in s.prevents || (s.live == {client} && s.instance.Instance? && !s.instance.timer)
  }

  predicate TidyStep(s: Blanking, e: Event) { e.EndDelete? && e.client in s.dying ==> Harmless(s, e.client) }

  /** No destructor ends with its client preventing blanking, or none that it matters for. */
  ghost predicate Tidy(es: seq<Event>) {
    es == [] || (Tidy(es[..|es| - 1]) && TidyStep(Run(Init(), es[..|es| - 1]), es[|es| - 1]))
  }

  lemma ToldKeeps(s: Blanking, i: Instance)
    requires Inv(s) && s.instance.Instance? && i.Instance? && i.timer == s.instance.timer
    ensures Grammar(s.trace + Told(i), false) && (Open(s.trace + Told(i)) <==> Wanted(i))
  {
    TraceGrows(s.trace, false);
    if i.timer == Wanted(i) { assert s.trace + Told(i) == s.trace; }
  }

  lemma PreventedKeeps(s: Blanking, client: Client, prevent: bool)
    requires Inv(s) && client in s.live
    ensures Inv(Prevented(s, client, prevent))
    ensures Prevented(s, client, prevent).prevents == if prevent then s.prevents + {client} else s.prevents - {client}
  {
    if (client in s.prevents) != prevent {
      ToldKeeps(s, s.instance.(objects := if prevent then s.instance.objects + {client} else s.instance.objects - {client}));
    }
  }

  /** A destructor leaves things in order exactly if its client does not prevent blanking by
      the time it lets go of the singleton, or was the last one and not allowed to. */
  lemma DeletedKeepsIff(s: Blanking, client: Client)
    requires Inv(s) && client in s.live
    ensures Inv(Deleted(s, client)) <==> Harmless(s, client)
  {
    var rest := s.live - {client};
    assert s.live == rest + {client} && |s.live| == |rest| + 1;
    assert rest == {} <==> |rest| == 0;
    if client in s.prevents && rest != {} {
      assert client in Deleted(s, client).instance.objects && client !in Deleted(s, client).prevents;
    }
  }

  lemma CreatedKeeps(s: Blanking, client: Client)
    requires Inv(s) && client !in s.live
    ensures Inv(Created(s, client))
  {
    assert |s.live + {client}| == |s.live| + 1;
  }

  lemma ModedKeeps(s: Blanking, allowed: bool)
    requires Inv(s)
    ensures Inv(Moded(s, allowed))
  {
    if s.instance.Instance? { ToldKeeps(s, s.instance.(allowed := allowed)); }
  }

  lemma StepKeeps(s: Blanking, e: Event)
    requires Inv(s) && Orderly(s)
    ensures Inv(Step(s, e)) <==> TidyStep(s, e)
    ensures Orderly(Step(s, e))
  {
    match e
    case Create(c) => if c !in s.live { CreatedKeeps(s, c); }
    case SetPrevent(c, prevent) => if c in s.live { PreventedKeeps(s, c, prevent); }
    case BeginDelete(c) => if c in s.live { PreventedKeeps(s, c, false); }
    case EndDelete(c) => if c in s.dying { DeletedKeepsIff(s, c); }
    case PreventMode(allowed) => ModedKeeps(s, allowed);
    case RenewTimer => TraceGrows(s.trace, false);
  }

  /** Over any number of clients, created, toggled and destroyed in any order, everything is in
      order as long as no client prevents blanking again in its destructor; and the first end of
      a destructor for which that matters puts it out of order. */
  lemma {:induction false} AlwaysShared(es: seq<Event>)
    requires Tidy(es)
    ensures Inv(Run(Init(), es)) && Orderly(Run(Init(), es))
    ensures forall e :: Inv(Step(Run(Init(), es), e)) <==> Tidy(es + [e])
  {
    if es != [] {
      AlwaysShared(es[..|es| - 1]);
      StepKeeps(Run(Init(), es[..|es| - 1]), es[|es| - 1]);
    }
    forall e
      ensures Inv(Step(Run(Init(), es), e)) <==> Tidy(es + [e])
    {
      assert (es + [e])[..|es|] == es;
      StepKeeps(Run(Init(), es), e);
    }
  }

  /** For one: of two clients one is destroyed, and a handler of the signal makes it prevent
      blanking again.  MCE is asked for a pause that no client there is wants, and renewed. */
  lemma EnabledInDestructor(gone: Client, other: Client)
    requires gone != other
    ensures var es := [Create(gone), Create(other), PreventMode(true), SetPrevent(gone, true),
                       BeginDelete(gone), SetPrevent(gone, true), EndDelete(gone)];
            var s := Run(Init(), es);
            s.live == {other} && s.prevents == {} && s.instance.Instance? && s.instance.timer && Open(s.trace) && !Inv(s)
  {
    var es := [Create(gone), Create(other), PreventMode(true), SetPrevent(gone, true),
               BeginDelete(gone), SetPrevent(gone, true), EndDelete(gone)];
    var s2 := Blanking(Instance(2, {}, false, false), {gone, other}, {}, {}, []);
    assert es[..1] == [es[0]] && es[..2] == es[..1] + [es[1]] && es[..3] == es[..2] + [es[2]];
    RunsTo([], es[0]);
    RunsTo(es[..1], es[1]);
    assert Run(Init(), es[..2]) == s2;
    RunsTo(es[..2], es[2]);
    var s3 := s2.(instance := Instance(2, {}, true, false));
    assert Run(Init(), es[..3]) == s3;
    assert es[..4] == es[..3] + [es[3]] && es[..5] == es[..4] + [es[4]];
    assert es[..6] == es[..5] + [es[5]] && es == es[..6] + [es[6]];
    RunsTo(es[..3], es[3]);
    RunsTo(es[..4], es[4]);
    RunsTo(es[..5], es[5]);
    RunsTo(es[..6], es[6]);
    ReEnabled(s3, gone, other);
  }

  lemma RunsTo(es: seq<Event>, e: Event)
    ensures Run(Init(), es + [e]) == Step(Run(Init(), es), e)
  {
    assert (es + [e])[..|es|] == es;
  }

  lemma ReEnabled(s: Blanking, gone: Client, other: Client)
    requires gone != other && s == Blanking(Instance(2, {}, true, false), {gone, other}, {}, {}, [])
    ensures var d := Step(Step(Step(s, SetPrevent(gone, true)), BeginDelete(gone)), SetPrevent(gone, true));
            var t := Step(d, EndDelete(gone));
            t.live == {other} && t.prevents == {} && t.instance.Instance? && t.instance.timer && Open(t.trace) && !Inv(t)
  {
    var a := Step(s, SetPrevent(gone, true));
    assert a.instance.objects == {gone} && a.prevents == {gone} && a.trace == [Start];
    assert a == s.(instance := Instance(2, {gone}, true, true), prevents := {gone}, trace := [Start]);
    var b := Step(a, BeginDelete(gone));
    assert b.instance.objects == {} && b.prevents == {} && b.dying == {gone} && b.trace == [Start, Stop];
    assert b == s.(dying := {gone}, trace := [Start, Stop]);
    var d := Step(b, SetPrevent(gone, true));
    assert d.instance.objects == {gone} && d.prevents == {gone} && d.trace == [Start, Stop, Start];
    assert d == b.(instance := Instance(2, {gone}, true, true), prevents := {gone}, trace := [Start, Stop, Start]);
    var t := Step(d, EndDelete(gone));
    assert t.live == {other} && t.prevents == {};
    assert t.instance == Instance(1, {gone}, true, true);
  }

  /** The instance follows MCE's prevent mode: blanking is prevented while that allows it and some
      client wants it, and MCE has been told so; without an instance the mode is not followed. */
  lemma ModeIsFollowed(es: seq<Event>, allowed: bool)
    requires Tidy(es)
    ensures var s, t := Run(Init(), es), Step(Run(Init(), es), PreventMode(allowed));
            && t.prevents == s.prevents && t.live == s.live
            && if s.instance.NoInstance? then t == s
               else
                 && t.instance.Instance? && t.instance.allowed == allowed
                 && (t.instance.timer <==> allowed && s.prevents != {})
                 && (Open(t.trace) <==> allowed && s.prevents != {})
  {
    AlwaysShared(es);
    ModedKeeps(Run(Init(), es), allowed);
  }

  /** A pause in force is renewed with one message, and the renewal changes nothing else. */
  lemma RenewalIsSent(es: seq<Event>)
    requires Tidy(es)
    ensures var s := Run(Init(), es);
            Step(s, RenewTimer) == if Open(s.trace) then s.(trace := s.trace + [Renew]) else s
  {
    AlwaysShared(es);
  }

  /** Clients come and go one at a time, and a destructor takes the prevention back first. */
  lemma ClientsComeAndGo(es: seq<Event>, client: Client)
    requires Tidy(es)
    ensures var s := Run(Init(), es);
            && Step(s, Create(client)).live == s.live + {client}
            && Step(s, EndDelete(client)).live == s.live - (s.dying * {client})
            && (client in s.live && client !in s.dying ==>
                  var t := Step(s, BeginDelete(client));
                  t.dying == s.dying + {client} && t.live == s.live && t.prevents == s.prevents - {client})
  {
    AlwaysShared(es);
    var s := Run(Init(), es);
    if client in s.live { PreventedKeeps(s, client, false); }
  }

  /** When the instance goes, no other client prevents blanking and the last pause has been
      cancelled. */
  lemma DeletedAtRest(es: seq<Event>, e: Event)
    requires Tidy(es + [e])
    ensures var s, t := Run(Init(), es), Step(Run(Init(), es), e);
            s.instance.Instance? && t.instance.NoInstance? ==>
              && e.EndDelete? && s.instance.objects <= {e.client} && !s.instance.timer && s.instance.refCount == 1
              && t.live == {} && !Open(t.trace)
  {
    assert (es + [e])[..|es|] == es;
    AlwaysShared(es);
    var s := Run(Init(), es);
    StepKeeps(s, e);
    if e.EndDelete? && e.client in s.dying && s.instance.Instance? && s.instance.refCount == 1 {
      assert s.live == (s.live - {e.client}) + {e.client};
      assert |s.live - {e.client}| == 0;
    }
  }

  // ---------------------------------------------------------------- the objects

  /** The other end of the bus: what it has been told. */
  class Mce {
    var trace: seq<Msg>

    constructor ()
      ensures trace == []
    {
      trace := [];
    }
  }

  class Singleton {
    const mce: Mce
    var renewTimer: bool
    var preventAllowed: bool
    var instanceRefCount: int
    var preventingObjects: set<Client>

    function Value(): (i: Instance)
      reads this
      ensures i.Instance?
    {
      Instance(instanceRefCount, preventingObjects, preventAllowed, renewTimer)
    }

    constructor (mce: Mce)
      ensures this.mce == mce && Value() == Instance(0, {}, false, false)
    {
      this.mce := mce;
      renewTimer, preventAllowed, instanceRefCount, preventingObjects := false, false, 0, {};
    }

    /** `evaluateKeepalive`, `startKeepalive`, `stopKeepalive` */
    method EvaluateKeepalive()
      modifies this`renewTimer, mce
      ensures Value() == Evaluated(old(Value())) && mce.trace == old(mce.trace) + Told(old(Value()))
    {
      var want := preventAllowed && preventingObjects != {};
      if renewTimer != want {
        mce.trace := mce.trace + [if want then Start else Stop];
        renewTimer := want;
      }
    }

    /** `updatePreventMode` */
    method UpdatePreventMode(allowed: bool)
      modifies this`preventAllowed, this`renewTimer, mce
      ensures var i := Instance(old(instanceRefCount), old(preventingObjects), allowed, old(renewTimer));
              if old(preventAllowed) == allowed then Value() == old(Value()) && mce.trace == old(mce.trace)
              else Value() == Evaluated(i) && mce.trace == old(mce.trace) + Told(i)
    {
      if preventAllowed != allowed {
        preventAllowed := allowed;
        EvaluateKeepalive();
      }
    }

    /** `attachPreventingObject`, `detachPreventingObject` */
    method Attach(client: Client, prevent: bool)
      modifies this`preventingObjects, this`renewTimer, mce
      ensures var objects := old(if prevent then preventingObjects + {client} else preventingObjects - {client});
              var i := Instance(old(instanceRefCount), objects, old(preventAllowed), old(renewTimer));
              Value() == Evaluated(i) && mce.trace == old(mce.trace) + Told(i)
    {
      preventingObjects := if prevent then preventingObjects + {client} else preventingObjects - {client};
      EvaluateKeepalive();
    }

    /** `renewKeepalive` */
    method RenewKeepalive()
      modifies mce
      ensures mce.trace == old(mce.trace) + [Renew]
    {
      mce.trace := mce.trace + [Renew];
    }
  }

  /** `DisplayBlankingPrivate` */
  class Client {
    var singleton: Singleton?
    var preventBlanking: bool

    constructor (singleton: Singleton)
      ensures this.singleton == singleton && !preventBlanking
    {
      this.singleton, preventBlanking := singleton, false;
    }
  }

  /** The process: the static `s_instance`, and the clients there are. */
  class Process {
    const mce: Mce
    var instance: Singleton?
    ghost var live: set<Client>
    ghost var dying: set<Client>

    ghost function Preventing(): (clients: set<Client>)
      reads this, live
    {
      set c | c in live && c.preventBlanking
    }

    ghost function State(): (s: Blanking)
      reads this, instance, mce, live
    {
      Blanking(if instance == null then NoInstance else instance.Value(), live, dying, Preventing(), mce.trace)
    }

    ghost predicate Valid()
      reads this, instance, mce, live
    {
      Wired() && Inv(State()) && Orderly(State())
    }

    ghost predicate Wired()
      reads this, instance, live
    {
      (instance != null ==> instance.mce == mce) && (forall c <- live :: c.singleton == instance)
    }

    constructor ()
      ensures Valid() && State() == Init() && fresh(mce)
    {
      mce := new Mce();
      instance, live, dying := null, {}, {};
    }

    /** `instance` */
    method GetInstance() returns (s: Singleton)
      requires Valid()
      modifies this`instance, instance
      ensures instance == s && s.mce == mce && (if old(instance) == null then fresh(s) else s == old(instance))
      ensures s.Value() == if old(instance) == null then Instance(1, {}, false, false)
                           else old(instance.Value().(refCount := instance.instanceRefCount + 1))
    {
      if instance == null {
        instance := new Singleton(mce);
      }
      instance.instanceRefCount := instance.instanceRefCount + 1;
      s := instance;
    }

    /** The constructor of a client */
    method NewClient() returns (client: Client)
      requires Valid()
      modifies this`instance, this`live, instance
      ensures Valid() && fresh(client) && State() == Created(old(State()), client) && live == old(live) + {client}
    {
      ghost var before := State();
      var s := GetInstance();
      client := new Client(s);
      assert Preventing() == before.prevents;
      Joined(client, before);
    }

    /** A client just constructed becomes one of them. */
    ghost method Joined(client: Client, before: Blanking)
      requires client !in live && !client.preventBlanking && client.singleton == instance
      requires instance != null && instance.mce == mce && forall c <- live :: c.singleton == instance
      requires Inv(before) && Orderly(before) && client !in before.live
      requires State().(live := live + {client}) == Created(before, client)
      modifies this`live
      ensures Valid() && State() == Created(before, client)
    {
      live := live + {client};
      assert Preventing() == old(Preventing());
      CreatedKeeps(before, client);
    }

    /** `setPreventBlanking` of a client, up to its signal */
    method SetPreventBlanking(client: Client, prevent: bool)
      requires Valid() && client in live
      modifies client`preventBlanking, instance`preventingObjects, instance`renewTimer, mce
      ensures Valid() && State() == Prevented(old(State()), client, prevent) && client.preventBlanking == prevent
    {
      ghost var before := State();
      PreventedKeeps(before, client, prevent);
      if client.preventBlanking != prevent {
        client.preventBlanking := prevent;
        client.singleton.Attach(client, prevent);
      }
      assert Preventing() == if prevent then before.prevents + {client} else before.prevents - {client};
    }

    /** The destructor of a client up to the signal of `setPreventBlanking` */
    method BeginDelete(client: Client)
      requires Valid() && client in live && client !in dying
      modifies this`dying, client`preventBlanking, instance`preventingObjects, instance`renewTimer, mce
      ensures Valid() && State() == Step(old(State()), Event.BeginDelete(client))
      ensures dying == old(dying) + {client} && !client.preventBlanking
    {
      SetPreventBlanking(client, false);
      dying := dying + {client};
    }

    /** The rest of it, with `releaseInstance` */
    method EndDelete(client: Client)
      requires Valid() && client in dying
      modifies this, client`singleton, instance`instanceRefCount
      ensures Wired() && State() == Step(old(State()), Event.EndDelete(client)) && live == old(live) - {client}
      ensures Valid() <==> old(Harmless(State(), client))
      ensures Valid() && instance == null ==>
                old(instance.preventingObjects) <= {client} && !old(instance.renewTimer) && !Open(mce.trace)
    {
      ghost var before := State();
      StepKeeps(before, Event.EndDelete(client));
      assert |live| == |live - {client}| + 1 by { assert live == (live - {client}) + {client}; }
      if instance.instanceRefCount > 0 {
        instance.instanceRefCount := instance.instanceRefCount - 1;
        if instance.instanceRefCount == 0 {
          instance := null;
        }
      }
      client.singleton := null;
      live, dying := live - {client}, dying - {client};
      assert Preventing() == before.prevents - {client};
    }

    /** A change of the prevent mode reaches the singleton, if there is one. */
    method PreventModeChanged(allowed: bool)
      requires Valid()
      modifies instance, mce
      ensures Valid() && State() == Moded(old(State()), allowed)
      ensures instance != null ==> instance.preventAllowed == allowed && (instance.renewTimer <==> allowed && Preventing() != {})
    {
      ModedKeeps(State(), allowed);
      if instance != null {
        instance.UpdatePreventMode(allowed);
      }
    }
  }
}
