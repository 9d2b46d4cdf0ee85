/** What a session controller tells MCE, in order. */
module Sessions {

  /** Keepalive requests: opening a session, renewing it, ending it.  `Lapse` is no message:
      the session ended while MCE was not there to be told. */
  datatype Msg = Start | Renew | Stop | Lapse

  predicate Ends(m: Msg) { m.Stop? || m.Lapse? }

  /** The session is open after these. */
  predicate Open(trace: seq<Msg>) { trace != [] && !Ends(trace[|trace| - 1]) }

  /** Sessions one after the other: opened, renewed, ended. */
  predicate Grammar(trace: seq<Msg>, lapses: bool) {
    trace == [] ||
    (var n := |trace| - 1;
     Grammar(trace[..n], lapses) && (trace[n].Start? <==> !Open(trace[..n])) && (trace[n].Lapse? ==> lapses))
  }

  lemma GrammarGrows(trace: seq<Msg>, m: Msg, lapses: bool)
    requires Grammar(trace, lapses) && (m.Start? <==> !Open(trace)) && (m.Lapse? ==> lapses)
    ensures Grammar(trace + [m], lapses) && (Open(trace + [m]) <==> !Ends(m))
  {
    assert (trace + [m])[..|trace|] == trace;
  }

  /** What can come next. */
  lemma TraceGrows(trace: seq<Msg>, lapses: bool)
    requires Grammar(trace, lapses)
    ensures !Open(trace) ==> Grammar(trace + [Start], lapses) && Open(trace + [Start])
    ensures Open(trace) ==> Grammar(trace + [Renew], lapses) && Open(trace + [Renew])
    ensures Open(trace) ==> Grammar(trace + [Stop], lapses) && !Open(trace + [Stop])
    ensures Open(trace) && lapses ==> Grammar(trace + [Lapse], lapses) && !Open(trace + [Lapse])
  {
    if Open(trace) {
      GrammarGrows(trace, Renew, lapses);
      GrammarGrows(trace, Stop, lapses);
      if lapses { GrammarGrows(trace, Lapse, lapses); }
    } else {
      GrammarGrows(trace, Start, lapses);
    }
  }

  /** A renewal or an end belongs to a session opened before it and not ended since. */
  lemma {:induction false} InSession(trace: seq<Msg>, j: nat, lapses: bool) returns (k: nat)
    requires Grammar(trace, lapses) && j < |trace| && !trace[j].Start?
    ensures k < j && trace[k].Start? && forall i | k < i < j :: trace[i].Renew?
    decreases |trace|
  {
    var last := |trace| - 1;
    if j < last {
      k := InSession(trace[..last], j, lapses);
    } else if trace[last - 1].Start? {
      k := last - 1;
    } else {
      k := InSession(trace[..last], last - 1, lapses);
    }
  }

  /** What was sent last after a point is what was sent last, if anything was. */
  lemma LastSince(trace: seq<Msg>, since: nat)
    requires since <= |trace|
    ensures Open(trace[since..]) <==> Open(trace) && |trace| > since
  {
  }

  /** A session is opened only when none is open. */
  lemma {:induction false} BetweenSessions(trace: seq<Msg>, j: nat, lapses: bool)
    requires Grammar(trace, lapses) && j < |trace| && trace[j].Start?
    ensures j == 0 || Ends(trace[j - 1])
    decreases |trace|
  {
    if j < |trace| - 1 { BetweenSessions(trace[..|trace| - 1], j, lapses); }
  }

  /** A controller that never misses MCE ends each session with a message. */
  lemma {:induction false} NoLapses(trace: seq<Msg>, j: nat)
    requires Grammar(trace, false) && j < |trace|
    ensures !trace[j].Lapse?
    decreases |trace|
  {
    if j < |trace| - 1 { NoLapses(trace[..|trace| - 1], j); }
  }
}
