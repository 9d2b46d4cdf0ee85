/** What the display controller believes of MCE, and the bus it hears it from.

    Besides the name's owner it follows MCE's prevent mode: a signal for every change, and
    a query after MCE has come up.  A reply counts only for the call it answers, and calls
    are told apart by their number.  Messages to MCE pass through the daemon in order, as do
    MCE's own, so that one queue in each direction stands for the connection. */
module DisplayBus {
  import opened MceOwner

  datatype Mode = NoMode | Denied | Allowed

  datatype Message =
    | NameSignal(running: bool)
    | NameReply(running: bool)
    | ModeSignal(allowed: bool)
    | ModeReply(call: nat, mode: Mode)  // NoMode: an error reply

  type Serial = n: nat | n > 0 witness 1

  /** dka_mce_service, dka_mce_service_pc, dka_preventmode, dka_preventmode_pc (0 when empty)
      and the number of the next call. */
  datatype View = View(mce: Owner, query: bool, mode: Mode, modePc: nat, serial: Serial)

  /** The daemon and MCE: who owns the name, MCE's mode, the match rules, and what is under
      way: rule and owner query, mode queries, and the messages to the object. */
  datatype Wire = Wire(owned: bool, allowed: bool, matched: bool, up: Outbox, asks: seq<nat>, down: seq<Message>)

  function NoView(): View { View(Unknown, false, NoMode, 0, 1) }

  function NoWire(owned: bool, allowed: bool): Wire { Wire(owned, allowed, false, Unsent, [], []) }

  function Real(allowed: bool): Mode { if allowed then Allowed else Denied }

  // ---------------------------------------------------------------- the other side

  function NameChanged(w: Wire, owned: bool, allowed: bool): Wire {
    if owned == w.owned then w
    else w.(owned := owned, allowed := allowed, down := if w.matched then w.down + [NameSignal(owned)] else w.down)
  }

  function ModeChanged(w: Wire, allowed: bool): Wire {
    if !w.owned then w
    else w.(allowed := allowed, down := if w.matched then w.down + [ModeSignal(allowed)] else w.down)
  }

  /** The next message from the object is handled. */
  function Turn(w: Wire): Wire {
    match w.up
    case RuleThenQuery => w.(up := QueryOnly, matched := true)
    case QueryOnly => w.(up := Handled, down := w.down + [NameReply(w.owned)])
    case _ =>
      if w.asks == [] then w
      else w.(asks := w.asks[1..],
              down := w.down + [ModeReply(w.asks[0], if w.owned then Real(w.allowed) else NoMode)])
  }

  // ---------------------------------------------------------------- the object's side

  /** `displaykeepalive_mce_owner_update_locked`, the owner query out of the way */
  function SetOwner(v: View, owner: Owner): View {
    if v.mce == owner then v
    else if !owner.Running? then v.(mce := owner, mode := NoMode, modePc := 0)
    else if v.modePc != 0 then v.(mce := owner)
    else v.(mce := owner, modePc := v.serial, serial := v.serial + 1)
  }

  /** The effect of a message, once its handler is done. */
  function Read(v: View, news: Message): View {
    match news
    case NameSignal(b) => SetOwner(v.(query := false), Of(b))
    case NameReply(b) => if v.query then SetOwner(v.(query := false), Of(b)) else v
    case ModeSignal(b) => v.(mode := Real(b), modePc := 0)
    case ModeReply(call, mode) =>
      if v.modePc != call || call == 0 then v
      else if mode.NoMode? then v.(modePc := 0)
      else v.(mode := mode, modePc := 0)
  }

  /** What the object will believe once it has read its messages. */
  function ReadAll(v: View, down: seq<Message>): View
    decreases |down|
  {
    if down == [] then v else ReadAll(Read(v, down[0]), down[1..])
  }

  predicate Answered(down: seq<Message>, call: nat)
    decreases |down|
  {
    down != [] && ((down[0].ModeReply? && down[0].call == call) || Answered(down[1..], call))
  }

  /** The match rules went before the query, and from the first news on the messages under
      way lead to the truth: the name's owner, and, when no mode query is open, MCE's mode. */
  predicate Tracks(v: View, w: Wire) {
    var f := ReadAll(v, w.down);
    && !w.up.Unsent?
    && (w.up.RuleThenQuery? ==> f.query && w.down == [])
    && w.matched == !w.up.RuleThenQuery?
    && (w.up.Handled? ==> !f.query)
    && f.mce == (if f.query then Unknown else Of(w.owned))
    && (f.mce.Running? && f.modePc == 0 ==> f.mode == Real(w.allowed))
  }

  /** An open mode query is under way, or its answer is. */
  predicate Asked(call: nat, w: Wire) { call == 0 || call in w.asks || Answered(w.down, call) }

  lemma {:induction false} ReadAllGrows(v: View, down: seq<Message>, news: Message)
    ensures ReadAll(v, down + [news]) == Read(ReadAll(v, down), news)
    decreases |down|
  {
    var all := down + [news];
    if down == [] {
      assert all[1..] == [];
    } else {
      assert all[1..] == down[1..] + [news];
      ReadAllGrows(Read(v, down[0]), down[1..], news);
    }
  }

  lemma {:induction false} AnsweredGrows(down: seq<Message>, news: Message, call: nat)
    ensures Answered(down + [news], call) <==> Answered(down, call) || (news.ModeReply? && news.call == call)
    decreases |down|
  {
    var all := down + [news];
    if down == [] {
      assert all[1..] == [];
    } else {
      assert all[1..] == down[1..] + [news];
      AnsweredGrows(down[1..], news, call);
    }
  }

  lemma NameChangedTracks(v: View, w: Wire, owned: bool, allowed: bool)
    requires Tracks(v, w)
    ensures Tracks(v, NameChanged(w, owned, allowed)) && NameChanged(w, owned, allowed).owned == owned
  {
    ReadAllGrows(v, w.down, NameSignal(owned));
  }

  lemma ModeChangedTracks(v: View, w: Wire, allowed: bool)
    requires Tracks(v, w)
    ensures Tracks(v, ModeChanged(w, allowed)) && (w.owned ==> ModeChanged(w, allowed).allowed == allowed)
  {
    ReadAllGrows(v, w.down, ModeSignal(allowed));
  }

  lemma TurnTracks(v: View, w: Wire)
    requires Tracks(v, w)
    ensures Tracks(v, Turn(w))
  {
    if w.up.QueryOnly? {
      ReadAllGrows(v, w.down, NameReply(w.owned));
    } else if w.up.Handled? && w.asks != [] {
      ReadAllGrows(v, w.down, ModeReply(w.asks[0], if w.owned then Real(w.allowed) else NoMode));
    }
  }

  /** Reading a message does not change where the messages lead. */
  lemma ReadTracks(v: View, w: Wire)
    requires Tracks(v, w) && w.down != []
    ensures Tracks(Read(v, w.down[0]), w.(down := w.down[1..]))
  {
  }

  lemma OutsideAsked(call: nat, w: Wire, owned: bool, allowed: bool)
    requires Asked(call, w)
    ensures Asked(call, NameChanged(w, owned, allowed))
    ensures Asked(call, ModeChanged(w, allowed))
    ensures Asked(call, Turn(w))
  {
    AnsweredGrows(w.down, NameSignal(owned), call);
    AnsweredGrows(w.down, ModeSignal(allowed), call);
    AnsweredGrows(w.down, NameReply(w.owned), call);
    if w.asks != [] {
      AnsweredGrows(w.down, ModeReply(w.asks[0], if w.owned then Real(w.allowed) else NoMode), call);
    }
  }

  /** With nothing under way, what the object believes is true: the name's owner, and MCE's
      mode if MCE runs. */
  lemma AtRest(v: View, w: Wire)
    requires Tracks(v, w) && Asked(v.modePc, w)
    requires w.up.Handled? && w.asks == [] && w.down == []
    ensures v.mce == Of(w.owned) && (w.owned ==> v.mode == Real(w.allowed))
  {
  }
}
