/** The controllers' connection to the bus daemon, and what they believe of MCE.

    The daemon handles the connection's messages in order, answers `GetNameOwner` with the
    owner at that moment, and queues a `NameOwnerChanged` for every change once the match
    rule is in place ("Message Bus Messages" in the D-Bus Specification).  The connection
    stays up while an object holds it.
 */
module BusLink {
  import opened MceOwner

  datatype News = Signal(running: bool) | Reply(running: bool)

  datatype Link = Link(
    bus: bool, filter: bool,
    query: bool,              // the slot of the owner query's pending call
    mce: Owner,               // the cached state of MCE
    owned: bool,              // the daemon's side: MCE has its name on the bus,
    matched: bool,            // the match rule is in place,
    up: Outbox, down: seq<News>)  // the messages under way

  function NoLink(owned: bool): Link { Link(false, false, false, Unknown, owned, false, Unsent, []) }

  /** `..._connect_now_locked` on a fresh object: filter and match rule, then the query. */
  function Connected(l: Link, filterOk: bool): Link {
    l.(bus := true, filter := filterOk, query := true, up := if filterOk then RuleThenQuery else QueryOnly)
  }

  /** The object's side of the connection. */
  predicate SameSide(l: Link, r: Link) {
    r.bus == l.bus && r.filter == l.filter && r.query == l.query && r.mce == l.mce
  }

  /** The name gets or loses an owner. */
  function Changed(l: Link, owned: bool): (r: Link)
    ensures SameSide(l, r)
  {
    l.(owned := owned, down := if l.matched then l.down + [Signal(owned)] else l.down)
  }

  function DaemonTurn(l: Link): (r: Link)
    ensures SameSide(l, r)
  {
    match l.up
    case RuleThenQuery => l.(up := QueryOnly, matched := true)
    case QueryOnly => l.(up := Handled, down := l.down + [Reply(l.owned)])
    case _ => l
  }

  /** Whether the next message is one the object still listens to. */
  predicate Heard(l: Link) {
    l.down != [] && if l.down[0].Signal? then l.filter else l.query
  }

  /** The next message is read: by the signal filter, by the callback of the owner query, or
      by nobody.  A signal may also make the object `cancel` the query. */
  function Read(l: Link, cancel: bool): Link
    requires l.down != []
  {
    l.(down := l.down[1..],
       query := l.query && l.down[0].Signal? && !(cancel && l.filter),
       mce := if Heard(l) then Of(l.down[0].running) else l.mce)
  }

  function Replies(down: seq<News>): nat {
    if down == [] then 0 else (if down[0].Reply? then 1 else 0) + Replies(down[1..])
  }

  /** What the object will believe once it has read its messages, one by one. */
  function Eventually(l: Link, cancel: bool): Owner
    decreases |l.down|
  {
    if l.down == [] then l.mce else Eventually(Read(l, cancel), cancel)
  }

  /** The last message, or else the cached state. */
  function Latest(l: Link): Owner {
    if l.down == [] then l.mce else Of(l.down[|l.down| - 1].running)
  }

  /** An answer repeats the message before it. */
  predicate Chain(mce: Owner, heard: bool, down: seq<News>)
    decreases |down|
  {
    down == [] ||
    ((heard && down[0].Reply? ==> mce == Of(down[0].running))
     && Chain(Of(down[0].running), true, down[1..]))
  }

  /** The match rule went before the query, the query has one answer, and from the answer or
      the first signal on the messages under way end with the truth. */
  predicate Tracks(l: Link) {
    && !l.up.Unsent?
    && (l.up.RuleThenQuery? ==> l.filter && l.query && l.down == [] && !l.matched)
    && (l.filter && !l.up.RuleThenQuery? ==> l.matched)
    && (!l.filter ==> !l.matched)
    && Replies(l.down) <= (if l.up.Handled? then 1 else 0)
    && (l.up.Handled? && l.query ==> Replies(l.down) == 1)
    && (l.filter ==>
          && (l.up.Handled? || !l.query || l.down != [] ==> Latest(l) == Of(l.owned))
          && Chain(l.mce, !l.query, l.down))
  }

  lemma {:induction false} RepliesGrow(down: seq<News>, news: News)
    ensures Replies(down + [news]) == Replies(down) + (if news.Reply? then 1 else 0)
  {
    if down == [] {
      assert [] + [news] == [news];
    } else {
      assert (down + [news])[1..] == down[1..] + [news];
      RepliesGrow(down[1..], news);
    }
  }

  lemma {:induction false} ChainGrows(mce: Owner, heard: bool, down: seq<News>, news: News)
    requires Chain(mce, heard, down)
    requires news.Reply? ==>
               if down == [] then heard ==> mce == Of(news.running) else down[|down| - 1].running == news.running
    ensures Chain(mce, heard, down + [news])
    decreases |down|
  {
    var all := down + [news];
    if down == [] {
      assert all[1..] == [];
    } else {
      assert all[1..] == down[1..] + [news];
      ChainGrows(Of(down[0].running), true, down[1..], news);
    }
  }

  lemma ConnectedTracks(owned: bool, mce: Owner, filterOk: bool)
    ensures Tracks(Connected(NoLink(owned).(mce := mce), filterOk))
  {
  }

  lemma ChangedTracks(l: Link, owned: bool)
    requires Tracks(l)
    ensures Tracks(Changed(l, owned)) && Changed(l, owned).owned == owned
  {
    var news := Signal(owned);
    RepliesGrow(l.down, news);
    if l.filter { ChainGrows(l.mce, !l.query, l.down, news); }
  }

  lemma TurnTracks(l: Link)
    requires Tracks(l)
    ensures Tracks(DaemonTurn(l))
  {
    var news := Reply(l.owned);
    RepliesGrow(l.down, news);
    if l.filter && l.up.QueryOnly? { ChainGrows(l.mce, !l.query, l.down, news); }
  }

  lemma ReadTracks(l: Link, cancel: bool)
    requires Tracks(l) && l.down != []
    ensures Tracks(Read(l, cancel))
  {
    var rest := l.down[1..];
    if l.filter && rest != [] {
      assert Chain(Of(l.down[0].running), true, rest);
      assert Chain(Of(l.down[0].running), false, rest);
    }
  }

  /** Whether or not a signal cancels the query, folding the messages under way over the
      cached state gives the name's real state. */
  lemma {:induction false} EventuallyTrue(l: Link, cancel: bool)
    requires Tracks(l) && l.filter && (l.up.Handled? || l.down != [])
    ensures Eventually(l, cancel) == Of(l.owned)
    decreases |l.down|
  {
    if l.down != [] {
      var next := Read(l, cancel);
      ReadTracks(l, cancel);
      if next.down != [] || next.up.Handled? {
        EventuallyTrue(next, cancel);
      } else {
        assert l.down == [l.down[0]];
      }
    }
  }
}
