/** `heartbeat_t` of lib-glib/keepalive-heartbeat.c.

    Whether the IPHB socket can be opened is up to the environment (`ok`).  A slot of the
    connection retry timer whose source is gone holds a stale id: removing it does nothing. */
module Heartbeat {

  datatype Hb = Hb(
    started: bool, waiting: bool,
    handle: bool,  // hb_iphb_handle
    watch: bool,   // hb_wakeup_watch_id
    retry: bool,   // hb_connect_retry_id
    retrying: bool,  // the source that id names is still there
    lo: int, hi: int, inShutdown: bool,
    armed: bool, armedLo: int, armedHi: int)  // what the daemon has been asked for last

  function NewHb(): Hb { Hb(false, false, false, false, false, false, 3600, 3600, false, false, 0, 0) }

  /** `heartbeat_iphb_connection_try_open_locked` */
  function TryOpen(h: Hb, ok: bool): Hb {
    if h.handle || h.inShutdown || !ok then h else h.(handle := true, watch := true)
  }

  /** `heartbeat_iphb_connection_open_locked` */
  function Open(h: Hb, ok: bool): Hb {
    if h.inShutdown || h.retry then h
    else if h.handle || ok then TryOpen(h, ok)
    else h.(retry := true, retrying := true)
  }

  /** `heartbeat_iphb_wakeup_schedule_locked` */
  function Schedule(h: Hb, ok: bool): Hb {
    if h.inShutdown || !h.started || h.waiting then h
    else
      var open := Open(h, ok);
      if !open.handle then open
      else open.(waiting := true, armed := true, armedLo := h.lo, armedHi := h.hi)
  }

  /** `heartbeat_start_locked` */
  function Start(h: Hb, ok: bool): Hb { Schedule(h.(started := true), ok) }

  /** `heartbeat_stop_locked` */
  function Stop(h: Hb): Hb {
    h.(waiting := false, started := false, armed := h.armed && !(h.waiting && h.handle))
  }

  /** `heartbeat_set_delay_locked` */
  function SetDelay(h: Hb, lo: int, hi: int): Hb {
    var least := if lo < 1 then 1 else lo;
    h.(lo := least, hi := if hi < least then least else hi)
  }

  /** `heartbeat_iphb_connection_close_locked` */
  function Close(h: Hb): Hb {
    h.(retry := false, retrying := false, watch := false, waiting := false, started := false, handle := false,
       armed := false)
  }

  /** `heartbeat_iphb_wakeup_cb` on a broken connection */
  function Broken(h: Hb, ok: bool): Hb {
    if !h.watch then h else Open(Close(h).(started := h.started), ok)
  }

  /** `heartbeat_iphb_wakeup_cb` on a wakeup, up to the notification: whether there is one */
  predicate Wakes(h: Hb) { h.watch && h.waiting }

  function Woken(h: Hb): Hb {
    if Wakes(h) then h.(started := false, waiting := false, armed := false) else h
  }

  /** `heartbeat_iphb_connect_retry_cb`: what it tests and clears is the id of the watch. */
  function Retry(h: Hb, ok: bool): Hb {
    if !h.retrying then h
    else if h.inShutdown || !h.watch then h.(watch := false, retrying := false)
    else
      var open := TryOpen(h, ok);
      if !open.handle then open else Schedule(open, ok).(watch := false, retrying := false)
  }

  /** The slots: a handle has a watch, a retry timer in its slot means neither, and the
      daemon has an order exactly while the heartbeat waits. */
  predicate HbInv(h: Hb) {
    && (h.watch <==> h.handle)
    && (h.retry ==> !h.handle)
    && (h.retrying ==> h.retry)
    && (h.waiting ==> h.started && h.handle)
    && (h.armed <==> h.waiting)
    && 1 <= h.lo <= h.hi
  }

  datatype Call = CallStart(ok: bool) | CallStop | CallSetDelay(lo: int, hi: int) | Break(ok: bool) | Wake | Retrial(ok: bool)

  function Do(h: Hb, c: Call): Hb {
    match c
    case CallStart(ok) => Start(h, ok)
    case CallStop => Stop(h)
    case CallSetDelay(lo, hi) => SetDelay(h, lo, hi)
    case Break(ok) => Broken(h, ok)
    case Wake => Woken(h)
    case Retrial(ok) => Retry(h, ok)
  }

  function DoAll(h: Hb, calls: seq<Call>): Hb {
    if calls == [] then h else Do(DoAll(h, calls[..|calls| - 1]), calls[|calls| - 1])
  }

  lemma DoKeeps(h: Hb, c: Call)
    requires HbInv(h)
    ensures HbInv(Do(h, c)) && Do(h, c).inShutdown == h.inShutdown
    ensures h.retry ==> Do(h, c).retry
    ensures Do(h, c).waiting && !h.waiting ==> Do(h, c).armedLo == Do(h, c).lo && Do(h, c).armedHi == Do(h, c).hi
  {
  }

  lemma {:induction false} DoAllKeeps(h: Hb, calls: seq<Call>)
    requires HbInv(h)
    ensures HbInv(DoAll(h, calls)) && DoAll(h, calls).inShutdown == h.inShutdown
    ensures h.retry ==> DoAll(h, calls).retry
  {
    if calls != [] {
      DoAllKeeps(h, calls[..|calls| - 1]);
      DoKeeps(DoAll(h, calls[..|calls| - 1]), calls[|calls| - 1]);
    }
  }

  /** When a start programs the daemon: on an open connection, or one that opens now, but not
      once an open has failed. */
  lemma StartPrograms(calls: seq<Call>, ok: bool)
    ensures var h := DoAll(NewHb(), calls);
            Start(h, ok).armed <==> h.handle || (ok && !h.retry)
  {
    DoAllKeeps(NewHb(), calls);
  }

  /** A heartbeat whose connection could not be opened stays without one, however often it is
      started and its retry timer runs, and however well the daemon may be by then: the retry
      callback looks at the watch's slot, which is empty, and gives up. */
  lemma NeverReconnects(before: seq<Call>, after: seq<Call>)
    requires DoAll(NewHb(), before).retry
    ensures var h := DoAll(DoAll(NewHb(), before), after);
            !h.handle && !h.waiting && !h.armed
  {
    DoAllKeeps(NewHb(), before);
    DoAllKeeps(DoAll(NewHb(), before), after);
  }

  /** For one: the daemon answers again before the first retry, and the wakeup is still lost. */
  lemma LostWakeup()
    ensures var h := DoAll(NewHb(), [CallStart(false), Retrial(true), CallStart(true)]);
            h.started && h.retry && !h.retrying && !h.waiting && !h.armed
  {
    var calls := [CallStart(false), Retrial(true), CallStart(true)];
    var failed := Start(NewHb(), false);
    assert calls[..2][..1] == [CallStart(false)] && calls[..1][..0] == [];
    assert DoAll(NewHb(), calls[..2][..1]) == failed;
    assert DoAll(NewHb(), calls[..2]) == Retry(failed, true);
    assert DoAll(NewHb(), calls) == Start(Retry(failed, true), true);
  }

  /** A wakeup that has been delivered ends the wait, and only that: connection and delay stay. */
  lemma WakeupEndsWait(calls: seq<Call>)
    ensures var h := DoAll(NewHb(), calls);
            if h.waiting then Do(h, Wake) == h.(started := false, waiting := false, armed := false) else Do(h, Wake) == h
  {
    DoAllKeeps(NewHb(), calls);
  }

  /** A connection that breaks and comes back at once leaves a started heartbeat without an
      order, until it is started again. */
  lemma BrokenNotProgrammed(calls: seq<Call>, ok: bool)
    ensures var h := DoAll(NewHb(), calls);
            h.watch ==>
              && Broken(h, ok).started == h.started && !Broken(h, ok).armed
              && Broken(h, ok).handle == ok
              && Start(Broken(h, ok), true).armed == ok
  {
    DoAllKeeps(NewHb(), calls);
  }

  /** For one: the order is placed, the connection breaks and is open again at once, and the
      wakeup never comes. */
  lemma ForgottenOrder()
    ensures var h := DoAll(NewHb(), [CallStart(true), Break(true)]);
            h.started && h.handle && !h.retry && !h.waiting && !h.armed
  {
    var calls := [CallStart(true), Break(true)];
    assert calls[..1] == [CallStart(true)] && calls[..1][..0] == [];
    assert DoAll(NewHb(), calls[..1]) == Start(NewHb(), true);
    assert DoAll(NewHb(), calls) == Broken(Start(NewHb(), true), true);
  }

  class Heartbeat {
    var started: bool
    var waiting: bool
    var handle: bool
    var wakeupWatch: bool
    var connectRetry: bool
    var retrying: bool
    var delayLo: int
    var delayHi: int
    var inShutdown: bool
    var armed: bool
    var armedLo: int
    var armedHi: int

    function State(): (h: Hb)
      reads this
    {
      Hb(started, waiting, handle, wakeupWatch, connectRetry, retrying, delayLo, delayHi, inShutdown,
         armed, armedLo, armedHi)
    }

    constructor ()
      ensures State() == NewHb() && HbInv(State())
    {
      started, waiting, handle, wakeupWatch, connectRetry, retrying := false, false, false, false, false, false;
      delayLo, delayHi, inShutdown, armed, armedLo, armedHi := 3600, 3600, false, false, 0, 0;
    }

    /** `iphb_wait2` with a zero range withdraws the order. */
    method Wait2(lo: int, hi: int)
      modifies this`armed, this`armedLo, this`armedHi
      ensures armed == (hi != 0)
      ensures if hi != 0 then armedLo == lo && armedHi == hi else armedLo == old(armedLo) && armedHi == old(armedHi)
    {
      armed := hi != 0;
      if hi != 0 {
        armedLo, armedHi := lo, hi;
      }
    }

    /** `heartbeat_iphb_connection_try_open_locked` */
    method TryOpenLocked(ok: bool) returns (open: bool)
      modifies this`handle, this`wakeupWatch
      ensures State() == TryOpen(old(State()), ok) && open == handle
      ensures open <==> old(handle) || (ok && !inShutdown)
      ensures old(handle <==> wakeupWatch) ==> (handle <==> wakeupWatch)
    {
      if !handle && !inShutdown && ok {
        wakeupWatch := true;
        handle := true;
      }
      open := handle;
    }

    /** `heartbeat_iphb_connection_open_locked` */
    method OpenLocked(ok: bool)
      modifies this`handle, this`wakeupWatch, this`connectRetry, this`retrying
      ensures State() == Open(old(State()), ok)
      ensures old(HbInv(State())) ==> HbInv(State())
      ensures handle <==> old(handle) || (ok && !inShutdown && !old(connectRetry))
      ensures old(HbInv(State())) && !inShutdown ==> handle || connectRetry
    {
      if inShutdown || connectRetry {
        return;
      }
      var open := TryOpenLocked(ok);
      if !open {
        connectRetry, retrying := true, true;
      }
    }

    /** `heartbeat_iphb_wakeup_schedule_locked` */
    method WakeupScheduleLocked(ok: bool)
      requires delayHi != 0
      modifies this
      ensures State() == Schedule(old(State()), ok)
      ensures old(HbInv(State())) ==> HbInv(State())
      ensures old(HbInv(State())) && started && !inShutdown ==> (waiting <==> handle)
      ensures armed && !old(armed) ==> armedLo == delayLo && armedHi == delayHi
    {
      if inShutdown || !started || waiting {
        return;
      }
      OpenLocked(ok);
      if handle {
        Wait2(delayLo, delayHi);
        waiting := true;
      }
    }

    /** `heartbeat_start_locked` */
    method StartLocked(ok: bool)
      requires delayHi != 0
      modifies this
      ensures State() == Start(old(State()), ok)
      ensures started && (old(HbInv(State())) ==> HbInv(State()))
      ensures old(HbInv(State())) && !inShutdown ==> (armed <==> handle)
      ensures armed && !old(armed) ==> armedLo == delayLo && armedHi == delayHi
    {
      started := true;
      WakeupScheduleLocked(ok);
    }

    /** `heartbeat_stop_locked` */
    method StopLocked()
      modifies this
      ensures State() == Stop(old(State()))
      ensures !started && !waiting && handle == old(handle)
      ensures old(HbInv(State())) ==> !armed && HbInv(State())
    {
      if waiting && handle {
        Wait2(0, 0);
      }
      waiting := false;
      started := false;
    }

    /** `heartbeat_set_delay_locked` */
    method SetDelayLocked(lo: int, hi: int)
      modifies this
      ensures State() == SetDelay(old(State()), lo, hi) && 1 <= delayLo <= delayHi
      ensures (lo >= 1 ==> delayLo == lo) && (lo < 1 ==> delayLo == 1)
      ensures (hi >= delayLo ==> delayHi == hi) && (hi < delayLo ==> delayHi == delayLo)
    {
      var least := lo;
      if least < 1 {
        least := 1;
      }
      var most := hi;
      if most < least {
        most := least;
      }
      delayLo := least;
      delayHi := most;
    }

    /** `heartbeat_iphb_connection_close_locked` */
    method CloseLocked()
      requires HbInv(State())
      modifies this
      ensures State() == Close(old(State())) && HbInv(State())
      ensures !connectRetry && !wakeupWatch && !handle && !started && !armed
    {
      connectRetry, retrying := false, false;
      wakeupWatch := false;
      StopLocked();
      handle := false;
    }

    /** `heartbeat_iphb_wakeup_cb`: `broken` stands for an error on the socket, `data` for a
        wakeup read from it.  Returns whether the owner is to be notified, and whether the
        watch goes on. */
    method WakeupCb(broken: bool, data: bool, ok: bool) returns (notify: bool, keepGoing: bool)
      requires HbInv(State())
      modifies this
      ensures HbInv(State())
      ensures State() == if broken then Broken(old(State()), ok) else if data then Woken(old(State())) else old(State())
      ensures notify <==> !broken && data && old(waiting)
      ensures notify ==> !started && !waiting && !armed && handle
      ensures keepGoing <==> !broken && old(wakeupWatch)
    {
      notify, keepGoing := false, false;
      if !wakeupWatch {
        return;
      }
      if broken {
        wakeupWatch := false;
        var wasStarted := started;
        connectRetry, retrying := false, false;
        StopLocked();
        handle := false;
        started := wasStarted;
        OpenLocked(ok);
        return;
      }
      keepGoing := true;
      if data && waiting {
        started, waiting, armed := false, false, false;
        notify := true;
      }
    }

    /** `heartbeat_iphb_connect_retry_cb`; the result keeps the timer. */
    method ConnectRetryCb(ok: bool) returns (again: bool)
      requires retrying && delayHi != 0
      modifies this
      ensures State() == Retry(old(State()), ok)
      ensures again <==> retrying
      // in fact the source always goes, and its id stays in the slot
      ensures old(HbInv(State())) ==> HbInv(State()) && !again && !handle && connectRetry
    {
      again := false;
      if !inShutdown && wakeupWatch {
        var open := TryOpenLocked(ok);
        if open {
          WakeupScheduleLocked(ok);
        } else {
          again := true;
        }
      }
      if !again {
        wakeupWatch := false;
        retrying := false;
      }
    }
  }
}
