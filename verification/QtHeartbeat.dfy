/** `Heartbeat` of lib/heartbeat.cpp.  Whether the IPHB socket can be opened is up to the
    environment (`ok`). */
module QtHeartbeat {

  datatype Hb = Hb(
    started: bool, waiting: bool, minDelay: int, maxDelay: int,
    handle: bool,    // m_iphb_handle
    notifier: bool,  // m_wakeup_notifier
    retry: bool,     // m_connect_timer is active
    armed: bool, armedMin: int, armedMax: int)  // what the daemon has been asked for last

  function NewHb(): Hb { Hb(false, false, 0, 0, false, false, false, false, 0, 0) }

  function TryConnect(h: Hb, ok: bool): Hb {
    if h.handle || !ok then h else h.(handle := true, notifier := true)
  }

  function Connect(h: Hb, ok: bool): Hb {
    if h.retry then h
    else if h.handle || ok then TryConnect(h, ok)
    else h.(retry := true)
  }

  predicate Delayed(h: Hb) { 0 < h.minDelay <= h.maxDelay }

  function Wait(h: Hb, ok: bool): Hb {
    if !h.started || h.waiting || !Delayed(h) then h
    else
      var open := if h.handle then h else Connect(h, ok);
      if !open.handle then open
      else open.(waiting := true, armed := true, armedMin := h.minDelay, armedMax := h.maxDelay)
  }

  function SetInterval(h: Hb, min: int, max: int): Hb { h.(minDelay := min, maxDelay := max) }

  function Start(h: Hb, ok: bool): Hb { Wait(h.(started := true), ok) }

  function Stop(h: Hb): Hb {
    h.(waiting := false, started := false, armed := h.armed && !(h.waiting && h.handle))
  }

  function Disconnect(h: Hb): Hb {
    h.(waiting := false, started := false, armed := false, retry := false, notifier := false, handle := false)
  }

  /** `retryConnect`, on the timer's signal */
  function RetryConnect(h: Hb, ok: bool): Hb {
    var open := TryConnect(h, ok);
    if !h.retry then h else if !open.handle then open else Wait(open.(retry := false), ok)
  }

  /** `wakeup` on a broken connection */
  function Broken(h: Hb, ok: bool): Hb {
    if !h.notifier then h else Connect(Disconnect(h).(started := h.started), ok)
  }

  /** `wakeup` on data, up to the timeout signal: whether there is one */
  predicate Wakes(h: Hb) { h.notifier && h.waiting }

  function Woken(h: Hb): Hb {
    if Wakes(h) then h.(waiting := false, started := false, armed := false) else h
  }

  /** A heartbeat that waits is started, and holds an open handle with no retry timer
      active; the daemon has an order exactly then. */
  predicate HbInv(h: Hb) {
    && (h.waiting ==> h.started && h.handle && !h.retry)
    && (h.retry ==> !h.handle)
    && (h.notifier <==> h.handle)
    && (h.armed <==> h.waiting)
  }

  lemma CallsKeep(h: Hb, min: int, max: int, ok: bool)
    requires HbInv(h)
    ensures HbInv(Start(h, ok)) && HbInv(Stop(h)) && HbInv(SetInterval(h, min, max))
    ensures HbInv(RetryConnect(h, ok)) && HbInv(Broken(h, ok)) && HbInv(Woken(h))
  {
  }

  /** A start orders a wakeup at the interval set, if that is a proper one and the daemon can
      be reached, or leaves it to the retry timer. */
  lemma StartOrders(h: Hb, min: int, max: int, ok: bool)
    requires HbInv(h) && !h.waiting
    ensures var s := Start(SetInterval(h, min, max), ok);
            && s.started
            && (s.armed <==> 0 < min <= max && (h.handle || (ok && !h.retry)))
            && (s.armed ==> s.armedMin == min && s.armedMax == max)
            && (0 < min <= max && !s.armed ==> s.retry)
  {
  }

  /** The retry timer brings the order about once the daemon can be reached. */
  lemma RetryOrders(h: Hb, ok: bool)
    requires HbInv(h) && h.retry
    ensures var r := RetryConnect(h, ok);
            && (r.retry <==> !ok)
            && (r.armed <==> ok && h.started && Delayed(h))
  {
  }

  /** A wakeup that has been delivered ends the wait, and only that. */
  lemma WakeupEndsWait(h: Hb)
    requires HbInv(h)
    ensures if h.waiting then Woken(h) == h.(started := false, waiting := false, armed := false) else Woken(h) == h
  {
  }

  /** After a broken connection a started heartbeat has an order or a retry timer exactly if
      the daemon could not be reached at once. */
  lemma BrokenOrders(h: Hb, ok: bool)
    requires HbInv(h) && h.notifier && h.started
    ensures var b := Broken(h, ok);
            b.started && (b.armed || b.retry <==> !ok) && (ok ==> b.handle && !b.waiting)
  {
  }

  class Heartbeat {
    var started: bool
    var waiting: bool
    var minDelay: int
    var maxDelay: int
    var iphbHandle: bool
    var wakeupNotifier: bool
    var connectTimer: bool
    var armed: bool
    var armedMin: int
    var armedMax: int

    function State(): (h: Hb)
      reads this
    {
      Hb(started, waiting, minDelay, maxDelay, iphbHandle, wakeupNotifier, connectTimer, armed, armedMin, armedMax)
    }

    constructor ()
      ensures State() == NewHb()
    {
      started, waiting, minDelay, maxDelay := false, false, 0, 0;
      iphbHandle, wakeupNotifier, connectTimer := false, false, false;
      armed, armedMin, armedMax := false, 0, 0;
    }

    /** `tryConnect` */
    method TryToConnect(ok: bool) returns (status: bool)
      modifies this`iphbHandle, this`wakeupNotifier
      ensures State() == TryConnect(old(State()), ok) && status == iphbHandle
      ensures status <==> old(iphbHandle) || ok
      ensures old(iphbHandle <==> wakeupNotifier) ==> (iphbHandle <==> wakeupNotifier)
    {
      if !iphbHandle && ok {
        iphbHandle := true;
        wakeupNotifier := true;
      }
      status := iphbHandle;
    }

    /** `connect` */
    method StartConnecting(ok: bool)
      modifies this`iphbHandle, this`wakeupNotifier, this`connectTimer
      ensures State() == Connect(old(State()), ok)
      ensures old(HbInv(State())) ==> HbInv(State()) && (iphbHandle || connectTimer)
      ensures iphbHandle <==> old(iphbHandle) || (ok && !old(connectTimer))
    {
      if !connectTimer {
        var status := TryToConnect(ok);
        if !status {
          connectTimer := true;
        }
      }
    }

    /** `disconnect` */
    method CloseConnection()
      requires HbInv(State())
      modifies this
      ensures State() == Disconnect(old(State())) && HbInv(State())
      ensures !iphbHandle && !wakeupNotifier && !connectTimer && !started && !armed
    {
      StopWaiting();
      connectTimer := false;
      wakeupNotifier := false;
      iphbHandle := false;
    }

    /** `wait` */
    method Rearm(ok: bool)
      modifies this
      ensures State() == Wait(old(State()), ok)
      ensures old(HbInv(State())) ==> HbInv(State())
      ensures old(HbInv(State())) && started && Delayed(State()) ==> (armed <==> iphbHandle) && (armed || connectTimer)
      ensures armed && !old(armed) ==> armedMin == minDelay && armedMax == maxDelay
    {
      if !started || waiting || minDelay <= 0 || maxDelay < minDelay {
        return;
      }
      if !iphbHandle {
        StartConnecting(ok);
      }
      if iphbHandle {
        armed, armedMin, armedMax := true, minDelay, maxDelay;
        waiting := true;
      }
    }

    /** `setInterval`, `start` */
    method StartWaiting(min: int, max: int, ok: bool)
      modifies this
      ensures State() == Start(SetInterval(old(State()), min, max), ok)
      ensures started && minDelay == min && maxDelay == max
      ensures old(HbInv(State())) && 0 < min <= max ==> HbInv(State()) && (armed <==> iphbHandle) && (armed || connectTimer)
      ensures armed && !old(armed) ==> armedMin == min && armedMax == max
    {
      minDelay, maxDelay := min, max;
      started := true;
      Rearm(ok);
    }

    /** `stop` */
    method StopWaiting()
      modifies this
      ensures State() == Stop(old(State()))
      ensures !started && !waiting && iphbHandle == old(iphbHandle)
      ensures old(HbInv(State())) ==> !armed && HbInv(State())
    {
      if waiting && iphbHandle {
        armed := false;
      }
      waiting := false;
      started := false;
    }

    /** `retryConnect` */
    method Retry(ok: bool)
      requires HbInv(State()) && connectTimer
      modifies this
      ensures State() == RetryConnect(old(State()), ok) && HbInv(State())
      ensures (connectTimer <==> !ok) && (iphbHandle <==> ok) && (armed <==> ok && started && Delayed(State()))
    {
      var status := TryToConnect(ok);
      if status {
        connectTimer := false;
        Rearm(ok);
      }
    }

    /** `wakeup`, except for the signal: `broken` stands for an error or the end of the socket,
        `data` for a wakeup read from it.  Returns whether `timeout` is to be emitted. */
    method Wakeup(broken: bool, data: bool, ok: bool) returns (timeout: bool)
      requires HbInv(State()) && wakeupNotifier
      modifies this
      ensures HbInv(State()) && (timeout <==> !broken && data && old(waiting))
      ensures timeout ==> !started && !waiting && !armed && iphbHandle
      ensures State() == if broken then Broken(old(State()), ok) else if data then Woken(old(State())) else old(State())
    {
      timeout := false;
      if broken {
        Reconnect(ok);
      } else if data && waiting {
        waiting, started, armed := false, false, false;
        timeout := true;
      }
    }

    method Reconnect(ok: bool)
      requires HbInv(State()) && wakeupNotifier
      modifies this
      ensures HbInv(State()) && State() == Broken(old(State()), ok)
    {
      var wasStarted := started;
      CloseConnection();
      started := wasStarted;
      StartConnecting(ok);
    }
  }
}
