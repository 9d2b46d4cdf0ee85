/** `keepalive_timeout_t` of lib-glib/keepalive-timeout.c: the GSource with its private
    background activity, proved to take the steps of `KeepaliveTimeout`. */
module TimeoutSource {
  import opened WakeupDelay
  import Heartbeat
  import opened ActivityProtocol
  import BackgroundActivity
  import opened KeepaliveTimeout

  class TimeoutSource {
    const activity: BackgroundActivity.BackgroundActivity
    var triggered: bool
    var dispatching: bool
    var attached: bool

    function Source(): (t: Timeout)
      reads this, activity, activity.heartbeat
    {
      Timeout(activity.State(), triggered, dispatching, attached)
    }

    /** `keepalive_timeout_add_full` */
    constructor (interval: nat, high: bool, ok: bool)
      requires interval < UINT_RANGE
      ensures Source() == New(interval, high, ok) && TimeoutInv(Source())
      ensures fresh(activity) && fresh(activity.heartbeat)
    {
      activity := new BackgroundActivity.BackgroundActivity();
      triggered, dispatching, attached := false, false, true;
      new;
      var delayLo := (interval + 999) % UINT_RANGE / 1000;
      var delayHi := -1;
      if high {
        delayHi := delayLo + 1;
      }
      activity.SetWakeupRange(delayLo, delayHi);
      SetStateKeeps(Init().(curr := TimeoutDelay(interval, high)), Waiting, ok);
      activity.SetStateLocked(Waiting, ok);
      NewKeeps(interval, high, ok);
    }

    /** `keepalive_timeout_prepare_cb`, `keepalive_timeout_check_cb` */
    method CheckCb() returns (due: bool)
      requires TimeoutInv(Source())
      ensures due == triggered
      ensures due && attached ==> activity.currentState.Running? && activity.keepalive
    {
      due := triggered;
    }

    /** `keepalive_timeout_dispatch_cb`, up to the user's function */
    method DispatchBegins()
      requires TimeoutInv(Source()) && attached && triggered && !dispatching && activity.main.Idle?
      modifies this`dispatching
      ensures Source() == Take(old(Source()), Dispatch) && TimeoutInv(Source())
      ensures activity.currentState.Running? && activity.keepalive
    {
      TurnKeeps(Source(), Dispatch);
      dispatching := true;
    }

    /** And after it has returned `repeat` */
    method DispatchEnds(repeat: bool, ok: bool)
      requires TimeoutInv(Source()) && dispatching
      modifies this, activity, activity.heartbeat
      ensures Source() == Take(old(Source()), Return(repeat, ok)) && TimeoutInv(Source())
      ensures !activity.inShutdown ==> activity.currentState == if repeat then Waiting else Stopped
    {
      TurnKeeps(Source(), Return(repeat, ok));
      if repeat {
        activity.SetStateLocked(Waiting, ok);
      } else {
        activity.SetStateLocked(Stopped, ok);
      }
      triggered := false;
      dispatching := false;
    }

    /** The activity's report timer, with `keepalive_timeout_trigger_cb` as its running callback
        while the source has not been finalized, and the default one after */
    method ReportCb()
      requires TimeoutInv(Source()) && !dispatching && activity.main.Idle? && activity.reportTimer
      modifies this, activity, activity.heartbeat
      ensures Source() == Take(Take(old(Source()), OnLoop(Report)), OnLoop(ReportDone)) && TimeoutInv(Source())
    {
      TurnKeeps(Source(), OnLoop(Report));
      TurnKeeps(Take(Source(), OnLoop(Report)), OnLoop(ReportDone));
      var told, mode := activity.ReportBegins();
      if told {
        Told(mode);
        activity.ReportEnds();
      }
    }

    method Told(mode: Mode)
      requires Inv(activity.State())
      modifies this, activity, activity.heartbeat
      ensures Inv(activity.State())
      ensures Source() == if !mode.Running? then old(Source())
                          else if attached then old(Source()).(triggered := true)
                          else old(Source()).(bga := SetState(old(activity.State()), Stopped, false))
    {
      if mode.Running? {
        if attached {
          triggered := true;
        } else {
          activity.SetStateLocked(Stopped, false);
        }
      }
    }

    /** `keepalive_timeout_finalize_cb` */
    method FinalizeCb()
      requires TimeoutInv(Source()) && attached && !dispatching && activity.main.Idle?
      modifies this, activity
      ensures Source() == Take(old(Source()), Destroy) && TimeoutInv(Source())
      ensures !attached && activity.released
    {
      TurnKeeps(Source(), Destroy);
      attached := false;
      activity.released := true;
    }
  }
}
