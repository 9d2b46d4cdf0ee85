/** How long a wakeup may take: from a timeout's milliseconds through the background activity
    and the heartbeat to the seconds the IPHB daemon is asked for. */
module WakeupDelay {

  const INT_MAX: int := 0x7fff_ffff
  const UINT_RANGE: int := 0x1_0000_0000

  /** BACKGROUND_ACTIVITY_FREQUENCY_RANGE, ..._THIRTY_SECONDS, ..._ONE_HOUR */
  const RANGE: int := 0
  const THIRTY_SECONDS: int := 30
  const ONE_HOUR: int := 3600

  /** The heartbeat period assumed of DSME. */
  const HEARTBEAT_PERIOD: int := 12

  datatype Delay = Delay(slot: int, lo: int, hi: int)

  const DEFAULT: Delay := Delay(ONE_HOUR, ONE_HOUR, ONE_HOUR)

  /** `wakeup_delay_set_slot` */
  function SlotDelay(slot: nat): (d: Delay)
    ensures Normal(d) && d.slot != RANGE
  {
    var least := if slot < THIRTY_SECONDS then THIRTY_SECONDS else slot;
    var whole := least - least % THIRTY_SECONDS;
    Delay(whole, whole, whole)
  }

  /** The heartbeat period, where it is added, does not overflow. */
  predicate RangeFits(lo: int, hi: int) { hi <= lo ==> lo <= INT_MAX - HEARTBEAT_PERIOD }

  /** `wakeup_delay_set_range` */
  function RangeDelay(lo: int, hi: int): (d: Delay)
    requires RangeFits(lo, hi)
    ensures Normal(d) && d.slot == RANGE && (hi <= INT_MAX ==> d.hi <= INT_MAX)
  {
    var least := if lo < 1 then 1 else lo;
    Delay(RANGE, least, if hi <= least then least + HEARTBEAT_PERIOD else hi)
  }

  /** `heartbeat_set_delay_locked` */
  function HeartbeatDelay(lo: int, hi: int): (int, int) {
    var least := if lo < 1 then 1 else lo;
    (least, if hi < least then least else hi)
  }

  /** The range of `keepalive_timeout_add_full` for an interval in milliseconds: unsigned
      arithmetic, and a range only for high priorities. */
  function TimeoutDelay(interval: nat, high: bool): Delay
    requires interval < UINT_RANGE
  {
    var lo := (interval + 999) % UINT_RANGE / 1000;
    RangeDelay(lo, if high then lo + 1 else -1)
  }

  /** The interval `keepalive_timeout_add_seconds` passes on. */
  function SecondsInterval(seconds: nat): (interval: nat)
    requires seconds < UINT_RANGE
    ensures interval < UINT_RANGE
  {
    seconds * 1000 % UINT_RANGE
  }

  /** What all delays are that an activity holds: a positive range, or a single point that
      is a whole number of global slots. */
  predicate Normal(d: Delay) {
    && 1 <= d.lo <= d.hi
    && (d.lo == d.hi <==> d.slot != RANGE)
    && (d.slot != RANGE ==> d.lo == d.slot && d.slot % THIRTY_SECONDS == 0)
  }

  /** The slot is the greatest multiple of 30 s that is not above what was asked for, or 30 s. */
  lemma SlotIsGreatest(slot: nat, k: nat)
    ensures SlotDelay(slot).slot % THIRTY_SECONDS == 0
    ensures THIRTY_SECONDS * k <= SlotDelay(slot).slot <==> THIRTY_SECONDS * k <= slot || k <= 1
  {
  }

  /** A range keeps its bounds but for a lower one that is not positive; one that is no proper
      range then gets the length of a heartbeat period. */
  lemma RangeIsKept(lo: int, hi: int)
    requires RangeFits(lo, hi)
    ensures var d := RangeDelay(lo, hi);
            && d.slot == RANGE && (if lo > 0 then d.lo == lo else d.lo == 1)
            && (if hi > d.lo then d.hi == hi else d.hi - d.lo == 12)
  {
  }

  /** The heartbeat's own clamping changes none of these delays. */
  lemma ClampIsIdentity(d: Delay)
    requires Normal(d)
    ensures HeartbeatDelay(d.lo, d.hi) == (d.lo, d.hi)
  {
  }

  /** Setting a delay again from what is read back changes nothing. */
  lemma DelayRoundTrip(d: Delay)
    requires Normal(d)
    ensures d == if d.slot == RANGE then RangeDelay(d.lo, d.hi) else SlotDelay(d.slot)
  {
  }

  /** A timeout of `n` milliseconds waits for the seconds that cover it, and no more: with one
      second of slack at high priority, and one heartbeat period otherwise.  A zero timeout
      gets the range from 1 to 13 at any priority. */
  lemma TimeoutRange(n: nat, high: bool)
    requires n + 999 < UINT_RANGE
    ensures var d := TimeoutDelay(n, high);
            && d.slot == RANGE
            && (n > 0 ==> (d.lo - 1) * 1000 < n <= d.lo * 1000 && d.hi == d.lo + if high then 1 else HEARTBEAT_PERIOD)
            && (n == 0 ==> d.lo == 1 && d.hi == 13)
            && HeartbeatDelay(d.lo, d.hi) == (d.lo, d.hi)
  {
  }

  /** The wait covers the interval for all but the longest 999 intervals, for which the
      rounding wraps around and the timeout comes after a second or so. */
  lemma TimeoutCoversUnlessWrapped(n: nat, high: bool)
    requires n < UINT_RANGE
    ensures n <= TimeoutDelay(n, high).lo * 1000 <==> n + 999 < UINT_RANGE
  {
  }

  /** In seconds the wait is the number given, except where the milliseconds wrap around. */
  lemma SecondsTimeout(seconds: nat, high: bool)
    requires 0 < seconds < UINT_RANGE
    ensures TimeoutDelay(SecondsInterval(seconds), high).lo == seconds <==> seconds * 1000 + 999 < UINT_RANGE
  {
    var interval := SecondsInterval(seconds);
    if seconds * 1000 < UINT_RANGE {
      assert interval == seconds * 1000;
    }
  }
}
