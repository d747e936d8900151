/**
  What the two LED blink schedulers have in common: the rule by which a newly
  enabled LED picks its first deadline so that it blinks in step with the LEDs
  already blinking, the unsigned 32-bit arithmetic on deadlines and the
  16-bit view of an interval.
 */
module BlinkSchedule {
  import opened Qmk

  /** `uint32_t` subtraction: wraps modulo 2^32. */
  function Sub32(a: U32, b: int): (r: U32)
    ensures (r + b - a) % 0x1_0000_0000 == 0
    ensures 0 <= b <= a ==> r == a - b
  {
    (a - b) % 0x1_0000_0000
  }

  /** `uint32_t` addition: wraps modulo 2^32. */
  function Add32(a: U32, b: int): (r: U32)
    ensures (r - a - b) % 0x1_0000_0000 == 0
    ensures 0 <= b && a + b <= U32Max ==> r == a + b
  {
    (a + b) % 0x1_0000_0000
  }

  /**
    `uint16_t interval = blink_interval[i]`: both render passes see the
    interval truncated to 16 bits, which keeps its low 16 bits.
   */
  function Interval16(interval: U32): (r: U16)
    ensures interval <= U16Max ==> r == interval
    ensures interval > U16Max ==> r < interval && (interval - r) % 0x1_0000 == 0
  {
    interval % 0x1_0000
  }

  /**
    The deadline `synch_with_closest_blink(interval, time)` returns, over the
    intervals and deadlines of all LEDs:
    - the deadline of the first LED whose interval equals `interval`;
    - failing that, the earliest deadline of all LEDs;
    - and `time` when every deadline is `UINT32_MAX` (no LED is scheduled).
   */
  ghost predicate ClosestBlink(intervals: seq<U32>, deadlines: seq<U32>, interval: int, time: U32,
                               r: U32)
    requires |intervals| == |deadlines|
  {
    if exists k :: 0 <= k < |intervals| && intervals[k] == interval then
      exists k :: 0 <= k < |intervals| && intervals[k] == interval && r == deadlines[k] &&
        forall j :: 0 <= j < k ==> intervals[j] != interval
    else if forall k :: 0 <= k < |deadlines| ==> deadlines[k] == U32Max then
      r == time
    else
      (forall k :: 0 <= k < |deadlines| ==> r <= deadlines[k]) &&
      exists k :: 0 <= k < |deadlines| && r == deadlines[k]
  }

  /** The rule determines the deadline: two results that both satisfy it are equal. */
  lemma ClosestBlinkIsUnique(intervals: seq<U32>, deadlines: seq<U32>, interval: int, time: U32,
                             r1: U32, r2: U32)
    requires |intervals| == |deadlines|
    requires ClosestBlink(intervals, deadlines, interval, time, r1)
    requires ClosestBlink(intervals, deadlines, interval, time, r2)
    ensures r1 == r2
  {
    if exists k :: 0 <= k < |intervals| && intervals[k] == interval {
      var k1 :| 0 <= k1 < |intervals| && intervals[k1] == interval && r1 == deadlines[k1] &&
        forall j :: 0 <= j < k1 ==> intervals[j] != interval;
      var k2 :| 0 <= k2 < |intervals| && intervals[k2] == interval && r2 == deadlines[k2] &&
        forall j :: 0 <= j < k2 ==> intervals[j] != interval;
      assert k1 == k2;
    } else if !(forall k :: 0 <= k < |deadlines| ==> deadlines[k] == U32Max) {
      var k1 :| 0 <= k1 < |deadlines| && r1 == deadlines[k1];
      var k2 :| 0 <= k2 < |deadlines| && r2 == deadlines[k2];
      assert r1 <= deadlines[k2] && r2 <= deadlines[k1];
    }
  }

  /** The chosen deadline is `time` or the deadline of some LED: nothing else is ever invented. */
  lemma ClosestBlinkIsScheduledOrNow(intervals: seq<U32>, deadlines: seq<U32>, interval: int,
                                     time: U32, r: U32)
    requires |intervals| == |deadlines|
    requires ClosestBlink(intervals, deadlines, interval, time, r)
    ensures r == time || exists k :: 0 <= k < |deadlines| && r == deadlines[k]
  {
    if exists k :: 0 <= k < |intervals| && intervals[k] == interval {
      var k :| 0 <= k < |intervals| && intervals[k] == interval && r == deadlines[k] &&
        forall j :: 0 <= j < k ==> intervals[j] != interval;
      assert 0 <= k < |deadlines| && r == deadlines[k];
    }
  }
}
