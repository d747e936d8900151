/**
  The newer per-LED blink scheduler: five parallel arrays (colour, interval,
  next deadline, blink counter, blink limit) and an initialisation flag,
  updated in place. An LED blinks until its counter passes its limit, then
  switches itself off.

  `rgb_matrix_set_color` is modelled as the output array `rendered`; the
  timer is the explicit parameter `now` / `triggerTime`.
 */
module RgbControl {
  import opened Qmk
  import opened BlinkSchedule

  /** One LED's entries in the five arrays. */
  datatype Led = Led(color: Rgb, interval: U32, deadline: U32, counter: U32, limit: U32)

  /** The state `disable_all` gives every LED. */
  const Off: Led := Led(Black, U32Max, U32Max, 0, U32Max)

  /** `blinking_enabled_on_led` on one LED's entries. */
  predicate Enabled(led: Led)
  {
    led.deadline != U32Max && led.color != Black
  }

  /** `disable_blinking_for` on one LED: black, no interval, counter reset; deadline and limit stay. */
  function Disabled(led: Led): (r: Led)
    ensures !Enabled(r)
    ensures r.deadline == led.deadline && r.limit == led.limit
    ensures r.color == Black && r.interval == U32Max && r.counter == 0
  {
    led.(color := Black, interval := U32Max, counter := 0)
  }

  /**
    `manage_blink_deadline` on one LED: past its limit the LED is disabled
    first; then the deadline is `UINT32_MAX` for the `UINT32_MAX` interval and
    one interval after `triggerTime` (modulo 2^32) otherwise.
   */
  function DeadlineStep(led: Led, triggerTime: U32): (r: Led)
    ensures led.limit != U32Max && led.counter > led.limit ==>
              r == Disabled(led).(deadline := U32Max)
    ensures !(led.limit != U32Max && led.counter > led.limit) && led.interval == U32Max ==>
              r == led.(deadline := U32Max)
    ensures !(led.limit != U32Max && led.counter > led.limit) && led.interval != U32Max ==>
              r == led.(deadline := Add32(triggerTime, led.interval))
  {
    var checked := if led.limit != U32Max && led.counter > led.limit then Disabled(led) else led;
    if checked.interval == U32Max then checked.(deadline := U32Max)
    else checked.(deadline := Add32(triggerTime, checked.interval))
  }

  /** The LED after a render pass at `triggerTime`: a due LED counts one blink and is rescheduled. */
  function Tick(led: Led, triggerTime: U32): (r: Led)
    ensures triggerTime <= led.deadline ==> r == led
    ensures r.limit == led.limit
    ensures r.color == led.color || r.color == Black
  {
    if triggerTime > led.deadline then DeadlineStep(led.(counter := Add32(led.counter, 1)), triggerTime)
    else led
  }

  /** The colour the render pass leaves on an LED whose previous output was `prev`. */
  function Shown(led: Led, triggerTime: U32, prev: Rgb): (r: Rgb)
    ensures r == led.color || r == Black || r == prev
    ensures triggerTime <= led.deadline && !Enabled(led) ==> r == Black
  {
    var interval := Interval16(led.interval);
    if triggerTime > led.deadline then led.color
    else if triggerTime > Sub32(led.deadline, interval / 2) || !Enabled(led) then Black
    else if triggerTime > Sub32(led.deadline, interval) then led.color
    else prev
  }

  /** An LED whose deadline is `UINT32_MAX` is never due: a render pass leaves it as it is. */
  lemma UnscheduledIsNeverAdvanced(led: Led, triggerTime: U32)
    requires led.deadline == U32Max
    ensures Tick(led, triggerTime) == led
    ensures Shown(led, triggerTime, led.color) == Black
  {
  }

  /** An LED that reaches its blink limit ends disabled, with the `UINT32_MAX` deadline. */
  lemma PastLimitEndsUnscheduled(led: Led, triggerTime: U32)
    requires triggerTime > led.deadline
    requires led.limit != U32Max && led.limit <= led.counter < U32Max
    ensures Tick(led, triggerTime).deadline == U32Max
    ensures !Enabled(Tick(led, triggerTime))
    ensures Tick(led, triggerTime).counter == 0
  {
    assert Add32(led.counter, 1) == led.counter + 1;
  }

  /** With a limit set, the counter stays within it: a blink beyond it resets the counter to 0. */
  lemma CounterStaysWithinLimit(led: Led, triggerTime: U32)
    requires led.limit != U32Max && led.counter <= led.limit
    ensures Tick(led, triggerTime).limit == led.limit
    ensures Tick(led, triggerTime).counter <= led.limit
  {
    if triggerTime > led.deadline {
      assert Add32(led.counter, 1) == led.counter + 1;
    }
  }

  /** An unscheduled LED, for instance one switched off at its limit, stays as it is for any run of render passes. */
  lemma {:induction false} OffStaysOff(led: Led, times: seq<U32>)
    requires led.deadline == U32Max
    ensures TickAll(led, times) == led
    decreases |times|
  {
    if times != [] {
      UnscheduledIsNeverAdvanced(led, times[0]);
      OffStaysOff(led, times[1..]);
    }
  }

  /**
    An LED that reaches its blink limit is switched off for good: no later run
    of render passes changes it again, and every one of them draws it black.
   */
  lemma {:induction false} LimitReachedStaysOff(led: Led, triggerTime: U32, times: seq<U32>)
    requires triggerTime > led.deadline
    requires led.limit != U32Max && led.limit <= led.counter < U32Max
    ensures TickAll(Tick(led, triggerTime), times) == Tick(led, triggerTime)
    ensures forall t: U32 :: Shown(Tick(led, triggerTime), t, Tick(led, triggerTime).color) == Black
  {
    PastLimitEndsUnscheduled(led, triggerTime);
    OffStaysOff(Tick(led, triggerTime), times);
    forall t: U32 {
      UnscheduledIsNeverAdvanced(Tick(led, triggerTime), t);
    }
  }

  /** A sequence of render passes, oldest first. */
  function TickAll(led: Led, times: seq<U32>): Led
    decreases |times|
  {
    if times == [] then led else TickAll(Tick(led, times[0]), times[1..])
  }

  class Leds {
    /** `color_map`. */
    const colorMap: array<Rgb>
    /** `blink_interval`. */
    const blinkInterval: array<U32>
    /** `blink_timer_deadlines`. */
    const deadlines: array<U32>
    /** `blink_counters`. */
    const counters: array<U32>
    /** `blink_ntimes_limit`. */
    const limits: array<U32>
    /** What `rgb_matrix_set_color` last set on each LED. */
    const rendered: array<Rgb>
    /** `rgb_control_init`. */
    var initialized: bool

    ghost predicate Valid()
    {
      && colorMap.Length == LedCount && blinkInterval.Length == LedCount
      && deadlines.Length == LedCount && counters.Length == LedCount
      && limits.Length == LedCount && rendered.Length == LedCount
      && colorMap != rendered
      && blinkInterval != deadlines && blinkInterval != counters && blinkInterval != limits
      && deadlines != counters && deadlines != limits && counters != limits
    }

    function At(i: int): Led
      reads colorMap, blinkInterval, deadlines, counters, limits
      requires Valid() && 0 <= i < LedCount
    {
      Led(colorMap[i], blinkInterval[i], deadlines[i], counters[i], limits[i])
    }

    /** Every LED is in the state `disable_all` leaves. */
    ghost predicate AllOff()
      reads colorMap, blinkInterval, deadlines, counters, limits, rendered
      requires Valid()
    {
      forall i :: 0 <= i < LedCount ==> At(i) == Off && rendered[i] == Black
    }

    /** The empty initialisers: every entry 0, and the flag false. */
    constructor ()
      ensures Valid() && !initialized
      ensures fresh(colorMap) && fresh(blinkInterval) && fresh(deadlines)
      ensures fresh(counters) && fresh(limits) && fresh(rendered)
      ensures forall i :: 0 <= i < LedCount ==> At(i) == Led(Black, 0, 0, 0, 0) && rendered[i] == Black
    {
      colorMap := new Rgb[LedCount](_ => Black);
      blinkInterval := new U32[LedCount](_ => 0);
      deadlines := new U32[LedCount](_ => 0);
      counters := new U32[LedCount](_ => 0);
      limits := new U32[LedCount](_ => 0);
      rendered := new Rgb[LedCount](_ => Black);
      initialized := false;
    }

    /** `init_rgb_state`: the first call switches every LED off; later calls do nothing. */
    method InitRgbState()
      requires Valid()
      modifies this`initialized, colorMap, blinkInterval, deadlines, counters, limits, rendered
      ensures Valid() && initialized
      ensures !old(initialized) ==> AllOff()
      ensures old(initialized) ==>
                unchanged(colorMap, blinkInterval, deadlines, counters, limits, rendered)
    {
      if initialized {
        return;
      }
      DisableAll();
      initialized := true;
    }

    /** `disable_all`. */
    method DisableAll()
      requires Valid()
      modifies colorMap, blinkInterval, deadlines, counters, limits, rendered
      ensures Valid() && AllOff()
    {
      for i := 0 to LedCount
        invariant forall j :: 0 <= j < i ==> colorMap[j] == Black && rendered[j] == Black
        invariant forall j :: 0 <= j < i ==> counters[j] == 0 && blinkInterval[j] == U32Max
        invariant forall j :: 0 <= j < i ==> deadlines[j] == U32Max && limits[j] == U32Max
      {
        colorMap[i] := Black;
        counters[i] := 0;
        blinkInterval[i] := U32Max;
        deadlines[i] := U32Max;
        limits[i] := U32Max;
        rendered[i] := Black;
      }
    }

    /** `synch_with_closest_blink`. */
    method SynchWithClosestBlink(interval: U16, time: U32) returns (r: U32)
      requires Valid()
      ensures ClosestBlink(blinkInterval[..], deadlines[..], interval, time, r)
    {
      var closest: U32 := U32Max;
      var i := 0;
      while i < LedCount
        invariant 0 <= i <= LedCount
        invariant forall j :: 0 <= j < i ==> blinkInterval[j] != interval
        invariant forall j :: 0 <= j < i ==> closest <= deadlines[j]
        invariant closest == U32Max || exists j :: 0 <= j < i && closest == deadlines[j]
      {
        var deadline := deadlines[i];
        if blinkInterval[i] == interval {
          assert blinkInterval[..][i] == interval && deadlines[..][i] == deadline;
          return deadline;
        }
        if deadline < closest {
          closest := deadline;
        }
        i := i + 1;
      }
      if closest == U32Max {
        return time;
      }
      return closest;
    }

    /**
      `enable_blinking_for`: the LED joins the closest blink (looked up with
      the interval truncated to 16 bits, as the parameter of the lookup is
      `uint16_t`), takes the colour, interval and limit, and restarts its count.
     */
    method EnableBlinkingFor(keyIndex: nat, color: Rgb, interval: U32, nTimes: U32, now: U32)
      requires Valid() && keyIndex < LedCount
      modifies deadlines, colorMap, blinkInterval, limits, counters
      ensures Valid()
      ensures ClosestBlink(old(blinkInterval[..]), old(deadlines[..]), interval % 0x1_0000, now,
                           deadlines[keyIndex])
      ensures deadlines[..] == old(deadlines[..])[keyIndex := deadlines[keyIndex]]
      ensures colorMap[..] == old(colorMap[..])[keyIndex := color]
      ensures blinkInterval[..] == old(blinkInterval[..])[keyIndex := interval]
      ensures limits[..] == old(limits[..])[keyIndex := nTimes]
      ensures counters[..] == old(counters[..])[keyIndex := 0]
    {
      var deadline := SynchWithClosestBlink(ToU16(interval), now);
      deadlines[keyIndex] := deadline;
      colorMap[keyIndex] := color;
      blinkInterval[keyIndex] := interval;
      limits[keyIndex] := nTimes;
      counters[keyIndex] := 0;
    }

    /** `disable_blinking_for`: only this LED changes, as `Disabled` says. */
    method DisableBlinkingFor(keyIndex: nat)
      requires Valid() && keyIndex < LedCount
      modifies colorMap, blinkInterval, counters
      ensures Valid()
      ensures At(keyIndex) == Disabled(old(At(keyIndex)))
      ensures forall i :: 0 <= i < LedCount && i != keyIndex ==> At(i) == old(At(i))
    {
      colorMap[keyIndex] := Black;
      blinkInterval[keyIndex] := U32Max;
      counters[keyIndex] := 0;
    }

    /** `blinking_enabled_on_led`. */
    function BlinkingEnabledOnLed(index: nat): (r: bool)
      reads colorMap, blinkInterval, deadlines, counters, limits
      requires Valid() && index < LedCount
      ensures r <==> Enabled(At(index))
    {
      deadlines[index] != U32Max && colorMap[index] != Black
    }

    /** `manage_blink_deadline`: only this LED changes, as `DeadlineStep` says. */
    method ManageBlinkDeadline(ledIndex: nat, triggerTime: U32)
      requires Valid() && ledIndex < LedCount
      modifies colorMap, blinkInterval, counters, deadlines
      ensures Valid()
      ensures At(ledIndex) == DeadlineStep(old(At(ledIndex)), triggerTime)
      ensures forall i :: 0 <= i < LedCount && i != ledIndex ==> At(i) == old(At(i))
    {
      var count := counters[ledIndex];
      var countLimit := limits[ledIndex];
      if countLimit != U32Max && count > countLimit {
        DisableBlinkingFor(ledIndex);
      }
      var interval := blinkInterval[ledIndex];
      if interval == U32Max {
        deadlines[ledIndex] := U32Max;
        return;
      }
      deadlines[ledIndex] := Add32(triggerTime, interval);
    }

    /**
      `manage_blinking_keys` at `triggerTime`: every LED moves on as `Tick`
      says and shows what `Shown` says.
     */
    method ManageBlinkingKeys(triggerTime: U32)
      requires Valid()
      modifies colorMap, blinkInterval, counters, deadlines, rendered
      ensures Valid()
      ensures forall i :: 0 <= i < LedCount ==>
                At(i) == Tick(old(At(i)), triggerTime) &&
                rendered[i] == Shown(old(At(i)), triggerTime, old(rendered[i]))
    {
      var i := 0;
      while i < LedCount
        invariant 0 <= i <= LedCount
        invariant forall j :: 0 <= j < i ==>
                    At(j) == Tick(old(At(j)), triggerTime) &&
                    rendered[j] == Shown(old(At(j)), triggerTime, old(rendered[j]))
        invariant forall j :: i <= j < LedCount ==> At(j) == old(At(j)) && rendered[j] == old(rendered[j])
      {
        var deadline := deadlines[i];
        var rgb := colorMap[i];
        var interval := Interval16(blinkInterval[i]);
        if triggerTime > deadline {
          rendered[i] := rgb;
          counters[i] := Add32(counters[i], 1);
          ManageBlinkDeadline(i, triggerTime);
        } else if triggerTime > Sub32(deadline, interval / 2) || !BlinkingEnabledOnLed(i) {
          rendered[i] := Black;
        } else if triggerTime > Sub32(deadline, interval) {
          rendered[i] := rgb;
        }
        i := i + 1;
      }
    }
  }

  /**
    An LED enabled on an idle matrix with limit 1 starts at the current time,
    is lit at its first two deadlines and is switched off at the second: the
    counter is compared with the limit after it has been incremented.
   */
  method BlinkLimitOne() returns (shown: seq<Rgb>, final: Led)
    ensures shown == [Rgb(255, 0, 0), Rgb(255, 0, 0), Black]
    ensures final == Led(Black, U32Max, U32Max, 0, 1)
  {
    var leds := new Leds();
    leds.InitRgbState();
    ghost var intervals, deadlines := leds.blinkInterval[..], leds.deadlines[..];
    forall k | 0 <= k < LedCount
      ensures intervals[k] != 10 && deadlines[k] == U32Max
    {
      assert leds.At(k) == Off;
    }
    assert ClosestBlink(intervals, deadlines, 10, 100, 100);
    leds.EnableBlinkingFor(7, Rgb(255, 0, 0), 10, 1, 100);
    ClosestBlinkIsUnique(intervals, deadlines, 10, 100, leds.deadlines[7], 100);
    assert leds.At(7) == Led(Rgb(255, 0, 0), 10, 100, 0, 1);
    leds.ManageBlinkingKeys(101);
    assert leds.At(7) == Led(Rgb(255, 0, 0), 10, 111, 1, 1);
    var first := leds.rendered[7];
    leds.ManageBlinkingKeys(112);
    assert leds.At(7) == Led(Black, U32Max, U32Max, 0, 1);
    var second := leds.rendered[7];
    leds.ManageBlinkingKeys(123);
    shown := [first, second, leds.rendered[7]];
    final := leds.At(7);
  }
}
