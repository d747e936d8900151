/**
  The older per-LED blink scheduler: three parallel arrays (colour, interval,
  next deadline) updated in place, and a render pass that lights or darkens
  each LED depending on where the current time falls in its interval.

  `rgb_matrix_set_color` is modelled as the output array `rendered`; the
  timer is the explicit parameter `now` / `triggerTime`.
 */
module RgbBlink {
  import opened Qmk
  import opened BlinkSchedule

  /** One LED's entries in the three arrays. */
  datatype Led = Led(color: Rgb, interval: U32, deadline: U32)

  /** The deadline an LED has after a render pass at `triggerTime`. */
  function NextDeadline(led: Led, triggerTime: U32): (r: U32)
    ensures triggerTime <= led.deadline ==> r == led.deadline
    ensures triggerTime > led.deadline && triggerTime + Interval16(led.interval) <= U32Max ==>
              r == triggerTime + Interval16(led.interval)
    ensures triggerTime > led.deadline && triggerTime + Interval16(led.interval) > U32Max ==>
              r == triggerTime + Interval16(led.interval) - 0x1_0000_0000
  {
    if triggerTime > led.deadline then Add32(triggerTime, Interval16(led.interval))
    else led.deadline
  }

  /** The colour the render pass leaves on an LED whose previous output was `prev`. */
  function Shown(led: Led, triggerTime: U32, prev: Rgb): (r: Rgb)
    ensures r == led.color || r == Black || r == prev
  {
    var interval := Interval16(led.interval);
    if triggerTime > led.deadline then led.color
    else if triggerTime > Sub32(led.deadline, interval / 2) then Black
    else if triggerTime > Sub32(led.deadline, interval) then led.color
    else prev
  }

  /**
    The duty cycle: away from the wrap-around, an LED is lit during the first
    half of the interval before its deadline, dark during the second half, and
    left as it was before the interval starts.
   */
  lemma LitThenDark(led: Led, triggerTime: U32, prev: Rgb)
    requires Interval16(led.interval) <= led.deadline
    requires triggerTime <= led.deadline
    ensures var interval := Interval16(led.interval);
      && (led.deadline - interval / 2 < triggerTime ==> Shown(led, triggerTime, prev) == Black)
      && (led.deadline - interval < triggerTime <= led.deadline - interval / 2 ==>
            Shown(led, triggerTime, prev) == led.color)
      && (triggerTime <= led.deadline - interval ==> Shown(led, triggerTime, prev) == prev)
  {
  }

  /**
    A second render pass at the same instant changes nothing, as long as the
    advanced deadline does not wrap around.
   */
  lemma RenderTwiceIsRenderOnce(led: Led, triggerTime: U32, prev: Rgb)
    requires triggerTime + Interval16(led.interval) <= U32Max
    ensures var after := led.(deadline := NextDeadline(led, triggerTime));
      && NextDeadline(after, triggerTime) == after.deadline
      && Shown(after, triggerTime, Shown(led, triggerTime, prev)) == Shown(led, triggerTime, prev)
  {
    var interval := Interval16(led.interval);
    if triggerTime > led.deadline {
      var after := led.(deadline := NextDeadline(led, triggerTime));
      assert after.deadline == triggerTime + interval;
      assert Sub32(after.deadline, interval / 2) == triggerTime + interval - interval / 2;
      assert Sub32(after.deadline, interval) == triggerTime;
    }
  }

  class Leds {
    /** `color_map`. */
    const colorMap: array<Rgb>
    /** `blink_interval`. */
    const blinkInterval: array<U32>
    /** `blink_timer_deadlines`. */
    const deadlines: array<U32>
    /** What `rgb_matrix_set_color` last set on each LED. */
    const rendered: array<Rgb>

    ghost predicate Valid()
      reads this
    {
      && colorMap.Length == LedCount && blinkInterval.Length == LedCount
      && deadlines.Length == LedCount && rendered.Length == LedCount
      && colorMap != rendered && blinkInterval != deadlines
    }

    function At(i: int): Led
      reads this, colorMap, blinkInterval, deadlines
      requires Valid() && 0 <= i < LedCount
    {
      Led(colorMap[i], blinkInterval[i], deadlines[i])
    }

    /**
      The initialisers: `{0}` everywhere, except `{UINT32_MAX}` for the
      deadlines, which sets only the first element.
     */
    constructor ()
      ensures Valid()
      ensures fresh(colorMap) && fresh(blinkInterval) && fresh(deadlines) && fresh(rendered)
      ensures deadlines[0] == U32Max
      ensures forall i :: 1 <= i < LedCount ==> deadlines[i] == 0
      ensures forall i :: 0 <= i < LedCount ==>
                colorMap[i] == Black && blinkInterval[i] == 0 && rendered[i] == Black
    {
      colorMap := new Rgb[LedCount](_ => Black);
      blinkInterval := new U32[LedCount](_ => 0);
      deadlines := new U32[LedCount](i => if i == 0 then U32Max else 0);
      rendered := new Rgb[LedCount](_ => Black);
    }

    /** `synch_with_closest_blink`. */
    method SynchWithClosestBlink(interval: U16, time: U32) returns (r: U32)
      requires Valid()
      ensures ClosestBlink(blinkInterval[..], deadlines[..], interval, time, r)
    {
      var closest: U32 := U32Max;
      var i := 0;
      while i < LedCount
        invariant 0 <= i <= LedCount
        invariant forall j :: 0 <= j < i ==> blinkInterval[j] != interval
        invariant forall j :: 0 <= j < i ==> closest <= deadlines[j]
        invariant closest == U32Max || exists j :: 0 <= j < i && closest == deadlines[j]
      {
        var deadline := deadlines[i];
        if blinkInterval[i] == interval {
          assert blinkInterval[..][i] == interval && deadlines[..][i] == deadline;
          return deadline;
        }
        if deadline < closest {
          closest := deadline;
        }
        i := i + 1;
      }
      if closest == U32Max {
        return time;
      }
      return closest;
    }

    /**
      `enable_blinking_for`: the LED joins the closest blink (looked up with
      the interval truncated to 16 bits) and takes the new colour and interval.
     */
    method EnableBlinkingFor(keyIndex: nat, color: Rgb, interval: U32, now: U32)
      requires Valid() && keyIndex < LedCount
      modifies deadlines, colorMap, blinkInterval
      ensures Valid()
      ensures ClosestBlink(old(blinkInterval[..]), old(deadlines[..]), interval % 0x1_0000, now,
                           deadlines[keyIndex])
      ensures deadlines[..] == old(deadlines[..])[keyIndex := deadlines[keyIndex]]
      ensures colorMap[..] == old(colorMap[..])[keyIndex := color]
      ensures blinkInterval[..] == old(blinkInterval[..])[keyIndex := interval]
    {
      var deadline := SynchWithClosestBlink(ToU16(interval), now);
      deadlines[keyIndex] := deadline;
      colorMap[keyIndex] := color;
      blinkInterval[keyIndex] := interval;
    }

    /** `disable_blinking_for`: black colour and the `UINT32_MAX` interval; the deadline stays. */
    method DisableBlinkingFor(keyIndex: nat)
      requires Valid() && keyIndex < LedCount
      modifies colorMap, blinkInterval
      ensures Valid()
      ensures colorMap[..] == old(colorMap[..])[keyIndex := Black]
      ensures blinkInterval[..] == old(blinkInterval[..])[keyIndex := U32Max]
      ensures deadlines[..] == old(deadlines[..])
      ensures !BlinkingEnabledOnLed(keyIndex)
    {
      colorMap[keyIndex] := Black;
      blinkInterval[keyIndex] := U32Max;
    }

    /**
      `blinking_enabled_on_led`. The deadline is compared with `UINT16_MAX`,
      so an LED with a colour and the `UINT32_MAX` deadline counts as blinking.
     */
    function BlinkingEnabledOnLed(index: nat): (r: bool)
      reads this, colorMap, deadlines
      requires Valid() && index < LedCount
      ensures colorMap[index] == Black ==> !r
      ensures deadlines[index] == U16Max ==> !r
      ensures colorMap[index] != Black && deadlines[index] != U16Max ==> r
    {
      deadlines[index] != U16Max && colorMap[index] != Black
    }

    /**
      `manage_blinking_keys` at `triggerTime`: every LED gets its rendered
      colour and, when due, its next deadline; colours and intervals are not
      touched.
     */
    method ManageBlinkingKeys(triggerTime: U32)
      requires Valid()
      modifies deadlines, rendered
      ensures Valid()
      ensures forall i :: 0 <= i < LedCount ==>
                deadlines[i] == NextDeadline(old(At(i)), triggerTime) &&
                rendered[i] == Shown(old(At(i)), triggerTime, old(rendered[i]))
      ensures colorMap[..] == old(colorMap[..]) && blinkInterval[..] == old(blinkInterval[..])
    {
      var i := 0;
      while i < LedCount
        invariant 0 <= i <= LedCount
        invariant forall j :: 0 <= j < i ==>
                    deadlines[j] == NextDeadline(old(At(j)), triggerTime) &&
                    rendered[j] == Shown(old(At(j)), triggerTime, old(rendered[j]))
        invariant forall j :: i <= j < LedCount ==>
                    deadlines[j] == old(deadlines[j]) && rendered[j] == old(rendered[j])
      {
        var deadline := deadlines[i];
        var rgb := colorMap[i];
        var interval := Interval16(blinkInterval[i]);
        if triggerTime > deadline {
          rendered[i] := rgb;
          // The source also saturates the sum at UINT32_MAX, but the sum is
          // already reduced to 32 bits and the store that follows overwrites it.
          deadlines[i] := Add32(triggerTime, interval);
        } else if triggerTime > Sub32(deadline, interval / 2) {
          rendered[i] := Black;
        } else if triggerTime > Sub32(deadline, interval) {
          rendered[i] := rgb;
        }
        i := i + 1;
      }
    }
  }

  /**
    Right after start-up every interval is 0 and only LED 0 carries the
    `UINT32_MAX` deadline. Enabling another LED with interval 0 therefore
    adopts that deadline: the LED is never due, yet reports as blinking.
   */
  method ZeroIntervalJoinsUnscheduledLed() returns (deadline: U32, enabled: bool)
    ensures deadline == U32Max && enabled
  {
    var leds := new Leds();
    ghost var intervals, deadlines := leds.blinkInterval[..], leds.deadlines[..];
    leds.EnableBlinkingFor(5, Rgb(255, 255, 0), 0, 1000);
    assert ClosestBlink(intervals, deadlines, 0, 1000, U32Max) by {
      assert intervals[0] == 0 && deadlines[0] == U32Max;
    }
    ClosestBlinkIsUnique(intervals, deadlines, 0, 1000, leds.deadlines[5], U32Max);
    deadline := leds.deadlines[5];
    enabled := leds.BlinkingEnabledOnLed(5);
  }
}
