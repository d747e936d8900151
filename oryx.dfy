/**
  The tap-dance and tapping-term helpers of the Comboooos keymap: a classifier
  from a finished tap dance to a "step", two dances on the minus key that
  register a code when they finish and unregister it when they reset, and a
  per-key tapping-term table.
 */
module Oryx {
  import opened Qmk

  // The step values of the anonymous enum.
  const SINGLE_TAP: U8 := 1
  const SINGLE_HOLD: U8 := 2
  const DOUBLE_TAP: U8 := 3
  const DOUBLE_HOLD: U8 := 4
  const DOUBLE_SINGLE_TAP: U8 := 5
  const MORE_TAPS: U8 := 6

  /** `dance_step`: classify a dance by its tap count and how it ended. */
  function DanceStep(count: U8, interrupted: bool, pressed: bool): (r: U8)
    ensures SINGLE_TAP <= r <= MORE_TAPS
    ensures count == 1 ==> (r == SINGLE_TAP <==> interrupted || !pressed)
    ensures count == 1 ==> (r == SINGLE_HOLD <==> !interrupted && pressed)
    ensures count == 2 ==> (r == DOUBLE_SINGLE_TAP <==> interrupted)
    ensures count == 2 ==> (r == DOUBLE_HOLD <==> !interrupted && pressed)
    ensures count == 2 ==> (r == DOUBLE_TAP <==> !interrupted && !pressed)
    ensures r == MORE_TAPS <==> count != 1 && count != 2
  {
    if count == 1 then
      if interrupted || !pressed then SINGLE_TAP else SINGLE_HOLD
    else if count == 2 then
      if interrupted then DOUBLE_SINGLE_TAP
      else if pressed then DOUBLE_HOLD
      else DOUBLE_TAP
    else MORE_TAPS
  }

  /** A hold step is only reported while the key is still down and nothing interrupted it. */
  lemma HoldStepsNeedAnUninterruptedPress(count: U8, interrupted: bool, pressed: bool)
    ensures DanceStep(count, interrupted, pressed) in {SINGLE_HOLD, DOUBLE_HOLD} ==>
              pressed && !interrupted && (count == 1 || count == 2)
  {
  }

  /** `on_dance_0` / `on_dance_1`: the effects of the press with the given count. */
  function OnDance(count: U8): (r: seq<Effect>)
    ensures count < 3 ==> r == []
    ensures count == 3 ==> r == [TapCode16(KC_MINUS), TapCode16(KC_MINUS), TapCode16(KC_MINUS)]
    ensures count > 3 ==> r == [TapCode16(KC_MINUS)]
  {
    (if count == 3 then [TapCode16(KC_MINUS), TapCode16(KC_MINUS), TapCode16(KC_MINUS)] else []) +
    (if count > 3 then [TapCode16(KC_MINUS)] else [])
  }

  /** The effects of the presses numbered 1 to `n` of one dance. */
  function OnDanceUpTo(n: U8): seq<Effect>
  {
    if n == 0 then [] else OnDanceUpTo(n - 1) + OnDance(n)
  }

  /**
    From the third press on, a dance has typed exactly one minus per press:
    the third press makes up for the first two.
   */
  lemma {:induction false} OneMinusPerPressFromTheThird(n: U8)
    ensures n < 3 ==> OnDanceUpTo(n) == []
    ensures n >= 3 ==> OnDanceUpTo(n) == seq(n, _ => TapCode16(KC_MINUS))
  {
    if n == 0 {
    } else if n < 3 {
      OneMinusPerPressFromTheThird(n - 1);
    } else if n == 3 {
      OneMinusPerPressFromTheThird(2);
      assert OnDanceUpTo(2) == [];
    } else {
      OneMinusPerPressFromTheThird(n - 1);
      assert OnDanceUpTo(n) == seq(n - 1, _ => TapCode16(KC_MINUS)) + [TapCode16(KC_MINUS)];
    }
  }

  /** The effects of `dance_N_finished` for the step it stored. */
  function FinishedEffects(step: U8): seq<Effect>
  {
    if step == SINGLE_TAP then [RegisterCode16(KC_MINUS)]
    else if step == DOUBLE_TAP then [RegisterCode16(KC_UNDS)]
    else if step == DOUBLE_SINGLE_TAP then [TapCode16(KC_MINUS), RegisterCode16(KC_MINUS)]
    else []
  }

  /** The effects of `dance_N_reset` for the step `finished` stored. */
  function ResetEffects(step: U8): seq<Effect>
  {
    [WaitMs(10)] +
    if step == SINGLE_TAP then [UnregisterCode16(KC_MINUS)]
    else if step == DOUBLE_TAP then [UnregisterCode16(KC_UNDS)]
    else if step == DOUBLE_SINGLE_TAP then [UnregisterCode16(KC_MINUS)]
    else []
  }

  /** The keycodes registered after one effect, starting from `down`; a tap leaves nothing behind. */
  function ApplyEffect(effect: Effect, down: set<Keycode>): set<Keycode>
  {
    match effect
    case RegisterCode16(code) => down + {code}
    case UnregisterCode16(code) => down - {code}
    case _ => down
  }

  /** The keycodes left registered after a run of effects, starting from `down`. */
  function Down(effects: seq<Effect>, down: set<Keycode>): set<Keycode>
    decreases |effects|
  {
    if effects == [] then down else Down(effects[1..], ApplyEffect(effects[0], down))
  }

  /** Running two runs of effects one after the other. */
  lemma {:induction false} DownAppend(a: seq<Effect>, b: seq<Effect>, down: set<Keycode>)
    ensures Down(a + b, down) == Down(b, Down(a, down))
    decreases |a|
  {
    if a == [] {
      assert a + b == b;
    } else {
      assert (a + b)[0] == a[0];
      assert (a + b)[1..] == a[1..] + b;
      DownAppend(a[1..], b, ApplyEffect(a[0], down));
    }
  }

  /** The code a step leaves registered between `finished` and `reset`. */
  function HeldBy(step: U8): set<Keycode>
  {
    if step == SINGLE_TAP || step == DOUBLE_SINGLE_TAP then {KC_MINUS}
    else if step == DOUBLE_TAP then {KC_UNDS}
    else {}
  }

  /**
    `finished` leaves exactly the code of its step registered, and `reset`
    then unregisters exactly that code: every dance is balanced.
   */
  lemma FinishedThenResetIsBalanced(step: U8)
    ensures Down(FinishedEffects(step), {}) == HeldBy(step)
    ensures Down(ResetEffects(step), HeldBy(step)) == {}
    ensures Down(FinishedEffects(step) + ResetEffects(step), {}) == {}
  {
    var f, r := FinishedEffects(step), ResetEffects(step);
    assert |f| <= 2 && |r| <= 2;
    if |f| == 2 {
      DownAppend([f[0]], [f[1]], {});
      assert f == [f[0]] + [f[1]];
    }
    if |r| == 2 {
      DownAppend([r[0]], [r[1]], HeldBy(step));
      assert r == [r[0]] + [r[1]];
    }
    DownAppend(f, r, {});
  }

  /** `dance_state`: the stored step of dance 0 and dance 1. */
  class TapDances {
    const steps: array<U8>
    var trace: seq<Effect>

    ghost predicate Valid()
      reads this
    {
      steps.Length == 2
    }

    /** The static zero initialiser. */
    constructor ()
      ensures Valid() && fresh(steps)
      ensures steps[..] == [0, 0] && trace == []
    {
      steps := new U8[2](_ => 0);
      trace := [];
    }

    /** `dance_0_finished` (n = 0) and `dance_1_finished` (n = 1). */
    method Finished(n: nat, count: U8, interrupted: bool, pressed: bool)
      requires Valid() && n < 2
      modifies steps, this`trace
      ensures Valid()
      ensures steps[..] == old(steps[..])[n := DanceStep(count, interrupted, pressed)]
      ensures trace == old(trace) + FinishedEffects(steps[n])
    {
      steps[n] := DanceStep(count, interrupted, pressed);
      var step := steps[n];
      if step == SINGLE_TAP {
        trace := trace + [RegisterCode16(KC_MINUS)];
      } else if step == DOUBLE_TAP {
        trace := trace + [RegisterCode16(KC_UNDS)];
      } else if step == DOUBLE_SINGLE_TAP {
        trace := trace + [TapCode16(KC_MINUS)];
        trace := trace + [RegisterCode16(KC_MINUS)];
      }
    }

    /** `dance_0_reset` (n = 0) and `dance_1_reset` (n = 1). */
    method Reset(n: nat)
      requires Valid() && n < 2
      modifies steps, this`trace
      ensures Valid()
      ensures steps[..] == old(steps[..])[n := 0]
      ensures trace == old(trace) + ResetEffects(old(steps[n]))
    {
      trace := trace + [WaitMs(10)];
      var step := steps[n];
      if step == SINGLE_TAP {
        trace := trace + [UnregisterCode16(KC_MINUS)];
      } else if step == DOUBLE_TAP {
        trace := trace + [UnregisterCode16(KC_UNDS)];
      } else if step == DOUBLE_SINGLE_TAP {
        trace := trace + [UnregisterCode16(KC_MINUS)];
      }
      steps[n] := 0;
    }
  }

  /**
    One dance from start to finish, on either slot: whatever the count and
    however it ended, nothing is left registered, both steps are back to 0,
    and the other slot was never touched.
   */
  method DanceLifecycle(n: nat, count: U8, interrupted: bool, pressed: bool)
    returns (effects: seq<Effect>, otherStepDuring: U8, stepsAfter: seq<U8>)
    requires n < 2
    ensures Down(effects, {}) == {}
    ensures otherStepDuring == 0
    ensures stepsAfter == [0, 0]
  {
    var dances := new TapDances();
    dances.Finished(n, count, interrupted, pressed);
    otherStepDuring := dances.steps[1 - n];
    ghost var step := dances.steps[n];
    dances.Reset(n);
    effects := dances.trace;
    FinishedThenResetIsBalanced(step);
    stepsAfter := dances.steps[..];
  }

  /** The six keys that get 50 ms more than the global tapping term. */
  const SlowKeys: set<Keycode> :=
    {LT(5, KC_W), MT(MOD_LGUI, KC_A), MT(MOD_LALT, KC_S), LT(5, KC_O), MT(MOD_LALT, KC_L),
     MT(MOD_RGUI, BR_SCLN)}

  /**
    `get_tapping_term`: `g_tapping_term + 50` for the six slow keys, truncated
    to the `uint16_t` return type, and `g_tapping_term` for every other key.
   */
  function GetTappingTerm(keycode: Keycode, tappingTerm: U16): (r: U16)
    ensures keycode in SlowKeys ==> r == ToU16(tappingTerm + 50)
    ensures keycode !in SlowKeys ==> r == tappingTerm
    ensures r == tappingTerm <==> keycode !in SlowKeys
  {
    if keycode == LT(5, KC_W) then ToU16(tappingTerm + 50)
    else if keycode == MT(MOD_LGUI, KC_A) then ToU16(tappingTerm + 50)
    else if keycode == MT(MOD_LALT, KC_S) then ToU16(tappingTerm + 50)
    else if keycode == LT(5, KC_O) then ToU16(tappingTerm + 50)
    else if keycode == MT(MOD_LALT, KC_L) then ToU16(tappingTerm + 50)
    else if keycode == MT(MOD_RGUI, BR_SCLN) then ToU16(tappingTerm + 50)
    else tappingTerm
  }

  /** The six cases of the switch are six different keycodes, all of them dual-role keys. */
  lemma SlowKeysAreSixDualRoleKeys()
    ensures |SlowKeys| == 6
    ensures forall kc :: kc in SlowKeys ==> IsModTap(kc) || IsLayerTap(kc)
  {
    assert LT(5, KC_W) == 0x451A && LT(5, KC_O) == 0x4512;
    assert MT(MOD_LGUI, KC_A) == 0x2804 && MT(MOD_LALT, KC_S) == 0x2416;
    assert MT(MOD_LALT, KC_L) == 0x240F && MT(MOD_RGUI, BR_SCLN) == 0x3838;
  }
}
