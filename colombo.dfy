/**
  The Colombo keymap for the ZSA Voyager: its leader-compose policy (which
  compositions finish at once, which act on timeout, which hold a modifier
  until a key is released), its repeat-key helpers and the one-shot-modifier
  LED hook.

  The engine entry points `leader_compose_start`, `_end`, `_task` and
  `process_leader_compose` are methods of `Keymap` here: in the firmware they
  call the keymap's hook functions, which the linker binds to this keymap's
  definitions, so they are modelled next to those hooks. Calls into QMK are
  appended to `trace`; values QMK keeps for the repeat key
  (`get_last_keycode`, `get_last_mods`) are parameters.
 */
module Colombo {
  import opened Qmk
  import opened LeaderCompose
  import RgbBlink

  // ---------------------------------------------------------------------
  // Custom keycodes
  // ---------------------------------------------------------------------

  const RGB_SLD: Keycode := SAFE_RANGE
  const FREEZE_REPEAT_REGISTER: Keycode := SAFE_RANGE + 1
  /** Also spelled `FREEZE_REP_TOG`. */
  const FREEZE_REPEAT_ENABLE: Keycode := SAFE_RANGE + 2
  const CUSTOM_REPEAT: Keycode := SAFE_RANGE + 3
  const ALT_CUSTOM_REPEAT: Keycode := SAFE_RANGE + 4
  const ALT_TAB: Keycode := SAFE_RANGE + 5

  // ---------------------------------------------------------------------
  // The leader policy, as values
  // ---------------------------------------------------------------------

  /**
    The compositions `leader_compose_final_sequences` recognises, each with
    the effects it issues: one-shot Shift, Caps Word, one-shot Ctrl, one-shot
    Alt, one-shot Ctrl+Shift, one-shot Ctrl+Alt, a Tab tap, and Backspace held.
   */
  const FinalActions: map<Row, seq<Effect>> := map[
    [KC_S, KC_NO, KC_NO, KC_NO, KC_NO] := [SetOneshotMods(MOD_BIT_LSHIFT), SetLastMods(MOD_BIT_LSHIFT)],
    [KC_SPACE, KC_S, KC_NO, KC_NO, KC_NO] := [CapsWordToggle],
    [KC_R, KC_NO, KC_NO, KC_NO, KC_NO] := [SetOneshotMods(MOD_BIT_LCTRL), SetLastMods(MOD_BIT_LCTRL)],
    [KC_A, KC_NO, KC_NO, KC_NO, KC_NO] := [SetOneshotMods(MOD_BIT_LALT), SetLastMods(MOD_BIT_LALT)],
    [KC_SPACE, KC_R, KC_S, KC_NO, KC_NO] := [SetOneshotMods(MOD_MASK_CS), SetLastMods(MOD_MASK_CS)],
    [KC_SPACE, KC_R, KC_A, KC_NO, KC_NO] := [SetOneshotMods(MOD_MASK_CA), SetLastMods(MOD_MASK_CA)],
    [KC_T, KC_NO, KC_NO, KC_NO, KC_NO] := [SendTap(KC_TAB), SetLastKeycode(KC_TAB)],
    [KC_N, KC_NO, KC_NO, KC_NO, KC_NO] := [RegisterCode(KC_BACKSPACE), SetLastKeycode(KC_BACKSPACE)]
  ]

  /**
    The chain of tests of `leader_compose_final_sequences`, in its order: the
    effects of the first composition the buffer equals, or none.
   */
  function FinalChain(buffer: Row): seq<Effect>
  {
    if buffer == [KC_S, KC_NO, KC_NO, KC_NO, KC_NO] then [SetOneshotMods(MOD_BIT_LSHIFT), SetLastMods(MOD_BIT_LSHIFT)]
    else if buffer == [KC_SPACE, KC_S, KC_NO, KC_NO, KC_NO] then [CapsWordToggle]
    else if buffer == [KC_R, KC_NO, KC_NO, KC_NO, KC_NO] then [SetOneshotMods(MOD_BIT_LCTRL), SetLastMods(MOD_BIT_LCTRL)]
    else if buffer == [KC_A, KC_NO, KC_NO, KC_NO, KC_NO] then [SetOneshotMods(MOD_BIT_LALT), SetLastMods(MOD_BIT_LALT)]
    else if buffer == [KC_SPACE, KC_R, KC_S, KC_NO, KC_NO] then [SetOneshotMods(MOD_MASK_CS), SetLastMods(MOD_MASK_CS)]
    else if buffer == [KC_SPACE, KC_R, KC_A, KC_NO, KC_NO] then [SetOneshotMods(MOD_MASK_CA), SetLastMods(MOD_MASK_CA)]
    else if buffer == [KC_T, KC_NO, KC_NO, KC_NO, KC_NO] then [SendTap(KC_TAB), SetLastKeycode(KC_TAB)]
    else if buffer == [KC_N, KC_NO, KC_NO, KC_NO, KC_NO] then [RegisterCode(KC_BACKSPACE), SetLastKeycode(KC_BACKSPACE)]
    else []
  }

  /** Of the final compositions only (N) registers a held sequence. */
  function FinalHeld(buffer: Row, held: HeldTable): HeldTable
  {
    if buffer == [KC_N, KC_NO, KC_NO, KC_NO, KC_NO] then RegisterRow(held, [KC_N, KC_NO, KC_NO, KC_NO, KC_NO]) else held
  }

  /** The effects of `leader_compose_on_timeout_sequences` for the buffer and the locked mods. */
  function TimeoutEffects(buffer: Row, locked: Mods): seq<Effect>
  {
    if buffer == [KC_SPACE, KC_R, KC_NO, KC_NO, KC_NO] then [RegisterMods(MOD_BIT_LCTRL), SetLastMods(MOD_BIT_LCTRL)]
    else if buffer == [KC_SPACE, KC_A, KC_NO, KC_NO, KC_NO] then [RegisterMods(MOD_BIT_LALT), SetLastMods(MOD_BIT_LALT)]
    else [ClearOneshotLockedMods, UnregisterMods(locked)]
  }

  /** `locked_mods` after a timeout: (SPACE,R) locks Ctrl, (SPACE,A) locks Alt, anything else unlocks all. */
  function TimeoutLocked(buffer: Row, locked: Mods): Mods
  {
    if buffer == [KC_SPACE, KC_R, KC_NO, KC_NO, KC_NO] then locked | MOD_BIT_LCTRL
    else if buffer == [KC_SPACE, KC_A, KC_NO, KC_NO, KC_NO] then locked | MOD_BIT_LALT
    else 0
  }

  /** Only the (SPACE,R) timeout registers a held sequence: Ctrl stays down until R is released. */
  function TimeoutHeld(buffer: Row, held: HeldTable): HeldTable
  {
    if buffer == [KC_SPACE, KC_R, KC_NO, KC_NO, KC_NO] then RegisterRow(held, [KC_SPACE, KC_R, KC_NO, KC_NO, KC_NO]) else held
  }

  /** The held table after `leader_compose_on_key_release_user(keycode)`. */
  function ReleaseHeld(keycode: Keycode, held: HeldTable): HeldTable
  {
    if keycode == KC_N then ReleaseMatching(held, [KC_N, KC_NO, KC_NO, KC_NO, KC_NO])
    else if keycode == KC_R then ReleaseMatching(held, [KC_SPACE, KC_R, KC_NO, KC_NO, KC_NO])
    else held
  }

  /** The effects of `leader_compose_on_key_release_user(keycode)`. */
  function ReleaseEffects(keycode: Keycode, held: HeldTable): seq<Effect>
  {
    if keycode == KC_N && FirstMatch(held, [KC_N, KC_NO, KC_NO, KC_NO, KC_NO]) != -1 then [UnregisterCode(KC_BACKSPACE)]
    else if keycode == KC_R && FirstMatch(held, [KC_SPACE, KC_R, KC_NO, KC_NO, KC_NO]) != -1 then
      [UnregisterMods(MOD_BIT_LCTRL)]
    else []
  }

  /** The only modifiers the keymap ever locks are left Ctrl and left Alt. */
  predicate LockedWithinCtrlAlt(locked: Mods)
  {
    locked & !(MOD_BIT_LCTRL | MOD_BIT_LALT) == 0
  }

  // ---------------------------------------------------------------------
  // Properties of the policy
  // ---------------------------------------------------------------------

  /** The final compositions written out as full buffers, in the order they are tried. */
  const FinalBufferList: seq<Row> :=
    [[KC_S, 0, 0, 0, 0], [KC_SPACE, KC_S, 0, 0, 0], [KC_R, 0, 0, 0, 0], [KC_A, 0, 0, 0, 0],
     [KC_SPACE, KC_R, KC_S, 0, 0], [KC_SPACE, KC_R, KC_A, 0, 0], [KC_T, 0, 0, 0, 0], [KC_N, 0, 0, 0, 0]]

  lemma FinalBuffers()
    ensures FinalActions.Keys == set b | b in FinalBufferList
  {
  }

  /** Looking up each final composition finds its own entry. */
  lemma FinalActionsLookup()
    ensures FinalActions[[KC_S, KC_NO, KC_NO, KC_NO, KC_NO]] == [SetOneshotMods(MOD_BIT_LSHIFT), SetLastMods(MOD_BIT_LSHIFT)]
    ensures FinalActions[[KC_SPACE, KC_S, KC_NO, KC_NO, KC_NO]] == [CapsWordToggle]
    ensures FinalActions[[KC_R, KC_NO, KC_NO, KC_NO, KC_NO]] == [SetOneshotMods(MOD_BIT_LCTRL), SetLastMods(MOD_BIT_LCTRL)]
    ensures FinalActions[[KC_A, KC_NO, KC_NO, KC_NO, KC_NO]] == [SetOneshotMods(MOD_BIT_LALT), SetLastMods(MOD_BIT_LALT)]
    ensures FinalActions[[KC_SPACE, KC_R, KC_S, KC_NO, KC_NO]] == [SetOneshotMods(MOD_MASK_CS), SetLastMods(MOD_MASK_CS)]
    ensures FinalActions[[KC_SPACE, KC_R, KC_A, KC_NO, KC_NO]] == [SetOneshotMods(MOD_MASK_CA), SetLastMods(MOD_MASK_CA)]
    ensures FinalActions[[KC_T, KC_NO, KC_NO, KC_NO, KC_NO]] == [SendTap(KC_TAB), SetLastKeycode(KC_TAB)]
    ensures FinalActions[[KC_N, KC_NO, KC_NO, KC_NO, KC_NO]] == [RegisterCode(KC_BACKSPACE), SetLastKeycode(KC_BACKSPACE)]
  {
  }

  /**
    The chain of tests agrees with the table: it recognises exactly the
    buffers of the table and issues each one's effects, whatever the order
    of the tests.
   */
  lemma FinalChainIsTable(buffer: Row)
    ensures buffer in FinalActions <==> FinalChain(buffer) != []
    ensures buffer in FinalActions ==> FinalChain(buffer) == FinalActions[buffer]
  {
    FinalActionsLookup();
  }

  lemma FinalBuffersAreDistinct()
    ensures forall i, j :: 0 <= i < j < |FinalBufferList| ==> FinalBufferList[i] != FinalBufferList[j]
  {
    var keys := FinalBufferList;
    forall i, j | 0 <= i < j < 8 ensures keys[i] != keys[j] {
      assert keys[i][0] != keys[j][0] || keys[i][1] != keys[j][1] || keys[i][2] != keys[j][2];
    }
  }

  /** The eight final compositions are eight different buffers, so their order in the chain does not matter. */
  lemma FinalCompositionsAreEight()
    ensures |FinalActions.Keys| == 8
  {
    FinalBuffers();
    FinalBuffersAreDistinct();
    DistinctSeqToSet(FinalBufferList);
  }

  /**
    Every final composition starts with a key and issues at least one call,
    so an idle buffer never finishes and a recognised one is never silent.
   */
  lemma FinalCompositionsAreOccupied()
    ensures forall b :: b in FinalActions ==> FinalActions[b] != [] && Occupied(b)
    ensures EmptyRow !in FinalActions
  {
    FinalBuffers();
  }

  /** A sequence without repetitions has as many distinct elements as positions. */
  lemma {:induction false} DistinctSeqToSet<T>(s: seq<T>)
    requires forall i, j :: 0 <= i < j < |s| ==> s[i] != s[j]
    ensures |set x | x in s| == |s|
    decreases |s|
  {
    if s != [] {
      var t := s[..|s| - 1];
      DistinctSeqToSet(t);
      assert s == t + [s[|s| - 1]];
      assert (set x | x in s) == (set x | x in t) + {s[|s| - 1]};
      assert s[|s| - 1] !in t;
    }
  }

  /** A timeout keeps the locked modifiers within left Ctrl and left Alt. */
  lemma TimeoutKeepsLockedWithinCtrlAlt(buffer: Row, locked: Mods)
    requires LockedWithinCtrlAlt(locked)
    ensures LockedWithinCtrlAlt(TimeoutLocked(buffer, locked))
  {
  }

  /**
    A timeout on a buffer other than (SPACE,R) and (SPACE,A) unregisters every
    locked modifier and forgets them; the two locking compositions only add a
    modifier and never unregister anything.
   */
  lemma TimeoutUnlocksOrAddsOneModifier(buffer: Row, locked: Mods)
    ensures buffer != [KC_SPACE, KC_R, KC_NO, KC_NO, KC_NO] && buffer != [KC_SPACE, KC_A, KC_NO, KC_NO, KC_NO] ==>
              TimeoutLocked(buffer, locked) == 0 &&
              UnregisterMods(locked) in TimeoutEffects(buffer, locked)
    ensures buffer == [KC_SPACE, KC_R, KC_NO, KC_NO, KC_NO] || buffer == [KC_SPACE, KC_A, KC_NO, KC_NO, KC_NO] ==>
              TimeoutLocked(buffer, locked) & locked == locked &&
              forall e :: e in TimeoutEffects(buffer, locked) ==> !e.UnregisterMods?
  {
  }

  /**
    When `leader_compose_end` sees a timeout right after a final composition
    matched (the timer ticked between its two reads), the timeout hook takes
    its unlocking branch: no final composition is one of the two locking
    ones, so the locked modifiers are unregistered and forgotten, and the
    held table is left as the final composition left it.
   */
  lemma LateTimeoutAfterFinalUnlocks(buffer: Row, locked: Mods, held: HeldTable)
    requires FinalChain(buffer) != []
    ensures TimeoutEffects(buffer, locked) == [ClearOneshotLockedMods, UnregisterMods(locked)]
    ensures TimeoutLocked(buffer, locked) == 0
    ensures TimeoutHeld(buffer, held) == held
  {
  }

  /**
    The hold round trip: a (SPACE,R) timeout on a table with a free slot is
    undone by the next R release, which also unregisters Ctrl; (N) and the N
    release behave the same way for Backspace.
   */
  lemma HoldThenReleaseRestoresTable(held: HeldTable)
    requires held[1] == EmptyRow
    requires held[0] == EmptyRow || (Occupied(held[0]) && held[0] != [KC_SPACE, KC_R, KC_NO, KC_NO, KC_NO] &&
                                     held[0] != [KC_N, KC_NO, KC_NO, KC_NO, KC_NO])
    ensures var afterR := TimeoutHeld([KC_SPACE, KC_R, KC_NO, KC_NO, KC_NO], held);
      ReleaseHeld(KC_R, afterR) == held && ReleaseEffects(KC_R, afterR) == [UnregisterMods(MOD_BIT_LCTRL)]
    ensures var afterN := FinalHeld([KC_N, KC_NO, KC_NO, KC_NO, KC_NO], held);
      ReleaseHeld(KC_N, afterN) == held && ReleaseEffects(KC_N, afterN) == [UnregisterCode(KC_BACKSPACE)]
  {
    RegisterThenReleaseRestores(held, [KC_SPACE, KC_R, KC_NO, KC_NO, KC_NO]);
    RegisterThenReleaseRestores(held, [KC_N, KC_NO, KC_NO, KC_NO, KC_NO]);
    RegisterThenFind(held, [KC_SPACE, KC_R, KC_NO, KC_NO, KC_NO]);
    RegisterThenFind(held, [KC_N, KC_NO, KC_NO, KC_NO, KC_NO]);
  }

  /** A release of any key other than N and R leaves the table alone and issues nothing. */
  lemma OtherReleasesAreInert(keycode: Keycode, held: HeldTable)
    requires keycode != KC_N && keycode != KC_R
    ensures ReleaseHeld(keycode, held) == held && ReleaseEffects(keycode, held) == []
  {
  }

  // ---------------------------------------------------------------------
  // The keymap's state
  // ---------------------------------------------------------------------

  class Keymap {
    /** The leader-compose engine's globals. */
    const engine: Engine
    /** `locked_mods`. */
    var lockedMods: Mods
    /** `freeze_key_repeat`. */
    var freezeKeyRepeat: bool
    /** `frozen_key_repeat.keycode`. */
    var frozenKeyRepeat: Keycode
    /** `frozen_mod_repeat`, which holds a `get_last_mods` value. */
    var frozenModRepeat: Mods
    /** The calls into QMK so far, oldest first. */
    var trace: seq<Effect>

    ghost predicate Valid()
      reads this, engine, engine.sequence, engine.held
    {
      engine.Valid() && LockedWithinCtrlAlt(lockedMods)
    }

    /** The zero-initialised globals of the engine and the keymap. */
    constructor (cfg: Config)
      ensures Valid() && fresh(engine) && fresh(engine.sequence) && fresh(engine.held)
      ensures engine.cfg == cfg && !engine.leading && !engine.down
      ensures engine.time == 0 && engine.size == 0 && engine.Buffer() == EmptyRow
      ensures engine.HeldValue() == [EmptyRow, EmptyRow]
      ensures lockedMods == 0 && !freezeKeyRepeat && frozenKeyRepeat == KC_NO && frozenModRepeat == 0
      ensures trace == []
    {
      engine := new Engine(cfg);
      lockedMods := 0;
      freezeKeyRepeat := false;
      frozenKeyRepeat := KC_NO;
      frozenModRepeat := 0;
      trace := [];
    }

    /** `leader_compose_final_sequences`. */
    method FinalSequences() returns (r: bool)
      requires Valid()
      modifies engine.held, this`trace
      ensures Valid()
      ensures r <==> FinalChain(engine.Buffer()) != []
      ensures trace == old(trace) + FinalChain(engine.Buffer())
      ensures engine.HeldValue() == FinalHeld(engine.Buffer(), old(engine.HeldValue()))
    {
      var effects: seq<Effect>;
      if engine.OneKey(KC_S) {
        effects := [SetOneshotMods(MOD_BIT_LSHIFT), SetLastMods(MOD_BIT_LSHIFT)];
      } else if engine.TwoKeys(KC_SPACE, KC_S) {
        effects := [CapsWordToggle];
      } else if engine.OneKey(KC_R) {
        effects := [SetOneshotMods(MOD_BIT_LCTRL), SetLastMods(MOD_BIT_LCTRL)];
      } else if engine.OneKey(KC_A) {
        effects := [SetOneshotMods(MOD_BIT_LALT), SetLastMods(MOD_BIT_LALT)];
      } else if engine.ThreeKeys(KC_SPACE, KC_R, KC_S) {
        effects := [SetOneshotMods(MOD_MASK_CS), SetLastMods(MOD_MASK_CS)];
      } else if engine.ThreeKeys(KC_SPACE, KC_R, KC_A) {
        effects := [SetOneshotMods(MOD_MASK_CA), SetLastMods(MOD_MASK_CA)];
      } else if engine.OneKey(KC_T) {
        effects := [SendTap(KC_TAB), SetLastKeycode(KC_TAB)];
      } else if engine.OneKey(KC_N) {
        effects := [RegisterCode(KC_BACKSPACE), SetLastKeycode(KC_BACKSPACE)];
        engine.RegisterSequenceHeld(KC_N, KC_NO, KC_NO, KC_NO, KC_NO);
      } else {
        return false;
      }
      trace := trace + effects;
      return true;
    }

    /** `leader_compose_on_timeout_sequences`. */
    method OnTimeoutSequences()
      requires Valid()
      modifies engine.held, this`trace, this`lockedMods
      ensures Valid()
      ensures trace == old(trace) + TimeoutEffects(engine.Buffer(), old(lockedMods))
      ensures lockedMods == TimeoutLocked(engine.Buffer(), old(lockedMods))
      ensures engine.HeldValue() == TimeoutHeld(engine.Buffer(), old(engine.HeldValue()))
    {
      TimeoutKeepsLockedWithinCtrlAlt(engine.Buffer(), lockedMods);
      if engine.TwoKeys(KC_SPACE, KC_R) {
        lockedMods := lockedMods | MOD_BIT_LCTRL;
        trace := trace + [RegisterMods(MOD_BIT_LCTRL), SetLastMods(MOD_BIT_LCTRL)];
        engine.RegisterSequenceHeld(KC_SPACE, KC_R, KC_NO, KC_NO, KC_NO);
      } else if engine.TwoKeys(KC_SPACE, KC_A) {
        lockedMods := lockedMods | MOD_BIT_LALT;
        trace := trace + [RegisterMods(MOD_BIT_LALT), SetLastMods(MOD_BIT_LALT)];
      } else {
        trace := trace + [ClearOneshotLockedMods, UnregisterMods(lockedMods)];
        lockedMods := 0;
      }
    }

    /** `leader_compose_on_key_release_user`. */
    method OnKeyReleaseUser(keycode: Keycode)
      requires Valid()
      modifies engine.held, this`trace
      ensures Valid()
      ensures engine.HeldValue() == ReleaseHeld(keycode, old(engine.HeldValue()))
      ensures trace == old(trace) + ReleaseEffects(keycode, old(engine.HeldValue()))
    {
      if keycode == KC_N {
        var found := engine.ReleaseSequenceOneKey(KC_N);
        if found {
          trace := trace + [UnregisterCode(KC_BACKSPACE)];
        }
      } else if keycode == KC_R {
        var found := engine.ReleaseSequenceTwoKeys(KC_SPACE, KC_R);
        if found {
          trace := trace + [UnregisterMods(MOD_BIT_LCTRL)];
        }
      }
    }

    /** `leader_compose_start`: a no-op while a composition is active. */
    method Start(now: U16)
      requires Valid()
      modifies engine`leading, engine`time, engine`size, engine.sequence, this`trace
      ensures Valid() && engine.leading
      ensures old(engine.leading) ==>
                engine.time == old(engine.time) && engine.size == old(engine.size) &&
                engine.Buffer() == old(engine.Buffer()) && trace == old(trace)
      ensures !old(engine.leading) ==>
                engine.time == now && engine.size == 0 && engine.Buffer() == EmptyRow &&
                trace == old(trace) + [UserStart]
    {
      if engine.leading {
        return;
      }
      trace := trace + [UserStart];
      engine.Arm(now);
    }

    /**
      `leader_compose_end`: the composition ends; the timeout hook runs, before
      the end hook, exactly when the composition has timed out.
     */
    method End(now: U16)
      requires Valid()
      modifies engine`leading, engine.held, this`trace, this`lockedMods
      ensures Valid() && !engine.leading
      ensures engine.TimedOut(now) ==>
                trace == old(trace) + TimeoutEffects(engine.Buffer(), old(lockedMods)) + [UserEnd] &&
                lockedMods == TimeoutLocked(engine.Buffer(), old(lockedMods)) &&
                engine.HeldValue() == TimeoutHeld(engine.Buffer(), old(engine.HeldValue()))
      ensures !engine.TimedOut(now) ==>
                trace == old(trace) + [UserEnd] && lockedMods == old(lockedMods) &&
                engine.HeldValue() == old(engine.HeldValue())
    {
      engine.leading := false;
      if engine.TimedOut(now) {
        OnTimeoutSequences();
      }
      trace := trace + [UserEnd];
    }

    /**
      `leader_compose_task`: end the composition when it is active and either
      timed out or, failing that, recognised as final. The timer is read
      twice: `now` when `leader_compose_sequence_done` decides, and `endNow`
      when `leader_compose_end` checks the timeout again, so a tick between
      the two reads can run the timeout hook after a final composition.
     */
    method Task(now: U16, endNow: U16)
      requires Valid()
      modifies engine`leading, engine.held, this`trace, this`lockedMods
      ensures Valid()
      ensures !old(engine.leading) ==>
                !engine.leading && trace == old(trace) && lockedMods == old(lockedMods) &&
                engine.HeldValue() == old(engine.HeldValue())
      ensures old(engine.leading) && engine.TimedOut(now) ==>
                !engine.leading &&
                if engine.TimedOut(endNow) then
                  trace == old(trace) + TimeoutEffects(engine.Buffer(), old(lockedMods)) + [UserEnd] &&
                  lockedMods == TimeoutLocked(engine.Buffer(), old(lockedMods)) &&
                  engine.HeldValue() == TimeoutHeld(engine.Buffer(), old(engine.HeldValue()))
                else
                  trace == old(trace) + [UserEnd] && lockedMods == old(lockedMods) &&
                  engine.HeldValue() == old(engine.HeldValue())
      ensures old(engine.leading) && !engine.TimedOut(now) && FinalChain(engine.Buffer()) != [] ==>
                !engine.leading &&
                var held1 := FinalHeld(engine.Buffer(), old(engine.HeldValue()));
                if engine.TimedOut(endNow) then
                  trace == old(trace) + FinalChain(engine.Buffer()) +
                           TimeoutEffects(engine.Buffer(), old(lockedMods)) + [UserEnd] &&
                  lockedMods == TimeoutLocked(engine.Buffer(), old(lockedMods)) &&
                  engine.HeldValue() == TimeoutHeld(engine.Buffer(), held1)
                else
                  trace == old(trace) + FinalChain(engine.Buffer()) + [UserEnd] &&
                  lockedMods == old(lockedMods) && engine.HeldValue() == held1
      ensures old(engine.leading) && !engine.TimedOut(now) && FinalChain(engine.Buffer()) == [] ==>
                engine.leading && trace == old(trace) && lockedMods == old(lockedMods) &&
                engine.HeldValue() == old(engine.HeldValue())
    {
      if !engine.Active() {
        return;
      }
      var done := engine.TimedOut(now);
      if !done {
        done := FinalSequences();
      }
      if done {
        End(endNow);
      }
    }

    /**
      The press of a key other than the leader key in `process_leader_compose`:
      under continuous trigger a press while the leader key is down restarts a
      composition; a composition that is active and not timed out takes the
      key (its tap keycode, for a dual-role key) and consumes it, unless the
      buffer is full, which ends the composition and lets the key through.
     */
    method ProcessKeyPress(keycode: Keycode, now: U16) returns (r: bool)
      requires Valid() && keycode != QK_LEADER
      modifies engine`leading, engine`time, engine`size, engine.sequence, engine.held
      modifies this`trace, this`lockedMods
      ensures Valid()
      ensures lockedMods == old(lockedMods) && engine.HeldValue() == old(engine.HeldValue())
      ensures var restart := engine.cfg.continuousTrigger && engine.down && !old(engine.leading);
              var size0 := if restart then 0 else old(engine.size);
              var mark0 := if restart then now else old(engine.time);
              var contents0 := if restart then [] else old(engine.Contents());
              var trace0 := old(trace) + if restart then [UserStart] else [];
              var accepting := (restart || old(engine.leading)) && !TimedOutAt(engine.cfg, size0, mark0, now);
              && (!accepting ==>
                    r && engine.leading == (restart || old(engine.leading)) && engine.size == size0 &&
                    engine.time == mark0 && engine.Contents() == contents0 && trace == trace0)
              && (accepting && size0 < SequenceSize ==>
                    !r && engine.leading &&
                    engine.Contents() == contents0 + [Normalize(engine.cfg, keycode)] &&
                    engine.time == (if engine.cfg.perKeyTiming || (engine.cfg.noTimeout && size0 == 0)
                                    then now else mark0) &&
                    trace == trace0)
              && (accepting && size0 >= SequenceSize ==>
                    r && !engine.leading && engine.size == size0 && engine.Contents() == contents0 &&
                    engine.time == mark0 && trace == trace0 + [UserEnd])
    {
      if engine.cfg.continuousTrigger && engine.down && !engine.Active() {
        Start(now);
      }
      if engine.Active() && !engine.TimedOut(now) {
        r := AcceptKey(keycode, now);
        return;
      }
      return true;
    }

    /**
      The branch of `process_leader_compose` that feeds an active, not timed
      out composition: the key is appended and consumed, or, when the buffer
      is full, the composition ends and the key goes through.
     */
    method AcceptKey(keycode: Keycode, now: U16) returns (r: bool)
      requires Valid() && engine.leading && !engine.TimedOut(now)
      modifies engine`leading, engine`time, engine`size, engine.sequence, engine.held
      modifies this`trace, this`lockedMods
      ensures Valid()
      ensures lockedMods == old(lockedMods) && engine.HeldValue() == old(engine.HeldValue())
      ensures old(engine.size) < SequenceSize ==>
                !r && engine.leading &&
                engine.Contents() == old(engine.Contents()) + [Normalize(engine.cfg, keycode)] &&
                engine.time == (if engine.cfg.perKeyTiming || (engine.cfg.noTimeout && old(engine.size) == 0)
                                then now else old(engine.time)) &&
                trace == old(trace)
      ensures old(engine.size) >= SequenceSize ==>
                r && !engine.leading && engine.size == old(engine.size) &&
                engine.Contents() == old(engine.Contents()) && engine.time == old(engine.time) &&
                trace == old(trace) + [UserEnd]
    {
      var kc := Normalize(engine.cfg, keycode);
      var added := engine.Add(kc, now);
      if !added {
        End(now);
        return true;
      }
      if engine.cfg.perKeyTiming {
        engine.ResetTimer(now);
      }
      return false;
    }

    /**
      `process_leader_compose`: returns false when the key was consumed by the
      composition, true when QMK should process it as usual.
     */
    method ProcessLeaderCompose(keycode: Keycode, pressed: bool, now: U16) returns (r: bool)
      requires Valid()
      modifies engine`leading, engine`time, engine`size, engine`down, engine.sequence, engine.held
      modifies this`trace, this`lockedMods
      ensures Valid()
      ensures lockedMods == old(lockedMods)
      // A leader press: the down flag is set and a composition starts; the key itself is not added.
      ensures pressed && keycode == QK_LEADER ==>
                r && engine.down && engine.leading && engine.HeldValue() == old(engine.HeldValue()) &&
                if old(engine.leading) then
                  engine.time == old(engine.time) && engine.size == old(engine.size) &&
                  engine.Buffer() == old(engine.Buffer()) && trace == old(trace)
                else
                  engine.time == now && engine.size == 0 && engine.Buffer() == EmptyRow &&
                  trace == old(trace) + [UserStart]
      // Any other press: maybe restart (continuous trigger), then append if accepting.
      ensures pressed && keycode != QK_LEADER ==>
                var restart := engine.cfg.continuousTrigger && old(engine.down) && !old(engine.leading);
                var size0 := if restart then 0 else old(engine.size);
                var mark0 := if restart then now else old(engine.time);
                var contents0 := if restart then [] else old(engine.Contents());
                var trace0 := old(trace) + if restart then [UserStart] else [];
                var accepting := (restart || old(engine.leading)) && !TimedOutAt(engine.cfg, size0, mark0, now);
                && engine.down == old(engine.down)
                && engine.HeldValue() == old(engine.HeldValue())
                && (!accepting ==>
                      r && engine.leading == (restart || old(engine.leading)) && engine.size == size0 &&
                      engine.time == mark0 && engine.Contents() == contents0 && trace == trace0)
                && (accepting && size0 < SequenceSize ==>
                      !r && engine.leading &&
                      engine.Contents() == contents0 + [Normalize(engine.cfg, keycode)] &&
                      engine.time == (if engine.cfg.perKeyTiming || (engine.cfg.noTimeout && size0 == 0)
                                      then now else mark0) &&
                      trace == trace0)
                && (accepting && size0 >= SequenceSize ==>
                      r && !engine.leading && engine.size == size0 && engine.Contents() == contents0 &&
                      engine.time == mark0 && trace == trace0 + [UserEnd])
      // A leader release only clears the down flag.
      ensures !pressed && keycode == QK_LEADER ==>
                r && !engine.down && engine.leading == old(engine.leading) &&
                engine.time == old(engine.time) && engine.size == old(engine.size) &&
                engine.Buffer() == old(engine.Buffer()) &&
                engine.HeldValue() == old(engine.HeldValue()) && trace == old(trace)
      // Other releases reach the keymap's release hook only under continuous trigger.
      ensures !pressed && keycode != QK_LEADER ==>
                r && engine.down == old(engine.down) && engine.leading == old(engine.leading) &&
                engine.time == old(engine.time) && engine.size == old(engine.size) &&
                engine.Buffer() == old(engine.Buffer()) &&
                if engine.cfg.continuousTrigger then
                  engine.HeldValue() == ReleaseHeld(keycode, old(engine.HeldValue())) &&
                  trace == old(trace) + ReleaseEffects(keycode, old(engine.HeldValue()))
                else
                  engine.HeldValue() == old(engine.HeldValue()) && trace == old(trace)
    {
      if pressed {
        if keycode == QK_LEADER {
          engine.down := true;
          Start(now);
          return true;
        }
        r := ProcessKeyPress(keycode, now);
        return;
      } else if keycode == QK_LEADER {
        engine.down := false;
      } else if engine.cfg.continuousTrigger {
        OnKeyReleaseUser(keycode);
      }
      return true;
    }

    /**
      The leader-related and freeze cases of `process_record_user`, given the
      repeat key's remembered keycode and modifiers.
     */
    method ProcessRecordUser(keycode: Keycode, pressed: bool, now: U16, lastKeycode: Keycode,
                             lastMods: Mods) returns (r: bool)
      requires Valid()
      modifies engine`leading, engine`time, engine`size, engine`down, engine.sequence, engine.held
      modifies this`trace, this`lockedMods, this`freezeKeyRepeat, this`frozenKeyRepeat
      modifies this`frozenModRepeat
      ensures Valid()
      ensures keycode == FREEZE_REPEAT_REGISTER ==>
                !r && trace == old(trace) && freezeKeyRepeat == old(freezeKeyRepeat) &&
                (pressed ==> frozenKeyRepeat == lastKeycode && frozenModRepeat == lastMods) &&
                (!pressed ==> frozenKeyRepeat == old(frozenKeyRepeat) &&
                              frozenModRepeat == old(frozenModRepeat))
      ensures keycode == FREEZE_REPEAT_ENABLE ==>
                !r && frozenKeyRepeat == old(frozenKeyRepeat) &&
                frozenModRepeat == old(frozenModRepeat) &&
                (pressed ==> freezeKeyRepeat == !old(freezeKeyRepeat) &&
                             trace == old(trace) + if freezeKeyRepeat then [] else [SetLastKeycode(lastKeycode)]) &&
                (!pressed ==> freezeKeyRepeat == old(freezeKeyRepeat) && trace == old(trace))
      ensures keycode == CUSTOM_REPEAT ==>
                !r && trace == old(trace) + [CustomRepeat(pressed)] &&
                freezeKeyRepeat == old(freezeKeyRepeat) && frozenKeyRepeat == old(frozenKeyRepeat) &&
                frozenModRepeat == old(frozenModRepeat)
      ensures keycode !in {FREEZE_REPEAT_REGISTER, FREEZE_REPEAT_ENABLE, CUSTOM_REPEAT} ==>
                freezeKeyRepeat == old(freezeKeyRepeat) && frozenKeyRepeat == old(frozenKeyRepeat) &&
                frozenModRepeat == old(frozenModRepeat)
      ensures keycode in {FREEZE_REPEAT_REGISTER, FREEZE_REPEAT_ENABLE, CUSTOM_REPEAT} ==>
                engine.leading == old(engine.leading) && engine.size == old(engine.size) &&
                engine.time == old(engine.time) && engine.down == old(engine.down) &&
                engine.Buffer() == old(engine.Buffer()) &&
                engine.HeldValue() == old(engine.HeldValue()) && lockedMods == old(lockedMods)
    {
      if keycode == FREEZE_REPEAT_REGISTER {
        if pressed {
          frozenKeyRepeat := lastKeycode;
          frozenModRepeat := lastMods;
        }
        return false;
      } else if keycode == FREEZE_REPEAT_ENABLE {
        if pressed {
          freezeKeyRepeat := !freezeKeyRepeat;
          if !freezeKeyRepeat {
            trace := trace + [SetLastKeycode(lastKeycode)];
          }
        }
        return false;
      } else if keycode == CUSTOM_REPEAT {
        trace := trace + [CustomRepeat(pressed)];
        return false;
      }
      r := ProcessLeaderCompose(keycode, pressed, now);
    }
  }

  // ---------------------------------------------------------------------
  // Repeat-key helpers
  // ---------------------------------------------------------------------

  /** `remember_last_key_user`: the repeat keys themselves are never remembered. */
  function RememberLastKeyUser(keycode: Keycode): (r: bool)
    ensures !r <==> keycode in {FREEZE_REPEAT_REGISTER, CUSTOM_REPEAT, ALT_CUSTOM_REPEAT}
  {
    !(keycode == FREEZE_REPEAT_REGISTER || keycode == CUSTOM_REPEAT || keycode == ALT_CUSTOM_REPEAT)
  }

  predicate Shifted(mods: Mods) { mods & (MOD_BIT_LSHIFT | MOD_BIT_RSHIFT) != 0 }
  predicate Alted(mods: Mods) { mods & MOD_BIT_LALT != 0 }
  predicate Ctrled(mods: Mods) { mods & (MOD_BIT_LCTRL | MOD_BIT_RCTRL) != 0 }

  /** `get_alt_repeat_key_keycode_user`: the reverse of Tab under the remembered modifiers. */
  function GetAltRepeatKeyKeycodeUser(keycode: Keycode, mods: Mods): (r: Keycode)
    ensures keycode != KC_TAB ==> r == KC_TRNS
    ensures keycode == KC_TAB ==> TapKeycode(r) == KC_TAB && r != KC_TAB + QK_LCTL + QK_LALT
  {
    if keycode == KC_TAB then
      if Shifted(mods) && Alted(mods) then LALT(KC_TAB)
      else if Ctrled(mods) && Shifted(mods) then C(KC_TAB)
      else if Shifted(mods) then KC_TAB
      else if Alted(mods) then LSA(KC_TAB)
      else if Ctrled(mods) then CS(KC_TAB)
      else S(KC_TAB)
    else KC_TRNS
  }

  /**
    The alternate repeat of Tab goes the other way: it flips Shift, keeps Alt,
    and keeps Ctrl unless Alt is also held (Alt+Tab wins over Ctrl+Tab).
   */
  lemma AltRepeatOfTabFlipsShift(mods: Mods)
    ensures GetAltRepeatKeyKeycodeUser(KC_TAB, mods) ==
              KC_TAB + (if Shifted(mods) then 0 else QK_LSFT) + (if Alted(mods) then QK_LALT else 0) +
              (if Ctrled(mods) && !Alted(mods) then QK_LCTL else 0)
  {
  }

  // ---------------------------------------------------------------------
  // The one-shot-modifier LED hook
  // ---------------------------------------------------------------------

  /** `QK_ONE_SHOT_MOD_COUNT`. */
  const OneShotModCount: nat := 8

  /** Row `MOD` of `osm_keys_led`: bits 0-2 have an LED, bits 3-7 hold `UINT8_MAX`. */
  const OsmKeysLedMod: seq<U8> := [14, 15, 13, 0xFF, 0xFF, 0xFF, 0xFF, 0xFF]

  /** `1 << i` for the eight modifier bits. */
  const ModBits: seq<Mods> := [0x01, 0x02, 0x04, 0x08, 0x10, 0x20, 0x40, 0x80]

  /** `checked_mod = 1 << i`. */
  function ModBit(i: nat): (r: Mods)
    requires i < 8
    ensures r == (1 as Mods) << i
  {
    ModBits[i]
  }

  /**
    The LED indices the source's loop passes to `blinking_enabled_on_led`:
    one per modifier bit that is clear in `mods` (the `&&` skips the call for
    set bits), the `UINT8_MAX` entries included.
   */
  function OsmLookupsAsWritten(mods: Mods): seq<int>
  {
    OsmLookupsFrom(mods, 0)
  }

  /** The lookups of the loop iterations `i` to 7. */
  function OsmLookupsFrom(mods: Mods, i: nat): (r: seq<int>)
    requires i <= OneShotModCount
    ensures forall v :: v in r ==>
              exists j :: i <= j < OneShotModCount && v == OsmKeysLedMod[j] && mods & ModBit(j) == 0
    ensures forall j :: i <= j < OneShotModCount && mods & ModBit(j) == 0 ==> OsmKeysLedMod[j] as int in r
    decreases OneShotModCount - i
  {
    if i == OneShotModCount then []
    else (if mods & ModBit(i) == 0 then [OsmKeysLedMod[i] as int] else []) + OsmLookupsFrom(mods, i + 1)
  }

  /**
    With any of the bits 3-7 clear, for instance with no modifier at all, the
    source reads LED 255 of arrays that hold 52 LEDs.
   */
  lemma OsmLookupOutOfRange()
    ensures 0xFF in OsmLookupsAsWritten(0)
    ensures 0xFF >= LedCount
  {
  }

  /**
    The modifier bit whose one-shot key has LED `k`, or -1 when no in-range
    entry of the table names `k` (the `UINT8_MAX` entries name no LED).
   */
  function OsmBitOf(k: int): (i: int)
    ensures -1 <= i < OneShotModCount
    ensures i >= 0 ==> OsmKeysLedMod[i] == k && OsmKeysLedMod[i] < LedCount
    ensures i == -1 ==>
              forall j :: 0 <= j < OneShotModCount && OsmKeysLedMod[j] < LedCount ==> OsmKeysLedMod[j] != k
  {
    if k == 14 then 0 else if k == 15 then 1 else if k == 13 then 2 else -1
  }

  /**
    Whether the hook stops the blink of LED `k`: `k` is the LED of a
    one-shot modifier whose bit is clear in `mods`, and it is blinking
    (`blinking_enabled_on_led`: a colour and a deadline other than
    `UINT16_MAX`).
   */
  predicate StopsBlinking(mods: Mods, colors: seq<Rgb>, deadlines: seq<U32>, k: int)
    requires |colors| == LedCount && |deadlines| == LedCount && 0 <= k < LedCount
  {
    var i := OsmBitOf(k);
    i >= 0 && mods & ModBit(i) == 0 && colors[k] != Black && deadlines[k] != U16Max
  }

  /** One iteration of the hook's loop, for modifier bit `i`. */
  method CheckOneshotMod(leds: RgbBlink.Leds, mods: Mods, i: nat)
    requires leds.Valid() && i < OneShotModCount
    modifies leds.colorMap, leds.blinkInterval
    ensures leds.Valid()
    ensures leds.deadlines[..] == old(leds.deadlines[..])
    ensures var led := OsmKeysLedMod[i];
            if led < LedCount && StopsBlinking(mods, old(leds.colorMap[..]), old(leds.deadlines[..]), led) then
              leds.colorMap[..] == old(leds.colorMap[..])[led := Black] &&
              leds.blinkInterval[..] == old(leds.blinkInterval[..])[led := U32Max]
            else
              leds.colorMap[..] == old(leds.colorMap[..]) && leds.blinkInterval[..] == old(leds.blinkInterval[..])
  {
    var led := OsmKeysLedMod[i];
    var checkedMod := ModBit(i);
    if led < LedCount && mods & checkedMod == 0 && leds.BlinkingEnabledOnLed(led) {
      leds.DisableBlinkingFor(led);
    }
  }

  /**
    `oneshot_mods_changed_user`, with the `UINT8_MAX` entries skipped: the
    blink of an LED stops exactly when `StopsBlinking` says so, and no other
    LED changes; deadlines are kept.
   */
  method OneshotModsChangedUser(leds: RgbBlink.Leds, mods: Mods)
    requires leds.Valid()
    modifies leds.colorMap, leds.blinkInterval
    ensures leds.Valid()
    ensures forall k :: 0 <= k < LedCount ==>
              if StopsBlinking(mods, old(leds.colorMap[..]), old(leds.deadlines[..]), k) then
                leds.colorMap[k] == Black && leds.blinkInterval[k] == U32Max
              else
                leds.colorMap[k] == old(leds.colorMap[k]) && leds.blinkInterval[k] == old(leds.blinkInterval[k])
    ensures leds.deadlines[..] == old(leds.deadlines[..])
  {
    ghost var colors0, intervals0, deadlines0 := leds.colorMap[..], leds.blinkInterval[..], leds.deadlines[..];
    for i := 0 to OneShotModCount
      invariant leds.Valid()
      invariant leds.deadlines[..] == deadlines0
      invariant forall k :: 0 <= k < LedCount ==>
                  if StopsBlinking(mods, colors0, deadlines0, k) && OsmBitOf(k) < i then
                    leds.colorMap[k] == Black && leds.blinkInterval[k] == U32Max
                  else
                    leds.colorMap[k] == colors0[k] && leds.blinkInterval[k] == intervals0[k]
    {
      ghost var colors1 := leds.colorMap[..];
      CheckOneshotMod(leds, mods, i);
      assert forall k :: 0 <= k < LedCount && OsmBitOf(k) == i ==>
               (StopsBlinking(mods, colors1, deadlines0, k) <==> StopsBlinking(mods, colors0, deadlines0, k));
    }
  }

  // ---------------------------------------------------------------------
  // End-to-end runs with the shipped configuration
  // ---------------------------------------------------------------------

  /** The keymap's state between compositions with nothing held or locked, under the shipped configuration. */
  ghost predicate ShippedAndIdle(keymap: Keymap, trace: seq<Effect>)
    reads keymap, keymap.engine, keymap.engine.sequence, keymap.engine.held
  {
    && keymap.Valid() && keymap.engine.cfg == ColomboConfig && !keymap.engine.down
    && keymap.trace == trace && keymap.lockedMods == 0
    && keymap.engine.HeldValue() == [EmptyRow, EmptyRow]
  }

  /** Leader pressed at 0 ms and released at 10 ms: an empty composition starts. */
  method Lead(keymap: Keymap)
    requires ShippedAndIdle(keymap, []) && !keymap.engine.leading
    modifies keymap.engine`leading, keymap.engine`time, keymap.engine`size, keymap.engine`down
    modifies keymap.engine.sequence, keymap.engine.held, keymap`trace, keymap`lockedMods
    ensures ShippedAndIdle(keymap, [UserStart])
    ensures keymap.engine.leading && keymap.engine.size == 0 && keymap.engine.time == 0
  {
    var consumed := keymap.ProcessLeaderCompose(QK_LEADER, true, 0);
    consumed := keymap.ProcessLeaderCompose(QK_LEADER, false, 10);
  }

  /** A scan while the composition is neither timed out nor final changes nothing. */
  method ScanWaits(keymap: Keymap, now: U16)
    requires ShippedAndIdle(keymap, [UserStart]) && keymap.engine.leading
    requires !keymap.engine.TimedOut(now) && FinalChain(keymap.engine.Buffer()) == []
    modifies keymap.engine`leading, keymap.engine.held, keymap`trace, keymap`lockedMods
    ensures ShippedAndIdle(keymap, [UserStart]) && keymap.engine.leading
  {
    keymap.Task(now, now);
  }

  /** SPACE pressed at 30 ms into the empty composition: the buffer holds (SPACE). */
  method PressSpace(keymap: Keymap)
    requires ShippedAndIdle(keymap, [UserStart])
    requires keymap.engine.leading && keymap.engine.size == 0 && keymap.engine.time == 0
    modifies keymap.engine`leading, keymap.engine`time, keymap.engine`size, keymap.engine`down
    modifies keymap.engine.sequence, keymap.engine.held, keymap`trace, keymap`lockedMods
    ensures ShippedAndIdle(keymap, [UserStart])
    ensures keymap.engine.leading && keymap.engine.Contents() == [KC_SPACE] && keymap.engine.time == 30
  {
    assert !TimedOutAt(ColomboConfig, 0, 0, 30);
    var consumed := keymap.ProcessLeaderCompose(KC_SPACE, true, 30);
  }

  /** R pressed at 50 ms after (SPACE): the buffer holds (SPACE,R). */
  method PressR(keymap: Keymap)
    requires ShippedAndIdle(keymap, [UserStart])
    requires keymap.engine.leading && keymap.engine.Contents() == [KC_SPACE] && keymap.engine.time == 30
    modifies keymap.engine`leading, keymap.engine`time, keymap.engine`size, keymap.engine`down
    modifies keymap.engine.sequence, keymap.engine.held, keymap`trace, keymap`lockedMods
    ensures ShippedAndIdle(keymap, [UserStart])
    ensures keymap.engine.leading && keymap.engine.Contents() == [KC_SPACE, KC_R] && keymap.engine.time == 50
  {
    assert !TimedOutAt(ColomboConfig, 1, 30, 50);
    var consumed := keymap.ProcessLeaderCompose(KC_R, true, 50);
  }

  /** The rows the composition passes through on its way to (SPACE,R) are not final. */
  lemma PrefixesOfSpaceRAreNotFinal()
    ensures FinalChain(EmptyRow) == []
    ensures FinalChain([KC_SPACE, KC_NO, KC_NO, KC_NO, KC_NO]) == []
    ensures FinalChain([KC_SPACE, KC_R, KC_NO, KC_NO, KC_NO]) == []
  {
  }

  /**
    Leader, then SPACE and R, each followed by a scan: (SPACE,R) is not final,
    so the composition goes on with nothing sent but the start hook.
   */
  method ComposeSpaceR(keymap: Keymap)
    requires ShippedAndIdle(keymap, []) && !keymap.engine.leading
    modifies keymap.engine`leading, keymap.engine`time, keymap.engine`size, keymap.engine`down
    modifies keymap.engine.sequence, keymap.engine.held, keymap`trace, keymap`lockedMods
    ensures ShippedAndIdle(keymap, [UserStart]) && keymap.engine.leading
    ensures keymap.engine.Buffer() == [KC_SPACE, KC_R, KC_NO, KC_NO, KC_NO]
    ensures keymap.engine.size == 2 && keymap.engine.time == 50
  {
    var e := keymap.engine;
    PrefixesOfSpaceRAreNotFinal();
    Lead(keymap);
    assert e.Buffer() == EmptyRow;
    ScanWaits(keymap, 20);
    PressSpace(keymap);
    BufferIsPaddedContents(e);
    PadShort(KC_SPACE, KC_R, KC_NO);
    assert e.Buffer() == [KC_SPACE, KC_NO, KC_NO, KC_NO, KC_NO];
    ScanWaits(keymap, 40);
    PressR(keymap);
    BufferIsPaddedContents(e);
    assert e.Buffer() == [KC_SPACE, KC_R, KC_NO, KC_NO, KC_NO];
    ScanWaits(keymap, 60);
  }

  /**
    Leader, SPACE, R, then a scan after the timeout: Ctrl is registered,
    locked and held under (SPACE,R); releasing R empties the slot and
    unregisters Ctrl.
   */
  method SpaceRHoldsCtrlUntilRelease()
    returns (heldAfterTimeout: HeldTable, heldAfterRelease: HeldTable, locked: Mods,
             effects: seq<Effect>)
    ensures heldAfterTimeout == [[KC_SPACE, KC_R, KC_NO, KC_NO, KC_NO], EmptyRow]
    ensures heldAfterRelease == [EmptyRow, EmptyRow]
    ensures locked == MOD_BIT_LCTRL
    ensures effects == [UserStart, RegisterMods(MOD_BIT_LCTRL), SetLastMods(MOD_BIT_LCTRL), UserEnd,
                        UnregisterMods(MOD_BIT_LCTRL)]
  {
    var keymap := new Keymap(ColomboConfig);
    var e := keymap.engine;
    ComposeSpaceR(keymap);
    // 151 ms after R the composition times out and locks Ctrl.
    assert e.TimedOut(201);
    keymap.Task(201, 201);
    assert keymap.trace == [UserStart, RegisterMods(MOD_BIT_LCTRL), SetLastMods(MOD_BIT_LCTRL), UserEnd];
    heldAfterTimeout := e.HeldValue();
    locked := keymap.lockedMods;
    // Releasing R releases the held sequence and unregisters Ctrl.
    RegisterThenFind([EmptyRow, EmptyRow], [KC_SPACE, KC_R, KC_NO, KC_NO, KC_NO]);
    var consumed := keymap.ProcessLeaderCompose(KC_R, false, 250);
    heldAfterRelease := e.HeldValue();
    effects := keymap.trace;
  }
}
