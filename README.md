# QMK userspace: leader compose, blink schedulers and keymap hooks

This project models the core of a QMK userspace for the ZSA Voyager and
proves properties about it. The core has five parts.

- **The leader-compose engine** (`features/leader_compose.c`). A leader key
  opens a composition. Later key presses go into a five-slot buffer. The
  composition ends on a timeout, when the keymap recognises the buffer, or
  when the buffer overflows. A two-slot "held sequence" table remembers
  compositions to undo when one of their keys is released.
- **The Colombo keymap's policy** (`keyboards/zsa/voyager/keymaps/colombo/keymap.c`):
  - which compositions finish at once (one-shot modifiers, Caps Word, Tab,
    Backspace);
  - which act on timeout (Ctrl or Alt held down);
  - which key releases undo a held composition;
  - the freeze-repeat keys, the alternate-repeat rule for Tab, and the hook
    that stops one-shot-modifier LEDs from blinking.
- **Two LED blink schedulers** (`features/rgb_control.c` and the older
  `features/rgb_blink.c`). Each keeps parallel per-LED arrays and renders
  them on every matrix pass.
- **The tap-dance helpers** of the Comboooos keymap
  (`keyboards/zsa/voyager/keymaps/comboooos/keymap_oryx.c`).
- **The per-key tapping-term table**, in the same file.

## Layout

| file | module | contents |
|---|---|---|
| `qmk.dfy` | `Qmk` | C integer widths, QMK keycodes and modifier bits, colours, the `Effect` trace of calls into QMK |
| `leader_compose.dfy` | `LeaderCompose` | engine state (class `Engine` over an `array` and an `array2`), matchers, the held table as a value and its laws |
| `colombo.dfy` | `Colombo` | the keymap state (class `Keymap`, which owns an `Engine`), the engine's entry points, the policy, repeat-key helpers, the one-shot LED hook, an end-to-end run |
| `blink_schedule.dfy` | `BlinkSchedule` | 32-bit deadline arithmetic, the 16-bit interval truncation and the "closest blink" rule that both schedulers share |
| `rgb_control.dfy` | `RgbControl` | the newer scheduler (class `Leds` over five arrays and a flag) |
| `rgb_blink.dfy` | `RgbBlink` | the older scheduler (class `Leds` over three arrays) |
| `oryx.dfy` | `Oryx` | `dance_step`, the two tap dances (class `TapDances`), `get_tapping_term` |

### Modelling choices

- **State updated in place stays in place.** File-scope globals are fields
  of a class, and C arrays are Dafny arrays. Each method is proved against a
  function on values:
  - the held table as a `HeldTable` value, with `RegisterRow`,
    `ReleaseSlot` and `ReleaseMatching`;
  - each LED as an `Led` value, with `Tick`, `DeadlineStep` and `Shown`.
- **Hooks live next to the keymap.** `leader_compose_start`, `_end`, `_task`
  and `process_leader_compose` call the keymap's hooks, and the linker binds
  those hooks to the keymap's strong definitions. So these entry points are
  methods of `Colombo.Keymap`, next to the hooks they call.
- **Calls into QMK are recorded, not executed.** `register_mods`,
  `set_oneshot_mods`, `SEND_STRING`, `tap_code16`, `wait_ms` and the rest
  are appended to a `trace` of `Effect` values, in call order.
  - `leader_compose_start_user` and `_end_user` are weak no-ops that the
    keymap does not override. They appear as `UserStart` and `UserEnd`
    markers, so the order of the callbacks can be checked.
  - `rgb_matrix_set_color` writes an output array `rendered`.
- **Time and QMK's repeat-key state are parameters.** `timer_read` and
  `timer_read32` become the parameters `now` and `triggerTime`.
  `get_last_keycode` and `get_last_mods` become `lastKeycode` and
  `lastMods`.
- **Compile-time switches are a value.** The engine's macros form a
  `Config` value:
  - `LEADER_TIMEOUT`;
  - `LEADER_NO_TIMEOUT`;
  - `LEADER_PER_KEY_TIMING`;
  - `LEADER_COMPOSE_CONTINUOUS_TRIGGER`;
  - `LEADER_KEY_STRICT_KEY_PROCESSING`.

  `ColomboConfig` is the shipped setting (config.h lines 24-27): a
  150 ms timeout, with no-timeout, per-key timing and continuous trigger
  on. `DefaultConfig` is the engine's default: 300 ms and every switch off.
- **Wrap-around is written out.**
  - `timer_elapsed` on the 16-bit timer is `(now - mark) mod 2^16`.
  - `uint32_t` sums and differences reduce modulo 2^32. `uint32_t + uint32_t`
    stored into a `uint64_t` still wraps, because the addition happens in
    32 bits.
  - The `uint16_t interval` locals of both render passes truncate the
    interval modulo 2^16.
  - `g_tapping_term + 50` is truncated to the `uint16_t` return type.
- **Keycode numbers are QMK's own, but not read from the source.** These
  values are QMK's published numbers: `KC_*`, `QK_LEADER`, the mod-tap and
  layer-tap ranges, and `SAFE_RANGE`. None of them is defined in the files
  of this repository. The proofs rely only on the codes being distinct and
  on which range each falls in.
- **Mod-tap and layer-tap keys reduce to their tap keycode**, the low byte
  of the keycode.

### Where the code and its documented behaviour differ (the model follows the code)

- **`leader_compose_match_held_sequence` has no short cut.** Its early exit
  compares the array `held[0]` with `KC_NO`. An array's address is never
  null, so the exit never fires and both slots are always scanned,
  including an empty slot 0.
  - `FindIntended` is the lookup with the short cut.
  - `FindAsWrittenAgreesOnOccupiedPatterns` proves the two agree whenever
    the pattern's first key is set, which holds for every pattern the
    keymap uses.
  - `FindAsWrittenMatchesEmptySlot` shows where they differ: the all-`KC_NO`
    pattern.
- **A registration into a full table overwrites slot 1.**
- **"Per-symbol timing" is two separate switches.** It is described
  as one policy: the buffer must hold a key before a timeout counts, and
  the mark restarts after each accepted key. In the code these are
  `LEADER_NO_TIMEOUT` and `LEADER_PER_KEY_TIMING`. `LEADER_NO_TIMEOUT` also
  restarts the mark when the first key is added.
- **The release hook only runs under continuous trigger.** It is reached
  only with `LEADER_COMPOSE_CONTINUOUS_TRIGGER`, and never for the leader
  key itself.

## Model

| member | source | states |
|---|---|---|
| LeaderCompose.Elapsed16 | features/leader_compose.c:90-96 | the 16-bit elapsed time is the forward distance from the mark: mark plus it is `now` modulo 2^16, and it is `now - mark` when no wrap occurred |
| LeaderCompose.TimedOutAt | features/leader_compose.c:90-96 | with no-timeout an empty buffer never times out; otherwise a timeout is elapsed time strictly above the budget |
| LeaderCompose.Normalize | features/leader_compose.c:146-153 | without strict processing a mod-tap or layer-tap key contributes its tap keycode; every other key, or any key under strict processing, contributes itself |
| LeaderCompose.Pad | features/leader_compose.c:108-127 | a short pattern keeps its keys in front, and every later position up to width 5 is `KC_NO` |
| LeaderCompose.SequenceIs | features/leader_compose.c:102-106 | true exactly when the row equals the five given keys |
| LeaderCompose.PaddedMatchIsExact | features/leader_compose.c:108-127 | for key lists without `KC_NO`, padded rows are equal iff the lists are equal, so a two-key buffer never satisfies a one- or three-key check |
| LeaderCompose.FirstMatch | features/leader_compose.c:177-195 | -1 iff no slot equals the pattern, otherwise the lowest slot that does |
| LeaderCompose.ReleaseSlot | features/leader_compose.c:197-205 | clearing one slot, where releasing slot 0 shifts an occupied slot 1 down: after any release slot 1 is free, and releasing slot 1 keeps slot 0 |
| LeaderCompose.RegisterRow | features/leader_compose.c:262-279 | storing a row in slot 0 when slot 0 is free and in slot 1 otherwise: the row is in the table afterwards, an occupied slot 0 is kept, and a free slot 0 leaves slot 1 alone |
| LeaderCompose.ReleaseMatching | features/leader_compose.c:212-260 | the release wrappers' table update: nothing changes when no slot matches, and after a matching release slot 1 is free |
| LeaderCompose.CompactionLaw | features/leader_compose.c:197-205 | releasing slot 0 with slot 1 occupied moves slot 1 down, clears slot 1 and leaves the table compact |
| LeaderCompose.ApplyOpKeepsCompact | features/leader_compose.c:197-279 | one registration or release, with any keys, keeps "slot 1 occupied implies slot 0 occupied" |
| LeaderCompose.ApplyAllKeepsCompact | features/leader_compose.c:197-279 | any sequence of registrations and releases keeps the table compact |
| LeaderCompose.RegisterThenFind | features/leader_compose.c:262-279 | a registered row is found at once: in slot 0 when slot 0 was free or already held it, otherwise in slot 1 |
| LeaderCompose.ReleaseThenNotFound | features/leader_compose.c:212-260 | after a release by pattern, a non-empty pattern held in at most one slot is no longer found |
| LeaderCompose.RegisterThenReleaseRestores | features/leader_compose.c:212-279 | registering a row into a table with a free slot 1 and then releasing it by pattern gives back the original table |
| LeaderCompose.RegisterWhenFullOverwritesSlotOne | features/leader_compose.c:262-279 | with both slots occupied a registration replaces slot 1 and keeps slot 0 |
| LeaderCompose.FindIntended | features/leader_compose.c:179-181 | the lookup with its short cut: -1 on a compact table whose slot 0 is empty, the scan otherwise |
| LeaderCompose.FindAsWrittenAgreesOnOccupiedPatterns | features/leader_compose.c:177-195 | on a compact table, the scan that always runs agrees with the short-cut lookup for every pattern whose first key is set |
| LeaderCompose.FindAsWrittenMatchesEmptySlot | features/leader_compose.c:179-181 | on an empty table the scan finds the all-`KC_NO` pattern in slot 0, where the short-cut lookup reports -1 |
| LeaderCompose.Engine.constructor | features/leader_compose.c:21-26 | the globals start idle: timer mark 0, size 0, an all-`KC_NO` buffer and an empty held table |
| LeaderCompose.Engine.ResetTimer | features/leader_compose.c:98-100 | the mark becomes the current time |
| LeaderCompose.Engine.Arm | features/leader_compose.c:43-47 | the start of a composition: leading, the mark at `now`, size 0 and an all-`KC_NO` buffer |
| LeaderCompose.Engine.Add | features/leader_compose.c:73-88 | a bounded append: it succeeds iff size < 5, and then the contents grow by the key; a refused key changes neither size nor buffer; under no-timeout the mark moves only for the first key |
| LeaderCompose.Engine.OneKey | features/leader_compose.c:108-110 | true iff the whole buffer is (kc, 0, 0, 0, 0) |
| LeaderCompose.Engine.TwoKeys | features/leader_compose.c:112-114 | true iff the whole buffer is (kc1, kc2, 0, 0, 0) |
| LeaderCompose.Engine.ThreeKeys | features/leader_compose.c:116-118 | true iff the whole buffer is (kc1, kc2, kc3, 0, 0) |
| LeaderCompose.Engine.FourKeys | features/leader_compose.c:120-122 | true iff the whole buffer is (kc1, kc2, kc3, kc4, 0) |
| LeaderCompose.Engine.FiveKeys | features/leader_compose.c:124-127 | true iff the whole buffer is the five keys |
| LeaderCompose.Engine.MatchHeldSequence | features/leader_compose.c:177-195 | the loop returns the lowest slot equal to the pattern, or -1 |
| LeaderCompose.Engine.ReleaseHeldSequence | features/leader_compose.c:197-205 | the table becomes `ReleaseSlot` of the old table (clear the slot; releasing slot 0 shifts an occupied slot 1 down); compactness is kept |
| LeaderCompose.Engine.RegisterSequenceHeld | features/leader_compose.c:262-279 | the table becomes `RegisterRow` of the old table: the row goes to slot 0 when slot 0's first key is `KC_NO`, else to slot 1 |
| LeaderCompose.Engine.ReleaseSequenceOneKey | features/leader_compose.c:212-220 | reports whether (key0, 0, 0, 0, 0) was held, and releases the first slot holding it; the table is unchanged when none does |
| LeaderCompose.Engine.ReleaseSequenceTwoKeys | features/leader_compose.c:222-230 | the same for (key0, key1, 0, 0, 0) |
| LeaderCompose.Engine.ReleaseSequenceThreeKeys | features/leader_compose.c:232-240 | the same for three keys |
| LeaderCompose.Engine.ReleaseSequenceFourKeys | features/leader_compose.c:241-250 | the same for four keys |
| LeaderCompose.Engine.ReleaseSequenceFiveKeys | features/leader_compose.c:251-260 | the same for five keys |
| LeaderCompose.BufferIsPaddedContents | features/leader_compose.c:73-88 | in every valid state the buffer is the keys added so far, right-padded with `KC_NO` |
| LeaderCompose.EngineHeldTableIsCompact | features/leader_compose.c:197-279 | the engine's held table is always compact |
| Colombo.FinalChain | keyboards/zsa/voyager/keymaps/colombo/keymap.c:625-662 | the calls of the first of the eight compositions the buffer equals, tested in the source's order, or none; `FinalChainIsTable` states what it means |
| Colombo.TimeoutEffects | keyboards/zsa/voyager/keymaps/colombo/keymap.c:608-623 | the calls of the timeout hook: register Ctrl for (SPACE,R), Alt for (SPACE,A), otherwise clear the one-shot locks and unregister the locked mods; `TimeoutUnlocksOrAddsOneModifier` states what it means |
| Colombo.TimeoutLocked | keyboards/zsa/voyager/keymaps/colombo/keymap.c:608-623 | `locked_mods` after the timeout hook; `TimeoutKeepsLockedWithinCtrlAlt` and `TimeoutUnlocksOrAddsOneModifier` state its properties |
| Colombo.TimeoutHeld | keyboards/zsa/voyager/keymaps/colombo/keymap.c:608-623 | the held table after the timeout hook: only (SPACE,R) is registered; `HoldThenReleaseRestoresTable` states the round trip |
| Colombo.ReleaseHeld | keyboards/zsa/voyager/keymaps/colombo/keymap.c:599-607 | the held table after the release hook: N releases (N), R releases (SPACE,R); `OtherReleasesAreInert` and `HoldThenReleaseRestoresTable` state its properties |
| Colombo.ReleaseEffects | keyboards/zsa/voyager/keymaps/colombo/keymap.c:599-607 | the calls of the release hook: Backspace or Ctrl is unregistered only when its composition was held |
| Colombo.FinalChainIsTable | keyboards/zsa/voyager/keymaps/colombo/keymap.c:625-662 | the chain of tests recognises exactly the eight buffers of the table, and issues each one's effects |
| Colombo.FinalCompositionsAreEight | keyboards/zsa/voyager/keymaps/colombo/keymap.c:625-662 | the eight final compositions are eight different buffers, so the order of the tests does not matter |
| Colombo.FinalCompositionsAreOccupied | keyboards/zsa/voyager/keymaps/colombo/keymap.c:625-662 | every final composition starts with a key and issues at least one call; the empty buffer is not final |
| Colombo.TimeoutKeepsLockedWithinCtrlAlt | keyboards/zsa/voyager/keymaps/colombo/keymap.c:608-623 | `locked_mods` only ever holds left Ctrl and left Alt |
| Colombo.TimeoutUnlocksOrAddsOneModifier | keyboards/zsa/voyager/keymaps/colombo/keymap.c:608-623 | a timeout on (SPACE,R) or (SPACE,A) only adds a modifier and unregisters nothing; any other buffer unregisters the locked modifiers and clears them |
| Colombo.LateTimeoutAfterFinalUnlocks | features/leader_compose.c:50-61 | when the end of a final composition sees a timeout (the timer ticked between the two reads), the timeout hook unregisters and forgets the locked modifiers and keeps the held table, since no final composition is (SPACE,R) or (SPACE,A) |
| Colombo.HoldThenReleaseRestoresTable | keyboards/zsa/voyager/keymaps/colombo/keymap.c:599-662 | the (SPACE,R) timeout is undone by the next R release, which unregisters Ctrl; the (N) composition is undone by the N release, which unregisters Backspace |
| Colombo.OtherReleasesAreInert | keyboards/zsa/voyager/keymaps/colombo/keymap.c:599-607 | releasing any key other than N and R leaves the held table alone and issues nothing |
| Colombo.Keymap.constructor | keyboards/zsa/voyager/keymaps/colombo/keymap.c:462-464 | the keymap's globals and the engine start zeroed, with nothing held, locked or called |
| Colombo.Keymap.FinalSequences | keyboards/zsa/voyager/keymaps/colombo/keymap.c:625-662 | returns true iff the buffer is final; the calls issued are that composition's and nothing otherwise; only (N) registers a held row |
| Colombo.Keymap.OnTimeoutSequences | keyboards/zsa/voyager/keymaps/colombo/keymap.c:608-623 | (SPACE,R) registers and locks Ctrl and holds (SPACE,R); (SPACE,A) registers and locks Alt; any other buffer clears the one-shot locks, unregisters the locked mods and sets them to 0 |
| Colombo.Keymap.OnKeyReleaseUser | keyboards/zsa/voyager/keymaps/colombo/keymap.c:599-607 | an N release frees (N) and unregisters Backspace only if (N) was held; an R release does the same for (SPACE,R) and Ctrl; other keys change nothing |
| Colombo.Keymap.Start | features/leader_compose.c:39-48 | a no-op while active; otherwise the start hook runs and the composition arms with an empty buffer at `now` |
| Colombo.Keymap.End | features/leader_compose.c:55-61 | `leading` is cleared; the timeout hook runs, before the end hook, exactly when the composition has timed out at the reading `End` is given |
| Colombo.Keymap.Task | features/leader_compose.c:50-67 | with two timer readings, `now` for `leader_compose_sequence_done` and `endNow` for `leader_compose_end`: idle: nothing happens; timed out at `now`: the end hook, preceded by the timeout hook iff still timed out at `endNow`; otherwise the final compositions are tried and the composition ends iff one matched, after which the timeout hook also runs iff it has timed out at `endNow`; the composition keeps running when nothing matched |
| Colombo.Keymap.ProcessKeyPress | features/leader_compose.c:140-165 | under continuous trigger a press with the leader down and no composition restarts one; an accepting composition appends the normalised key and consumes it, moving the mark under per-key timing; a full buffer ends the composition and lets the key through; otherwise nothing changes |
| Colombo.Keymap.AcceptKey | features/leader_compose.c:145-164 | the accepting branch: append and consume, or end on a full buffer and pass the key on |
| Colombo.Keymap.ProcessLeaderCompose | features/leader_compose.c:129-175 | a leader press sets the down flag and starts a composition without adding itself; other presses as `ProcessKeyPress`; a leader release only clears the down flag; other releases reach the release hook only under continuous trigger |
| Colombo.Keymap.ProcessRecordUser | keyboards/zsa/voyager/keymaps/colombo/keymap.c:473-522 | `FREEZE_REPEAT_REGISTER` stores the last keycode and mods on press; `FREEZE_REP_TOG` flips the freeze flag on press and restores the last keycode when it turns off; both return false, as does `CUSTOM_REPEAT`, which keeps the freeze state; for these three keys the engine (timer mark, down flag, buffer, size, held table) and the locked mods are unchanged; every other key leaves the freeze state alone and goes to the engine |
| Colombo.RememberLastKeyUser | keyboards/zsa/voyager/keymaps/colombo/keymap.c:564-572 | false exactly for `FREEZE_REPEAT_REGISTER`, `CUSTOM_REPEAT` and `ALT_CUSTOM_REPEAT` |
| Colombo.GetAltRepeatKeyKeycodeUser | keyboards/zsa/voyager/keymaps/colombo/keymap.c:574-595 | every key but Tab maps to `KC_TRNS`; Tab maps to a modified Tab, never Ctrl+Alt+Tab |
| Colombo.AltRepeatOfTabFlipsShift | keyboards/zsa/voyager/keymaps/colombo/keymap.c:574-595 | the first-match chain equals one rule: flip Shift, keep Alt, keep Ctrl unless Alt is held |
| Colombo.ModBit | keyboards/zsa/voyager/keymaps/colombo/keymap.c:554 | the checked modifier is `1 << i` |
| Colombo.OsmLookupsFrom | keyboards/zsa/voyager/keymaps/colombo/keymap.c:551-562 | the LEDs the loop queries are exactly the table entries of the modifier bits that are clear in `mods` |
| Colombo.OsmLookupOutOfRange | keyboards/zsa/voyager/keymaps/colombo/keymap.c:329-331 | with no modifier the loop queries LED 255, beyond the 52 LEDs |
| Colombo.OsmBitOf | keyboards/zsa/voyager/keymaps/colombo/keymap.c:331 | the modifier bit whose in-range entry in the `MOD` row names the LED, or -1 exactly when no in-range entry names it (the `UINT8_MAX` entries name no LED) |
| Colombo.CheckOneshotMod | keyboards/zsa/voyager/keymaps/colombo/keymap.c:553-560 | one iteration: the LED of bit i is disabled iff it is in range, the bit is clear and it is blinking; nothing else changes |
| Colombo.OneshotModsChangedUser | keyboards/zsa/voyager/keymaps/colombo/keymap.c:551-562 | the blink of an LED stops exactly when it belongs to a clear one-shot modifier bit and is blinking; all other LEDs and all deadlines are kept |
| Colombo.Lead | features/leader_compose.c:129-175 | under the shipped configuration, a leader tap starts an empty composition with only the start hook called |
| Colombo.ScanWaits | features/leader_compose.c:63-67 | a scan while the composition is neither timed out nor final leaves it running with nothing called |
| Colombo.PressSpace | features/leader_compose.c:145-164 | SPACE 30 ms after the leader is accepted into the empty composition |
| Colombo.PressR | features/leader_compose.c:145-164 | R 20 ms after SPACE is accepted after it |
| Colombo.PrefixesOfSpaceRAreNotFinal | keyboards/zsa/voyager/keymaps/colombo/keymap.c:625-662 | the empty buffer, (SPACE) and (SPACE,R) are not final compositions |
| Colombo.ComposeSpaceR | features/leader_compose.c:129-175 | leader, SPACE and R, each followed by a scan, leave (SPACE,R) in the buffer with only the start hook called |
| Colombo.SpaceRHoldsCtrlUntilRelease | keyboards/zsa/voyager/keymaps/colombo/keymap.c:599-623 | end to end: the (SPACE,R) timeout registers and locks Ctrl and holds (SPACE,R) in slot 0; releasing R empties the table and unregisters Ctrl; the calls come in exactly this order |
| BlinkSchedule.Sub32 | features/rgb_control.c:105-107 | `uint32_t` subtraction is congruent to the difference modulo 2^32, and exact without underflow |
| BlinkSchedule.Add32 | features/rgb_control.c:90-91 | `uint32_t` addition is congruent to the sum modulo 2^32, and exact without overflow |
| BlinkSchedule.Interval16 | features/rgb_control.c:99 | the interval seen by a render pass is the interval itself when it fits in 16 bits, and otherwise a smaller value with the same low 16 bits (rgb_blink.c line 57 truncates the same way) |
| BlinkSchedule.ClosestBlink | features/rgb_control.c:36-52 | the rule `synch_with_closest_blink` follows, in both schedulers (rgb_blink.c lines 16-32): the deadline of the first LED with the same interval, else the earliest deadline, else `time` when no LED is scheduled; `ClosestBlinkIsUnique` shows it picks one deadline |
| BlinkSchedule.ClosestBlinkIsUnique | features/rgb_control.c:36-52 | the closest-blink rule determines the deadline uniquely |
| BlinkSchedule.ClosestBlinkIsScheduledOrNow | features/rgb_control.c:36-52 | the chosen deadline is `time` or some LED's deadline |
| RgbBlink.NextDeadline | features/rgb_blink.c:58-65 | a due LED moves to the trigger time plus the 16-bit interval, wrapping modulo 2^32; other LEDs keep their deadline |
| RgbBlink.Shown | features/rgb_blink.c:58-70 | the rendered colour is the LED's colour, black, or the previous output |
| RgbBlink.LitThenDark | features/rgb_blink.c:66-70 | away from wrap-around an LED is dark in the last half interval before its deadline, lit in the half before that, and untouched earlier |
| RgbBlink.RenderTwiceIsRenderOnce | features/rgb_blink.c:52-72 | a second render pass at the same instant changes neither deadline nor colour, as long as the new deadline does not wrap |
| RgbBlink.Leds.constructor | features/rgb_blink.c:10-12 | only the first LED starts with the `UINT32_MAX` deadline; all other deadlines, all intervals and all colours are 0 |
| RgbBlink.Leds.SynchWithClosestBlink | features/rgb_blink.c:16-32 | the first LED with an equal interval gives its deadline; failing that, the earliest deadline; or `time` when every deadline is `UINT32_MAX` |
| RgbBlink.Leds.EnableBlinkingFor | features/rgb_blink.c:34-38 | only this LED changes: it takes the colour, the interval and the closest-blink deadline for the 16-bit interval |
| RgbBlink.Leds.DisableBlinkingFor | features/rgb_blink.c:40-44 | only this LED changes: black and the `UINT32_MAX` interval; every deadline is kept |
| RgbBlink.Leds.BlinkingEnabledOnLed | features/rgb_blink.c:46-50 | false for a black LED or a `UINT16_MAX` deadline, true otherwise, so the `UINT32_MAX` deadline still counts as blinking |
| RgbBlink.Leds.ManageBlinkingKeys | features/rgb_blink.c:52-72 | every LED gets `NextDeadline` and `Shown`; colours and intervals are never modified |
| RgbBlink.ZeroIntervalJoinsUnscheduledLed | features/rgb_blink.c:10-38 | from start-up, enabling an LED with interval 0 adopts LED 0's `UINT32_MAX` deadline: it is never due, yet reports as blinking |
| RgbControl.Disabled | features/rgb_control.c:62-67 | a disabled LED is black, has the `UINT32_MAX` interval and counter 0, keeps its deadline and limit, and is not blinking |
| RgbControl.DeadlineStep | features/rgb_control.c:75-92 | past its limit the LED is disabled first; then the deadline is `UINT32_MAX` for the `UINT32_MAX` interval, and one interval after the trigger modulo 2^32 otherwise |
| RgbControl.Tick | features/rgb_control.c:94-112 | one render pass for one LED: an LED that is not due is unchanged; a due LED counts a blink and gets `DeadlineStep`; its limit is kept and its colour is kept or becomes black |
| RgbControl.Shown | features/rgb_control.c:100-110 | the rendered colour is the LED's, black or the previous output; an LED that is not due and not blinking is drawn black |
| RgbControl.UnscheduledIsNeverAdvanced | features/rgb_control.c:94-112 | an LED with the `UINT32_MAX` deadline is never advanced and is drawn black |
| RgbControl.PastLimitEndsUnscheduled | features/rgb_control.c:75-104 | a due LED whose count reaches its limit ends disabled, with counter 0 and the `UINT32_MAX` deadline |
| RgbControl.CounterStaysWithinLimit | features/rgb_control.c:75-104 | with a limit set, a render pass keeps the limit and keeps the counter within it |
| RgbControl.OffStaysOff | features/rgb_control.c:94-112 | an unscheduled LED stays unchanged over any run of render passes |
| RgbControl.LimitReachedStaysOff | features/rgb_control.c:75-112 | an LED whose count reaches its limit is off for good: no later run of render passes changes it, and each draws it black |
| RgbControl.Leds.constructor | features/rgb_control.c:7-13 | all arrays start zeroed and the flag false |
| RgbControl.Leds.InitRgbState | features/rgb_control.c:15-21 | the first call switches every LED off; later calls change nothing; the flag is set |
| RgbControl.Leds.DisableAll | features/rgb_control.c:23-34 | every LED becomes black, with counter 0, the `UINT32_MAX` interval, deadline and limit, and a black output |
| RgbControl.Leds.SynchWithClosestBlink | features/rgb_control.c:36-52 | first equal interval, else the earliest deadline, else `time` |
| RgbControl.Leds.EnableBlinkingFor | features/rgb_control.c:54-60 | only this LED changes: colour, interval, limit, counter 0, and the closest-blink deadline for the 16-bit interval |
| RgbControl.Leds.DisableBlinkingFor | features/rgb_control.c:62-67 | only this LED changes, as `Disabled` says |
| RgbControl.Leds.BlinkingEnabledOnLed | features/rgb_control.c:69-73 | true iff the deadline is not `UINT32_MAX` and the colour is not black |
| RgbControl.Leds.ManageBlinkDeadline | features/rgb_control.c:75-92 | only this LED changes, as `DeadlineStep` says |
| RgbControl.Leds.ManageBlinkingKeys | features/rgb_control.c:94-112 | every LED moves on as `Tick` says and shows what `Shown` says |
| RgbControl.BlinkLimitOne | features/rgb_control.c:54-112 | an LED enabled with limit 1 is lit at its first two deadlines and switched off at the second, because the counter is compared after it is incremented |
| Oryx.DanceStep | keyboards/zsa/voyager/keymaps/comboooos/keymap_oryx.c:220-230 | count 1: single tap when interrupted or released, else single hold; count 2: double-single tap when interrupted, else double hold when pressed, else double tap; any other count: more taps; always in 1..6 |
| Oryx.HoldStepsNeedAnUninterruptedPress | keyboards/zsa/voyager/keymaps/comboooos/keymap_oryx.c:220-230 | a hold step needs a key still down, no interruption and one or two taps |
| Oryx.OnDance | keyboards/zsa/voyager/keymaps/comboooos/keymap_oryx.c:237-246 | no minus below count 3, three at count 3, one per press after that |
| Oryx.OneMinusPerPressFromTheThird | keyboards/zsa/voyager/keymaps/comboooos/keymap_oryx.c:237-246 | from the third press on, a dance has typed exactly one minus per press |
| Oryx.FinishedEffects | keyboards/zsa/voyager/keymaps/comboooos/keymap_oryx.c:248-255 | the calls of `dance_N_finished` per step: register minus, register underscore, or tap minus then register it; `FinishedThenResetIsBalanced` states what they leave registered |
| Oryx.ResetEffects | keyboards/zsa/voyager/keymaps/comboooos/keymap_oryx.c:257-265 | the calls of `dance_N_reset` per step: wait 10 ms, then unregister the step's code when the step has one |
| Oryx.FinishedThenResetIsBalanced | keyboards/zsa/voyager/keymaps/comboooos/keymap_oryx.c:248-265 | `finished` leaves exactly its step's code registered, and `reset` unregisters exactly that code |
| Oryx.TapDances.constructor | keyboards/zsa/voyager/keymaps/comboooos/keymap_oryx.c:216 | both stored steps start at 0 |
| Oryx.TapDances.Finished | keyboards/zsa/voyager/keymaps/comboooos/keymap_oryx.c:248-255 | only this dance's step changes, to `DanceStep`; the calls register minus, underscore, or tap-then-minus |
| Oryx.TapDances.Reset | keyboards/zsa/voyager/keymaps/comboooos/keymap_oryx.c:257-265 | waits 10 ms, unregisters the code of the stored step, and sets only this dance's step to 0 |
| Oryx.DanceLifecycle | keyboards/zsa/voyager/keymaps/comboooos/keymap_oryx.c:248-298 | on either slot, a whole dance leaves nothing registered and both steps at 0, with the other slot untouched |
| Oryx.GetTappingTerm | keyboards/zsa/voyager/keymaps/comboooos/keymap_oryx.c:85-102 | the term plus 50, truncated to 16 bits, exactly for the six listed keys; the term unchanged for every other key |
| Oryx.SlowKeysAreSixDualRoleKeys | keyboards/zsa/voyager/keymaps/comboooos/keymap_oryx.c:85-102 | the six cases are six different keycodes, all of them mod-tap or layer-tap keys |

## Left out

- `leader_compose_sequence_active`, `_sequence_done` and `leader_compose_on_key_release` are not members of their own. They are `Engine.Active` and part of `Keymap.Task` and `Keymap.ProcessLeaderCompose`.
- Colombo.Keymap.ProcessRecordUser: for keycodes other than the three it handles, it states only that the freeze state is unchanged. What the engine then does is stated by `ProcessLeaderCompose`, which it calls.
- The `CUSTOM_REPEAT` branch re-enters QMK's `process_record` with a synthetic record (keymap.c lines 494-516). The source of `process_record` is not part of this model. The branch is one `CustomRepeat(pressed)` entry in the trace, and only its `return false` is modelled.
- `register_mods`, `set_oneshot_mods`, `unregister_code`, `SEND_STRING`, `tap_code16`, `caps_word_toggle`, `wait_ms` and the other QMK calls are trace entries. Their effect on QMK's own state is not modelled.
- `timer_read`, `timer_read32`, `get_last_keycode` and `get_last_mods` are parameters.
- Colombo.Keymap.AcceptKey, Colombo.Keymap.ProcessKeyPress and Colombo.Keymap.ProcessLeaderCompose read the clock once per key event, as `now`. In the source one event may read the timer several times: in `leader_compose_start`, in the timeout check, in `leader_compose_reset_timer`, and again in `leader_compose_end` on a full buffer. So the model does not capture a tick between these reads. In particular, a full buffer's end never runs the timeout hook in the model. Only `Keymap.Task` takes the end's reading separately (`endNow`), and `Keymap.End` takes whichever reading it is given.
- `dprintf` and `dprintln` are left out. With console output compiled in, the `dprintf` in `oneshot_mods_changed_user` also calls `blinking_enabled_on_led(led)` for set bits.
- `post_process_record_user` depends on QMK's one-shot-layer state and the position table. It is left out.
- `keyboard_post_init_user`, `matrix_scan_user` and `rgb_matrix_indicators_user` only forward calls, and are left out.
- `set_layer_color` scales by a `float` after `hsv_to_rgb`. It is left out, together with the layer dispatch that calls it.
- The key, LED and position tables are static data and are left out: `keymaps[]`, `ledmap[]` and `keypos_to_led_map`. Of `osm_keys_led` only the `MOD` row is modelled.
- The combos, key overrides and the whole of `comboooos.c` configure QMK's chord handling, and are left out.
- The blink callbacks' deferred-execution tokens in `rgb_blink.c` are never used by the modelled functions, and are left out.
- There is no concurrency: everything runs on the single scan and event path.

## Findings

| source | as written | input that shows it | evidently intended | confidence | as-written member | corrected member |
|---|---|---|---|---|---|---|
| keyboards/zsa/voyager/keymaps/colombo/keymap.c:331 | the `MOD` row of `osm_keys_led` holds `UINT8_MAX` for modifier bits 3-7, and `oneshot_mods_changed_user` passes those entries to `blinking_enabled_on_led` and `disable_blinking_for`, which index arrays of 52 LEDs | `mods == 0`: the loop reads `color_map[255]` and `blink_timer_deadlines[255]` | the `UINT8_MAX` entries mean "no LED" and are skipped | high (not executed) | Colombo.OsmLookupOutOfRange | Colombo.OneshotModsChangedUser |
