/**
  The leader-compose engine: a leader key opens a composition, the following
  key presses are collected into a five-slot buffer, and the composition ends
  on a timeout or when the keymap recognises the buffer. A two-slot table of
  "held" sequences remembers compositions whose effect must be undone when
  one of their keys is released.

  This module holds the engine's state and the operations that do not call
  back into the keymap. `leader_compose_start`, `_end`, `_task` and
  `process_leader_compose` call the keymap's hooks; they are modelled in
  module Colombo, where those hooks are defined.
 */
module LeaderCompose {
  import opened Qmk

  /** `LEADER_SEQUENCE_SIZE`, also the width of every matcher and held slot. */
  const SequenceSize: nat := 5

  /** One full-width sequence: five keycodes, unused positions hold `KC_NO`. */
  type Row = s: seq<Keycode> | |s| == SequenceSize witness [0, 0, 0, 0, 0]

  const EmptyRow: Row := [KC_NO, KC_NO, KC_NO, KC_NO, KC_NO]

  /** The compile-time switches of the engine. */
  datatype Config = Config(
    timeout: nat,               // LEADER_TIMEOUT
    noTimeout: bool,            // LEADER_NO_TIMEOUT
    perKeyTiming: bool,         // LEADER_PER_KEY_TIMING
    continuousTrigger: bool,    // LEADER_COMPOSE_CONTINUOUS_TRIGGER
    strictKeyProcessing: bool)  // LEADER_KEY_STRICT_KEY_PROCESSING

  /** The engine's defaults: a 300 ms timeout and every switch off. */
  const DefaultConfig: Config := Config(300, false, false, false, false)

  /** The configuration the Colombo keymap ships. */
  const ColomboConfig: Config := Config(150, true, true, true, false)

  // ---------------------------------------------------------------------
  // Timing
  // ---------------------------------------------------------------------

  /** `timer_elapsed` on the 16-bit timer: the forward distance from `mark` to `now`. */
  function Elapsed16(now: U16, mark: U16): (r: U16)
    ensures (mark + r) % 0x1_0000 == now
    ensures mark <= now ==> r == now - mark
  {
    (now - mark) % 0x1_0000
  }

  /**
    `leader_compose_sequence_timed_out` on explicit state: more than the
    timeout has elapsed since the mark; with `noTimeout` the buffer must
    also hold at least one key.
   */
  function TimedOutAt(cfg: Config, size: nat, mark: U16, now: U16): (r: bool)
    ensures cfg.noTimeout && size == 0 ==> !r
    ensures !(cfg.noTimeout && size == 0) ==> (r <==> Elapsed16(now, mark) > cfg.timeout)
  {
    if cfg.noTimeout then size > 0 && Elapsed16(now, mark) > cfg.timeout
    else Elapsed16(now, mark) > cfg.timeout
  }

  /**
    The keycode a press contributes to the buffer: without strict processing,
    mod-tap and layer-tap keycodes are reduced to their tap keycode.
   */
  function Normalize(cfg: Config, kc: Keycode): (r: Keycode)
    ensures !cfg.strictKeyProcessing && (IsModTap(kc) || IsLayerTap(kc)) ==> r == TapKeycode(kc)
    ensures cfg.strictKeyProcessing || !(IsModTap(kc) || IsLayerTap(kc)) ==> r == kc
  {
    if !cfg.strictKeyProcessing && IsModTap(kc) then TapKeycode(kc)
    else if !cfg.strictKeyProcessing && IsLayerTap(kc) then TapKeycode(kc)
    else kc
  }

  // ---------------------------------------------------------------------
  // Matching
  // ---------------------------------------------------------------------

  /** A pattern of up to five keys, right-padded with `KC_NO` to full width. */
  function Pad(keys: seq<Keycode>): (r: Row)
    requires |keys| <= SequenceSize
    ensures forall i :: 0 <= i < |keys| ==> r[i] == keys[i]
    ensures forall i :: |keys| <= i < SequenceSize ==> r[i] == KC_NO
  {
    keys + seq(SequenceSize - |keys|, _ => KC_NO)
  }

  /** The padded rows of the short patterns the keymap uses, written out. */
  lemma PadShort(a: Keycode, b: Keycode, c: Keycode)
    ensures Pad([a]) == [a, KC_NO, KC_NO, KC_NO, KC_NO]
    ensures Pad([a, b]) == [a, b, KC_NO, KC_NO, KC_NO]
    ensures Pad([a, b, c]) == [a, b, c, KC_NO, KC_NO]
  {
  }

  /** `leader_compose_sequence_is`: position-wise equality of a full row with five keys. */
  function SequenceIs(kc1: Keycode, kc2: Keycode, kc3: Keycode, kc4: Keycode, kc5: Keycode,
                      sequence: Row): (r: bool)
    ensures r <==> sequence == [kc1, kc2, kc3, kc4, kc5]
  {
    sequence[0] == kc1 && sequence[1] == kc2 && sequence[2] == kc3 && sequence[3] == kc4 &&
    sequence[4] == kc5
  }

  /**
    Padded matching is exact: when neither the keys collected nor the pattern
    contain `KC_NO`, their padded rows are equal only if they are the same
    sequence, so a two-key buffer never satisfies a one- or three-key check.
   */
  lemma PaddedMatchIsExact(keys: seq<Keycode>, pattern: seq<Keycode>)
    requires |keys| <= SequenceSize && |pattern| <= SequenceSize
    requires forall i :: 0 <= i < |keys| ==> keys[i] != KC_NO
    requires forall i :: 0 <= i < |pattern| ==> pattern[i] != KC_NO
    ensures Pad(keys) == Pad(pattern) <==> keys == pattern
  {
    if |keys| < |pattern| {
      assert Pad(keys)[|keys|] != Pad(pattern)[|keys|];
    } else if |pattern| < |keys| {
      assert Pad(keys)[|pattern|] != Pad(pattern)[|pattern|];
    } else if Pad(keys) == Pad(pattern) {
      assert forall i :: 0 <= i < |keys| ==> keys[i] == Pad(keys)[i];
    }
  }

  // ---------------------------------------------------------------------
  // The held-sequence table, as a value
  // ---------------------------------------------------------------------

  /** `leader_compose_sequence_held`: two rows. */
  type HeldTable = t: seq<Row> | |t| == 2 witness [EmptyRow, EmptyRow]

  /** A slot counts as occupied when its first key is not `KC_NO`. */
  predicate Occupied(row: Row) { row[0] != KC_NO }

  /** The layout the table keeps: slot 1 is only in use when slot 0 is. */
  predicate Compact(t: HeldTable) { Occupied(t[1]) ==> Occupied(t[0]) }

  /**
    The slot `leader_compose_match_held_sequence` reports: the lowest slot
    equal to the pattern, or -1 when neither is.
   */
  function FirstMatch(t: HeldTable, pattern: Row): (r: int)
    ensures -1 <= r < 2
    ensures r == -1 <==> (forall i :: 0 <= i < 2 ==> t[i] != pattern)
    ensures r != -1 ==> t[r] == pattern && forall j :: 0 <= j < r ==> t[j] != pattern
  {
    if t[0] == pattern then 0 else if t[1] == pattern then 1 else -1
  }

  /** `release_held_sequence`: clear a slot; releasing slot 0 shifts an occupied slot 1 down. */
  function ReleaseSlot(t: HeldTable, index: int): (r: HeldTable)
    requires 0 <= index < 2
    ensures !Occupied(r[1])
    ensures index == 1 ==> r[0] == t[0]
  {
    if index == 0 && Occupied(t[1]) then [t[1], EmptyRow] else t[index := EmptyRow]
  }

  /** `leader_compose_register_sequence_held`: slot 0 when it is free, else slot 1. */
  function RegisterRow(t: HeldTable, row: Row): (r: HeldTable)
    ensures r[0] == row || r[1] == row
    ensures Occupied(t[0]) ==> r[0] == t[0]
    ensures !Occupied(t[0]) ==> r[1] == t[1]
  {
    if !Occupied(t[0]) then t[0 := row] else t[1 := row]
  }

  /** The `leader_compose_release_sequence_*` wrappers: release the first matching slot, if any. */
  function ReleaseMatching(t: HeldTable, pattern: Row): (r: HeldTable)
    ensures FirstMatch(t, pattern) == -1 ==> r == t
    ensures FirstMatch(t, pattern) != -1 ==> !Occupied(r[1])
  {
    var i := FirstMatch(t, pattern);
    if i == -1 then t else ReleaseSlot(t, i)
  }

  /** The two ways the keymap changes the table. */
  datatype HeldOp = Register(row: Row) | Release(pattern: Row)

  function ApplyOp(t: HeldTable, op: HeldOp): HeldTable
  {
    match op
    case Register(row) => RegisterRow(t, row)
    case Release(pattern) => ReleaseMatching(t, pattern)
  }

  function ApplyAll(t: HeldTable, ops: seq<HeldOp>): HeldTable
    decreases |ops|
  {
    if ops == [] then t else ApplyAll(ApplyOp(t, ops[0]), ops[1..])
  }

  /** Releasing slot 0 while slot 1 is occupied moves slot 1 down and clears slot 1. */
  lemma CompactionLaw(t: HeldTable)
    requires Occupied(t[1])
    ensures ReleaseSlot(t, 0) == [t[1], EmptyRow]
    ensures Compact(ReleaseSlot(t, 0))
  {
  }

  /** Every single operation keeps the table compact, whatever keys it is given. */
  lemma ApplyOpKeepsCompact(t: HeldTable, op: HeldOp)
    requires Compact(t)
    ensures Compact(ApplyOp(t, op))
  {
  }

  /** Any sequence of registrations and releases keeps the table compact. */
  lemma {:induction false} ApplyAllKeepsCompact(t: HeldTable, ops: seq<HeldOp>)
    requires Compact(t)
    ensures Compact(ApplyAll(t, ops))
    decreases |ops|
  {
    if ops != [] {
      ApplyOpKeepsCompact(t, ops[0]);
      ApplyAllKeepsCompact(ApplyOp(t, ops[0]), ops[1..]);
    }
  }

  /** A registered row is found at once, in the slot it was stored in unless slot 0 already held it. */
  lemma RegisterThenFind(t: HeldTable, row: Row)
    ensures FirstMatch(RegisterRow(t, row), row) == (if Occupied(t[0]) && t[0] != row then 1 else 0)
  {
  }

  /** After releasing a pattern it is no longer found, unless both slots held it. */
  lemma ReleaseThenNotFound(t: HeldTable, pattern: Row)
    requires pattern != EmptyRow
    requires !(t[0] == pattern && t[1] == pattern)
    ensures FirstMatch(ReleaseMatching(t, pattern), pattern) == -1
  {
  }

  /** Registering into a free slot and then releasing the same row restores the table. */
  lemma RegisterThenReleaseRestores(t: HeldTable, row: Row)
    requires Occupied(row)
    requires t[1] == EmptyRow
    requires t[0] == EmptyRow || (Occupied(t[0]) && t[0] != row)
    ensures ReleaseMatching(RegisterRow(t, row), row) == t
  {
  }

  /** With both slots occupied, a third registration overwrites slot 1. */
  lemma RegisterWhenFullOverwritesSlotOne(t: HeldTable, row: Row)
    requires Occupied(t[0]) && Occupied(t[1])
    ensures RegisterRow(t, row) == [t[0], row]
  {
  }

  /**
    The lookup as evidently intended: an empty slot 0 means an empty table,
    so the scan is skipped.
   */
  function FindIntended(t: HeldTable, pattern: Row): (r: int)
    ensures Compact(t) && !Occupied(t[0]) ==> r == -1
    ensures Occupied(t[0]) ==> r == FirstMatch(t, pattern)
  {
    if !Occupied(t[0]) then -1 else FirstMatch(t, pattern)
  }

  /** For the patterns the keymap uses (first key set), the lookup as written agrees with the intended one. */
  lemma FindAsWrittenAgreesOnOccupiedPatterns(t: HeldTable, pattern: Row)
    requires Compact(t) && Occupied(pattern)
    ensures FirstMatch(t, pattern) == FindIntended(t, pattern)
  {
  }

  /** On an empty table the lookup as written reports slot 0 for the all-`KC_NO` pattern. */
  lemma FindAsWrittenMatchesEmptySlot()
    ensures FirstMatch([EmptyRow, EmptyRow], EmptyRow) == 0
    ensures FindIntended([EmptyRow, EmptyRow], EmptyRow) == -1
  {
  }

  // ---------------------------------------------------------------------
  // The engine's state, updated in place
  // ---------------------------------------------------------------------

  class Engine {
    const cfg: Config
    /** `leading`: a composition is active. */
    var leading: bool
    /** `leader_compose_time`: the timer mark. */
    var time: U16
    /** `leader_compose_sequence`. */
    const sequence: array<Keycode>
    /** `leader_compose_sequence_size`. */
    var size: nat
    /** `leader_compose_down`: the leader key is physically down. */
    var down: bool
    /** `leader_compose_sequence_held`. */
    const held: array2<Keycode>

    ghost predicate Valid()
      reads this, sequence, held
    {
      && sequence.Length == SequenceSize
      && held.Length0 == 2 && held.Length1 == SequenceSize
      && size <= SequenceSize
      && (forall i :: size <= i < SequenceSize ==> sequence[i] == KC_NO)
      && (held[1, 0] != KC_NO ==> held[0, 0] != KC_NO)
    }

    /** The whole buffer, unused positions included. */
    function Buffer(): Row
      reads sequence
      requires sequence.Length == SequenceSize
    {
      sequence[..]
    }

    /** The keys collected so far. */
    function Contents(): seq<Keycode>
      reads this, sequence
      requires sequence.Length == SequenceSize && size <= SequenceSize
    {
      sequence[..size]
    }

    function Slot(i: int): Row
      reads held
      requires held.Length0 == 2 && held.Length1 == SequenceSize && 0 <= i < 2
    {
      [held[i, 0], held[i, 1], held[i, 2], held[i, 3], held[i, 4]]
    }

    function HeldValue(): HeldTable
      reads held
      requires held.Length0 == 2 && held.Length1 == SequenceSize
    {
      [Slot(0), Slot(1)]
    }

    /** The zero-initialised globals. */
    constructor (cfg: Config)
      ensures Valid() && fresh(sequence) && fresh(held)
      ensures this.cfg == cfg && !leading && time == 0 && size == 0 && !down
      ensures Buffer() == EmptyRow && HeldValue() == [EmptyRow, EmptyRow]
    {
      this.cfg := cfg;
      leading := false;
      time := 0;
      sequence := new Keycode[SequenceSize](_ => KC_NO);
      size := 0;
      down := false;
      held := new Keycode[2, SequenceSize]((_, _) => KC_NO);
    }

    /** `leader_compose_sequence_active`. */
    function Active(): bool
      reads this
    {
      leading
    }

    /** `leader_compose_sequence_timed_out` at time `now`. */
    function TimedOut(now: U16): bool
      reads this
    {
      TimedOutAt(cfg, size, time, now)
    }

    /** `leader_compose_reset_timer`. */
    method ResetTimer(now: U16)
      modifies this`time
      ensures time == now
    {
      time := now;
    }

    /** The state change of `leader_compose_start` once it has decided to start. */
    method Arm(now: U16)
      requires Valid()
      modifies this`leading, this`time, this`size, sequence
      ensures Valid()
      ensures leading && time == now && size == 0 && Buffer() == EmptyRow
    {
      leading := true;
      time := now;
      size := 0;
      forall i | 0 <= i < SequenceSize {
        sequence[i] := KC_NO;
      }
    }

    /**
      `leader_compose_sequence_add`: a bounded append. A full buffer refuses
      the key and nothing changes.
     */
    method Add(kc: Keycode, now: U16) returns (ok: bool)
      requires Valid()
      modifies this`size, this`time, sequence
      ensures Valid()
      ensures ok <==> old(size) < SequenceSize
      ensures ok ==> size == old(size) + 1 && Contents() == old(Contents()) + [kc]
      ensures !ok ==> size == old(size) && Buffer() == old(Buffer())
      ensures time == (if ok && cfg.noTimeout && old(size) == 0 then now else old(time))
    {
      if size >= SequenceSize {
        return false;
      }
      if cfg.noTimeout && size == 0 {
        ResetTimer(now);
      }
      sequence[size] := kc;
      size := size + 1;
      return true;
    }

    /** `leader_compose_sequence_one_key`. */
    function OneKey(kc: Keycode): (r: bool)
      reads sequence
      requires sequence.Length == SequenceSize
      ensures r <==> Buffer() == [kc, KC_NO, KC_NO, KC_NO, KC_NO]
    {
      SequenceIs(kc, KC_NO, KC_NO, KC_NO, KC_NO, Buffer())
    }

    /** `leader_compose_sequence_two_keys`. */
    function TwoKeys(kc1: Keycode, kc2: Keycode): (r: bool)
      reads sequence
      requires sequence.Length == SequenceSize
      ensures r <==> Buffer() == [kc1, kc2, KC_NO, KC_NO, KC_NO]
    {
      SequenceIs(kc1, kc2, KC_NO, KC_NO, KC_NO, Buffer())
    }

    /** `leader_compose_sequence_three_keys`. */
    function ThreeKeys(kc1: Keycode, kc2: Keycode, kc3: Keycode): (r: bool)
      reads sequence
      requires sequence.Length == SequenceSize
      ensures r <==> Buffer() == [kc1, kc2, kc3, KC_NO, KC_NO]
    {
      SequenceIs(kc1, kc2, kc3, KC_NO, KC_NO, Buffer())
    }

    /** `leader_compose_sequence_four_keys`. */
    function FourKeys(kc1: Keycode, kc2: Keycode, kc3: Keycode, kc4: Keycode): (r: bool)
      reads sequence
      requires sequence.Length == SequenceSize
      ensures r <==> Buffer() == [kc1, kc2, kc3, kc4, KC_NO]
    {
      SequenceIs(kc1, kc2, kc3, kc4, KC_NO, Buffer())
    }

    /** `leader_compose_sequence_five_keys`. */
    function FiveKeys(kc1: Keycode, kc2: Keycode, kc3: Keycode, kc4: Keycode, kc5: Keycode): (r: bool)
      reads sequence
      requires sequence.Length == SequenceSize
      ensures r <==> Buffer() == [kc1, kc2, kc3, kc4, kc5]
    {
      SequenceIs(kc1, kc2, kc3, kc4, kc5, Buffer())
    }

    /** `leader_compose_match_held_sequence`: scan both slots for the pattern. */
    method MatchHeldSequence(key0: Keycode, key1: Keycode, key2: Keycode, key3: Keycode,
                             key4: Keycode) returns (r: int)
      requires Valid()
      ensures r == FirstMatch(HeldValue(), [key0, key1, key2, key3, key4])
    {
      // The early exit of the source compares the address of slot 0 with
      // KC_NO, which never holds, so the scan always runs.
      var i := 0;
      while i < 2
        invariant 0 <= i <= 2
        invariant forall j :: 0 <= j < i ==> Slot(j) != [key0, key1, key2, key3, key4]
      {
        if SequenceIs(key0, key1, key2, key3, key4, Slot(i)) {
          return i;
        }
        i := i + 1;
      }
      return -1;
    }

    /** `release_held_sequence`. */
    method ReleaseHeldSequence(index: int)
      requires Valid() && 0 <= index < 2
      modifies held
      ensures Valid()
      ensures HeldValue() == ReleaseSlot(old(HeldValue()), index)
    {
      if index == 0 && held[1, 0] != KC_NO {
        forall j | 0 <= j < SequenceSize {
          held[0, j] := held[1, j];
        }
        forall j | 0 <= j < SequenceSize {
          held[1, j] := KC_NO;
        }
        return;
      }
      forall j | 0 <= j < SequenceSize {
        held[index, j] := KC_NO;
      }
    }

    /** `leader_compose_register_sequence_held`. */
    method RegisterSequenceHeld(key0: Keycode, key1: Keycode, key2: Keycode, key3: Keycode,
                                key4: Keycode)
      requires Valid()
      modifies held
      ensures Valid()
      ensures HeldValue() == RegisterRow(old(HeldValue()), [key0, key1, key2, key3, key4])
    {
      var id := if held[0, 0] == KC_NO then 0 else 1;
      held[id, 0] := key0;
      held[id, 1] := key1;
      held[id, 2] := key2;
      held[id, 3] := key3;
      held[id, 4] := key4;
    }

    /** `leader_compose_release_sequence_one_key`. */
    method ReleaseSequenceOneKey(key0: Keycode) returns (found: bool)
      requires Valid()
      modifies held
      ensures Valid()
      ensures found <==> FirstMatch(old(HeldValue()), [key0, KC_NO, KC_NO, KC_NO, KC_NO]) != -1
      ensures HeldValue() == ReleaseMatching(old(HeldValue()), [key0, KC_NO, KC_NO, KC_NO, KC_NO])
    {
      var heldIndex := MatchHeldSequence(key0, KC_NO, KC_NO, KC_NO, KC_NO);
      if heldIndex == -1 {
        return false;
      }
      ReleaseHeldSequence(heldIndex);
      return true;
    }

    /** `leader_compose_release_sequence_two_keys`. */
    method ReleaseSequenceTwoKeys(key0: Keycode, key1: Keycode) returns (found: bool)
      requires Valid()
      modifies held
      ensures Valid()
      ensures found <==> FirstMatch(old(HeldValue()), [key0, key1, KC_NO, KC_NO, KC_NO]) != -1
      ensures HeldValue() == ReleaseMatching(old(HeldValue()), [key0, key1, KC_NO, KC_NO, KC_NO])
    {
      var heldIndex := MatchHeldSequence(key0, key1, KC_NO, KC_NO, KC_NO);
      if heldIndex == -1 {
        return false;
      }
      ReleaseHeldSequence(heldIndex);
      return true;
    }

    /** `leader_compose_release_sequence_three_keys`. */
    method ReleaseSequenceThreeKeys(key0: Keycode, key1: Keycode, key2: Keycode) returns (found: bool)
      requires Valid()
      modifies held
      ensures Valid()
      ensures found <==> FirstMatch(old(HeldValue()), [key0, key1, key2, KC_NO, KC_NO]) != -1
      ensures HeldValue() == ReleaseMatching(old(HeldValue()), [key0, key1, key2, KC_NO, KC_NO])
    {
      var heldIndex := MatchHeldSequence(key0, key1, key2, KC_NO, KC_NO);
      if heldIndex == -1 {
        return false;
      }
      ReleaseHeldSequence(heldIndex);
      return true;
    }

    /** `leader_compose_release_sequence_four_keys`. */
    method ReleaseSequenceFourKeys(key0: Keycode, key1: Keycode, key2: Keycode, key3: Keycode)
      returns (found: bool)
      requires Valid()
      modifies held
      ensures Valid()
      ensures found <==> FirstMatch(old(HeldValue()), [key0, key1, key2, key3, KC_NO]) != -1
      ensures HeldValue() == ReleaseMatching(old(HeldValue()), [key0, key1, key2, key3, KC_NO])
    {
      var heldIndex := MatchHeldSequence(key0, key1, key2, key3, KC_NO);
      if heldIndex == -1 {
        return false;
      }
      ReleaseHeldSequence(heldIndex);
      return true;
    }

    /** `leader_compose_release_sequence_five_keys`. */
    method ReleaseSequenceFiveKeys(key0: Keycode, key1: Keycode, key2: Keycode, key3: Keycode,
                                   key4: Keycode) returns (found: bool)
      requires Valid()
      modifies held
      ensures Valid()
      ensures found <==> FirstMatch(old(HeldValue()), [key0, key1, key2, key3, key4]) != -1
      ensures HeldValue() == ReleaseMatching(old(HeldValue()), [key0, key1, key2, key3, key4])
    {
      var heldIndex := MatchHeldSequence(key0, key1, key2, key3, key4);
      if heldIndex == -1 {
        return false;
      }
      ReleaseHeldSequence(heldIndex);
      return true;
    }
  }

  /** The buffer is always the keys collected so far, right-padded with `KC_NO`. */
  lemma BufferIsPaddedContents(e: Engine)
    requires e.Valid()
    ensures e.Buffer() == Pad(e.Contents())
  {
    var b, p := e.Buffer(), Pad(e.Contents());
    assert forall i :: 0 <= i < SequenceSize ==> b[i] == p[i];
  }

  /** The table held by a valid engine is compact. */
  lemma EngineHeldTableIsCompact(e: Engine)
    requires e.Valid()
    ensures Compact(e.HeldValue())
  {
  }
}
