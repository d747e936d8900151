/**
  The firmware vocabulary the keymap code is written against: the C integer
  widths, QMK keycodes and modifier bits, RGB colours, and the calls into QMK
  whose source is not part of this model, recorded as an effect trace.

  Keycode values are QMK's published numbers. The proofs only rely on them
  being distinct and on which range (basic, mod-tap, layer-tap) they fall in.
 */
module Qmk {

  // ---------------------------------------------------------------------
  // C integer widths
  // ---------------------------------------------------------------------

  type U8 = x: int | 0 <= x < 0x100
  type U16 = x: int | 0 <= x < 0x1_0000
  type U32 = x: int | 0 <= x < 0x1_0000_0000

  const U16Max: U16 := 0xFFFF
  const U32Max: U32 := 0xFFFF_FFFF

  /** Conversion of any integer to `uint16_t` (reduction modulo 2^16). */
  function ToU16(x: int): (r: U16)
    ensures (r - x) % 0x1_0000 == 0
  {
    x % 0x1_0000
  }

  /** Conversion of any integer to `uint32_t` (reduction modulo 2^32). */
  function ToU32(x: int): (r: U32)
    ensures (r - x) % 0x1_0000_0000 == 0
  {
    x % 0x1_0000_0000
  }

  // ---------------------------------------------------------------------
  // Keycodes
  // ---------------------------------------------------------------------

  type Keycode = U16

  const KC_NO: Keycode := 0x0000
  const KC_TRNS: Keycode := 0x0001
  const KC_A: Keycode := 0x0004
  const KC_L: Keycode := 0x000F
  const KC_N: Keycode := 0x0011
  const KC_O: Keycode := 0x0012
  const KC_R: Keycode := 0x0015
  const KC_S: Keycode := 0x0016
  const KC_T: Keycode := 0x0017
  const KC_W: Keycode := 0x001A
  const KC_BACKSPACE: Keycode := 0x002A
  const KC_TAB: Keycode := 0x002B
  const KC_SPACE: Keycode := 0x002C
  const KC_MINUS: Keycode := 0x002D
  const KC_SLASH: Keycode := 0x0038

  /** `BR_SCLN` of the Brazilian ABNT2 layout sits on the US slash position. */
  const BR_SCLN: Keycode := KC_SLASH

  /** The leader key (`QK_LEADER`, also spelled `QK_LEAD`). */
  const QK_LEADER: Keycode := 0x7C58

  /** First keycode free for keymap-defined keycodes. */
  const SAFE_RANGE: Keycode := 0x7E40

  // Modifier-wrapped keycodes: the upper byte carries left-hand modifiers.
  const QK_LCTL: int := 0x0100
  const QK_LSFT: int := 0x0200
  const QK_LALT: int := 0x0400

  /** `S(kc)`, `C(kc)`, `LALT(kc)` on a basic keycode. */
  function S(kc: U8): Keycode { QK_LSFT + kc }
  function C(kc: U8): Keycode { QK_LCTL + kc }
  function LALT(kc: U8): Keycode { QK_LALT + kc }
  /** `LSA(kc)`: left Shift and left Alt. */
  function LSA(kc: U8): Keycode { QK_LSFT + QK_LALT + kc }
  /** `C(S(kc))`: left Ctrl and left Shift. */
  function CS(kc: U8): Keycode { QK_LCTL + QK_LSFT + kc }

  const KC_UNDS: Keycode := S(KC_MINUS)

  // Mod-tap and layer-tap ranges.
  const QK_MOD_TAP: int := 0x2000
  const QK_MOD_TAP_MAX: int := 0x3FFF
  const QK_LAYER_TAP: int := 0x4000
  const QK_LAYER_TAP_MAX: int := 0x4FFF

  /** Five-bit modifier encoding used inside mod-tap keycodes. */
  const MOD_LALT: int := 0x04
  const MOD_LGUI: int := 0x08
  const MOD_RGUI: int := 0x18

  /** `MT(mod, kc)`: hold for the modifiers, tap for `kc`. */
  function MT(mod: int, kc: U8): (r: Keycode)
    requires 0 <= mod < 0x20
    ensures QK_MOD_TAP <= r <= QK_MOD_TAP_MAX
  {
    QK_MOD_TAP + mod * 0x100 + kc
  }

  /** `LT(layer, kc)`: hold for the layer, tap for `kc`. */
  function LT(layer: int, kc: U8): (r: Keycode)
    requires 0 <= layer < 0x10
    ensures QK_LAYER_TAP <= r <= QK_LAYER_TAP_MAX
  {
    QK_LAYER_TAP + layer * 0x100 + kc
  }

  predicate IsModTap(kc: Keycode) { QK_MOD_TAP <= kc <= QK_MOD_TAP_MAX }
  predicate IsLayerTap(kc: Keycode) { QK_LAYER_TAP <= kc <= QK_LAYER_TAP_MAX }

  /** The tap keycode of a mod-tap or layer-tap keycode: its low byte. */
  function TapKeycode(kc: Keycode): (r: Keycode)
    ensures r < 0x100
    ensures (kc - r) % 0x100 == 0
  {
    kc % 0x100
  }

  // ---------------------------------------------------------------------
  // Modifier bits (8-bit HID layout)
  // ---------------------------------------------------------------------

  type Mods = bv8

  const MOD_BIT_LCTRL: Mods := 0x01
  const MOD_BIT_LSHIFT: Mods := 0x02
  const MOD_BIT_LALT: Mods := 0x04
  const MOD_BIT_RCTRL: Mods := 0x10
  const MOD_BIT_RSHIFT: Mods := 0x20
  const MOD_MASK_CS: Mods := 0x33
  const MOD_MASK_CA: Mods := 0x55

  // ---------------------------------------------------------------------
  // Colours and the LED matrix
  // ---------------------------------------------------------------------

  /** `RGB_MATRIX_LED_COUNT` of the Voyager. */
  const LedCount: nat := 52

  datatype Rgb = Rgb(r: U8, g: U8, b: U8)

  const Black: Rgb := Rgb(0, 0, 0)

  // ---------------------------------------------------------------------
  // Calls into the firmware, recorded in order
  // ---------------------------------------------------------------------

  datatype Effect =
    | RegisterCode(code: Keycode)        // register_code
    | UnregisterCode(code: Keycode)      // unregister_code
    | RegisterCode16(code: Keycode)      // register_code16
    | UnregisterCode16(code: Keycode)    // unregister_code16
    | TapCode16(code: Keycode)           // tap_code16
    | RegisterMods(mods: Mods)           // register_mods
    | UnregisterMods(mods: Mods)         // unregister_mods
    | SetOneshotMods(mods: Mods)         // set_oneshot_mods
    | SetLastMods(mods: Mods)            // set_last_mods
    | SetLastKeycode(code: Keycode)      // set_last_keycode
    | ClearOneshotLockedMods             // clear_oneshot_locked_mods
    | CapsWordToggle                     // caps_word_toggle
    | SendTap(code: Keycode)             // SEND_STRING(SS_TAP(..))
    | WaitMs(ms: nat)                    // wait_ms
    | CustomRepeat(pressed: bool)        // the CUSTOM_REPEAT re-entry into process_record
    | UserStart                          // leader_compose_start_user was called
    | UserEnd                            // leader_compose_end_user was called
}
