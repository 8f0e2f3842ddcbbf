/*
 * The system LED of the external-IO block (realtek-eio.c): a 2-bit mode
 * field in the global control register, driven off, on, or blinking at
 * one of two hardware rates, with an optional active-low polarity.
 */
module Eio {
  /** The LED modes of the 2-bit field. */
  const SYS_LED_OFF: bv32 := 0
  const SYS_LED_BLINK_64MS: bv32 := 1
  const SYS_LED_BLINK_1024MS: bv32 := 2
  const SYS_LED_ON: bv32 := 3

  /** enum led_brightness: LED_OFF and LED_ON; any other non-zero value also means on. */
  const LED_OFF: nat := 0
  const LED_ON: nat := 1

  /** The two devices the driver matches. */
  datatype Variant = Eio8380 | Eio8390

  /** sys_led_pos of rtl8380_eio_data and rtl8390_eio_data. */
  function SysLedPos(v: Variant): (pos: bv32)
    ensures pos + 2 <= 32
  {
    match v
    case Eio8380 => 16
    case Eio8390 => 15
  }

  /** The mode field of a control-register value. */
  function LedField(val: bv32, pos: bv32): bv32
    requires pos <= 30
  {
    (val >> pos) & 0x3
  }

  /** regmap_update_bits(map, reg, mask, val): the bits of mask from val, the rest from orig. */
  function UpdateBits(orig: bv32, mask: bv32, val: bv32): bv32
  {
    (orig & !mask) | (val & mask)
  }

  /** The control register after realtek_sys_led_set(mode). */
  function WithMode(orig: bv32, pos: bv32, mode: bv32): bv32
    requires pos <= 30
  {
    UpdateBits(orig, 0x3 << pos, (mode & 0x3) << pos)
  }

  /** The field afterwards reads as the mode's low two bits. */
  lemma WithModeReads(orig: bv32, pos: bv32, mode: bv32)
    requires pos <= 30
    ensures LedField(WithMode(orig, pos, mode), pos) == mode & 0x3
  {
  }

  /** Every bit outside the field is kept. */
  lemma WithModeKeeps(orig: bv32, pos: bv32, mode: bv32)
    requires pos <= 30
    ensures WithMode(orig, pos, mode) & !(0x3 << pos) == orig & !(0x3 << pos)
  {
  }

  /** The mode realtek_sys_led_brightness_set writes for a brightness and polarity. */
  function ModeFor(activeLow: bool, brightness: nat): bv32
  {
    if (!activeLow && brightness == LED_OFF) || (activeLow && brightness != LED_OFF) then SYS_LED_OFF
    else SYS_LED_ON
  }

  /** The brightness realtek_sys_led_brightness_get reports for a field value and polarity. */
  function BrightnessOf(activeLow: bool, field: bv32): nat
  {
    if (!activeLow && field == SYS_LED_OFF) || (activeLow && field == SYS_LED_ON) then LED_OFF
    else LED_ON
  }

  /**
   * For either polarity, reading back what was set gives LED_OFF for
   * LED_OFF and LED_ON for any other brightness; so LED_OFF and LED_ON
   * read back unchanged.
   */
  lemma BrightnessRoundTrip(activeLow: bool, brightness: nat)
    ensures BrightnessOf(activeLow, ModeFor(activeLow, brightness)) == if brightness == LED_OFF then LED_OFF else LED_ON
  {
  }

  /** The drive level: active-low inverts which field value lights the LED. */
  lemma PolarityInverts(brightness: nat)
    ensures ModeFor(true, brightness) == if ModeFor(false, brightness) == SYS_LED_OFF then SYS_LED_ON else SYS_LED_OFF
  {
  }

  /** Both blinking modes read as on, whatever the polarity. */
  lemma BlinkReadsOn(activeLow: bool)
    ensures BrightnessOf(activeLow, SYS_LED_BLINK_64MS) == LED_ON
    ensures BrightnessOf(activeLow, SYS_LED_BLINK_1024MS) == LED_ON
  {
  }

  /** unsigned long and u32 are 32 bits wide on these SoCs. */
  const WORD: nat := 0x1_0000_0000
  type ULong = x: nat | x < WORD

  /**
   * The choice realtek_sys_led_blink_set makes for the requested delays:
   * the 32-bit sum of on and off time, split at 512 ms (twice the
   * geometric mean of the two rates); a zero interval means "pick one"
   * and gets the slow rate.
   */
  function BlinkChoice(delayOn: ULong, delayOff: ULong): (r: (ULong, ULong, bv32))
  {
    var interval := (delayOn + delayOff) % WORD;
    if interval == 0 || interval > 2 * 256 then (1024, 1024, SYS_LED_BLINK_1024MS)
    else (64, 64, SYS_LED_BLINK_64MS)
  }

  /** The choice is one of the two rates, its on and off times equal to the period the mode blinks at. */
  lemma BlinkChoiceRates(delayOn: ULong, delayOff: ULong)
    ensures var (on, off, mode) := BlinkChoice(delayOn, delayOff);
      on == off &&
      (mode == SYS_LED_BLINK_64MS <==> on == 64) &&
      (mode == SYS_LED_BLINK_1024MS <==> on == 1024)
  {
  }

  /** Asking again with the delays blink_set handed back selects the same rate: it is idempotent. */
  lemma BlinkIdempotent(delayOn: ULong, delayOff: ULong)
    ensures var (on, off, mode) := BlinkChoice(delayOn, delayOff);
      BlinkChoice(on, off) == (on, off, mode)
  {
  }

  /** Delays whose 32-bit sum wraps to zero are treated as a zero interval. */
  lemma BlinkWrapsToSlow()
    ensures BlinkChoice(WORD - 1, 1) == (1024, 1024, SYS_LED_BLINK_1024MS)
  {
  }

  /** One system LED: the global control register it lives in, its field position and polarity. */
  class SysLed {
    var globalCtrl: bv32
    const pos: bv32
    const activeLow: bool

    /** realtek_sys_led_probe: the variant fixes the field, the device tree the polarity. */
    constructor (v: Variant, activeLow: bool, ctrl: bv32)
      ensures pos == SysLedPos(v) && this.activeLow == activeLow && globalCtrl == ctrl
      ensures Valid()
    {
      this.pos := SysLedPos(v);
      this.activeLow := activeLow;
      globalCtrl := ctrl;
    }

    predicate Valid()
      reads this
    {
      pos <= 30
    }

    /** realtek_sys_led_set. */
    method Set(mode: bv32)
      requires Valid()
      modifies this
      ensures Valid()
      ensures globalCtrl == WithMode(old(globalCtrl), pos, mode)
    {
      var mask := 0x3 << pos;
      var val := (mode & 0x3) << pos;
      globalCtrl := (globalCtrl & !mask) | (val & mask);
    }

    /** realtek_sys_led_brightness_set. */
    method BrightnessSet(brightness: nat)
      requires Valid()
      modifies this
      ensures Valid()
      ensures globalCtrl == WithMode(old(globalCtrl), pos, ModeFor(activeLow, brightness))
    {
      if (!activeLow && brightness == LED_OFF) || (activeLow && brightness != LED_OFF) {
        Set(SYS_LED_OFF);
      } else {
        Set(SYS_LED_ON);
      }
    }

    /** realtek_sys_led_brightness_get. */
    method BrightnessGet() returns (brightness: nat)
      requires Valid()
      ensures brightness == BrightnessOf(activeLow, LedField(globalCtrl, pos))
      ensures brightness == LED_OFF || brightness == LED_ON
    {
      var val := (globalCtrl >> pos) & 0x3;
      if (!activeLow && val == SYS_LED_OFF) || (activeLow && val == SYS_LED_ON) {
        return LED_OFF;
      }
      return LED_ON;
    }

    /** realtek_sys_led_blink_set: always succeeds. */
    method BlinkSet(delayOn: ULong, delayOff: ULong) returns (ret: int, on: ULong, off: ULong)
      requires Valid()
      modifies this
      ensures Valid()
      ensures ret == 0
      ensures on == BlinkChoice(delayOn, delayOff).0 && off == BlinkChoice(delayOn, delayOff).1
      ensures globalCtrl == WithMode(old(globalCtrl), pos, BlinkChoice(delayOn, delayOff).2)
    {
      var interval := (delayOn + delayOff) % WORD;
      if interval == 0 || interval > 2 * 256 {
        on, off := 1024, 1024;
        Set(SYS_LED_BLINK_1024MS);
      } else {
        on, off := 64, 64;
        Set(SYS_LED_BLINK_64MS);
      }
      ret := 0;
    }
  }

  /** After blink_set the field holds the chosen blinking mode and the other bits are kept. */
  lemma BlinkSetReads(orig: bv32, v: Variant, delayOn: ULong, delayOff: ULong)
    ensures var pos := SysLedPos(v);
      var mode := BlinkChoice(delayOn, delayOff).2;
      LedField(WithMode(orig, pos, mode), pos) == mode &&
      WithMode(orig, pos, mode) & !(0x3 << pos) == orig & !(0x3 << pos)
  {
    var pos := SysLedPos(v);
    var mode := BlinkChoice(delayOn, delayOff).2;
    WithModeReads(orig, pos, mode);
    WithModeKeeps(orig, pos, mode);
    assert mode & 0x3 == mode;
  }

  /** Setting a brightness and reading it back through the register gives LED_OFF or LED_ON as set. */
  lemma SetThenGet(orig: bv32, v: Variant, activeLow: bool, brightness: nat)
    ensures var pos := SysLedPos(v);
      BrightnessOf(activeLow, LedField(WithMode(orig, pos, ModeFor(activeLow, brightness)), pos)) ==
      if brightness == LED_OFF then LED_OFF else LED_ON
  {
    var pos := SysLedPos(v);
    var mode := ModeFor(activeLow, brightness);
    WithModeReads(orig, pos, mode);
    assert mode & 0x3 == mode;
    BrightnessRoundTrip(activeLow, brightness);
  }
}
