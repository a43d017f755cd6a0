/**
 * The percent <-> level scaling both firmware variants use for the LED
 * brightness: a percentage 0..100 from the user is stored as a level
 * 0..255 (`((uint16_t) (v * 255)) / 100`), and a stored level is reported
 * as a percentage again (`((uint16_t) (b * 100)) / 255`).
 */
module Brightness {
  import opened Ints

  /** The level `cmd_set_brightness` hands to the LED driver for percentage `v`. */
  function PercentToLevel(v: u8): (level: nat)
    ensures v <= 100 ==> level <= 255
    ensures level * 100 <= v * 255 < level * 100 + 100
  {
    ToU16(v * 255) / 100
  }

  /** The percentage `cmd_get_brightness` reports for level `b`. */
  function LevelToPercent(b: u8): (p: u8)
    ensures p <= 100
    ensures p * 255 <= b * 100 < p * 255 + 255
  {
    ToU16(b * 100) / 255
  }

  /** Every accepted percentage 1..100 becomes a level in [2, 255]: a non-zero percentage never turns the strip dark. */
  lemma LevelRange(v: u8)
    requires 1 <= v <= 100
    ensures 2 <= PercentToLevel(v) <= 255
  {
  }

  /**
   * Setting a percentage and reading it back gives the percentage or one
   * less, never more; 1 % reads back as 0 %, 0 % and 100 % read back exactly.
   */
  lemma {:induction false} ReadBack(v: u8)
    requires v <= 100
    ensures var p := LevelToPercent(PercentToLevel(v)); p == v || p + 1 == v
    ensures v == 1 ==> LevelToPercent(PercentToLevel(v)) == 0
    ensures v == 0 || v == 100 ==> LevelToPercent(PercentToLevel(v)) == v
  {
    var level := PercentToLevel(v);
    var p := LevelToPercent(level);
    assert p * 255 <= level * 100 <= v * 255;
    assert v * 255 < level * 100 + 100 < p * 255 + 355;
    if v == 1 {
      assert level == 2;
    }
  }
}
