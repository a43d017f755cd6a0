/**
 * The fixed-width integers of the firmware (ESP8266/ESP32, where `long` is
 * 32 bits wide) and the C conversions between them. Dafny's `%` is
 * Euclidean, which is exactly the C conversion of any integer to an
 * unsigned type of the given width.
 */
module Ints {

  type u8 = x: int | 0 <= x < 0x100
  type u16 = x: int | 0 <= x < 0x1_0000
  type u32 = x: int | 0 <= x < 0x1_0000_0000

  const LONG_MAX: int := 0x7FFF_FFFF
  const LONG_MIN: int := -0x8000_0000

  /** The conversion `(uint8_t) x`. */
  function ToU8(x: int): (r: u8)
    ensures 0 <= x < 0x100 ==> r == x
    ensures (r - x) % 0x100 == 0
  {
    x % 0x100
  }

  /** The conversion `(uint16_t) x`. */
  function ToU16(x: int): (r: u16)
    ensures 0 <= x < 0x1_0000 ==> r == x
    ensures (r - x) % 0x1_0000 == 0
  {
    x % 0x1_0000
  }

  /** The conversion `(uint32_t) x`. */
  function ToU32(x: int): (r: u32)
    ensures 0 <= x < 0x1_0000_0000 ==> r == x
    ensures (r - x) % 0x1_0000_0000 == 0
  {
    x % 0x1_0000_0000
  }

  /** Narrowing to 16 bits and then to 8 gives the same byte as narrowing to 8 at once. */
  lemma NarrowTwice(x: int)
    ensures ToU8(ToU16(x)) == ToU8(x)
  {
    var q := x / 0x1_0000;
    var r := x % 0x1_0000;
    assert x == q * 0x1_0000 + r;
    assert q * 0x1_0000 == (q * 0x100) * 0x100;
  }
}
