/**
 * The application status byte STATUS_APPLI and the `_set`, `_unset` and
 * `_isset` macros the command layer uses on it. The flag values themselves
 * (STATUS_APPLI_AUTOLUM, STATUS_APPLI_STATUS_LED, ...) are declared in
 * status.hpp, which is not part of this model; every one of them is a
 * single bit, which is all the model relies on.
 */
module StatusBits {

  /** A mask with exactly one bit set. */
  type Flag = m: bv8 | m != 0 && m & (m - 1) == 0 witness 1

  /** `_set(x, m)`: the bits of `m` raised, every other bit kept. */
  function Set(x: bv8, m: Flag): (r: bv8)
    ensures IsSet(r, m)
    ensures r & !(m as bv8) == x & !(m as bv8)
  {
    x | m
  }

  /** `_unset(x, m)`: the bits of `m` cleared, every other bit kept. */
  function Unset(x: bv8, m: Flag): (r: bv8)
    ensures !IsSet(r, m)
    ensures r & !(m as bv8) == x & !(m as bv8)
  {
    x & !(m as bv8)
  }

  /** `_isset(x, m)`: the flag is set exactly when clearing it would change the byte. */
  predicate IsSet(x: bv8, m: Flag): (b: bool)
    ensures b <==> x & !(m as bv8) != x
  {
    x & m != 0
  }

  /** Raising or clearing one flag leaves the reading of a different flag alone. */
  lemma OtherFlagKept(x: bv8, r: bv8, m: Flag, other: Flag)
    requires r & !(m as bv8) == x & !(m as bv8)
    requires other != m
    ensures IsSet(r, other) == IsSet(x, other)
  {
  }
}
