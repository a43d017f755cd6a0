/**
 * Numbers as text, the way the firmware's C library handles them:
 * `ultoa` (behind Arduino's `String(value, base)`) writes an unsigned value
 * in base 10 or 16 with lower-case digits and no leading zeros, and
 * `strtol` (behind `String::toInt`, which is `atol`, and behind the colour
 * parser) reads a 32-bit `long` back, following section 7.22.1.4 of the
 * C11 standard in the "C" locale.
 */
module NumberText {
  import opened Ints

  type Base = b: nat | b == 10 || b == 16 witness 10

  predicate IsDigit(c: char, base: Base)
  {
    '0' <= c <= '9' || (base == 16 && ('a' <= c <= 'f' || 'A' <= c <= 'F'))
  }

  predicate AllDigits(s: string, base: Base)
  {
    forall i :: 0 <= i < |s| ==> IsDigit(s[i], base)
  }

  /** No upper-case letter anywhere in `s`. */
  predicate NoUpperCase(s: string)
  {
    forall i :: 0 <= i < |s| ==> !('A' <= s[i] <= 'Z')
  }

  function DigitValue(c: char, base: Base): (d: nat)
    requires IsDigit(c, base)
    ensures d < base
  {
    if '0' <= c <= '9' then c as nat - '0' as nat
    else if 'a' <= c <= 'f' then c as nat - 'a' as nat + 10
    else c as nat - 'A' as nat + 10
  }

  /** The digit `ultoa` writes for `d`: lower-case letters above 9. */
  function DigitChar(d: nat, base: Base): (c: char)
    requires d < base
    ensures IsDigit(c, base) && DigitValue(c, base) == d
    ensures !('A' <= c <= 'Z')
  {
    if d < 10 then ('0' as nat + d) as char else ('a' as nat + d - 10) as char
  }

  function Pow(base: Base, k: nat): (p: nat)
    ensures p >= 1
  {
    if k == 0 then 1 else base * Pow(base, k - 1)
  }

  /** `ultoa(n, buf, base)`: the digits of `n`, most significant first, "0" for zero. */
  function Ultoa(n: nat, base: Base): (s: string)
    ensures 1 <= |s| && AllDigits(s, base) && NoUpperCase(s)
    decreases n
  {
    if n < base then [DigitChar(n, base)] else Ultoa(n / base, base) + [DigitChar(n % base, base)]
  }

  /**
   * The digit loop of `strtol`: starting from `acc`, consume the leading
   * digits of `s` and stop at the first character that is not one.
   */
  function Accumulate(s: string, base: Base, acc: nat): nat
  {
    if s == [] || !IsDigit(s[0], base) then acc
    else Accumulate(s[1..], base, acc * base + DigitValue(s[0], base))
  }

  /** The value of a run of digits. */
  function DigitsValue(s: string, base: Base): nat
  {
    Accumulate(s, base, 0)
  }

  lemma {:induction false} AccumulateAppend(a: string, c: char, base: Base, acc: nat)
    requires AllDigits(a, base) && IsDigit(c, base)
    ensures Accumulate(a + [c], base, acc) == Accumulate(a, base, acc) * base + DigitValue(c, base)
  {
    if a != [] {
      assert (a + [c])[1..] == a[1..] + [c];
      AccumulateAppend(a[1..], c, base, acc * base + DigitValue(a[0], base));
    }
  }

  /** Reading back what `ultoa` wrote gives the value again. */
  lemma {:induction false} UltoaReadsBack(n: nat, base: Base)
    ensures DigitsValue(Ultoa(n, base), base) == n
    decreases n
  {
    if n >= base {
      var c := DigitChar(n % base, base);
      assert Ultoa(n, base) == Ultoa(n / base, base) + [c];
      UltoaReadsBack(n / base, base);
      AccumulateAppend(Ultoa(n / base, base), c, base, 0);
      assert DigitValue(c, base) == n % base;
      calc {
        DigitsValue(Ultoa(n, base), base);
        Accumulate(Ultoa(n / base, base) + [c], base, 0);
        Accumulate(Ultoa(n / base, base), base, 0) * base + n % base;
        (n / base) * base + n % base;
      }
    } else {
      var c := DigitChar(n, base);
      assert Ultoa(n, base) == [c];
      assert [c][1..] == [];
      assert Accumulate([c], base, 0) == Accumulate([], base, DigitValue(c, base));
    }
  }

  /** A value below `base^k` takes at most `k` digits. */
  lemma {:induction false} UltoaLength(n: nat, base: Base, k: nat)
    requires 1 <= k && n < Pow(base, k)
    ensures |Ultoa(n, base)| <= k
    decreases k
  {
    if n >= base {
      var p := Pow(base, k - 1);
      assert n < base * p;
      assert n / base < p by {
        assert (n / base) * base <= n;
      }
      assert p > 1;
      UltoaLength(n / base, base, k - 1);
    }
  }

  /** `k` digits are worth less than `base^k`, whatever was accumulated before them. */
  lemma {:induction false} AccumulateBound(s: string, base: Base, acc: nat)
    requires AllDigits(s, base)
    ensures Accumulate(s, base, acc) < (acc + 1) * Pow(base, |s|)
  {
    if s != [] {
      var d := DigitValue(s[0], base);
      var p := Pow(base, |s| - 1);
      var next := acc * base + d;
      assert Accumulate(s, base, acc) == Accumulate(s[1..], base, next);
      AccumulateBound(s[1..], base, next);
      NextDigitBound(acc, d, base, p);
    }
  }

  /** One more digit keeps the bound: `(acc * base + d + 1) * p <= (acc + 1) * (base * p)` for `d < base`. */
  lemma NextDigitBound(acc: nat, d: nat, base: Base, p: nat)
    requires d < base
    ensures (acc * base + d + 1) * p <= (acc + 1) * Pow(base, 1) * p
    ensures (acc + 1) * Pow(base, 1) * p == (acc + 1) * (base * p)
  {
    assert acc * base + d + 1 <= (acc + 1) * base;
    MulLeft(acc * base + d + 1, (acc + 1) * base, p);
  }

  /** Leading zeros do not change the value of a run of digits. */
  lemma LeadingZero(s: string, base: Base)
    ensures DigitsValue("0" + s, base) == DigitsValue(s, base)
  {
    assert ("0" + s)[1..] == s;
  }

  predicate IsSpace(c: char)
  {
    c == ' ' || c == '\t' || c == '\n' || c == '\U{0B}' || c == '\U{0C}' || c == '\r'
  }

  function SkipSpace(s: string): (r: string)
    ensures |r| <= |s| && r == s[|s| - |r|..]
    ensures r == [] || !IsSpace(r[0])
  {
    if s != [] && IsSpace(s[0]) then SkipSpace(s[1..]) else s
  }

  /**
   * `strtol(s, NULL, base)` on a 32-bit `long`: leading white space, an
   * optional sign, for base 16 an optional "0x"/"0X", then digits; a value
   * out of range saturates to LONG_MAX or LONG_MIN.
   */
  function Strtol(s: string, base: Base): (r: int)
    ensures LONG_MIN <= r <= LONG_MAX
  {
    var t := SkipSpace(s);
    var negative := t != [] && t[0] == '-';
    var u := if t != [] && (t[0] == '-' || t[0] == '+') then t[1..] else t;
    var w := if base == 16 && |u| >= 2 && u[0] == '0' && (u[1] == 'x' || u[1] == 'X') then u[2..] else u;
    var magnitude := DigitsValue(w, base);
    if negative then
      (if magnitude > -LONG_MIN then LONG_MIN else -(magnitude as int))
    else
      (if magnitude > LONG_MAX then LONG_MAX else magnitude)
  }

  /** Arduino's `String::toInt`: `atol`, which is `strtol` in base 10. */
  function ToInt(s: string): (r: int)
    ensures LONG_MIN <= r <= LONG_MAX
  {
    Strtol(s, 10)
  }

  /**
   * A plain run of up to six hex digits is read by `strtol` as its value:
   * nothing saturates and nothing is taken for a sign or a prefix.
   */
  lemma ShortHexParses(s: string)
    requires 1 <= |s| <= 6 && AllDigits(s, 16)
    ensures Strtol(s, 16) == DigitsValue(s, 16) < 0x100_0000
  {
    assert SkipSpace(s) == s;
    AccumulateBound(s, 16, 0);
    PowMonotone(16, |s|, 6);
    assert Pow(16, 6) == 0x100_0000;
  }

  /** If `x <= y` then `x * p <= y * p` for `p >= 0`; kept apart so the solver meets no other products with it. */
  lemma MulLeft(x: nat, y: nat, p: nat)
    requires x <= y
    ensures x * p <= y * p
  {
  }

  lemma {:induction false} PowMonotone(base: Base, j: nat, k: nat)
    requires j <= k
    ensures Pow(base, j) <= Pow(base, k)
    decreases k
  {
    if j < k {
      PowMonotone(base, j, k - 1);
    }
  }

  /** A run of decimal digits worth at most LONG_MAX is read by `toInt` as its value. */
  lemma DecimalParses(s: string)
    requires 1 <= |s| && AllDigits(s, 10) && DigitsValue(s, 10) <= LONG_MAX
    ensures ToInt(s) == DigitsValue(s, 10)
  {
    assert SkipSpace(s) == s;
  }
}
