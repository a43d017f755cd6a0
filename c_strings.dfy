/**
 * C character buffers seen as Dafny sequences: the string a NUL-terminated
 * buffer holds, `strncpy` into a fixed-size buffer, and Arduino's
 * `String::endsWith`.
 */
module CStrings {

  const NUL: char := '\0'

  /** The C string held by `s`: every character before the first NUL, or all of `s` when it has none. */
  function CStr(s: seq<char>): (r: seq<char>)
    ensures |r| <= |s| && r == s[..|r|]
    ensures NUL !in r
    ensures |r| < |s| ==> s[|r|] == NUL
  {
    if s == [] || s[0] == NUL then [] else [s[0]] + CStr(s[1..])
  }

  /** The contract of CStr pins it down: a prefix free of NUL followed by a NUL (or the end) is the C string. */
  lemma CStrIsFirstNulPrefix(s: seq<char>, k: nat)
    requires k <= |s|
    requires NUL !in s[..k]
    requires k < |s| ==> s[k] == NUL
    ensures CStr(s) == s[..k]
  {
    var r := CStr(s);
    assert forall i :: 0 <= i < k ==> s[..k][i] == s[i];
    assert forall i :: 0 <= i < |r| ==> r[i] == s[i];
  }

  /** A C string never holds a NUL, so reading it back changes nothing. */
  lemma CStrOfNulFree(s: seq<char>)
    requires NUL !in s
    ensures CStr(s) == s
  {
    CStrIsFirstNulPrefix(s, |s|);
  }

  /** `s` cut to at most `n` characters. */
  function Take(s: seq<char>, n: nat): (r: seq<char>)
    ensures |r| == if |s| <= n then |s| else n
    ensures r == s[..|r|]
  {
    if |s| <= n then s else s[..n]
  }

  /**
   * The `n`-byte buffer `strncpy(dst, src, n)` leaves: the C string of
   * `src`, cut at `n` bytes, padded with NULs up to `n` bytes.
   */
  function Strncpy(src: seq<char>, n: nat): (buf: seq<char>)
    ensures |buf| == n
  {
    var c := CStr(src);
    seq(n, i requires 0 <= i < n => if i < |c| then c[i] else NUL)
  }

  /**
   * What `strncpy` promises and does not: the buffer holds a NUL exactly when
   * the source is shorter than the buffer, and then it reads back as the source;
   * otherwise the buffer is the first `n` characters and is not terminated.
   */
  lemma StrncpyReadsBack(src: seq<char>, n: nat)
    ensures NUL in Strncpy(src, n) <==> |CStr(src)| < n
    ensures |CStr(src)| < n ==> CStr(Strncpy(src, n)) == CStr(src)
    ensures |CStr(src)| >= n ==> Strncpy(src, n) == CStr(src)[..n]
  {
    var c, buf := CStr(src), Strncpy(src, n);
    if |c| < n {
      assert buf[|c|] == NUL;
      assert buf[..|c|] == c;
      CStrIsFirstNulPrefix(buf, |c|);
    } else {
      assert buf == c[..n];
    }
  }

  /** The buffer with its last byte forced to NUL, as `buf[SIZE - 1] = '\0'` does. */
  function Terminate(buf: seq<char>): (r: seq<char>)
    requires |buf| > 0
    ensures |r| == |buf| && r[|r| - 1] == NUL
    ensures r[..|r| - 1] == buf[..|buf| - 1]
  {
    buf[..|buf| - 1] + [NUL]
  }

  /**
   * `strncpy` followed by a forced terminator always yields a terminated
   * buffer that reads back as the source cut to `n - 1` characters.
   */
  lemma {:induction false} TerminatedCopyReadsBack(src: seq<char>, n: nat)
    requires n > 0
    ensures NUL in Terminate(Strncpy(src, n))
    ensures CStr(Terminate(Strncpy(src, n))) == Take(CStr(src), n - 1)
  {
    var c, t := CStr(src), Terminate(Strncpy(src, n));
    var k := |Take(c, n - 1)|;
    assert t[n - 1] == NUL;
    assert t[..k] == Take(c, n - 1);
    CStrIsFirstNulPrefix(t, k);
  }

  /** Arduino's `String::endsWith`. */
  predicate EndsWith(s: seq<char>, suffix: seq<char>)
  {
    |suffix| <= |s| && s[|s| - |suffix|..] == suffix
  }
}
