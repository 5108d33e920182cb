/** The pieces of Python's `str` behaviour the pipeline relies on: whitespace, `strip`,
    `startswith`, `in`, slicing, ASCII `lower` and `str(int)`. */
module Text {
  import opened Common

  /** Python's `str.isspace`, which is also what `\s` matches in a `str` regular expression. */
  predicate IsSpace(c: char) {
    || '\t' <= c <= '\r'
    || '\U{1C}' <= c <= ' '
    || c == '\U{85}' || c == '\U{A0}' || c == '\U{1680}'
    || '\U{2000}' <= c <= '\U{200A}'
    || c == '\U{2028}' || c == '\U{2029}' || c == '\U{202F}' || c == '\U{205F}' || c == '\U{3000}'
  }

  predicate AllSpace(s: string) {
    forall i :: 0 <= i < |s| ==> IsSpace(s[i])
  }

  /** No whitespace at either end. */
  predicate Trimmed(s: string) {
    s == [] || (!IsSpace(s[0]) && !IsSpace(s[|s| - 1]))
  }

  /** `s.lstrip()`: the suffix left after dropping the leading whitespace. */
  function LStrip(s: string): (r: string)
    ensures |r| <= |s| && r == s[|s| - |r|..]
    ensures AllSpace(s[..|s| - |r|])
    ensures r == [] || !IsSpace(r[0])
  {
    if s != [] && IsSpace(s[0]) then
      var r := LStrip(s[1..]);
      assert s[1..][..|s| - 1 - |r|] == s[1..|s| - |r|];
      r
    else s
  }

  /** `s` is the whitespace `lstrip()` drops followed by what it keeps. */
  lemma LStripSplits(s: string)
    ensures var k := |s| - |LStrip(s)|;
            s == s[..k] + LStrip(s) && AllSpace(s[..k])
  {
    var r := LStrip(s);
    var k := |s| - |r|;
    assert r == s[k..];
    SplitAt(s, k);
  }

  lemma SplitAt(s: string, k: nat)
    requires k <= |s|
    ensures s == s[..k] + s[k..]
  {
  }

  /** `s.rstrip()`: the prefix left after dropping the trailing whitespace. */
  function RStrip(s: string): (r: string)
    ensures |r| <= |s| && r == s[..|r|]
    ensures AllSpace(s[|r|..])
    ensures r == [] || !IsSpace(r[|r| - 1])
  {
    if s != [] && IsSpace(s[|s| - 1]) then
      var r := RStrip(s[..|s| - 1]);
      assert s[..|s| - 1][|r|..] + [s[|s| - 1]] == s[|r|..];
      r
    else s
  }

  /** Where `s.strip()` starts: the number of leading whitespace characters it drops. */
  function StripStart(s: string): nat {
    |RStrip(s)| - |LStrip(RStrip(s))|
  }

  /** `s.strip()`: whitespace dropped at both ends. */
  function Strip(s: string): (r: string)
    ensures Trimmed(r) && |r| <= |s|
  {
    LStrip(RStrip(s))
  }

  /** What `strip()` keeps is the whitespace-free core `s[a..b]`: everything outside it is
      whitespace. */
  lemma StripCore(s: string)
    ensures var r := Strip(s);
            && StripStart(s) + |r| <= |s| && r == s[StripStart(s)..StripStart(s) + |r|]
            && AllSpace(s[..StripStart(s)]) && AllSpace(s[StripStart(s) + |r|..])
  {
    var t := RStrip(s);
    var r := LStrip(t);
    var a := |t| - |r|;
    assert StripStart(s) == a && a + |r| == |t|;
    assert t == s[..|t|] && r == t[a..];
    assert r == s[a..|t|];
    assert s[..a] == t[..a];
  }

  lemma StripOfTrimmed(s: string)
    requires Trimmed(s)
    ensures Strip(s) == s
  {
  }

  /** Stripping twice changes nothing further. */
  lemma StripIdempotent(s: string)
    ensures Strip(Strip(s)) == Strip(s)
  {
    StripOfTrimmed(Strip(s));
  }

  /** Trailing whitespace is only ever taken from the part after a non-blank head. */
  lemma {:induction false} RStripAfterHead(head: string, rest: string)
    requires head != [] && !IsSpace(head[|head| - 1])
    ensures RStrip(head + rest) == head + RStrip(rest)
    decreases |rest|
  {
    var s := head + rest;
    if rest == [] {
      assert s == head;
    } else if IsSpace(rest[|rest| - 1]) {
      var shorter := rest[..|rest| - 1];
      assert s[..|s| - 1] == head + shorter;
      RStripAfterHead(head, shorter);
      RStripAtSpace(s);
      RStripAtSpace(rest);
    } else {
      assert s[|s| - 1] == rest[|rest| - 1];
      RStripAtVisible(s);
      RStripAtVisible(rest);
    }
  }

  /** A trailing whitespace character is dropped and the rest is stripped on its own. */
  lemma RStripAtSpace(s: string)
    requires s != [] && IsSpace(s[|s| - 1])
    ensures RStrip(s) == RStrip(s[..|s| - 1])
  {
  }

  /** A string that ends in a visible character has nothing to strip on the right. */
  lemma RStripAtVisible(s: string)
    requires s != [] && !IsSpace(s[|s| - 1])
    ensures RStrip(s) == s
  {
  }

  /** A prefix without whitespace at either end survives `strip()` of the whole string. */
  lemma StripKeepsTrimmedHead(head: string, rest: string)
    requires head != [] && Trimmed(head)
    ensures Strip(head + rest) == head + RStrip(rest)
  {
    RStripAfterHead(head, rest);
    var t := head + RStrip(rest);
    assert t[0] == head[0];
  }

  /** `s.startswith(p)` */
  predicate StartsWith(s: string, p: string) {
    |p| <= |s| && s[..|p|] == p
  }

  /** `p` occurs in `s` starting at index `i`. */
  predicate OccursAt(s: string, p: string, i: nat) {
    i + |p| <= |s| && s[i..i + |p|] == p
  }

  /** An occurrence inside a slice is an occurrence in the whole string, shifted by the cut. */
  lemma OccursInSlice(s: string, lo: nat, hi: nat, p: string, q: nat)
    requires lo <= hi <= |s|
    ensures OccursAt(s[lo..hi], p, q) ==> OccursAt(s, p, lo + q)
  {
    if OccursAt(s[lo..hi], p, q) {
      var t := s[lo..hi];
      forall k | 0 <= k < |p| ensures s[lo + q + k] == p[k] {
        assert t[q..q + |p|][k] == t[q + k] == s[lo + q + k];
      }
    }
  }

  /** `p in s` */
  predicate Contains(s: string, p: string) {
    exists i: nat | i <= |s| :: OccursAt(s, p, i)
  }

  /** `s.find(p, j)`: the first occurrence of `p` at or after `j`. */
  function FindFrom(s: string, p: string, j: nat): (r: Option<nat>)
    decreases |s| - j
    ensures r.Some? ==> j <= r.value && OccursAt(s, p, r.value)
    ensures r.Some? ==> forall m: nat :: j <= m < r.value ==> !OccursAt(s, p, m)
    ensures r.None? ==> forall m: nat :: j <= m ==> !OccursAt(s, p, m)
  {
    if j + |p| > |s| then None
    else if s[j..j + |p|] == p then Some(j)
    else FindFrom(s, p, j + 1)
  }

  /** `s[:n]` for `n >= 0` */
  function Take(s: string, n: nat): (r: string)
    ensures |r| <= n && StartsWith(s, r)
    ensures |s| <= n ==> r == s
    ensures n <= |s| ==> |r| == n
  {
    if |s| <= n then s else s[..n]
  }

  /**
   * The last `n` characters: the source's `s[-1000:]` with `n = 1000`.
   * For `n = 0` this is the empty string, whereas Python's `s[-0:]` is the
   * whole of `s`; no caller slices with a zero width.
   */
  function TakeLast(s: string, n: nat): (r: string)
    ensures |r| <= n && |r| <= |s| && r == s[|s| - |r|..]
    ensures |s| <= n ==> r == s
    ensures n <= |s| ==> |r| == n
  {
    if |s| <= n then s else s[|s| - n..]
  }

  /** U+212A KELVIN SIGN, which Python's `str.lower` turns into `k`. */
  const KELVIN_SIGN: char := '\U{212A}'

  /**
   * `str.lower` on the characters whose lower case is an ASCII letter: the
   * ASCII capitals and the Kelvin sign. Every other character is left as it is.
   */
  function LowerChar(c: char): (d: char)
    ensures 'A' <= c <= 'Z' ==> d as int == c as int + 32
    ensures c == KELVIN_SIGN ==> d == 'k'
    ensures !('A' <= c <= 'Z') && c != KELVIN_SIGN ==> d == c
  {
    if 'A' <= c <= 'Z' then (c as int + 32) as char
    else if c == KELVIN_SIGN then 'k'
    else c
  }

  function Lower(s: string): (r: string)
    ensures |r| == |s|
    ensures forall i :: 0 <= i < |s| ==> r[i] == LowerChar(s[i])
  {
    seq(|s|, i requires 0 <= i < |s| => LowerChar(s[i]))
  }

  /** Case-insensitive comparison as `re.I` does it for the ASCII words compared here. */
  predicate EqualsIgnoreCase(s: string, t: string) {
    Lower(s) == Lower(t)
  }

  predicate IsDigit(c: char) {
    '0' <= c <= '9'
  }

  function DigitChar(d: nat): (c: char)
    requires d < 10
    ensures IsDigit(c) && c as int - '0' as int == d
  {
    ('0' as int + d) as char
  }

  /** A canonical decimal numeral: digits only, and no leading zero unless it is `0` itself. */
  predicate IsNumeral(s: string) {
    s != [] && (forall i :: 0 <= i < |s| ==> IsDigit(s[i])) && (s[0] == '0' ==> |s| == 1)
  }

  /** The number a string of digits denotes, read most significant digit first. */
  function NumeralValue(s: string): nat
    requires forall i :: 0 <= i < |s| ==> IsDigit(s[i])
  {
    if s == [] then 0
    else
      assert IsDigit(s[|s| - 1]);
      10 * NumeralValue(s[..|s| - 1]) + (s[|s| - 1] as int - '0' as int)
  }

  function NatToString(n: nat): (r: string)
    decreases n
    ensures r != []
  {
    if n < 10 then [DigitChar(n)] else NatToString(n / 10) + [DigitChar(n % 10)]
  }

  /** `str(n)` for a non-negative Python `int` is the canonical numeral of `n`. */
  lemma {:induction false} NatToStringDenotes(n: nat)
    ensures IsNumeral(NatToString(n))
    ensures NumeralValue(NatToString(n)) == n
    decreases n
  {
    var r := NatToString(n);
    if n >= 10 {
      var p := NatToString(n / 10);
      NatToStringDenotes(n / 10);
      assert r == p + [DigitChar(n % 10)];
      assert r[..|r| - 1] == p;
      assert r[0] == p[0];
      assert forall i :: 0 <= i < |r| ==> IsDigit(r[i]) by {
        forall i | 0 <= i < |r| ensures IsDigit(r[i]) {
          if i < |p| { assert r[i] == p[i]; }
        }
      }
    }
  }

  /** `str(n)` for a Python `int`. */
  function IntToString(n: int): (r: string)
    ensures r != []
    ensures (r[0] == '-') <==> n < 0
  {
    if n < 0 then "-" + NatToString(-n)
    else
      var r := NatToString(n);
      assert IsDigit(r[0]) by { NatToStringDenotes(n); }
      r
  }

  /**
   * `str(n)` denotes `n`: a canonical numeral of `n` when `n >= 0`, and `-`
   * followed by the canonical numeral of `-n` otherwise.
   */
  lemma IntToStringDenotes(n: int)
    ensures var r := IntToString(n);
      if n >= 0 then IsNumeral(r) && NumeralValue(r) == n
      else r[0] == '-' && IsNumeral(r[1..]) && NumeralValue(r[1..]) == -n
  {
    if n >= 0 {
      NatToStringDenotes(n);
    } else {
      NatToStringDenotes(-n);
      assert IntToString(n)[1..] == NatToString(-n);
    }
  }
}
