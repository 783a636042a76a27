/** The JavaScript built-ins the components rely on, stated exactly:
    `String.prototype.trim`, the decimal rendering of a non-negative integer in a
    template literal, `Array.prototype.join(", ")`, and `Math.round` of a
    percentage of two counters. */
module Js {

  // ---------------------------------------------------------------------------
  // String.prototype.trim

  /** The characters `trim` removes: the ECMAScript WhiteSpace and
      LineTerminator code points. */
  predicate IsWhitespace(c: char) {
    var k := c as int;
    (0x09 <= k <= 0x0D) || k == 0x20 || k == 0xA0 || k == 0x1680 ||
    (0x2000 <= k <= 0x200A) || k == 0x2028 || k == 0x2029 || k == 0x202F ||
    k == 0x205F || k == 0x3000 || k == 0xFEFF
  }

  predicate AllWhitespace(s: string) {
    forall i :: 0 <= i < |s| ==> IsWhitespace(s[i])
  }

  /** Number of leading whitespace characters. */
  function LeadingWhitespace(s: string): (n: nat)
    ensures n <= |s|
    ensures AllWhitespace(s[..n])
    ensures n < |s| ==> !IsWhitespace(s[n])
  {
    if s == [] || !IsWhitespace(s[0]) then 0
    else
      var tail := s[1..];
      var m := LeadingWhitespace(tail);
      var front := s[..m + 1];
      assert AllWhitespace(front) by {
        forall i | 0 <= i < |front|
          ensures IsWhitespace(front[i])
        {
          if i > 0 {
            assert front[i] == tail[..m][i - 1];
          }
        }
      }
      m + 1
  }

  /** Number of trailing whitespace characters. */
  function TrailingWhitespace(s: string): (n: nat)
    ensures n <= |s|
    ensures AllWhitespace(s[|s| - n..])
    ensures n < |s| ==> !IsWhitespace(s[|s| - 1 - n])
  {
    if s == [] || !IsWhitespace(s[|s| - 1]) then 0
    else
      var init := s[..|s| - 1];
      var m := TrailingWhitespace(init);
      var back := s[|s| - (m + 1)..];
      assert AllWhitespace(back) by {
        forall i | 0 <= i < |back|
          ensures IsWhitespace(back[i])
        {
          if i < m {
            assert back[i] == init[|init| - m..][i];
          }
        }
      }
      m + 1
  }

  function TrimStart(s: string): string {
    s[LeadingWhitespace(s)..]
  }

  function TrimEnd(s: string): string {
    s[..|s| - TrailingWhitespace(s)]
  }

  /** `s.trim()`: the longest slice of `s` that neither starts nor ends with
      whitespace, obtained by dropping only whitespace. */
  function Trim(s: string): (r: string)
    ensures |r| <= |s|
    ensures r == [] || (!IsWhitespace(r[0]) && !IsWhitespace(r[|r| - 1]))
  {
    TrimEnd(TrimStart(s))
  }

  /** A string is blank after trimming exactly when it consists of whitespace. */
  lemma {:induction false} TrimBlankIff(s: string)
    ensures Trim(s) == [] <==> AllWhitespace(s)
  {
    var t := TrimStart(s);
    var k := LeadingWhitespace(s);
    if AllWhitespace(s) {
      assert k == |s|;
    } else {
      assert k < |s|;
      assert t != [] && !IsWhitespace(t[0]);
      assert TrailingWhitespace(t) < |t|;
    }
  }

  /** Trimming a string that is already trimmed changes nothing. */
  lemma {:induction false} TrimTrimmed(s: string)
    requires s == [] || (!IsWhitespace(s[0]) && !IsWhitespace(s[|s| - 1]))
    ensures Trim(s) == s
  {
    assert LeadingWhitespace(s) == 0;
    assert s[0..] == s;
    assert TrailingWhitespace(s) == 0;
    assert s[..|s|] == s;
  }

  /** `trim` is idempotent. */
  lemma TrimIdempotent(s: string)
    ensures Trim(Trim(s)) == Trim(s)
  {
    TrimTrimmed(Trim(s));
  }

  /** JavaScript truthiness of a string: only the empty string is falsy. */
  predicate Truthy(s: string) {
    s != []
  }

  // ---------------------------------------------------------------------------
  // Decimal rendering of non-negative integers (`${n}`)

  predicate IsDigit(c: char) {
    '0' <= c <= '9'
  }

  predicate AllDigits(s: string) {
    forall i :: 0 <= i < |s| ==> IsDigit(s[i])
  }

  function DigitChar(d: nat): (c: char)
    requires d < 10
    ensures IsDigit(c)
  {
    "0123456789"[d]
  }

  function DigitValue(c: char): nat
    requires IsDigit(c)
  {
    (c as int - '0' as int) as nat
  }

  /** `${n}` for a non-negative integer: its decimal digits, without leading zeros. */
  function NatToString(n: nat): (r: string)
    ensures |r| > 0 && AllDigits(r)
    ensures r[0] == '0' ==> n == 0
  {
    if n < 10 then [DigitChar(n)]
    else NatToString(n / 10) + [DigitChar(n % 10)]
  }

  /** Reads a string of decimal digits back as a number. */
  function ParseDigits(s: string): nat
    requires AllDigits(s)
  {
    if s == [] then 0
    else 10 * ParseDigits(s[..|s| - 1]) + DigitValue(s[|s| - 1])
  }

  /** Reading back the decimal rendering gives the number again. */
  lemma {:induction false} ParseNatToString(n: nat)
    ensures ParseDigits(NatToString(n)) == n
  {
    var s := NatToString(n);
    if n >= 10 {
      ParseNatToString(n / 10);
      assert s[..|s| - 1] == NatToString(n / 10);
      assert DigitValue(s[|s| - 1]) == n % 10 by {
        assert s[|s| - 1] == "0123456789"[n % 10];
      }
    } else {
      assert DigitValue(s[0]) == n by {
        assert s[0] == "0123456789"[n];
      }
      assert s[..0] == [];
    }
  }

  /** Distinct numbers render as distinct strings. */
  lemma NatToStringInjective(m: nat, n: nat)
    requires NatToString(m) == NatToString(n)
    ensures m == n
  {
    ParseNatToString(m);
    ParseNatToString(n);
  }

  /** Two strings `t + s`, each a prefix ending in `-` followed by digits, split
      at the same place. */
  lemma DigitsAfterLastDash(t1: string, s1: string, t2: string, s2: string)
    requires |t1| > 0 && t1[|t1| - 1] == '-' && |t2| > 0 && t2[|t2| - 1] == '-'
    requires AllDigits(s1) && AllDigits(s2)
    requires t1 + s1 == t2 + s2
    ensures |s1| == |s2|
  {
    var a := t1 + s1;
    assert a[|t1| - 1] == '-' && a[|t2| - 1] == '-';
    assert forall k :: |t1| <= k < |a| ==> a[k] == s1[k - |t1|] && a[k] != '-';
    assert forall k :: |t2| <= k < |a| ==> a[k] == s2[k - |t2|] && a[k] != '-';
  }

  // ---------------------------------------------------------------------------
  // Array.prototype.join(", ") and its inverse

  const Separator: string := ", "

  /** `xs.join(", ")`. */
  function Join(xs: seq<string>): string {
    if xs == [] then ""
    else if |xs| == 1 then xs[0]
    else xs[0] + Separator + Join(xs[1..])
  }

  /** Splits at every `", "`, scanning from the left. */
  function Split(s: string): (parts: seq<string>)
    ensures |parts| > 0
    decreases |s|
  {
    if s == [] then [""]
    else if |s| >= 2 && s[..2] == Separator then [""] + Split(s[2..])
    else
      var rest := Split(s[1..]);
      [[s[0]] + rest[0]] + rest[1..]
  }

  predicate NoComma(s: string) {
    forall i :: 0 <= i < |s| ==> s[i] != ','
  }

  /** A comma-free prefix is glued to the first part. */
  lemma {:induction false} SplitPrefix(x: string, t: string)
    requires NoComma(x)
    ensures Split(x + t) == [x + Split(t)[0]] + Split(t)[1..]
    decreases |x|
  {
    if x == [] {
      assert x + t == t;
      var parts := Split(t);
      assert x + parts[0] == parts[0];
      assert parts == [parts[0]] + parts[1..];
    } else {
      var s := x + t;
      assert s[0] == x[0] && s[0] != ',';
      assert s[1..] == x[1..] + t;
      SplitPrefix(x[1..], t);
      assert [x[0]] + (x[1..] + Split(t)[0]) == x + Split(t)[0];
    }
  }

  /** Splitting a joined list of comma-free strings gives the list back. */
  lemma {:induction false} SplitJoin(xs: seq<string>)
    requires |xs| > 0
    requires forall i :: 0 <= i < |xs| ==> NoComma(xs[i])
    ensures Split(Join(xs)) == xs
  {
    if |xs| == 1 {
      SplitPrefix(xs[0], "");
      assert xs[0] + "" == xs[0];
    } else {
      var rest := Join(xs[1..]);
      SplitJoin(xs[1..]);
      assert xs[0] + Separator + rest == xs[0] + (Separator + rest);
      SplitPrefix(xs[0], Separator + rest);
      assert (Separator + rest)[..2] == Separator;
      assert (Separator + rest)[2..] == rest;
      assert xs[0] + "" == xs[0];
    }
  }

  // ---------------------------------------------------------------------------
  // Math.round((c / t) * 100) with the `t > 0` guard the components use

  /** The rounded percentage `c` is of `t`, and 0 when `t` is 0: the nearest
      integer to 100·c/t, halves rounded up. */
  function RoundPercent(c: nat, t: nat): (p: nat)
    ensures t == 0 ==> p == 0
    ensures t > 0 ==> 2 * t * p <= 200 * c + t < 2 * t * p + 2 * t
    ensures c <= t ==> p <= 100
  {
    if t == 0 then 0
    else
      var n, d := 200 * c + t, 2 * t;
      var q := n / d;
      assert d * q + n % d == n;
      assert c <= t ==> q <= 100 by {
        if c <= t && q > 100 {
          MulAtLeast(d, q, 101);
          assert false;
        }
      }
      q
  }

  lemma MulAtLeast(d: nat, q: nat, k: nat)
    requires q >= k
    ensures d * q >= d * k
  {
    assert d * q == d * k + d * (q - k);
  }
}
