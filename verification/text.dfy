/**
 * Character classes and string helpers shared by the Java-side and C++-side models.
 * The classes follow java.util.regex without UNICODE_CHARACTER_CLASS:
 * \w is [A-Za-z0-9_], \s is [ \t\n\x0B\f\r], \d is [0-9]; `.` stops at line terminators.
 */
module Text {

  predicate IsDigit(c: char) { '0' <= c <= '9' }

  predicate IsHexDigit(c: char) { IsDigit(c) || 'a' <= c <= 'f' || 'A' <= c <= 'F' }

  predicate IsWordChar(c: char) { IsDigit(c) || 'a' <= c <= 'z' || 'A' <= c <= 'Z' || c == '_' }

  /** Java's \s. */
  predicate IsJavaSpace(c: char) {
    c == ' ' || c == '\t' || c == '\n' || c == '\U{000B}' || c == '\U{000C}' || c == '\r'
  }

  /** The characters that Java's `.` does not match without DOTALL. */
  predicate IsLineTerminator(c: char) {
    c == '\n' || c == '\r' || c == '\U{0085}' || c == '\U{2028}' || c == '\U{2029}'
  }

  /** The characters String.trim() removes: every code point up to U+0020. */
  predicate IsTrimmable(c: char) { c <= ' ' }

  lemma SpaceIsTrimmable(c: char)
    ensures IsJavaSpace(c) ==> IsTrimmable(c)
  {
  }

  predicate StartsWith(s: string, prefix: string) {
    |prefix| <= |s| && s[..|prefix|] == prefix
  }

  predicate EndsWith(s: string, suffix: string) {
    |suffix| <= |s| && s[|s| - |suffix|..] == suffix
  }

  /** Text written in front of a string keeps its suffixes. */
  lemma EndsWithExtend(prefix: string, s: string, suffix: string)
    requires EndsWith(s, suffix)
    ensures EndsWith(prefix + s, suffix)
  {
    assert (prefix + s)[|prefix + s| - |suffix|..] == s[|s| - |suffix|..];
  }

  predicate OccursAt(s: string, t: string, i: nat) {
    i + |t| <= |s| && s[i..i + |t|] == t
  }

  /** String.contains. */
  predicate Contains(s: string, t: string) {
    exists i: nat :: i <= |s| && OccursAt(s, t, i)
  }

  predicate AllChars(s: string, p: char -> bool) {
    forall k :: 0 <= k < |s| ==> p(s[k])
  }

  /** Java's String.trim(). */
  function TrimStart(s: string): (r: string)
    ensures |r| <= |s| && r == s[|s| - |r|..]
    ensures r == [] || !IsTrimmable(r[0])
    ensures forall k :: 0 <= k < |s| - |r| ==> IsTrimmable(s[k])
    decreases |s|
  {
    if |s| > 0 && IsTrimmable(s[0]) then TrimStart(s[1..]) else s
  }

  function TrimEnd(s: string): (r: string)
    ensures |r| <= |s| && r == s[..|r|]
    ensures r == [] || !IsTrimmable(r[|r| - 1])
    ensures forall k :: |r| <= k < |s| ==> IsTrimmable(s[k])
    decreases |s|
  {
    if |s| > 0 && IsTrimmable(s[|s| - 1]) then TrimEnd(s[..|s| - 1]) else s
  }

  function Trim(s: string): (r: string)
    ensures r == [] || (!IsTrimmable(r[0]) && !IsTrimmable(r[|r| - 1]))
  {
    var t := TrimStart(s);
    var r := TrimEnd(t);
    assert r == [] || r[0] == t[0];
    r
  }

  /** Trim only removes blanks: a printable character anywhere keeps the result non-empty. */
  lemma TrimKeepsPrintable(s: string, i: nat)
    requires i < |s| && !IsTrimmable(s[i])
    ensures Trim(s) != []
  {
    var t := TrimStart(s);
    assert |t| > 0 && !IsTrimmable(t[0]);
    assert TrimEnd(t) != [] by {
      assert !IsTrimmable(t[0]);
    }
  }

  /** A string that already starts and ends with a printable character is left unchanged by trim. */
  lemma TrimNoop(s: string)
    requires s == [] || (!IsTrimmable(s[0]) && !IsTrimmable(s[|s| - 1]))
    ensures Trim(s) == s
  {
  }

  /** Concatenation regrouped, for the steps the solver does not take on its own. */
  lemma AppendAssociative<T>(a: seq<T>, b: seq<T>, c: seq<T>)
    ensures a + (b + c) == (a + b) + c
  {
  }

  /** xs joined with sep between consecutive elements, as an ostream loop writing ", " before all but the first. */
  function Join(xs: seq<string>, sep: string): (r: string)
    decreases |xs|
  {
    if |xs| == 0 then "" else if |xs| == 1 then xs[0] else Join(xs[..|xs| - 1], sep) + sep + xs[|xs| - 1]
  }

  function SumLengths(xs: seq<string>): nat
    decreases |xs|
  {
    if |xs| == 0 then 0 else SumLengths(xs[..|xs| - 1]) + |xs[|xs| - 1]|
  }

  /** Join writes every element once and exactly |xs| - 1 separators. */
  lemma {:induction false} JoinLength(xs: seq<string>, sep: string)
    ensures |Join(xs, sep)| == SumLengths(xs) + (if |xs| == 0 then 0 else (|xs| - 1) * |sep|)
    decreases |xs|
  {
    if |xs| > 1 {
      JoinLength(xs[..|xs| - 1], sep);
      assert xs[..|xs| - 1][..|xs| - 2] == xs[..|xs| - 2];
    } else if |xs| == 1 {
      assert xs[..0] == [];
    }
  }

  /**
   * The text an ostream loop has written after the first i of n elements: the elements
   * joined so far, and a separator when more are to come.
   */
  function JoinedPrefix(items: seq<string>, i: nat, n: nat, sep: string): (r: string)
    requires i <= n <= |items|
  {
    Join(items[..i], sep) + (if 0 < i < n then sep else "")
  }

  /** One more loop iteration writes the next element and, unless it is the last, a separator. */
  lemma JoinedPrefixStep(items: seq<string>, i: nat, n: nat, sep: string)
    requires i < n <= |items|
    ensures JoinedPrefix(items, i, n, sep) + items[i] + (if i + 1 < n then sep else "") == JoinedPrefix(items, i + 1, n, sep)
  {
    assert items[..i + 1] == items[..i] + [items[i]];
    JoinSnoc(items[..i], items[i], sep);
  }

  /** Appending one element to a non-empty list appends one separator and that element. */
  lemma JoinSnoc(xs: seq<string>, x: string, sep: string)
    ensures Join(xs + [x], sep) == if xs == [] then x else Join(xs, sep) + sep + x
  {
    assert (xs + [x])[..|xs|] == xs;
  }

  // ---- decimal numerals ----

  function DigitChar(d: nat): (c: char)
    requires d < 10
    ensures IsDigit(c)
  {
    ['0', '1', '2', '3', '4', '5', '6', '7', '8', '9'][d]
  }

  function DigitValue(c: char): (d: nat)
    requires IsDigit(c)
    ensures d < 10
  {
    c as int - '0' as int
  }

  lemma DigitRoundTrip(d: nat)
    requires d < 10
    ensures DigitValue(DigitChar(d)) == d
  {
  }

  /** The shortest decimal numeral of n, as `std::ostream << n` and Java's `"" + n` print it. */
  function NatToDecimal(n: nat): (r: string)
    ensures |r| >= 1 && AllChars(r, IsDigit)
    ensures |r| > 1 ==> r[0] != '0'
    decreases n
  {
    if n < 10 then [DigitChar(n)] else NatToDecimal(n / 10) + [DigitChar(n % 10)]
  }

  /** The value of a string of decimal digits. */
  function DecimalValue(s: string): nat
    requires AllChars(s, IsDigit)
    decreases |s|
  {
    if |s| == 0 then 0 else DecimalValue(s[..|s| - 1]) * 10 + DigitValue(s[|s| - 1])
  }

  lemma {:induction false} DecimalRoundTrip(n: nat)
    ensures DecimalValue(NatToDecimal(n)) == n
    decreases n
  {
    if n >= 10 {
      DecimalRoundTrip(n / 10);
      var s := NatToDecimal(n);
      assert s[..|s| - 1] == NatToDecimal(n / 10);
    }
  }

  /** Distinct numbers print differently. */
  lemma DecimalInjective(m: nat, n: nat)
    requires NatToDecimal(m) == NatToDecimal(n)
    ensures m == n
  {
    DecimalRoundTrip(m);
    DecimalRoundTrip(n);
  }

  function IntToDecimal(i: int): (r: string)
    ensures |r| >= 1
    ensures (r[0] == '-') <==> i < 0
  {
    if i < 0 then "-" + NatToDecimal(-i) else NatToDecimal(i)
  }

  /** `std::setw(width) << std::setfill('0') << n` for a non-negative n: zeros on the left up to width. */
  function ZeroPad(n: nat, width: nat): (r: string)
    ensures |r| == if |NatToDecimal(n)| >= width then |NatToDecimal(n)| else width
    ensures AllChars(r, IsDigit)
    decreases width
  {
    if |NatToDecimal(n)| >= width then NatToDecimal(n) else "0" + ZeroPad(n, width - 1)
  }

  /** Zero padding does not change the value the digits denote. */
  lemma {:induction false} ZeroPadValue(n: nat, width: nat)
    ensures DecimalValue(ZeroPad(n, width)) == n
    decreases width
  {
    if |NatToDecimal(n)| >= width {
      DecimalRoundTrip(n);
    } else {
      var tail := ZeroPad(n, width - 1);
      ZeroPadValue(n, width - 1);
      DecimalValueAppend("0", tail);
      ZeroValue();
      assert ZeroPad(n, width) == "0" + tail;
      assert DecimalValue("0" + tail) == 0 * Pow10(|tail|) + n;
    }
  }

  lemma ZeroValue()
    ensures DecimalValue("0") == 0
  {
    assert "0"[..0] == [];
  }

  /** The value of a concatenation of digit strings. */
  lemma {:induction false} DecimalValueAppend(a: string, b: string)
    requires AllChars(a, IsDigit) && AllChars(b, IsDigit)
    ensures AllChars(a + b, IsDigit)
    ensures DecimalValue(a + b) == DecimalValue(a) * Pow10(|b|) + DecimalValue(b)
    decreases |b|
  {
    if |b| == 0 {
      assert a + b == a;
    } else {
      var b' := b[..|b| - 1];
      var d := DigitValue(b[|b| - 1]);
      DecimalValueAppend(a, b');
      assert (a + b)[..|a + b| - 1] == a + b';
      assert (a + b)[|a + b| - 1] == b[|b| - 1];
      calc {
        DecimalValue(a + b);
        DecimalValue(a + b') * 10 + d;
        (DecimalValue(a) * Pow10(|b'|) + DecimalValue(b')) * 10 + d;
        { MulAssoc(DecimalValue(a), Pow10(|b'|), 10); }
        DecimalValue(a) * Pow10(|b|) + (DecimalValue(b') * 10 + d);
      }
    }
  }

  lemma MulAssoc(x: nat, y: nat, z: nat)
    ensures (x * y) * z == x * (z * y)
  {
  }

  /** A numeral has at most k digits exactly when the number is below 10^k. */
  lemma {:induction false} DecimalWidth(n: nat, k: nat)
    requires k >= 1
    ensures |NatToDecimal(n)| <= k <==> n < Pow10(k)
    decreases n
  {
    if n >= 10 {
      if k == 1 {
        assert |NatToDecimal(n)| == |NatToDecimal(n / 10)| + 1;
      } else {
        DecimalWidth(n / 10, k - 1);
        assert n / 10 < Pow10(k - 1) <==> n < Pow10(k);
      }
    } else {
      assert Pow10(k) >= 10 by {
        assert Pow10(k) == 10 * Pow10(k - 1);
      }
    }
  }

  function Pow10(k: nat): (r: nat)
    ensures r >= 1
  {
    if k == 0 then 1 else 10 * Pow10(k - 1)
  }
}
