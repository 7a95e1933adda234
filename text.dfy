/**
 * String building blocks used by both scripts: Python's `str(int)` and its inverse,
 * zero padding, `', '.join(...)` and a splitter that undoes it, the `lower()` /
 * `replace(' ', '_')` slug, and the text after the last underscore of a column name.
 */
module Text {
  import opened Common

  predicate IsDigit(c: char) {
    '0' <= c <= '9'
  }

  predicate AllDigits(s: string) {
    forall i :: 0 <= i < |s| ==> IsDigit(s[i])
  }

  function DigitChar(d: nat): (c: char)
    requires d < 10
    ensures IsDigit(c)
  {
    ('0' as int + d) as char
  }

  function DigitValue(c: char): (d: nat)
    requires IsDigit(c)
    ensures d < 10
  {
    c as int - '0' as int
  }

  /** The decimal numeral of `n` without leading zeros, as Python's `str(n)` prints it. */
  function Digits(n: nat): (s: string)
    ensures |s| >= 1 && AllDigits(s)
  {
    if n < 10 then [DigitChar(n)] else Digits(n / 10) + [DigitChar(n % 10)]
  }

  /** Python's `str(i)` for any integer: a '-' sign before the digits of a negative one. */
  function IntToString(i: int): (s: string)
    ensures |s| >= 1
    ensures forall k :: 0 <= k < |s| ==> s[k] == '-' || IsDigit(s[k])
  {
    if i < 0 then "-" + Digits(-i) else Digits(i)
  }

  /** The number a digit string denotes, most significant digit first. */
  function DigitsValue(s: string): nat
    requires AllDigits(s)
  {
    if s == [] then 0 else 10 * DigitsValue(s[..|s| - 1]) + DigitValue(s[|s| - 1])
  }

  /** Reads a decimal numeral with an optional leading '-'; the inverse of `IntToString`. */
  function ParseInt(s: string): Option<int> {
    if |s| >= 2 && s[0] == '-' && AllDigits(s[1..]) then Some(0 - DigitsValue(s[1..]) as int)
    else if |s| >= 1 && AllDigits(s) then Some(DigitsValue(s))
    else None
  }

  lemma {:induction false} DigitsRoundTrip(n: nat)
    ensures DigitsValue(Digits(n)) == n
  {
    if n >= 10 {
      DigitsRoundTrip(n / 10);
      var s := Digits(n);
      assert s[..|s| - 1] == Digits(n / 10);
    }
  }

  /** Every integer is read back from its decimal text. */
  lemma IntToStringRoundTrip(i: int)
    ensures ParseInt(IntToString(i)) == Some(i)
  {
    if i < 0 {
      DigitsRoundTrip(-i);
      assert IntToString(i)[1..] == Digits(-i);
    } else {
      DigitsRoundTrip(i);
    }
  }

  function Pow10(k: nat): (p: nat)
    ensures p >= 1
  {
    if k == 0 then 1 else 10 * Pow10(k - 1)
  }

  /** A number below 10^k has at most k digits. */
  lemma {:induction false} DigitsLength(n: nat, k: nat)
    requires 1 <= k && n < Pow10(k)
    ensures |Digits(n)| <= k
  {
    if n >= 10 {
      DigitsLength(n / 10, k - 1);
    }
  }

  function Zeros(k: nat): (z: string)
    ensures |z| == k && forall i :: 0 <= i < k ==> z[i] == '0'
  {
    seq(k, _ => '0')
  }

  /** `s` with '0's in front up to `width` characters; a longer `s` is left as it is. */
  function ZeroPad(s: string, width: nat): (r: string)
    ensures |r| == if |s| >= width then |s| else width
  {
    if |s| >= width then s else Zeros(width - |s|) + s
  }

  lemma {:induction false} ZerosValue(z: string)
    requires forall i :: 0 <= i < |z| ==> z[i] == '0'
    ensures AllDigits(z) && DigitsValue(z) == 0
    decreases |z|
  {
    if z != [] {
      ZerosValue(z[..|z| - 1]);
    }
  }

  lemma {:induction false} LeadingZerosIgnored(z: string, s: string)
    requires forall i :: 0 <= i < |z| ==> z[i] == '0'
    requires AllDigits(s)
    ensures AllDigits(z + s) && DigitsValue(z + s) == DigitsValue(s)
    decreases |s|
  {
    if s == [] {
      assert z + s == z;
      ZerosValue(z);
    } else {
      var t := s[..|s| - 1];
      LeadingZerosIgnored(z, t);
      assert (z + s)[..|z + s| - 1] == z + t;
    }
  }

  /** A zero-padded numeral still denotes its number. */
  lemma PaddedDigitsRoundTrip(n: nat, width: nat)
    ensures AllDigits(ZeroPad(Digits(n), width))
    ensures DigitsValue(ZeroPad(Digits(n), width)) == n
  {
    DigitsRoundTrip(n);
    if |Digits(n)| < width {
      LeadingZerosIgnored(Zeros(width - |Digits(n)|), Digits(n));
    }
  }

  /** Python's `', '.join(parts)`. */
  function Join(parts: seq<string>): string {
    if |parts| == 0 then ""
    else if |parts| == 1 then parts[0]
    else parts[0] + ", " + Join(parts[1..])
  }

  function FirstComma(s: string): (i: nat)
    ensures i <= |s|
    ensures forall j :: 0 <= j < i ==> s[j] != ','
    ensures i < |s| ==> s[i] == ','
  {
    FirstIndexWhere(s, (c: char) => c == ',')
  }

  /** Cuts a list written by `Join` back into its parts, at every ", ". */
  function SplitList(s: string): (parts: seq<string>)
    ensures |parts| >= 1
    decreases |s|
  {
    var i := FirstComma(s);
    if i == |s| then [s]
    else if i + 1 < |s| && s[i + 1] == ' ' then [s[..i]] + SplitList(s[i + 2..])
    else [s[..i]] + SplitList(s[i + 1..])
  }

  /** Parts free of commas come back from their joined text, in their order. */
  lemma {:induction false} SplitJoin(parts: seq<string>)
    requires |parts| >= 1
    requires forall i :: 0 <= i < |parts| ==> ',' !in parts[i]
    ensures SplitList(Join(parts)) == parts
    decreases |parts|
  {
    var x := parts[0];
    if |parts| == 1 {
      assert FirstComma(x) == |x|;
    } else {
      var rest := parts[1..];
      var t := Join(rest);
      var s := x + ", " + t;
      assert Join(parts) == s;
      assert s[|x|] == ',';
      assert forall j :: 0 <= j < |x| ==> s[j] == x[j];
      assert FirstComma(s) == |x|;
      assert s[..|x|] == x;
      assert s[|x| + 2..] == t;
      SplitJoin(rest);
      assert parts == [x] + rest;
    }
  }

  function LowerAscii(c: char): char {
    if 'A' <= c <= 'Z' then (c as int + 32) as char else c
  }

  /** Python's `name.lower().replace(' ', '_')`, with the ASCII case mapping. */
  function Slug(s: string): (r: string)
    ensures |r| == |s|
  {
    seq(|s|, i requires 0 <= i < |s| => if s[i] == ' ' then '_' else LowerAscii(s[i]))
  }

  /** A slug has no spaces and no upper-case letters, and slugging it again changes nothing. */
  lemma SlugShape(s: string)
    ensures forall i :: 0 <= i < |s| ==> Slug(s)[i] != ' ' && !('A' <= Slug(s)[i] <= 'Z')
    ensures Slug(Slug(s)) == Slug(s)
  {
  }

  /** The text after the last `c` of `s` (all of `s` when it has none). */
  function AfterLast(s: string, c: char): string {
    if s == [] then []
    else if s[|s| - 1] == c then []
    else AfterLast(s[..|s| - 1], c) + [s[|s| - 1]]
  }

  lemma {:induction false} AfterLastAppend(a: string, c: char, b: string)
    requires c !in b
    ensures AfterLast(a + [c] + b, c) == b
    decreases |b|
  {
    var s := a + [c] + b;
    if b == [] {
      assert s[|s| - 1] == c;
    } else {
      var b' := b[..|b| - 1];
      AfterLastAppend(a, c, b');
      assert s[..|s| - 1] == a + [c] + b';
      assert b == b' + [b[|b| - 1]];
    }
  }
}
