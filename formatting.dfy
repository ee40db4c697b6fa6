/** Decimal text of integers: Python's `str(n)` and `'%5d' % n`, and the
    reading of a right-aligned integer field that undoes them. */
module Formatting {
  import opened Optional

  predicate IsDigit(c: char) { '0' <= c <= '9' }

  predicate AllDigits(s: string) { forall i :: 0 <= i < |s| ==> IsDigit(s[i]) }

  function DigitChar(d: nat): char
    requires d < 10
  {
    "0123456789"[d]
  }

  function DigitValue(c: char): nat
    requires IsDigit(c)
  {
    (c as int - '0' as int) as nat
  }

  /** `str(n)` for a non-negative integer: its decimal digits, no leading zero. */
  function Digits(n: nat): (s: string)
    ensures 1 <= |s| && AllDigits(s)
    ensures n >= 10 ==> s[0] != '0'
    decreases n
  {
    if n < 10 then [DigitChar(n)] else Digits(n / 10) + [DigitChar(n % 10)]
  }

  /** The number a non-empty run of decimal digits denotes. */
  function DigitsValue(s: string): nat
    requires AllDigits(s)
    decreases |s|
  {
    if s == [] then 0 else DigitsValue(s[..|s| - 1]) * 10 + DigitValue(s[|s| - 1])
  }

  /** `k` blank columns. */
  function Spaces(k: nat): (s: string)
    ensures |s| == k
    ensures forall i :: 0 <= i < k ==> s[i] == ' '
  {
    if k == 0 then "" else " " + Spaces(k - 1)
  }

  /** `'%<width>d' % n`: the sign and digits of `n`, right-aligned with
      spaces to `width` characters; a longer number is never cut. */
  function FormatInt(n: int, width: nat): string
  {
    var body := Signed(n);
    (if |body| < width then Spaces(width - |body|) else "") + body
  }

  function Signed(n: int): string
  {
    if n < 0 then "-" + Digits(-n) else Digits(n)
  }

  /** Reads back a right-aligned integer field: leading blanks, an optional
      minus sign, then at least one digit. Any other text is no number. */
  function ParseIntField(field: string): Option<int>
    decreases |field|
  {
    if field == [] then None
    else if field[0] == ' ' then ParseIntField(field[1..])
    else if field[0] == '-' then
      if |field| > 1 && AllDigits(field[1..]) then Some(0 - DigitsValue(field[1..])) else None
    else if AllDigits(field) then Some(DigitsValue(field))
    else None
  }

  /** Reading the digits of `n` gives back `n`. */
  lemma {:induction false} DigitsRoundTrip(n: nat)
    ensures DigitsValue(Digits(n)) == n
    decreases n
  {
    if n >= 10 {
      var s := Digits(n);
      assert s[..|s| - 1] == Digits(n / 10);
      DigitsRoundTrip(n / 10);
    }
  }

  /** `str` is injective on non-negative integers. */
  lemma DigitsInjective(m: nat, n: nat)
    requires Digits(m) == Digits(n)
    ensures m == n
  {
    DigitsRoundTrip(m);
    DigitsRoundTrip(n);
  }

  /** A label with a number written into it, as an f-string
      `f'{prefix}{n}{suffix}'` or a template `{{n}}` produces. */
  function Numbered(prefix: string, n: nat, suffix: string): string
  {
    prefix + Digits(n) + suffix
  }

  /** Labels that differ only in their number are different. */
  lemma NumberedInjective(prefix: string, m: nat, n: nat, suffix: string)
    requires Numbered(prefix, m, suffix) == Numbered(prefix, n, suffix)
    ensures m == n
  {
    var l := Numbered(prefix, m, suffix);
    assert |Digits(m)| == |Digits(n)|;
    assert Digits(m) == l[|prefix|..|l| - |suffix|] == Digits(n);
    DigitsInjective(m, n);
  }

  function Pow10(k: nat): (p: nat)
    ensures p >= 1
  {
    if k == 0 then 1 else 10 * Pow10(k - 1)
  }

  /** A number below 10^k has at most k digits. */
  lemma {:induction false} DigitsAtMost(n: nat, k: nat)
    requires 1 <= k && n < Pow10(k)
    ensures |Digits(n)| <= k
    decreases k
  {
    if n >= 10 {
      assert Pow10(1) == 10;
      assert n / 10 < Pow10(k - 1);
      DigitsAtMost(n / 10, k - 1);
    }
  }

  /** Blanks in front of a field do not change what it reads as. */
  lemma {:induction false} SkipBlanks(k: nat, s: string)
    requires s != [] && s[0] != ' '
    ensures ParseIntField(Spaces(k) + s) == ParseIntField(s)
    decreases k
  {
    if k > 0 {
      var t := Spaces(k) + s;
      assert t != [] && t[0] == ' ';
      assert t[1..] == Spaces(k - 1) + s;
      assert ParseIntField(t) == ParseIntField(t[1..]);
      SkipBlanks(k - 1, s);
    } else {
      assert Spaces(k) + s == s;
    }
  }

  /** `'%<width>d' % n` is never shorter than `width`, and is exactly
      `width` long when the signed digits fit; it reads back as `n`. */
  lemma FormatIntRoundTrip(n: int, width: nat)
    ensures |FormatInt(n, width)| == if |Signed(n)| < width then width else |Signed(n)|
    ensures ParseIntField(FormatInt(n, width)) == Some(n)
  {
    var body := Signed(n);
    if n < 0 {
      assert body[1..] == Digits(-n);
      DigitsRoundTrip(-n);
    } else {
      DigitsRoundTrip(n);
    }
    assert ParseIntField(body) == Some(n);
    assert body[0] != ' ';
    if |body| < width {
      SkipBlanks(width - |body|, body);
    } else {
      assert FormatInt(n, width) == body;
    }
  }

  /** A count between 0 and 99999 printed with `%5d` takes exactly five
      columns: blanks, then its digits, ending in the fifth column. */
  lemma FiveColumnField(n: int)
    requires 0 <= n < 100000
    ensures |FormatInt(n, 5)| == 5
    ensures FormatInt(n, 5) == Spaces(5 - |Digits(n)|) + Digits(n)
    ensures ParseIntField(FormatInt(n, 5)) == Some(n)
  {
    assert Pow10(5) == 100000;
    DigitsAtMost(n, 5);
    FormatIntRoundTrip(n, 5);
  }
}
