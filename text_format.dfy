/** How .NET renders an `int` inside an interpolated string (`$"{n}"`): the
    decimal digits with no leading zeros, preceded by '-' when negative. The
    parsers are independent partners that read such a rendering back; the
    round-trip lemmas show that the rendering loses nothing. */
module TextFormat {
  import opened Wrappers

  predicate IsDigit(c: char) {
    '0' <= c <= '9'
  }

  predicate AllDigits(s: string) {
    forall i :: 0 <= i < |s| ==> IsDigit(s[i])
  }

  function DigitChar(d: nat): (c: char)
    requires d < 10
    ensures IsDigit(c)
  {
    (48 + d) as char
  }

  function DigitValue(c: char): (d: nat)
    requires IsDigit(c)
    ensures d < 10 && DigitChar(d) == c
  {
    c as int - 48
  }

  /** Decimal digits of `n`, most significant first. */
  function NatToString(n: nat): (s: string)
    ensures |s| > 0 && AllDigits(s)
    ensures |s| > 1 ==> s[0] != '0'
    ensures s[0] == '0' <==> n == 0
    decreases n
  {
    if n < 10 then [DigitChar(n)] else NatToString(n / 10) + [DigitChar(n % 10)]
  }

  /** `n.ToString()` for an `int`: an optional '-' and the digits, which
      `ParseInt` reads back as `n`. */
  function IntToString(n: int): (s: string)
    ensures |s| > 0
    ensures forall i :: 0 <= i < |s| ==> s[i] == '-' || IsDigit(s[i])
    ensures ParseInt(s) == Some(n)
  {
    if n < 0 then
      var digits := NatToString(-n);
      ParseNatToString(-n);
      assert ("-" + digits)[1..] == digits && ("-" + digits)[1] == digits[0];
      "-" + digits
    else
      ParseNatToString(n);
      NatToString(n)
  }

  /** The value of a string of decimal digits (the empty string reads as 0). */
  function ParseNat(s: string): nat
    requires AllDigits(s)
  {
    if s == [] then 0 else ParseNat(s[..|s| - 1]) * 10 + DigitValue(s[|s| - 1])
  }

  /** Decimal digits as .NET writes them: at least one, and no leading zero
      unless the number is 0 itself. */
  predicate CanonicalDigits(d: string) {
    |d| > 0 && AllDigits(d) && (|d| > 1 ==> d[0] != '0')
  }

  /** Reads an integer written as .NET writes it: canonical digits,
      optionally after a '-' that is never followed by '0'; None for
      anything else (leading zeros, "-0", signs, other characters). */
  function ParseInt(s: string): (r: Option<int>)
    ensures r.Some? ==> |s| > 0
  {
    if |s| > 1 && s[0] == '-' && CanonicalDigits(s[1..]) && s[1] != '0' then Some(-(ParseNat(s[1..]) as int))
    else if CanonicalDigits(s) then Some(ParseNat(s))
    else None
  }

  lemma {:induction false} ParseNatToString(n: nat)
    ensures ParseNat(NatToString(n)) == n
    decreases n
  {
    if n >= 10 {
      var s := NatToString(n);
      assert s[..|s| - 1] == NatToString(n / 10);
      ParseNatToString(n / 10);
    }
  }

  /** Digits that do not start with '0' have a positive value. */
  lemma {:induction false} ParseNatPositive(d: string)
    requires |d| > 0 && AllDigits(d) && d[0] != '0'
    ensures ParseNat(d) > 0
    decreases |d|
  {
    var front := d[..|d| - 1];
    if |d| > 1 {
      assert front[0] == d[0];
      ParseNatPositive(front);
    } else {
      assert front == [];
    }
  }

  /** Canonical digits are exactly what `NatToString` writes for their value. */
  lemma {:induction false} NatToStringParse(d: string)
    requires CanonicalDigits(d)
    ensures NatToString(ParseNat(d)) == d
    decreases |d|
  {
    var front := d[..|d| - 1];
    var m := ParseNat(d);
    if |d| > 1 {
      assert front[0] == d[0];
      ParseNatPositive(front);
      NatToStringParse(front);
      assert m / 10 == ParseNat(front) && m % 10 == DigitValue(d[|d| - 1]);
      assert d == front + [d[|d| - 1]];
    } else {
      assert front == [];
    }
  }

  /** `ParseInt` accepts only what `IntToString` writes, so an integer has
      exactly one written form. */
  lemma ParseIntCanonical(s: string, n: int)
    requires ParseInt(s) == Some(n)
    ensures s == IntToString(n)
  {
    if |s| > 1 && s[0] == '-' && CanonicalDigits(s[1..]) && s[1] != '0' {
      assert s[1..][0] == s[1];
      ParseNatPositive(s[1..]);
      NatToStringParse(s[1..]);
      assert s == "-" + s[1..];
    } else {
      NatToStringParse(s);
    }
  }

  /** Rendering is injective: different integers never render alike. */
  lemma IntToStringInjective(m: int, n: int)
    requires IntToString(m) == IntToString(n)
    ensures m == n
  {
  }

  /** Position of the last occurrence of `c` in `s`. */
  function LastIndexOf(s: string, c: char): (r: Option<nat>)
    ensures r.Some? ==> r.value < |s| && s[r.value] == c
    ensures r.Some? ==> forall j :: r.value < j < |s| ==> s[j] != c
    ensures r.None? ==> forall j :: 0 <= j < |s| ==> s[j] != c
  {
    if s == [] then None
    else if s[|s| - 1] == c then Some(|s| - 1)
    else LastIndexOf(s[..|s| - 1], c)
  }

  /** Appending characters other than `c` leaves the last `c` where it was. */
  lemma {:induction false} LastIndexOfAppend(a: string, b: string, c: char)
    requires forall i :: 0 <= i < |b| ==> b[i] != c
    ensures LastIndexOf(a + b, c) == LastIndexOf(a, c)
    decreases |b|
  {
    if b == [] {
      assert a + b == a;
    } else {
      assert (a + b)[..|a + b| - 1] == a + b[..|b| - 1];
      LastIndexOfAppend(a, b[..|b| - 1], c);
    }
  }
}
