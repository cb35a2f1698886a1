/** The parts of Go's `fmt` and `strconv` packages that the catalog relies on for integers:
    `%d`, `%05d` and `strconv.Atoi`, written over decimal digit strings. */
module GoFmt {
  import opened Wrappers

  predicate IsDigit(c: char) { '0' <= c <= '9' }

  predicate AllDigits(s: string) { forall i :: 0 <= i < |s| ==> IsDigit(s[i]) }

  predicate AllSpaces(s: string) { forall i :: 0 <= i < |s| ==> s[i] == ' ' }

  predicate AllZeros(s: string) { forall i :: 0 <= i < |s| ==> s[i] == '0' }

  function DigitChar(d: nat): (c: char)
    requires d < 10
    ensures IsDigit(c) && DigitValue(c) == d
  {
    ('0' as int + d) as char
  }

  function DigitValue(c: char): int { c as int - '0' as int }

  function Pow10(k: nat): (p: nat)
    ensures p >= 1
  {
    if k == 0 then 1 else 10 * Pow10(k - 1)
  }

  /** `k` copies of `c`; none when `k` is not positive (a Go loop `for i := 0; i < k; i++`). */
  function Repeat(c: char, k: int): (s: string)
    ensures |s| == if k <= 0 then 0 else k
    ensures forall i :: 0 <= i < |s| ==> s[i] == c
    decreases k
  {
    if k <= 0 then "" else [c] + Repeat(c, k - 1)
  }

  function Spaces(k: int): (s: string)
    ensures AllSpaces(s) && |s| == if k <= 0 then 0 else k
  {
    Repeat(' ', k)
  }

  /** Decimal rendering of a natural number, most significant digit first. */
  function NatToString(n: nat): (s: string)
    ensures |s| >= 1 && AllDigits(s)
    ensures s[0] == '0' ==> n == 0
    ensures n < Pow10(|s|)
    ensures |s| > 1 ==> Pow10(|s| - 1) <= n
    decreases n
  {
    if n < 10 then [DigitChar(n)] else NatToString(n / 10) + [DigitChar(n % 10)]
  }

  /** The value of a string of decimal digits (the reading direction of `strconv`). */
  function DigitsValue(s: string): nat
    requires AllDigits(s)
  {
    if s == [] then 0 else 10 * DigitsValue(s[..|s| - 1]) + DigitValue(s[|s| - 1])
  }

  /** `fmt.Sprintf("%d", n)`. */
  function IntToString(n: int): (s: string)
    ensures |s| >= 1
    ensures n >= 0 ==> s == NatToString(n)
    ensures n < 0 ==> s[0] == '-' && s[1..] == NatToString(-n)
  {
    if n < 0 then "-" + NatToString(-n) else NatToString(n)
  }

  /** `fmt.Sprintf("%05d", n)`: zero padding to width 5, placed after the sign. */
  function ZeroPad5(n: int): (s: string)
    ensures 0 <= n < 100000 ==> |s| == 5 && AllDigits(s)
    ensures n >= 100000 ==> |s| > 5
  {
    if n < 0 then
      var digits := NatToString(-n);
      "-" + Repeat('0', 4 - |digits|) + digits
    else
      var digits := NatToString(n);
      NatToStringLength(n, 5);
      Repeat('0', 5 - |digits|) + digits
  }

  /** Go's `%` on a non-negative divisor truncates toward zero: the remainder has the
      sign of the dividend. */
  function GoRem10(a: int): (r: int)
    ensures -10 < r < 10
    ensures a >= 0 ==> r >= 0 && r == a % 10
    ensures a < 0 ==> r <= 0 && (a - r) % 10 == 0
  {
    if a >= 0 then a % 10 else -((-a) % 10)
  }

  /** `strconv.Atoi`: an optional sign, then at least one decimal digit and nothing else. */
  function Atoi(s: string): (r: Option<int>)
    ensures r.Some? <==>
      (|s| > 0 && AllDigits(s)) ||
      (|s| > 1 && (s[0] == '+' || s[0] == '-') && AllDigits(s[1..]))
  {
    if |s| > 0 && (s[0] == '+' || s[0] == '-') then
      var digits := s[1..];
      if |digits| > 0 && AllDigits(digits) then
        var v: int := DigitsValue(digits);
        Some(if s[0] == '-' then -v else v)
      else None
    else if |s| > 0 && AllDigits(s) then Some(DigitsValue(s))
    else None
  }

  /** `strings.TrimLeft(s, " ")`. */
  function TrimLeadingSpaces(s: string): (r: string)
    ensures r == [] || r[0] != ' '
    ensures |r| <= |s| && r == s[|s| - |r|..] && AllSpaces(s[..|s| - |r|])
  {
    if s != [] && s[0] == ' ' then TrimLeadingSpaces(s[1..]) else s
  }

  lemma {:induction false} NatToStringRoundTrip(n: nat)
    ensures DigitsValue(NatToString(n)) == n
    decreases n
  {
    if n >= 10 {
      var s := NatToString(n);
      assert s[..|s| - 1] == NatToString(n / 10);
      NatToStringRoundTrip(n / 10);
    }
  }

  lemma {:induction false} LeadingZerosIgnored(z: string, s: string)
    requires AllZeros(z) && AllDigits(s)
    ensures AllDigits(z + s) && DigitsValue(z + s) == DigitsValue(s)
    decreases |s|
  {
    var zs := z + s;
    assert AllDigits(zs) by {
      forall i | 0 <= i < |zs| ensures IsDigit(zs[i]) {
        if i < |z| { assert zs[i] == z[i]; } else { assert zs[i] == s[i - |z|]; }
      }
    }
    if s == [] {
      assert zs == z;
      ZerosValue(z);
    } else {
      assert zs[..|zs| - 1] == z + s[..|s| - 1];
      LeadingZerosIgnored(z, s[..|s| - 1]);
    }
  }

  lemma {:induction false} ZerosValue(z: string)
    requires AllZeros(z)
    ensures AllDigits(z) && DigitsValue(z) == 0
    decreases |z|
  {
    if z != [] {
      ZerosValue(z[..|z| - 1]);
    }
  }

  /** `strconv.Atoi` reads back what `%d` writes. */
  lemma IntToStringRoundTrip(n: int)
    ensures Atoi(IntToString(n)) == Some(n)
  {
    var s := IntToString(n);
    if n < 0 {
      var digits := NatToString(-n);
      NatToStringRoundTrip(-n);
      assert s == "-" + digits;
      assert s[1..] == digits;
      assert s[0] == '-' && |s[1..]| > 0 && AllDigits(s[1..]);
    } else {
      NatToStringRoundTrip(n);
      assert s[0] != '+' && s[0] != '-';
    }
  }

  lemma {:induction false} Pow10Monotone(i: nat, j: nat)
    requires i <= j
    ensures Pow10(i) <= Pow10(j)
    decreases j
  {
    if i < j {
      Pow10Monotone(i, j - 1);
    }
  }

  /** The rendering of `n` fits in `k` columns exactly when `n < 10^k`. */
  lemma NatToStringLength(n: nat, k: nat)
    requires k >= 1
    ensures |NatToString(n)| <= k <==> n < Pow10(k)
  {
    var len := |NatToString(n)|;
    if len <= k {
      Pow10Monotone(len, k);
    } else {
      Pow10Monotone(k, len - 1);
    }
  }

  /** A five-column zero-padded NORAD catalog number is read back by `strconv.Atoi`. */
  lemma ZeroPad5RoundTrip(n: int)
    requires 0 <= n < 100000
    ensures Atoi(ZeroPad5(n)) == Some(n)
  {
    var digits := NatToString(n);
    var zeros := Repeat('0', 5 - |digits|);
    assert ZeroPad5(n) == zeros + digits;
    LeadingZerosIgnored(zeros, digits);
    NatToStringRoundTrip(n);
  }

  /** The number of columns `%d` uses for a non-negative value, decade by decade. */
  lemma IntToStringWidth(n: int)
    ensures 0 <= n < 10 ==> |IntToString(n)| == 1
    ensures 10 <= n < 100 ==> |IntToString(n)| == 2
    ensures 100 <= n < 1000 ==> |IntToString(n)| == 3
    ensures 1000 <= n < 10000 ==> |IntToString(n)| == 4
    ensures 10000 <= n < 100000 ==> |IntToString(n)| == 5
    ensures 10000 <= n ==> |IntToString(n)| > 4
    ensures 100000 <= n ==> |IntToString(n)| > 5
  {
    if n >= 0 {
      NatToStringLength(n, 1);
      NatToStringLength(n, 2);
      NatToStringLength(n, 3);
      NatToStringLength(n, 4);
      NatToStringLength(n, 5);
    }
  }

  lemma {:induction false} TrimSpacesBeforeText(sp: string, d: string)
    requires AllSpaces(sp) && (d == [] || d[0] != ' ')
    ensures TrimLeadingSpaces(sp + d) == d
    decreases |sp|
  {
    if sp != [] {
      assert (sp + d)[1..] == sp[1..] + d;
      TrimSpacesBeforeText(sp[1..], d);
    }
  }
}
