/**
  Decimal text of integers, the way the exporter's Go code produces and reads it:
  `strconv.Itoa` and the `%d` verb of `fmt.Sprintf` write it, `strconv.Atoi` reads it.
  Go's `int` is 64 bits wide, so `Atoi` rejects values outside the int64 range.
 */
module Decimal {
  import opened Wrappers

  const INT64_MIN: int := -0x8000_0000_0000_0000
  const INT64_MAX: int := 0x7fff_ffff_ffff_ffff

  predicate InInt64(n: int) {
    INT64_MIN <= n <= INT64_MAX
  }

  predicate IsDigit(c: char) {
    '0' <= c <= '9'
  }

  predicate AllDigits(s: string) {
    forall i :: 0 <= i < |s| ==> IsDigit(s[i])
  }

  function DigitChar(d: nat): (c: char)
    requires d < 10
    ensures IsDigit(c) && c as int - '0' as int == d
  {
    (d + '0' as int) as char
  }

  function DigitValue(c: char): (d: nat)
    requires IsDigit(c)
    ensures d < 10 && DigitChar(d) == c
  {
    c as int - '0' as int
  }

  /** The shortest decimal digit string of a natural number (no leading zeros). */
  function Digits(n: nat): (s: string)
    decreases n
  {
    if n < 10 then [DigitChar(n)] else Digits(n / 10) + [DigitChar(n % 10)]
  }

  /** The value denoted by a string of decimal digits, most significant first. */
  function DigitsValue(s: string): (n: nat)
    requires AllDigits(s)
    decreases |s|
  {
    if s == [] then 0 else DigitsValue(s[..|s| - 1]) * 10 + DigitValue(s[|s| - 1])
  }

  /** `strconv.Itoa(n)`, equally `fmt.Sprintf("%d", n)`: a minus sign for negative numbers, then the digits. */
  function FormatInt(n: int): (s: string)
    ensures s != [] && (s[0] == '-' <==> n < 0)
    ensures n < 0 ==> AllDigits(s[1..])
    ensures n >= 0 ==> AllDigits(s)
  {
    DigitsAreDigits(if n < 0 then -n else n);
    if n < 0 then "-" + Digits(-n) else Digits(n)
  }

  /**
    `strconv.Atoi(s)`: an optional `+` or `-`, then one or more decimal digits, nothing else,
    and a value in the int64 range. `None` stands for the non-nil error Go returns.
   */
  function Atoi(s: string): (r: Option<int>)
    ensures r.Some? ==> InInt64(r.value)
    ensures s == [] ==> r.None?
    ensures r.Some? && s[0] != '-' && s[0] != '+' ==> AllDigits(s)
  {
    if s == [] then None
    else
      var negative := s[0] == '-';
      var body := if s[0] == '-' || s[0] == '+' then s[1..] else s;
      if body == [] || !AllDigits(body) then None
      else
        var magnitude: int := DigitsValue(body);
        var n := if negative then -magnitude else magnitude;
        if InInt64(n) then Some(n) else None
  }

  lemma {:induction false} DigitsAreDigits(n: nat)
    ensures |Digits(n)| > 0 && AllDigits(Digits(n))
    decreases n
  {
    if n >= 10 {
      DigitsAreDigits(n / 10);
    }
  }

  /** Reading back the digits of `n` gives `n`. */
  lemma {:induction false} DigitsRoundTrip(n: nat)
    ensures AllDigits(Digits(n)) && DigitsValue(Digits(n)) == n
    decreases n
  {
    DigitsAreDigits(n);
    if n >= 10 {
      DigitsRoundTrip(n / 10);
      var s := Digits(n);
      assert s[..|s| - 1] == Digits(n / 10);
      assert s[|s| - 1] == DigitChar(n % 10);
    }
  }

  /** `Atoi` inverts `Itoa` on every Go `int`, and rejects the decimal text of every integer past the int64 range. */
  lemma FormatIntRoundTrip(n: int)
    ensures Atoi(FormatInt(n)) == if InInt64(n) then Some(n) else None
  {
    var m: nat := if n < 0 then -n else n;
    DigitsRoundTrip(m);
    var d := Digits(m);
    assert IsDigit(d[0]);
    if n < 0 {
      assert FormatInt(n)[1..] == d;
    }
  }

  /** Atoi's edge cases: a sign alone, a stray character, a leading blank, an explicit plus, leading zeros. */
  lemma AtoiExamples()
    ensures Atoi("-") == None && Atoi("+") == None && Atoi("12a") == None && Atoi(" 1") == None
    ensures Atoi("+7") == Some(7) && Atoi("-3") == Some(-3) && Atoi("007") == Some(7)
  {
    assert "+7"[1..] == "7";
    assert "-3"[1..] == "3";
    assert !IsDigit("12a"[2]);
    assert !IsDigit(" 1"[0]);
    assert DigitsValue("00") == 0;
    assert DigitsValue("007") == 7;
  }
}
