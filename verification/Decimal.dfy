/**
  Go's decimal text for 64-bit integers: strconv.Itoa (as Redis receives numbers) and strconv.Atoi.  What the first
  writes the second reads back, and so it is the other way round for digits that do not begin with a zero.
 */
module Decimal {
  const MAX_INT := 0x7fff_ffff_ffff_ffff
  const MIN_INT := -0x8000_0000_0000_0000

  type GoInt = n: int | MIN_INT <= n <= MAX_INT

  function DigitChar(d: nat): (c: char)
    requires d < 10
    ensures '0' <= c <= '9'
  {
    ('0' as int + d) as char
  }

  function Digits(n: nat): (s: string)
    ensures |s| > 0 && forall i :: 0 <= i < |s| ==> '0' <= s[i] <= '9'
  {
    if n < 10 then [DigitChar(n)] else Digits(n / 10) + [DigitChar(n % 10)]
  }

  function Itoa(n: int): string {
    if n < 0 then "-" + Digits(-n) else Digits(n)
  }

  predicate AllDigits(s: string) {
    |s| > 0 && forall i :: 0 <= i < |s| ==> '0' <= s[i] <= '9'
  }

  function DigitsValue(s: string): nat
    requires forall i :: 0 <= i < |s| ==> '0' <= s[i] <= '9'
  {
    if s == [] then 0 else 10 * DigitsValue(s[..|s| - 1]) + (s[|s| - 1] as int - '0' as int)
  }

  function Clamp(n: int): GoInt {
    if n > MAX_INT then MAX_INT else if n < MIN_INT then MIN_INT else n
  }

  /** The number returned when the error is ignored: 0 for malformed text, the nearest bound when out of range. */
  function Atoi(s: string): GoInt {
    if s == [] then 0
    else if s[0] == '-' && AllDigits(s[1..]) then Clamp(-(DigitsValue(s[1..]) as int))
    else if s[0] == '+' && AllDigits(s[1..]) then Clamp(DigitsValue(s[1..]))
    else if AllDigits(s) then Clamp(DigitsValue(s))
    else 0
  }

  lemma {:induction false} DigitsRoundTrip(n: nat)
    ensures DigitsValue(Digits(n)) == n
  {
    var s := Digits(n);
    if n >= 10 {
      DigitsRoundTrip(n / 10);
      assert s[..|s| - 1] == Digits(n / 10);
    } else {
      assert s[..0] == [];
    }
  }

  lemma NegativeRoundTrip(n: nat)
    requires n <= -MIN_INT
    ensures Atoi("-" + Digits(n)) == -(n as int)
  {
    var s := "-" + Digits(n);
    DigitsRoundTrip(n);
    assert s[1..] == Digits(n) && AllDigits(s[1..]);
  }

  lemma IntegerRoundTrip(n: GoInt)
    ensures Atoi(Itoa(n)) == n
  {
    if n < 0 {
      NegativeRoundTrip(-(n as int));
    } else {
      DigitsRoundTrip(n);
      assert '0' <= Digits(n)[0] && AllDigits(Digits(n));
    }
  }

  // ---- how many digits a number has ----

  function PowerOfTen(k: nat): (p: nat)
    ensures p >= 1
  {
    if k == 0 then 1 else 10 * PowerOfTen(k - 1)
  }

  /** A number below a power of ten has at most that many digits, and its text does not begin with a zero. */
  lemma {:induction false} DigitsLength(n: nat, k: nat)
    requires k > 0
    ensures |Digits(n)| <= k <==> n < PowerOfTen(k)
    ensures n > 0 ==> Digits(n)[0] != '0'
    decreases n
  {
    if n >= 10 {
      if k == 1 {
        DigitsLength(n / 10, 1);
      } else {
        DigitsLength(n / 10, k - 1);
      }
      assert Digits(n)[0] == Digits(n / 10)[0];
    }
  }

  lemma NextDigit(n: nat, c: char)
    requires n > 0 && '0' <= c <= '9'
    ensures Digits(10 * n + (c as int - '0' as int)) == Digits(n) + [c]
  {
    var m := 10 * n + (c as int - '0' as int);
    assert m / 10 == n && m % 10 == c as int - '0' as int;
  }

  /** Digits that do not begin with a zero are the decimal text of their value. */
  lemma {:induction false} ValueRoundTrip(s: string)
    requires AllDigits(s) && s[0] != '0'
    ensures DigitsValue(s) > 0 && Digits(DigitsValue(s)) == s
  {
    var front := s[..|s| - 1];
    if front != [] {
      ValueRoundTrip(front);
      NextDigit(DigitsValue(front), s[|s| - 1]);
      assert s == front + [s[|s| - 1]];
    } else {
      assert DigitsValue(front) == 0 && s == [s[0]];
    }
  }
}
