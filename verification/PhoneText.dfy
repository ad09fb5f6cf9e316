/** Phone numbers as text: the E.164 pattern, and the trimming each side does before testing it. */
module PhoneText {
  import opened Decimal

  predicate IsDigit(c: char) { '0' <= c <= '9' }

  predicate AllDigitChars(s: string) { forall i :: 0 <= i < |s| ==> IsDigit(s[i]) }

  /** A plus sign, a first digit that is not zero, and one to fourteen more digits. */
  predicate IsE164(s: string) {
    3 <= |s| <= 16 && s[0] == '+' && '1' <= s[1] <= '9' && AllDigitChars(s[2..])
  }

  predicate IsCommonSpace(c: char) {
    || '\t' <= c <= '\r' || c == ' ' || c == '\U{00A0}' || c == '\U{1680}' || '\U{2000}' <= c <= '\U{200A}'
    || c == '\U{2028}' || c == '\U{2029}' || c == '\U{202F}' || c == '\U{205F}' || c == '\U{3000}'
  }

  /** What JavaScript's trim removes: also the byte order mark. */
  predicate IsJsSpace(c: char) { IsCommonSpace(c) || c == '\U{FEFF}' }

  /** What Go's TrimSpace removes: also the next-line control. */
  predicate IsGoSpace(c: char) { IsCommonSpace(c) || c == '\U{0085}' }

  function TrimLeft(s: string, space: char -> bool): string {
    if s != [] && space(s[0]) then TrimLeft(s[1..], space) else s
  }

  function TrimRight(s: string, space: char -> bool): string {
    if s != [] && space(s[|s| - 1]) then TrimRight(s[..|s| - 1], space) else s
  }

  function Trim(s: string, space: char -> bool): string {
    TrimRight(TrimLeft(s, space), space)
  }

  function JsTrim(s: string): string { Trim(s, IsJsSpace) }

  function GoTrim(s: string): string { Trim(s, IsGoSpace) }

  /** The length of the UTF-8 text, which is what Go's len counts. */
  function ByteLength(s: string): nat {
    if s == [] then 0
    else (if s[0] < '\U{0080}' then 1 else if s[0] < '\U{0800}' then 2 else if s[0] < '\U{10000}' then 3 else 4)
         + ByteLength(s[1..])
  }

  // ---- what the pattern and the two trims mean ----

  lemma NumberOf(s: string)
    requires IsE164(s)
    ensures 10 <= DigitsValue(s[1..]) < 1_000_000_000_000_000 && s == "+" + Digits(DigitsValue(s[1..]))
  {
    var d := s[1..];
    assert d[1..] == s[2..] && AllDigits(d);
    ValueRoundTrip(d);
    DigitsLength(DigitsValue(d), 1);
    DigitsLength(DigitsValue(d), 15);
    assert PowerOfTen(15) == 1_000_000_000_000_000;
  }

  lemma NumberFits(n: nat)
    requires 10 <= n < 1_000_000_000_000_000
    ensures IsE164("+" + Digits(n))
  {
    DigitsLength(n, 1);
    DigitsLength(n, 15);
    assert PowerOfTen(15) == 1_000_000_000_000_000;
    var s := "+" + Digits(n);
    assert s[1..] == Digits(n) && s[2..] == Digits(n)[1..];
  }

  /** An E.164 text is a plus sign and a number of two to fifteen digits in decimal, and nothing else is. */
  lemma E164Exactly(s: string)
    ensures IsE164(s) <==> exists n: nat :: 10 <= n < 1_000_000_000_000_000 && s == "+" + Digits(n)
  {
    if IsE164(s) { NumberOf(s); }
    forall n: nat | 10 <= n < 1_000_000_000_000_000 && s == "+" + Digits(n) ensures IsE164(s) { NumberFits(n); }
  }

  /** What is left after trimming stands in the text between spaces, and neither begins nor ends with one. */
  predicate IsTrimmed(s: string, space: char -> bool, t: string, from: nat, to: nat) {
    && from <= to <= |s| && t == s[from..to]
    && (forall i :: 0 <= i < from ==> space(s[i])) && (forall i :: to <= i < |s| ==> space(s[i]))
    && (t != [] ==> !space(t[0]) && !space(t[|t| - 1]))
  }

  lemma TrimMeans(s: string, space: char -> bool) returns (from: nat, to: nat)
    ensures IsTrimmed(s, space, Trim(s, space), from, to)
  {
    var left := TrimLeft(s, space);
    TrimLeftIsSuffix(s, space);
    TrimRightIsPrefix(left, space);
    from := |s| - |left|;
    to := from + |Trim(s, space)|;
    assert Trim(s, space) == left[..|Trim(s, space)|];
    forall i | to <= i < |s| ensures space(s[i]) { assert s[i] == left[i - from]; }
  }

  const COMMON_SPACES := "\t\n\U{000B}\U{000C}\r \U{00A0}\U{1680}\U{2000}\U{2001}\U{2002}\U{2003}\U{2004}\U{2005}"
    + "\U{2006}\U{2007}\U{2008}\U{2009}\U{200A}\U{2028}\U{2029}\U{202F}\U{205F}\U{3000}"

  /** The spaces of the two languages differ in two characters. */
  lemma SpacesMeant(c: char)
    ensures IsJsSpace(c) <==> c in COMMON_SPACES || c == '\U{FEFF}'
    ensures IsGoSpace(c) <==> c in COMMON_SPACES || c == '\U{0085}'
  {
  }

  /** UTF-8 takes one to four bytes for a character, by its code point. */
  lemma {:induction false} ByteLengthMeans(c: char, t: string)
    ensures ByteLength([c] + t) == ByteLength(t)
      + (if c as int < 0x80 then 1 else if c as int < 0x800 then 2 else if c as int < 0x1_0000 then 3 else 4)
  {
    assert ([c] + t)[1..] == t;
  }

  lemma {:induction false} DigitsAreBytes(s: string)
    requires AllDigitChars(s)
    ensures ByteLength(s) == |s|
  {
    if s != [] { DigitsAreBytes(s[1..]); }
  }

  lemma {:induction false} TrimLeftAgree(s: string, small: char -> bool, big: char -> bool)
    requires forall i :: 0 <= i < |s| && small(s[i]) ==> big(s[i])
    requires var t := TrimLeft(s, small); t != [] && !big(t[0])
    ensures TrimLeft(s, big) == TrimLeft(s, small)
  {
    if small(s[0]) { TrimLeftAgree(s[1..], small, big); }
  }

  lemma {:induction false} TrimRightAgree(s: string, small: char -> bool, big: char -> bool)
    requires forall i :: 0 <= i < |s| && small(s[i]) ==> big(s[i])
    requires var t := TrimRight(s, small); t != [] && !big(t[|t| - 1])
    ensures TrimRight(s, big) == TrimRight(s, small)
  {
    if small(s[|s| - 1]) { TrimRightAgree(s[..|s| - 1], small, big); }
  }

  lemma {:induction false} TrimRightIsPrefix(s: string, space: char -> bool)
    ensures TrimRight(s, space) <= s && forall i :: |TrimRight(s, space)| <= i < |s| ==> space(s[i])
    ensures TrimRight(s, space) != [] ==> !space(TrimRight(s, space)[|TrimRight(s, space)| - 1])
  {
    if s != [] && space(s[|s| - 1]) { TrimRightIsPrefix(s[..|s| - 1], space); }
  }

  lemma {:induction false} TrimLeftIsSuffix(s: string, space: char -> bool)
    ensures |TrimLeft(s, space)| <= |s| && TrimLeft(s, space) == s[|s| - |TrimLeft(s, space)|..]
    ensures forall i :: 0 <= i < |s| - |TrimLeft(s, space)| ==> space(s[i])
    ensures TrimLeft(s, space) != [] ==> !space(TrimLeft(s, space)[0])
  {
    if s != [] && space(s[0]) {
      TrimLeftIsSuffix(s[1..], space);
      forall i | 0 <= i < |s| - |TrimLeft(s, space)| ensures space(s[i]) {
        if i > 0 { assert s[i] == s[1..][i - 1]; }
      }
    }
  }

  /** On text without a byte order mark the two trims find the same phone number. */
  lemma TrimsAgree(s: string)
    requires IsE164(JsTrim(s)) && '\U{FEFF}' !in s
    ensures GoTrim(s) == JsTrim(s)
  {
    var left := TrimLeft(s, IsJsSpace);
    TrimRightIsPrefix(left, IsJsSpace);
    TrimLeftIsSuffix(s, IsJsSpace);
    TrimLeftAgree(s, IsJsSpace, IsGoSpace);
    TrimRightAgree(left, IsJsSpace, IsGoSpace);
  }

  lemma {:induction false} TrimLeftKeeps(s: string, space: char -> bool, c: char)
    requires c in s && !space(c)
    ensures c in TrimLeft(s, space)
  {
    if space(s[0]) {
      assert s == [s[0]] + s[1..];
      TrimLeftKeeps(s[1..], space, c);
    }
  }

  lemma {:induction false} TrimRightKeeps(s: string, space: char -> bool, c: char)
    requires c in s && !space(c)
    ensures c in TrimRight(s, space)
  {
    var n := |s| - 1;
    if space(s[n]) {
      assert s == s[..n] + [s[n]];
      TrimRightKeeps(s[..n], space, c);
    }
  }
}
