/** The two conversions of Go's strconv package the connector relies on:
    Atoi (decimal string to int) and FormatInt with base 10 (int to decimal
    string). Integers are mathematical: the 64-bit range check of Atoi and
    the int64 conversion before FormatInt are not modelled. */
module Strconv {
  import opened Base

  predicate IsDigit(c: char) { '0' <= c <= '9' }

  predicate AllDigits(s: string) {
    forall i | 0 <= i < |s| :: IsDigit(s[i])
  }

  /** The syntax Atoi accepts: an optional '+' or '-' followed by one or more
      ASCII digits. Leading zeros are allowed; nothing else is. */
  predicate IsDecimal(s: string) {
    if |s| > 0 && (s[0] == '+' || s[0] == '-') then |s| > 1 && AllDigits(s[1..])
    else |s| > 0 && AllDigits(s)
  }

  /** Digits without a superfluous leading zero. */
  predicate IsCanonicalNat(s: string) {
    |s| > 0 && AllDigits(s) && (|s| > 1 ==> s[0] != '0')
  }

  /** The strings FormatInt produces: no '+', no leading zero, no "-0". */
  predicate IsCanonical(s: string) {
    if |s| > 0 && s[0] == '-' then IsCanonicalNat(s[1..]) && s[1..] != "0"
    else IsCanonicalNat(s)
  }

  function DigitValue(c: char): (d: nat)
    requires IsDigit(c)
    ensures d < 10
  {
    c as int - '0' as int
  }

  function DigitChar(d: nat): (c: char)
    requires d < 10
    ensures IsDigit(c) && DigitValue(c) == d
  {
    ('0' as int + d) as char
  }

  /** The value of a digit string, most significant digit first. */
  function DigitsValue(s: string): nat
    requires AllDigits(s)
  {
    if s == [] then 0 else 10 * DigitsValue(s[..|s| - 1]) + DigitValue(s[|s| - 1])
  }

  /** The shortest decimal rendering of a natural number. */
  function NatDigits(n: nat): (s: string)
    ensures IsCanonicalNat(s)
    ensures s[0] == '0' <==> n == 0
  {
    if n < 10 then [DigitChar(n)] else NatDigits(n / 10) + [DigitChar(n % 10)]
  }

  /** strconv.Atoi: an error for anything that is not a signed decimal. */
  function Atoi(s: string): (r: Result<int>)
    ensures r.Ok? <==> IsDecimal(s)
    ensures r.Err? ==> r.error == SyntaxError(s)
  {
    if |s| > 0 && (s[0] == '+' || s[0] == '-') then
      if |s| > 1 && AllDigits(s[1..]) then
        var magnitude: int := DigitsValue(s[1..]);
        Ok(if s[0] == '-' then -magnitude else magnitude)
      else
        Err(SyntaxError(s))
    else if |s| > 0 && AllDigits(s) then
      Ok(DigitsValue(s))
    else
      Err(SyntaxError(s))
  }

  /** strconv.FormatInt(n, 10). */
  function FormatInt(n: int): (s: string)
    ensures IsCanonical(s)
  {
    if n < 0 then
      var digits := NatDigits(-n);
      assert ("-" + digits)[1..] == digits;
      "-" + digits
    else
      NatDigits(n)
  }

  lemma {:induction false} DigitsRoundTrip(n: nat)
    ensures DigitsValue(NatDigits(n)) == n
  {
    if n >= 10 {
      var s := NatDigits(n / 10);
      var t := s + [DigitChar(n % 10)];
      assert t[..|t| - 1] == s;
      DigitsRoundTrip(n / 10);
    }
  }

  lemma {:induction false} LeadingDigitPositive(s: string)
    requires |s| > 0 && AllDigits(s) && s[0] != '0'
    ensures DigitsValue(s) > 0
  {
    if |s| > 1 {
      var init := s[..|s| - 1];
      assert init[0] == s[0];
      LeadingDigitPositive(init);
    }
  }

  lemma {:induction false} CanonicalDigitsRoundTrip(s: string)
    requires IsCanonicalNat(s)
    ensures NatDigits(DigitsValue(s)) == s
  {
    if |s| > 1 {
      var init := s[..|s| - 1];
      assert init[0] == s[0];
      assert IsCanonicalNat(init);
      LeadingDigitPositive(init);
      CanonicalDigitsRoundTrip(init);
      var v := DigitsValue(s);
      assert v / 10 == DigitsValue(init) && v % 10 == DigitValue(s[|s| - 1]);
      assert init + [s[|s| - 1]] == s;
    }
  }

  lemma AtoiOfDigits(digits: string)
    requires IsCanonicalNat(digits)
    ensures Atoi(digits) == Ok(DigitsValue(digits))
  {
  }

  lemma AtoiOfNegated(digits: string)
    requires IsCanonicalNat(digits)
    ensures Atoi("-" + digits) == Ok(-(DigitsValue(digits) as int))
  {
  }

  /** Decoding what FormatInt encodes gives back the number. */
  lemma {:induction false} FormatRoundTrip(n: int)
    ensures Atoi(FormatInt(n)) == Ok(n)
  {
    if n < 0 {
      DigitsRoundTrip(-n);
      AtoiOfNegated(NatDigits(-n));
    } else {
      DigitsRoundTrip(n);
      AtoiOfDigits(NatDigits(n));
    }
  }

  /** A '+' sign changes nothing. */
  lemma AtoiPlusSign(digits: string)
    requires |digits| > 0 && AllDigits(digits)
    ensures Atoi("+" + digits) == Atoi(digits)
  {
    assert ("+" + digits)[1..] == digits;
  }

  /** A '-' sign negates the value; "-0" decodes to 0. */
  lemma AtoiMinusSign(digits: string)
    requires |digits| > 0 && AllDigits(digits)
    ensures Atoi(digits).Ok? && Atoi("-" + digits) == Ok(-Atoi(digits).value)
  {
    assert ("-" + digits)[1..] == digits;
  }

  lemma {:induction false} LeadingZeroValue(digits: string)
    requires AllDigits(digits)
    ensures AllDigits("0" + digits) && DigitsValue("0" + digits) == DigitsValue(digits)
  {
    if |digits| > 0 {
      var padded := "0" + digits;
      assert padded[..|padded| - 1] == "0" + digits[..|digits| - 1];
      LeadingZeroValue(digits[..|digits| - 1]);
    }
  }

  /** A leading zero changes nothing. With the two sign lemmas and
      CanonicalRoundTrip this fixes the value of every string Atoi accepts. */
  lemma AtoiLeadingZero(digits: string)
    requires |digits| > 0 && AllDigits(digits)
    ensures Atoi("0" + digits) == Atoi(digits)
  {
    LeadingZeroValue(digits);
  }

  /** Every canonical string is the rendering of the number it decodes to,
      so FormatInt is a bijection between the integers and canonical strings. */
  lemma {:induction false} CanonicalRoundTrip(s: string)
    requires IsCanonical(s)
    ensures Atoi(s).Ok? && FormatInt(Atoi(s).value) == s
  {
    if s[0] == '-' {
      var digits := s[1..];
      assert digits[0] != '0' by {
        if |digits| == 1 { assert digits == [digits[0]]; }
      }
      LeadingDigitPositive(digits);
      CanonicalDigitsRoundTrip(digits);
      assert "-" + digits == s;
    } else {
      CanonicalDigitsRoundTrip(s);
    }
  }
}
