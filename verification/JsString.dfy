/**
 * What JavaScript makes of a string: white space, and which strings compare equal to `false`.
 */
module JsString {

  /** What `\s` matches, which is also what conversions to a number skip. */
  predicate IsSpace(c: char) {
    || '\t' <= c <= '\r' || c == ' ' || c == '\U{A0}' || c == '\U{1680}' || '\U{2000}' <= c <= '\U{200A}'
    || c == '\U{2028}' || c == '\U{2029}' || c == '\U{202F}' || c == '\U{205F}' || c == '\U{3000}' || c == '\U{FEFF}'
  }

  function TrimStart(s: string): string {
    if s != "" && IsSpace(s[0]) then TrimStart(s[1..]) else s
  }

  function TrimEnd(s: string): string {
    if s != "" && IsSpace(s[|s| - 1]) then TrimEnd(s[..|s| - 1]) else s
  }

  predicate IsDigit(c: char) {
    '0' <= c <= '9'
  }

  predicate AllDigits(s: string) {
    forall c <- s :: IsDigit(c)
  }

  function ParseDec(s: string): nat
    requires AllDigits(s)
  {
    if s == "" then 0
    else
      var last := s[|s| - 1];
      assert last in s;
      ParseDec(s[..|s| - 1]) * 10 + (last as int - '0' as int)
  }

  function Pow(b: nat, e: nat): nat {
    if e == 0 then 1 else b * Pow(b, e - 1)
  }

  /** Where the first character that is one of `these` stands, or the length. */
  function IndexOf(s: string, these: string): (i: nat)
    ensures i <= |s|
  {
    if s == "" || s[0] in these then 0 else 1 + IndexOf(s[1..], these)
  }

  function StripSign(s: string): string {
    if s != "" && (s[0] == '+' || s[0] == '-') then s[1..] else s
  }

  /** `digits × 10^scale` converts to zero: it is zero, or no more than half the least positive number,
      2^-1074. */
  predicate Vanishes(digits: nat, scale: int) {
    digits == 0 || (scale < 0 && digits * Pow(2, 1075) <= Pow(10, -scale))
  }

  /** The number that the digits before and behind the point make together. */
  function Together(whole: string, fraction: string): nat
    requires AllDigits(whole) && AllDigits(fraction)
  {
    ParseDec(whole) * Pow(10, |fraction|) + ParseDec(fraction)
  }

  /** A decimal numeral whose value converts to zero: digits, perhaps a point, perhaps an exponent. */
  predicate IsZeroDecimal(s: string) {
    var mantissa := s[..IndexOf(s, "eE")];
    var exponent := s[|mantissa|..];
    var whole := mantissa[..IndexOf(mantissa, ".")];
    var fraction := if |whole| < |mantissa| then mantissa[|whole| + 1..] else "";
    && AllDigits(whole) && AllDigits(fraction) && whole + fraction != ""
    && if exponent == "" then Vanishes(Together(whole, fraction), -|fraction|)
       else
         var e := StripSign(exponent[1..]);
         && e != "" && AllDigits(e)
         && var power: int := ParseDec(e);
            Vanishes(Together(whole, fraction), (if exponent[1] == '-' then -power else power) - |fraction|)
  }

  /** A numeral in base 2, 8 or 16, all of whose digits are zero. */
  predicate IsZeroRadix(s: string) {
    |s| > 2 && s[0] == '0' && s[1] in "xXoObB" && forall c <- s[2..] :: c == '0'
  }

  /** `s == false`: the string is blank, or a numeral for zero. */
  predicate EqualsFalse(s: string) {
    var t := TrimEnd(TrimStart(s));
    t == "" || IsZeroRadix(t) || IsZeroDecimal(StripSign(t))
  }

  predicate IsLetter(c: char) {
    'a' <= c <= 'z' || 'A' <= c <= 'Z'
  }

  lemma {:induction false} TrimEndKeepsFirst(s: string)
    requires s != "" && !IsSpace(s[0])
    ensures TrimEnd(s) != "" && TrimEnd(s)[0] == s[0]
    decreases |s|
  {
    if IsSpace(s[|s| - 1]) {
      TrimEndKeepsFirst(s[..|s| - 1]);
    }
  }

  /** A name that begins with a letter is never taken for `false`. */
  lemma NamesAreNotFalse(s: string)
    requires s != "" && IsLetter(s[0])
    ensures !EqualsFalse(s)
  {
    TrimEndKeepsFirst(s);
    var t := TrimEnd(s);
    var mantissa := t[..IndexOf(t, "eE")];
    var whole := mantissa[..IndexOf(mantissa, ".")];
    if whole != "" {
      assert whole[0] == t[0] && whole[0] in whole;
    }
  }

  lemma {:induction false} OnlyZeros(s: string)
    requires forall i :: 0 <= i < |s| ==> s[i] == '0'
    ensures AllDigits(s) && ParseDec(s) == 0 && IndexOf(s, "eE") == |s| && IndexOf(s, ".") == |s|
    ensures TrimStart(s) == s && TrimEnd(s) == s
  {
    if s != "" {
      assert s[0] in s && s[|s| - 1] in s;
      OnlyZeros(s[1..]);
      OnlyZeros(s[..|s| - 1]);
    }
  }

  /** A name of zeros is, however long, and so is the empty name. */
  lemma ZerosAreFalse(s: string)
    requires forall i :: 0 <= i < |s| ==> s[i] == '0'
    ensures EqualsFalse(s)
  {
    OnlyZeros(s);
    if s != "" {
      assert StripSign(s) == s && s[..|s|] == s && s[|s|..] == "";
      assert s + "" == s;
    }
  }

  lemma {:induction false} ParseDecIsZero(s: string)
    requires AllDigits(s)
    ensures ParseDec(s) == 0 <==> forall i :: 0 <= i < |s| ==> s[i] == '0'
  {
    if s != "" {
      var front := s[..|s| - 1];
      assert s[|s| - 1] in s;
      ParseDecIsZero(front);
      assert forall i :: 0 <= i < |front| ==> front[i] == s[i];
    }
  }

  lemma {:induction false} NoneFound(s: string, these: string)
    requires forall c <- s :: c !in these
    ensures IndexOf(s, these) == |s|
  {
    if s != "" {
      NoneFound(s[1..], these);
    }
  }

  lemma NotTrimmed(s: string)
    requires s != "" && !IsSpace(s[0]) && !IsSpace(s[|s| - 1])
    ensures TrimEnd(TrimStart(s)) == s
  {
  }

  lemma DigitsAreOneNumeral(s: string)
    requires s != "" && AllDigits(s)
    ensures IsZeroDecimal(s) <==> ParseDec(s) == 0
  {
    NoneFound(s, "eE");
    NoneFound(s, ".");
    assert s[..|s|] == s && s[|s|..] == "" && s + "" == s;
    assert ParseDec("") == 0 && Pow(10, 0) == 1;
  }

  lemma DigitIsNoSpace(c: char)
    requires IsDigit(c) || c == '+' || c == '-'
    ensures !IsSpace(c) && (IsDigit(c) ==> c != '+' && c != '-') && c !in "xXoObB"
  {
  }

  lemma SignedDigits(sign: string, digits: string)
    requires (sign == "" || sign == "+" || sign == "-") && digits != "" && AllDigits(digits)
    ensures var s := sign + digits;
            && s != "" && !IsSpace(s[0]) && !IsSpace(s[|s| - 1]) && StripSign(s) == digits && !IsZeroRadix(s)
  {
    hide IsSpace;
    var s, n := sign + digits, |digits| - 1;
    assert digits[0] in digits && digits[n] in digits;
    DigitIsNoSpace(digits[0]);
    DigitIsNoSpace(digits[n]);
    assert s[|s| - 1] == digits[n];
    if sign == "" {
      assert s == digits;
      if n > 0 {
        assert digits[1] in digits;
        DigitIsNoSpace(digits[1]);
      }
    } else {
      DigitIsNoSpace(sign[0]);
      assert s[0] == sign[0] && s[1..] == digits;
    }
  }

  /** A name of digits, perhaps with a sign, is taken for `false` exactly when all of them are zeros. */
  lemma DigitsAreFalseExactly(sign: string, digits: string)
    requires (sign == "" || sign == "+" || sign == "-") && digits != "" && AllDigits(digits)
    ensures EqualsFalse(sign + digits) <==> forall i :: 0 <= i < |digits| ==> digits[i] == '0'
  {
    hide IsZeroDecimal, IsZeroRadix, StripSign, TrimStart, TrimEnd, IsSpace, ParseDec, AllDigits;
    SignedDigits(sign, digits);
    NotTrimmed(sign + digits);
    DigitsAreOneNumeral(digits);
    ParseDecIsZero(digits);
  }

  // ----- white space, other bases, and underflow -----

  predicate AllSpace(s: string) {
    forall i :: 0 <= i < |s| ==> IsSpace(s[i])
  }

  lemma {:induction false} TrimStartDrops(space: string, s: string)
    requires AllSpace(space)
    ensures TrimStart(space + s) == TrimStart(s)
  {
    if space != "" {
      assert (space + s)[1..] == space[1..] + s;
      TrimStartDrops(space[1..], s);
    } else {
      assert space + s == s;
    }
  }

  lemma {:induction false} TrimEndDrops(s: string, space: string)
    requires AllSpace(space)
    ensures TrimEnd(s + space) == TrimEnd(s)
  {
    if space != "" {
      var n := |space| - 1;
      assert (s + space)[..|s + space| - 1] == s + space[..n];
      TrimEndDrops(s, space[..n]);
    } else {
      assert s + space == s;
    }
  }

  lemma {:induction false} TrimStartOfBoth(s: string, space: string)
    requires AllSpace(space)
    ensures TrimEnd(TrimStart(s + space)) == TrimEnd(TrimStart(s))
  {
    if s == "" {
      assert s + space == space + "";
      TrimStartDrops(space, "");
    } else if IsSpace(s[0]) {
      assert (s + space)[1..] == s[1..] + space;
      TrimStartOfBoth(s[1..], space);
    } else {
      TrimEndDrops(s, space);
    }
  }

  /** White space around a name makes no difference. */
  lemma SpaceMakesNoDifference(before: string, s: string, behind: string)
    requires AllSpace(before) && AllSpace(behind)
    ensures EqualsFalse(before + s + behind) <==> EqualsFalse(s)
  {
    hide IsZeroDecimal, IsZeroRadix;
    assert before + s + behind == before + (s + behind);
    TrimStartDrops(before, s + behind);
    TrimStartOfBoth(s, behind);
  }

  /** In base 2, 8 or 16 too, a numeral is taken for `false` when all its digits are zeros. */
  lemma RadixZerosAreFalse(base: char, zeros: string)
    requires base in "xXoObB" && zeros != "" && forall i :: 0 <= i < |zeros| ==> zeros[i] == '0'
    ensures EqualsFalse("0" + [base] + zeros)
  {
    var s := "0" + [base] + zeros;
    NotTrimmed(s);
    assert s[2..] == zeros;
    assert s[0] == '0' && s[1] == base && |s| > 2;
    assert IsZeroRadix(s);
  }

  lemma MulAssoc(a: nat, b: nat, c: nat)
    ensures a * (b * c) == (a * b) * c
  {
  }

  lemma PowStep(b: nat, n: nat)
    ensures Pow(b, 0) == 1 && Pow(b, n + 1) == b * Pow(b, n)
  {
  }

  lemma {:induction false} PowAdds(b: nat, m: nat, n: nat)
    ensures Pow(b, m + n) == Pow(b, m) * Pow(b, n)
  {
    hide Pow;
    PowStep(b, 0);
    if m > 0 {
      PowAdds(b, m - 1, n);
      PowStep(b, m - 1);
      PowStep(b, m - 1 + n);
      MulAssoc(b, Pow(b, m - 1), Pow(b, n));
    }
  }

  lemma PowOf2()
    ensures Pow(2, 1) == 2 && Pow(2, 2) == 4 && Pow(2, 3) == 8 && Pow(2, 10) == 1024
    ensures Pow(10, 1) == 10 && Pow(10, 2) == 100 && Pow(10, 3) == 1000
  {
    assert Pow(2, 4) == 16 && Pow(2, 5) == 32 && Pow(2, 6) == 64 && Pow(2, 7) == 128 && Pow(2, 8) == 256 && Pow(2, 9) == 512;
  }

  lemma PowIsPositive(b: nat, n: nat)
    requires b > 0
    ensures Pow(b, n) > 0
  {
  }

  lemma MulMono(a: nat, b: nat, c: nat, d: nat)
    requires a <= b && c <= d
    ensures a * c <= b * d
  {
    assert a * c <= b * c <= b * d;
  }

  /** Ten is more than two to the third, and its cube less than two to the tenth. */
  lemma {:induction false} TensAgainstTwos(k: nat)
    ensures Pow(2, 3 * k) <= Pow(10, k) && Pow(10, 3 * k) <= Pow(2, 10 * k)
  {
    if k > 0 {
      TensAgainstTwos(k - 1);
      PowOf2();
      hide Pow;
      PowAdds(2, 3, 3 * (k - 1));
      PowAdds(10, 1, k - 1);
      MulMono(8, 10, Pow(2, 3 * (k - 1)), Pow(10, k - 1));
      PowAdds(10, 3, 3 * (k - 1));
      PowAdds(2, 10, 10 * (k - 1));
      MulMono(1000, 1024, Pow(10, 3 * (k - 1)), Pow(2, 10 * (k - 1)));
    }
  }

  lemma PowGrows(b: nat, m: nat, n: nat)
    requires b > 0 && m <= n
    ensures Pow(b, m) <= Pow(b, n)
  {
    PowAdds(b, n - m, m);
    PowIsPositive(b, n - m);
    PowIsPositive(b, m);
    MulMono(1, Pow(b, n - m), Pow(b, m), Pow(b, m));
  }

  /** A power of ten small enough is zero to JavaScript: certainly from 1e-359 down, and not from 1e-321
      up. */
  lemma TinyVanishes(k: int)
    requires k >= 0
    ensures k >= 359 ==> Vanishes(1, -k)
    ensures k <= 321 ==> !Vanishes(1, -k)
  {
    hide Pow;
    if k >= 359 {
      TensAgainstTwos(k);
      PowGrows(2, 1075, 3 * k);
    } else if k <= 321 {
      TensAgainstTwos(107);
      PowGrows(10, k, 321);
      PowAdds(2, 5, 1070);
      FiveTwos();
      PowIsPositive(2, 1070);
    }
  }

  lemma FiveTwos()
    ensures Pow(2, 5) == 32
  {
  }

  lemma {:induction false} FoundFirst(a: string, b: string, these: string)
    requires (forall c <- a :: c !in these) && b != "" && b[0] in these
    ensures IndexOf(a + b, these) == |a|
  {
    if a != "" {
      assert (a + b)[1..] == a[1..] + b;
      FoundFirst(a[1..], b, these);
    } else {
      assert a + b == b;
    }
  }

  lemma DigitsHaveNone(s: string)
    requires AllDigits(s)
    ensures forall c <- s :: c !in "." && c !in "eE" && !IsSpace(c) && c !in "xXoObB" && c != '+' && c != '-'
  {
  }

  /** Where the parts of such a numeral are. */
  lemma PointedParts(whole: string, fraction: string)
    requires AllDigits(whole) && AllDigits(fraction)
    ensures var s := whole + "." + fraction;
            && IndexOf(s, "eE") == |s| && IndexOf(s, ".") == |whole|
            && s[..|s|] == s && s[|s|..] == "" && s[..|whole|] == whole && s[|whole| + 1..] == fraction
  {
    var s := whole + "." + fraction;
    DigitsHaveNone(whole);
    DigitsHaveNone(fraction);
    hide IndexOf, AllDigits, IsDigit, IsSpace;
    forall c | c in s ensures c !in "eE" {
      assert c in whole || c == '.' || c in fraction;
    }
    NoneFound(s, "eE");
    assert s == whole + ("." + fraction);
    FoundFirst(whole, "." + fraction, ".");
  }

  lemma PointedValue(whole: string, fraction: string)
    requires AllDigits(whole) && AllDigits(fraction) && whole + fraction != ""
    ensures var f: int := |fraction|;
            IsZeroDecimal(whole + "." + fraction) <==> Vanishes(Together(whole, fraction), -f)
  {
    hide Pow, ParseDec, IndexOf, AllDigits, Vanishes, Together;
    PointedParts(whole, fraction);
  }

  lemma WholeNumbersStay(digits: nat, places: int)
    requires 0 <= places <= 321
    ensures Vanishes(digits, -places) <==> digits == 0
  {
    TinyVanishes(places);
    hide Pow;
    if digits > 0 {
      MulMono(1, digits, Pow(2, 1075), Pow(2, 1075));
    }
  }

  /** A point with digits before or behind it, or both, and not too many behind to be told from zero. */
  lemma FractionIsZero(whole: string, fraction: string)
    requires AllDigits(whole) && AllDigits(fraction) && whole + fraction != "" && |fraction| <= 321
    ensures IsZeroDecimal(whole + "." + fraction) <==> ParseDec(whole) == 0 && ParseDec(fraction) == 0
  {
    hide Pow, ParseDec, AllDigits, Vanishes, IsZeroDecimal;
    var f: int := |fraction|;
    PointedValue(whole, fraction);
    WholeNumbersStay(Together(whole, fraction), f);
    PowIsPositive(10, f);
    SumIsZero(ParseDec(whole), Pow(10, f), ParseDec(fraction));
  }

  lemma SumIsZero(a: nat, b: nat, c: nat)
    requires b > 0
    ensures a * b + c == 0 <==> a == 0 && c == 0
  {
    if a > 0 {
      MulMono(1, a, 1, b);
    }
  }

  /** A decimal fraction is taken for `false` exactly when all of its digits are zeros. */
  lemma FractionsAreFalseExactly(whole: string, fraction: string)
    requires AllDigits(whole) && AllDigits(fraction) && whole + fraction != "" && |fraction| <= 321
    ensures EqualsFalse(whole + "." + fraction) <==>
            (forall i :: 0 <= i < |whole| ==> whole[i] == '0') && (forall i :: 0 <= i < |fraction| ==> fraction[i] == '0')
  {
    var s := whole + "." + fraction;
    PointedDigits(whole, fraction);
    hide IsZeroDecimal, IsZeroRadix, StripSign, TrimStart, TrimEnd, IsSpace, ParseDec, AllDigits;
    NotTrimmed(s);
    FractionIsZero(whole, fraction);
    ParseDecIsZero(whole);
    ParseDecIsZero(fraction);
  }

  lemma PointedDigits(whole: string, fraction: string)
    requires AllDigits(whole) && AllDigits(fraction)
    ensures var s := whole + "." + fraction;
            && s != "" && !IsSpace(s[0]) && !IsSpace(s[|s| - 1]) && StripSign(s) == s && !IsZeroRadix(s)
  {
    var s := whole + "." + fraction;
    DigitsHaveNone(whole);
    DigitsHaveNone(fraction);
    assert !IsSpace('.');
    hide IsSpace, AllDigits;
    assert s[0] == if whole == "" then '.' else whole[0];
    assert s[|s| - 1] == if fraction == "" then '.' else fraction[|fraction| - 1];
    if |s| > 2 {
      assert s[1] == if whole == "" then fraction[0] else if |whole| == 1 then '.' else whole[1];
    }
  }

  /** One times a power of ten: only so small a one that it underflows is taken for `false`. */
  lemma PowersOfTen(sign: string, exponent: string)
    requires (sign == "" || sign == "-") && exponent != "" && AllDigits(exponent)
    ensures sign == "-" && ParseDec(exponent) >= 359 ==> EqualsFalse("1e" + sign + exponent)
    ensures sign == "" || ParseDec(exponent) <= 321 ==> !EqualsFalse("1e" + sign + exponent)
  {
    var s := "1e" + sign + exponent;
    PowerEnds(sign, exponent);
    PowerParts(sign, exponent);
    OneIsOne();
    hide IsZeroRadix, StripSign, TrimStart, TrimEnd, IsSpace, ParseDec, AllDigits, IndexOf, Together, Vanishes;
    NotTrimmed(s);
    var power: int := ParseDec(exponent);
    if sign == "-" {
      TinyVanishes(power);
    } else {
      NotBelowOne(power);
    }
  }

  lemma NotBelowOne(scale: int)
    requires scale >= 0
    ensures !Vanishes(1, scale)
  {
  }

  lemma OneIsOne()
    ensures AllDigits("1") && AllDigits("") && Together("1", "") == 1
  {
    assert ParseDec("1") == 1 && ParseDec("") == 0 && Pow(10, 0) == 1;
  }

  lemma PowerEnds(sign: string, exponent: string)
    requires (sign == "" || sign == "-") && exponent != "" && AllDigits(exponent)
    ensures var s := "1e" + sign + exponent;
            !IsSpace(s[0]) && !IsSpace(s[|s| - 1]) && !IsZeroRadix(s) && StripSign(s) == s
  {
    var s, n := "1e" + sign + exponent, |exponent| - 1;
    assert exponent[n] in exponent;
    DigitIsNoSpace(exponent[n]);
    assert !IsSpace('1');
    hide IsSpace, AllDigits;
    assert s[|s| - 1] == exponent[n] && s[0] == '1';
  }

  lemma PowerParts(sign: string, exponent: string)
    requires (sign == "" || sign == "-") && exponent != "" && AllDigits(exponent)
    ensures var s := "1e" + sign + exponent;
            && IndexOf(s, "eE") == 1 && s[..1] == "1" && IndexOf("1", ".") == 1 && "1"[..1] == "1"
            && s[1..] != "" && s[1..][1..] == sign + exponent && StripSign(sign + exponent) == exponent
            && (s[1..][1] == '-' <==> sign == "-")
  {
    var s, tail := "1e" + sign + exponent, sign + exponent;
    assert exponent[0] in exponent;
    DigitIsNoSpace(exponent[0]);
    hide IsSpace, AllDigits, IndexOf, IsDigit;
    MantissaIsOne(tail);
    assert s == "1e" + tail && s[1..][1..] == tail;
    if sign == "" { assert tail == exponent; } else { assert tail[1..] == exponent; }
  }

  lemma MantissaIsOne(tail: string)
    ensures IndexOf("1e" + tail, "eE") == 1 && ("1e" + tail)[..1] == "1" && IndexOf("1", ".") == 1 && "1"[..1] == "1"
  {
    assert "1e" + tail == "1" + ("e" + tail);
    FoundFirst("1", "e" + tail, "eE");
    NoneFound("1", ".");
  }
}
