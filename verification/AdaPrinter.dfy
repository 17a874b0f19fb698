/**
 * Printing an amount of lovelace in ADA, with `_` between groups of three digits, and reading it
 * back.
 */
module AdaPrinter {
  import opened JsString
  import opened Wrappers

  const MILLION := 1_000_000

  function DigitOf(d: nat): char
    requires d < 10
  {
    '0' + d as char
  }

  // ----- printing -----

  function Dec(n: nat): (s: string)
    ensures s != "" && AllDigits(s)
  {
    if n < 10 then [DigitOf(n)] else Dec(n / 10) + [DigitOf(n % 10)]
  }

  /** `toFixed(0)` of a whole number. */
  function ToFixed(x: int): string {
    if x < 0 then "-" + Dec(-x) else Dec(x)
  }

  /** `padStart(length, "0")`. */
  function PadStart(s: string, length: nat): string
    decreases length - |s|
  {
    if |s| >= length then s else PadStart("0" + s, length)
  }

  /** A `_` wherever a multiple of three digits follows a digit. */
  function GroupWhole(s: string): string {
    if |s| <= 1 then s
    else [s[0]] + (if IsDigit(s[0]) && (|s| - 1) % 3 == 0 then "_" else "") + GroupWhole(s[1..])
  }

  /** A `_` after every three digits that a digit follows, left to right. */
  function GroupFraction(s: string): string {
    if |s| >= 4 && AllDigits(s[..4]) then s[..3] + "_" + GroupFraction(s[3..])
    else if s == "" then ""
    else [s[0]] + GroupFraction(s[1..])
  }

  function StripMinus(s: string): string {
    if s != "" && s[0] == '-' then s[1..] else s
  }

  /** JavaScript's `%`: the remainder has the sign of the dividend. */
  function Remainder(n: int): int {
    if n >= 0 then n % MILLION else -((-n) % MILLION)
  }

  function Whole(n: int): string {
    GroupWhole(ToFixed(n / MILLION))
  }

  function Fraction(n: int): string {
    StripMinus(GroupFraction(PadStart(ToFixed(Remainder(n)), 6)))
  }

  /** `lovelaceToAda`. */
  function LovelaceToAda(n: int): string {
    Whole(n) + "." + Fraction(n) + " ADA"
  }

  // ----- reading -----

  function DropUnderscores(s: string): string {
    if s == "" then "" else (if s[0] == '_' then "" else [s[0]]) + DropUnderscores(s[1..])
  }

  function BeforeDot(s: string): (r: string)
    ensures |r| <= |s|
  {
    if s == "" || s[0] == '.' then "" else [s[0]] + BeforeDot(s[1..])
  }

  /** An optional minus, digits, and exactly six digits of fraction. */
  function ReadParts(whole: string, fraction: string): Option<int> {
    var digits := StripMinus(whole);
    if digits == "" || !AllDigits(digits) || !AllDigits(fraction) || |fraction| != 6 then None
    else
      var amount := ParseDec(digits) * MILLION + ParseDec(fraction);
      Some(if digits == whole then amount else -amount)
  }

  function ReadBack(s: string): Option<int> {
    if |s| < 4 || s[|s| - 4..] != " ADA" then None
    else
      var text := s[..|s| - 4];
      var whole := BeforeDot(text);
      if |whole| == |text| then None
      else ReadParts(DropUnderscores(whole), DropUnderscores(text[|whole| + 1..]))
  }

  // ----- digits -----

  lemma {:induction false} DecParses(n: nat)
    ensures ParseDec(Dec(n)) == n
  {
    if n >= 10 {
      DecParses(n / 10);
      var s := Dec(n);
      assert s[..|s| - 1] == Dec(n / 10);
    }
  }

  function Pow10(k: nat): nat {
    if k == 0 then 1 else 10 * Pow10(k - 1)
  }

  lemma {:induction false} DecLength(n: nat, k: nat)
    requires k >= 1
    ensures |Dec(n)| <= k <==> n < Pow10(k)
    decreases n
  {
    if n >= 10 && k > 1 {
      DecLength(n / 10, k - 1);
    } else if n >= 10 {
      assert Pow10(1) == 10;
    } else {
      TenAtLeast(k);
    }
  }

  lemma TenAtLeast(k: nat)
    requires k >= 1
    ensures Pow10(k) >= 10
  {
  }

  lemma {:induction false} ZeroInFront(s: string)
    requires AllDigits(s)
    ensures AllDigits("0" + s) && ParseDec("0" + s) == ParseDec(s)
    decreases |s|
  {
    var t := "0" + s;
    if s == "" {
      assert t[..0] == "";
    } else {
      assert t[..|t| - 1] == "0" + s[..|s| - 1];
      ZeroInFront(s[..|s| - 1]);
    }
  }

  lemma {:induction false} PadParses(s: string, length: nat)
    requires AllDigits(s) && |s| <= length
    ensures var t := PadStart(s, length); |t| == length && AllDigits(t) && ParseDec(t) == ParseDec(s)
    decreases length - |s|
  {
    if |s| < length {
      ZeroInFront(s);
      PadParses("0" + s, length);
    }
  }

  /** Padding something shorter puts a zero in front and keeps what was there. */
  lemma {:induction false} PadKeeps(s: string, length: nat)
    requires |s| < length
    ensures var t := PadStart(s, length); |t| == length && t[0] == '0' && forall c <- s :: c in t
    decreases length - |s|
  {
    if |s| + 1 < length {
      PadKeeps("0" + s, length);
      assert forall c <- s :: c in "0" + s;
    } else {
      assert PadStart(s, length) == "0" + s;
    }
  }

  // ----- grouping -----

  lemma {:induction false} DropConcat(a: string, b: string)
    ensures DropUnderscores(a + b) == DropUnderscores(a) + DropUnderscores(b)
  {
    if a == "" {
      assert a + b == b;
    } else {
      assert (a + b)[1..] == a[1..] + b;
      DropConcat(a[1..], b);
    }
  }

  lemma {:induction false} DropNothing(s: string)
    requires '_' !in s
    ensures DropUnderscores(s) == s
  {
    if s != "" {
      DropNothing(s[1..]);
    }
  }

  /** Grouping only inserts underscores. */
  lemma {:induction false} GroupWholeDrops(s: string)
    requires '_' !in s && '.' !in s
    ensures DropUnderscores(GroupWhole(s)) == s && '.' !in GroupWhole(s)
  {
    if |s| <= 1 {
      DropNothing(s);
    } else {
      GroupWholeDrops(s[1..]);
      var sep := if IsDigit(s[0]) && (|s| - 1) % 3 == 0 then "_" else "";
      DropConcat([s[0]] + sep, GroupWhole(s[1..]));
      DropConcat([s[0]], sep);
      DropNothing([s[0]]);
      assert s == [s[0]] + s[1..];
    }
  }

  lemma {:induction false} GroupFractionDrops(s: string)
    requires '_' !in s
    ensures DropUnderscores(GroupFraction(s)) == s
    ensures s != "" ==> GroupFraction(s) != "" && GroupFraction(s)[0] == s[0]
    decreases |s|
  {
    hide DropUnderscores, AllDigits;
    if |s| >= 4 && AllDigits(s[..4]) {
      GroupFractionDrops(s[3..]);
      DropsAround(s[..3], "_", GroupFraction(s[3..]));
      assert s == s[..3] + s[3..];
    } else if s != "" {
      GroupFractionDrops(s[1..]);
      DropsAround([s[0]], "", GroupFraction(s[1..]));
      assert [s[0]] + "" == [s[0]];
    } else {
      DropNothing("");
    }
  }

  lemma DropsAround(a: string, sep: string, b: string)
    requires '_' !in a && (sep == "" || sep == "_")
    ensures DropUnderscores(a + sep + b) == a + DropUnderscores(b)
  {
    DropSeparator(sep);
    hide DropUnderscores;
    DropConcat(a + sep, b);
    DropConcat(a, sep);
    DropNothing(a);
    assert a + "" == a;
  }

  lemma DropSeparator(sep: string)
    requires sep == "" || sep == "_"
    ensures DropUnderscores(sep) == ""
  {
    assert sep == "_" ==> sep[1..] == "";
  }

  lemma {:induction false} GroupedLength(s: string)
    requires AllDigits(s) && s != ""
    ensures |GroupWhole(s)| == |s| + (|s| - 1) / 3
  {
    if |s| > 1 {
      assert s[0] in s;
      GroupedLength(s[1..]);
    }
  }

  /** With `n` digits to the right, where a separator and where the next digit goes. */
  lemma SeparatorPlaces(n: nat)
    requires n > 0
    ensures n % 3 == 0 ==> (n + (n - 1) / 3) % 4 == 3
    ensures (n + n / 3) % 4 != 3
    ensures n % 3 != 0 ==> n / 3 == (n - 1) / 3
    ensures n % 3 == 0 ==> n / 3 == (n - 1) / 3 + 1
  {
    var q, r := n / 3, n % 3;
    assert n == 3 * q + r;
    assert n + q == 4 * q + r;
    if r == 0 {
      assert (n - 1) / 3 == q - 1;
      assert n + (q - 1) == 4 * (q - 1) + 3;
    }
  }

  /** Main result: in a printed whole part, counting from the right, exactly every fourth character
      is an underscore. */
  lemma {:induction false} WholeInThrees(s: string, i: nat)
    requires AllDigits(s) && i < |GroupWhole(s)|
    ensures GroupWhole(s)[|GroupWhole(s)| - 1 - i] == '_' <==> i % 4 == 3
    decreases s
  {
    assert s != "" && s[0] in s;
    if |s| > 1 {
      var g, h, n := GroupWhole(s), GroupWhole(s[1..]), |s| - 1;
      GroupedLength(s[1..]);
      SeparatorPlaces(n);
      if i < |h| {
        assert g[|g| - 1 - i] == h[|h| - 1 - i];
        WholeInThrees(s[1..], i);
      }
    }
  }

  lemma {:induction false} SixDigitsGrouped(s: string)
    requires AllDigits(s) && |s| == 6
    ensures GroupFraction(s) == s[..3] + "_" + s[3..]
  {
    var t := s[3..];
    assert AllDigits(s[..4]);
    assert t[1..][1..][1..] == "";
    assert GroupFraction(t[1..][1..]) == [t[2]] + GroupFraction("");
    assert GroupFraction(t[1..]) == [t[1]] + GroupFraction(t[1..][1..]);
    assert GroupFraction(t) == [t[0]] + GroupFraction(t[1..]);
    assert t == [t[0]] + ([t[1]] + [t[2]]);
  }

  /** Main result: a non-negative amount is printed with a six-digit fraction, in two threes, and
      with the whole part grouped in threes from the right. */
  lemma PrintedShape(n: nat, i: nat)
    requires i < |Whole(n)|
    ensures Whole(n)[|Whole(n)| - 1 - i] == '_' <==> i % 4 == 3
    ensures |Fraction(n)| == 7 && Fraction(n)[3] == '_'
    ensures AllDigits(Fraction(n)[..3] + Fraction(n)[4..])
  {
    WholeInThrees(Dec(n / MILLION), i);
    SixDigits(n % MILLION);
    var f := PadStart(Dec(n % MILLION), 6);
    SixDigitsGrouped(f);
    assert GroupFraction(f)[0] in f;
    assert GroupFraction(f)[..3] == f[..3] && GroupFraction(f)[4..] == f[3..];
  }

  // ----- the round trip -----

  lemma {:induction false} BeforeDotIs(a: string, b: string)
    requires '.' !in a
    ensures BeforeDot(a + "." + b) == a
  {
    if a != "" {
      assert (a + "." + b)[1..] == a[1..] + "." + b;
      BeforeDotIs(a[1..], b);
    }
  }

  lemma NoSeparators(x: int)
    ensures '_' !in ToFixed(x) && '.' !in ToFixed(x)
  {
    assert forall c <- ToFixed(x) :: c == '-' || IsDigit(c);
  }

  lemma {:induction false} PadHasNo(s: string, length: nat)
    requires '_' !in s
    ensures '_' !in PadStart(s, length)
    decreases length - |s|
  {
    if |s| < length {
      PadHasNo("0" + s, length);
    }
  }

  /** What reading makes of a printed amount, the grouping aside. */
  lemma ReadsUngrouped(n: int)
    ensures ReadBack(LovelaceToAda(n))
            == ReadParts(ToFixed(n / MILLION), StripMinus(PadStart(ToFixed(Remainder(n)), 6)))
  {
    var whole := ToFixed(n / MILLION);
    var padded := PadStart(ToFixed(Remainder(n)), 6);
    NoSeparators(n / MILLION);
    NoSeparators(Remainder(n));
    PadHasNo(ToFixed(Remainder(n)), 6);
    GroupWholeDrops(whole);
    GroupFractionDrops(padded);
    var s := LovelaceToAda(n);
    var text := s[..|s| - 4];
    assert text == Whole(n) + "." + Fraction(n);
    BeforeDotIs(Whole(n), Fraction(n));
    assert text[|Whole(n)| + 1..] == Fraction(n);
    assert DropUnderscores(Fraction(n)) == StripMinus(padded);
  }

  /** Main result: a printed amount reads back as itself exactly when it is not negative, or is a
      whole number of ADA. */
  lemma ReadsBackExactly(n: int)
    ensures ReadBack(LovelaceToAda(n)) == Some(n) <==> n >= 0 || n % MILLION == 0
  {
    ReadsUngrouped(n);
    if n >= 0 {
      NonNegativeReads(n);
    } else if n % MILLION == 0 {
      WholeNegativeReads(n);
    } else {
      NegativeMisreads(n);
    }
  }

  lemma SixDigits(r: nat)
    requires r < MILLION
    ensures var f := PadStart(Dec(r), 6); |f| == 6 && AllDigits(f) && ParseDec(f) == r && StripMinus(f) == f
  {
    assert Pow10(6) == MILLION;
    DecLength(r, 6);
    PadParses(Dec(r), 6);
    DecParses(r);
    assert PadStart(Dec(r), 6)[0] in PadStart(Dec(r), 6);
  }

  lemma NoMinus(n: nat)
    ensures StripMinus(Dec(n)) == Dec(n)
  {
    assert Dec(n)[0] in Dec(n);
  }

  lemma NonNegativeReads(n: nat)
    ensures ReadParts(ToFixed(n / MILLION), StripMinus(PadStart(ToFixed(Remainder(n)), 6))) == Some(n)
  {
    SixDigits(n % MILLION);
    DecParses(n / MILLION);
    NoMinus(n / MILLION);
  }

  lemma WholeNegativeReads(n: int)
    requires n < 0 && n % MILLION == 0
    ensures ReadParts(ToFixed(n / MILLION), StripMinus(PadStart(ToFixed(Remainder(n)), 6))) == Some(n)
  {
    SixDigits(0);
    DecParses(-(n / MILLION));
    assert Remainder(n) == 0;
    var whole := ToFixed(n / MILLION);
    assert whole == "-" + Dec(-(n / MILLION)) && StripMinus(whole) == Dec(-(n / MILLION));
  }

  lemma PadNothing(s: string)
    requires |s| >= 6
    ensures PadStart(s, 6) == s
  {
  }

  /** A minus sign that is not stripped makes the fraction unreadable. */
  lemma ShortFractionMisreads(whole: string, digits: string)
    requires |digits| < 5
    ensures ReadParts(whole, StripMinus(PadStart("-" + digits, 6))).None?
  {
    var padded := PadStart("-" + digits, 6);
    PadKeeps("-" + digits, 6);
    assert ("-" + digits)[0] == '-' && '-' in padded;
    assert StripMinus(padded) == padded;
    assert !AllDigits(padded);
  }

  /** Five digits, with nothing to pad, are too few. */
  lemma FiveDigitsMisread(whole: string, digits: string)
    requires |digits| == 5 && AllDigits(digits)
    ensures ReadParts(whole, StripMinus(PadStart("-" + digits, 6))).None?
  {
    PadNothing("-" + digits);
    assert StripMinus("-" + digits) == digits;
  }

  /** Six digits are read as they stand, and added to a whole part that was rounded away from zero. */
  lemma SixDigitsMisread(q: nat, whole: string, digits: string)
    requires AllDigits(digits) && |digits| >= 6 && whole == "-" + Dec(q + 1)
    ensures ReadParts(whole, StripMinus(PadStart("-" + digits, 6)))
            == if |digits| == 6 then Some(-((q + 1) * MILLION + ParseDec(digits))) else None
  {
    PadNothing("-" + digits);
    assert StripMinus("-" + digits) == digits;
    assert StripMinus(whole) == Dec(q + 1);
    DecParses(q + 1);
  }

  lemma NegativeMisreads(n: int)
    requires n < 0 && n % MILLION != 0
    ensures ReadParts(ToFixed(n / MILLION), StripMinus(PadStart(ToFixed(Remainder(n)), 6))) != Some(n)
  {
    hide Dec, PadStart, ReadParts, StripMinus;
    var r := (-n) % MILLION;
    var q := (-n) / MILLION;
    assert n / MILLION == -q - 1 && Remainder(n) == -r && r > 0;
    assert n == -(q * MILLION + r);
    if |Dec(r)| < 5 {
      ShortFractionMisreads(ToFixed(n / MILLION), Dec(r));
    } else if |Dec(r)| == 5 {
      FiveDigitsMisread(ToFixed(n / MILLION), Dec(r));
    } else {
      SixDigitsMisread(q, ToFixed(n / MILLION), Dec(r));
      DecParses(r);
    }
  }
}
