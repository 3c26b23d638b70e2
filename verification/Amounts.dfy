/** `src/api/utils.rs`: amounts as text. */
module Amounts {
  import opened Numerals
  import opened Types

  const MICRO_PER_TARI: nat := 1_000_000

  function Reversed(s: string): (r: string)
    ensures |r| == |s|
    ensures forall k :: 0 <= k < |s| ==> r[k] == s[|s| - 1 - k]
  {
    if s == "" then "" else Reversed(s[1..]) + [s[0]]
  }

  /** The digits, last one first, with a comma before every third. */
  function Grouped(ds: string): string {
    if ds == "" then ""
    else
      var last := |ds| - 1;
      Grouped(ds[..last]) + (if last > 0 && last % 3 == 0 then "," else "") + [ds[last]]
  }

  function Separated(d: string): string {
    Reversed(Grouped(Reversed(d)))
  }

  function WithSeparators(n: nat): string {
    Separated(Decimal(n))
  }

  /** `format_with_thousands_separator`. */
  method FormatWithThousandsSeparator(n: nat) returns (s: string)
    ensures s == WithSeparators(n)
  {
    var digits := Reversed(Decimal(n));
    var result := "";
    var i := 0;
    while i < |digits|
      invariant 0 <= i <= |digits|
      invariant result == Grouped(digits[..i])
    {
      assert digits[..i + 1][..i] == digits[..i];
      if i > 0 && i % 3 == 0 {
        result := result + ",";
      }
      result := result + [digits[i]];
      i := i + 1;
    }
    assert digits[..i] == digits;
    s := Reversed(result);
  }

  /** Six digits with leading zeros, as `{:06}` prints a number below a million. */
  function SixDigits(n: nat): (s: string)
    requires n < MICRO_PER_TARI
    ensures |s| == 6
  {
    [Digit(n / 100_000), Digit(n / 10_000 % 10), Digit(n / 1_000 % 10),
     Digit(n / 100 % 10), Digit(n / 10 % 10), Digit(n % 10)]
  }

  const UNIT: string := " XTM"

  function WholePart(whole: nat): string {
    if whole >= 1000 then WithSeparators(whole) else Decimal(whole)
  }

  function Amount(microTari: nat): string {
    WholePart(microTari / MICRO_PER_TARI) + "." + SixDigits(microTari % MICRO_PER_TARI) + UNIT
  }

  /** `format_micro_tari`. */
  method FormatMicroTari(microTari: nat) returns (s: string)
    ensures s == Amount(microTari)
  {
    var whole := microTari / MICRO_PER_TARI;
    var fractional := microTari % MICRO_PER_TARI;
    if whole >= 1000 {
      var formatted := FormatWithThousandsSeparator(whole);
      s := formatted + "." + SixDigits(fractional) + UNIT;
    } else {
      s := Decimal(whole) + "." + SixDigits(fractional) + UNIT;
    }
  }

  // ----- commas fall every three digits from the right -----

  /** How long `n` digits are once their commas are in. */
  function SeparatedLength(n: nat): nat {
    if n == 0 then 0 else n + (n - 1) / 3
  }

  lemma {:induction false} GroupedLength(ds: string)
    ensures |Grouped(ds)| == SeparatedLength(|ds|)
    decreases |ds|
  {
    if ds == "" {
    } else {
      GroupedLength(ds[..|ds| - 1]);
    }
  }

  /** The last digit of `f + 1` digits, and the comma before it, land where they should. */
  lemma LastPlace(f: nat)
    ensures f > 0 && f % 3 == 0 ==>
              SeparatedLength(f) % 4 == 3 && (SeparatedLength(f) + 1) % 4 == 0
    ensures f == 0 || f % 3 != 0 ==> SeparatedLength(f) % 4 != 3
    ensures var at := SeparatedLength(f + 1) - 1;
            at - at / 4 == f
  {
    if f > 0 && f % 3 == 0 {
      assert SeparatedLength(f) == 4 * (f / 3) - 1;
    } else if f > 0 {
      assert SeparatedLength(f) == 4 * (f / 3) + f % 3;
    }
  }

  lemma {:induction false} GroupedAt(ds: string, j: nat)
    requires j < |Grouped(ds)|
    ensures j - j / 4 < |ds|
    ensures Grouped(ds)[j] == if j % 4 == 3 then ',' else ds[j - j / 4]
    decreases |ds|
  {
    var last := |ds| - 1;
    var front := ds[..last];
    GroupedLength(front);
    GroupedLength(ds);
    LastPlace(last);
    if j < |Grouped(front)| {
      GroupedAt(front, j);
      assert Grouped(ds)[j] == Grouped(front)[j];
    }
  }

  /** In the separated text of the digits `d` the character at distance `j` from the right is a
      comma exactly when `j % 4 == 3`, and the others are `d`'s digits in order. */
  lemma CommasEveryThree(d: string, j: nat)
    requires j < |Separated(d)|
    ensures |Separated(d)| == if d == "" then 0 else |d| + (|d| - 1) / 3
    ensures j - j / 4 < |d|
    ensures var s := Separated(d);
            s[|s| - 1 - j] == if j % 4 == 3 then ',' else d[|d| - 1 - (j - j / 4)]
  {
    GroupedLength(Reversed(d));
    GroupedAt(Reversed(d), j);
  }

  // ----- the branch below 1000 -----

  lemma {:induction false} DecimalLength(n: nat)
    ensures |Decimal(n)| <= 3 <==> n < 1000
    ensures |Decimal(n)| <= 2 <==> n < 100
    ensures |Decimal(n)| <= 1 <==> n < 10
    decreases n
  {
    if n >= 10 {
      DecimalLength(n / 10);
    }
  }

  lemma {:induction false} ShortIsUngrouped(ds: string)
    requires |ds| <= 3
    ensures Grouped(ds) == ds
    decreases |ds|
  {
    if ds == "" {
    } else {
      ShortIsUngrouped(ds[..|ds| - 1]);
    }
  }

  /** The branch below 1000 prints what the separator function would print, and only it may. */
  lemma SmallNeedsNoSeparator(n: nat)
    ensures WithSeparators(n) == Decimal(n) <==> n < 1000
  {
    DecimalLength(n);
    if n < 1000 {
      ShortIsUngrouped(Reversed(Decimal(n)));
    } else {
      GroupedLength(Reversed(Decimal(n)));
    }
  }

  // ----- nothing is lost -----

  function Unless(c: char, comma: char): string {
    if c == comma then "" else [c]
  }

  function WithoutCommas(s: string): string {
    if s == "" then "" else WithoutCommas(s[..|s| - 1]) + Unless(s[|s| - 1], ',')
  }

  /** Reads an amount: a whole part whose commas are ignored, a point, six digits, the unit. */
  function Read(s: string): Option<nat> {
    if |s| < 11 || s[|s| - 4..] != " XTM" || s[|s| - 11] != '.' then None
    else
      var whole, fraction := WithoutCommas(s[..|s| - 11]), s[|s| - 10..|s| - 4];
      if AllDigits(whole) && AllDigits(fraction)
      then Some(Value(whole) * 1_000_000 + Value(fraction))
      else None
  }

  lemma WithoutCommasPush(s: string, c: char)
    ensures WithoutCommas(s + [c]) == WithoutCommas(s) + Unless(c, ',')
  {
    assert (s + [c])[..|s|] == s;
  }

  lemma {:induction false} WithoutCommasBoth(a: string, b: string)
    ensures WithoutCommas(a + b) == WithoutCommas(a) + WithoutCommas(b)
    decreases |b|
  {
    if b == "" {
      assert a + b == a;
    } else {
      assert a + b == (a + b[..|b| - 1]) + [b[|b| - 1]];
      WithoutCommasPush(a + b[..|b| - 1], b[|b| - 1]);
      WithoutCommasBoth(a, b[..|b| - 1]);
    }
  }

  lemma {:induction false} WithoutCommasDigits(s: string)
    requires AllDigits(s)
    ensures WithoutCommas(s) == s
    decreases |s|
  {
    if s == "" {
    } else {
      WithoutCommasDigits(s[..|s| - 1]);
    }
  }

  lemma WithoutCommasOne(c: char)
    ensures WithoutCommas([c]) == Unless(c, ',')
  {
    assert [c][..0] == "";
    assert WithoutCommas("") == "";
  }

  /** Going through the text backwards drops the same commas. */
  lemma {:induction false} WithoutCommasReversed(s: string)
    ensures WithoutCommas(Reversed(s)) == Reversed(WithoutCommas(s))
    decreases |s|
  {
    if s == "" {
    } else {
      var c, rest := s[0], s[1..];
      WithoutCommasReversed(rest);
      WithoutCommasPush(Reversed(rest), c);
      assert s == [c] + rest;
      WithoutCommasBoth([c], rest);
      WithoutCommasOne(c);
      if c != ',' {
        var kept := WithoutCommas(rest);
        assert ([c] + kept)[1..] == kept;
      }
    }
  }

  lemma GroupedPush(front: string, c: char)
    ensures Grouped(front + [c]) == Grouped(front) + (if |front| > 0 && |front| % 3 == 0 then "," else "") + [c]
  {
    assert (front + [c])[..|front|] == front;
  }

  lemma UngroupedPush(front: string, c: char)
    requires WithoutCommas(Grouped(front)) == front && c != ','
    ensures WithoutCommas(Grouped(front + [c])) == front + [c]
  {
    var g := Grouped(front);
    GroupedPush(front, c);
    if |front| > 0 && |front| % 3 == 0 {
      WithoutCommasPush(g, ',');
      WithoutCommasPush(g + ",", c);
    } else {
      assert g + "" == g;
      WithoutCommasPush(g, c);
    }
  }

  /** Dropping the commas gives the digits back. */
  lemma {:induction false} Ungrouped(ds: string)
    requires AllDigits(ds)
    ensures WithoutCommas(Grouped(ds)) == ds
    decreases |ds|
  {
    if ds == "" {
    } else {
      var last := |ds| - 1;
      Ungrouped(ds[..last]);
      UngroupedPush(ds[..last], ds[last]);
      assert ds == ds[..last] + [ds[last]];
    }
  }

  lemma TwiceReversed(s: string)
    ensures Reversed(Reversed(s)) == s
  {
    var r := Reversed(s);
    assert forall k :: 0 <= k < |s| ==> Reversed(r)[k] == r[|s| - 1 - k];
  }

  lemma SeparatedReadsBack(d: string)
    requires AllDigits(d)
    ensures WithoutCommas(Separated(d)) == d
  {
    var ds := Reversed(d);
    Ungrouped(ds);
    WithoutCommasReversed(Grouped(ds));
    TwiceReversed(d);
  }

  lemma SixPlaces(n: nat)
    requires n < MICRO_PER_TARI
    ensures n == n / 100_000 * 100_000 + n / 10_000 % 10 * 10_000 + n / 1_000 % 10 * 1_000
                 + n / 100 % 10 * 100 + n / 10 % 10 * 10 + n % 10
  {
    var n1, n2, n3, n4, n5 := n / 10, n / 100, n / 1_000, n / 10_000, n / 100_000;
    assert n2 == n1 / 10 && n3 == n2 / 10 && n4 == n3 / 10 && n5 == n4 / 10;
  }

  lemma ValueOfSix(n: nat)
    requires n < MICRO_PER_TARI
    ensures AllDigits(SixDigits(n)) && Value(SixDigits(n)) == n
  {
    var s1 := [Digit(n / 100_000)];
    var s2 := s1 + [Digit(n / 10_000 % 10)];
    var s3 := s2 + [Digit(n / 1_000 % 10)];
    var s4 := s3 + [Digit(n / 100 % 10)];
    var s5 := s4 + [Digit(n / 10 % 10)];
    assert SixDigits(n) == s5 + [Digit(n % 10)];
    assert "" + s1 == s1;
    ValuePush("", Digit(n / 100_000));
    ValuePush(s1, Digit(n / 10_000 % 10));
    ValuePush(s2, Digit(n / 1_000 % 10));
    ValuePush(s3, Digit(n / 100 % 10));
    ValuePush(s4, Digit(n / 10 % 10));
    ValuePush(s5, Digit(n % 10));
    SixPlaces(n);
  }

  lemma AmountPlaces(printed: string, fraction: string)
    requires |fraction| == 6
    ensures var s := printed + "." + fraction + UNIT;
            && |s| == |printed| + 11
            && s[..|s| - 11] == printed && s[|s| - 11] == '.'
            && s[|s| - 10..|s| - 4] == fraction && s[|s| - 4..] == UNIT
  {
  }

  lemma PartsReadBack(printed: string, fraction: string)
    requires |fraction| == 6 && AllDigits(WithoutCommas(printed)) && AllDigits(fraction)
    ensures Read(printed + "." + fraction + UNIT)
            == Some(Value(WithoutCommas(printed)) * 1_000_000 + Value(fraction))
  {
    AmountPlaces(printed, fraction);
  }

  lemma WholePartReadsBack(whole: nat)
    ensures var digits := WithoutCommas(WholePart(whole));
            AllDigits(digits) && Value(digits) == whole
  {
    DecimalReadsBack(whole);
    SeparatedReadsBack(Decimal(whole));
    WithoutCommasDigits(Decimal(whole));
  }

  /** Every amount can be read back from its text. */
  lemma AmountReadsBack(microTari: nat)
    ensures Read(Amount(microTari)) == Some(microTari)
  {
    var whole, fraction := microTari / MICRO_PER_TARI, microTari % MICRO_PER_TARI;
    WholePartReadsBack(whole);
    ValueOfSix(fraction);
    PartsReadBack(WholePart(whole), SixDigits(fraction));
  }

  /** So different amounts print differently. */
  lemma AmountIsInjective(a: nat, b: nat)
    requires Amount(a) == Amount(b)
    ensures a == b
  {
    AmountReadsBack(a);
    AmountReadsBack(b);
  }

  lemma WholePartIsSeparated(whole: nat)
    ensures WholePart(whole) == Separated(Decimal(whole))
  {
    SmallNeedsNoSeparator(whole);
  }

  lemma SeparatedPlaces(d: string)
    requires AllDigits(d) && d != ""
    ensures |Separated(d)| > 0
    ensures forall j :: 0 <= j < |Separated(d)| ==> (Separated(d)[|Separated(d)| - 1 - j] == ',' <==> j % 4 == 3)
  {
    var s := Separated(d);
    assert |s| > 0 by {
      GroupedLength(Reversed(d));
    }
    hide Separated;
    forall j | 0 <= j < |s| ensures s[|s| - 1 - j] == ',' <==> j % 4 == 3 {
      CommasEveryThree(d, j);
    }
  }

  lemma NumeralOf(n: nat)
    ensures IsNumeral(Decimal(n)) && AllDigits(Decimal(n)) && Decimal(n) != "" && Value(Decimal(n)) == n
  {
    DecimalIsNumeral(n);
    DecimalReadsBack(n);
  }

  lemma WholePartSpelled(whole: nat)
    ensures var s := WholePart(whole);
            && IsNumeral(WithoutCommas(s)) && Value(WithoutCommas(s)) == whole
            && |s| > 0 && forall j :: 0 <= j < |s| ==> (s[|s| - 1 - j] == ',' <==> j % 4 == 3)
  {
    hide WholePart, Separated, IsNumeral, WithoutCommas, Decimal;
    WholePartIsSeparated(whole);
    NumeralOf(whole);
    SeparatedReadsBack(Decimal(whole));
    SeparatedPlaces(Decimal(whole));
  }

  /** How an amount looks: a numeral with a comma at every fourth place from the point, the point, six
      digits, the unit. */
  lemma AmountSpelled(microTari: nat) returns (whole: string, fraction: string)
    ensures Amount(microTari) == whole + "." + fraction + " XTM"
    ensures |fraction| == 6 && AllDigits(fraction) && Value(fraction) == microTari % 1_000_000
    ensures IsNumeral(WithoutCommas(whole)) && Value(WithoutCommas(whole)) == microTari / 1_000_000
    ensures |whole| > 0 && forall j :: 0 <= j < |whole| ==> (whole[|whole| - 1 - j] == ',' <==> j % 4 == 3)
  {
    hide WholePart, SixDigits, WithoutCommas, Value, IsNumeral;
    whole, fraction := WholePart(microTari / MICRO_PER_TARI), SixDigits(microTari % MICRO_PER_TARI);
    ValueOfSix(microTari % MICRO_PER_TARI);
    WholePartSpelled(microTari / MICRO_PER_TARI);
  }
}
