/** Month keys of the form `YYYY-MM` and the previous-month computation shared by
    the income and the account-credit services.

    The services compute the previous month with a JavaScript `Date`: they build
    the first day of the given month (`new Date(year, month - 1, 1)`), step it
    back one month with `setMonth(getMonth() - 1)`, and print the year in decimal
    and the month padded to two digits. A `Date` normalises an out-of-range
    month index by floor division into the year, and maps a year argument in
    0..99 to 1900..1999; both are written out below. */
module Months {

  predicate IsDigit(c: char) {
    '0' <= c <= '9'
  }

  predicate AllDigits(s: string) {
    forall i :: 0 <= i < |s| ==> IsDigit(s[i])
  }

  /** The pattern `^\d{4}-\d{2}$` that every month check of the backend uses. */
  predicate IsMonthFormat(s: string) {
    |s| == 7 && AllDigits(s[..4]) && s[4] == '-' && AllDigits(s[5..])
  }

  function DigitValue(c: char): (d: nat)
    requires IsDigit(c)
    ensures d < 10
  {
    c as int - '0' as int
  }

  function DigitChar(d: nat): (c: char)
    requires d < 10
    ensures IsDigit(c) && DigitValue(c) == d
  {
    ('0' as int + d) as char
  }

  /** The value of a string of decimal digits, as `Number` reads it. */
  function DigitsValue(s: string): nat
    requires AllDigits(s)
  {
    if s == [] then 0 else DigitsValue(s[..|s| - 1]) * 10 + DigitValue(s[|s| - 1])
  }

  /** `String(n)` for a natural number: decimal, no leading zeros. */
  function DecimalString(n: nat): (s: string)
    ensures 1 <= |s| && AllDigits(s)
  {
    if n < 10 then [DigitChar(n)] else DecimalString(n / 10) + [DigitChar(n % 10)]
  }

  /** `s.padStart(2, '0')`. */
  function PadStart2(s: string): (r: string)
    ensures |s| < 2 ==> |r| == 2
    ensures |s| >= 2 ==> r == s
  {
    if |s| >= 2 then s else seq(2 - |s|, _ => '0') + s
  }

  datatype YearMonth = YearMonth(year: int, month: int)

  /** `month.split('-').map(Number)` on a well-formed key. */
  function ParseMonth(s: string): (ym: YearMonth)
    requires IsMonthFormat(s)
    ensures 0 <= ym.year <= 9999 && 0 <= ym.month <= 99
  {
    DigitsValueBound(s[..4]);
    DigitsValueBound(s[5..]);
    YearMonth(DigitsValue(s[..4]), DigitsValue(s[5..]))
  }

  /** The calendar month before `ym`, with the normalisation a `Date` applies. */
  function PreviousYearMonth(ym: YearMonth): (r: YearMonth)
    requires ym.year >= 0 && ym.month >= 0
    ensures 99 <= r.year && 1 <= r.month <= 12
    ensures ym.year >= 100 && 2 <= ym.month <= 12 ==> r == YearMonth(ym.year, ym.month - 1)
    ensures ym.year >= 100 && ym.month == 1 ==> r == YearMonth(ym.year - 1, 12)
  {
    var fullYear := if ym.year <= 99 then 1900 + ym.year else ym.year;
    var index := fullYear * 12 + (ym.month - 1) - 1;
    YearMonth(index / 12, index % 12 + 1)
  }

  function FormatYearMonth(year: nat, month: nat): string {
    DecimalString(year) + "-" + PadStart2(DecimalString(month))
  }

  /** The `getPreviousMonth` helper of the income and account-credit services:
      never the month itself, and, when the previous month falls in a
      four-digit year, again a well-formed key that reads back as the
      calendar's previous month. */
  function PreviousMonth(month: string): (r: string)
    requires IsMonthFormat(month)
    ensures r != month
    ensures 1000 <= PreviousYearMonth(ParseMonth(month)).year <= 9999 ==>
              IsMonthFormat(r) && ParseMonth(r) == PreviousYearMonth(ParseMonth(month))
  {
    var p := PreviousYearMonth(ParseMonth(month));
    FormatRoundTrip(p);
    FormatOfPreviousDiffers(month);
    FormatYearMonth(p.year, p.month)
  }

  // ---------------------------------------------------------------------------
  // Lemmas

  lemma {:induction false} DigitsValueBound(s: string)
    requires AllDigits(s)
    ensures DigitsValue(s) < Power10(|s|)
  {
    if s != [] {
      DigitsValueBound(s[..|s| - 1]);
    }
  }

  function Power10(k: nat): (p: nat)
    ensures p >= 1
  {
    if k == 0 then 1 else 10 * Power10(k - 1)
  }

  /** Reading back a printed number gives the number. */
  lemma {:induction false} DecimalRoundTrip(n: nat)
    ensures DigitsValue(DecimalString(n)) == n
  {
    var s := DecimalString(n);
    if n >= 10 {
      DecimalRoundTrip(n / 10);
      assert s[..|s| - 1] == DecimalString(n / 10);
    }
  }

  /** Numbers from 1000 to 9999 print as exactly four digits. */
  lemma {:induction false} DecimalLength(n: nat)
    ensures n < 10 ==> |DecimalString(n)| == 1
    ensures 10 <= n < 100 ==> |DecimalString(n)| == 2
    ensures 100 <= n < 1000 ==> |DecimalString(n)| == 3
    ensures 1000 <= n < 10000 ==> |DecimalString(n)| == 4
    ensures 10000 <= n ==> |DecimalString(n)| >= 5
  {
    if n >= 10 {
      DecimalLength(n / 10);
    }
  }

  /** A leading zero does not change a digit string's value. */
  lemma LeadingZero(s: string)
    requires AllDigits(s) && |s| == 1
    ensures DigitsValue("0" + s) == DigitsValue(s)
  {
    var t := "0" + s;
    assert t[..1] == "0";
  }

  /** Printing a month number 1..12 and padding it reads back as the month. */
  lemma PaddedMonthRoundTrip(m: nat)
    requires 1 <= m <= 12
    ensures AllDigits(PadStart2(DecimalString(m)))
    ensures |PadStart2(DecimalString(m))| == 2
    ensures DigitsValue(PadStart2(DecimalString(m))) == m
  {
    DecimalLength(m);
    DecimalRoundTrip(m);
    if m < 10 {
      LeadingZero(DecimalString(m));
      assert PadStart2(DecimalString(m)) == "0" + DecimalString(m);
    }
  }

  /** A year of four digits and a month 1 to 12, printed as `getPreviousMonth`
      prints them, form a well-formed key that reads back as the same pair. */
  lemma FormatRoundTrip(p: YearMonth)
    ensures 1000 <= p.year <= 9999 && 1 <= p.month <= 12 ==>
              && IsMonthFormat(FormatYearMonth(p.year, p.month))
              && ParseMonth(FormatYearMonth(p.year, p.month)) == p
  {
    if 1000 <= p.year <= 9999 && 1 <= p.month <= 12 {
      var y := DecimalString(p.year);
      var mm := PadStart2(DecimalString(p.month));
      DecimalLength(p.year);
      DecimalRoundTrip(p.year);
      PaddedMonthRoundTrip(p.month);
      var r := FormatYearMonth(p.year, p.month);
      assert r == y + "-" + mm;
      assert r[..4] == y;
      assert r[5..] == mm;
    }
  }

  /** The printed previous month of a key differs from the key, so the month
      that a rollover reads from and the month it writes to are always
      different. */
  lemma FormatOfPreviousDiffers(month: string)
    requires IsMonthFormat(month)
    ensures var p := PreviousYearMonth(ParseMonth(month));
            FormatYearMonth(p.year, p.month) != month
  {
    var ym := ParseMonth(month);
    var p := PreviousYearMonth(ym);
    var y := DecimalString(p.year);
    var mm := PadStart2(DecimalString(p.month));
    var r := FormatYearMonth(p.year, p.month);
    assert r == y + "-" + mm;
    DecimalLength(p.year);
    PaddedMonthRoundTrip(p.month);
    DecimalRoundTrip(p.year);
  }

  lemma DigitsOf2024()
    ensures DigitsValue("2024") == 2024
  {
    assert "2024"[..3] == "202" && "202"[..2] == "20" && "20"[..1] == "2";
  }

  lemma DecimalOfYear(y: nat)
    requires y == 2023 || y == 2024
    ensures DecimalString(y) == if y == 2023 then "2023" else "2024"
  {
    assert DecimalString(20) == "20";
    assert DecimalString(202) == "202";
  }

  lemma PreviousMonthOfMarch()
    ensures PreviousMonth("2024-03") == "2024-02"
  {
    var m := "2024-03";
    assert m[..4] == "2024" && m[5..] == "03";
    DigitsOf2024();
    assert DigitsValue("03") == 3 by {
      assert "03"[..1] == "0";
    }
    assert ParseMonth(m) == YearMonth(2024, 3);
    assert PreviousYearMonth(YearMonth(2024, 3)) == YearMonth(2024, 2);
    DecimalOfYear(2024);
    assert PadStart2(DecimalString(2)) == "02";
  }

  lemma PreviousMonthOfJanuary()
    ensures PreviousMonth("2024-01") == "2023-12"
  {
    var m := "2024-01";
    assert m[..4] == "2024" && m[5..] == "01";
    DigitsOf2024();
    assert DigitsValue("01") == 1 by {
      assert "01"[..1] == "0";
    }
    assert ParseMonth(m) == YearMonth(2024, 1);
    assert PreviousYearMonth(YearMonth(2024, 1)) == YearMonth(2023, 12);
    DecimalOfYear(2023);
    assert PadStart2(DecimalString(12)) == "12";
  }

  /** A thirteenth month is accepted by the month pattern; the `Date`
      arithmetic reads it as January of the next year, so its previous month is
      December of the same year. */
  lemma PreviousMonthOfThirteenth()
    ensures PreviousMonth("2024-13") == "2024-12"
  {
    var m := "2024-13";
    assert m[..4] == "2024" && m[5..] == "13";
    DigitsOf2024();
    assert DigitsValue("13") == 13 by {
      assert "13"[..1] == "1";
    }
    assert ParseMonth(m) == YearMonth(2024, 13);
    assert PreviousYearMonth(YearMonth(2024, 13)) == YearMonth(2024, 12);
    DecimalOfYear(2024);
    assert PadStart2(DecimalString(12)) == "12";
  }
}
