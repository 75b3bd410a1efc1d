/**
 * The proleptic Gregorian calendar as Python's `datetime` implements it:
 * dates from 0001-01-01 to 9999-12-31, numbered by their ordinal
 * (0001-01-01 is day 1), and the ISO 8601 calendar date in extended format
 * (`YYYY-MM-DD`, section 4.1.2.2 of ISO 8601:2004) that
 * `strftime("%Y-%m-%d")` writes.
 */
module Calendar {
  import opened Wrappers

  datatype Date = Date(year: int, month: int, day: int)

  const MinYear: int := 1
  const MaxYear: int := 9999
  /** The ordinal of 9999-12-31, the last date `datetime` can hold. */
  const MaxOrdinal: int := 3652059

  /** Days in a 400-year cycle, a 100-year cycle (without its leap century) and a 4-year cycle. */
  const DaysIn400Years: int := 146097
  const DaysIn100Years: int := 36524
  const DaysIn4Years: int := 1461

  predicate IsLeapYear(y: int) {
    y % 4 == 0 && (y % 100 != 0 || y % 400 == 0)
  }

  function DaysInYear(y: int): int {
    if IsLeapYear(y) then 366 else 365
  }

  function DaysInMonth(y: int, m: int): int
    requires 1 <= m <= 12
  {
    if m == 2 then (if IsLeapYear(y) then 29 else 28)
    else if m == 4 || m == 6 || m == 9 || m == 11 then 30
    else 31
  }

  /** Days of year `y` before the first of month `m`. */
  function DaysBeforeMonth(y: int, m: int): int
    requires 1 <= m <= 12
  {
    var common :=
      if m == 1 then 0 else if m == 2 then 31 else if m == 3 then 59
      else if m == 4 then 90 else if m == 5 then 120 else if m == 6 then 151
      else if m == 7 then 181 else if m == 8 then 212 else if m == 9 then 243
      else if m == 10 then 273 else if m == 11 then 304 else 334;
    common + (if m > 2 && IsLeapYear(y) then 1 else 0)
  }

  predicate ValidDate(d: Date) {
    MinYear <= d.year <= MaxYear && 1 <= d.month <= 12 && 1 <= d.day <= DaysInMonth(d.year, d.month)
  }

  /** Days before January 1st of year `y`, counted from 0001-01-01. */
  function DaysBeforeYear(y: int): int
    requires y >= 1
  {
    var x := y - 1;
    365 * x + x / 4 - x / 100 + x / 400
  }

  /** Python's `date.toordinal()`: the day number, which lies within the date's own year. */
  function ToOrdinal(d: Date): (n: int)
    requires ValidDate(d)
    ensures DaysBeforeYear(d.year) < n <= DaysBeforeYear(d.year) + DaysInYear(d.year)
  {
    DaysBeforeYear(d.year) + DaysBeforeMonth(d.year, d.month) + d.day
  }

  /** The month holding day `doy` (0-based) of year `y`. */
  function MonthOfDay(y: int, doy: int): (m: int)
    requires 0 <= doy < DaysInYear(y)
    ensures 1 <= m <= 12
    ensures DaysBeforeMonth(y, m) <= doy < DaysBeforeMonth(y, m) + DaysInMonth(y, m)
  {
    if doy < DaysBeforeMonth(y, 2) then 1
    else if doy < DaysBeforeMonth(y, 3) then 2
    else if doy < DaysBeforeMonth(y, 4) then 3
    else if doy < DaysBeforeMonth(y, 5) then 4
    else if doy < DaysBeforeMonth(y, 6) then 5
    else if doy < DaysBeforeMonth(y, 7) then 6
    else if doy < DaysBeforeMonth(y, 8) then 7
    else if doy < DaysBeforeMonth(y, 9) then 8
    else if doy < DaysBeforeMonth(y, 10) then 9
    else if doy < DaysBeforeMonth(y, 11) then 10
    else if doy < DaysBeforeMonth(y, 12) then 11
    else 12
  }

  /**
   * Python's `date.fromordinal(n)`: split the day count into 400-, 100-,
   * 4- and 1-year cycles; the last day of a 4-year or of a 400-year cycle
   * is December 31st of the leap year that closes it.
   */
  function FromOrdinal(n: int): (d: Date)
    requires 1 <= n <= MaxOrdinal
    ensures 1 <= d.year <= MaxYear && 1 <= d.month <= 12 && 1 <= d.day <= 31
  {
    var n0 := n - 1;
    CycleCounts(n0);
    var r100 := (n0 % DaysIn400Years) % DaysIn100Years;
    DateOfCycles(n0 / DaysIn400Years, (n0 % DaysIn400Years) / DaysIn100Years, r100 / DaysIn4Years,
                 (r100 % DaysIn4Years) / 365, (r100 % DaysIn4Years) % 365)
  }

  /**
   * The date `a` 400-year, `b` 100-year, `c` 4-year and `e` 1-year cycles
   * and `doy` days after 0001-01-01.
   */
  function DateOfCycles(a: int, b: int, c: int, e: int, doy: int): Date
    requires 0 <= doy < 365
  {
    var year := 400 * a + 100 * b + 4 * c + e + 1;
    if e == 4 || b == 4 then Date(year - 1, 12, 31)
    else
      var m := MonthOfDay(year, doy);
      Date(year, m, doy - DaysBeforeMonth(year, m) + 1)
  }

  /** Days before year 400a + 100b + 4c + e + 1, read off its cycles. */
  lemma DaysBeforeYearByCycles(a: int, b: int, c: int, e: int)
    requires a >= 0 && 0 <= b < 4 && 0 <= c < 25 && 0 <= e < 4
    ensures DaysBeforeYear(400 * a + 100 * b + 4 * c + e + 1)
         == DaysIn400Years * a + DaysIn100Years * b + DaysIn4Years * c + 365 * e
  {
    var x := 400 * a + 100 * b + 4 * c + e;
    assert x == 4 * (100 * a + 25 * b + c) + e;
    assert x / 4 == 100 * a + 25 * b + c;
    assert x == 100 * (4 * a + b) + (4 * c + e);
    assert x / 100 == 4 * a + b;
    assert x == 400 * a + (100 * b + 4 * c + e);
    assert x / 400 == a;
  }

  /** The last day of a 400-year cycle is December 31st of its closing leap year. */
  lemma CycleEndOf400(a: int)
    requires 0 <= a <= 23
    ensures ValidDate(Date(400 * a + 400, 12, 31))
    ensures ToOrdinal(Date(400 * a + 400, 12, 31)) == DaysIn400Years * a + DaysIn400Years
  {
    DaysBeforeYearByCycles(a, 3, 24, 3);
    assert IsLeapYear(400 * a + 400);
  }

  /** The last day of a 4-year cycle is December 31st of its closing leap year. */
  lemma CycleEndOf4(a: int, b: int, c: int)
    requires 0 <= a <= 24 && 0 <= b < 4 && 0 <= c <= 23
    requires a == 24 ==> 100 * b + 4 * c + 4 <= 399
    ensures ValidDate(Date(400 * a + 100 * b + 4 * c + 4, 12, 31))
    ensures ToOrdinal(Date(400 * a + 100 * b + 4 * c + 4, 12, 31))
         == DaysIn400Years * a + DaysIn100Years * b + DaysIn4Years * c + DaysIn4Years
  {
    DaysBeforeYearByCycles(a, b, c, 3);
    var y := 400 * a + 100 * b + 4 * c + 4;
    var k := 100 * a + 25 * b + c + 1;
    assert y == 4 * k;
    assert y % 4 == 0;
    var q := 4 * a + b;
    assert y == 100 * q + (4 * c + 4) && 0 < 4 * c + 4 < 100;
    assert y % 100 == 4 * c + 4;
    assert IsLeapYear(y);
    assert DaysBeforeMonth(y, 12) == 335 && DaysInMonth(y, 12) == 31;
  }

  /** Any other day is day `doy` of year 400a + 100b + 4c + e + 1. */
  lemma CycleDay(a: int, b: int, c: int, e: int, doy: int)
    requires 0 <= a <= 24 && 0 <= b < 4 && 0 <= c < 25 && 0 <= e < 4 && 0 <= doy < 365
    requires a == 24 ==> 100 * b + 4 * c + e <= 398
    ensures var y := 400 * a + 100 * b + 4 * c + e + 1;
      var m := MonthOfDay(y, doy);
      var d := Date(y, m, doy - DaysBeforeMonth(y, m) + 1);
      ValidDate(d) && ToOrdinal(d) == DaysIn400Years * a + DaysIn100Years * b + DaysIn4Years * c + 365 * e + doy + 1
  {
    DaysBeforeYearByCycles(a, b, c, e);
  }

  /**
   * The cycle counts `FromOrdinal` reads off a day count `n0` below
   * MaxOrdinal: their ranges, and which of them can reach 4.
   */
  lemma CycleCounts(n0: int)
    requires 0 <= n0 < MaxOrdinal
    ensures var a := n0 / DaysIn400Years;
      var b := (n0 % DaysIn400Years) / DaysIn100Years;
      var r100 := (n0 % DaysIn400Years) % DaysIn100Years;
      var c := r100 / DaysIn4Years;
      var e := (r100 % DaysIn4Years) / 365;
      var doy := (r100 % DaysIn4Years) % 365;
      n0 == DaysIn400Years * a + DaysIn100Years * b + DaysIn4Years * c + 365 * e + doy
      && 0 <= a <= 24 && 0 <= b <= 4 && 0 <= c <= 24 && 0 <= e <= 4 && 0 <= doy < 365
      && (b == 4 ==> c == 0 && e == 0 && doy == 0)
      && (e == 4 ==> c <= 23 && doy == 0)
      && (a == 24 ==> 100 * b + 4 * c + e <= 398)
  {
    var a := n0 / DaysIn400Years;
    var r400 := n0 % DaysIn400Years;
    var b := r400 / DaysIn100Years;
    var r100 := r400 % DaysIn100Years;
    var c := r100 / DaysIn4Years;
    var r4 := r100 % DaysIn4Years;
    var e := r4 / 365;
    var doy := r4 % 365;
    assert n0 == DaysIn400Years * a + r400;
    assert r400 == DaysIn100Years * b + r100;
    assert r100 == DaysIn4Years * c + r4;
    assert r4 == 365 * e + doy;
  }

  /** The date of in-range cycle counts is valid and has the day count they add up to. */
  lemma DateOfCyclesOrdinal(a: int, b: int, c: int, e: int, doy: int)
    requires 0 <= a <= 24 && 0 <= b <= 4 && 0 <= c <= 24 && 0 <= e <= 4 && 0 <= doy < 365
    requires b == 4 ==> c == 0 && e == 0 && doy == 0
    requires e == 4 ==> c <= 23 && doy == 0
    requires a == 24 ==> 100 * b + 4 * c + e <= 398
    ensures ValidDate(DateOfCycles(a, b, c, e, doy))
    ensures ToOrdinal(DateOfCycles(a, b, c, e, doy))
         == DaysIn400Years * a + DaysIn100Years * b + DaysIn4Years * c + 365 * e + doy + 1
  {
    if b == 4 {
      assert DateOfCycles(a, b, c, e, doy) == Date(400 * a + 400, 12, 31);
      CycleEndOf400(a);
    } else if e == 4 {
      assert DateOfCycles(a, b, c, e, doy) == Date(400 * a + 100 * b + 4 * c + 4, 12, 31);
      CycleEndOf4(a, b, c);
    } else {
      var y := 400 * a + 100 * b + 4 * c + e + 1;
      assert DateOfCycles(a, b, c, e, doy) == Date(y, MonthOfDay(y, doy), doy - DaysBeforeMonth(y, MonthOfDay(y, doy)) + 1);
      CycleDay(a, b, c, e, doy);
    }
  }

  /** `FromOrdinal` inverts `ToOrdinal`: every ordinal in range names a valid date with that ordinal. */
  lemma OrdinalRoundTrip(n: int)
    requires 1 <= n <= MaxOrdinal
    ensures ValidDate(FromOrdinal(n)) && ToOrdinal(FromOrdinal(n)) == n
  {
    var n0 := n - 1;
    CycleCounts(n0);
    var r100 := (n0 % DaysIn400Years) % DaysIn100Years;
    var a, b, c := n0 / DaysIn400Years, (n0 % DaysIn400Years) / DaysIn100Years, r100 / DaysIn4Years;
    var e, doy := (r100 % DaysIn4Years) / 365, (r100 % DaysIn4Years) % 365;
    assert FromOrdinal(n) == DateOfCycles(a, b, c, e, doy);
    DateOfCyclesOrdinal(a, b, c, e, doy);
  }

  /** Each year adds its own length to the count of days before it. */
  lemma DaysBeforeNextYear(y: int)
    requires y >= 1
    ensures DaysBeforeYear(y + 1) == DaysBeforeYear(y) + DaysInYear(y)
  {
    DivStep(y, 4);
    DivStep(y, 100);
    DivStep(y, 400);
    assert y % 400 == 0 ==> y % 100 == 0;
    assert y % 100 == 0 ==> y % 4 == 0;
  }

  /** From `y - 1` to `y` the count of multiples of `k` grows exactly when `k` divides `y`. */
  lemma DivStep(y: int, k: int)
    requires y >= 1 && (k == 4 || k == 100 || k == 400)
    ensures y / k == (y - 1) / k + (if y % k == 0 then 1 else 0)
  {
    if k == 4 {
      assert y / 4 == (y - 1) / 4 + (if y % 4 == 0 then 1 else 0);
    } else if k == 100 {
      assert y / 100 == (y - 1) / 100 + (if y % 100 == 0 then 1 else 0);
    } else {
      assert y / 400 == (y - 1) / 400 + (if y % 400 == 0 then 1 else 0);
    }
  }

  /** Earlier years end no later than later years begin. */
  lemma {:induction false} YearsOrdered(y1: int, y2: int)
    requires 1 <= y1 < y2
    ensures DaysBeforeYear(y1) + DaysInYear(y1) <= DaysBeforeYear(y2)
    decreases y2 - y1
  {
    DaysBeforeNextYear(y1);
    if y1 + 1 < y2 {
      YearsOrdered(y1 + 1, y2);
      DaysBeforeNextYear(y1 + 1);
    }
  }

  /** Every valid date has an ordinal in `1..MaxOrdinal`. */
  lemma OrdinalInRange(d: Date)
    requires ValidDate(d)
    ensures 1 <= ToOrdinal(d) <= MaxOrdinal
  {
    var x := d.year - 1;
    assert x / 4 >= x / 100;
    assert DaysBeforeYear(MaxYear + 1) == MaxOrdinal;
    if d.year < MaxYear {
      YearsOrdered(d.year, MaxYear + 1);
    } else {
      DaysBeforeNextYear(MaxYear);
    }
  }

  /** Distinct valid dates have distinct ordinals. */
  lemma OrdinalInjective(d1: Date, d2: Date)
    requires ValidDate(d1) && ValidDate(d2)
    requires ToOrdinal(d1) == ToOrdinal(d2)
    ensures d1 == d2
  {
    if d1.year < d2.year {
      YearsOrdered(d1.year, d2.year);
    } else if d2.year < d1.year {
      YearsOrdered(d2.year, d1.year);
    }
  }

  /** `ToOrdinal` inverts `FromOrdinal` on valid dates. */
  lemma DateRoundTrip(d: Date)
    requires ValidDate(d)
    ensures 1 <= ToOrdinal(d) <= MaxOrdinal
    ensures FromOrdinal(ToOrdinal(d)) == d
  {
    OrdinalInRange(d);
    OrdinalRoundTrip(ToOrdinal(d));
    OrdinalInjective(FromOrdinal(ToOrdinal(d)), d);
  }

  /**
   * `date - timedelta(days=n)`: the date `n` days earlier (later, for a
   * negative `n`), or None where Python raises OverflowError because the
   * result falls outside 0001-01-01 .. 9999-12-31.
   */
  function MinusDays(d: Date, n: int): (r: Option<Date>)
    requires ValidDate(d)
    ensures r.Some? <==> 1 <= ToOrdinal(d) - n <= MaxOrdinal
    ensures r.Some? ==> ValidDate(r.value) && ToOrdinal(r.value) == ToOrdinal(d) - n
  {
    var k := ToOrdinal(d) - n;
    if 1 <= k <= MaxOrdinal then OrdinalRoundTrip(k); Some(FromOrdinal(k)) else None
  }

  // ---------------------------------------------------------------------
  // ISO 8601 calendar dates, extended format.

  function Pow10(w: nat): nat {
    if w == 0 then 1 else 10 * Pow10(w - 1)
  }

  predicate IsDigit(c: char) {
    '0' <= c <= '9'
  }

  predicate AllDigits(s: string) {
    forall i :: 0 <= i < |s| ==> IsDigit(s[i])
  }

  function DigitChar(n: int): (c: char)
    requires 0 <= n <= 9
    ensures IsDigit(c)
  {
    ('0' as int + n) as char
  }

  function DigitValue(c: char): int
    requires IsDigit(c)
  {
    c as int - '0' as int
  }

  /** `n` written in decimal with leading zeros to exactly `width` digits. */
  function ZeroPad(n: int, width: nat): (s: string)
    requires 0 <= n < Pow10(width)
    ensures |s| == width && AllDigits(s)
  {
    if width == 0 then "" else ZeroPad(n / 10, width - 1) + [DigitChar(n % 10)]
  }

  /** The number a string of decimal digits denotes. */
  function DigitsValue(s: string): int
    requires AllDigits(s)
  {
    if s == [] then 0 else 10 * DigitsValue(s[..|s| - 1]) + DigitValue(s[|s| - 1])
  }

  /** Reading back a zero-padded number gives the number. */
  lemma {:induction false} ZeroPadRoundTrip(n: int, width: nat)
    requires 0 <= n < Pow10(width)
    ensures DigitsValue(ZeroPad(n, width)) == n
  {
    if width > 0 {
      ZeroPadRoundTrip(n / 10, width - 1);
      var s := ZeroPad(n, width);
      assert s[..|s| - 1] == ZeroPad(n / 10, width - 1);
    }
  }

  /** `strftime("%Y-%m-%d")`. */
  function FormatIsoDate(d: Date): (s: string)
    requires ValidDate(d)
    ensures |s| == 10 && s[4] == '-' && s[7] == '-'
    ensures AllDigits(s[..4]) && AllDigits(s[5..7]) && AllDigits(s[8..])
  {
    var s := ZeroPad(d.year, 4) + "-" + ZeroPad(d.month, 2) + "-" + ZeroPad(d.day, 2);
    assert s[..4] == ZeroPad(d.year, 4);
    assert s[5..7] == ZeroPad(d.month, 2);
    assert s[8..] == ZeroPad(d.day, 2);
    s
  }

  /** Reads a `YYYY-MM-DD` calendar date; None unless it is well formed and names a valid date. */
  function ParseIsoDate(s: string): (r: Option<Date>)
    ensures r.Some? ==> ValidDate(r.value)
  {
    if |s| == 10 && s[4] == '-' && s[7] == '-'
       && AllDigits(s[..4]) && AllDigits(s[5..7]) && AllDigits(s[8..])
    then
      var d := Date(DigitsValue(s[..4]), DigitsValue(s[5..7]), DigitsValue(s[8..]));
      if ValidDate(d) then Some(d) else None
    else None
  }

  /** Parsing a formatted date gives the date back. */
  lemma IsoDateRoundTrip(d: Date)
    requires ValidDate(d)
    ensures ParseIsoDate(FormatIsoDate(d)) == Some(d)
  {
    var s := FormatIsoDate(d);
    assert s[..4] == ZeroPad(d.year, 4);
    assert s[5..7] == ZeroPad(d.month, 2);
    assert s[8..] == ZeroPad(d.day, 2);
    ZeroPadRoundTrip(d.year, 4);
    ZeroPadRoundTrip(d.month, 2);
    ZeroPadRoundTrip(d.day, 2);
  }

  /** Distinct valid dates are written differently. */
  lemma IsoDateInjective(d1: Date, d2: Date)
    requires ValidDate(d1) && ValidDate(d2)
    requires FormatIsoDate(d1) == FormatIsoDate(d2)
    ensures d1 == d2
  {
    IsoDateRoundTrip(d1);
    IsoDateRoundTrip(d2);
  }
}
