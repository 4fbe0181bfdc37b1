/** Calendar dates in the proleptic Gregorian calendar, as Python's `datetime` counts them:
    day 1 is 0001-01-01 and the last representable day is 9999-12-31.
    `string2ordinal` and `ordinal2string` convert between `%Y%m%d` strings and these ordinals. */
module Dates {
  import opened Wrappers
  import opened PyStrings

  datatype Date = Date(year: int, month: int, day: int)

  predicate IsLeap(y: int) {
    y % 4 == 0 && (y % 100 != 0 || y % 400 == 0)
  }

  function DaysInYear(y: int): int {
    if IsLeap(y) then 366 else 365
  }

  function DaysInMonth(y: int, m: int): (n: int)
    requires 1 <= m <= 12
    ensures 28 <= n <= 31
  {
    if m == 2 then (if IsLeap(y) then 29 else 28)
    else if m == 4 || m == 6 || m == 9 || m == 11 then 30
    else 31
  }

  /** A date `datetime` can represent. */
  predicate ValidDate(d: Date) {
    1 <= d.year <= 9999 && 1 <= d.month <= 12 && 1 <= d.day <= DaysInMonth(d.year, d.month)
  }

  /** Days in the years before January 1 of year y. */
  function DaysBeforeYear(y: int): nat
    requires y >= 1
    decreases y
  {
    if y == 1 then 0 else DaysBeforeYear(y - 1) + DaysInYear(y - 1)
  }

  /** Days in the months of year y before the first of month m (m == 13 gives the whole year). */
  function DaysBeforeMonth(y: int, m: int): nat
    requires 1 <= m <= 13
    decreases m
  {
    if m == 1 then 0 else DaysBeforeMonth(y, m - 1) + DaysInMonth(y, m - 1)
  }

  lemma DaysBeforeMonthWholeYear(y: int)
    ensures DaysBeforeMonth(y, 13) == DaysInYear(y)
  {
  }

  lemma {:induction false} DaysBeforeMonthBounds(y: int, m: int)
    requires 1 <= m <= 12
    ensures DaysBeforeMonth(y, m) + DaysInMonth(y, m) <= DaysInYear(y)
    decreases 12 - m
  {
    if m < 12 {
      DaysBeforeMonthBounds(y, m + 1);
    }
  }

  /** `date.toordinal()`. */
  function ToOrdinal(d: Date): (n: int)
    requires ValidDate(d)
    ensures DaysBeforeYear(d.year) < n <= DaysBeforeYear(d.year + 1)
  {
    DaysBeforeMonthBounds(d.year, d.month);
    DaysBeforeYear(d.year) + DaysBeforeMonth(d.year, d.month) + d.day
  }

  /** The ordinal of 9999-12-31, the largest `date.fromordinal` accepts. */
  function MaxOrdinal(): nat {
    DaysBeforeYear(10000)
  }

  lemma {:induction false} DaysBeforeYearMonotone(a: int, b: int)
    requires 1 <= a <= b
    ensures DaysBeforeYear(a) <= DaysBeforeYear(b)
    ensures a < b ==> DaysBeforeYear(a + 1) <= DaysBeforeYear(b)
    decreases b - a
  {
    if a < b {
      DaysBeforeYearMonotone(a, b - 1);
    }
  }

  /** The year whose days contain ordinal n, searching upwards from y. */
  function YearFrom(n: int, y: int): (r: int)
    requires y >= 1 && n > DaysBeforeYear(y)
    ensures r >= y && DaysBeforeYear(r) < n <= DaysBeforeYear(r + 1)
    decreases n - DaysBeforeYear(y)
  {
    if n <= DaysBeforeYear(y + 1) then y else YearFrom(n, y + 1)
  }

  /** The month of year y whose days contain day-of-year r, searching upwards from m. */
  function MonthFrom(y: int, r: int, m: int): (k: int)
    requires 1 <= m <= 12 && DaysBeforeMonth(y, m) < r <= DaysInYear(y)
    ensures m <= k <= 12 && DaysBeforeMonth(y, k) < r <= DaysBeforeMonth(y, k + 1)
    decreases 12 - m
  {
    if m == 12 || r <= DaysBeforeMonth(y, m + 1) then m else MonthFrom(y, r, m + 1)
  }

  lemma YearBelowLimit(n: int, y: int)
    requires y >= 1 && DaysBeforeYear(y) < n <= MaxOrdinal()
    ensures y <= 9999
  {
    if y > 9999 {
      DaysBeforeYearMonotone(10000, y);
    }
  }

  /** `date.fromordinal(n)`: ValueError outside 1..MaxOrdinal(). */
  function FromOrdinal(n: int): (r: Result<Date, PyError>)
    ensures r.Ok? <==> 1 <= n <= MaxOrdinal()
    ensures r.Ok? ==> ValidDate(r.value) && ToOrdinal(r.value) == n
  {
    if 1 <= n <= MaxOrdinal() then
      var y := YearFrom(n, 1);
      YearBelowLimit(n, y);
      var r := n - DaysBeforeYear(y);
      assert DaysBeforeYear(y + 1) == DaysBeforeYear(y) + DaysInYear(y);
      var m := MonthFrom(y, r, 1);
      assert DaysBeforeMonth(y, m + 1) == DaysBeforeMonth(y, m) + DaysInMonth(y, m);
      Ok(Date(y, m, r - DaysBeforeMonth(y, m)))
    else Err(ValueError)
  }

  lemma {:induction false} DaysBeforeMonthMonotone(y: int, a: int, b: int)
    requires 1 <= a <= b <= 13
    ensures DaysBeforeMonth(y, a) <= DaysBeforeMonth(y, b)
    ensures a < b ==> DaysBeforeMonth(y, a + 1) <= DaysBeforeMonth(y, b)
    decreases b - a
  {
    if a < b {
      DaysBeforeMonthMonotone(y, a, b - 1);
    }
  }

  /** Distinct valid dates have distinct ordinals. */
  lemma ToOrdinalInjective(a: Date, b: Date)
    requires ValidDate(a) && ValidDate(b) && ToOrdinal(a) == ToOrdinal(b)
    ensures a == b
  {
    if a.year < b.year {
      DaysBeforeYearMonotone(a.year, b.year);
    } else if b.year < a.year {
      DaysBeforeYearMonotone(b.year, a.year);
    } else {
      var y := a.year;
      DaysBeforeMonthBounds(y, a.month);
      DaysBeforeMonthBounds(y, b.month);
      if a.month < b.month {
        DaysBeforeMonthMonotone(y, a.month, b.month);
      } else if b.month < a.month {
        DaysBeforeMonthMonotone(y, b.month, a.month);
      }
    }
  }

  /** `date.fromordinal(d.toordinal()) == d`. */
  lemma FromToOrdinal(d: Date)
    requires ValidDate(d)
    ensures FromOrdinal(ToOrdinal(d)) == Ok(d)
  {
    var n := ToOrdinal(d);
    DaysBeforeYearMonotone(d.year + 1, 10000);
    ToOrdinalInjective(FromOrdinal(n).value, d);
  }

  /** The calendar day after d (d is not 9999-12-31). */
  function NextDay(d: Date): Date
    requires ValidDate(d)
  {
    if d.day < DaysInMonth(d.year, d.month) then Date(d.year, d.month, d.day + 1)
    else if d.month < 12 then Date(d.year, d.month + 1, 1)
    else Date(d.year + 1, 1, 1)
  }

  /** Consecutive calendar days have consecutive ordinals. */
  lemma NextDayOrdinal(d: Date)
    requires ValidDate(d) && d != Date(9999, 12, 31)
    ensures ValidDate(NextDay(d)) && ToOrdinal(NextDay(d)) == ToOrdinal(d) + 1
  {
    if d.day == DaysInMonth(d.year, d.month) && d.month == 12 {
      DaysBeforeMonthWholeYear(d.year);
    }
  }

  /** The ordinals of January 1 .. December 31 of year y are exactly those of the dates in year y. */
  lemma InCalendarYear(d: Date, y: int)
    requires ValidDate(d) && 1 <= y <= 9999
    ensures ToOrdinal(Date(y, 1, 1)) <= ToOrdinal(d) <= ToOrdinal(Date(y, 12, 31)) <==> d.year == y
  {
    DaysBeforeMonthWholeYear(y);
    assert ToOrdinal(Date(y, 12, 31)) == DaysBeforeYear(y + 1);
    if d.year < y {
      DaysBeforeYearMonotone(d.year, y);
    } else if d.year > y {
      DaysBeforeYearMonotone(y, d.year);
    }
  }

  /** `datetime.strptime(s, '%Y%m%d')` on an eight-character string. */
  function ParseYmd(s: string): (r: Result<Date, PyError>)
    ensures r.Ok? ==> ValidDate(r.value)
  {
    if |s| == 8 && AllDigits(s) then
      var d := Date(DigitsValue(s[..4]), DigitsValue(s[4..6]), DigitsValue(s[6..]));
      if ValidDate(d) then Ok(d) else Err(ValueError)
    else Err(ValueError)
  }

  /** `date.strftime('%Y%m%d')`. */
  function FormatYmd(d: Date): (s: string)
    requires ValidDate(d)
    ensures |s| == 8
  {
    PadDigits(d.year, 4) + PadDigits(d.month, 2) + PadDigits(d.day, 2)
  }

  /** `string2ordinal(s)`. */
  function String2Ordinal(s: string): Result<int, PyError> {
    match ParseYmd(s)
    case Ok(d) => Ok(ToOrdinal(d))
    case Err(e) => Err(e)
  }

  /** `ordinal2string(n)`. */
  function Ordinal2String(n: int): Result<string, PyError> {
    match FromOrdinal(n)
    case Ok(d) => Ok(FormatYmd(d))
    case Err(e) => Err(e)
  }

  lemma FormatParse(s: string)
    requires ParseYmd(s).Ok?
    ensures FormatYmd(ParseYmd(s).value) == s
  {
    PadDigitsValue(s[..4]);
    PadDigitsValue(s[4..6]);
    PadDigitsValue(s[6..]);
    assert s == s[..4] + s[4..6] + s[6..];
  }

  lemma ParseFormat(d: Date)
    requires ValidDate(d)
    ensures ParseYmd(FormatYmd(d)) == Ok(d)
  {
    var s := FormatYmd(d);
    assert s[..4] == PadDigits(d.year, 4);
    assert s[4..6] == PadDigits(d.month, 2);
    assert s[6..] == PadDigits(d.day, 2);
    assert Pow10(4) == 10000 && Pow10(2) == 100;
    DigitsValuePad(d.year, 4);
    DigitsValuePad(d.month, 2);
    DigitsValuePad(d.day, 2);
  }

  /** `ordinal2string(string2ordinal(s)) == s` for every string string2ordinal accepts. */
  lemma StringOrdinalRoundTrip(s: string)
    requires String2Ordinal(s).Ok?
    ensures Ordinal2String(String2Ordinal(s).value) == Ok(s)
  {
    FromToOrdinal(ParseYmd(s).value);
    FormatParse(s);
  }

  /** `string2ordinal(ordinal2string(n)) == n` for every ordinal ordinal2string accepts. */
  lemma OrdinalStringRoundTrip(n: int)
    requires Ordinal2String(n).Ok?
    ensures String2Ordinal(Ordinal2String(n).value) == Ok(n)
  {
    ParseFormat(FromOrdinal(n).value);
  }

  /** `string2ordinal` of a date's own string is its ordinal. */
  lemma String2OrdinalOfDate(d: Date)
    requires ValidDate(d)
    ensures String2Ordinal(FormatYmd(d)) == Ok(ToOrdinal(d))
  {
    ParseFormat(d);
  }

  /** A four-digit year followed by `MMDD` parses to that day. */
  lemma ParseYearAndDay(y: int, mmdd: string, m: int, d: int)
    requires 1000 <= y <= 9999 && |mmdd| == 4 && AllDigits(mmdd)
    requires DigitsValue(mmdd[..2]) == m && DigitsValue(mmdd[2..]) == d && ValidDate(Date(y, m, d))
    ensures ParseYmd(NatString(y) + mmdd) == Ok(Date(y, m, d))
  {
    NatStringDigits(y);
    var s := NatString(y) + mmdd;
    assert s[..4] == NatString(y);
    assert s[4..6] == mmdd[..2];
    assert s[6..] == mmdd[2..];
  }
}
