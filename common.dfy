/** Shared constants and the trailing search window of the purchase-history query. */
module Common {
  import opened Wrappers
  import opened Strings

  /** The slot labels of one ticket, assigned by position. */
  const SLOTS: seq<string> := ["A", "B", "C", "D", "E"]

  lemma SlotsAreFiveDistinctLetters()
    ensures |SLOTS| == 5
    ensures forall i :: 0 <= i < |SLOTS| ==> SLOTS[i] == [(65 + i) as char]
    ensures forall i, j :: 0 <= i < j < |SLOTS| ==> SLOTS[i] != SLOTS[j]
  {
  }

  // ---------------------------------------------------------------- the Gregorian calendar

  /** A calendar date as Python's `datetime.date` holds it. */
  datatype Date = Date(year: int, month: int, day: int)

  predicate IsLeap(y: int) {
    y % 4 == 0 && (y % 100 != 0 || y % 400 == 0)
  }

  function DaysInMonth(y: int, m: int): int
    requires 1 <= m <= 12
  {
    if m == 2 then (if IsLeap(y) then 29 else 28)
    else if m == 4 || m == 6 || m == 9 || m == 11 then 30
    else 31
  }

  function DaysInYear(y: int): int {
    if IsLeap(y) then 366 else 365
  }

  /** The dates Python can represent: years 1 to 9999. */
  predicate ValidDate(d: Date) {
    1 <= d.year <= 9999 && 1 <= d.month <= 12 && 1 <= d.day <= DaysInMonth(d.year, d.month)
  }

  /** Days in the years before `y` (the closed form Python's `datetime` uses). */
  function DaysBeforeYear(y: int): nat
    requires y >= 1
  {
    var x := y - 1;
    365 * x + x / 4 - x / 100 + x / 400
  }

  lemma YearStep(y: int)
    requires y >= 1
    ensures DaysBeforeYear(y + 1) == DaysBeforeYear(y) + DaysInYear(y)
  {
    var x := y - 1;
    assert y / 4 - x / 4 == (if y % 4 == 0 then 1 else 0);
    assert y / 100 - x / 100 == (if y % 100 == 0 then 1 else 0);
    assert y / 400 - x / 400 == (if y % 400 == 0 then 1 else 0);
  }

  function DaysBeforeMonth(y: int, m: int): nat
    requires 1 <= m <= 12
  {
    var base :=
      if m == 1 then 0 else if m == 2 then 31 else if m == 3 then 59 else if m == 4 then 90
      else if m == 5 then 120 else if m == 6 then 151 else if m == 7 then 181 else if m == 8 then 212
      else if m == 9 then 243 else if m == 10 then 273 else if m == 11 then 304 else 334;
    base + (if m > 2 && IsLeap(y) then 1 else 0)
  }

  /** Python's `date.toordinal()`: 0001-01-01 is day 1, and each later day adds one. */
  function Ordinal(d: Date): (n: int)
    requires ValidDate(d)
    ensures n >= 1
  {
    DaysBeforeYear(d.year) + DaysBeforeMonth(d.year, d.month) + d.day
  }

  lemma MonthStep(y: int, m: int)
    requires 1 <= m < 12
    ensures DaysBeforeMonth(y, m) + DaysInMonth(y, m) == DaysBeforeMonth(y, m + 1)
  {
  }

  lemma YearEnd(y: int)
    ensures DaysBeforeMonth(y, 12) + DaysInMonth(y, 12) == DaysInYear(y)
  {
  }

  /** The day before `d`. */
  function PrevDay(d: Date): (r: Date)
    requires ValidDate(d) && d != Date(1, 1, 1)
    ensures ValidDate(r) && Ordinal(r) + 1 == Ordinal(d)
  {
    if d.day > 1 then Date(d.year, d.month, d.day - 1)
    else if d.month > 1 then
      MonthStep(d.year, d.month - 1);
      Date(d.year, d.month - 1, DaysInMonth(d.year, d.month - 1))
    else
      YearEnd(d.year - 1);
      YearStep(d.year - 1);
      Date(d.year - 1, 12, 31)
  }

  /** `d - timedelta(days=n)`; `None` where Python raises OverflowError, before 0001-01-01. */
  function MinusDays(d: Date, n: nat): (r: Option<Date>)
    requires ValidDate(d)
    ensures r.Some? <==> Ordinal(d) > n
    ensures r.Some? ==> ValidDate(r.value) && Ordinal(r.value) + n == Ordinal(d)
    decreases n
  {
    if n == 0 then Some(d)
    else if d == Date(1, 1, 1) then None
    else MinusDays(PrevDay(d), n - 1)
  }

  // ---------------------------------------------------------------- order of dates

  /** Calendar order: by year, then month, then day. */
  predicate Before(a: Date, b: Date) {
    a.year < b.year || (a.year == b.year && (a.month < b.month || (a.month == b.month && a.day < b.day)))
  }

  lemma {:induction false} DaysBeforeYearGrows(y1: int, y2: int)
    requires 1 <= y1 < y2
    ensures DaysBeforeYear(y1) + DaysInYear(y1) <= DaysBeforeYear(y2)
    decreases y2
  {
    YearStep(y2 - 1);
    if y1 + 1 < y2 {
      DaysBeforeYearGrows(y1, y2 - 1);
    }
  }

  lemma {:induction false} DaysBeforeMonthGrows(y: int, m1: int, m2: int)
    requires 1 <= m1 < m2 <= 12
    ensures DaysBeforeMonth(y, m1) + DaysInMonth(y, m1) <= DaysBeforeMonth(y, m2)
    decreases m2
  {
    MonthStep(y, m2 - 1);
    if m1 + 1 < m2 {
      DaysBeforeMonthGrows(y, m1, m2 - 1);
    }
  }

  lemma WithinYear(d: Date)
    requires ValidDate(d)
    ensures Ordinal(d) <= DaysBeforeYear(d.year) + DaysInYear(d.year)
  {
    if d.month < 12 {
      DaysBeforeMonthGrows(d.year, d.month, 12);
    }
    YearEnd(d.year);
  }

  /** A date earlier in the calendar has a smaller day number. */
  lemma OrdinalMonotone(a: Date, b: Date)
    requires ValidDate(a) && ValidDate(b) && Before(a, b)
    ensures Ordinal(a) < Ordinal(b)
  {
    if a.year < b.year {
      WithinYear(a);
      DaysBeforeYearGrows(a.year, b.year);
    } else if a.month < b.month {
      DaysBeforeMonthGrows(a.year, a.month, b.month);
    }
  }

  /** Calendar order and day-number order agree, so the day number names one date. */
  lemma OrdinalOrder(a: Date, b: Date)
    requires ValidDate(a) && ValidDate(b)
    ensures Before(a, b) <==> Ordinal(a) < Ordinal(b)
    ensures Ordinal(a) == Ordinal(b) <==> a == b
  {
    if Before(a, b) {
      OrdinalMonotone(a, b);
    } else if Before(b, a) {
      OrdinalMonotone(b, a);
    }
  }

  // ---------------------------------------------------------------- formatting

  /** `d.strftime("%Y%m%d")`: `%Y` is the year's digits with no padding (as glibc writes years
      below 1000), `%m` and `%d` are two digits. */
  function FormatYmd(d: Date): string
    requires ValidDate(d)
  {
    NatToDecimal(d.year) + ZeroPad(d.month, 2) + ZeroPad(d.day, 2)
  }

  lemma {:induction false} DecimalLength(n: nat, k: nat)
    requires k >= 1 && Pow10(k - 1) <= n < Pow10(k)
    ensures |NatToDecimal(n)| == k
  {
    if k > 1 {
      DecimalLength(n / 10, k - 1);
    }
  }

  /** For a four-digit year `FormatYmd` is eight digits that read as the number yyyymmdd. */
  lemma FormatYmdValue(d: Date)
    requires ValidDate(d) && d.year >= 1000
    ensures |FormatYmd(d)| == 8 && IsDigits(FormatYmd(d))
    ensures DecimalValue(FormatYmd(d)) == d.year * 10000 + d.month * 100 + d.day
  {
    var y, mm, dd := NatToDecimal(d.year), ZeroPad(d.month, 2), ZeroPad(d.day, 2);
    assert Pow10(4) == 10000 && Pow10(3) == 1000 && Pow10(2) == 100 && Pow10(1) == 10;
    DecimalLength(d.year, 4);
    if d.month < 10 { DecimalLength(d.month, 1); } else { DecimalLength(d.month, 2); }
    if d.day < 10 { DecimalLength(d.day, 1); } else { DecimalLength(d.day, 2); }
    DecimalRoundTrip(d.year);
    ZeroPadValue(d.month, 2);
    ZeroPadValue(d.day, 2);
    DecimalValueConcat(y, mm);
    DecimalValueConcat(y + mm, dd);
  }

  /** For four-digit years, comparing the `YYYYMMDD` strings compares the dates. */
  lemma FormatOrderIsDateOrder(a: Date, b: Date)
    requires ValidDate(a) && ValidDate(b) && a.year >= 1000 && b.year >= 1000
    ensures StrLess(FormatYmd(a), FormatYmd(b)) <==> Ordinal(a) < Ordinal(b)
  {
    FormatYmdValue(a);
    FormatYmdValue(b);
    StrLessDigits(FormatYmd(a), FormatYmd(b));
    OrdinalOrder(a, b);
  }

  // ---------------------------------------------------------------- the search window

  datatype SearchRange = SearchRange(searchStartDate: string, searchEndDate: string)

  /** `get_search_date_range` with the current date as a parameter: from a week before `today`
      to `today`; `None` where subtracting the week leaves Python's date range. */
  function GetSearchDateRange(today: Date): (r: Option<SearchRange>)
    requires ValidDate(today)
    ensures r.Some? <==> Ordinal(today) > 7
    ensures r.Some? ==> r.value.searchEndDate == FormatYmd(today)
    ensures r.Some? ==> exists w :: ValidDate(w) && Ordinal(w) + 7 == Ordinal(today) &&
                                    r.value.searchStartDate == FormatYmd(w)
  {
    match MinusDays(today, 7)
    case None => None
    case Some(w) => Some(SearchRange(FormatYmd(w), FormatYmd(today)))
  }

  /** From 1000-01-08 on, both ends are eight digits and the start sorts before the end. */
  lemma SearchWindowSortsAsText(today: Date)
    requires ValidDate(today) && Before(Date(1000, 1, 7), today)
    ensures GetSearchDateRange(today).Some?
    ensures var r := GetSearchDateRange(today).value;
      |r.searchStartDate| == 8 && |r.searchEndDate| == 8 &&
      IsDigits(r.searchStartDate) && IsDigits(r.searchEndDate) &&
      StrLess(r.searchStartDate, r.searchEndDate)
  {
    OrdinalMonotone(Date(1000, 1, 7), today);
    var w := MinusDays(today, 7).value;
    if w.year < 1000 {
      OrdinalMonotone(w, Date(1000, 1, 1));
    }
    FormatYmdValue(w);
    FormatYmdValue(today);
    FormatOrderIsDateOrder(w, today);
  }

  lemma YearDigits2024And2025()
    ensures NatToDecimal(2024) == "2024" && NatToDecimal(2025) == "2025"
  {
    assert NatToDecimal(2) == "2" && NatToDecimal(20) == "20" && NatToDecimal(202) == "202";
  }

  /** A week before 2024-03-05 is 2024-02-27, crossing the leap day. */
  lemma WeekBeforeLeapMarch()
    ensures MinusDays(Date(2024, 3, 5), 7) == Some(Date(2024, 2, 27))
  {
    assert PrevDay(Date(2024, 3, 1)) == Date(2024, 2, 29);
    assert MinusDays(Date(2024, 3, 5), 7) == MinusDays(Date(2024, 3, 1), 3);
    assert MinusDays(Date(2024, 3, 1), 3) == MinusDays(Date(2024, 2, 29), 2);
    assert MinusDays(Date(2024, 2, 29), 2) == MinusDays(Date(2024, 2, 27), 0);
  }

  /** A week before 2025-01-03 is 2024-12-27, crossing the year end. */
  lemma WeekBeforeNewYear()
    ensures MinusDays(Date(2025, 1, 3), 7) == Some(Date(2024, 12, 27))
  {
    assert MinusDays(Date(2025, 1, 3), 7) == MinusDays(Date(2025, 1, 1), 5);
    assert PrevDay(Date(2025, 1, 1)) == Date(2024, 12, 31);
    assert MinusDays(Date(2025, 1, 1), 5) == MinusDays(Date(2024, 12, 31), 4);
    assert MinusDays(Date(2024, 12, 31), 4) == MinusDays(Date(2024, 12, 27), 0);
  }

  lemma SingleDigitPads()
    ensures ZeroPad(1, 2) == "01" && ZeroPad(2, 2) == "02" && ZeroPad(3, 2) == "03" && ZeroPad(5, 2) == "05"
  {
  }

  lemma TwoDigitPads()
    ensures ZeroPad(12, 2) == "12" && ZeroPad(27, 2) == "27"
  {
    assert NatToDecimal(1) == "1" && NatToDecimal(2) == "2";
  }

  lemma FormatLeapExamples()
    ensures FormatYmd(Date(2024, 2, 27)) == "20240227" && FormatYmd(Date(2024, 3, 5)) == "20240305"
  {
    YearDigits2024And2025();
    SingleDigitPads();
    TwoDigitPads();
  }

  lemma FormatNewYearExamples()
    ensures FormatYmd(Date(2024, 12, 27)) == "20241227" && FormatYmd(Date(2025, 1, 3)) == "20250103"
  {
    YearDigits2024And2025();
    SingleDigitPads();
    TwoDigitPads();
  }

  /** Across the end of February in a leap year. */
  lemma SearchWindowAcrossLeapFebruary()
    ensures GetSearchDateRange(Date(2024, 3, 5)) == Some(SearchRange("20240227", "20240305"))
  {
    WeekBeforeLeapMarch();
    FormatLeapExamples();
  }

  /** Across the end of a year. */
  lemma SearchWindowAcrossNewYear()
    ensures GetSearchDateRange(Date(2025, 1, 3)) == Some(SearchRange("20241227", "20250103"))
  {
    WeekBeforeNewYear();
    FormatNewYearExamples();
  }
}
