/** The part of Python's `datetime.date` the validator uses: the proleptic
    Gregorian calendar, the range of years the type admits, construction from
    year, month and day (which fails on a date that does not exist),
    comparison, and `strftime('%Y-%m-%d')`. */
module Calendar {
  import opened Wrappers
  import opened Text

  datatype Date = Date(year: int, month: int, day: int)

  /** `datetime.MINYEAR` and `datetime.MAXYEAR`. */
  const MinYear: int := 1
  const MaxYear: int := 9999

  /** Gregorian leap years: divisible by 4, except centuries not divisible by 400. */
  predicate IsLeapYear(y: int) {
    y % 4 == 0 && (y % 100 != 0 || y % 400 == 0)
  }

  function DaysInMonth(y: int, m: int): (n: int)
    requires 1 <= m <= 12
    ensures 28 <= n <= 31
    ensures n == 29 <==> m == 2 && IsLeapYear(y)
    ensures n == 28 <==> m == 2 && !IsLeapYear(y)
    ensures n == 30 <==> m in {4, 6, 9, 11}
  {
    if m == 2 then (if IsLeapYear(y) then 29 else 28)
    else if m == 4 || m == 6 || m == 9 || m == 11 then 30
    else 31
  }

  /** A date that `datetime.date` can represent. */
  predicate IsValidDate(d: Date) {
    && MinYear <= d.year <= MaxYear
    && 1 <= d.month <= 12
    && 1 <= d.day <= DaysInMonth(d.year, d.month)
  }

  /** `datetime.date(y, m, d)`: the date, or `None` where the constructor
      raises `ValueError`. */
  function MakeDate(y: int, m: int, d: int): (r: Option<Date>)
    ensures r.Some? <==> IsValidDate(Date(y, m, d))
    ensures r.Some? ==> r.value == Date(y, m, d)
  {
    if y < MinYear || y > MaxYear then None
    else if m < 1 || m > 12 then None
    else if d < 1 || d > DaysInMonth(y, m) then None
    else Some(Date(y, m, d))
  }

  /** `(m1, d1)` comes strictly before `(m2, d2)` in the calendar year. */
  predicate MonthDayBefore(m1: int, d1: int, m2: int, d2: int) {
    m1 < m2 || (m1 == m2 && d1 < d2)
  }

  /** `a < b` on dates: chronological order. */
  predicate Before(a: Date, b: Date) {
    a.year < b.year || (a.year == b.year && MonthDayBefore(a.month, a.day, b.month, b.day))
  }

  /** Chronological order is a strict total order. */
  lemma BeforeIsStrictTotalOrder(a: Date, b: Date, c: Date)
    ensures !Before(a, a)
    ensures Before(a, b) ==> !Before(b, a)
    ensures Before(a, b) && Before(b, c) ==> Before(a, c)
    ensures a == b || Before(a, b) || Before(b, a)
  {
  }

  /** `s` reads as `YYYY-MM-DD` naming the date `d`. */
  predicate IsIsoDateText(s: string, d: Date) {
    && |s| == 10 && s[4] == '-' && s[7] == '-'
    && AllDigits(s[..4]) && AllDigits(s[5..7]) && AllDigits(s[8..])
    && NumberValue(s[..4]) == d.year
    && NumberValue(s[5..7]) == d.month
    && NumberValue(s[8..]) == d.day
  }

  /** Joining three digit fields of widths 4, 2 and 2 with dashes gives a
      text whose fields are read back as the three values. */
  lemma JoinedFields(y: string, m: string, dd: string, d: Date)
    requires |y| == 4 && |m| == 2 && |dd| == 2
    requires AllDigits(y) && AllDigits(m) && AllDigits(dd)
    requires NumberValue(y) == d.year && NumberValue(m) == d.month && NumberValue(dd) == d.day
    ensures IsIsoDateText(y + ['-'] + m + ['-'] + dd, d)
  {
    var s := y + ['-'] + m + ['-'] + dd;
    assert |s| == 10;
    assert forall i :: 0 <= i < 4 ==> s[i] == y[i];
    assert forall i :: 0 <= i < 2 ==> s[5 + i] == m[i] && s[8 + i] == dd[i];
    assert s[..4] == y;
    assert s[5..7] == m;
    assert s[8..] == dd;
  }

  /** `d.strftime('%Y-%m-%d')` for a date whose year has four digits. */
  function IsoFormat(d: Date): (s: string)
    requires IsValidDate(d) && d.year >= 1000
    ensures IsIsoDateText(s, d)
  {
    // Widths held in variables keep the solver from unfolding the numerals.
    var w4, w2 := 4, 2;
    assert Pow10(w2) == 100 && Pow10(w4) == 10000;
    var y, m, dd := Decimal(d.year, w4), Decimal(d.month, w2), Decimal(d.day, w2);
    NumberValueOfDecimal(d.year, w4);
    NumberValueOfDecimal(d.month, w2);
    NumberValueOfDecimal(d.day, w2);
    JoinedFields(y, m, dd, d);
    y + ['-'] + m + ['-'] + dd
  }
}
