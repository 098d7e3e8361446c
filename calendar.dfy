/** The proleptic Gregorian calendar of Python's `datetime` (years 1 to 9999),
    as the ingestion code uses it: Binance open times in milliseconds become
    `"%Y-%m-%d"` date strings, stored date strings are read back with
    `strptime`, and whole days are added as `timedelta(days=...)`.
    Day numbers count days since 1970-01-01 (negative before it). Naive local
    datetimes are taken to be UTC. */
module Calendar {
  import opened Common
  import opened Text

  const MsPerDay: int := 86_400_000

  predicate IsLeap(y: int)
  {
    y % 4 == 0 && (y % 100 != 0 || y % 400 == 0)
  }

  function DaysInYear(y: int): int
  {
    if IsLeap(y) then 366 else 365
  }

  /** Days from 1970-01-01 to January 1st of year `y`. */
  function DaysBeforeYear(y: int): int
  {
    var p := y - 1;
    365 * p + p / 4 - p / 100 + p / 400 - 719162
  }

  /** Day number of 0001-01-01, the first day `datetime` represents. */
  const MinDay: int := DaysBeforeYear(1)
  /** Day number of 9999-12-31, the last day `datetime` represents. */
  const MaxDay: int := DaysBeforeYear(10000) - 1

  lemma YearStep(y: int)
    ensures DaysBeforeYear(y + 1) == DaysBeforeYear(y) + DaysInYear(y)
  {
    var p := y - 1;
    assert y / 4 - p / 4 == (if y % 4 == 0 then 1 else 0);
    assert y / 100 - p / 100 == (if y % 100 == 0 then 1 else 0);
    assert y / 400 - p / 400 == (if y % 400 == 0 then 1 else 0);
  }

  /** Later years start later: between `a` and `b` lie at least 365 days a year. */
  lemma {:induction false} YearsMonotone(a: int, b: int)
    requires a <= b
    ensures DaysBeforeYear(a) + 365 * (b - a) <= DaysBeforeYear(b)
    decreases b - a
  {
    if a < b {
      YearsMonotone(a, b - 1);
      YearStep(b - 1);
    }
  }

  const Cumulative: seq<int> := [0, 31, 59, 90, 120, 151, 181, 212, 243, 273, 304, 334, 365]

  /** Days of year `y` before the first of month `m`; `m == 13` gives the whole year. */
  function DaysBeforeMonth(y: int, m: int): int
    requires 1 <= m <= 13
  {
    Cumulative[m - 1] + (if m > 2 && IsLeap(y) then 1 else 0)
  }

  function DaysInMonth(y: int, m: int): (n: int)
    requires 1 <= m <= 12
    ensures 28 <= n <= 31
  {
    DaysBeforeMonth(y, m + 1) - DaysBeforeMonth(y, m)
  }

  lemma MonthsMonotone(y: int, a: int, b: int)
    requires 1 <= a <= b <= 13
    ensures DaysBeforeMonth(y, a) + 28 * (b - a) <= DaysBeforeMonth(y, b)
    ensures DaysBeforeMonth(y, 13) == DaysInYear(y)
  {
  }

  /** A calendar date, as `datetime.date` holds it. */
  datatype Date = Date(year: int, month: int, day: int)

  predicate ValidDate(d: Date)
  {
    && 1 <= d.year <= 9999
    && 1 <= d.month <= 12
    && 1 <= d.day <= DaysInMonth(d.year, d.month)
  }

  /** Days since 1970-01-01 of a date: `date.toordinal()` shifted to the Unix epoch. */
  function DayNumber(d: Date): int
    requires ValidDate(d)
  {
    DaysBeforeYear(d.year) + DaysBeforeMonth(d.year, d.month) + d.day - 1
  }

  // ---------------------------------------------------------------------------
  // From a day number back to the date

  function YearUp(y: int, n: int): (r: int)
    requires DaysBeforeYear(y) <= n
    ensures y <= r && DaysBeforeYear(r) <= n < DaysBeforeYear(r + 1)
    decreases n - DaysBeforeYear(y)
  {
    YearStep(y);
    if DaysBeforeYear(y + 1) <= n then YearUp(y + 1, n) else y
  }

  function YearDown(y: int, n: int): (r: int)
    requires 1 <= y && MinDay <= n < DaysBeforeYear(y + 1)
    ensures 1 <= r <= y && DaysBeforeYear(r) <= n < DaysBeforeYear(r + 1)
    decreases y
  {
    if DaysBeforeYear(y) <= n then y else YearDown(y - 1, n)
  }

  /** The year in which day `n` falls: estimate from the mean Gregorian year, then correct. */
  function YearOf(n: int): (r: int)
    requires MinDay <= n <= MaxDay
    ensures 1 <= r <= 9999 && DaysBeforeYear(r) <= n < DaysBeforeYear(r + 1)
  {
    var guess := 1970 + (n * 400) / 146097;
    var e := if guess < 1 then 1 else if guess > 9999 then 9999 else guess;
    YearStep(e);
    var r := if DaysBeforeYear(e) <= n then YearUp(e, n) else YearDown(e, n);
    if r >= 10000 then YearsMonotone(10000, r); r else r
  }

  function MonthFrom(y: int, doy: int, m: int): (r: int)
    requires 1 <= m <= 12 && DaysBeforeMonth(y, m) <= doy < DaysBeforeMonth(y, 13)
    ensures m <= r <= 12 && DaysBeforeMonth(y, r) <= doy < DaysBeforeMonth(y, r + 1)
    decreases 12 - m
  {
    if doy < DaysBeforeMonth(y, m + 1) then m else MonthFrom(y, doy, m + 1)
  }

  /** The date of day `n`, as `date.fromordinal` computes it. */
  function FromDayNumber(n: int): (d: Date)
    requires MinDay <= n <= MaxDay
    ensures ValidDate(d) && DayNumber(d) == n
  {
    var y := YearOf(n);
    YearStep(y);
    MonthsMonotone(y, 1, 13);
    var doy := n - DaysBeforeYear(y);
    var m := MonthFrom(y, doy, 1);
    Date(y, m, doy - DaysBeforeMonth(y, m) + 1)
  }

  /** A day falls in only one year. */
  lemma YearUnique(a: int, b: int, n: int)
    requires DaysBeforeYear(a) <= n < DaysBeforeYear(a + 1)
    requires DaysBeforeYear(b) <= n < DaysBeforeYear(b + 1)
    ensures a == b
  {
    if a < b { YearsMonotone(a + 1, b); }
    if a > b { YearsMonotone(b + 1, a); }
  }

  /** (year, month, day) compared field by field. */
  predicate DateLe(a: Date, b: Date)
  {
    a.year < b.year
    || (a.year == b.year && (a.month < b.month || (a.month == b.month && a.day <= b.day)))
  }

  /** A date's day number lies within its year. */
  lemma DayWithinYear(d: Date)
    requires ValidDate(d)
    ensures DaysBeforeYear(d.year) <= DayNumber(d) < DaysBeforeYear(d.year + 1)
  {
    YearStep(d.year);
    MonthsMonotone(d.year, d.month + 1, 13);
  }

  /** A date in an earlier year has a smaller day number. */
  lemma EarlierYearFirst(a: Date, b: Date)
    requires ValidDate(a) && ValidDate(b) && a.year < b.year
    ensures DayNumber(a) < DayNumber(b)
  {
    DayWithinYear(a);
    DayWithinYear(b);
    YearsMonotone(a.year + 1, b.year);
  }

  /** Within one year, day numbers follow (month, day). */
  lemma SameYearOrder(a: Date, b: Date)
    requires ValidDate(a) && ValidDate(b) && a.year == b.year
    ensures DayNumber(a) <= DayNumber(b) <==> DateLe(a, b)
  {
    if a.month < b.month {
      MonthsMonotone(a.year, a.month + 1, b.month);
    } else if a.month > b.month {
      MonthsMonotone(a.year, b.month + 1, a.month);
    }
  }

  /** Every representable date has a representable day number, and converting it
      back gives the same date: day numbers and dates are in one-to-one correspondence. */
  lemma DayNumberRoundTrip(d: Date)
    requires ValidDate(d)
    ensures MinDay <= DayNumber(d) <= MaxDay
    ensures FromDayNumber(DayNumber(d)) == d
  {
    var n := DayNumber(d);
    DayWithinYear(d);
    YearsMonotone(1, d.year);
    YearsMonotone(d.year + 1, 10000);
    var r := FromDayNumber(n);
    DayWithinYear(r);
    YearUnique(r.year, d.year, n);
    SameYearOrder(r, d);
    SameYearOrder(d, r);
  }

  /** Day numbers order dates chronologically. */
  lemma DayNumberOrder(a: Date, b: Date)
    requires ValidDate(a) && ValidDate(b)
    ensures DayNumber(a) <= DayNumber(b) <==> DateLe(a, b)
  {
    if a.year < b.year {
      EarlierYearFirst(a, b);
    } else if a.year > b.year {
      EarlierYearFirst(b, a);
    } else {
      SameYearOrder(a, b);
    }
  }

  // ---------------------------------------------------------------------------
  // strftime("%Y-%m-%d") and strptime(s, "%Y-%m-%d")

  /** `date.strftime("%Y-%m-%d")`, i.e. `str(date)`: year with four digits, month and
      day with two. */
  function FormatDate(d: Date): (s: string)
    requires ValidDate(d)
    ensures |s| == 10
  {
    FixedDigits(d.year, 4) + ("-" + (FixedDigits(d.month, 2) + ("-" + FixedDigits(d.day, 2))))
  }

  /** Comparing two formatted dates as text compares the dates in time: the
      maximum date string SQLite finds is the latest date. */
  lemma FormatOrder(a: Date, b: Date)
    requires ValidDate(a) && ValidDate(b)
    ensures LexLe(FormatDate(a), FormatDate(b)) <==> DayNumber(a) <= DayNumber(b)
    ensures FormatDate(a) == FormatDate(b) <==> a == b
  {
    var ya, yb := FixedDigits(a.year, 4), FixedDigits(b.year, 4);
    var ma, mb := FixedDigits(a.month, 2), FixedDigits(b.month, 2);
    var da, db := FixedDigits(a.day, 2), FixedDigits(b.day, 2);
    FixedDigitsOrder(a.year, b.year, 4);
    FixedDigitsOrder(a.month, b.month, 2);
    FixedDigitsOrder(a.day, b.day, 2);
    var ra, rb := "-" + (ma + ("-" + da)), "-" + (mb + ("-" + db));
    var qa, qb := ma + ("-" + da), mb + ("-" + db);
    var ta, tb := "-" + da, "-" + db;
    LexLeConcat(ya, ra, yb, rb);
    LexLeConcat("-", qa, "-", qb);
    LexLeConcat(ma, ta, mb, tb);
    LexLeConcat("-", da, "-", db);
    assert ra == rb <==> qa == qb by {
      assert ra[1..] == qa && rb[1..] == qb;
    }
    assert qa == qb <==> ma == mb && ta == tb by {
      if qa == qb { assert qa[..2] == ma && qb[..2] == mb && qa[2..] == ta && qb[2..] == tb; }
    }
    assert ta == tb <==> da == db by {
      assert ta[1..] == da && tb[1..] == db;
    }
    assert FormatDate(a) == FormatDate(b) <==> ya == yb && ra == rb by {
      if FormatDate(a) == FormatDate(b) {
        assert FormatDate(a)[..4] == ya && FormatDate(b)[..4] == yb;
        assert FormatDate(a)[4..] == ra && FormatDate(b)[4..] == rb;
      }
    }
    DayNumberOrder(a, b);
    LexLeReflexive("-");
  }

  predicate IsMonthText(t: string)
  {
    || (|t| == 2 && t[0] == '1' && '0' <= t[1] <= '2')
    || (|t| == 2 && t[0] == '0' && '1' <= t[1] <= '9')
    || (|t| == 1 && '1' <= t[0] <= '9')
  }

  predicate IsDayText(t: string)
  {
    || (|t| == 2 && t[0] == '3' && '0' <= t[1] <= '1')
    || (|t| == 2 && '1' <= t[0] <= '2' && IsDigit(t[1]))
    || (|t| == 2 && t[0] == '0' && '1' <= t[1] <= '9')
    || (|t| == 1 && '1' <= t[0] <= '9')
    || (|t| == 2 && t[0] == ' ' && '1' <= t[1] <= '9')
  }

  /** The number written by a month or day field: one or two digits, or a space and a digit. */
  function FieldValue(t: string): nat
    requires IsMonthText(t) || IsDayText(t)
  {
    if |t| == 1 then DigitValue(t[0])
    else if t[0] == ' ' then DigitValue(t[1])
    else DigitsValue(t)
  }

  /** The first position at or after `i` holding '-', or `|s|` if there is none. */
  function DashFrom(s: string, i: nat): (p: nat)
    requires i <= |s|
    ensures i <= p <= |s| && (p < |s| ==> s[p] == '-')
    ensures forall k :: i <= k < p ==> s[k] != '-'
    decreases |s| - i
  {
    if i == |s| || s[i] == '-' then i else DashFrom(s, i + 1)
  }

  /** `datetime.strptime(s, "%Y-%m-%d")`: four digits, '-', a month field, '-', a day
      field, and nothing else; a day past the end of its month or year 0 is a
      `ValueError`, as is any other text. */
  function ParseDate(s: string): (r: Result<Date>)
    ensures r.Ok? ==> ValidDate(r.value)
    ensures r.Err? ==> r.error == ValueError
  {
    if |s| < 8 || !AllDigits(s[..4]) || s[4] != '-' then Err(ValueError)
    else
      var p := DashFrom(s, 5);
      if p == |s| then Err(ValueError)
      else
        var mt, dt := s[5..p], s[p + 1..];
        if !IsMonthText(mt) || !IsDayText(dt) then Err(ValueError)
        else
          var y, m, d := DigitsValue(s[..4]), FieldValue(mt), FieldValue(dt);
          if y < 1 || !(1 <= m <= 12) || !(1 <= d <= DaysInMonth(y, m)) then Err(ValueError)
          else Ok(Date(y, m, d))
  }

  /** A two-digit month rendering is a month field that reads back as the month. */
  lemma MonthFieldOfFixed(m: int)
    requires 1 <= m <= 12
    ensures IsMonthText(FixedDigits(m, 2)) && FieldValue(FixedDigits(m, 2)) == m
  {
    var t := FixedDigits(m, 2);
    assert t[0] == DigitChar(m / 10) && t[1] == DigitChar(m % 10);
    DigitsValueOfFixed(m, 2);
  }

  /** A two-digit day rendering is a day field that reads back as the day. */
  lemma DayFieldOfFixed(d: int)
    requires 1 <= d <= 31
    ensures IsDayText(FixedDigits(d, 2)) && FieldValue(FixedDigits(d, 2)) == d
  {
    var t := FixedDigits(d, 2);
    assert t[0] == DigitChar(d / 10) && t[1] == DigitChar(d % 10);
    DigitsValueOfFixed(d, 2);
  }

  /** Reading back a formatted date gives the date. */
  lemma ParseFormatRoundTrip(d: Date)
    requires ValidDate(d)
    ensures ParseDate(FormatDate(d)) == Ok(d)
  {
    var s := FormatDate(d);
    var y, m, t := FixedDigits(d.year, 4), FixedDigits(d.month, 2), FixedDigits(d.day, 2);
    assert s[..4] == y && s[4] == '-' && s[7] == '-' && s[5..7] == m && s[8..] == t;
    assert s[5] == m[0] && s[6] == m[1];
    assert DashFrom(s, 5) == 7 by {
      assert DashFrom(s, 5) == DashFrom(s, 6) == DashFrom(s, 7);
    }
    DigitsValueOfFixed(d.year, 4);
    MonthFieldOfFixed(d.month);
    DayFieldOfFixed(d.day);
  }

  // ---------------------------------------------------------------------------
  // Timestamps

  /** The UTC date of a millisecond timestamp, formatted:
      `datetime.utcfromtimestamp(ts / 1000).strftime("%Y-%m-%d")`. A timestamp
      outside years 1 to 9999 raises `ValueError`. */
  function DateOfMs(ts: int): (r: Result<string>)
    ensures r.Ok? <==> MinDay <= ts / MsPerDay <= MaxDay
    ensures r.Ok? ==> |r.value| == 10
    ensures r.Err? ==> r.error == ValueError
  {
    var n := ts / MsPerDay;
    if n < MinDay || n > MaxDay then Err(ValueError) else Ok(FormatDate(FromDayNumber(n)))
  }

  /** The UTC day number of a millisecond timestamp:
      `datetime.utcfromtimestamp(ts / 1000).date()`, which raises `ValueError`
      outside years 1 to 9999. */
  function DayOfMs(ts: int): (r: Result<int>)
    ensures r.Ok? <==> DateOfMs(ts).Ok?
    ensures r.Ok? ==> MinDay <= r.value <= MaxDay && r.value == ts / MsPerDay
    ensures r.Ok? ==> DateOfMs(ts).value == FormatDate(FromDayNumber(r.value))
    ensures r.Err? ==> r.error == ValueError
  {
    var n := ts / MsPerDay;
    if n < MinDay || n > MaxDay then Err(ValueError) else Ok(n)
  }

  /** `int(datetime(d).timestamp() * 1000)` for midnight of date `d`. */
  function MsOfDate(d: Date): int
    requires ValidDate(d)
  {
    DayNumber(d) * MsPerDay
  }

  /** Every instant of a day maps to that day's date string. */
  lemma DateOfMsWithinDay(d: Date, k: int)
    requires ValidDate(d) && 0 <= k < MsPerDay
    ensures DateOfMs(MsOfDate(d) + k) == Ok(FormatDate(d))
  {
    DayNumberRoundTrip(d);
    assert (MsOfDate(d) + k) / MsPerDay == DayNumber(d);
  }
}
