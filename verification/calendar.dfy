/**
  The proleptic Gregorian calendar as Python's `datetime.date` uses it.
  A calendar day is its ordinal: 0001-01-01 is day 1 and 9999-12-31,
  the last day Python can represent, is day 3652059. The module gives the
  conversion between ordinals and (year, month, day), the weekday, the
  `YYYY-MM-DD` / `DD MMM YYYY` / `hh:mm A` renderings, and
  `datetime.strptime(s, '%Y-%m-%d')`.
*/
module Calendar {
  import opened Wrappers
  import opened Text

  const MaxYear := 9999
  const MaxOrdinal := 3652059

  /** A day Python's `date` type can hold. */
  type Ordinal = n: int | 1 <= n <= MaxOrdinal witness 1

  datatype Civil = Civil(year: int, month: int, day: int)

  predicate IsLeap(y: int) {
    y % 4 == 0 && (y % 100 != 0 || y % 400 == 0)
  }

  function DaysInYear(y: int): int {
    if IsLeap(y) then 366 else 365
  }

  function DaysInMonth(y: int, m: int): int
    requires 1 <= m <= 12
  {
    if m == 2 then (if IsLeap(y) then 29 else 28)
    else if m == 4 || m == 6 || m == 9 || m == 11 then 30
    else 31
  }

  /** Days of year `y` that precede the first of month `m`. */
  function DaysBeforeMonth(y: int, m: int): int
    requires 1 <= m <= 12
  {
    var common :=
      if m == 1 then 0 else if m == 2 then 31 else if m == 3 then 59
      else if m == 4 then 90 else if m == 5 then 120 else if m == 6 then 151
      else if m == 7 then 181 else if m == 8 then 212 else if m == 9 then 243
      else if m == 10 then 273 else if m == 11 then 304 else 334;
    if m > 2 && IsLeap(y) then common + 1 else common
  }

  /** Days from 0001-01-01 up to, not including, January 1 of year `y`. */
  function DaysBeforeYear(y: int): int
    requires y >= 1
  {
    if y == 1 then 0 else DaysBeforeYear(y - 1) + DaysInYear(y - 1)
  }

  predicate ValidCivil(c: Civil) {
    1 <= c.year <= MaxYear && 1 <= c.month <= 12 && 1 <= c.day <= DaysInMonth(c.year, c.month)
  }

  /** `date(y, m, d).toordinal()` */
  function ToOrdinal(c: Civil): int
    requires ValidCivil(c)
  {
    DaysBeforeYear(c.year) + DaysBeforeMonth(c.year, c.month) + c.day
  }

  // ---------------------------------------------------------------------
  // Year and month arithmetic

  lemma DivSteps(k: int)
    requires k >= 0
    ensures (k + 1) / 4 == k / 4 + (if (k + 1) % 4 == 0 then 1 else 0)
    ensures (k + 1) / 100 == k / 100 + (if (k + 1) % 100 == 0 then 1 else 0)
    ensures (k + 1) / 400 == k / 400 + (if (k + 1) % 400 == 0 then 1 else 0)
  {
  }

  lemma HundredsDivisible(m: int)
    ensures (100 * m) % 100 == 0
  {
  }

  lemma FoursDivisible(m: int)
    ensures (4 * m) % 4 == 0
  {
  }

  lemma MultipleOf400(x: int)
    requires x >= 0 && x % 400 == 0
    ensures x % 100 == 0 && x % 4 == 0
  {
    var q := x / 400;
    assert x == 400 * q;
    HundredsDivisible(4 * q);
    FoursDivisible(100 * q);
  }

  lemma MultipleOf100(x: int)
    requires x >= 0 && x % 100 == 0
    ensures x % 4 == 0
  {
    var q := x / 100;
    assert x == 100 * q;
    FoursDivisible(25 * q);
  }

  lemma LeapIndicator(x: int)
    requires x >= 0
    ensures DaysInYear(x) - 365
      == (if x % 4 == 0 then 1 else 0) - (if x % 100 == 0 then 1 else 0) + (if x % 400 == 0 then 1 else 0)
  {
    if x % 400 == 0 {
      MultipleOf400(x);
    } else if x % 100 == 0 {
      MultipleOf100(x);
    }
  }

  /** The closed form Python's `_days_before_year` uses. */
  lemma {:induction false} DaysBeforeYearClosedForm(y: int)
    requires y >= 1
    ensures DaysBeforeYear(y) == 365 * (y - 1) + (y - 1) / 4 - (y - 1) / 100 + (y - 1) / 400
    decreases y
  {
    if y > 1 {
      DaysBeforeYearClosedForm(y - 1);
      DivSteps(y - 2);
      LeapIndicator(y - 1);
    }
  }

  lemma DaysBeforeYearStep(y: int)
    requires y >= 1
    ensures DaysBeforeYear(y + 1) == DaysBeforeYear(y) + DaysInYear(y)
  {
  }

  /** The first day after year 9999 is day 3652060. */
  lemma DaysBeforeYearLimit()
    ensures DaysBeforeYear(MaxYear + 1) == MaxOrdinal
  {
    DaysBeforeYearClosedForm(MaxYear + 1);
  }

  lemma {:induction false} DaysBeforeYearMonotone(a: int, b: int)
    requires 1 <= a <= b
    ensures DaysBeforeYear(a) + 365 * (b - a) <= DaysBeforeYear(b)
    decreases b - a
  {
    if a < b {
      DaysBeforeYearStep(a);
      DaysBeforeYearMonotone(a + 1, b);
    }
  }

  lemma MonthStep(y: int, m: int)
    requires 1 <= m < 12
    ensures DaysBeforeMonth(y, m + 1) == DaysBeforeMonth(y, m) + DaysInMonth(y, m)
  {
  }

  lemma YearEnd(y: int)
    ensures DaysBeforeMonth(y, 12) + DaysInMonth(y, 12) == DaysInYear(y)
  {
  }

  /** The year holding day `n`, searched upwards from year `y`. */
  function YearFrom(n: int, y: int): (r: int)
    requires y >= 1 && DaysBeforeYear(y) < n
    ensures r >= y && DaysBeforeYear(r) < n <= DaysBeforeYear(r + 1)
    decreases n - DaysBeforeYear(y)
  {
    DaysBeforeYearStep(y);
    if n <= DaysBeforeYear(y + 1) then y else YearFrom(n, y + 1)
  }

  /** The month of year `y` holding its `r`-th day, searched upwards from month `m`. */
  function MonthFrom(y: int, r: int, m: int): (mm: int)
    requires 1 <= m <= 12 && DaysBeforeMonth(y, m) < r <= DaysInYear(y)
    ensures m <= mm <= 12
    ensures DaysBeforeMonth(y, mm) < r <= DaysBeforeMonth(y, mm) + DaysInMonth(y, mm)
    decreases 12 - m
  {
    if m == 12 then
      YearEnd(y);
      12
    else if r <= DaysBeforeMonth(y, m) + DaysInMonth(y, m) then m
    else
      MonthStep(y, m);
      MonthFrom(y, r, m + 1)
  }

  /** `date.fromordinal(n)` as (year, month, day). */
  function FromOrdinal(n: Ordinal): (c: Civil)
    ensures ValidCivil(c)
  {
    var y := YearFrom(n, 1);
    DaysBeforeYearStep(y);
    assert y <= MaxYear by {
      DaysBeforeYearLimit();
      if y > MaxYear {
        DaysBeforeYearMonotone(MaxYear + 1, y);
      }
    }
    var r := n - DaysBeforeYear(y);
    var m := MonthFrom(y, r, 1);
    Civil(y, m, r - DaysBeforeMonth(y, m))
  }

  lemma {:induction false} YearFromUnique(n: int, y0: int, y: int)
    requires 1 <= y0 <= y
    requires DaysBeforeYear(y0) < n
    requires DaysBeforeYear(y) < n <= DaysBeforeYear(y + 1)
    ensures YearFrom(n, y0) == y
    decreases y - y0
  {
    DaysBeforeYearStep(y0);
    if y0 < y {
      DaysBeforeYearMonotone(y0 + 1, y);
      YearFromUnique(n, y0 + 1, y);
    }
  }

  lemma {:induction false} MonthFromUnique(y: int, r: int, m0: int, m: int)
    requires 1 <= m0 <= m <= 12
    requires DaysBeforeMonth(y, m0) < r <= DaysInYear(y)
    requires DaysBeforeMonth(y, m) < r <= DaysBeforeMonth(y, m) + DaysInMonth(y, m)
    ensures MonthFrom(y, r, m0) == m
    decreases m - m0
  {
    if m0 < m {
      MonthStep(y, m0);
      assert DaysBeforeMonth(y, m0 + 1) <= DaysBeforeMonth(y, m);
      MonthFromUnique(y, r, m0 + 1, m);
    }
  }

  /** Converting a valid date to its ordinal and back gives the date again. */
  lemma CivilRoundTrip(c: Civil)
    requires ValidCivil(c)
    ensures 1 <= ToOrdinal(c) <= MaxOrdinal
    ensures FromOrdinal(ToOrdinal(c)) == c
  {
    var n := ToOrdinal(c);
    DaysBeforeYearStep(c.year);
    assert DaysBeforeMonth(c.year, c.month) + DaysInMonth(c.year, c.month) <= DaysInYear(c.year) by {
      if c.month < 12 {
        MonthStep(c.year, c.month);
        assert DaysBeforeMonth(c.year, c.month + 1) <= DaysBeforeMonth(c.year, 12);
      }
    }
    DaysBeforeYearLimit();
    DaysBeforeYearMonotone(c.year + 1, MaxYear + 1);
    DaysBeforeYearMonotone(1, c.year);
    YearFromUnique(n, 1, c.year);
    MonthFromUnique(c.year, n - DaysBeforeYear(c.year), 1, c.month);
  }

  /** Converting an ordinal to a date and back gives the ordinal again. */
  lemma OrdinalRoundTrip(n: Ordinal)
    ensures ToOrdinal(FromOrdinal(n)) == n
  {
  }

  // ---------------------------------------------------------------------
  // Weekdays and renderings

  /** `date.weekday()`: Monday is 0 and Sunday is 6. */
  function Weekday(n: int): (w: int)
    ensures 0 <= w < 7
  {
    (n + 6) % 7
  }

  /** Day one of the proleptic calendar, 1 January of year 1, was a Monday,
      and so was 1 January 2024. */
  lemma WeekdayAnchors()
    ensures Weekday(ToOrdinal(Civil(1, 1, 1))) == 0
    ensures Weekday(ToOrdinal(Civil(2024, 1, 1))) == 0
  {
    var c := Civil(2024, 1, 1);
    DaysBeforeYearClosedForm(c.year);
    assert ToOrdinal(c) == 738886;
  }

  /** Each day is the weekday after the one before it, Sunday wrapping to Monday. */
  lemma WeekdayNext(n: int)
    ensures Weekday(n + 1) == (Weekday(n) + 1) % 7
  {
  }

  /** Saturday or Sunday (`weekday() in [5, 6]`). */
  predicate IsWeekend(n: int) {
    Weekday(n) == 5 || Weekday(n) == 6
  }

  /** The `dddd` rendering: the English weekday name. */
  function DayName(n: int): string {
    var w := Weekday(n);
    if w == 0 then "Monday" else if w == 1 then "Tuesday" else if w == 2 then "Wednesday"
    else if w == 3 then "Thursday" else if w == 4 then "Friday" else if w == 5 then "Saturday"
    else "Sunday"
  }

  /** The `MMM` rendering: the English month abbreviation. */
  function MonthAbbreviation(m: int): string
    requires 1 <= m <= 12
  {
    ["Jan", "Feb", "Mar", "Apr", "May", "Jun", "Jul", "Aug", "Sep", "Oct", "Nov", "Dec"][m - 1]
  }

  /** `YYYY-MM-DD`, the canonical date of every outbound request. */
  function IsoFormat(n: Ordinal): string {
    var c := FromOrdinal(n);
    ZeroPad(c.year, 4) + "-" + ZeroPad(c.month, 2) + "-" + ZeroPad(c.day, 2)
  }

  /** `DD MMM YYYY` */
  function DisplayFormat(n: Ordinal): string {
    var c := FromOrdinal(n);
    ZeroPad(c.day, 2) + " " + MonthAbbreviation(c.month) + " " + ZeroPad(c.year, 4)
  }

  /** The `hh` rendering: the hour on a 12-hour clock, 12 standing for 0. */
  function Hour12(h: int): (r: int)
    requires 0 <= h < 24
    ensures 1 <= r <= 12
    ensures r % 12 == h % 12
  {
    if 0 < h < 13 then h else if h >= 12 then h - 12 else 12
  }

  /** `DD MMM YYYY, hh:mm A` */
  function FullDisplay(n: Ordinal, hour: int, minute: int): string
    requires 0 <= hour < 24 && 0 <= minute < 60
  {
    DisplayFormat(n) + ", " + ZeroPad(Hour12(hour), 2) + ":" + ZeroPad(minute, 2)
    + " " + (if hour < 12 then "AM" else "PM")
  }

  // ---------------------------------------------------------------------
  // datetime.strptime(s, '%Y-%m-%d')

  /** Index of the first `c` in `s`, or `|s|` when there is none. */
  function IndexOf(s: string, c: char): (k: nat)
    ensures k <= |s|
    ensures forall i :: 0 <= i < k ==> s[i] != c
    ensures k < |s| ==> s[k] == c
  {
    if s == [] || s[0] == c then 0 else 1 + IndexOf(s[1..], c)
  }

  /** The value of a `%m` field, which must be one of 1-9, 01-09, 10-12. */
  function MonthField(t: string): Option<int> {
    if |t| == 1 && '1' <= t[0] <= '9' then Some(DigitValue(t[0]))
    else if |t| == 2 && t[0] == '0' && '1' <= t[1] <= '9' then Some(DigitValue(t[1]))
    else if |t| == 2 && t[0] == '1' && '0' <= t[1] <= '2' then Some(10 + DigitValue(t[1]))
    else None
  }

  /** Length matched by the first alternative of `3[01]|[12]\d|0[1-9]|[1-9]| [1-9]`
      that matches a prefix of `t`, or 0 when none does. */
  function DayMatchLength(t: string): nat {
    if |t| >= 2 && t[0] == '3' && (t[1] == '0' || t[1] == '1') then 2
    else if |t| >= 2 && (t[0] == '1' || t[0] == '2') && IsDigit(t[1]) then 2
    else if |t| >= 2 && t[0] == '0' && '1' <= t[1] <= '9' then 2
    else if |t| >= 1 && '1' <= t[0] <= '9' then 1
    else if |t| >= 2 && t[0] == ' ' && '1' <= t[1] <= '9' then 2
    else 0
  }

  /** The value of a `%d` field; anything left after the match is
      "unconverted data" and rejected. */
  function DayField(t: string): Option<int> {
    var k := DayMatchLength(t);
    if k == 0 || k != |t| then None
    else if k == 1 then Some(DigitValue(t[0]))
    else if t[0] == ' ' then Some(DigitValue(t[1]))
    else Some(10 * DigitValue(t[0]) + DigitValue(t[1]))
  }

  /** `datetime.strptime(s, '%Y-%m-%d')`: a four-digit year, a dash, a month,
      a dash and a day, nothing else, naming a day Python can represent. */
  function ParseIsoDate(s: string): (r: Option<Ordinal>)
  {
    if |s| < 5 || !AllDigits(s[..4]) || s[4] != '-' then None
    else
      var rest := s[5..];
      var j := IndexOf(rest, '-');
      if j == |rest| then None
      else
        match (MonthField(rest[..j]), DayField(rest[j + 1..]))
        case (Some(m), Some(d)) =>
          var y := DigitsValue(s[..4]);
          DigitsValueBound(s[..4]);
          assert Pow10(4) == 10000;
          if 1 <= y && d <= DaysInMonth(y, m) then
            CivilRoundTrip(Civil(y, m, d));
            Some(ToOrdinal(Civil(y, m, d)))
          else None
        case _ => None
  }

  lemma TwoDigits(v: nat)
    requires v < 100
    ensures ZeroPad(v, 2) == [DigitChar(v / 10), DigitChar(v % 10)]
  {
    if v >= 10 {
      assert NatToString(v) == NatToString(v / 10) + [DigitChar(v % 10)];
    }
  }

  lemma DigitCharValue(d: int)
    requires 0 <= d < 10
    ensures DigitValue(DigitChar(d)) == d
  {
  }

  lemma MonthFieldOfPad(m: int)
    requires 1 <= m <= 12
    ensures MonthField(ZeroPad(m, 2)) == Some(m)
  {
    TwoDigits(m);
    DigitCharValue(m / 10);
    DigitCharValue(m % 10);
  }

  lemma DayFieldOfPad(d: int)
    requires 1 <= d <= 31
    ensures DayField(ZeroPad(d, 2)) == Some(d)
  {
    TwoDigits(d);
    DigitCharValue(d / 10);
    DigitCharValue(d % 10);
  }

  /** The `strptime` reading of a four-digit year, a two-character month and
      a two-character day joined by dashes. */
  lemma ParseIsoDateParts(ys: string, ms: string, ds: string, c: Civil)
    requires ValidCivil(c)
    requires |ys| == 4 && AllDigits(ys) && DigitsValue(ys) == c.year
    requires |ms| == 2 && IsDigit(ms[0]) && IsDigit(ms[1]) && MonthField(ms) == Some(c.month)
    requires DayField(ds) == Some(c.day)
    ensures ParseIsoDate(ys + "-" + ms + "-" + ds) == Some(ToOrdinal(c))
  {
    var s := ys + "-" + ms + "-" + ds;
    assert s[..4] == ys;
    var rest := s[5..];
    assert rest == ms + "-" + ds;
    assert IndexOf(rest, '-') == 2 by {
      assert rest[0] == ms[0] && rest[1] == ms[1] && rest[2] == '-';
    }
    assert rest[..2] == ms;
    assert rest[3..] == ds;
  }

  /** Reading back the `YYYY-MM-DD` rendering of a day gives the same day. */
  lemma IsoFormatRoundTrip(n: Ordinal)
    ensures ParseIsoDate(IsoFormat(n)) == Some(n)
  {
    var c := FromOrdinal(n);
    assert Pow10(4) == 10000;
    ZeroPadExact(c.year, 4);
    ZeroPadValue(c.year, 4);
    TwoDigits(c.month);
    MonthFieldOfPad(c.month);
    DayFieldOfPad(c.day);
    ParseIsoDateParts(ZeroPad(c.year, 4), ZeroPad(c.month, 2), ZeroPad(c.day, 2), c);
    OrdinalRoundTrip(n);
  }
}
