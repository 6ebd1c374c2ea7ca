/**
 * Calendar arithmetic of the fixture builder (crates/app/src/devfixture.rs): the
 * era-based conversion of seconds to a civil date, against a Gregorian calendar
 * defined from its leap-year rule alone (Appendix C of RFC 3339).
 */
module Civil {
  import opened Common

  datatype DateTime = DateTime(year: int, month: int, day: int, hour: int, minute: int, second: int)

  /** Rust's `div_euclid` and `rem_euclid` are Dafny's `/` and `%`. */
  function CivilFromUnix(seconds: int): DateTime {
    var days := seconds / 86_400;
    var secsOfDay := seconds % 86_400;
    var z := days + 719_468;
    var era := z / 146_097;
    var doe := z % 146_097;
    var yoe := YearOfEra(doe);
    var y := yoe + era * 400;
    var doy := doe - (365 * yoe + yoe / 4 - yoe / 100);
    var mp := (5 * doy + 2) / 153;
    var d := doy - (153 * mp + 2) / 5 + 1;
    var m := if mp < 10 then mp + 3 else mp - 9;
    var year := if m <= 2 then y + 1 else y;
    DateTime(year, m, d, secsOfDay / 3600, (secsOfDay % 3600) / 60, secsOfDay % 60)
  }

  function YearOfEra(doe: int): int {
    (doe - doe / 1460 + doe / 36524 - doe / 146_096) / 365
  }

  // ------------------------------------------------------------ the calendar itself

  predicate IsLeap(y: int) {
    y % 4 == 0 && (y % 100 != 0 || y % 400 == 0)
  }

  function DaysInYear(y: int): int {
    if IsLeap(y) then 366 else 365
  }

  function DaysInMonth(y: int, m: int): int {
    if m == 2 then (if IsLeap(y) then 29 else 28)
    else if m == 4 || m == 6 || m == 9 || m == 11 then 30
    else 31
  }

  /** Days from 1 January 1970 to 1 January of year `y`, counted year by year. */
  function YearStart(y: int): int
    decreases if y < 1970 then 1970 - y else y - 1970
  {
    if y == 1970 then 0
    else if y > 1970 then YearStart(y - 1) + DaysInYear(y - 1)
    else YearStart(y + 1) - DaysInYear(y)
  }

  /** Days from 1 January to the first of month `m`, counted month by month. */
  function MonthStart(y: int, m: int): int
    requires 1 <= m <= 12
    decreases m
  {
    if m == 1 then 0 else MonthStart(y, m - 1) + DaysInMonth(y, m - 1)
  }

  predicate ValidDateTime(t: DateTime) {
    && 1 <= t.month <= 12
    && 1 <= t.day <= DaysInMonth(t.year, t.month)
    && 0 <= t.hour < 24 && 0 <= t.minute < 60 && 0 <= t.second < 60
  }

  function DayNumber(y: int, m: int, d: int): int
    requires 1 <= m <= 12
  {
    YearStart(y) + MonthStart(y, m) + d - 1
  }

  function UnixOf(t: DateTime): int
    requires ValidDateTime(t)
  {
    DayNumber(t.year, t.month, t.day) * 86_400 + t.hour * 3600 + t.minute * 60 + t.second
  }

  // ------------------------------------------------------------------ closed forms

  /** Leap years in 1..y, for any `y`. */
  function Leaps(y: int): int {
    y / 4 - y / 100 + y / 400
  }

  lemma LeapsStep(y: int)
    ensures Leaps(y) - Leaps(y - 1) == if IsLeap(y) then 1 else 0
  {
    QuotientSteps(y);
    HundredsAreFours(y);
    FourHundredsAreHundreds(y);
  }

  lemma QuotientSteps(y: int)
    ensures y / 4 - (y - 1) / 4 == if y % 4 == 0 then 1 else 0
    ensures y / 100 - (y - 1) / 100 == if y % 100 == 0 then 1 else 0
    ensures y / 400 - (y - 1) / 400 == if y % 400 == 0 then 1 else 0
  {
  }

  lemma HundredsAreFours(y: int)
    ensures y % 100 == 0 ==> y % 4 == 0
  {
    var q := y / 100;
    if y % 100 == 0 { assert y == 4 * (25 * q); }
  }

  lemma FourHundredsAreHundreds(y: int)
    ensures y % 400 == 0 ==> y % 100 == 0
  {
    var q := y / 400;
    if y % 400 == 0 { assert y == 100 * (4 * q); }
  }

  lemma {:induction false} YearStartClosed(y: int)
    ensures YearStart(y) == 365 * (y - 1970) + Leaps(y - 1) - Leaps(1969)
    decreases if y < 1970 then 1970 - y else y - 1970
  {
    if y > 1970 {
      YearStartClosed(y - 1);
      LeapsStep(y - 1);
    } else if y < 1970 {
      YearStartClosed(y + 1);
      LeapsStep(y);
    }
  }

  lemma MonthStarts(y: int)
    ensures MonthStart(y, 2) == 31
    ensures MonthStart(y, 3) == 59 + (if IsLeap(y) then 1 else 0)
    ensures forall k | 0 <= k < 10 :: MonthStart(y, k + 3) == MonthStart(y, 3) + (153 * k + 2) / 5
  {
    var s3 := MonthStart(y, 3);
    assert MonthStart(y, 1) == 0;
    assert MonthStart(y, 4) == s3 + 31;
    assert MonthStart(y, 5) == s3 + 61;
    assert MonthStart(y, 6) == s3 + 92;
    assert MonthStart(y, 7) == s3 + 122;
    assert MonthStart(y, 8) == s3 + 153;
    assert MonthStart(y, 9) == s3 + 184;
    assert MonthStart(y, 10) == s3 + 214;
    assert MonthStart(y, 11) == s3 + 245;
    assert MonthStart(y, 12) == s3 + 275;
  }

  // ------------------------------------------------------------- the year of the era

  /** Days of the era before its `k`-th March-based year. */
  function EraDays(k: int): int {
    365 * k + k / 4 - k / 100
  }

  /**
   * The division trick finds the right year: for each day of the 400-year era,
   * the year begins no later than the day and is long enough to hold it. Its 366th
   * day exists exactly when the February that ends it has 29 days.
   */
  lemma YearOfEraIsRight(doe: int)
    requires 0 <= doe < 146_097
    ensures var yoe := YearOfEra(doe);
      && 0 <= yoe < 400
      && 0 <= doe - EraDays(yoe) <= 365
      && (doe - EraDays(yoe) == 365 ==> IsLeap(yoe + 1))
  {
    if doe == 146_096 {
      assert YearOfEra(doe) == 399;
    } else {
      var c, r := doe / 36524, doe % 36524;
      var q, t := r / 1461, r % 1461;
      var k := if t / 365 > 3 then 3 else t / 365;
      assert doe == 36524 * c + 1461 * q + t;
      QuadYear(c, q, t, k);
      hide YearOfEra, EraDays, IsLeap;
    }
  }

  /** The same within one century `c`, four-year group `q`, day `t` of the group. */
  lemma QuadYear(c: int, q: int, t: int, k: int)
    requires 0 <= c <= 3 && 0 <= q <= 24 && 0 <= t <= 1460 && (q == 24 ==> t < 1460)
    requires k == if t / 365 > 3 then 3 else t / 365
    ensures var doe := 36524 * c + 1461 * q + t;
      && YearOfEra(doe) == 100 * c + 4 * q + k
      && EraDays(100 * c + 4 * q + k) == 36524 * c + 1461 * q + 365 * k
      && 0 <= t - 365 * k <= 365
      && (t - 365 * k == 365 ==> IsLeap(100 * c + 4 * q + k + 1))
  {
    var doe := 36524 * c + 1461 * q + t;
    var carry := if 24 * c + q + t >= 1460 then 1 else 0;
    assert doe / 1460 == 25 * c + q + carry by {
      assert doe == 1460 * (25 * c + q + carry) + (24 * c + q + t - 1460 * carry);
    }
    assert doe / 36524 == c;
    assert doe / 146_096 == 0;
    assert doe - doe / 1460 + doe / 36524 == 365 * (100 * c + 4 * q) + (t - carry);
    assert (t - carry) / 365 == k;
    assert (100 * c + 4 * q + k) / 4 == 25 * c + q;
    assert (100 * c + 4 * q + k) / 100 == c;
    if t == 1460 {
      assert 100 * c + 4 * q + k + 1 == 4 * (25 * c + q + 1);
      assert (100 * c + 4 * q + k + 1) % 100 == 4 * (q + 1);
    }
  }

  // ------------------------------------------------------------------- main results

  /** Month and day within a March-based year. */
  lemma MonthOfYear(doy: int)
    requires 0 <= doy <= 365
    ensures var mp := (5 * doy + 2) / 153;
      && 0 <= mp <= 11
      && (153 * mp + 2) / 5 <= doy
      && doy < (if mp == 11 then 366 else (153 * (mp + 1) + 2) / 5)
  {
  }

  /** A day of a March-based year has a month and a day, and they number it back. */
  lemma DayOfYearIsRight(y: int, doy: int)
    requires 0 <= doy <= 365 && (doy == 365 ==> IsLeap(y + 1))
    ensures var mp := (5 * doy + 2) / 153;
      var m := if mp < 10 then mp + 3 else mp - 9;
      var d := doy - (153 * mp + 2) / 5 + 1;
      var year := if m <= 2 then y + 1 else y;
      && 1 <= m <= 12 && 1 <= d <= DaysInMonth(year, m)
      && DayNumber(year, m, d) == 365 * y + Leaps(y) + doy - 719_468
  {
    var mp := (5 * doy + 2) / 153;
    var m := if mp < 10 then mp + 3 else mp - 9;
    var year := if m <= 2 then y + 1 else y;
    MonthOfYear(doy);
    MonthStarts(year);
    YearStartClosed(year);
    LeapsStep(year);
    assert Leaps(1969) == 477;
    if mp < 10 {
      assert MonthStart(year, mp + 3) == MonthStart(year, 3) + (153 * mp + 2) / 5;
    }
  }

  /** `y` and the day of its year, put back into a day count. */
  lemma EraAdds(z: int, yoe: int)
    requires 0 <= yoe < 400
    ensures var y := yoe + (z / 146_097) * 400;
      365 * y + Leaps(y) + (z % 146_097 - EraDays(yoe)) == z
    ensures IsLeap(yoe + (z / 146_097) * 400 + 1) == IsLeap(yoe + 1)
  {
    var era := z / 146_097;
    FourHundredYears(yoe, era);
    FourHundredYears(yoe + 1, era);
    assert z == 146_097 * era + z % 146_097;
  }

  lemma FourHundredYears(y: int, era: int)
    ensures (y + era * 400) / 4 == y / 4 + 100 * era && (y + era * 400) % 4 == y % 4
    ensures (y + era * 400) / 100 == y / 100 + 4 * era && (y + era * 400) % 100 == y % 100
    ensures (y + era * 400) / 400 == y / 400 + era && (y + era * 400) % 400 == y % 400
  {
  }

  lemma DateIsExact(seconds: int)
    ensures var t := CivilFromUnix(seconds);
      && 1 <= t.month <= 12 && 1 <= t.day <= DaysInMonth(t.year, t.month)
      && DayNumber(t.year, t.month, t.day) == seconds / 86_400
  {
    hide DayNumber, DaysInMonth, Leaps, YearOfEra, IsLeap;
    var z := seconds / 86_400 + 719_468;
    var doe := z % 146_097;
    YearOfEraIsRight(doe);
    EraAdds(z, YearOfEra(doe));
    DayOfYearIsRight(YearOfEra(doe) + (z / 146_097) * 400, doe - EraDays(YearOfEra(doe)));
  }

  /** For every integer, the computed date is a real date and names that very second. */
  lemma CivilIsExact(seconds: int)
    ensures ValidDateTime(CivilFromUnix(seconds))
    ensures UnixOf(CivilFromUnix(seconds)) == seconds
  {
    hide DayNumber, DaysInMonth, YearOfEra;
    DateIsExact(seconds);
    ClockAdds(seconds % 86_400);
  }

  lemma ClockAdds(tod: int)
    requires 0 <= tod < 86_400
    ensures tod == (tod / 3600) * 3600 + ((tod % 3600) / 60) * 60 + tod % 60
    ensures 0 <= tod / 3600 < 24 && 0 <= (tod % 3600) / 60 < 60
  {
    var h, rest := tod / 3600, tod % 3600;
    assert tod == 3600 * h + rest;
    assert rest == 60 * (rest / 60) + rest % 60;
    assert tod % 60 == rest % 60 by { assert tod == 60 * (60 * h) + rest; }
  }

  // --------------------------------------------------------------------- the inverse

  /** Field by field, most significant first. */
  predicate Before(a: DateTime, b: DateTime) {
    if a.year != b.year then a.year < b.year
    else if a.month != b.month then a.month < b.month
    else if a.day != b.day then a.day < b.day
    else if a.hour != b.hour then a.hour < b.hour
    else if a.minute != b.minute then a.minute < b.minute
    else a.second < b.second
  }

  lemma {:induction false} YearsGrow(y: int, later: int)
    requires y < later
    ensures YearStart(y) + DaysInYear(y) <= YearStart(later)
    decreases later - y
  {
    YearStep(y);
    if y + 1 < later {
      YearsGrow(y + 1, later);
    }
  }

  lemma YearStep(y: int)
    ensures YearStart(y + 1) == YearStart(y) + DaysInYear(y)
  {
    YearStartClosed(y);
    YearStartClosed(y + 1);
    LeapsStep(y);
  }

  lemma {:induction false} MonthsGrow(y: int, m: int, later: int)
    requires 1 <= m < later <= 12
    ensures MonthStart(y, m) + DaysInMonth(y, m) <= MonthStart(y, later)
    decreases later - m
  {
    if m + 1 < later {
      MonthsGrow(y, m, later - 1);
    }
  }

  lemma DayWithinYear(y: int, m: int, d: int)
    requires 1 <= m <= 12 && 1 <= d <= DaysInMonth(y, m)
    ensures 0 <= MonthStart(y, m) + d - 1 < DaysInYear(y)
  {
    MonthStarts(y);
    if m < 12 { MonthsGrow(y, m, 12); }
    if m > 1 { MonthsGrow(y, 1, m); }
    assert MonthStart(y, 12) == MonthStart(y, 3) + 275;
  }

  lemma UnixGrows(a: DateTime, b: DateTime)
    requires ValidDateTime(a) && ValidDateTime(b) && Before(a, b)
    ensures UnixOf(a) < UnixOf(b)
  {
    DayWithinYear(a.year, a.month, a.day);
    DayWithinYear(b.year, b.month, b.day);
    if a.year < b.year {
      YearsGrow(a.year, b.year);
    } else if a.year == b.year && a.month < b.month {
      MonthsGrow(a.year, a.month, b.month);
    }
  }

  /** Conversion is strictly monotone in both directions. */
  lemma CivilIsMonotone(s: int, t: int)
    ensures s < t <==> Before(CivilFromUnix(s), CivilFromUnix(t))
  {
    CivilIsExact(s);
    CivilIsExact(t);
    var a, b := CivilFromUnix(s), CivilFromUnix(t);
    if Before(a, b) {
      UnixGrows(a, b);
    } else if a != b {
      UnixGrows(b, a);
    }
  }

  /** Every real date is the conversion of its own second: the two maps are inverse. */
  lemma CivilInvertsUnix(t: DateTime)
    requires ValidDateTime(t)
    ensures CivilFromUnix(UnixOf(t)) == t
  {
    CivilIsExact(UnixOf(t));
    var u := CivilFromUnix(UnixOf(t));
    if u != t {
      if Before(u, t) { UnixGrows(u, t); } else { UnixGrows(t, u); }
    }
  }
}
