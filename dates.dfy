/** Calendar days, clock times and the Monday-to-Sunday planner week.

    A day is the number of days since 0001-01-01 (Python's `date.toordinal()`
    minus one), within the range of Python's `date` type, 0001-01-01 to
    9999-12-31. Day 0 is a Monday, so the weekday (0 = Monday) is `d % 7`.
    The source stores days as ISO `YYYY-MM-DD` text and times as `HH:MM`
    text and compares those strings; the model compares day numbers and
    minutes instead. That rests on the texts being fixed-width and
    zero-padded (`IsoDate` and `ClockText` below have the fixed widths);
    that the text order and the number order agree is assumed, not proved. */
module Dates {
  import opened Wrappers
  import opened Seqs

  /** 9999-12-31, the last day Python's `date` can represent. */
  const MaxDay: int := 3652058
  const MinutesPerDay: int := 1440

  type Day = d: int | 0 <= d <= MaxDay
  /** A clock time `HH:MM` as its minute of the day. */
  type Minute = m: int | 0 <= m < MinutesPerDay

  /** 0 = Monday, ..., 6 = Sunday (Python's `date.weekday()`). */
  function Weekday(d: Day): (w: int)
    ensures 0 <= w < 7
  {
    d % 7
  }

  datatype Week = Week(monday: Day, sunday: Day)

  /** The Monday..Sunday window holding `anchor` (app.py `week_bounds`), or
      None where Python's date arithmetic overflows: the Sunday of the last
      week would fall after 9999-12-31. */
  function WeekBounds(anchor: Day): (r: Option<Week>)
    ensures r.None? <==> anchor >= LastMonday
    ensures r.Some? ==> Weekday(r.value.monday) == 0
    ensures r.Some? ==> r.value.sunday == r.value.monday + 6
    ensures r.Some? ==> r.value.monday <= anchor <= r.value.sunday
  {
    var monday := anchor - Weekday(anchor);
    if monday + 6 <= MaxDay then Some(Week(monday, monday + 6)) else None
  }

  /** 9999-12-27, the Monday of the last, partial, week Python can represent. */
  const LastMonday: int := 3652054

  /** `LastMonday` is the Monday of the week of the last day, and the window
      exists exactly for anchors before it. */
  lemma WeekBoundsDefined(anchor: Day)
    ensures LastMonday == MaxDay - Weekday(MaxDay)
    ensures WeekBounds(anchor).Some? <==> anchor < LastMonday
  {
    assert MaxDay % 7 == 4;
  }

  /** The window is the only Monday-started week that holds the anchor. */
  lemma WeekBoundsUnique(anchor: Day, m: Day)
    requires Weekday(m) == 0 && m <= anchor <= m + 6
    requires m + 6 <= MaxDay
    ensures WeekBounds(anchor) == Some(Week(m, m + 6))
  {
    var k := anchor - m;
    assert m == 7 * (m / 7);
    assert anchor == 7 * (m / 7) + k;
    assert anchor % 7 == k;
  }

  /** Moving the anchor by `days` (the week buttons use plus or minus 7), or
      None where Python raises OverflowError for a date out of range. */
  function ShiftAnchor(anchor: Day, days: int): (r: Option<Day>)
    ensures r.Some? ==> r.value == anchor + days
    ensures r.None? <==> !(0 <= anchor + days <= MaxDay)
  {
    if 0 <= anchor + days <= MaxDay then Some(anchor + days) else None
  }

  /** One press of a week button moves both ends of the window by exactly a week. */
  lemma ShiftMovesWeek(anchor: Day, days: int)
    requires days == 7 || days == -7
    requires ShiftAnchor(anchor, days).Some?
    requires WeekBounds(anchor).Some? && WeekBounds(ShiftAnchor(anchor, days).value).Some?
    ensures WeekBounds(ShiftAnchor(anchor, days).value).value.monday == WeekBounds(anchor).value.monday + days
    ensures WeekBounds(ShiftAnchor(anchor, days).value).value.sunday == WeekBounds(anchor).value.sunday + days
  {
    var w := WeekBounds(anchor).value;
    var b := anchor + days;
    var m := w.monday + days;
    assert m == 7 * (w.monday / 7 + days / 7);
    assert Weekday(m) == 0;
    WeekBoundsUnique(b, m);
  }

  /** Going forward a week never gains a window; going back never loses one. */
  lemma ShiftKeepsWindow(anchor: Day, days: int)
    requires days == 7 || days == -7
    requires ShiftAnchor(anchor, days).Some?
    ensures days == 7 && WeekBounds(anchor + 7).Some? ==> WeekBounds(anchor).Some?
    ensures days == -7 && WeekBounds(anchor).Some? ==> WeekBounds(anchor - 7).Some?
  {
    WeekBoundsDefined(anchor);
    WeekBoundsDefined(anchor + days);
  }

  /** The sort key of a (day, time) slot. */
  function Rank(day: Day, time: Minute): int {
    day * MinutesPerDay + time
  }

  /** Ranks order slots as the pair (day, time) orders them lexicographically,
      which is how Python compares the tuple `(e["day"], e["time"])`. */
  lemma RankOrder(d1: Day, t1: Minute, d2: Day, t2: Minute)
    ensures Rank(d1, t1) < Rank(d2, t2) <==> d1 < d2 || (d1 == d2 && t1 < t2)
    ensures Rank(d1, t1) == Rank(d2, t2) <==> d1 == d2 && t1 == t2
  {
    if d1 < d2 {
      assert Rank(d1, t1) < (d1 + 1) * MinutesPerDay <= Rank(d2, t2);
    } else if d2 < d1 {
      assert Rank(d2, t2) < (d2 + 1) * MinutesPerDay <= Rank(d1, t1);
    }
  }

  // ---- Text forms: date.isoformat() and time.strftime("%H:%M") ----

  function DigitChar(n: int): char
    requires 0 <= n < 10
  {
    "0123456789"[n]
  }

  /** Decimal digits of `n`, without leading zeros. A helper of `ZeroPad`;
      its contract is the length bound `ZeroPad` needs. */
  function Digits(n: nat): (r: string)
    ensures 1 <= |r|
  {
    if n < 10 then [DigitChar(n)] else Digits(n / 10) + [DigitChar(n % 10)]
  }

  /** `k` zero characters, the padding of `ZeroPad`. */
  function Zeros(k: nat): (r: string)
    ensures |r| == k
  {
    if k == 0 then "" else "0" + Zeros(k - 1)
  }

  function Pow10(k: nat): nat {
    if k == 0 then 1 else 10 * Pow10(k - 1)
  }

  /** A number below `10^k` has at most `k` digits. */
  lemma {:induction false} DigitsWithin(n: nat, k: nat)
    ensures 1 <= k && n < Pow10(k) ==> |Digits(n)| <= k
  {
    if 1 <= k && n < Pow10(k) && 10 <= n {
      DigitsWithin(n / 10, k - 1);
    }
  }

  /** Decimal text of `n` left-padded with zeros to `width` (`%0<width>d`):
      at least `width` characters, and exactly `width` when `n` has at most
      `width` digits. */
  function ZeroPad(n: nat, width: nat): (r: string)
    ensures |r| >= width
    ensures 1 <= width && n < Pow10(width) ==> |r| == width
  {
    DigitsWithin(n, width);
    var ds := Digits(n);
    if |ds| < width then Zeros(width - |ds|) + ds else ds
  }

  datatype CivilDate = CivilDate(year: int, month: int, day: int)

  function DaysInMonth(month: int, leap: bool): int {
    if month == 2 then (if leap then 29 else 28)
    else if month == 4 || month == 6 || month == 9 || month == 11 then 30
    else 31
  }

  /** Days of the year before the first of `month` in a common year. */
  function DaysBeforeMonth(month: int): int
    requires 1 <= month <= 12
  {
    if month == 1 then 0 else if month == 2 then 31 else if month == 3 then 59
    else if month == 4 then 90 else if month == 5 then 120 else if month == 6 then 151
    else if month == 7 then 181 else if month == 8 then 212 else if month == 9 then 243
    else if month == 10 then 273 else if month == 11 then 304 else 334
  }

  /** Month and day of month of day `n` (0-based) of a year, as Python's
      `date` finds them: the month is estimated as `(n + 50) >> 5` and moved
      back by one when that month starts after day `n`. */
  function MonthDay(n: int, leap: bool): (r: (int, int))
    requires 0 <= n < 365
    ensures 1 <= r.0 <= 12 && 1 <= r.1 <= DaysInMonth(r.0, leap)
    ensures DaysBeforeMonth(r.0) + (if r.0 > 2 && leap then 1 else 0) + r.1 - 1 == n
  {
    var estimate := (n + 50) / 32;
    assert 32 * estimate <= n + 50 < 32 * estimate + 32;
    var preceding := DaysBeforeMonth(estimate) + (if estimate > 2 && leap then 1 else 0);
    if preceding > n then
      var month := estimate - 1;
      (month, n - (preceding - DaysInMonth(month, leap)) + 1)
    else
      (estimate, n - preceding + 1)
  }

  /** Gregorian year, month and day of a day number, as Python's `date`
      computes them: the 400-, 100-, 4- and 1-year cycles give the year and
      the day of the year. */
  function Civil(d: Day): (c: CivilDate)
    ensures 1 <= c.year && 1 <= c.month <= 12 && 1 <= c.day <= 31
  {
    var n400, r400 := d / 146097, d % 146097;
    var n100, r100 := r400 / 36524, r400 % 36524;
    var n4, r4 := r100 / 1461, r100 % 1461;
    var n1, n := r4 / 365, r4 % 365;
    CycleDate(n400, n100, n4, n1, n)
  }

  /** The date `n` days into year `n1` of 4-year cycle `n4` of century
      `n100` of 400-year cycle `n400`. A count of 4 for `n1` or `n100` is
      the leap day closing a 4- or 400-year cycle, the last day of the
      year before. */
  function CycleDate(n400: nat, n100: nat, n4: nat, n1: nat, n: nat): (c: CivilDate)
    requires n < 365
    ensures 1 <= c.year && 1 <= c.month <= 12 && 1 <= c.day <= 31
  {
    var year := n400 * 400 + n100 * 100 + n4 * 4 + n1 + 1;
    if n1 == 4 || n100 == 4 then
      CivilDate(year - 1, 12, 31)
    else
      var leap := n1 == 3 && (n4 != 24 || n100 == 3);
      var md := MonthDay(n, leap);
      CivilDate(year, md.0, md.1)
  }

  /** Python's `_is_leap`: every fourth year, except centuries not divisible by 400. */
  predicate IsLeap(year: int) {
    year % 4 == 0 && (year % 100 != 0 || year % 400 == 0)
  }

  /** A real calendar date: the day exists in that month of that year. */
  predicate ValidDate(c: CivilDate) {
    1 <= c.year && 1 <= c.month <= 12 && 1 <= c.day <= DaysInMonth(c.month, IsLeap(c.year))
  }

  /** Python's `_days_before_year`: the days of the years before `year`. */
  function DaysBeforeYear(year: int): int
    requires 1 <= year
  {
    var y := year - 1;
    y * 365 + y / 4 - y / 100 + y / 400
  }

  /** `date.toordinal()` minus one: the day number of a date, counted
      independently of `Civil` from the lengths of the years and months. */
  function DayNumber(c: CivilDate): int
    requires 1 <= c.year && 1 <= c.month <= 12
  {
    DaysBeforeYear(c.year) + DaysBeforeMonth(c.month)
      + (if c.month > 2 && IsLeap(c.year) then 1 else 0) + c.day - 1
  }

  /** `Civil` inverts `DayNumber`: every day gets a real date, and counting
      the days up to that date gives the day back. So distinct days have
      distinct dates. */
  lemma CivilRoundTrip(d: Day)
    ensures ValidDate(Civil(d)) && DayNumber(Civil(d)) == d
  {
    var n400, r400 := d / 146097, d % 146097;
    var n100, r100 := r400 / 36524, r400 % 36524;
    var n4, r4 := r100 / 1461, r100 % 1461;
    var n1, n := r4 / 365, r4 % 365;
    assert r400 == 36524 * n100 + 1461 * n4 + 365 * n1 + n;
    assert r100 == 1461 * n4 + 365 * n1 + n < 36524;
    CycleDateNumber(n400, n100, n4, n1, n);
  }

  /** The date of a position in the cycles is a real date whose day number
      is the days the cycles before it hold. */
  lemma CycleDateNumber(n400: nat, n100: nat, n4: nat, n1: nat, n: nat)
    requires n100 <= 4 && n4 <= 24 && n1 <= 4 && n < 365
    requires n1 == 4 ==> n4 < 24 && n == 0
    requires n100 == 4 ==> n4 == 0 && n1 == 0 && n == 0
    ensures var c := CycleDate(n400, n100, n4, n1, n);
      ValidDate(c) && DayNumber(c) == 146097 * n400 + 36524 * n100 + 1461 * n4 + 365 * n1 + n
  {
    if n1 == 4 {
      YearEndNumber(n400, n100, n4);
    } else if n100 == 4 {
      YearEndNumber(n400, 3, 24);
    } else {
      var leap := n1 == 3 && (n4 != 24 || n100 == 3);
      var year := n400 * 400 + n100 * 100 + n4 * 4 + n1 + 1;
      var md := MonthDay(n, leap);
      assert CycleDate(n400, n100, n4, n1, n) == CivilDate(year, md.0, md.1);
      CycleYears(n400, n100, n4, n1);
      LeapCycles(n400, n100, n4, n1);
    }
  }

  /** The last day of the fourth year of a 4-year cycle that closes a leap
      year: it is 12-31 and its day number is a full 4-year cycle on. */
  lemma YearEndNumber(n400: nat, n100: nat, n4: nat)
    requires n100 < 4 && (n4 < 24 || (n4 == 24 && n100 == 3))
    ensures var c := CivilDate(n400 * 400 + n100 * 100 + n4 * 4 + 4, 12, 31);
      ValidDate(c) && DayNumber(c) == 146097 * n400 + 36524 * n100 + 1461 * n4 + 1460
  {
    CycleYears(n400, n100, n4, 3);
    LeapCycles(n400, n100, n4, 3);
  }

  /** The days before a year written in 400-, 100-, 4- and 1-year cycles. */
  lemma CycleYears(n400: nat, n100: nat, n4: nat, n1: nat)
    requires n100 < 4 && n4 < 25 && n1 < 4
    ensures DaysBeforeYear(n400 * 400 + n100 * 100 + n4 * 4 + n1 + 1)
            == 146097 * n400 + 36524 * n100 + 1461 * n4 + 365 * n1
  {
    var y := n400 * 400 + n100 * 100 + n4 * 4 + n1;
    assert y / 4 == n400 * 100 + n100 * 25 + n4;
    assert y / 100 == n400 * 4 + n100;
    assert y / 400 == n400;
  }

  /** The year after those cycles is leap exactly when it closes a 4-year
      cycle that is not a century, or closes a 400-year cycle. */
  lemma LeapCycles(n400: nat, n100: nat, n4: nat, n1: nat)
    requires n100 < 4 && n4 < 25 && n1 < 4
    ensures IsLeap(n400 * 400 + n100 * 100 + n4 * 4 + n1 + 1) <==> n1 == 3 && (n4 != 24 || n100 == 3)
  {
    YearMod4(n400, n100, n4, n1);
    if n1 == 3 {
      YearMod100(n400, n100, n4);
      if n4 == 24 {
        YearMod400(n400, n100);
      }
    }
  }

  /** The year is divisible by 4 exactly when it closes a 4-year cycle. */
  lemma YearMod4(n400: nat, n100: nat, n4: nat, n1: nat)
    requires n1 < 4
    ensures (n400 * 400 + n100 * 100 + n4 * 4 + n1 + 1) % 4 == (n1 + 1) % 4
  {
    var q := n400 * 100 + n100 * 25 + n4;
    assert n400 * 400 + n100 * 100 + n4 * 4 + n1 + 1 == 4 * q + (n1 + 1);
  }

  /** A year closing a 4-year cycle is a century exactly when it also closes
      the 25th such cycle. */
  lemma YearMod100(n400: nat, n100: nat, n4: nat)
    requires n4 < 25
    ensures (n400 * 400 + n100 * 100 + n4 * 4 + 4) % 100 == (n4 * 4 + 4) % 100
  {
    var q := n400 * 4 + n100;
    assert n400 * 400 + n100 * 100 + n4 * 4 + 4 == 100 * q + (n4 * 4 + 4);
  }

  /** A century closing a 100-year cycle is divisible by 400 exactly when
      it also closes the fourth such cycle. */
  lemma YearMod400(n400: nat, n100: nat)
    requires n100 < 4
    ensures (n400 * 400 + n100 * 100 + 24 * 4 + 4) % 400 == (n100 * 100 + 100) % 400
  {
    assert n400 * 400 + n100 * 100 + 24 * 4 + 4 == 400 * n400 + (n100 * 100 + 100);
  }

  /** Every day in Python's range falls in a year of at most four digits. */
  lemma CivilYearBound(d: Day)
    ensures Civil(d).year <= 9999
  {
    var n400, r400 := d / 146097, d % 146097;
    var n100, r100 := r400 / 36524, r400 % 36524;
    var n4, r4 := r100 / 1461, r100 % 1461;
    var n1, n := r4 / 365, r4 % 365;
    assert d == 146097 * n400 + 36524 * n100 + 1461 * n4 + 365 * n1 + n;
    assert n400 <= 24;
    if n400 == 24 {
      assert n100 <= 3;
      if n100 == 3 {
        assert n4 <= 24;
        if n4 == 24 {
          assert n1 <= 2;
        }
      }
    }
  }

  /** `date.isoformat()`: `YYYY-MM-DD`, ten characters with the dashes at
      positions 4 and 7. */
  function IsoDate(d: Day): (r: string)
    ensures |r| == 10 && r[4] == '-' && r[7] == '-'
  {
    CivilYearBound(d);
    var c := Civil(d);
    var year, month, day := ZeroPad(c.year, 4), ZeroPad(c.month, 2), ZeroPad(c.day, 2);
    JoinTriple(year, month, day, "-");
    Join([year, month, day], "-")
  }

  /** `time.strftime("%H:%M")`: five characters with the colon at position 2. */
  function ClockText(t: Minute): (r: string)
    ensures |r| == 5 && r[2] == ':'
  {
    var hours, minutes := ZeroPad(t / 60, 2), ZeroPad(t % 60, 2);
    JoinPair(hours, minutes, ":");
    Join([hours, minutes], ":")
  }

  /** 2024-05-06 is written `2024-05-06`. */
  lemma IsoDateExample()
    ensures IsoDate(739011) == "2024-05-06"
  {
    CivilExample();
    PaddedExamples();
    JoinTriple("2024", "05", "06", "-");
  }

  /** The padded fields of 2024-05-06. */
  lemma PaddedExamples()
    ensures ZeroPad(2024, 4) == "2024" && ZeroPad(5, 2) == "05" && ZeroPad(6, 2) == "06"
  {
    assert Digits(20) == Digits(2) + [DigitChar(0)];
    assert Digits(202) == Digits(20) + [DigitChar(2)];
    assert Digits(2024) == Digits(202) + [DigitChar(4)];
  }

  /** Six in the evening is written `18:00`, five past midnight `00:05`. */
  lemma ClockTextExamples()
    ensures ClockText(1080) == "18:00" && ClockText(5) == "00:05"
  {
    assert ZeroPad(18, 2) == "18" by {
      assert Digits(18) == Digits(1) + [DigitChar(8)];
    }
    assert ZeroPad(0, 2) == "00" && ZeroPad(5, 2) == "05";
    JoinPair("18", "00", ":");
    JoinPair("00", "05", ":");
  }

  /** The day numbering agrees with Python's calendar: 2024-05-06 is a Monday. */
  lemma CivilExample()
    ensures Civil(739011) == CivilDate(2024, 5, 6) && Weekday(739011) == 0
  {
    assert 739011 / 146097 == 5 && 739011 % 146097 == 8526;
    assert 8526 / 36524 == 0 && 8526 % 36524 == 8526;
    assert 8526 / 1461 == 5 && 8526 % 1461 == 1221;
    assert 1221 / 365 == 3 && 1221 % 365 == 126;
    assert (126 + 50) / 32 == 5;
  }

  /** 0001-01-01, day 0, is a Monday. */
  lemma CivilFirstDay()
    ensures Civil(0) == CivilDate(1, 1, 1) && Weekday(0) == 0
  {
    assert 0 / 146097 == 0 && 0 % 146097 == 0;
    assert 0 / 36524 == 0 && 0 % 36524 == 0;
    assert 0 / 1461 == 0 && 0 % 1461 == 0;
    assert 0 / 365 == 0 && 0 % 365 == 0;
    assert MonthDay(0, false) == (1, 1);
  }

  /** 9999-12-31, the last day Python can represent, is a Friday. */
  lemma CivilLastDay()
    ensures Civil(MaxDay) == CivilDate(9999, 12, 31) && Weekday(MaxDay) == 4
  {
    assert MaxDay / 146097 == 24 && MaxDay % 146097 == 145730;
    assert 145730 / 36524 == 3 && 145730 % 36524 == 36158;
    assert 36158 / 1461 == 24 && 36158 % 1461 == 1094;
    assert 1094 / 365 == 2 && 1094 % 365 == 364;
    assert (364 + 50) / 32 == 12;
  }
}
