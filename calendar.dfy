/** Civil dates of the proleptic Gregorian calendar for the naive UTC
    timestamps of the model (whole seconds since 1970-01-01 00:00:00), and
    the three renderings the admin routes use: `str(datetime)`,
    `strftime("%Y-%m")` and `strftime("%Y%m%d")`. */
module Calendar {
  import opened Common

  predicate IsLeap(y: int) { (y % 4 == 0 && y % 100 != 0) || y % 400 == 0 }

  function DaysInYear(y: int): (n: int)
    ensures n == 365 || n == 366
  {
    if IsLeap(y) then 366 else 365
  }

  function DaysInMonth(y: int, m: int): (n: int)
    requires 1 <= m <= 12
    ensures 28 <= n <= 31
  {
    if m == 2 then (if IsLeap(y) then 29 else 28)
    else if m == 4 || m == 6 || m == 9 || m == 11 then 30
    else 31
  }

  /** Days of year `y` before the first of month `m` (m == 13: the whole year). */
  function DaysBeforeMonth(y: int, m: int): (n: int)
    requires 1 <= m <= 13
    ensures m == 1 ==> n == 0
    ensures m == 13 ==> n == DaysInYear(y)
  {
    var table := [0, 31, 59, 90, 120, 151, 181, 212, 243, 273, 304, 334, 365];
    table[m - 1] + (if m > 2 && IsLeap(y) then 1 else 0)
  }

  lemma DaysBeforeMonthNext(y: int, m: int)
    requires 1 <= m <= 12
    ensures DaysBeforeMonth(y, m + 1) == DaysBeforeMonth(y, m) + DaysInMonth(y, m)
  {
  }

  lemma {:induction false} DaysBeforeMonthMono(y: int, a: int, b: int)
    requires 1 <= a <= b <= 13
    ensures DaysBeforeMonth(y, a) + 28 * (b - a) <= DaysBeforeMonth(y, b)
    decreases b - a
  {
    if a < b {
      DaysBeforeMonthMono(y, a + 1, b);
      DaysBeforeMonthNext(y, a);
    }
  }

  /** Days from 1970-01-01 to the first of January of year `y`. */
  function YearStart(y: int): int
    decreases if y >= 1970 then y - 1970 else 1970 - y
  {
    if y == 1970 then 0
    else if y > 1970 then YearStart(y - 1) + DaysInYear(y - 1)
    else YearStart(y + 1) - DaysInYear(y)
  }

  lemma YearStartNext(y: int)
    ensures YearStart(y + 1) == YearStart(y) + DaysInYear(y)
  {
  }

  lemma {:induction false} YearStartMono(a: int, b: int)
    requires a <= b
    ensures YearStart(a) + 365 * (b - a) <= YearStart(b)
    decreases b - a
  {
    if a < b {
      YearStartMono(a + 1, b);
      YearStartNext(a);
    }
  }

  /** At most one year contains a given day. */
  lemma YearUnique(y: int, z: int, days: int)
    requires YearStart(y) <= days < YearStart(y) + DaysInYear(y)
    requires YearStart(z) <= days < YearStart(z) + DaysInYear(z)
    ensures y == z
  {
    if y < z {
      YearStartMono(y + 1, z);
      YearStartNext(y);
    } else if z < y {
      YearStartMono(z + 1, y);
      YearStartNext(z);
    }
  }

  /** The month of year `y` containing day `doy` (0-based), searching down from `m`. */
  function MonthFrom(y: int, doy: int, m: int): (r: int)
    requires 1 <= m <= 12 && 0 <= doy < DaysBeforeMonth(y, m + 1)
    ensures 1 <= r <= m && DaysBeforeMonth(y, r) <= doy < DaysBeforeMonth(y, r + 1)
  {
    if DaysBeforeMonth(y, m) <= doy || m == 1 then m else MonthFrom(y, doy, m - 1)
  }

  lemma MonthUnique(y: int, a: int, b: int, doy: int)
    requires 1 <= a <= 12 && 1 <= b <= 12
    requires DaysBeforeMonth(y, a) <= doy < DaysBeforeMonth(y, a + 1)
    requires DaysBeforeMonth(y, b) <= doy < DaysBeforeMonth(y, b + 1)
    ensures a == b
  {
    if a < b { DaysBeforeMonthMono(y, a + 1, b); }
    if b < a { DaysBeforeMonthMono(y, b + 1, a); }
  }

  datatype Date = Date(year: int, month: int, day: int)

  predicate ValidDate(d: Date) {
    1 <= d.month <= 12 && 1 <= d.day <= DaysInMonth(d.year, d.month)
  }

  /** Days from 1970-01-01 to a date. */
  function DaysOfDate(d: Date): int
    requires ValidDate(d)
  {
    YearStart(d.year) + DaysBeforeMonth(d.year, d.month) + d.day - 1
  }

  /** The date `offset` days into year `y` (walking to other years when
      `offset` falls outside it). */
  function DateFrom(y: int, offset: int): (d: Date)
    ensures ValidDate(d) && DaysOfDate(d) == YearStart(y) + offset
    decreases if offset < 0 then 1 else 0, if offset >= 0 then offset else -offset
  {
    if 0 <= offset < DaysInYear(y) then
      var m := MonthFrom(y, offset, 12);
      Date(y, m, offset - DaysBeforeMonth(y, m) + 1)
    else if offset >= DaysInYear(y) then
      YearStartNext(y);
      DateFrom(y + 1, offset - DaysInYear(y))
    else
      YearStartNext(y - 1);
      DateFrom(y - 1, offset + DaysInYear(y - 1))
  }

  /** The date `days` days after 1970-01-01 (before it when negative). */
  function DateOf(days: int): (d: Date)
    ensures ValidDate(d) && DaysOfDate(d) == days
  {
    DateFrom(1970, days)
  }

  /** Every valid date is reached by exactly its own day count. */
  lemma DateRoundTrip(d: Date)
    requires ValidDate(d)
    ensures DateOf(DaysOfDate(d)) == d
  {
    var n := DaysOfDate(d);
    var e := DateOf(n);
    DatePlacement(d);
    DatePlacement(e);
    YearUnique(d.year, e.year, n);
    MonthUnique(d.year, d.month, e.month, n - YearStart(d.year));
  }

  /** A valid date falls inside its year and inside its month. */
  lemma DatePlacement(d: Date)
    requires ValidDate(d)
    ensures YearStart(d.year) <= DaysOfDate(d) < YearStart(d.year) + DaysInYear(d.year)
    ensures DaysBeforeMonth(d.year, d.month) <= DaysOfDate(d) - YearStart(d.year) < DaysBeforeMonth(d.year, d.month + 1)
  {
    DaysBeforeMonthNext(d.year, d.month);
    DaysBeforeMonthMono(d.year, d.month + 1, 13);
  }

  // ---------------------------------------------------------------------
  // Text
  // ---------------------------------------------------------------------

  /** `s` left-padded with zeros to at least `w` characters. */
  function PadTo(s: String, w: nat): (r: String)
    requires AllDigits(s)
    ensures AllDigits(r) && DigitsValue(r) == DigitsValue(s)
    ensures |r| == if |s| >= w then |s| else w
    decreases w - |s|
  {
    if |s| >= w then s
    else
      ZeroDigitValue(s);
      PadTo(['0'] + s, w)
  }

  /** A leading zero does not change a value. */
  lemma {:induction false} ZeroDigitValue(s: String)
    requires AllDigits(s)
    ensures AllDigits(['0'] + s) && DigitsValue(['0'] + s) == DigitsValue(s)
    decreases |s|
  {
    if s != [] {
      ZeroDigitValue(s[..|s| - 1]);
      assert (['0'] + s)[..|s|] == ['0'] + s[..|s| - 1];
    }
  }

  /** `"%0wd" % n` for n >= 0; a negative year prints as 0 (Python's
      datetime has no year before 1). */
  function Padded(n: int, w: nat): (s: String)
    ensures AllDigits(s) && |s| >= w
    ensures n >= 0 ==> DigitsValue(s) == n
  {
    DigitsValueOfNat(if n >= 0 then n else 0);
    PadTo(NatToString(if n >= 0 then n else 0), w)
  }

  /** The date and the seconds into that day of a timestamp. */
  function DayOf(t: Time): (d: Date)
    ensures ValidDate(d)
  {
    DateOf(t / SecondsPerDay)
  }

  /** `str(datetime)`: "YYYY-MM-DD HH:MM:SS" (no fraction: the model's
      timestamps are whole seconds). */
  function DateTimeText(t: Time): (s: String)
    ensures |s| >= 19
  {
    var d := DayOf(t);
    var secs := t % SecondsPerDay;
    Padded(d.year, 4) + "-" + Padded(d.month, 2) + "-" + Padded(d.day, 2) + " " +
    Padded(secs / 3600, 2) + ":" + Padded(secs % 3600 / 60, 2) + ":" + Padded(secs % 60, 2)
  }

  /** `strftime("%Y-%m")` */
  function MonthLabel(t: Time): (s: String)
    ensures |s| >= 7
  {
    var d := DayOf(t);
    Padded(d.year, 4) + "-" + Padded(d.month, 2)
  }

  /** `strftime("%Y%m%d")` */
  function DayStamp(t: Time): (s: String)
    ensures |s| >= 8 && AllDigits(s)
  {
    var d := DayOf(t);
    Padded(d.year, 4) + Padded(d.month, 2) + Padded(d.day, 2)
  }

  /** Two timestamps of the same calendar month carry the same label, and a
      label determines the month of a year 0..9999 timestamp. */
  lemma {:induction false} MonthLabelSameMonth(t: Time, u: Time)
    requires 0 <= DayOf(t).year <= 9999 && 0 <= DayOf(u).year <= 9999
    ensures MonthLabel(t) == MonthLabel(u) <==>
              DayOf(t).year == DayOf(u).year && DayOf(t).month == DayOf(u).month
  {
    var d, e := DayOf(t), DayOf(u);
    if MonthLabel(t) == MonthLabel(u) {
      PaddedFixed(d.year, 4);
      PaddedFixed(e.year, 4);
      PaddedFixed(d.month, 2);
      PaddedFixed(e.month, 2);
      var a, b := Padded(d.year, 4), Padded(e.year, 4);
      assert MonthLabel(t)[..4] == a;
      assert MonthLabel(u)[..4] == b;
      assert MonthLabel(t)[5..] == Padded(d.month, 2);
      assert MonthLabel(u)[5..] == Padded(e.month, 2);
    }
  }

  /** A value below 10^w prints in exactly w digits. */
  lemma PaddedFixed(n: int, w: nat)
    requires w == 2 || w == 4
    requires 0 <= n && (w == 2 ==> n < 100) && (w == 4 ==> n < 10000)
    ensures |Padded(n, w)| == w
  {
    var digits := NatToString(n);
    if w == 2 {
      NatToStringShort(n, 2);
    } else {
      NatToStringShort(n, 4);
    }
  }

  lemma {:induction false} NatToStringShort(n: nat, w: nat)
    requires 1 <= w <= 4
    requires (w == 1 ==> n < 10) && (w == 2 ==> n < 100) && (w == 3 ==> n < 1000) && (w == 4 ==> n < 10000)
    ensures |NatToString(n)| <= w
  {
    if n >= 10 {
      NatToStringShort(n / 10, w - 1);
    }
  }
}
