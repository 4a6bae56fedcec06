/** Calendar dates as the backend stores them: "YYYY-MM-DD" strings.

    A date string is modelled by its three zero-padded digit fields, so a
    `Date` value is exactly a string of that shape. Comparing two such
    strings character by character (what the SQL filters on
    `DailyNote.date` and the goal columns do) is comparing `Key`, the string
    read as the number YYYYMMDD. Python's `datetime.strptime(s, '%Y-%m-%d')`
    succeeds on such a string exactly when it is `Valid`, and day arithmetic
    (`timedelta`, `weekday()`, subtraction of dates) goes through the
    proleptic Gregorian ordinal that Python's `date.toordinal()` computes,
    within Python's date range 0001-01-01 .. 9999-12-31. */
module Dates {
  import opened Common

  type Year = y: int | 0 <= y <= 9999
  type Field = n: int | 0 <= n <= 99

  datatype Date = Date(year: Year, month: Field, day: Field)

  const MinDate := Date(1, 1, 1)
  const MaxDate := Date(9999, 12, 31)

  predicate IsLeap(y: int) {
    y % 4 == 0 && (y % 100 != 0 || y % 400 == 0)
  }

  function DaysInYear(y: int): int {
    if IsLeap(y) then 366 else 365
  }

  function DaysInMonth(y: int, m: int): int {
    if m == 2 then (if IsLeap(y) then 29 else 28)
    else if m == 4 || m == 6 || m == 9 || m == 11 then 30
    else 31
  }

  /** The string parses as a calendar date. */
  predicate Valid(d: Date) {
    1 <= d.year && 1 <= d.month <= 12 && 1 <= d.day <= DaysInMonth(d.year, d.month)
  }

  /** The date string read as the decimal number YYYYMMDD. */
  function Key(d: Date): int {
    d.year * 10000 + d.month * 100 + d.day
  }

  /** `a < b` on the date strings. */
  predicate Before(a: Date, b: Date) {
    Key(a) < Key(b)
  }

  /** `a <= b` on the date strings. */
  predicate NotAfter(a: Date, b: Date) {
    Key(a) <= Key(b)
  }

  /** Days in the years before year `y` (Python's `_days_before_year`). */
  function DaysBeforeYear(y: int): int {
    var p := y - 1;
    365 * p + p / 4 - p / 100 + p / 400
  }

  /** Days in the months of year `y` before month `m`, for 1 <= m <= 13. */
  function DaysBeforeMonth(y: int, m: int): int {
    var leap := if m > 2 && IsLeap(y) then 1 else 0;
    leap + (
      if m <= 1 then 0 else if m == 2 then 31 else if m == 3 then 59
      else if m == 4 then 90 else if m == 5 then 120 else if m == 6 then 151
      else if m == 7 then 181 else if m == 8 then 212 else if m == 9 then 243
      else if m == 10 then 273 else if m == 11 then 304 else if m == 12 then 334
      else 365)
  }

  /** Day number with 0001-01-01 as day 1 (Python's `date.toordinal()`). */
  function Ordinal(d: Date): int {
    DaysBeforeYear(d.year) + DaysBeforeMonth(d.year, d.month) + d.day
  }

  /** Monday is 0 and Sunday is 6 (Python's `date.weekday()`). */
  function Weekday(d: Date): int {
    (Ordinal(d) + 6) % 7
  }

  /** `(b - a).days` for two parsed dates. */
  function DaysBetween(a: Date, b: Date): int {
    Ordinal(b) - Ordinal(a)
  }

  /** `d + timedelta(days=1)`; `None` past 9999-12-31 (Python's
      `OverflowError`). */
  function NextDay(d: Date): (r: Option<Date>)
    requires Valid(d)
    ensures r.Some? ==> Valid(r.value)
  {
    if d.day < DaysInMonth(d.year, d.month) then Some(Date(d.year, d.month, d.day + 1))
    else if d.month < 12 then Some(Date(d.year, d.month + 1, 1))
    else if d.year < 9999 then Some(Date(d.year + 1, 1, 1))
    else None
  }

  /** `d - timedelta(days=1)`; `None` before 0001-01-01. */
  function PrevDay(d: Date): (r: Option<Date>)
    requires Valid(d)
    ensures r.Some? ==> Valid(r.value)
  {
    if d.day > 1 then Some(Date(d.year, d.month, d.day - 1))
    else if d.month > 1 then Some(Date(d.year, d.month - 1, DaysInMonth(d.year, d.month - 1)))
    else if d.year > 1 then Some(Date(d.year - 1, 12, 31))
    else None
  }

  /** `d + timedelta(days=n)`; `None` when the result leaves Python's date
      range. */
  function AddDays(d: Date, n: int): (r: Option<Date>)
    requires Valid(d)
    ensures r.Some? ==> Valid(r.value)
    decreases if n < 0 then -n else n
  {
    if n == 0 then Some(d)
    else if n > 0 then
      (match NextDay(d) case None => None case Some(e) => AddDays(e, n - 1))
    else
      (match PrevDay(d) case None => None case Some(e) => AddDays(e, n + 1))
  }

  // ---------------------------------------------------------------------
  // The calendar arithmetic

  lemma QuotientStep4(p: int)
    ensures (p + 1) / 4 - p / 4 == if (p + 1) % 4 == 0 then 1 else 0
  {
  }

  lemma QuotientStep100(p: int)
    ensures (p + 1) / 100 - p / 100 == if (p + 1) % 100 == 0 then 1 else 0
  {
  }

  lemma QuotientStep400(p: int)
    ensures (p + 1) / 400 - p / 400 == if (p + 1) % 400 == 0 then 1 else 0
  {
  }

  /** One more year adds that year's length: the leap rule and the closed
      form of `DaysBeforeYear` agree. */
  lemma YearStep(y: int)
    ensures DaysBeforeYear(y + 1) == DaysBeforeYear(y) + DaysInYear(y)
  {
    var p := y - 1;
    var a4, a100, a400 := (p + 1) / 4 - p / 4, (p + 1) / 100 - p / 100, (p + 1) / 400 - p / 400;
    QuotientStep4(p);
    QuotientStep100(p);
    QuotientStep400(p);
    assert DaysBeforeYear(y + 1) - DaysBeforeYear(y) == 365 + a4 - a100 + a400;
    assert DaysInYear(y) == 365 + (if y % 4 == 0 then 1 else 0) - (if y % 100 == 0 then 1 else 0)
      + (if y % 400 == 0 then 1 else 0) by {
      if y % 400 == 0 { assert y % 100 == 0 && y % 4 == 0; }
      else if y % 100 == 0 { assert y % 4 == 0; }
    }
  }

  lemma {:induction false} YearsIncrease(y1: int, y2: int)
    requires y1 <= y2
    ensures DaysBeforeYear(y1) + 365 * (y2 - y1) <= DaysBeforeYear(y2)
    decreases y2 - y1
  {
    if y1 < y2 {
      YearStep(y1);
      YearsIncrease(y1 + 1, y2);
    }
  }

  lemma MonthStep(y: int, m: int)
    requires 1 <= m <= 12
    ensures DaysBeforeMonth(y, m + 1) == DaysBeforeMonth(y, m) + DaysInMonth(y, m)
  {
  }

  /** A valid date lies inside its own year and its own month. */
  lemma OrdinalWithinYear(d: Date)
    requires Valid(d)
    ensures DaysBeforeYear(d.year) < Ordinal(d) <= DaysBeforeYear(d.year + 1)
    ensures DaysBeforeMonth(d.year, d.month) < Ordinal(d) - DaysBeforeYear(d.year) <= DaysBeforeMonth(d.year, d.month + 1)
  {
    YearStep(d.year);
    MonthStep(d.year, d.month);
  }

  lemma MonthsIncrease(y: int, m1: int, m2: int)
    requires 1 <= m1 <= m2 <= 13
    ensures DaysBeforeMonth(y, m1) <= DaysBeforeMonth(y, m2)
  {
  }

  /** Field-by-field order of (year, month, day). */
  predicate FieldsBefore(a: Date, b: Date) {
    a.year < b.year || (a.year == b.year && (a.month < b.month || (a.month == b.month && a.day < b.day)))
  }

  /** Distinct date strings have distinct keys. */
  lemma KeyInjective(a: Date, b: Date)
    requires Key(a) == Key(b)
    ensures a == b
  {
  }

  lemma KeyIsFieldOrder(a: Date, b: Date)
    requires Valid(a) && Valid(b)
    ensures Before(a, b) <==> FieldsBefore(a, b)
    ensures Key(a) == Key(b) <==> a == b
  {
  }

  lemma {:induction false} FieldsBeforeIsEarlier(a: Date, b: Date)
    requires Valid(a) && Valid(b) && FieldsBefore(a, b)
    ensures Ordinal(a) < Ordinal(b)
  {
    OrdinalWithinYear(a);
    OrdinalWithinYear(b);
    if a.year < b.year {
      YearsIncrease(a.year + 1, b.year);
    } else if a.month < b.month {
      MonthsIncrease(a.year, a.month + 1, b.month);
    }
  }

  /** On valid dates the string order is the order of the days. */
  lemma {:induction false} BeforeIsEarlier(a: Date, b: Date)
    requires Valid(a) && Valid(b)
    ensures Before(a, b) <==> Ordinal(a) < Ordinal(b)
    ensures NotAfter(a, b) <==> Ordinal(a) <= Ordinal(b)
    ensures a == b <==> Ordinal(a) == Ordinal(b)
  {
    KeyIsFieldOrder(a, b);
    KeyIsFieldOrder(b, a);
    if FieldsBefore(a, b) {
      FieldsBeforeIsEarlier(a, b);
    } else if FieldsBefore(b, a) {
      FieldsBeforeIsEarlier(b, a);
    }
  }

  /** Every valid date lies between the first and the last day Python
      represents. */
  lemma {:induction false} OrdinalRange(d: Date)
    requires Valid(d)
    ensures 1 <= Ordinal(d) <= Ordinal(MaxDate)
    ensures Ordinal(d) == 1 <==> d == MinDate
    ensures Ordinal(d) == Ordinal(MaxDate) <==> d == MaxDate
  {
    BeforeIsEarlier(MinDate, d);
    BeforeIsEarlier(d, MaxDate);
  }

  lemma NextDayIsNext(d: Date)
    requires Valid(d)
    ensures NextDay(d).Some? <==> d != MaxDate
    ensures NextDay(d).Some? ==> Ordinal(NextDay(d).value) == Ordinal(d) + 1
  {
    MonthStep(d.year, d.month);
    if d.day == DaysInMonth(d.year, d.month) && d.month == 12 {
      YearStep(d.year);
    }
  }

  lemma PrevDayIsPrevious(d: Date)
    requires Valid(d)
    ensures PrevDay(d).Some? <==> d != MinDate
    ensures PrevDay(d).Some? ==> Ordinal(PrevDay(d).value) == Ordinal(d) - 1
  {
    if d.day == 1 {
      if d.month > 1 {
        MonthStep(d.year, d.month - 1);
      } else if d.year > 1 {
        YearStep(d.year - 1);
        MonthStep(d.year - 1, 12);
      }
    }
  }

  /** Adding `n` days moves the ordinal by exactly `n`, and fails exactly
      when the result would leave Python's date range. */
  lemma AddDaysMoves(d: Date, n: int)
    requires Valid(d)
    ensures AddDays(d, n).Some? <==> 1 <= Ordinal(d) + n <= Ordinal(MaxDate)
    ensures AddDays(d, n).Some? ==> Ordinal(AddDays(d, n).value) == Ordinal(d) + n
  {
    OrdinalRange(d);
    if n >= 0 {
      AddDaysForward(d, n);
    } else {
      AddDaysBackward(d, -n as nat);
    }
  }

  /** `AddDaysMoves` for a step forward. */
  lemma {:induction false} AddDaysForward(d: Date, n: nat)
    requires Valid(d)
    ensures AddDays(d, n).Some? <==> Ordinal(d) + n <= Ordinal(MaxDate)
    ensures AddDays(d, n).Some? ==> Ordinal(AddDays(d, n).value) == Ordinal(d) + n
    decreases n
  {
    OrdinalRange(d);
    if n > 0 {
      NextDayIsNext(d);
      if NextDay(d).Some? {
        var e := NextDay(d).value;
        assert AddDays(d, n) == AddDays(e, n - 1);
        AddDaysForward(e, n - 1);
      }
    }
  }

  /** `AddDaysMoves` for a step back. */
  lemma {:induction false} AddDaysBackward(d: Date, n: nat)
    requires Valid(d)
    ensures AddDays(d, -(n as int)).Some? <==> 1 <= Ordinal(d) - n
    ensures AddDays(d, -(n as int)).Some? ==> Ordinal(AddDays(d, -(n as int)).value) == Ordinal(d) - n
    decreases n
  {
    OrdinalRange(d);
    if n > 0 {
      PrevDayIsPrevious(d);
      if PrevDay(d).Some? {
        var e := PrevDay(d).value;
        assert AddDays(d, -(n as int)) == AddDays(e, -((n - 1) as int));
        AddDaysBackward(e, n - 1);
      }
    }
  }

  /** Two valid dates with the same ordinal are the same date. */
  lemma OrdinalInjective(a: Date, b: Date)
    requires Valid(a) && Valid(b) && Ordinal(a) == Ordinal(b)
    ensures a == b
  {
    BeforeIsEarlier(a, b);
  }

  /** Example: 2025-11-07 is a Friday (weekday 4). */
  lemma FridayExample()
    ensures Weekday(Date(2025, 11, 7)) == 4
  {
  }

  // ---------------------------------------------------------------------
  // The string form

  function DigitChar(n: int): char
    requires 0 <= n <= 9
  {
    (48 + n) as char
  }

  /** The last `width` decimal digits of `n`, zero-padded. */
  function Digits(n: nat, width: nat): (s: string)
    ensures |s| == width
    ensures forall i :: 0 <= i < |s| ==> '0' <= s[i] <= '9'
  {
    if width == 0 then ""
    else Digits(n / 10, width - 1) + [DigitChar(n % 10)]
  }

  /** The "YYYY-MM-DD" text of a date. */
  function Format(d: Date): (s: string)
    ensures |s| == 10 && s[4] == '-' && s[7] == '-'
  {
    Digits(d.year, 4) + "-" + Digits(d.month, 2) + "-" + Digits(d.day, 2)
  }

  /** Python's `str(n)` for a natural number: its digits, unpadded. */
  function NatStr(n: nat): (s: string)
    ensures |s| >= 1
  {
    if n < 10 then [DigitChar(n)] else NatStr(n / 10) + [DigitChar(n % 10)]
  }

  /** Python's `f"{n}"` for any integer. */
  function PyStr(n: int): string {
    if n < 0 then "-" + NatStr(-n) else NatStr(n)
  }

  /** Python's `f"{n:02d}"`: zero-padded to two characters, a sign included. */
  function Pad2(n: int): string {
    if 0 <= n < 10 then "0" + PyStr(n) else PyStr(n)
  }

  /** A number with exactly `w` digits prints as its `w`-digit form. */
  lemma {:induction false} NatStrIsDigits(n: nat, w: nat)
    requires 1 <= w && Pow10(w - 1) <= n < Pow10(w)
    ensures NatStr(n) == Digits(n, w)
  {
    if n >= 10 {
      assert w >= 2;
      NatStrIsDigits(n / 10, w - 1);
    } else {
      assert w == 1;
    }
  }

  lemma Pad2IsDigits(n: int)
    requires 0 <= n <= 99
    ensures Pad2(n) == Digits(n, 2)
  {
    if n >= 10 {
      NatStrIsDigits(n, 2);
    }
  }

  /** `f"{year}-{month:02d}-{day:02d}"` is the date's text when the year has
      four digits. */
  lemma PrintedIsFormat(year: int, month: int, day: int)
    requires 1000 <= year <= 9999 && 0 <= month <= 99 && 0 <= day <= 99
    ensures PyStr(year) + "-" + Pad2(month) + "-" + Pad2(day) == Format(Date(year, month, day))
  {
    assert Pow10(3) == 1000 && Pow10(4) == 10000;
    NatStrIsDigits(year, 4);
    Pad2IsDigits(month);
    Pad2IsDigits(day);
  }

  // ---------------------------------------------------------------------
  // Comparing the strings

  /** Python's `a < b` on strings: lexicographic by code point, a proper
      prefix first. */
  predicate StrLess(a: string, b: string) {
    if b == [] then false
    else if a == [] then true
    else if a[0] != b[0] then a[0] < b[0]
    else StrLess(a[1..], b[1..])
  }

  /** Comparing two strings that start with equal-length parts compares the
      first parts, then the rest. */
  lemma {:induction false} StrLessConcat(p1: string, s1: string, p2: string, s2: string)
    requires |p1| == |p2|
    ensures StrLess(p1 + s1, p2 + s2) <==> StrLess(p1, p2) || (p1 == p2 && StrLess(s1, s2))
  {
    if p1 != [] {
      assert (p1 + s1)[0] == p1[0] && (p2 + s2)[0] == p2[0];
      assert (p1 + s1)[1..] == p1[1..] + s1 && (p2 + s2)[1..] == p2[1..] + s2;
      StrLessConcat(p1[1..], s1, p2[1..], s2);
      if p1[0] == p2[0] {
        assert p1 == p2 <==> p1[1..] == p2[1..] by {
          assert p1 == [p1[0]] + p1[1..] && p2 == [p2[0]] + p2[1..];
        }
      }
    } else {
      assert p1 + s1 == s1 && p2 + s2 == s2;
    }
  }

  function Pow10(w: nat): (r: nat)
    ensures r >= 1
  {
    if w == 0 then 1 else 10 * Pow10(w - 1)
  }

  /** Zero-padded digit strings of one width compare like their numbers. */
  lemma {:induction false} DigitsOrder(n: nat, m: nat, w: nat)
    requires n < Pow10(w) && m < Pow10(w)
    ensures StrLess(Digits(n, w), Digits(m, w)) <==> n < m
    ensures Digits(n, w) == Digits(m, w) <==> n == m
  {
    if w > 0 {
      DigitsOrder(n / 10, m / 10, w - 1);
      var a, b := [DigitChar(n % 10)], [DigitChar(m % 10)];
      StrLessConcat(Digits(n / 10, w - 1), a, Digits(m / 10, w - 1), b);
      assert StrLess(a, b) <==> n % 10 < m % 10 by {
        assert a[1..] == [] && b[1..] == [];
      }
      if Digits(n, w) == Digits(m, w) {
        assert Digits(n / 10, w - 1) == Digits(n, w)[..w - 1] == Digits(m, w)[..w - 1] == Digits(m / 10, w - 1);
        assert Digits(n, w)[w - 1] == Digits(m, w)[w - 1];
      }
    }
  }

  /** Strings of two dash-separated parts, the first of equal lengths,
      compare part by part. */
  lemma DashOrder(p1: string, s1: string, p2: string, s2: string)
    requires |p1| == |p2|
    ensures StrLess(p1 + "-" + s1, p2 + "-" + s2) <==> StrLess(p1, p2) || (p1 == p2 && StrLess(s1, s2))
    ensures p1 + "-" + s1 == p2 + "-" + s2 <==> p1 == p2 && s1 == s2
  {
    assert p1 + "-" + s1 == p1 + ("-" + s1) && p2 + "-" + s2 == p2 + ("-" + s2);
    StrLessConcat(p1, "-" + s1, p2, "-" + s2);
    StrLessConcat("-", s1, "-", s2);
    assert !StrLess("-", "-");
    if p1 + "-" + s1 == p2 + "-" + s2 {
      assert p1 == (p1 + "-" + s1)[..|p1|] && p2 == (p2 + "-" + s2)[..|p2|];
      assert s1 == (p1 + "-" + s1)[|p1| + 1..] && s2 == (p2 + "-" + s2)[|p2| + 1..];
    }
  }

  /** Strings of three dash-separated parts, the first two of equal
      lengths, compare part by part. */
  lemma ThreePartOrder(y1: string, m1: string, d1: string, y2: string, m2: string, d2: string)
    requires |y1| == |y2| && |m1| == |m2|
    ensures StrLess(y1 + "-" + m1 + "-" + d1, y2 + "-" + m2 + "-" + d2) <==>
      StrLess(y1, y2) || (y1 == y2 && (StrLess(m1, m2) || (m1 == m2 && StrLess(d1, d2))))
    ensures y1 + "-" + m1 + "-" + d1 == y2 + "-" + m2 + "-" + d2 <==> y1 == y2 && m1 == m2 && d1 == d2
  {
    assert y1 + "-" + m1 + "-" + d1 == y1 + "-" + (m1 + "-" + d1);
    assert y2 + "-" + m2 + "-" + d2 == y2 + "-" + (m2 + "-" + d2);
    DashOrder(y1, m1 + "-" + d1, y2, m2 + "-" + d2);
    DashOrder(m1, d1, m2, d2);
  }

  /** The "YYYY-MM-DD" strings compare as their keys: `Before` is string
      order. */
  lemma FormatOrder(a: Date, b: Date)
    ensures StrLess(Format(a), Format(b)) <==> Before(a, b)
    ensures Format(a) == Format(b) <==> a == b
  {
    assert Pow10(2) == 100 && Pow10(4) == 10000;
    DigitsOrder(a.year, b.year, 4);
    DigitsOrder(a.month, b.month, 2);
    DigitsOrder(a.day, b.day, 2);
    ThreePartOrder(Digits(a.year, 4), Digits(a.month, 2), Digits(a.day, 2),
                   Digits(b.year, 4), Digits(b.month, 2), Digits(b.day, 2));
  }
}
