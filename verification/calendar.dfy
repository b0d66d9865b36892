/** Proleptic Gregorian calendar dates and their `YYYY-MM-DD` form (the
    full-date of section 5.6 of RFC 3339), as the planner's week navigation
    uses them: parse the week start, move it by whole days, print it back. */
module Calendar {
  import opened Types

  datatype Date = Date(year: int, month: int, day: int)

  predicate IsLeap(y: int) {
    y % 4 == 0 && (y % 100 != 0 || y % 400 == 0)
  }

  function DaysInMonth(y: int, m: int): int {
    if m == 2 then (if IsLeap(y) then 29 else 28)
    else if m == 4 || m == 6 || m == 9 || m == 11 then 30
    else 31
  }

  /** A real calendar day. */
  predicate Valid(d: Date) {
    1 <= d.month <= 12 && 1 <= d.day <= DaysInMonth(d.year, d.month)
  }

  /** The following day. */
  function NextDay(d: Date): (r: Date)
    requires Valid(d)
    ensures Valid(r)
    ensures r.year == d.year || r.year == d.year + 1
  {
    if d.day < DaysInMonth(d.year, d.month) then d.(day := d.day + 1)
    else if d.month < 12 then Date(d.year, d.month + 1, 1)
    else Date(d.year + 1, 1, 1)
  }

  /** The preceding day. */
  function PrevDay(d: Date): (r: Date)
    requires Valid(d)
    ensures Valid(r)
    ensures r.year == d.year || r.year == d.year - 1
  {
    if d.day > 1 then d.(day := d.day - 1)
    else if d.month > 1 then Date(d.year, d.month - 1, DaysInMonth(d.year, d.month - 1))
    else Date(d.year - 1, 12, 31)
  }

  /** The two steps undo each other. */
  lemma PrevNext(d: Date)
    requires Valid(d)
    ensures PrevDay(NextDay(d)) == d
  {
  }

  lemma NextPrev(d: Date)
    requires Valid(d)
    ensures NextDay(PrevDay(d)) == d
  {
  }

  /** `n` single-day steps, forward for positive `n` and back for negative:
      what `setDate(getDate() + n)` does to a calendar date. */
  function AddDays(d: Date, n: int): (r: Date)
    requires Valid(d)
    ensures Valid(r)
    decreases if n >= 0 then n else -n
  {
    if n == 0 then d
    else if n > 0 then AddDays(NextDay(d), n - 1)
    else AddDays(PrevDay(d), n + 1)
  }

  /** The last of the steps can be taken last. */
  lemma {:induction false} AddDaysLast(d: Date, n: int)
    requires Valid(d)
    ensures n > 0 ==> AddDays(d, n) == NextDay(AddDays(d, n - 1))
    ensures n < 0 ==> AddDays(d, n) == PrevDay(AddDays(d, n + 1))
    decreases if n >= 0 then n else -n
  {
    if n > 1 {
      AddDaysLast(NextDay(d), n - 1);
    } else if n < -1 {
      AddDaysLast(PrevDay(d), n + 1);
    }
  }

  /** Moving `n` days and then `-n` days returns to the start. */
  lemma {:induction false} AddDaysInverse(d: Date, n: int)
    requires Valid(d)
    ensures AddDays(AddDays(d, n), -n) == d
    decreases if n >= 0 then n else -n
  {
    if n > 0 {
      var y := AddDays(d, n - 1);
      AddDaysLast(d, n);
      PrevNext(y);
      assert AddDays(NextDay(y), -n) == AddDays(y, -(n - 1));
      AddDaysInverse(d, n - 1);
    } else if n < 0 {
      var y := AddDays(d, n + 1);
      AddDaysLast(d, n);
      NextPrev(y);
      assert AddDays(PrevDay(y), -n) == AddDays(y, -(n + 1));
      AddDaysInverse(d, n + 1);
    }
  }

  /** The first of the steps back. */
  lemma AddDaysBack(d: Date, n: int)
    requires Valid(d) && n < 0
    ensures AddDays(d, n) == AddDays(PrevDay(d), n + 1)
  {
  }

  // ---- Day numbers: an independent measure of distance between dates ----

  function YearLength(y: int): int {
    if IsLeap(y) then 366 else 365
  }

  /** Days from 0000-01-01 to the first day of year `y`. */
  function DaysBeforeYear(y: nat): nat {
    if y == 0 then 0 else DaysBeforeYear(y - 1) + YearLength(y - 1)
  }

  /** The number of leap years among 0 .. y - 1 (year 0 is one). */
  function LeapYearsBefore(y: nat): nat {
    (y + 3) / 4 - (y + 99) / 100 + (y + 399) / 400
  }

  /** Counting multiples of `k`: passing `x` adds one exactly when `k` divides it. */
  lemma MultipleStep(x: nat, k: nat)
    requires k == 4 || k == 100 || k == 400
    ensures (x + k) / k - (x + k - 1) / k == (if x % k == 0 then 1 else 0)
  {
    if k == 4 {
      assert (x + 4) / 4 == x / 4 + 1;
      assert (x + 3) / 4 == x / 4 + (if x % 4 == 0 then 0 else 1);
    } else if k == 100 {
      assert (x + 100) / 100 == x / 100 + 1;
      assert (x + 99) / 100 == x / 100 + (if x % 100 == 0 then 0 else 1);
    } else {
      assert (x + 400) / 400 == x / 400 + 1;
      assert (x + 399) / 400 == x / 400 + (if x % 400 == 0 then 0 else 1);
    }
  }

  /** A multiple of 400 is a multiple of 100, and that of 4. */
  lemma MultiplesNest(x: nat)
    ensures x % 400 == 0 ==> x % 100 == 0
    ensures x % 100 == 0 ==> x % 4 == 0
  {
    if x % 400 == 0 {
      var q := x / 400;
      assert x == 100 * (4 * q);
    }
    if x % 100 == 0 {
      var q := x / 100;
      assert x == 4 * (25 * q);
    }
  }

  /** One more year adds one leap year exactly when that year is leap. */
  lemma LeapYearsStep(x: nat)
    ensures LeapYearsBefore(x + 1) == LeapYearsBefore(x) + (if IsLeap(x) then 1 else 0)
  {
    MultipleStep(x, 4);
    MultipleStep(x, 100);
    MultipleStep(x, 400);
    MultiplesNest(x);
  }

  /** The day count before a year in closed form: 365 for each earlier year
      plus one for each earlier leap year. */
  lemma {:induction false} DaysBeforeYearClosed(y: nat)
    ensures DaysBeforeYear(y) == 365 * y + LeapYearsBefore(y)
  {
    if y > 0 {
      DaysBeforeYearClosed(y - 1);
      LeapYearsStep(y - 1);
    }
  }

  /** Days from the first of the year to the first of month `m`. */
  function DaysBeforeMonth(y: int, m: int): (r: nat)
    decreases m
  {
    if m <= 1 then 0 else DaysBeforeMonth(y, m - 1) + DaysInMonth(y, m - 1)
  }

  /** The number of days since 0000-01-01. */
  function DayNumber(d: Date): nat
    requires Valid(d) && d.year >= 0
  {
    DaysBeforeYear(d.year) + DaysBeforeMonth(d.year, d.month) + d.day - 1
  }

  /** December 31 is the last day of the year's length. */
  lemma YearEnd(y: int)
    ensures DaysBeforeMonth(y, 12) + 31 == YearLength(y)
  {
    assert DaysBeforeMonth(y, 3) == 59 + (if IsLeap(y) then 1 else 0);
    assert DaysBeforeMonth(y, 6) == 151 + (if IsLeap(y) then 1 else 0);
    assert DaysBeforeMonth(y, 9) == 243 + (if IsLeap(y) then 1 else 0);
  }

  /** The next day is one day number later. */
  lemma NextDayNumber(d: Date)
    requires Valid(d) && d.year >= 0
    ensures NextDay(d).year >= 0
    ensures DayNumber(NextDay(d)) == DayNumber(d) + 1
  {
    var y, m := d.year, d.month;
    if d.day < DaysInMonth(y, m) {
      assert NextDay(d) == Date(y, m, d.day + 1);
    } else if m < 12 {
      assert NextDay(d) == Date(y, m + 1, 1);
      assert DaysBeforeMonth(y, m + 1) == DaysBeforeMonth(y, m) + DaysInMonth(y, m);
    } else {
      assert NextDay(d) == Date(y + 1, 1, 1);
      YearEnd(y);
      assert DaysBeforeYear(y + 1) == DaysBeforeYear(y) + YearLength(y);
    }
  }

  /** Only 0000-01-01 has day number 0. */
  lemma DayNumberZero(d: Date)
    requires Valid(d) && d.year >= 0
    ensures DayNumber(d) == 0 <==> d == Date(0, 1, 1)
  {
  }

  /** Stepping back never raises the year. */
  lemma {:induction false} AddDaysBackYear(d: Date, n: int)
    requires Valid(d) && n <= 0
    ensures AddDays(d, n).year <= d.year
    decreases -n
  {
    if n < 0 {
      AddDaysBackYear(PrevDay(d), n + 1);
    }
  }

  /** The previous day is one day number earlier, except before 0000-01-01. */
  lemma PrevDayNumber(d: Date)
    requires Valid(d) && d.year >= 0 && DayNumber(d) > 0
    ensures PrevDay(d).year >= 0
    ensures DayNumber(PrevDay(d)) == DayNumber(d) - 1
  {
    DayNumberZero(d);
    var p := PrevDay(d);
    assert p.year >= 0;
    NextPrev(d);
    NextDayNumber(p);
  }

  /** Forward steps add their count to the day number. */
  lemma {:induction false} AddDaysForward(d: Date, n: int)
    requires Valid(d) && d.year >= 0 && n >= 0
    ensures AddDays(d, n).year >= 0 && DayNumber(AddDays(d, n)) == DayNumber(d) + n
    decreases n
  {
    if n > 0 {
      AddDaysForward(d, n - 1);
      var r := AddDays(d, n - 1);
      NextDayNumber(r);
      AddDaysLast(d, n);
    }
  }

  /** Any step back from 0000-01-01 leaves year 0 behind. */
  lemma BackFromOrigin(d: Date, n: int)
    requires Valid(d) && d.year >= 0 && DayNumber(d) == 0 && n > 0
    ensures AddDays(d, -n).year < 0
  {
    DayNumberZero(d);
    var p := PrevDay(d);
    assert p.year == -1;
    AddDaysBack(d, -n);
    AddDaysBackYear(p, -(n - 1));
  }

  /** Backward steps subtract their count from the day number while it stays
      non-negative, and leave year 0 behind once it would not. */
  lemma {:induction false} AddDaysBackward(d: Date, n: int)
    requires Valid(d) && d.year >= 0 && n >= 0
    ensures n <= DayNumber(d) ==> AddDays(d, -n).year >= 0 && DayNumber(AddDays(d, -n)) == DayNumber(d) - n
    ensures n > DayNumber(d) ==> AddDays(d, -n).year < 0
    decreases n
  {
    if n > 0 {
      if DayNumber(d) == 0 {
        BackFromOrigin(d, n);
      } else {
        var p := PrevDay(d);
        AddDaysBack(d, -n);
        PrevDayNumber(d);
        AddDaysBackward(p, n - 1);
      }
    }
  }

  /** Moving `n` days changes the day number by exactly `n`, and the result
      stays at or after 0000-01-01 exactly when that number is not negative. */
  lemma AddDaysNumber(d: Date, n: int)
    requires Valid(d) && d.year >= 0
    ensures AddDays(d, n).year >= 0 <==> DayNumber(d) + n >= 0
    ensures DayNumber(d) + n >= 0 ==> DayNumber(AddDays(d, n)) == DayNumber(d) + n
  {
    if n >= 0 {
      AddDaysForward(d, n);
    } else {
      var k := -n;
      AddDaysBackward(d, k);
      assert AddDays(d, n) == AddDays(d, -k);
    }
  }

  // ---- The YYYY-MM-DD text form ----

  predicate IsDigit(c: char) { '0' <= c <= '9' }

  function Digit(n: int): (c: char)
    requires 0 <= n <= 9
    ensures IsDigit(c)
  {
    ('0' as int + n) as char
  }

  function DigitValue(c: char): int
    requires IsDigit(c)
  {
    c as int - '0' as int
  }

  /** Zero-padded two- and four-digit numbers. */
  function Pad2(n: int): string
    requires 0 <= n <= 99
  {
    [Digit(n / 10), Digit(n % 10)]
  }

  function Pad4(n: int): string
    requires 0 <= n <= 9999
  {
    Pad2(n / 100) + Pad2(n % 100)
  }

  predicate InRange(d: Date) {
    Valid(d) && 0 <= d.year <= 9999
  }

  /** The shape of a full-date: four digits, a dash, two digits, a dash, two digits. */
  predicate Shaped(s: string) {
    |s| == 10 && s[4] == '-' && s[7] == '-'
    && forall i :: 0 <= i < 10 && i != 4 && i != 7 ==> IsDigit(s[i])
  }

  /** The date part of `toISOString()` for a year in 0..9999. */
  function Format(d: Date): (s: string)
    requires InRange(d)
    ensures Shaped(s)
  {
    Pad4(d.year) + "-" + Pad2(d.month) + "-" + Pad2(d.day)
  }

  /** The value of two or four decimal digits. */
  function Value2(hi: char, lo: char): int
    requires IsDigit(hi) && IsDigit(lo)
  {
    10 * DigitValue(hi) + DigitValue(lo)
  }

  function Value4(s: string): int
    requires |s| >= 4 && IsDigit(s[0]) && IsDigit(s[1]) && IsDigit(s[2]) && IsDigit(s[3])
  {
    100 * Value2(s[0], s[1]) + Value2(s[2], s[3])
  }

  /** A `YYYY-MM-DD` string naming a real day, or None. */
  function Parse(s: string): (r: Option<Date>)
    ensures r.Some? ==> InRange(r.value)
    ensures r.Some? ==> Shaped(s)
  {
    if Shaped(s) then
      var d := Date(Value4(s), Value2(s[5], s[6]), Value2(s[8], s[9]));
      if Valid(d) then Some(d) else None
    else None
  }

  /** Splitting a number below 100 into digits and reading them back. */
  lemma Pad2Value(n: int)
    requires 0 <= n <= 99
    ensures Value2(Pad2(n)[0], Pad2(n)[1]) == n
  {
  }

  lemma ValuePad2(hi: char, lo: char)
    requires IsDigit(hi) && IsDigit(lo)
    ensures Pad2(Value2(hi, lo)) == [hi, lo]
  {
    var n := Value2(hi, lo);
    assert n / 10 == DigitValue(hi) && n % 10 == DigitValue(lo);
  }

  /** Printing and reading back gives the same date. */
  lemma ParseFormat(d: Date)
    requires InRange(d)
    ensures Parse(Format(d)) == Some(d)
  {
    var s := Format(d);
    var y := d.year;
    Pad2Value(y / 100);
    Pad2Value(y % 100);
    Pad2Value(d.month);
    Pad2Value(d.day);
    assert s[..4] == Pad2(y / 100) + Pad2(y % 100);
    assert Value4(s) == 100 * (y / 100) + y % 100;
    assert s[5..7] == Pad2(d.month) && s[8..] == Pad2(d.day);
  }

  /** A string that parses is exactly the printed form of its date. */
  lemma FormatParse(s: string)
    requires Parse(s).Some?
    ensures Format(Parse(s).value) == s
  {
    var d := Parse(s).value;
    var hi, lo := Value2(s[0], s[1]), Value2(s[2], s[3]);
    assert d.year == 100 * hi + lo;
    assert d.year / 100 == hi && d.year % 100 == lo;
    ValuePad2(s[0], s[1]);
    ValuePad2(s[2], s[3]);
    ValuePad2(s[5], s[6]);
    ValuePad2(s[8], s[9]);
    assert s == [s[0], s[1]] + [s[2], s[3]] + "-" + [s[5], s[6]] + "-" + [s[8], s[9]];
  }
}
