/** Calendar dates as the routes and pages exchange them: `YYYY-MM-DD` strings, the
    complete extended representation of a calendar date of ISO 8601 (section 5.2.1.1 of
    ISO 8601:2004), in the proleptic Gregorian calendar. */
module Dates {
  import opened Text
  import opened Numbers
  import opened Collections

  /** The shape `YYYY-MM-DD`: ten characters, digits but for the two hyphens. */
  predicate IsIsoDate(s: string) {
    |s| == 10 && AllDigits(s[..4]) && s[4] == '-' && AllDigits(s[5..7]) && s[7] == '-' && AllDigits(s[8..])
  }

  function YearOf(s: string): nat
    requires IsIsoDate(s)
  {
    DigitsValue(s[..4])
  }

  function MonthOf(s: string): nat
    requires IsIsoDate(s)
  {
    DigitsValue(s[5..7])
  }

  function DayOf(s: string): nat
    requires IsIsoDate(s)
  {
    DigitsValue(s[8..])
  }

  predicate LeapYear(y: nat) {
    y % 4 == 0 && (y % 100 != 0 || y % 400 == 0)
  }

  function DaysInMonth(y: nat, m: nat): (n: nat)
    requires 1 <= m <= 12
    ensures 28 <= n <= 31
  {
    if m == 2 then (if LeapYear(y) then 29 else 28)
    else if m == 4 || m == 6 || m == 9 || m == 11 then 30
    else 31
  }

  /** A date that exists: the month is 1 to 12 and the day lies within the month. */
  predicate ValidDate(s: string) {
    IsIsoDate(s) && 1 <= MonthOf(s) <= 12 && 1 <= DayOf(s) <= DaysInMonth(YearOf(s), MonthOf(s))
  }

  /** A date a SQL Server `date` column holds when it is sent as `YYYY-MM-DD`: a date that
      exists, from year 0001 on (the type runs from 0001-01-01 to 9999-12-31). */
  predicate SqlDate(s: string) {
    ValidDate(s) && 1 <= YearOf(s)
  }

  function YearLength(y: nat): (n: nat)
    ensures n == DaysBeforeMonth(y, 12) + DaysInMonth(y, 12)
  {
    if LeapYear(y) then 366 else 365
  }

  /** The days of the months of year `y` before month `m`. */
  function DaysBeforeMonth(y: nat, m: nat): (n: nat)
    requires 1 <= m <= 12
  {
    var leap := if LeapYear(y) && m > 2 then 1 else 0;
    leap + (if m == 1 then 0 else if m == 2 then 31 else if m == 3 then 59 else if m == 4 then 90
    else if m == 5 then 120 else if m == 6 then 151 else if m == 7 then 181 else if m == 8 then 212
    else if m == 9 then 243 else if m == 10 then 273 else if m == 11 then 304 else 334)
  }

  /** Each month starts where the one before it ends. */
  lemma NextMonth(y: nat, m: nat)
    requires 1 <= m < 12
    ensures DaysBeforeMonth(y, m + 1) == DaysBeforeMonth(y, m) + DaysInMonth(y, m)
  {
  }

  /** The days of the years before year `y`, counted from 1 January of year 0. */
  function DaysBeforeYear(y: nat): nat {
    if y == 0 then 0 else DaysBeforeYear(y - 1) + YearLength(y - 1)
  }

  /** No year has more than 366 days. */
  lemma {:induction false} DaysBeforeYearBound(y: nat)
    ensures DaysBeforeYear(y) <= 366 * y
  {
    if y > 0 {
      DaysBeforeYearBound(y - 1);
    }
  }

  /** The day as a count of days since 1 January of year 0: what `new Date(s)` holds, up to
      a constant number of milliseconds per day. */
  function DayNumber(s: string): nat
    requires ValidDate(s)
  {
    DaysBeforeYear(YearOf(s)) + DaysBeforeMonth(YearOf(s), MonthOf(s)) + DayOf(s) - 1
  }

  /** A four-digit year keeps every day number below 366 · 10^4. */
  lemma DayNumberBound(s: string)
    requires ValidDate(s)
    ensures DayNumber(s) < 3660000
  {
    DigitsValueBound(s[..4]);
    assert Pow10(4) == 10000;
    DaysBeforeYearBound(YearOf(s));
  }

  /** Chronological order on (year, month, day). */
  predicate Before(a: string, b: string)
    requires IsIsoDate(a) && IsIsoDate(b)
  {
    YearOf(a) < YearOf(b) ||
    (YearOf(a) == YearOf(b) && (MonthOf(a) < MonthOf(b) || (MonthOf(a) == MonthOf(b) && DayOf(a) < DayOf(b))))
  }

  lemma {:induction false} DaysBeforeMonthMono(y: nat, m: nat, n: nat)
    requires 1 <= m <= n <= 12
    ensures DaysBeforeMonth(y, m) + (if m < n then DaysInMonth(y, m) else 0) <= DaysBeforeMonth(y, n)
    decreases n - m
  {
    if m < n {
      NextMonth(y, m);
      DaysBeforeMonthMono(y, m + 1, n);
    }
  }

  lemma {:induction false} DaysBeforeYearMono(y: nat, z: nat)
    requires y <= z
    ensures DaysBeforeYear(y) <= DaysBeforeYear(z)
    decreases z - y
  {
    if y < z {
      DaysBeforeYearMono(y, z - 1);
    }
  }

  /** A day lies before the end of its year. */
  lemma InYear(s: string)
    requires ValidDate(s)
    ensures DaysBeforeMonth(YearOf(s), MonthOf(s)) + DayOf(s) - 1 < YearLength(YearOf(s))
  {
    DaysBeforeMonthMono(YearOf(s), MonthOf(s), 12);
  }

  /** A day lies before the start of every later month. */
  lemma InMonth(s: string, n: nat)
    requires ValidDate(s) && MonthOf(s) < n <= 12
    ensures DaysBeforeMonth(YearOf(s), MonthOf(s)) + DayOf(s) - 1 < DaysBeforeMonth(YearOf(s), n)
  {
    DaysBeforeMonthMono(YearOf(s), MonthOf(s), n);
  }

  lemma BeforeDayNumber(a: string, b: string)
    requires ValidDate(a) && ValidDate(b) && Before(a, b)
    ensures DayNumber(a) < DayNumber(b)
  {
    if YearOf(a) < YearOf(b) {
      InYear(a);
      DaysBeforeYearMono(YearOf(a) + 1, YearOf(b));
    } else if MonthOf(a) < MonthOf(b) {
      InMonth(a, MonthOf(b));
    }
  }

  /** The day number orders dates chronologically: `fin < inicio` on two `Date`s of such
      strings is `Before(fin, inicio)`. */
  lemma DayNumberOrder(a: string, b: string)
    requires ValidDate(a) && ValidDate(b)
    ensures DayNumber(a) < DayNumber(b) <==> Before(a, b)
  {
    if Before(a, b) {
      BeforeDayNumber(a, b);
    } else if Before(b, a) {
      BeforeDayNumber(b, a);
    }
  }

  // ---------------------------------------------------------------------------------
  // String order
  // ---------------------------------------------------------------------------------

  /** The value of a digit string read from its first digit. */
  lemma {:induction false} DigitsValueFront(s: string)
    requires AllDigits(s) && s != []
    ensures DigitsValue(s) == DigitValue(s[0]) * Pow10(|s| - 1) + DigitsValue(s[1..])
  {
    if |s| > 1 {
      var p := s[..|s| - 1];
      var t := s[1..];
      DigitsValueFront(p);
      assert p[1..] == t[..|t| - 1];
      assert p[0] == s[0];
      var d0, dl := DigitValue(s[0]), DigitValue(s[|s| - 1]);
      var q, r := Pow10(|s| - 2), DigitsValue(p[1..]);
      assert DigitsValue(t) == r * 10 + dl;
      calc {
        DigitsValue(s);
        DigitsValue(p) * 10 + dl;
        (d0 * q + r) * 10 + dl;
        { Regroup(d0, q, r, dl); }
        d0 * (10 * q) + (r * 10 + dl);
        d0 * Pow10(|s| - 1) + DigitsValue(t);
      }
    } else {
      assert s[1..] == [];
    }
  }

  lemma Regroup(d: int, q: int, r: int, l: int)
    ensures (d * q + r) * 10 + l == d * (10 * q) + (r * 10 + l)
  {
    calc {
      (d * q + r) * 10 + l;
      (d * q) * 10 + r * 10 + l;
      d * (q * 10) + r * 10 + l;
    }
  }

  lemma {:induction false} DigitsValueBound(s: string)
    requires AllDigits(s)
    ensures DigitsValue(s) < Pow10(|s|)
  {
    if s != [] {
      DigitsValueBound(s[..|s| - 1]);
    }
  }

  /** A larger leading digit outweighs whatever follows it. */
  lemma {:induction false} LeadingDigit(dx: nat, dy: nat, p: nat, rx: nat, ry: nat)
    requires dx < dy && rx < p && ry < p
    ensures dx * p + rx < dy * p + ry
    decreases dy - dx
  {
    MulStep(dy - 1, p);
    if dx + 1 < dy {
      LeadingDigit(dx, dy - 1, p, rx, ry);
    }
  }

  lemma MulStep(a: nat, p: nat)
    ensures (a + 1) * p == a * p + p
  {
  }

  /** Two digit strings of one length compare by their first digits, then by the rest. */
  lemma FrontOrder(x: string, y: string)
    requires |x| == |y| && x != [] && AllDigits(x) && AllDigits(y)
    ensures DigitsValue(x) <= DigitsValue(y) <==>
      DigitValue(x[0]) < DigitValue(y[0]) || (x[0] == y[0] && DigitsValue(x[1..]) <= DigitsValue(y[1..]))
    ensures DigitsValue(x) == DigitsValue(y) <==> x[0] == y[0] && DigitsValue(x[1..]) == DigitsValue(y[1..])
  {
    var p := Pow10(|x| - 1);
    var dx, dy := DigitValue(x[0]), DigitValue(y[0]);
    var rx, ry := DigitsValue(x[1..]), DigitsValue(y[1..]);
    DigitsValueFront(x);
    DigitsValueFront(y);
    DigitsValueBound(x[1..]);
    DigitsValueBound(y[1..]);
    DigitOrder(x[0], y[0]);
    if dx < dy {
      LeadingDigit(dx, dy, p, rx, ry);
    } else if dy < dx {
      LeadingDigit(dy, dx, p, ry, rx);
    }
  }

  /** Digit strings of one length compare as strings as their values compare. */
  lemma {:induction false} FixedDigitsOrder(x: string, y: string)
    requires |x| == |y| && AllDigits(x) && AllDigits(y)
    ensures LexLe(x, y) <==> DigitsValue(x) <= DigitsValue(y)
    ensures x == y <==> DigitsValue(x) == DigitsValue(y)
  {
    if x != [] {
      FrontOrder(x, y);
      FixedDigitsOrder(x[1..], y[1..]);
      DigitOrder(x[0], y[0]);
      if x[0] == y[0] {
        assert x == [x[0]] + x[1..] && y == [y[0]] + y[1..];
      }
    }
  }

  lemma DigitOrder(c: char, d: char)
    requires IsDigit(c) && IsDigit(d)
    ensures c < d <==> DigitValue(c) < DigitValue(d)
    ensures c == d <==> DigitValue(c) == DigitValue(d)
  {
  }

  /** Comparing concatenations of equal-length prefixes compares the prefixes first. */
  lemma {:induction false} LexLeConcat(p: string, q: string, p': string, q': string)
    requires |p| == |p'|
    ensures LexLe(p + q, p' + q') <==> (p != p' && LexLe(p, p')) || (p == p' && LexLe(q, q'))
  {
    if p == [] {
      assert p + q == q && p' + q' == q';
    } else {
      assert (p + q)[0] == p[0] && (p' + q')[0] == p'[0];
      assert (p + q)[1..] == p[1..] + q && (p' + q')[1..] == p'[1..] + q';
      LexLeConcat(p[1..], q, p'[1..], q');
      if p[0] == p'[0] {
        assert p == [p[0]] + p[1..] && p' == [p'[0]] + p'[1..];
        assert p[1..] == p'[1..] ==> p == p';
      }
    }
  }

  lemma Parts(s: string)
    requires IsIsoDate(s)
    ensures s == s[..4] + ([s[4]] + (s[5..7] + ([s[7]] + s[8..])))
  {
  }

  /** For dates in this form, string order is chronological order: `desde <= fecha`
      compares the days themselves. */
  lemma StringOrderIsChronological(a: string, b: string)
    requires IsIsoDate(a) && IsIsoDate(b)
    ensures LexLe(a, b) <==> !Before(b, a)
  {
    Parts(a);
    Parts(b);
    FixedDigitsOrder(a[..4], b[..4]);
    FixedDigitsOrder(a[5..7], b[5..7]);
    FixedDigitsOrder(a[8..], b[8..]);
    var ra := [a[7]] + a[8..];
    var rb := [b[7]] + b[8..];
    LexLeConcat([a[7]], a[8..], [b[7]], b[8..]);
    LexLeConcat(a[5..7], ra, b[5..7], rb);
    LexLeConcat([a[4]], a[5..7] + ra, [b[4]], b[5..7] + rb);
    LexLeConcat(a[..4], [a[4]] + (a[5..7] + ra), b[..4], [b[4]] + (b[5..7] + rb));
  }
}
