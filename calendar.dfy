/**
 * Calendar dates as the report page uses them: `new Date('YYYY-MM-DD')`
 * (a day, compared by its time value), `toISOString().split('T')[0]`
 * (back to 'YYYY-MM-DD'), and `setDate(getDate() + 1)` (the next day).
 * Time values are counted in whole days; times of day and time zones are
 * not modelled.
 */
module Calendar {
  import opened Wrappers
  import opened JsText
  import opened Seqs

  datatype Date = Date(year: nat, month: nat, day: nat)

  /** Gregorian leap years. */
  predicate IsLeap(y: int) {
    y % 4 == 0 && (y % 100 != 0 || y % 400 == 0)
  }

  function MonthLength(y: int, m: int): (n: int)
    ensures 28 <= n <= 31
    ensures m == 2 ==> (n == 29 <==> IsLeap(y))
  {
    if m == 2 then (if IsLeap(y) then 29 else 28)
    else if m == 4 || m == 6 || m == 9 || m == 11 then 30
    else 31
  }

  function YearLength(y: int): int {
    if IsLeap(y) then 366 else 365
  }

  /** A real calendar day from year 0 on. */
  predicate ValidDate(d: Date) {
    0 <= d.year && 1 <= d.month <= 12 && 1 <= d.day <= MonthLength(d.year, d.month)
  }

  /** Days in the years before `y`, counted from the start of year 0. */
  function DaysBeforeYear(y: nat): nat {
    if y == 0 then 0 else DaysBeforeYear(y - 1) + YearLength(y - 1)
  }

  /** Days in the months of year `y` before month `m`. */
  function DaysBeforeMonth(y: int, m: nat): nat
    requires m <= 13
  {
    if m <= 1 then 0 else DaysBeforeMonth(y, m - 1) + MonthLength(y, m - 1)
  }

  /** The twelve months make up the year. */
  lemma WholeYear(y: int)
    ensures DaysBeforeMonth(y, 13) == YearLength(y)
  {
    var feb := MonthLength(y, 2);
    assert DaysBeforeMonth(y, 2) == 31;
    assert DaysBeforeMonth(y, 3) == 31 + feb;
    assert DaysBeforeMonth(y, 4) == 62 + feb;
    assert DaysBeforeMonth(y, 5) == 92 + feb;
    assert DaysBeforeMonth(y, 6) == 123 + feb;
    assert DaysBeforeMonth(y, 7) == 153 + feb;
    assert DaysBeforeMonth(y, 8) == 184 + feb;
    assert DaysBeforeMonth(y, 9) == 215 + feb;
    assert DaysBeforeMonth(y, 10) == 245 + feb;
    assert DaysBeforeMonth(y, 11) == 276 + feb;
    assert DaysBeforeMonth(y, 12) == 306 + feb;
    assert DaysBeforeMonth(y, 13) == 337 + feb;
  }

  /** The day's time value, in days since 0000-01-01. */
  function DayNumber(d: Date): nat
    requires ValidDate(d)
  {
    DaysBeforeYear(d.year) + DaysBeforeMonth(d.year, d.month) + d.day - 1
  }

  /** `setDate(getDate() + 1)`: the following day, rolling over months and years. */
  function NextDay(d: Date): Date {
    if d.day < MonthLength(d.year, d.month) then Date(d.year, d.month, d.day + 1)
    else if d.month < 12 then Date(d.year, d.month + 1, 1)
    else Date(d.year + 1, 1, 1)
  }

  /** The next day is a real day, one time value later. */
  lemma NextDayFacts(d: Date)
    requires ValidDate(d)
    ensures ValidDate(NextDay(d)) && DayNumber(NextDay(d)) == DayNumber(d) + 1
  {
    if d.day == MonthLength(d.year, d.month) && d.month == 12 {
      WholeYear(d.year);
    }
  }

  // ---------------------------------------------------------------------------
  // 'YYYY-MM-DD' text
  // ---------------------------------------------------------------------------

  /** The date part of `toISOString()`: four-digit year, two-digit month and day (years 0 to 9999). */
  function IsoText(d: Date): string {
    [DigitChar(d.year / 1000 % 10), DigitChar(d.year / 100 % 10), DigitChar(d.year / 10 % 10), DigitChar(d.year % 10), '-',
     DigitChar(d.month / 10 % 10), DigitChar(d.month % 10), '-',
     DigitChar(d.day / 10 % 10), DigitChar(d.day % 10)]
  }

  /** A day's text is its year, month and day fields joined by '-'. */
  lemma IsoTextFields(d: Date)
    ensures IsoText(d) == Fields(FourDigitText(d.year), TwoDigitText(d.month), TwoDigitText(d.day))
  {
  }

  /** The last four decimal digits of `n`, zeros in front. */
  function FourDigitText(n: nat): string {
    [DigitChar(n / 1000 % 10), DigitChar(n / 100 % 10), DigitChar(n / 10 % 10), DigitChar(n % 10)]
  }

  /** The last two decimal digits of `n`, a zero in front. */
  function TwoDigitText(n: nat): string {
    [DigitChar(n / 10 % 10), DigitChar(n % 10)]
  }

  /** Year, month and day fields separated by '-'. */
  function Fields(y: string, m: string, d: string): string {
    y + ("-" + (m + ("-" + d)))
  }

  /** The digits of a day without its hyphens. */
  function DayDigits(d: Date): string {
    FourDigitText(d.year) + (TwoDigitText(d.month) + TwoDigitText(d.day))
  }

  /** Removing the hyphens from three hyphen-free fields joins them. */
  lemma RemoveHyphens(y: string, m: string, d: string)
    requires '-' !in y && '-' !in m && '-' !in d
    ensures RemoveAll(Fields(y, m, d), '-') == y + (m + d)
  {
    RemoveAllAppend(y, "-" + (m + ("-" + d)), '-');
    RemoveAllAppend("-", m + ("-" + d), '-');
    RemoveAllAppend(m, "-" + d, '-');
    RemoveAllAppend("-", d, '-');
    RemoveAllAbsent(y, '-');
    RemoveAllAbsent(m, '-');
    RemoveAllAbsent(d, '-');
    assert RemoveAll("-", '-') == [];
  }

  /** A day's text without its hyphens is its digits. */
  lemma DayDigitsOfText(d: Date)
    ensures RemoveAll(IsoText(d), '-') == DayDigits(d)
  {
    IsoTextFields(d);
    RemoveHyphens(FourDigitText(d.year), TwoDigitText(d.month), TwoDigitText(d.day));
  }

  /** The number `YYYYMMDD` of a day. */
  function DateNumber(d: Date): nat {
    (d.year * 100 + d.month) * 100 + d.day
  }

  /** The day's digits spell year, month and day as one number. */
  lemma DayDigitsValue(d: Date)
    requires ValidDate(d) && d.year <= 9999
    ensures AllDigits(DayDigits(d))
    ensures DigitsValue(DayDigits(d)) == DateNumber(d)
  {
    var y, m, dd := FourDigitText(d.year), TwoDigitText(d.month), TwoDigitText(d.day);
    FourDigitValue(d.year);
    TwoDigitValue(d.month);
    TwoDigitValue(d.day);
    assert Pow10(2) == 100;
    AppendValue(m, dd, d.month, d.day, 100);
    assert Pow10(4) == 10000;
    AppendValue(y, m + dd, d.year, d.month * 100 + d.day, 10000);
  }

  /** The value of a run of two digits. */
  lemma {:induction false} TwoDigitsValue(a: char, b: char)
    requires IsDigit(a) && IsDigit(b)
    ensures AllDigits([a, b]) && DigitsValue([a, b]) == 10 * DigitValue(a) + DigitValue(b)
  {
    assert [a, b][..1] == [a];
    assert [a][..0] == [];
    assert DigitsValue([a]) == DigitValue(a);
    assert DigitsValue([a, b]) == DigitsValue([a]) * 10 + DigitValue(b);
  }

  /** The value of a run of four digits. */
  lemma {:induction false} FourDigitsValue(a: char, b: char, c: char, e: char)
    requires IsDigit(a) && IsDigit(b) && IsDigit(c) && IsDigit(e)
    ensures AllDigits([a, b, c, e])
    ensures DigitsValue([a, b, c, e]) == 1000 * DigitValue(a) + 100 * DigitValue(b) + 10 * DigitValue(c) + DigitValue(e)
  {
    assert [a, b, c, e][..3] == [a, b, c];
    assert [a, b, c][..2] == [a, b];
    TwoDigitsValue(a, b);
  }

  /** A year up to 9999 is written as four digits denoting it. */
  lemma FourDigitValue(y: nat)
    requires y <= 9999
    ensures AllDigits(FourDigitText(y)) && DigitsValue(FourDigitText(y)) == y
  {
    FourDigitsValue(DigitChar(y / 1000 % 10), DigitChar(y / 100 % 10), DigitChar(y / 10 % 10), DigitChar(y % 10));
    DigitValueOfChar(y / 1000 % 10);
    DigitValueOfChar(y / 100 % 10);
    DigitValueOfChar(y / 10 % 10);
    DigitValueOfChar(y % 10);
    FourDigits(y);
  }

  /** A month or day is written as two digits denoting it. */
  lemma TwoDigitValue(n: nat)
    requires n < 100
    ensures AllDigits(TwoDigitText(n)) && DigitsValue(TwoDigitText(n)) == n
  {
    TwoDigitsValue(DigitChar(n / 10 % 10), DigitChar(n % 10));
    DigitValueOfChar(n / 10 % 10);
    DigitValueOfChar(n % 10);
  }

  /** Four digits, '-', two digits, '-', two digits. */
  predicate IsoShape(s: string) {
    |s| == 10
    && IsDigit(s[0]) && IsDigit(s[1]) && IsDigit(s[2]) && IsDigit(s[3]) && s[4] == '-'
    && IsDigit(s[5]) && IsDigit(s[6]) && s[7] == '-' && IsDigit(s[8]) && IsDigit(s[9])
  }

  /** `new Date(s)` for a date-only string: 'YYYY-MM-DD' naming a real day, or an Invalid Date. */
  function ParseIso(s: string): (r: Option<Date>)
    ensures r.Some? ==> ValidDate(r.value) && r.value.year <= 9999
  {
    if IsoShape(s) then
      var d := Date(1000 * DigitValue(s[0]) + 100 * DigitValue(s[1]) + 10 * DigitValue(s[2]) + DigitValue(s[3]),
                    10 * DigitValue(s[5]) + DigitValue(s[6]),
                    10 * DigitValue(s[8]) + DigitValue(s[9]));
      if ValidDate(d) then Some(d) else None
    else None
  }

  /** A number below 10000 is the sum of its four decimal digits, scaled. */
  lemma FourDigits(y: nat)
    requires y <= 9999
    ensures 1000 * (y / 1000 % 10) + 100 * (y / 100 % 10) + 10 * (y / 10 % 10) + y % 10 == y
  {
    var r := y % 1000;
    var r2 := r % 100;
    DigitsOfFour(y / 1000, r / 100, r2 / 10, r2 % 10);
  }

  /** A number below 100 is the sum of its two decimal digits, scaled. */
  lemma TwoDigits(n: nat)
    requires n < 100
    ensures 10 * (n / 10 % 10) + n % 10 == n
  {
  }

  /** The four decimal digits of the number they spell. */
  lemma DigitsOfFour(a: nat, b: nat, c: nat, e: nat)
    requires a < 10 && b < 10 && c < 10 && e < 10
    ensures var y := 1000 * a + 100 * b + 10 * c + e;
      y / 1000 % 10 == a && y / 100 % 10 == b && y / 10 % 10 == c && y % 10 == e
  {
    var y := 1000 * a + 100 * b + 10 * c + e;
    DivByConstant(y, 1000, a, 100 * b + 10 * c + e);
    DivByConstant(a, 10, 0, a);
    DivByConstant(y, 100, 10 * a + b, 10 * c + e);
    DivByConstant(10 * a + b, 10, a, b);
    DivByConstant(y, 10, 100 * a + 10 * b + c, e);
    DivByConstant(100 * a + 10 * b + c, 10, 10 * a + b, c);
  }

  /** Division by 10, 100 or 1000 is determined by quotient and remainder. */
  lemma DivByConstant(y: nat, k: nat, q: nat, r: nat)
    requires k == 10 || k == 100 || k == 1000
    requires r < k && y == q * k + r
    ensures y / k == q && y % k == r
  {
    if k == 10 {
      assert y == 10 * q + r;
    } else if k == 100 {
      assert y == 100 * q + r;
    } else {
      assert y == 1000 * q + r;
    }
  }

  lemma DigitCharOfValue(c: char)
    requires IsDigit(c)
    ensures DigitChar(DigitValue(c)) == c
  {
  }

  /** The text written with the digits of a day reads as that day. */
  lemma ParseDigits(d: Date, y0: nat, y1: nat, y2: nat, y3: nat, m0: nat, m1: nat, d0: nat, d1: nat)
    requires y0 < 10 && y1 < 10 && y2 < 10 && y3 < 10 && m0 < 10 && m1 < 10 && d0 < 10 && d1 < 10
    requires ValidDate(d)
    requires d.year == 1000 * y0 + 100 * y1 + 10 * y2 + y3
    requires d.month == 10 * m0 + m1 && d.day == 10 * d0 + d1
    ensures ParseIso([DigitChar(y0), DigitChar(y1), DigitChar(y2), DigitChar(y3), '-',
                      DigitChar(m0), DigitChar(m1), '-', DigitChar(d0), DigitChar(d1)]) == Some(d)
  {
    DigitValueOfChar(y0);
    DigitValueOfChar(y1);
    DigitValueOfChar(y2);
    DigitValueOfChar(y3);
    DigitValueOfChar(m0);
    DigitValueOfChar(m1);
    DigitValueOfChar(d0);
    DigitValueOfChar(d1);
  }

  /** Reading back the text of a day gives the same day. */
  lemma ParseIsoText(d: Date)
    requires ValidDate(d) && d.year <= 9999
    ensures ParseIso(IsoText(d)) == Some(d)
  {
    FourDigits(d.year);
    TwoDigits(d.month);
    TwoDigits(d.day);
    ParseDigits(d, d.year / 1000 % 10, d.year / 100 % 10, d.year / 10 % 10, d.year % 10,
                d.month / 10 % 10, d.month % 10, d.day / 10 % 10, d.day % 10);
  }

  /** A day whose fields are spelled by the given digits is written with those digits. */
  lemma TextDigits(d: Date, y0: nat, y1: nat, y2: nat, y3: nat, m0: nat, m1: nat, d0: nat, d1: nat)
    requires y0 < 10 && y1 < 10 && y2 < 10 && y3 < 10 && m0 < 10 && m1 < 10 && d0 < 10 && d1 < 10
    requires d.year == 1000 * y0 + 100 * y1 + 10 * y2 + y3
    requires d.month == 10 * m0 + m1 && d.day == 10 * d0 + d1
    ensures IsoText(d) == [DigitChar(y0), DigitChar(y1), DigitChar(y2), DigitChar(y3), '-',
                           DigitChar(m0), DigitChar(m1), '-', DigitChar(d0), DigitChar(d1)]
  {
    DigitsOfFour(y0, y1, y2, y3);
    DivByConstant(d.month, 10, m0, m1);
    DivByConstant(m0, 10, 0, m0);
    DivByConstant(d.day, 10, d0, d1);
    DivByConstant(d0, 10, 0, d0);
  }

  /** Reading a day from its text and writing it back gives the same text. */
  lemma IsoTextOfParse(s: string)
    requires ParseIso(s).Some?
    ensures IsoText(ParseIso(s).value) == s
  {
    TextDigits(ParseIso(s).value, DigitValue(s[0]), DigitValue(s[1]), DigitValue(s[2]), DigitValue(s[3]),
               DigitValue(s[5]), DigitValue(s[6]), DigitValue(s[8]), DigitValue(s[9]));
    DigitCharOfValue(s[0]);
    DigitCharOfValue(s[1]);
    DigitCharOfValue(s[2]);
    DigitCharOfValue(s[3]);
    DigitCharOfValue(s[5]);
    DigitCharOfValue(s[6]);
    DigitCharOfValue(s[8]);
    DigitCharOfValue(s[9]);
    assert s == [s[0], s[1], s[2], s[3], '-', s[5], s[6], '-', s[8], s[9]];
  }

  // ---------------------------------------------------------------------------
  // Order: time values against 'YYYY-MM-DD' text
  // ---------------------------------------------------------------------------

  /** Calendar order: by year, then month, then day. */
  predicate Before(a: Date, b: Date) {
    a.year < b.year
    || (a.year == b.year && a.month < b.month)
    || (a.year == b.year && a.month == b.month && a.day < b.day)
  }

  lemma {:induction false} YearsBefore(y1: nat, y2: nat)
    requires y1 < y2
    ensures DaysBeforeYear(y1) + YearLength(y1) <= DaysBeforeYear(y2)
    decreases y2
  {
    if y1 < y2 - 1 {
      YearsBefore(y1, y2 - 1);
    }
  }

  lemma {:induction false} MonthsBefore(y: int, m1: nat, m2: nat)
    requires 1 <= m1 < m2 <= 13
    ensures DaysBeforeMonth(y, m1) + MonthLength(y, m1) <= DaysBeforeMonth(y, m2)
    decreases m2
  {
    if m1 < m2 - 1 {
      MonthsBefore(y, m1, m2 - 1);
    }
  }

  /** A day falls inside its year. */
  lemma DayInYear(d: Date)
    requires ValidDate(d)
    ensures DaysBeforeMonth(d.year, d.month) + d.day <= YearLength(d.year)
  {
    MonthsBefore(d.year, d.month, 13);
    WholeYear(d.year);
  }

  lemma BeforeHasSmallerNumber(a: Date, b: Date)
    requires ValidDate(a) && ValidDate(b) && Before(a, b)
    ensures DayNumber(a) < DayNumber(b)
  {
    if a.year < b.year {
      DayInYear(a);
      YearsBefore(a.year, b.year);
    } else if a.month < b.month {
      MonthsBefore(a.year, a.month, b.month);
    }
  }

  /** Comparing two days' time values is comparing them in the calendar. */
  lemma DayNumberOrder(a: Date, b: Date)
    requires ValidDate(a) && ValidDate(b)
    ensures DayNumber(a) < DayNumber(b) <==> Before(a, b)
  {
    if Before(a, b) {
      BeforeHasSmallerNumber(a, b);
    } else if a != b {
      BeforeHasSmallerNumber(b, a);
    }
  }

  /** A digit field followed by anything: the field decides unless both fields hold the same number. */
  lemma {:induction false} FieldOrder(p: string, q: string, x: string, y: string)
    requires AllDigits(p) && AllDigits(q) && |p| == |q|
    ensures StrLt(p + x, q + y) <==>
      DigitsValue(p) < DigitsValue(q) || (DigitsValue(p) == DigitsValue(q) && StrLt(x, y))
  {
    DigitsOrder(p, q);
    DigitsOrder(q, p);
    StrLtTotal(p, q);
    if StrLt(p, q) {
      StrLtExtend(p, q, x, y);
    } else if StrLt(q, p) {
      StrLtExtend(q, p, y, x);
      StrLtAsymmetric(q + y, p + x);
    } else {
      StrLtSamePrefix(p, x, y);
    }
  }

  /** 'YYYY-MM-DD' texts compare as strings exactly as the days compare in the calendar. */
  lemma IsoTextOrder(a: Date, b: Date)
    requires ValidDate(a) && ValidDate(b) && a.year <= 9999 && b.year <= 9999
    ensures StrLt(IsoText(a), IsoText(b)) <==> Before(a, b)
  {
    FourDigitValue(a.year);
    FourDigitValue(b.year);
    TwoDigitValue(a.month);
    TwoDigitValue(b.month);
    TwoDigitValue(a.day);
    TwoDigitValue(b.day);
    IsoTextFields(a);
    IsoTextFields(b);
    FieldsOrder(FourDigitText(a.year), TwoDigitText(a.month), TwoDigitText(a.day),
                FourDigitText(b.year), TwoDigitText(b.month), TwoDigitText(b.day));
  }

  /** Dates written as digit fields of fixed widths compare field by field. */
  lemma {:induction false} FieldsOrder(ya: string, ma: string, da: string, yb: string, mb: string, db: string)
    requires AllDigits(ya) && AllDigits(ma) && AllDigits(da) && AllDigits(yb) && AllDigits(mb) && AllDigits(db)
    requires |ya| == |yb| && |ma| == |mb| && |da| == |db|
    ensures StrLt(Fields(ya, ma, da), Fields(yb, mb, db)) <==>
      DigitsValue(ya) < DigitsValue(yb)
      || (DigitsValue(ya) == DigitsValue(yb) && DigitsValue(ma) < DigitsValue(mb))
      || (DigitsValue(ya) == DigitsValue(yb) && DigitsValue(ma) == DigitsValue(mb) && DigitsValue(da) < DigitsValue(db))
  {
    FieldOrder(ya, yb, "-" + (ma + ("-" + da)), "-" + (mb + ("-" + db)));
    TailOrder(ma, da, mb, db);
  }

  lemma {:induction false} TailOrder(ma: string, da: string, mb: string, db: string)
    requires AllDigits(ma) && AllDigits(da) && AllDigits(mb) && AllDigits(db)
    requires |ma| == |mb| && |da| == |db|
    ensures StrLt("-" + (ma + ("-" + da)), "-" + (mb + ("-" + db))) <==>
      DigitsValue(ma) < DigitsValue(mb) || (DigitsValue(ma) == DigitsValue(mb) && DigitsValue(da) < DigitsValue(db))
  {
    StrLtSamePrefix("-", ma + ("-" + da), mb + ("-" + db));
    FieldOrder(ma, mb, "-" + da, "-" + db);
    StrLtSamePrefix("-", da, db);
    DigitsOrder(da, db);
  }

  /**
   * For two date strings that both parse, the page's string comparison (`a < b`)
   * and its Date comparison (`new Date(a) < new Date(b)`) agree.
   */
  lemma StringAndDateOrderAgree(a: string, b: string)
    requires ParseIso(a).Some? && ParseIso(b).Some?
    ensures StrLt(a, b) <==> DayNumber(ParseIso(a).value) < DayNumber(ParseIso(b).value)
  {
    IsoTextOfParse(a);
    IsoTextOfParse(b);
    IsoTextOrder(ParseIso(a).value, ParseIso(b).value);
    DayNumberOrder(ParseIso(a).value, ParseIso(b).value);
  }

  // ---------------------------------------------------------------------------
  // getDatesInRange
  // ---------------------------------------------------------------------------

  /** The day whose time value is `t`: what `toISOString` reads out of a Date. */
  function DayOf(t: nat): Date {
    if t == 0 then Date(0, 1, 1) else NextDay(DayOf(t - 1))
  }

  /** The day read out of a time value is a real day with that time value. */
  lemma {:induction false} DayOfFacts(t: nat)
    ensures ValidDate(DayOf(t)) && DayNumber(DayOf(t)) == t
  {
    if t > 0 {
      DayOfFacts(t - 1);
      NextDayFacts(DayOf(t - 1));
    }
  }

  /** Time values name days one to one. */
  lemma DayOfNumber(d: Date)
    requires ValidDate(d)
    ensures DayOf(DayNumber(d)) == d
  {
    DayOfFacts(DayNumber(d));
    DayNumberOrder(d, DayOf(DayNumber(d)));
    DayNumberOrder(DayOf(DayNumber(d)), d);
  }

  /** `endDate || startDate`: an empty end date means a single-day range. */
  function RangeEnd(startDate: string, endDate: string): string {
    if endDate == "" then startDate else endDate
  }

  /** `toISOString().split('T')[0]` of a Date whose time value is `t`. */
  function DayText(t: nat): string {
    IsoText(DayOf(t))
  }

  /** The texts of the days with time values from `t0` to `t1`, both included. */
  function Days(t0: nat, t1: nat): seq<string> {
    if t1 < t0 then [] else Tabulate(DayText, t0, t1 - t0 + 1)
  }

  /**
   * The days from the start date to the end date, both included, as 'YYYY-MM-DD'.
   * An unparsable date is an Invalid Date, whose comparisons are all false: no days.
   */
  function DateRange(startDate: string, endDate: string): seq<string> {
    var first, last := ParseIso(startDate), ParseIso(RangeEnd(startDate, endDate));
    if first.None? || last.None? then [] else Days(DayNumber(first.value), DayNumber(last.value))
  }

  /**
   * `getDatesInRange(startDate, endDate)`. A Date object is its time value (here in
   * days); an Invalid Date compares false with everything, so the loop does not run.
   */
  method DatesInRange(startDate: string, endDate: string) returns (dates: seq<string>)
    ensures dates == DateRange(startDate, endDate)
  {
    var first := ParseIso(startDate);
    var last := ParseIso(RangeEnd(startDate, endDate));
    if first.None? || last.None? {
      return [];
    }
    dates := DaysBetween(DayNumber(first.value), DayNumber(last.value));
  }

  /** The loop of `getDatesInRange`: push the current day, then `setDate(getDate() + 1)`, while not past the end. */
  method DaysBetween(start: nat, end: nat) returns (dates: seq<string>)
    ensures dates == Days(start, end)
  {
    dates := [];
    var current: int := start;
    while current <= end
      invariant start <= current
      invariant |dates| == current - start
      invariant |dates| > 0 ==> current <= end + 1
      invariant dates == Tabulate(DayText, start, |dates|)
      decreases end - current
    {
      TabulateNext(DayText, start, |dates|, current);
      dates := dates + [DayText(current)];
      current := current + 1;
    }
  }

  /** The i-th of the days from `t0` is the day with time value `t0 + i`. */
  lemma {:induction false} DaysAt(t0: nat, t1: nat, i: nat)
    requires i < |Days(t0, t1)|
    ensures t0 + i <= t1 && Days(t0, t1)[i] == DayText(t0 + i)
  {
    TabulateAt(DayText, t0, t1 - t0 + 1, i);
  }

  /** The text of a day no later than a day of year 9999 parses back to that day. */
  lemma {:induction false} DayTextParses(t: nat, e: Date)
    requires ValidDate(e) && e.year <= 9999 && t <= DayNumber(e)
    ensures ParseIso(DayText(t)) == Some(DayOf(t))
  {
    DayOfFacts(t);
    DayNumberOrder(e, DayOf(t));
    ParseIsoText(DayOf(t));
  }

  /** Up to a day of year 9999, later days have later texts. */
  lemma {:induction false} DayTextRises(a: nat, b: nat, e: Date)
    requires ValidDate(e) && e.year <= 9999 && a < b <= DayNumber(e)
    ensures StrLt(DayText(a), DayText(b))
  {
    DayTextParses(a, e);
    DayTextParses(b, e);
    DayOfFacts(a);
    DayOfFacts(b);
    StringAndDateOrderAgree(DayText(a), DayText(b));
  }

  /** One day of the range up to a day of year 9999 parses. */
  lemma {:induction false} DaysParseAt(t0: nat, e: Date, i: nat)
    requires ValidDate(e) && e.year <= 9999 && i < |Days(t0, DayNumber(e))|
    ensures ParseIso(Days(t0, DayNumber(e))[i]).Some?
  {
    DaysAt(t0, DayNumber(e), i);
    DayTextParses(t0 + i, e);
  }

  /** A sequence tabulated from a function that rises in string order rises too. */
  lemma {:induction false} TabulateRises(f: nat -> string, t: nat, n: nat)
    requires forall a, b :: t <= a < b < t + n ==> StrLt(f(a), f(b))
    ensures forall i, j :: 0 <= i < j < n ==> StrLt(Tabulate(f, t, n)[i], Tabulate(f, t, n)[j])
  {
    forall i, j | 0 <= i < j < n
      ensures StrLt(Tabulate(f, t, n)[i], Tabulate(f, t, n)[j])
    {
      TabulateAt(f, t, n, i);
      TabulateAt(f, t, n, j);
    }
  }

  /** The days up to a day of year 9999 all parse and rise strictly. */
  lemma {:induction false} DaysRise(t0: nat, e: Date)
    requires ValidDate(e) && e.year <= 9999
    ensures var r := Days(t0, DayNumber(e));
      forall i :: 0 <= i < |r| ==> ParseIso(r[i]).Some?
    ensures var r := Days(t0, DayNumber(e));
      forall i, j :: 0 <= i < j < |r| ==> StrLt(r[i], r[j])
  {
    var r := Days(t0, DayNumber(e));
    forall i | 0 <= i < |r|
      ensures ParseIso(r[i]).Some?
    {
      DaysParseAt(t0, e, i);
    }
    if t0 <= DayNumber(e) {
      var n := DayNumber(e) - t0 + 1;
      forall a, b | t0 <= a < b < t0 + n
        ensures StrLt(DayText(a), DayText(b))
      {
        DayTextRises(a, b, e);
      }
      TabulateRises(DayText, t0, n);
    }
  }

  /**
   * The range is empty exactly when a date does not parse or, comparing the strings
   * as the date handlers do, the end comes before the start.
   */
  lemma {:induction false} DateRangeEmpty(startDate: string, endDate: string)
    ensures DateRange(startDate, endDate) == [] <==>
      ParseIso(startDate).None? || ParseIso(RangeEnd(startDate, endDate)).None?
      || StrLt(RangeEnd(startDate, endDate), startDate)
  {
    if ParseIso(startDate).Some? && ParseIso(RangeEnd(startDate, endDate)).Some? {
      StringAndDateOrderAgree(RangeEnd(startDate, endDate), startDate);
    }
  }

  /** The day of a date string's time value prints as that string. */
  lemma {:induction false} DayTextOfParse(s: string)
    requires ParseIso(s).Some?
    ensures DayText(DayNumber(ParseIso(s).value)) == s
  {
    DayOfNumber(ParseIso(s).value);
    IsoTextOfParse(s);
  }

  /** The days from `t0` begin with the day `t0`. */
  lemma {:induction false} DaysFirst(t0: nat, t1: nat)
    requires t0 <= t1
    ensures Days(t0, t1)[0] == DayText(t0)
  {
    TabulateFirst(DayText, t0, t1 - t0 + 1);
  }

  /** A non-empty range starts with the start date. */
  lemma {:induction false} DateRangeFirst(startDate: string, endDate: string)
    requires DateRange(startDate, endDate) != []
    ensures DateRange(startDate, endDate)[0] == startDate
  {
    var t0, t1 := DayNumber(ParseIso(startDate).value), DayNumber(ParseIso(RangeEnd(startDate, endDate)).value);
    DaysFirst(t0, t1);
    DayTextOfParse(startDate);
  }

  /** A non-empty range ends with the end date, or with the start date when no end date is given. */
  lemma {:induction false} DateRangeLast(startDate: string, endDate: string)
    requires DateRange(startDate, endDate) != []
    ensures DateRange(startDate, endDate)[|DateRange(startDate, endDate)| - 1] == RangeEnd(startDate, endDate)
  {
    var t0, t1 := DayNumber(ParseIso(startDate).value), DayNumber(ParseIso(RangeEnd(startDate, endDate)).value);
    DaysAt(t0, t1, t1 - t0);
    DayTextOfParse(RangeEnd(startDate, endDate));
  }

  /** Every day of the range is a date string that parses, and the days rise strictly as strings. */
  lemma {:induction false} DateRangeRises(startDate: string, endDate: string)
    ensures var r := DateRange(startDate, endDate);
      forall i :: 0 <= i < |r| ==> ParseIso(r[i]).Some?
    ensures var r := DateRange(startDate, endDate);
      forall i, j :: 0 <= i < j < |r| ==> StrLt(r[i], r[j])
  {
    var first, last := ParseIso(startDate), ParseIso(RangeEnd(startDate, endDate));
    if first.Some? && last.Some? {
      DaysRise(DayNumber(first.value), last.value);
    }
  }
}
