/** Calendar dates and times of day as `datetime.fromisoformat` reads them, for the
    fixed-width forms the records use (ISO 8601 extended format, section 4.3.2 of
    ISO 8601:2004):

      YYYY-MM-DD
      YYYY-MM-DD?HH:MM:SS            (any one separator character)
      YYYY-MM-DD?HH:MM:SS+HH:MM      (or -HH:MM: a UTC offset, section 4.2.5.1)

    together with `isoformat()`, the proleptic Gregorian day number behind date
    arithmetic and comparison, and the English day names of `strftime('%A')`. */
module IsoTime {
  import opened Common
  import opened Seqs

  datatype Date = Date(year: int, month: int, day: int)

  /** A datetime; `offset` is the UTC offset in minutes, present iff the value is
      timezone-aware. */
  datatype DateTime = DateTime(date: Date, hour: int, minute: int, second: int, offset: Option<int>)
  {
    predicate Aware() { offset.Some? }
  }

  // ---------------------------------------------------------------------------
  // The calendar

  predicate IsLeapYear(y: int) {
    y % 4 == 0 && (y % 100 != 0 || y % 400 == 0)
  }

  function DaysInMonth(y: int, m: int): (n: int)
    requires 1 <= m <= 12
    ensures 28 <= n <= 31
    ensures m == 2 ==> (n == 29 <==> IsLeapYear(y))
  {
    if m == 2 then (if IsLeapYear(y) then 29 else 28)
    else if m == 4 || m == 6 || m == 9 || m == 11 then 30
    else 31
  }

  function DaysInYear(y: int): int {
    if IsLeapYear(y) then 366 else 365
  }

  predicate ValidDate(d: Date) {
    1 <= d.year <= 9999 && 1 <= d.month <= 12 && 1 <= d.day <= DaysInMonth(d.year, d.month)
  }

  predicate ValidDateTime(t: DateTime) {
    ValidDate(t.date) && 0 <= t.hour <= 23 && 0 <= t.minute <= 59 && 0 <= t.second <= 59 &&
    (t.offset.Some? ==> -1440 < t.offset.value < 1440)
  }

  /** Days in the years before `y` (the `_days_before_year` closed form). */
  function DaysBeforeYear(y: int): int
    requires y >= 1
  {
    var n := y - 1;
    n * 365 + n / 4 - n / 100 + n / 400
  }

  /** Days in the months of year `y` before month `m` (`_days_before_month`). */
  function DaysBeforeMonth(y: int, m: int): (n: int)
    requires 1 <= m <= 13
    ensures 0 <= n
  {
    var table := [0, 31, 59, 90, 120, 151, 181, 212, 243, 273, 304, 334, 365];
    table[m - 1] + (if m > 2 && IsLeapYear(y) then 1 else 0)
  }

  /** The proleptic Gregorian ordinal: 0001-01-01 is day 1 (`date.toordinal()`). */
  function Ordinal(d: Date): int
    requires ValidDate(d)
  {
    DaysBeforeYear(d.year) + DaysBeforeMonth(d.year, d.month) + d.day
  }

  lemma DaysBeforeMonthStep(y: int, m: int)
    requires 1 <= m <= 12
    ensures DaysBeforeMonth(y, m + 1) == DaysBeforeMonth(y, m) + DaysInMonth(y, m)
  {
  }

  lemma DaysBeforeMonthMonotone(y: int, m1: int, m2: int)
    requires 1 <= m1 < m2 <= 13
    ensures DaysBeforeMonth(y, m1) + DaysInMonth(y, m1) <= DaysBeforeMonth(y, m2)
  {
    DaysBeforeMonthStep(y, m1);
  }

  /** `(n + 1) / k - n / k` is one exactly when `k` divides `n + 1`, for the three
      divisors of the leap-year rule. */
  lemma DivStep4(n: nat)
    ensures (n + 1) / 4 - n / 4 == (if (n + 1) % 4 == 0 then 1 else 0)
  {
  }

  lemma DivStep100(n: nat)
    ensures (n + 1) / 100 - n / 100 == (if (n + 1) % 100 == 0 then 1 else 0)
  {
  }

  lemma DivStep400(n: nat)
    ensures (n + 1) / 400 - n / 400 == (if (n + 1) % 400 == 0 then 1 else 0)
  {
  }

  /** The closed form counts one year of days per year. */
  lemma {:induction false} DaysBeforeYearStep(y: int)
    requires y >= 1
    ensures DaysBeforeYear(y + 1) == DaysBeforeYear(y) + DaysInYear(y)
  {
    var n := y - 1;
    DivStep4(n);
    DivStep100(n);
    DivStep400(n);
  }

  lemma {:induction false} DaysBeforeYearMonotone(y1: int, y2: int)
    requires 1 <= y1 < y2
    ensures DaysBeforeYear(y1) + DaysInYear(y1) <= DaysBeforeYear(y2)
    decreases y2 - y1
  {
    DaysBeforeYearStep(y1);
    if y1 + 1 < y2 {
      DaysBeforeYearMonotone(y1 + 1, y2);
    }
  }

  /** Python compares dates field by field: year, then month, then day. */
  predicate DateLess(a: Date, b: Date) {
    a.year < b.year || (a.year == b.year && (a.month < b.month || (a.month == b.month && a.day < b.day)))
  }

  /** The day number orders dates exactly as the field comparison does. */
  lemma {:induction false} OrdinalMonotone(a: Date, b: Date)
    requires ValidDate(a) && ValidDate(b) && DateLess(a, b)
    ensures Ordinal(a) < Ordinal(b)
  {
    if a.year < b.year {
      DaysBeforeMonthMonotone(a.year, a.month, 13);
      assert DaysBeforeMonth(a.year, 13) == DaysInYear(a.year);
      DaysBeforeYearMonotone(a.year, b.year);
    } else if a.month < b.month {
      DaysBeforeMonthMonotone(a.year, a.month, b.month);
    }
  }

  lemma OrdinalInjective(a: Date, b: Date)
    requires ValidDate(a) && ValidDate(b) && Ordinal(a) == Ordinal(b)
    ensures a == b
  {
    if DateLess(a, b) {
      OrdinalMonotone(a, b);
    } else if DateLess(b, a) {
      OrdinalMonotone(b, a);
    }
  }

  // ---------------------------------------------------------------------------
  // Day of the week

  const DayNames: seq<string> :=
    ["Monday", "Tuesday", "Wednesday", "Thursday", "Friday", "Saturday", "Sunday"]

  /** `date.weekday()`: Monday is 0. */
  function Weekday(d: Date): (w: int)
    requires ValidDate(d)
    ensures 0 <= w < 7
  {
    (Ordinal(d) + 6) % 7
  }

  /** `strftime('%A')` in the C locale. */
  function DayName(d: Date): (name: string)
    requires ValidDate(d)
    ensures name in DayNames
  {
    DayNames[Weekday(d)]
  }

  /** Calendar checks of the weekday count: 0001-01-01 and 2024-01-15 are Mondays,
      and the leap day 2024-02-29 is a Thursday. */
  lemma WeekdayAnchors()
    ensures DayName(Date(1, 1, 1)) == "Monday"
    ensures DayName(Date(2024, 1, 15)) == "Monday"
    ensures DayName(Date(2024, 2, 29)) == "Thursday"
  {
  }

  /** One day later is one weekday later. */
  lemma WeekdayNext(a: Date, b: Date)
    requires ValidDate(a) && ValidDate(b) && Ordinal(b) == Ordinal(a) + 1
    ensures Weekday(b) == (Weekday(a) + 1) % 7
  {
    var x := Ordinal(a) + 6;
    assert Weekday(a) == x % 7 && Weekday(b) == (x + 1) % 7;
    ModSevenNext(x);
  }

  lemma ModSevenNext(x: int)
    ensures (x + 1) % 7 == (x % 7 + 1) % 7
  {
  }

  // ---------------------------------------------------------------------------
  // Instants

  /** Seconds since the start of 0001-01-01, for comparing and subtracting naive
      datetimes. */
  function Seconds(t: DateTime): int
    requires ValidDateTime(t)
  {
    Ordinal(t.date) * 86400 + t.hour * 3600 + t.minute * 60 + t.second
  }

  /** `now - reg` then `.days`: whole days, rounded down. */
  function DaysBetween(later: DateTime, earlier: DateTime): int
    requires ValidDateTime(later) && ValidDateTime(earlier)
  {
    (Seconds(later) - Seconds(earlier)) / 86400
  }

  /** Earlier dates give earlier instants, whatever the times of day. */
  lemma SecondsFollowDates(a: DateTime, b: DateTime)
    requires ValidDateTime(a) && ValidDateTime(b) && DateLess(a.date, b.date)
    ensures Seconds(a) < Seconds(b)
  {
    OrdinalMonotone(a.date, b.date);
  }

  // ---------------------------------------------------------------------------
  // Fixed-width decimal fields

  function Pow10(w: nat): (p: nat)
    ensures p >= 1
  {
    if w == 0 then 1 else 10 * Pow10(w - 1)
  }

  /** `w` decimal digits of `n`, zero-padded on the left (`%0wd`). */
  function Pad(n: nat, w: nat): (s: string)
    ensures |s| == w && AllDigits(s)
  {
    if w == 0 then [] else Pad(n / 10, w - 1) + [DigitChar(n % 10)]
  }

  lemma {:induction false} PadValue(n: nat, w: nat)
    requires n < Pow10(w)
    ensures DigitsValue(Pad(n, w)) == n
  {
    if w > 0 {
      var s := Pad(n, w);
      assert s[..|s| - 1] == Pad(n / 10, w - 1);
      PadValue(n / 10, w - 1);
    }
  }

  /** The number in the `w` characters of `s` from `i`, if they are all digits. */
  function Field(s: string, i: nat, w: nat): (r: Option<int>)
    requires i + w <= |s|
    ensures r.Some? ==> 0 <= r.value < Pow10(w)
  {
    if AllDigits(s[i..i + w]) then
      DigitsBound(s[i..i + w]);
      Some(DigitsValue(s[i..i + w]))
    else None
  }

  lemma {:induction false} DigitsBound(s: string)
    requires AllDigits(s)
    ensures DigitsValue(s) < Pow10(|s|)
  {
    if s != [] {
      DigitsBound(s[..|s| - 1]);
    }
  }

  // ---------------------------------------------------------------------------
  // Parsing (`datetime.fromisoformat`) and formatting (`isoformat()`)

  /** `YYYY-MM-DD` */
  function ParseDate(s: string): (r: Option<Date>)
    ensures r.Some? ==> ValidDate(r.value)
  {
    if |s| != 10 || s[4] != '-' || s[7] != '-' then None
    else
      match (Field(s, 0, 4), Field(s, 5, 2), Field(s, 8, 2))
      case (Some(y), Some(m), Some(d)) =>
        if ValidDate(Date(y, m, d)) then Some(Date(y, m, d)) else None
      case _ => None
  }

  /** `HH:MM:SS` */
  function ParseTime(s: string): (r: Option<(int, int, int)>)
    ensures r.Some? ==> 0 <= r.value.0 <= 23 && 0 <= r.value.1 <= 59 && 0 <= r.value.2 <= 59
  {
    if |s| != 8 || s[2] != ':' || s[5] != ':' then None
    else
      match (Field(s, 0, 2), Field(s, 3, 2), Field(s, 6, 2))
      case (Some(h), Some(m), Some(sec)) =>
        if h <= 23 && m <= 59 && sec <= 59 then Some((h, m, sec)) else None
      case _ => None
  }

  /** `+HH:MM` or `-HH:MM`, as signed minutes. */
  function ParseOffset(s: string): (r: Option<int>)
    ensures r.Some? ==> -1440 < r.value < 1440
  {
    if |s| != 6 || (s[0] != '+' && s[0] != '-') || s[3] != ':' then None
    else
      match (Field(s, 1, 2), Field(s, 4, 2))
      case (Some(h), Some(m)) =>
        if h <= 23 && m <= 59 then Some(if s[0] == '-' then -(h * 60 + m) else h * 60 + m) else None
      case _ => None
  }

  /** `datetime.fromisoformat(s)`; `None` stands for the `ValueError`. A date alone
      is midnight; the character between date and time is not inspected. */
  function ParseIso(s: string): (r: Option<DateTime>)
    ensures r.Some? ==> ValidDateTime(r.value)
    ensures r.Some? && |s| < 25 ==> !r.value.Aware()
  {
    if |s| == 10 then
      match ParseDate(s)
      case Some(d) => Some(DateTime(d, 0, 0, 0, None))
      case None => None
    else if |s| == 19 || |s| == 25 then
      match (ParseDate(s[..10]), ParseTime(s[11..19]))
      case (Some(d), Some(t)) =>
        if |s| == 19 then Some(DateTime(d, t.0, t.1, t.2, None))
        else (match ParseOffset(s[19..])
              case Some(o) => Some(DateTime(d, t.0, t.1, t.2, Some(o)))
              case None => None)
      case _ => None
    else None
  }

  /** How the records' timestamps are read: `fromisoformat(s.replace('Z', '+00:00'))`. */
  function ParseStamp(s: string): (r: Option<DateTime>)
    ensures r.Some? ==> ValidDateTime(r.value)
  {
    ParseIso(ReplaceChar(s, 'Z', "+00:00"))
  }

  function FormatDate(d: Date): (s: string)
    requires ValidDate(d)
    ensures |s| == 10
  {
    Pad(d.year, 4) + "-" + Pad(d.month, 2) + "-" + Pad(d.day, 2)
  }

  function FormatOffset(o: int): (s: string)
    requires -1440 < o < 1440
    ensures |s| == 6
  {
    var a := if o < 0 then -o else o;
    (if o < 0 then "-" else "+") + Pad(a / 60, 2) + ":" + Pad(a % 60, 2)
  }

  /** `datetime.isoformat()` for whole seconds. */
  function FormatIso(t: DateTime): (s: string)
    requires ValidDateTime(t)
    ensures |s| == (if t.Aware() then 25 else 19)
  {
    FormatDate(t.date) + "T" + Pad(t.hour, 2) + ":" + Pad(t.minute, 2) + ":" + Pad(t.second, 2) +
    (if t.offset.Some? then FormatOffset(t.offset.value) else "")
  }

  lemma FieldOfPad(s: string, i: nat, n: nat, w: nat)
    requires n < Pow10(w) && i + w <= |s| && s[i..i + w] == Pad(n, w)
    ensures Field(s, i, w) == Some(n)
  {
    PadValue(n, w);
  }

  lemma ParseFormatDate(d: Date)
    requires ValidDate(d)
    ensures ParseDate(FormatDate(d)) == Some(d)
  {
    var s := FormatDate(d);
    assert Pow10(4) == 10000 && Pow10(2) == 100;
    FieldOfPad(s, 0, d.year, 4);
    FieldOfPad(s, 5, d.month, 2);
    FieldOfPad(s, 8, d.day, 2);
  }

  lemma ParseFormatOffset(o: int)
    requires -1440 < o < 1440
    ensures ParseOffset(FormatOffset(o)) == Some(o)
  {
    var s := FormatOffset(o);
    var a := if o < 0 then -o else o;
    assert Pow10(2) == 100;
    FieldOfPad(s, 1, a / 60, 2);
    FieldOfPad(s, 4, a % 60, 2);
  }

  /** Reading back what `isoformat()` wrote gives the same datetime. */
  lemma ParseFormatIso(t: DateTime)
    requires ValidDateTime(t)
    ensures ParseIso(FormatIso(t)) == Some(t)
  {
    var s := FormatIso(t);
    var ds := FormatDate(t.date);
    var ts := Pad(t.hour, 2) + ":" + Pad(t.minute, 2) + ":" + Pad(t.second, 2);
    assert s[..10] == ds;
    assert s[11..19] == ts;
    ParseFormatDate(t.date);
    assert Pow10(2) == 100;
    FieldOfPad(ts, 0, t.hour, 2);
    FieldOfPad(ts, 3, t.minute, 2);
    FieldOfPad(ts, 6, t.second, 2);
    if t.offset.Some? {
      assert s[19..] == FormatOffset(t.offset.value);
      ParseFormatOffset(t.offset.value);
    }
  }

  lemma FormatHasNoZ(t: DateTime)
    requires ValidDateTime(t)
    ensures 'Z' !in FormatIso(t)
  {
    var s := FormatIso(t);
    forall i | 0 <= i < |s| ensures s[i] != 'Z' {
      assert IsDigit(s[i]) || s[i] in "-T:+";
    }
  }

  /** A UTC stamp written as `...Z` is read, after the replacement, as aware with a
      zero offset. */
  lemma ZuluStampIsAware(t: DateTime)
    requires ValidDateTime(t) && !t.Aware()
    ensures ParseStamp(FormatIso(t) + "Z") == Some(t.(offset := Some(0)))
  {
    var s := FormatIso(t);
    var u := t.(offset := Some(0));
    FormatHasNoZ(t);
    ReplaceAppend(s, "Z", 'Z', "+00:00");
    assert ReplaceChar("Z", 'Z', "+00:00") == "+00:00";
    assert FormatOffset(0) == "+00:00";
    assert FormatIso(u) == s + "+00:00";
    ParseFormatIso(u);
  }

  /** A stamp ending in `Z` reads, after the replacement, as ending in `+00:00`:
      either it does not parse or it is aware, with offset zero. */
  lemma ZuluStampNeverNaive(s: string)
    requires |s| > 0 && s[|s| - 1] == 'Z'
    ensures ParseStamp(s).Some? ==> ParseStamp(s).value.Aware()
    ensures ParseStamp(s).Some? ==> ParseStamp(s).value.offset == Some(0)
  {
    var a := s[..|s| - 1];
    assert s == a + "Z";
    ReplaceAppend(a, "Z", 'Z', "+00:00");
    assert ReplaceChar("Z", 'Z', "+00:00") == "+00:00";
    var u := ReplaceChar(s, 'Z', "+00:00");
    var n := |u|;
    assert u[n - 6] == '+' && u[n - 3] == ':';
    if |u| == 10 {
      assert u[4] == '+';
    } else if |u| == 19 {
      assert u[11..19][2] == '+';
    } else if |u| == 25 {
      assert u[19..] == "+00:00";
      ZeroOffset();
    }
  }

  lemma ZeroOffset()
    ensures ParseOffset("+00:00") == Some(0)
  {
    var z := "+00:00";
    assert z[1..3] == "00" && z[4..6] == "00";
    assert "00"[..1] == "0" && "0"[..0] == "";
    assert DigitsValue("00") == 0;
    assert Field(z, 1, 2) == Some(0);
    assert Field(z, 4, 2) == Some(0);
  }

  lemma {:induction false} ReplaceAppend(a: string, b: string, c: char, repl: string)
    ensures ReplaceChar(a + b, c, repl) == ReplaceChar(a, c, repl) + ReplaceChar(b, c, repl)
  {
    if a != [] {
      var head := if a[0] == c then repl else [a[0]];
      assert (a + b)[1..] == a[1..] + b;
      assert ReplaceChar(a + b, c, repl) == head + ReplaceChar(a[1..] + b, c, repl);
      ReplaceAppend(a[1..], b, c, repl);
      AppendAssoc(head, ReplaceChar(a[1..], c, repl), ReplaceChar(b, c, repl));
    } else {
      assert a + b == b;
    }
  }
}
