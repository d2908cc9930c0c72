/**
 * Calendar-day text in `y-MM-DD` form (app/utils/dateRangeHelpers.ts, lines 6-27):
 * the month and day are zero-padded to two digits, the year is written as is.
 */
module CalendarDates {
  import opened Common
  import opened Strings

  /** The year, month and day a calendar date (or any date value of the date picker) carries. */
  datatype CalendarDate = CalendarDate(year: int, month: int, day: int)

  /** `${y}-${MM}-${DD}` with the month and day padded to two digits. */
  function FormatDate(date: CalendarDate): string {
    IntToString(date.year) + "-" + PadStart2(IntToString(date.month)) + "-" + PadStart2(IntToString(date.day))
  }

  /**
   * `dateValueToISO`: a date value of the picker as `y-MM-DD`, the text that reads back to
   * the same date when its fields are positive.
   */
  function DateValueToISO(date: CalendarDate): (s: string)
    ensures date.year >= 1 && date.month >= 1 && date.day >= 1 ==> ParseISOToCalendarDate(Some(s)) == Some(date)
  {
    if date.year >= 1 && date.month >= 1 && date.day >= 1 then
      ParseFormatted(date);
      FormatDate(date)
    else FormatDate(date)
  }

  /** `toISOFromCalendarDate`: no date gives no text; a date gives its `y-MM-DD` form. */
  function ToISOFromCalendarDate(date: Option<CalendarDate>): (s: Option<string>)
    ensures s.None? <==> date.None?
    ensures date.Some? ==> s == Some(DateValueToISO(date.value))
  {
    if date.None? then None else Some(FormatDate(date.value))
  }

  /** The `k`-th dash-separated field of a text, read by `parseInt`; a missing field is `undefined`. */
  function Field(parts: seq<string>, k: nat): Option<int> {
    if k < |parts| then ParseInt(parts[k]) else None
  }

  /**
   * `parseISOToCalendarDate`: nothing for a null or empty text, and nothing when the year,
   * the month or the day reads as 0 or NaN; otherwise the three numbers read.
   */
  function ParseISOToCalendarDate(iso: Option<string>): (date: Option<CalendarDate>)
    ensures !TruthyText(iso) ==> date.None?
    ensures date.Some? ==> date.value.year != 0 && date.value.month != 0 && date.value.day != 0
    ensures date.Some? ==>
      var parts := Split(iso.value, '-');
      Field(parts, 0) == Some(date.value.year) && Field(parts, 1) == Some(date.value.month)
      && Field(parts, 2) == Some(date.value.day)
    ensures TruthyText(iso) ==>
      var parts := Split(iso.value, '-');
      (date.Some? <==> TruthyNumber(Field(parts, 0)) && TruthyNumber(Field(parts, 1)) && TruthyNumber(Field(parts, 2)))
  {
    if !TruthyText(iso) then None
    else
      var parts := Split(iso.value, '-');
      var y, m, d := Field(parts, 0), Field(parts, 1), Field(parts, 2);
      if !TruthyNumber(y) || !TruthyNumber(m) || !TruthyNumber(d) then None
      else Some(CalendarDate(y.value, m.value, d.value))
  }

  // ---------------------------------------------------------------------------
  // Round trips between the two directions.
  // ---------------------------------------------------------------------------

  /** A padded field of a positive number reads back as that number. */
  lemma PaddedFieldReads(n: int)
    requires n >= 1
    ensures '-' !in PadStart2(IntToString(n))
    ensures ParseInt(PadStart2(IntToString(n))) == Some(n)
  {
    var s := NatToString(n);
    var p := PadStart2(s);
    DigitsOfNatToString(n);
    if |s| >= 2 {
      assert p == s;
    } else {
      assert p == "0" + s;
      DigitsValueLeadingZero(s);
    }
    assert AllDigits(p);
    ParseIntOfDigits(p);
  }

  /** Three dash-free fields joined by dashes split back into those three fields. */
  lemma SplitThreeFields(y: string, m: string, d: string)
    requires '-' !in y && '-' !in m && '-' !in d
    ensures Split(y + "-" + m + "-" + d, '-') == [y, m, d]
  {
    assert y + "-" + m + "-" + d == y + ['-'] + (m + ['-'] + d);
    SplitAfterField(y, '-', m + ['-'] + d);
    SplitAfterField(m, '-', d);
    SplitWithoutSeparator(d, '-');
  }

  /** What the parser makes of a text whose three dash-separated fields read as positive numbers. */
  lemma ParseThreeFields(y: string, m: string, d: string, date: CalendarDate)
    requires '-' !in y && '-' !in m && '-' !in d
    requires date.year >= 1 && date.month >= 1 && date.day >= 1
    requires ParseInt(y) == Some(date.year) && ParseInt(m) == Some(date.month) && ParseInt(d) == Some(date.day)
    ensures ParseISOToCalendarDate(Some(y + "-" + m + "-" + d)) == Some(date)
  {
    SplitThreeFields(y, m, d);
  }

  lemma NoDashInDigits(s: string)
    requires AllDigits(s)
    ensures '-' !in s
  {
    assert forall i | 0 <= i < |s| :: s[i] != '-';
  }

  /** The `y-MM-DD` text of a date with positive fields reads back to that date. */
  lemma ParseFormatted(date: CalendarDate)
    requires date.year >= 1 && date.month >= 1 && date.day >= 1
    ensures ParseISOToCalendarDate(Some(FormatDate(date))) == Some(date)
  {
    var y := IntToString(date.year);
    DigitsOfNatToString(date.year);
    ParseIntOfDigits(y);
    NoDashInDigits(y);
    PaddedFieldReads(date.month);
    PaddedFieldReads(date.day);
    ParseThreeFields(y, PadStart2(IntToString(date.month)), PadStart2(IntToString(date.day)), date);
  }

  /** Formatting a date with positive fields and reading it back gives the same date. */
  lemma ParseAfterFormat(date: CalendarDate)
    requires date.year >= 1 && date.month >= 1 && date.day >= 1
    ensures ParseISOToCalendarDate(ToISOFromCalendarDate(Some(date))) == Some(date)
  {
    ParseFormatted(date);
  }

  /** The Gregorian leap-year rule. */
  predicate LeapYear(year: int) {
    year % 4 == 0 && (year % 100 != 0 || year % 400 == 0)
  }

  /** The number of days of a month (1-12) of the Gregorian calendar. */
  function DaysInMonth(year: int, month: int): int {
    if month == 2 then (if LeapYear(year) then 29 else 28)
    else if month == 4 || month == 6 || month == 9 || month == 11 then 30
    else 31
  }

  /**
   * A real day of the Gregorian calendar with a year in 1-9999: the dates the `CalendarDate`
   * constructor keeps as given instead of clamping a field into range.
   */
  predicate RealDay(year: int, month: int, day: int) {
    1 <= year <= 9999 && 1 <= month <= 12 && 1 <= day <= DaysInMonth(year, month)
  }

  /**
   * A well-formed calendar-day text: a year without a leading zero, then `-MM-DD` with
   * two-digit month and day, naming a real calendar day.
   */
  predicate WellFormedDay(s: string) {
    |s| >= 7
    && var y, m, d := s[..|s| - 6], s[|s| - 5..|s| - 3], s[|s| - 2..];
    s[|s| - 6] == '-' && s[|s| - 3] == '-'
    && AllDigits(y) && y[0] != '0' && AllDigits(m) && AllDigits(d)
    && RealDay(DigitsValue(y), DigitsValue(m), DigitsValue(d))
  }

  /** A two-digit field other than `00` is the padded form of the number it denotes. */
  lemma TwoDigitField(f: string)
    requires |f| == 2 && AllDigits(f) && f != "00"
    ensures DigitsValue(f) >= 1
    ensures PadStart2(IntToString(DigitsValue(f))) == f
    ensures ParseInt(f) == Some(DigitsValue(f))
  {
    ParseIntOfDigits(f);
    if f[0] == '0' {
      assert f == "0" + [f[1]];
      DigitsValueLeadingZero([f[1]]);
      assert f[1] != '0';
      NatToStringOfDigits([f[1]]);
    } else {
      DigitsValuePositive(f);
      NatToStringOfDigits(f);
    }
  }

  /**
   * Reading the text of a real calendar day and formatting the date gives the same text; on
   * such a day the constructor's clamp changes nothing.
   */
  lemma FormatAfterParse(s: string)
    requires WellFormedDay(s)
    ensures var date := ParseISOToCalendarDate(Some(s));
      date.Some? && RealDay(date.value.year, date.value.month, date.value.day)
      && ToISOFromCalendarDate(date) == Some(s)
  {
    var y, m, d := s[..|s| - 6], s[|s| - 5..|s| - 3], s[|s| - 2..];
    FieldValue(m);
    FieldValue(d);
    assert m != "00" && d != "00";
    assert s == y + "-" + m + "-" + d;
    NoDashInDigits(y);
    NoDashInDigits(m);
    NoDashInDigits(d);
    ParseIntOfDigits(y);
    DigitsValuePositive(y);
    NatToStringOfDigits(y);
    TwoDigitField(m);
    TwoDigitField(d);
    var date := CalendarDate(DigitsValue(y), DigitsValue(m), DigitsValue(d));
    ParseThreeFields(y, m, d, date);
    assert FormatDate(date) == y + "-" + m + "-" + d;
  }

  /** The three fields `WellFormedDay` reads from `y-MM-DD`. */
  lemma DayTextFields(y: string, m: string, d: string)
    requires |m| == 2 && |d| == 2
    ensures var s := y + "-" + m + "-" + d;
      |s| == |y| + 6 && s[..|s| - 6] == y && s[|s| - 5..|s| - 3] == m && s[|s| - 2..] == d
      && s[|s| - 6] == '-' && s[|s| - 3] == '-'
  {
  }

  /** The value of a four-digit year text. */
  lemma YearValue(y: string)
    requires |y| == 4 && AllDigits(y)
    ensures DigitsValue(y) == DigitValue(y[0]) * 1000 + DigitValue(y[1]) * 100 + DigitValue(y[2]) * 10 + DigitValue(y[3])
  {
    assert y == [y[0]] + [y[1]] + [y[2]] + [y[3]];
    DigitsValueSnoc([], y[0]);
    DigitsValueSnoc([y[0]], y[1]);
    DigitsValueSnoc([y[0]] + [y[1]], y[2]);
    DigitsValueSnoc([y[0]] + [y[1]] + [y[2]], y[3]);
  }

  /** The value of a two-digit field text. */
  lemma FieldValue(f: string)
    requires |f| == 2 && AllDigits(f)
    ensures DigitsValue(f) == DigitValue(f[0]) * 10 + DigitValue(f[1])
  {
    assert f == [f[0]] + [f[1]];
    DigitsValueSnoc([], f[0]);
    DigitsValueSnoc([f[0]], f[1]);
  }

  /** `WellFormedDay` of a text built from a four-digit year and two two-digit fields. */
  lemma WellFormedDayOf(y: string, m: string, d: string)
    requires |y| == 4 && |m| == 2 && |d| == 2 && AllDigits(y) && AllDigits(m) && AllDigits(d)
    ensures WellFormedDay(y + "-" + m + "-" + d) <==>
      y[0] != '0' && RealDay(DigitValue(y[0]) * 1000 + DigitValue(y[1]) * 100 + DigitValue(y[2]) * 10 + DigitValue(y[3]),
                             DigitValue(m[0]) * 10 + DigitValue(m[1]), DigitValue(d[0]) * 10 + DigitValue(d[1]))
  {
    DayTextFields(y, m, d);
    YearValue(y);
    FieldValue(m);
    FieldValue(d);
  }

  /** February 29 is a day in a leap year and not in another year. */
  lemma LeapDayExamples()
    ensures WellFormedDay("2024-02-29")
    ensures !WellFormedDay("2023-02-29")
  {
    assert WellFormedDay("2024-02-29") by {
      WellFormedDayOf("2024", "02", "29");
      assert "2024" + "-" + "02" + "-" + "29" == "2024-02-29";
    }
    WellFormedDayOf("2023", "02", "29");
    assert "2023" + "-" + "02" + "-" + "29" == "2023-02-29";
  }

  /** A day past the end of its month and a thirteenth month are not calendar days. */
  lemma OutOfRangeDayExamples()
    ensures !WellFormedDay("2024-02-30")
    ensures !WellFormedDay("2024-13-01")
  {
    assert !WellFormedDay("2024-02-30") by {
      WellFormedDayOf("2024", "02", "30");
      assert "2024" + "-" + "02" + "-" + "30" == "2024-02-30";
    }
    WellFormedDayOf("2024", "13", "01");
    assert "2024" + "-" + "13" + "-" + "01" == "2024-13-01";
  }
}
