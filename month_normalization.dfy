/**
 * normalizeMonth: the month cell of a row becomes a "Mon-YY" label when it
 * is an Excel serial day or a string the date parser understands, the
 * number itself when it looks like a year, the trimmed text otherwise, and
 * "" when the cell is empty.
 *
 * The host's date-string parser (`new Date(string)`) is not modelled: it is
 * the parameter `parseDate`, which yields a time value in milliseconds since
 * 1970-01-01T00:00Z, or None where the host yields NaN.
 */
module MonthNormalization {
  import opened Wrappers
  import opened Strings
  import opened CivilDate
  import opened Cells

  /** Days from the Excel epoch (1899-12-30) to the JavaScript epoch (1970-01-01). */
  const ExcelEpochOffset: int := 25569
  const MsPerDay: int := 86400000
  /** The largest magnitude of a valid time value (section 21.4.1.31 of ECMA-262, TimeClip). */
  const MaxTimeValue: int := 8640000000000000

  const MonthNames: seq<string> := ["Jan", "Feb", "Mar", "Apr", "May", "Jun", "Jul", "Aug", "Sep", "Oct", "Nov", "Dec"]

  /** A Date object: Some(time value), or None for an Invalid Date. */
  function TimeClip(t: int): (r: Option<int>)
    ensures r.Some? <==> -MaxTimeValue <= t <= MaxTimeValue
    ensures r.Some? ==> r.value == t
  {
    if -MaxTimeValue <= t <= MaxTimeValue then Some(t) else None
  }

  /** `getUTCFullYear().toString().slice(-2)`: at most the last two characters of the decimal year. */
  function YearSuffix(y: int): (r: string)
    ensures 1 <= |r| <= 2
    ensures y >= 10 ==> r == [DigitChar(y / 10 % 10), DigitChar(y % 10)]
    ensures 0 <= y < 10 ==> r == [DigitChar(y)]
  {
    var s := IntToString(y);
    if |s| <= 2 then s else s[|s| - 2..]
  }

  /**
   * The template `${monthNames[getUTCMonth()]}-${year}` applied to a Date; on an
   * Invalid Date the month is undefined and the year NaN, so the text is "undefined-aN".
   */
  function MonthYearLabel(date: Option<int>): (r: string)
    ensures |r| >= 5
  {
    match date
    case None => "undefined-aN"
    case Some(t) =>
      var d := CivilFromDays(t / MsPerDay);
      MonthNames[d.month - 1] + "-" + YearSuffix(d.year)
  }

  /** normalizeMonth. */
  function NormalizeMonth(value: Cell, parseDate: string -> Option<int>): (r: string)
    ensures r == [] <==> value.Blank? || (value.Str? && AllWhitespace(value.s))
  {
    match value
    case Blank => ""
    case Num(n) =>
      if 1900 < n < 2100 then IntToString(n)
      else MonthYearLabel(TimeClip((n - ExcelEpochOffset) * MsPerDay))
    case Str(s) =>
      TrimShape(s);
      var trimmed := Trim(s);
      if trimmed == "" then ""
      else
        var date := if parseDate(trimmed).Some? then TimeClip(parseDate(trimmed).value) else None;
        if date.Some? then MonthYearLabel(date) else trimmed
    case Bool(b) => if b then "true" else "false"
  }

  /** The label of a valid date: its month's short name, a dash, and its year's last two digits. */
  function DateLabel(d: Date): string
    requires Valid(d)
  {
    MonthNames[d.month - 1] + "-" + YearSuffix(d.year)
  }

  /**
   * An Excel serial day (other than one that looks like a year, and within
   * the Date range) is labelled with the month and year of the date it counts.
   */
  lemma SerialDayLabel(d: Date, parseDate: string -> Option<int>)
    requires Valid(d)
    requires -100000000 <= DaysFromCivil(d) <= 100000000
    requires !(1900 < DaysFromCivil(d) + ExcelEpochOffset < 2100)
    ensures NormalizeMonth(Num(DaysFromCivil(d) + ExcelEpochOffset), parseDate) == DateLabel(d)
  {
    var z := DaysFromCivil(d);
    SerialDayTime(z, parseDate);
    DayLabel(d);
  }

  /** A serial day within the Date range becomes the time value of midnight UTC of that day. */
  lemma SerialDayTime(z: int, parseDate: string -> Option<int>)
    requires -100000000 <= z <= 100000000
    requires !(1900 < z + ExcelEpochOffset < 2100)
    ensures NormalizeMonth(Num(z + ExcelEpochOffset), parseDate) == MonthYearLabel(Some(z * MsPerDay))
  {
    assert (z + ExcelEpochOffset - ExcelEpochOffset) * MsPerDay == z * MsPerDay;
    assert TimeClip(z * MsPerDay) == Some(z * MsPerDay);
  }

  /** Midnight UTC of a valid date is labelled with that date's month and year. */
  lemma DayLabel(d: Date)
    requires Valid(d)
    ensures MonthYearLabel(Some(DaysFromCivil(d) * MsPerDay)) == DateLabel(d)
  {
    var z := DaysFromCivil(d);
    DivisionByDay(z * MsPerDay, z);
    CivilFromDaysOfCivil(d);
  }

  /** A string the date parser accepts is labelled with the month and year of the UTC day it falls on. */
  lemma ParsedDateLabel(s: string, parseDate: string -> Option<int>, d: Date)
    requires Trim(s) != [] && parseDate(Trim(s)).Some?
    requires -MaxTimeValue <= parseDate(Trim(s)).value <= MaxTimeValue
    requires Valid(d)
    requires DaysFromCivil(d) * MsPerDay <= parseDate(Trim(s)).value < (DaysFromCivil(d) + 1) * MsPerDay
    ensures NormalizeMonth(Str(s), parseDate) == DateLabel(d)
  {
    var t := parseDate(Trim(s)).value;
    var z := DaysFromCivil(d);
    DivisionByDay(t, z);
    CivilFromDaysOfCivil(d);
  }

  lemma DivisionByDay(t: int, z: int)
    requires z * MsPerDay <= t < (z + 1) * MsPerDay
    ensures t / MsPerDay == z
  {
  }

  /**
   * Text the date parser rejects ("Q1 2024", say), or whose time value lies outside
   * the Date range, is kept, trimmed.
   */
  lemma UnparsedTextKept(s: string, parseDate: string -> Option<int>)
    requires parseDate(Trim(s)).None? || !(-MaxTimeValue <= parseDate(Trim(s)).value <= MaxTimeValue)
    ensures NormalizeMonth(Str(s), parseDate) == Trim(s)
  {
  }

  /** A boolean cell is neither a number nor a string: it becomes its own text. */
  lemma BooleanCellText(b: bool, parseDate: string -> Option<int>)
    ensures NormalizeMonth(Bool(b), parseDate) == if b then "true" else "false"
  {
  }

  /** A number strictly between 1900 and 2100 is taken for a year and kept as its decimal text. */
  lemma YearKept(n: int, parseDate: string -> Option<int>)
    requires 1900 < n < 2100
    ensures NormalizeMonth(Num(n), parseDate) == [DigitChar(n / 1000 % 10), DigitChar(n / 100 % 10), DigitChar(n / 10 % 10), DigitChar(n % 10)]
  {
    assert NatToString(n / 1000) == [DigitChar(n / 1000 % 10)];
    assert NatToString(n / 100) == NatToString(n / 1000) + [DigitChar(n / 100 % 10)];
    assert NatToString(n / 10) == NatToString(n / 100) + [DigitChar(n / 10 % 10)];
    assert NatToString(n) == NatToString(n / 10) + [DigitChar(n % 10)];
  }

  /** A serial day beyond the Date range makes an Invalid Date, which still reaches the template. */
  lemma OutOfRangeSerial(n: int, parseDate: string -> Option<int>)
    requires n > ExcelEpochOffset + 100000000 || n < ExcelEpochOffset - 100000000
    ensures NormalizeMonth(Num(n), parseDate) == "undefined-aN"
  {
  }

  /** Day 25569 is the JavaScript epoch: January 1970. */
  lemma EpochSerialIsJan70(parseDate: string -> Option<int>)
    ensures NormalizeMonth(Num(25569), parseDate) == "Jan-70"
  {
    SerialExample(Date(1970, 1, 1), 25569, "Jan-70", parseDate);
  }

  /** Serial 45292 counts to 2024-01-01. */
  lemma Serial45292IsJan24(parseDate: string -> Option<int>)
    ensures NormalizeMonth(Num(45292), parseDate) == "Jan-24"
  {
    SerialExample(Date(2024, 1, 1), 45292, "Jan-24", parseDate);
  }

  /** Serial 0 is the Excel epoch itself, 1899-12-30. */
  lemma SerialZeroIsDec99(parseDate: string -> Option<int>)
    ensures NormalizeMonth(Num(0), parseDate) == "Dec-99"
  {
    SerialExample(Date(1899, 12, 30), 0, "Dec-99", parseDate);
  }

  /** 1900 itself is not taken for a year: as a serial day it is 1905-03-14. */
  lemma Year1900IsSerial(parseDate: string -> Option<int>)
    ensures NormalizeMonth(Num(1900), parseDate) == "Mar-05"
  {
    SerialExample(Date(1905, 3, 14), 1900, "Mar-05", parseDate);
  }

  lemma SerialExample(d: Date, n: int, text: string, parseDate: string -> Option<int>)
    requires Valid(d) && DaysFromCivil(d) + ExcelEpochOffset == n
    requires -100000000 <= DaysFromCivil(d) <= 100000000 && !(1900 < n < 2100)
    requires DateLabel(d) == text
    ensures NormalizeMonth(Num(n), parseDate) == text
  {
    SerialDayLabel(d, parseDate);
  }
}
