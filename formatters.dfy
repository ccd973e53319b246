/**
 * The display and calendar formatters: cutting long text, naming a month,
 * appending a time, and the `YYYY-MM-DD` strings of a month's first and
 * last day and of today. Dates come in as the year, month (1 to 12) and
 * day a JavaScript `Date` reports; reading them from the clock is left out.
 */
module Formatters {
  import opened Wrappers
  import opened Text
  import opened JsNumbers

  // ---------------------------------------------------------------------------
  // Text

  const ELLIPSIS: string := "..."

  /**
   * `truncateText`: text that fits is kept; longer text keeps its first
   * `maxLength - 3` characters (none when that is negative) and gets "...".
   */
  function TruncateText(text: string, maxLength: int): (r: string)
    ensures |text| <= maxLength ==> r == text
    ensures |text| > maxLength && maxLength >= 3 ==>
      |r| == maxLength && r[..maxLength - 3] == text[..maxLength - 3] && r[maxLength - 3..] == ELLIPSIS
    ensures |text| > maxLength && maxLength < 3 ==> r == ELLIPSIS
  {
    if |text| <= maxLength then text
    else
      var keep := if maxLength - 3 < 0 then 0 else maxLength - 3;
      text[..keep] + ELLIPSIS
  }

  /** With room for the ellipsis, the result always fits and truncating again changes nothing. */
  lemma {:induction false} TruncateFits(text: string, maxLength: int)
    requires maxLength >= 3
    ensures |TruncateText(text, maxLength)| <= maxLength
    ensures TruncateText(TruncateText(text, maxLength), maxLength) == TruncateText(text, maxLength)
    ensures |text| > maxLength ==> TruncateText(text, maxLength) != text
  {
    if |text| > maxLength {
      assert |TruncateText(text, maxLength)| == maxLength < |text|;
    }
  }

  /**
   * `formatDateTime` given what `formatDate` made of the date: a present,
   * non-empty time is appended after " в "; otherwise the date stands alone.
   */
  function FormatDateTime(formattedDate: string, timeString: Option<string>): (r: string)
    ensures |r| >= |formattedDate| && r[..|formattedDate|] == formattedDate
    ensures r == formattedDate <==> timeString.None? || timeString.value == []
    ensures timeString.Some? && timeString.value != [] ==>
      |r| == |formattedDate| + 3 + |timeString.value| && r[|formattedDate| + 3..] == timeString.value
  {
    match timeString
    case Some(t) =>
      if t != [] then
        var r := formattedDate + " в " + t;
        assert r[..|formattedDate|] == formattedDate;
        r
      else formattedDate
    case None => formattedDate
  }

  // ---------------------------------------------------------------------------
  // Months

  const MONTH_NAMES: seq<string> := ["Януари", "Февруари", "Март", "Април", "Май", "Юни",
                                      "Юли", "Август", "Септември", "Октомври", "Ноември", "Декември"]

  /** `monthNames[n - 1]` for a parsed month number; a missing entry prints as "undefined". */
  function MonthName(n: Option<int>): (r: string)
    ensures r != []
    ensures r in MONTH_NAMES || r == "undefined"
    ensures r == "undefined" <==> !(n.Some? && 1 <= n.value <= 12)
  {
    if n.Some? && 1 <= n.value <= 12 then
      var name := MONTH_NAMES[n.value - 1];
      assert name[0] != 'u';
      name
    else "undefined"
  }

  /**
   * `formatMonth`: the string is split at '-', the second piece read as a
   * month number names the month, and the first piece, the year, follows
   * after a space.
   */
  function FormatMonth(monthString: string): string {
    var parts := Split(monthString, '-');
    var monthNumber := if |parts| >= 2 then ParseInt(parts[1]) else None;
    MonthName(monthNumber) + " " + parts[0]
  }

  /**
   * A formatted month ends in a space and the year piece, and names the
   * month "undefined" exactly when the month piece is not a number from 1 to 12.
   */
  lemma FormatMonthParts(monthString: string)
    ensures var year := Split(monthString, '-')[0]; var r := FormatMonth(monthString);
      |r| > |year| + 1 && r[|r| - |year| - 1..] == " " + year
    ensures var parts := Split(monthString, '-'); var r := FormatMonth(monthString);
      (r[..|r| - |parts[0]| - 1] == "undefined" <==>
        !(|parts| >= 2 && ParseInt(parts[1]).Some? && 1 <= ParseInt(parts[1]).value <= 12))
    ensures var year := Split(monthString, '-')[0]; var r := FormatMonth(monthString);
      r[..|r| - |year| - 1] in MONTH_NAMES || r[..|r| - |year| - 1] == "undefined"
  {
    var parts := Split(monthString, '-');
    var n := if |parts| >= 2 then ParseInt(parts[1]) else None;
    assert FormatMonth(monthString) == MonthName(n) + " " + parts[0];
    NamedYear(MonthName(n), parts[0], n.Some? && 1 <= n.value <= 12);
  }

  /** A name, a space and a year can be read back, and so can whether the name is "undefined". */
  lemma NamedYear(name: string, year: string, known: bool)
    requires name != [] && (name == "undefined" <==> !known)
    ensures var r := name + " " + year;
      |r| > |year| + 1 && r[|r| - |year| - 1..] == " " + year
      && r[..|r| - |year| - 1] == name
      && (r[..|r| - |year| - 1] == "undefined" <==> !known)
  {
    SpaceJoined(name, year);
  }

  /** A string without '-' has no month piece and prints as "undefined" and itself. */
  lemma FormatMonthNoDash(monthString: string)
    requires '-' !in monthString
    ensures FormatMonth(monthString) == "undefined " + monthString
  {
  }

  /** The two halves of `a + " " + b` can be read back. */
  lemma SpaceJoined(a: string, b: string)
    ensures (a + " " + b)[..|a|] == a && (a + " " + b)[|a|..] == " " + b
  {
  }

  /** The decimal digits of `n`, padded with '0' on the left to at least two characters. */
  function TwoDigits(n: nat): (r: string)
    ensures AllDigits(r)
    ensures n < 100 ==> |r| == 2
  {
    NatToStringLength(n);
    PadStart(NatToString(n), 2, '0')
  }

  /** A zero-padded number still reads as itself. */
  lemma TwoDigitsValue(n: nat)
    requires n < 100
    ensures DigitsValue(TwoDigits(n)) == n
    ensures ParseInt(TwoDigits(n)) == Some(n)
  {
    NatToStringLength(n);
    var s := NatToString(n);
    var r := TwoDigits(n);
    if n < 10 {
      assert r == ['0'] + s;
      LeadingZeroValue(s);
    }
    ParseIntDigits(r);
  }

  /** A leading zero does not change the value of a run of digits. */
  lemma {:induction false} LeadingZeroValue(s: string)
    requires AllDigits(s)
    ensures AllDigits(['0'] + s) && DigitsValue(['0'] + s) == DigitsValue(s)
    decreases |s|
  {
    var z := ['0'] + s;
    if s == [] {
      assert DigitsValue(z) == DigitsValue(z[..0]) * 10 + DigitValue('0');
    } else {
      var init := s[..|s| - 1];
      LeadingZeroValue(init);
      assert z[..|z| - 1] == ['0'] + init;
    }
  }

  /**
   * A `YYYY-MM` string with a month from 1 to 12, padded or not, is named by
   * that month and its year; anything after a further '-' is ignored.
   */
  lemma FormatMonthOf(year: string, mm: string, month: nat, rest: seq<string>)
    requires 1 <= month <= 12 && '-' !in year
    requires |mm| > 0 && AllDigits(mm) && DigitsValue(mm) == month
    requires forall p :: p in rest ==> '-' !in p
    ensures FormatMonth(Join([year, mm] + rest, '-')) == MONTH_NAMES[month - 1] + " " + year
  {
    var parts := [year, mm] + rest;
    var s := Join(parts, '-');
    assert Split(s, '-') == parts by {
      DigitsOnly(mm, '-');
      forall p | p in parts
        ensures '-' !in p
      {
        assert p == year || p == mm || p in rest;
      }
      SplitJoin(parts, '-');
    }
    assert ParseInt(parts[1]) == Some(month) by {
      ParseIntDigits(mm);
    }
    FormatMonthOfPieces(s, year, month);
  }

  /** `formatMonth` reads only the first two pieces. */
  lemma FormatMonthOfPieces(monthString: string, year: string, month: nat)
    requires 1 <= month <= 12
    requires |Split(monthString, '-')| >= 2 && Split(monthString, '-')[0] == year
    requires ParseInt(Split(monthString, '-')[1]) == Some(month)
    ensures FormatMonth(monthString) == MONTH_NAMES[month - 1] + " " + year
  {
    MonthNameOf(ParseInt(Split(monthString, '-')[1]), month);
  }

  /** The name of a month number from 1 to 12 is its entry of the table. */
  lemma MonthNameOf(n: Option<int>, month: nat)
    requires 1 <= month <= 12 && n == Some(month)
    ensures MonthName(n) == MONTH_NAMES[month - 1]
  {
  }

  // ---------------------------------------------------------------------------
  // Calendar

  /** Gregorian leap years. */
  predicate IsLeapYear(y: int) {
    y % 4 == 0 && (y % 100 != 0 || y % 400 == 0)
  }

  /** The number of days of month `m` (1 to 12) of year `y`. */
  function DaysInMonth(y: int, m: nat): (r: nat)
    requires 1 <= m <= 12
    ensures 28 <= r <= 31
    ensures m == 2 ==> (r == 29 <==> IsLeapYear(y))
  {
    if m == 2 then (if IsLeapYear(y) then 29 else 28)
    else if m == 4 || m == 6 || m == 9 || m == 11 then 30
    else 31
  }

  /** The days of the twelve months add up to the length of the year. */
  lemma YearLength(y: int)
    ensures DaysInMonth(y, 1) + DaysInMonth(y, 2) + DaysInMonth(y, 3) + DaysInMonth(y, 4)
      + DaysInMonth(y, 5) + DaysInMonth(y, 6) + DaysInMonth(y, 7) + DaysInMonth(y, 8)
      + DaysInMonth(y, 9) + DaysInMonth(y, 10) + DaysInMonth(y, 11) + DaysInMonth(y, 12)
      == if IsLeapYear(y) then 366 else 365
  {
  }

  /** `new Date(year, ...)` reads a year from 0 to 99 as 1900 + year. */
  function DateConstructorYear(year: nat): nat {
    if year <= 99 then 1900 + year else year
  }

  /**
   * `new Date(year, month, 0).getDate()`: day 0 of the following month is
   * the last day of month `month`, in the year the constructor reads.
   */
  function LastDay(year: nat, month: nat): (r: nat)
    requires 1 <= month <= 12
  {
    DaysInMonth(DateConstructorYear(year), month)
  }

  /**
   * The last day is the length of the month, except in February of year 0,
   * which the constructor reads as 1900, not a leap year.
   */
  lemma LastDayIsMonthLength(year: nat, month: nat)
    requires 1 <= month <= 12
    ensures 28 <= LastDay(year, month) <= 31
    ensures year == 0 && month == 2 ==> LastDay(year, month) == 28 && DaysInMonth(year, month) == 29
    ensures year != 0 || month != 2 ==> LastDay(year, month) == DaysInMonth(year, month)
  {
    if 1 <= year <= 99 {
      assert (1900 + year) % 4 == 0 <==> year % 4 == 0;
      assert (1900 + year) % 100 == year;
    }
  }

  /** `getMonthStart`: `${year}-${MM}-01`. */
  function GetMonthStart(year: nat, month: nat): (r: string)
    requires 1 <= month <= 12
    ensures |r| == |NatToString(year)| + 6
  {
    NatToString(year) + "-" + TwoDigits(month) + "-01"
  }

  /** `getMonthEnd`: `${year}-${MM}-${lastDay}`, the day not padded. */
  function GetMonthEnd(year: nat, month: nat): (r: string)
    requires 1 <= month <= 12
    ensures |r| == |NatToString(year)| + 6
    ensures r[..|NatToString(year)| + 4] == GetMonthStart(year, month)[..|NatToString(year)| + 4]
    ensures r[|NatToString(year)| + 4..] == NatToString(LastDay(year, month))
  {
    LastDayIsMonthLength(year, month);
    NatToStringLength(LastDay(year, month));
    var prefix := NatToString(year) + "-" + TwoDigits(month) + "-";
    var r := prefix + NatToString(LastDay(year, month));
    assert r[..|prefix|] == prefix == GetMonthStart(year, month)[..|prefix|];
    r
  }

  /** `getToday`: `${year}-${MM}-${DD}`. */
  function GetToday(year: nat, month: nat, day: nat): (r: string)
    requires 1 <= month <= 12 && 1 <= day <= 31
    ensures |r| == |NatToString(year)| + 6
  {
    NatToString(year) + "-" + TwoDigits(month) + "-" + TwoDigits(day)
  }

  /** The first of the month is the month's start. */
  lemma TodayOnFirst(year: nat, month: nat)
    requires 1 <= month <= 12
    ensures GetToday(year, month, 1) == GetMonthStart(year, month)
  {
    NatToStringLength(1);
    assert TwoDigits(1) == "01";
  }

  /** The last day of the month is the month's end: the day needs no padding. */
  lemma TodayOnLast(year: nat, month: nat)
    requires 1 <= month <= 12
    ensures GetToday(year, month, LastDay(year, month)) == GetMonthEnd(year, month)
  {
    NatToStringLength(LastDay(year, month));
  }

  /**
   * Today's string reads back: split at '-', it gives the year, month and
   * day, and `parseInt` of each piece gives the numbers back.
   */
  lemma TodayRoundTrip(year: nat, month: nat, day: nat)
    requires 1 <= month <= 12 && 1 <= day <= 31
    ensures var parts := Split(GetToday(year, month, day), '-');
      |parts| == 3 && parts[0] == NatToString(year)
      && ParseInt(parts[0]) == Some(year as int)
      && ParseInt(parts[1]) == Some(month as int)
      && ParseInt(parts[2]) == Some(day as int)
  {
    var y := NatToString(year);
    var parts := [y, TwoDigits(month), TwoDigits(day)];
    DigitsOnly(y, '-');
    DigitsOnly(TwoDigits(month), '-');
    DigitsOnly(TwoDigits(day), '-');
    JoinThree(y, TwoDigits(month), TwoDigits(day), '-');
    SplitJoin(parts, '-');
    ParseIntNatToString(year);
    TwoDigitsValue(month);
    TwoDigitsValue(day);
  }

  /** `formatMonth` of today's date names the current month and year. */
  lemma TodayMonthName(year: nat, month: nat, day: nat)
    requires 1 <= month <= 12 && 1 <= day <= 31
    ensures FormatMonth(GetToday(year, month, day)) == MONTH_NAMES[month - 1] + " " + NatToString(year)
  {
    TodayRoundTrip(year, month, day);
    FormatMonthOfPieces(GetToday(year, month, day), NatToString(year), month);
  }

  /** A month's start is named by `formatMonth` as that month of that year. */
  lemma MonthStartName(year: nat, month: nat)
    requires 1 <= month <= 12
    ensures FormatMonth(GetMonthStart(year, month)) == MONTH_NAMES[month - 1] + " " + NatToString(year)
  {
    TodayOnFirst(year, month);
    TodayMonthName(year, month, 1);
  }

}
