// The date and time of a hearing: datetime.strptime(fecha + " " + hora,
// "%d/%m/%Y %H:%M") as the ledger calls it (excel_utils.py:101-114).
// strptime turns the format into the pattern
//   day/month/year whitespace+ hour:minute
// where each directive only accepts the alternatives listed below; the match
// starts at the front and the whole text must be consumed. The date must then
// exist in the Gregorian calendar, with a year from 1 to 9999.

module FechaHora {
  import opened PyText
  import opened Schema

  datatype DateTime = DateTime(year: int, month: int, day: int, hour: int, minute: int)

  predicate IsLeap(y: int) {
    y % 4 == 0 && (y % 100 != 0 || y % 400 == 0)
  }

  function DaysInMonth(y: int, m: int): (n: int)
    requires 1 <= m <= 12
    ensures 28 <= n <= 31
  {
    if m == 2 then (if IsLeap(y) then 29 else 28)
    else if m == 4 || m == 6 || m == 9 || m == 11 then 30
    else 31
  }

  /** A date and time Python's datetime accepts. */
  predicate ValidDateTime(dt: DateTime) {
    1 <= dt.year <= 9999 && 1 <= dt.month <= 12 && 1 <= dt.day <= DaysInMonth(dt.year, dt.month)
    && 0 <= dt.hour <= 23 && 0 <= dt.minute <= 59
  }

  /** Chronological order, which is the order of the fields. */
  predicate Earlier(a: DateTime, b: DateTime) {
    a.year < b.year
    || (a.year == b.year && (a.month < b.month
    || (a.month == b.month && (a.day < b.day
    || (a.day == b.day && (a.hour < b.hour
    || (a.hour == b.hour && a.minute < b.minute)))))))
  }

  lemma EarlierIsStrictOrder(a: DateTime, b: DateTime, c: DateTime)
    ensures !Earlier(a, a)
    ensures Earlier(a, b) ==> !Earlier(b, a)
    ensures Earlier(a, b) && Earlier(b, c) ==> Earlier(a, c)
    ensures a == b || Earlier(a, b) || Earlier(b, a)
  {
  }

  function Digit(c: char): int {
    c as int - '0' as int
  }

  function TwoDigits(t: string): int
    requires |t| == 2
  {
    10 * Digit(t[0]) + Digit(t[1])
  }

  /** %d: `3[01]|[12]\d|0[1-9]|[1-9]| [1-9]` */
  function DayToken(t: string): (v: Option<int>)
    ensures v.Some? ==> 1 <= v.value <= 31
  {
    if |t| == 1 && '1' <= t[0] <= '9' then Some(Digit(t[0]))
    else if |t| == 2 && t[0] == ' ' && '1' <= t[1] <= '9' then Some(Digit(t[1]))
    else if |t| == 2 && IsDigit(t[0]) && IsDigit(t[1]) && 1 <= TwoDigits(t) <= 31 then Some(TwoDigits(t))
    else None
  }

  /** %m: `1[0-2]|0[1-9]|[1-9]` */
  function MonthToken(t: string): (v: Option<int>)
    ensures v.Some? ==> 1 <= v.value <= 12
  {
    if |t| == 1 && '1' <= t[0] <= '9' then Some(Digit(t[0]))
    else if |t| == 2 && IsDigit(t[0]) && IsDigit(t[1]) && 1 <= TwoDigits(t) <= 12 then Some(TwoDigits(t))
    else None
  }

  /** %H: `2[0-3]|[0-1]\d|\d` */
  function HourToken(t: string): (v: Option<int>)
    ensures v.Some? ==> 0 <= v.value <= 23
  {
    if |t| == 1 && IsDigit(t[0]) then Some(Digit(t[0]))
    else if |t| == 2 && IsDigit(t[0]) && IsDigit(t[1]) && TwoDigits(t) <= 23 then Some(TwoDigits(t))
    else None
  }

  /** %M: `[0-5]\d|\d` */
  function MinuteToken(t: string): (v: Option<int>)
    ensures v.Some? ==> 0 <= v.value <= 59
  {
    if |t| == 1 && IsDigit(t[0]) then Some(Digit(t[0]))
    else if |t| == 2 && IsDigit(t[0]) && IsDigit(t[1]) && TwoDigits(t) <= 59 then Some(TwoDigits(t))
    else None
  }

  /** %Y: exactly four digits. */
  function YearToken(t: string): (v: Option<int>)
    ensures v.Some? ==> 0 <= v.value <= 9999
  {
    if |t| == 4 && IsDigit(t[0]) && IsDigit(t[1]) && IsDigit(t[2]) && IsDigit(t[3])
    then Some(1000 * Digit(t[0]) + 100 * Digit(t[1]) + 10 * Digit(t[2]) + Digit(t[3]))
    else None
  }

  /** Index of the first c in s at or after from, or |s|. */
  function IndexOf(s: string, c: char, from: nat): (i: nat)
    requires from <= |s|
    ensures from <= i <= |s|
    ensures i < |s| ==> s[i] == c
    ensures forall j :: from <= j < i ==> s[j] != c
    decreases |s| - from
  {
    if from == |s| || s[from] == c then from else IndexOf(s, c, from + 1)
  }

  /** Index of the first non-whitespace character at or after from, or |s|. */
  function SkipSpaces(s: string, from: nat): (i: nat)
    requires from <= |s|
    ensures from <= i <= |s|
    ensures i < |s| ==> !IsSpace(s[i])
    ensures forall j :: from <= j < i ==> IsSpace(s[j])
    decreases |s| - from
  {
    if from == |s| || !IsSpace(s[from]) then from else SkipSpaces(s, from + 1)
  }

  /** strptime(s, "%d/%m/%Y %H:%M"). No directive can take in a '/', so the
      day runs up to the first '/' and the month up to the second; the hour
      cannot begin with whitespace, so the run of whitespace after the year is
      taken whole, and the hour runs up to the next ':'; the minute is the
      rest. */
  function ParseText(s: string): (r: Option<DateTime>)
    ensures r.Some? ==> ValidDateTime(r.value)
  {
    var i1 := IndexOf(s, '/', 0);
    if i1 == |s| then None
    else
      var i2 := IndexOf(s, '/', i1 + 1);
      if i2 + 5 >= |s| || !IsSpace(s[i2 + 5]) then None
      else
        var k := SkipSpaces(s, i2 + 5);
        var i3 := IndexOf(s, ':', k);
        if i3 == |s| then None
        else
          var d := DayToken(s[..i1]);
          var m := MonthToken(s[i1 + 1..i2]);
          var y := YearToken(s[i2 + 1..i2 + 5]);
          var h := HourToken(s[k..i3]);
          var mi := MinuteToken(s[i3 + 1..]);
          if d.None? || m.None? || y.None? || h.None? || mi.None? then None
          else if y.value < 1 || d.value > DaysInMonth(y.value, m.value) then None
          else Some(DateTime(y.value, m.value, d.value, h.value, mi.value))
  }

  function Pad2(n: int): (t: string)
    requires 0 <= n <= 99
    ensures |t| == 2 && IsDigit(t[0]) && IsDigit(t[1]) && TwoDigits(t) == n
  {
    [DigitChar(n / 10), DigitChar(n % 10)]
  }

  function Pad4(n: int): (t: string)
    requires 0 <= n <= 9999
    ensures YearToken(t) == Some(n)
  {
    assert n == 10 * (n / 10) + n % 10;
    assert n / 10 == 10 * (n / 100) + n / 10 % 10;
    assert n / 100 == 10 * (n / 1000) + n / 100 % 10;
    [DigitChar(n / 1000), DigitChar(n / 100 % 10), DigitChar(n / 10 % 10), DigitChar(n % 10)]
  }

  /** Fields that fit the pattern's digits: any day of 1..31 with any month,
      including dates the calendar lacks, and year 0. */
  predicate WellShaped(dt: DateTime) {
    0 <= dt.year <= 9999 && 1 <= dt.month <= 12 && 1 <= dt.day <= 31
    && 0 <= dt.hour <= 23 && 0 <= dt.minute <= 59
  }

  /** dt as "dd/mm/yyyy". */
  function FormatFecha(dt: DateTime): string
    requires WellShaped(dt)
  {
    Pad2(dt.day) + "/" + Pad2(dt.month) + "/" + Pad4(dt.year)
  }

  /** dt as "HH:MM". */
  function FormatHora(dt: DateTime): string
    requires WellShaped(dt)
  {
    Pad2(dt.hour) + ":" + Pad2(dt.minute)
  }

  /** A date and time written as "dd/mm/yyyy HH:MM" parses back to itself
      exactly when it exists in the calendar (so 31/04 and 29/02 of a common
      year, and year 0000, are rejected). */
  lemma ParseFormatted(dt: DateTime)
    requires WellShaped(dt)
    ensures ParseText(FormatFecha(dt) + " " + FormatHora(dt))
         == if ValidDateTime(dt) then Some(dt) else None
  {
    var s := FormatFecha(dt) + " " + FormatHora(dt);
    FormattedPieces(dt);
    FormattedSeparators(s);
  }

  /** The formatted text is sixteen characters: the two-digit and
      four-digit fields between fixed separators. */
  lemma FormattedPieces(dt: DateTime)
    requires WellShaped(dt)
    ensures var s := FormatFecha(dt) + " " + FormatHora(dt);
      && |s| == 16 && s[2] == '/' && s[5] == '/' && s[10] == ' ' && s[13] == ':'
      && s[..2] == Pad2(dt.day) && s[3..5] == Pad2(dt.month) && s[6..10] == Pad4(dt.year)
      && s[11..13] == Pad2(dt.hour) && s[14..] == Pad2(dt.minute)
  {
    var s := FormatFecha(dt) + " " + FormatHora(dt);
    var dd, mm, yy, hh, mi := Pad2(dt.day), Pad2(dt.month), Pad4(dt.year), Pad2(dt.hour), Pad2(dt.minute);
    assert s == dd + "/" + mm + "/" + yy + " " + hh + ":" + mi;
  }

  /** Where the parser finds the separators of such a text. */
  lemma FormattedSeparators(s: string)
    requires |s| == 16 && s[2] == '/' && s[5] == '/' && s[10] == ' ' && s[13] == ':'
    requires forall i :: 0 <= i < 2 || 3 <= i < 5 || 6 <= i < 10 || 11 <= i < 13 || 14 <= i < 16 ==> IsDigit(s[i])
    ensures IndexOf(s, '/', 0) == 2 && IndexOf(s, '/', 3) == 5
    ensures SkipSpaces(s, 10) == 11 && IndexOf(s, ':', 11) == 13
  {
  }
}
