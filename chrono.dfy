// Instants, zones and the parts of Go's time package the service uses:
// time.Parse with the DWD layouts, In, Before/After, IsZero, Sub and Add.
module Chrono {
  import opened Common
  import opened Numbers

  /** Locations a timestamp can carry. EtcGmtMinus1 is "Etc/GMT-1", a fixed UTC+1. */
  datatype Zone = UTC | EtcGmtMinus1 | OtherZone(name: string)

  /**
   * A time.Time: the instant as nanoseconds since 0001-01-01 00:00 UTC and
   * the location it is presented in.
   */
  datatype Time = Time(ns: int, zone: Zone)

  /** The zero time.Time{}. */
  const ZeroTime: Time := Time(0, UTC)

  predicate IsZero(t: Time) { t.ns == 0 }
  predicate Before(t: Time, u: Time) { t.ns < u.ns }
  predicate After(t: Time, u: Time) { t.ns > u.ns }

  /** t.In(z): the same instant presented in another location. */
  function In(t: Time, z: Zone): (r: Time)
    ensures r.ns == t.ns && r.zone == z
  {
    Time(t.ns, z)
  }

  /** t.Add(d) for a Duration d in nanoseconds. */
  function Add(t: Time, d: int): (r: Time)
    ensures r.ns - t.ns == d && r.zone == t.zone
  {
    Time(t.ns + d, t.zone)
  }

  /** t.Sub(u): the Duration between them, saturated to the int64 range. */
  function Sub(t: Time, u: Time): (d: Int64)
    ensures MinInt64 <= t.ns - u.ns <= MaxInt64 ==> d == t.ns - u.ns
    ensures t.ns - u.ns > MaxInt64 ==> d == MaxInt64
    ensures t.ns - u.ns < MinInt64 ==> d == MinInt64
  {
    var diff := t.ns - u.ns;
    if diff > MaxInt64 then MaxInt64 else if diff < MinInt64 then MinInt64 else diff
  }

  // ------------------------------------------------------- civil calendar

  /** A civil date and time of day as time.Parse reads it. */
  datatype Civil = Civil(year: int, month: int, day: int, hour: int, minute: int)

  predicate IsLeap(y: int) { y % 4 == 0 && (y % 100 != 0 || y % 400 == 0) }

  function DaysIn(month: int, year: int): int
  {
    if month == 2 then (if IsLeap(year) then 29 else 28)
    else if month == 4 || month == 6 || month == 9 || month == 11 then 30
    else 31
  }

  /** The range checks time.Parse applies once all fields are read. */
  predicate ValidCivil(c: Civil)
  {
    1 <= c.month <= 12 && 1 <= c.day <= DaysIn(c.month, c.year)
    && 0 <= c.hour < 24 && 0 <= c.minute < 60
  }

  function DaysBeforeMonth(month: int, year: int): int
    requires 1 <= month <= 12
    decreases month
  {
    if month == 1 then 0 else DaysBeforeMonth(month - 1, year) + DaysIn(month - 1, year)
  }

  /** Days from 0001-01-01 to the first of January of year y (proleptic Gregorian). */
  function DaysBeforeYear(y: int): int
  {
    var p := y - 1;
    365 * p + p / 4 - p / 100 + p / 400
  }

  /** The instant of a civil date read in UTC. */
  function Instant(c: Civil): int
    requires 1 <= c.month <= 12
  {
    var days := DaysBeforeYear(c.year) + DaysBeforeMonth(c.month, c.year) + c.day - 1;
    ((days * 24 + c.hour) * 60 + c.minute) * 60_000_000_000
  }

  /** The time.Time that time.Parse returns for a civil date: UTC, no zone in the layout. */
  function ToTime(c: Civil): (t: Time)
    requires ValidCivil(c)
    ensures t.zone == UTC
  {
    Time(Instant(c), UTC)
  }

  // ------------------------------------------------------------- layouts

  /** The three layouts of the DWD file names and columns. */
  datatype Layout =
    | DayOnly    // "20060102"
    | HourOnly   // "2006010215"
    | Full       // "200601021504"

  function LayoutLength(l: Layout): nat
  {
    match l
    case DayOnly => 8
    case HourOnly => 10
    case Full => 12
  }

  /** The layout whose length a value has: the switch on len(value) the parsers share. */
  function LayoutForLength(n: int): (l: Option<Layout>)
    ensures l.Some? <==> n == 8 || n == 10 || n == 12
    ensures l.Some? ==> LayoutLength(l.value) == n
  {
    if n == 12 then Some(Full) else if n == 10 then Some(HourOnly) else if n == 8 then Some(DayOnly) else None
  }

  /** The number written by the n digits at position i. */
  function Field(s: string, i: nat, n: nat): int
    requires i + n <= |s|
    requires forall k :: i <= k < i + n ==> IsDigit(s[k])
  {
    DigitsValue(s[i..i + n])
  }

  predicate AllDigits(s: string) { forall k :: 0 <= k < |s| ==> IsDigit(s[k]) }

  /**
   * The lengths a value of the layout can have. The year, month, day and
   * minute elements are fixed-width, while the "15" hour element takes one
   * digit when no second digit follows: in the hour layout, where the hour
   * ends the text, it may be written with one digit; in the full layout a
   * one-digit hour leaves the minute short.
   */
  predicate Fits(l: Layout, n: int)
  {
    n == LayoutLength(l) || (l == HourOnly && n == LayoutLength(l) - 1)
  }

  /**
   * The civil fields time.Parse(layout, s) reads, before the range checks:
   * the value must have a length the layout fits and only ASCII digits.
   */
  function ReadLayout(l: Layout, s: string): (c: Option<Civil>)
    ensures c.Some? <==> Fits(l, |s|) && AllDigits(s)
    ensures c.Some? && l == DayOnly ==> c.value.hour == 0 && c.value.minute == 0
    ensures c.Some? && l == HourOnly ==> c.value.minute == 0
    ensures c.Some? && l == HourOnly && |s| == 9 ==> c.value.hour == DigitsValue(s[8..])
  {
    if !Fits(l, |s|) || !AllDigits(s) then None
    else
      var hour := if l == DayOnly then 0 else Field(s, 8, if l == HourOnly then |s| - 8 else 2);
      var minute := if l == Full then Field(s, 10, 2) else 0;
      Some(Civil(Field(s, 0, 4), Field(s, 4, 2), Field(s, 6, 2), hour, minute))
  }

  /** time.Parse(layout, s) with one of the three layouts. */
  function ParseLayout(l: Layout, s: string): (t: Option<Civil>)
    ensures t.Some? ==> ValidCivil(t.value) && Fits(l, |s|) && AllDigits(s)
    ensures t.Some? <==> ReadLayout(l, s).Some? && ValidCivil(ReadLayout(l, s).value)
  {
    var c := ReadLayout(l, s);
    if c.Some? && ValidCivil(c.value) then c else None
  }

  /** Choosing the layout by the length of the value. */
  function ParseByLength(s: string): (t: Option<Civil>)
    ensures t.Some? ==> ValidCivil(t.value)
    ensures LayoutForLength(|s|).None? ==> t.None?
  {
    match LayoutForLength(|s|)
    case None => None
    case Some(l) => ParseLayout(l, s)
  }

  /**
   * The legacy parsers try the full layout, then the hour layout, then the
   * day layout. Each layout accepts only its own lengths, so this is the
   * same as choosing the layout by length, except for a nine-character text:
   * the hour layout reads it with a one-digit hour, while no layout has
   * length nine.
   */
  function TryEachLayout(s: string): Option<Civil>
  {
    var full := ParseLayout(Full, s);
    if full.Some? then full
    else
      var hour := ParseLayout(HourOnly, s);
      if hour.Some? then hour else ParseLayout(DayOnly, s)
  }

  lemma TryEachIsByLength(s: string)
    requires |s| != 9
    ensures TryEachLayout(s) == ParseByLength(s)
  {
  }

  /** A nine-character text is read by the hour layout when tried in turn, and refused by the length switch. */
  lemma TryEachNineCharacters(s: string)
    requires |s| == 9
    ensures TryEachLayout(s) == ParseLayout(HourOnly, s)
    ensures ParseByLength(s) == None
  {
  }

  /** "199001017" is 1990-01-01 07:00 for the legacy parsers, and no date for the length switch. */
  lemma ExampleOneDigitHour()
    ensures TryEachLayout("199001017") == Some(Civil(1990, 1, 1, 7, 0))
    ensures ParseByLength("199001017") == None
  {
    var s := "199001017";
    assert AllDigits(s);
    assert s[0..4] == "1990";
    Year1990();
    assert s[4..6] == "01" && s[6..8] == "01" && s[8..9] == "7";
    assert ValidCivil(Civil(1990, 1, 1, 7, 0));
  }

  // ---------------------------------------------------- "02.01.2006-15:04"

  /**
   * time.Parse("02.01.2006-15:04", s), the layout of the missing-value
   * files: day, month and minute are two digits, the year four, the hour one
   * or two digits (the "15" element is not fixed-width), separated by the
   * literal characters of the layout.
   */
  function ParseGapTime(s: string): (t: Option<Civil>)
    ensures t.Some? ==> ValidCivil(t.value) && (|s| == 15 || |s| == 16)
  {
    if |s| < 15 || !(AllDigits(s[0..2]) && s[2] == '.' && AllDigits(s[3..5]) && s[5] == '.'
                     && AllDigits(s[6..10]) && s[10] == '-' && IsDigit(s[11])) then None
    else
      var hourDigits := if IsDigit(s[12]) then 2 else 1;
      var rest := s[11 + hourDigits..];
      if !(|rest| == 3 && rest[0] == ':' && AllDigits(rest[1..])) then None
      else
        assert forall k :: 11 <= k < 11 + hourDigits ==> IsDigit(s[k]);
        DigitsAt(rest, 1, 3);
        DigitsAt(s, 0, 2);
        DigitsAt(s, 3, 5);
        DigitsAt(s, 6, 10);
        var c := Civil(Field(s, 6, 4), Field(s, 3, 2), Field(s, 0, 2), Field(s, 11, hourDigits), Field(rest, 1, 2));
        if ValidCivil(c) then Some(c) else None
  }

  /** The digits of a slice are digits of the string at the same places. */
  lemma DigitsAt(s: string, i: nat, j: nat)
    requires i <= j <= |s| && AllDigits(s[i..j])
    ensures forall k :: i <= k < j ==> IsDigit(s[k])
  {
    forall k | i <= k < j
      ensures IsDigit(s[k])
    {
      assert s[k] == s[i..j][k - i];
    }
  }

  lemma Year1990()
    ensures DigitsValue("1990") == 1990
  {
    assert "1990"[..3] == "199" && "199"[..2] == "19" && "19"[..1] == "1";
  }

  lemma ExampleGapTimeTwoDigitHour()
    ensures ParseGapTime("01.01.1990-00:00") == Some(Civil(1990, 1, 1, 0, 0))
  {
    Year1990();
    var s := "01.01.1990-00:00";
    assert s[0..2] == "01";
    assert s[3..5] == "01";
    assert s[6..10] == "1990";
    assert s[11..13] == "00";
    assert s[13..] == ":00";
    assert ":00"[1..3] == "00";
  }

  lemma ExampleGapTimeOneDigitHour()
    ensures ParseGapTime("01.01.1990-7:30") == Some(Civil(1990, 1, 1, 7, 30))
  {
    Year1990();
    var u := "01.01.1990-7:30";
    assert u[0..2] == "01";
    assert u[3..5] == "01";
    assert u[6..10] == "1990";
    assert u[11..12] == "7";
    assert u[12..] == ":30";
    assert ":30"[1..3] == "30";
  }

  lemma ExampleGapTimeBadDay()
    ensures ParseGapTime("31.02.1990-00:00").None?
  {
    Year1990();
    var w := "31.02.1990-00:00";
    assert w[0..2] == "31";
    assert w[3..5] == "02";
    assert w[6..10] == "1990";
  }
}
