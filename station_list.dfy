// ParseStationList (internal/dwd/v2/internal/parser/station-list.go): the
// station description file of a product folder, read as space-separated
// records after two header lines. A station name with blanks spreads over
// several fields and is joined back; the rest of each record gives the
// coordinates and the period the station delivered data for.
module StationList {
  import opened Common
  import opened Numbers
  import opened Chrono
  import opened V2Types

  /** The fields of a well-formed record, the trailing empty one not counted. */
  const ColumnCount := 9
  const CoordinateSRID := 4326

  const StationIdIndex := 0
  const StartDateIndex := 1
  const EndDateIndex := 2
  const HeightIndex := 3
  const LatitudeIndex := 4
  const LongitudeIndex := 5
  const NameIndex := 6

  const IndexPanic := "runtime error: index out of range"
  const FloatSyntaxError := "strconv.ParseFloat: invalid syntax"
  const TimeParseError := "parsing time: cannot parse"
  const UnsupportedStart := "unsupported date string for data start"
  const UnsupportedEnd := "unsupported date string for data end"

  /**
   * The record with the name put back together (lines 58-69): a record
   * longer than ten fields keeps its first six fields and its last three,
   * and everything between is the name, joined with single blanks.
   */
  function CleanRow(data: seq<string>): (row: seq<string>)
    ensures |data| <= ColumnCount + 1 ==> row == data
    ensures |data| > ColumnCount + 1 ==>
      && |row| == ColumnCount + 1
      && row[..NameIndex] == data[..NameIndex]
      && row[NameIndex] == Join(data[NameIndex..|data| - 3], " ")
      && row[NameIndex + 1..] == data[|data| - 3..]
  {
    if |data| > ColumnCount + 1 then
      var additionalNameParts := |data| - ColumnCount;
      data[..6] + [Join(data[6..6 + additionalNameParts], " ")] + data[6 + additionalNameParts..]
    else data
  }

  /** The period a station delivered data for: the second value of ParseStationList. */
  datatype Period = Period(start: Time, end: Time)

  /** One parsed record. */
  datatype StationRecord = StationRecord(station: Station, period: Period)

  /** The start or end time of a record: read with the layout that `layoutLength` selects. */
  function RecordTime(layoutLength: nat, s: string, unsupported: string): (r: Outcome<Civil>)
    ensures r.Done? ==> ValidCivil(r.value) && AllDigits(s)
    ensures r.Done? ==> |s| == layoutLength || (layoutLength == 10 && |s| == 9)
    ensures LayoutForLength(layoutLength).None? ==> r == Failed(unsupported)
  {
    match LayoutForLength(layoutLength)
    case None => Failed(unsupported)
    case Some(l) =>
      var c := ParseLayout(l, s);
      if c.None? then Failed(TimeParseError) else Done(c.value)
  }

  /**
   * The body of the record loop (lines 58-141). The fields are read in the
   * order the source indexes them, so a short record panics at the first
   * missing one. The start is shown in UTC+1 before 2000; an end before
   * 2000 is replaced by the start, shown in UTC+1 (line 137).
   */
  function StationRow(data: seq<string>): Outcome<StationRecord>
  {
    var row := CleanRow(data);
    if |row| <= LongitudeIndex then Panicked(IndexPanic)
    else if !ParsesAsNumber(row[LongitudeIndex]) then Failed(FloatSyntaxError)
    else if !ParsesAsNumber(row[LatitudeIndex]) then Failed(FloatSyntaxError)
    else if !ParsesAsNumber(row[HeightIndex]) then Failed(FloatSyntaxError)
    else if |row| <= NameIndex then Panicked(IndexPanic)
    else
      var location := Point(FromText(row[LongitudeIndex]), FromText(row[LatitudeIndex]), FromText(row[HeightIndex]), CoordinateSRID);
      var station := Station(row[StationIdIndex], row[NameIndex], Zero, location, map[]);
      var start := RecordTime(|row[StartDateIndex]|, row[StartDateIndex], UnsupportedStart);
      if !start.Done? then Forward(start)
      else
        var end := RecordTime(|TrimSpace(row[EndDateIndex])|, row[EndDateIndex], UnsupportedEnd);
        if !end.Done? then Forward(end)
        else
          var startDate := if start.value.year < 2000 then In(ToTime(start.value), EtcGmtMinus1) else ToTime(start.value);
          var endDate := if end.value.year < 2000 then In(startDate, EtcGmtMinus1) else ToTime(end.value);
          Done(StationRecord(station, Period(startDate, endDate)))
  }

  /** How the record loop reads one record. */
  type RecordReader = seq<string> -> Outcome<StationRecord>

  function StationRowsRead(): (read: RecordReader)
    ensures forall data :: read(data) == StationRow(data)
  {
    data => StationRow(data)
  }

  /** The records ParseStationList reads: all but the two header lines. */
  function Records(rows: seq<seq<string>>): (records: seq<seq<string>>)
    ensures |rows| <= 2 ==> records == []
    ensures |rows| > 2 ==> records == rows[2..]
  {
    if |rows| <= 2 then [] else rows[2..]
  }

  /** The record loop from the record `records[0]` on, with the records read so far. */
  function RecordsFrom(read: RecordReader, records: seq<seq<string>>, acc: seq<StationRecord>): Outcome<seq<StationRecord>>
    decreases |records|
  {
    if records == [] then Done(acc)
    else
      var r := read(records[0]);
      if !r.Done? then Forward(r) else RecordsFrom(read, records[1..], acc + [r.value])
  }

  /** The stations and their periods, in the order of the file. */
  datatype Parsed = Parsed(stations: seq<Station>, dates: seq<Period>)

  function Unzip(records: seq<StationRecord>): (p: Parsed)
    ensures |p.stations| == |records| == |p.dates|
    ensures forall i :: 0 <= i < |records| ==> p.stations[i] == records[i].station && p.dates[i] == records[i].period
  {
    Parsed(seq(|records|, i requires 0 <= i < |records| => records[i].station),
           seq(|records|, i requires 0 <= i < |records| => records[i].period))
  }

  lemma UnzipAppend(records: seq<StationRecord>, r: StationRecord)
    ensures Unzip(records + [r]) == Parsed(Unzip(records).stations + [r.station], Unzip(records).dates + [r.period])
  {
    var p := Unzip(records + [r]);
    assert p.stations == Unzip(records).stations + [r.station];
    assert p.dates == Unzip(records).dates + [r.period];
  }

  /** ParseStationList on the records the CSV reader produced. */
  function StationFile(rows: seq<seq<string>>): Outcome<Parsed>
  {
    FileWith(StationRowsRead(), rows)
  }

  /** The same, with the body of the record loop as a parameter. */
  function FileWith(read: RecordReader, rows: seq<seq<string>>): Outcome<Parsed>
  {
    var r := RecordsFrom(read, Records(rows), []);
    if !r.Done? then Forward(r) else Done(Unzip(r.value))
  }

  /** ParseStationList */
  method ParseStationList(rows: seq<seq<string>>) returns (outcome: Outcome<Parsed>)
    ensures outcome == StationFile(rows)
  {
    outcome := ReadRecords(StationRowsRead(), rows);
  }

  /** The record loop of ParseStationList (lines 53-143), reading each record with `read`. */
  method ReadRecords(read: RecordReader, rows: seq<seq<string>>) returns (outcome: Outcome<Parsed>)
    ensures outcome == FileWith(read, rows)
  {
    var stations: seq<Station> := [];
    var dates: seq<Period> := [];
    ghost var acc: seq<StationRecord> := [];
    var num := 2;
    if |rows| <= 2 {
      assert Records(rows) == [];
      return Done(Parsed([], []));
    }
    while num < |rows|
      invariant 2 <= num <= |rows|
      invariant RecordsFrom(read, rows[num..], acc) == RecordsFrom(read, Records(rows), [])
      invariant Parsed(stations, dates) == Unzip(acc)
    {
      assert rows[num..][0] == rows[num] && rows[num..][1..] == rows[num + 1..];
      var r := read(rows[num]);
      if !r.Done? {
        return Forward(r);
      }
      UnzipAppend(acc, r.value);
      acc := acc + [r.value];
      stations := stations + [r.value.station];
      dates := dates + [r.value.period];
      num := num + 1;
    }
    return Done(Parsed(stations, dates));
  }

  /** The file is read exactly when every record reads, and then holds one station per record, in order. */
  lemma {:induction false} RecordsFromRead(read: RecordReader, records: seq<seq<string>>, acc: seq<StationRecord>)
    ensures RecordsFrom(read, records, acc).Done? <==> forall data :: data in records ==> read(data).Done?
    ensures RecordsFrom(read, records, acc).Done? ==>
      var rs := RecordsFrom(read, records, acc).value;
      |rs| == |acc| + |records| && rs[..|acc|] == acc
      && forall i :: 0 <= i < |records| ==> read(records[i]) == Done(rs[|acc| + i])
    decreases |records|
  {
    if records != [] {
      var r := read(records[0]);
      if r.Done? {
        var acc' := acc + [r.value];
        RecordsFromRead(read, records[1..], acc');
        if RecordsFrom(read, records, acc).Done? {
          var rs := RecordsFrom(read, records, acc).value;
          assert rs[..|acc'|][..|acc|] == rs[..|acc|];
          forall i | 0 <= i < |records|
            ensures read(records[i]) == Done(rs[|acc| + i])
          {
            if i > 0 {
              assert records[i] == records[1..][i - 1] && |acc| + i == |acc'| + (i - 1);
            } else {
              assert rs[|acc|] == rs[..|acc'|][|acc|];
            }
          }
        }
      }
    }
  }

  /**
   * ParseStationList succeeds exactly when every record after the two
   * header lines reads, and returns one station and one period per record.
   */
  lemma StationFileRecords(rows: seq<seq<string>>)
    ensures StationFile(rows).Done? <==> forall data :: data in Records(rows) ==> StationRow(data).Done?
    ensures StationFile(rows).Done? ==>
      var p := StationFile(rows).value;
      |p.stations| == |Records(rows)| == |p.dates|
      && forall i :: 0 <= i < |Records(rows)| ==>
        StationRow(Records(rows)[i]) == Done(StationRecord(p.stations[i], p.dates[i]))
  {
    RecordsFromRead(StationRowsRead(), Records(rows), []);
  }

  /** Splitting the joined name at its blanks gives the name fields back, when none holds a blank itself. */
  lemma NameRecovered(data: seq<string>)
    requires |data| > ColumnCount + 1
    requires forall i :: NameIndex <= i < |data| - 3 ==> ' ' !in data[i]
    ensures Common.Split(CleanRow(data)[NameIndex], " ") == data[NameIndex..|data| - 3]
  {
    var parts := data[NameIndex..|data| - 3];
    assert forall i :: 0 <= i < |parts| ==> parts[i] == data[NameIndex + i];
    SplitJoin(parts, ' ');
  }

  /** A read record: its station comes from the cleaned-up fields; height and products stay unset. */
  lemma StationRowFields(data: seq<string>)
    requires StationRow(data).Done?
    ensures var row := CleanRow(data); var s := StationRow(data).value.station;
      |row| > NameIndex
      && s.id == row[StationIdIndex] && s.name == row[NameIndex]
      && ParsesAsNumber(row[LongitudeIndex]) && ParsesAsNumber(row[LatitudeIndex]) && ParsesAsNumber(row[HeightIndex])
      && s.location == Point(FromText(row[LongitudeIndex]), FromText(row[LatitudeIndex]), FromText(row[HeightIndex]), 4326)
      && s.height == Zero && s.supportedProducts == map[]
  {
  }

  /**
   * The start of a read record is the instant its start field names, shown
   * in UTC+1 before 2000; an end in 2000 or later is the instant its end
   * field names, while an end before 2000 comes out as the start instant.
   */
  lemma StationRowPeriod(data: seq<string>)
    requires StationRow(data).Done?
    ensures var row := CleanRow(data); var p := StationRow(data).value.period;
      var start := ParseByLength(row[StartDateIndex]);
      var end := ParseByLength(row[EndDateIndex]);
      && start.Some? && end.Some?
      && p.start.ns == Instant(start.value)
      && p.start.zone == (if start.value.year < 2000 then EtcGmtMinus1 else UTC)
      && (end.value.year >= 2000 ==> p.end == ToTime(end.value))
      && (end.value.year < 2000 ==> p.end == Time(p.start.ns, EtcGmtMinus1))
  {
    var row := CleanRow(data);
    var s := RecordTime(|row[StartDateIndex]|, row[StartDateIndex], UnsupportedStart);
    var e := RecordTime(|TrimSpace(row[EndDateIndex])|, row[EndDateIndex], UnsupportedEnd);
    assert s.Done? && e.Done?;
    RecordTimeByLength(|row[StartDateIndex]|, row[StartDateIndex], UnsupportedStart);
    DigitsUntrimmed(row[EndDateIndex]);
    RecordTimeByLength(|TrimSpace(row[EndDateIndex])|, row[EndDateIndex], UnsupportedEnd);
  }

  /** A text of digits only is left alone by TrimSpace. */
  lemma DigitsUntrimmed(s: string)
    requires AllDigits(s)
    ensures TrimSpace(s) == s
  {
    if s != [] {
      assert IsDigit(s[0]) && IsDigit(s[|s| - 1]);
    }
    TrimSpaceOfTrimmed(s);
  }

  /** A record time that reads is the time its field names in the layout of its length. */
  lemma RecordTimeByLength(layoutLength: nat, s: string, unsupported: string)
    requires RecordTime(layoutLength, s, unsupported).Done? && layoutLength == |s|
    ensures ParseByLength(s) == Some(RecordTime(layoutLength, s, unsupported).value)
  {
  }

  /**
   * The end date field is trimmed only to choose the layout: an end field
   * that ends in white space is always refused.
   */
  lemma PaddedEndRefused(data: seq<string>)
    requires var row := CleanRow(data); |row| > NameIndex && |row[EndDateIndex]| > 0 && IsSpace(row[EndDateIndex][|row[EndDateIndex]| - 1])
    ensures !StationRow(data).Done?
  {
  }

  /** Records of at most ten fields are taken as they are. */
  lemma ShortRowUntouched(data: seq<string>)
    requires |data| <= ColumnCount + 1
    ensures CleanRow(data) == data
  {
  }
}
