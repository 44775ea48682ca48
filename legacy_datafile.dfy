// The legacy data-file parser of the v1 API (internal/dwd/datafile-parser.go):
// the parameter file of an archive sets the field descriptions, and every
// "produkt" text file adds one dataset per kept row, keyed by the header's
// column names, after the station-ID and end-of-row columns are cut off;
// rows outside the requested range are passed over.
module LegacyDataFile {
  import opened Common
  import opened Numbers
  import opened Chrono
  import ArchiveParser
  import opened LegacyMetadata

  /** The key of the measurement time in a dataset. */
  const TimeKey := "ts"

  /** A dataset value: the measurement time, a float read from the file, or the raw field. */
  datatype Cell = Timestamp(t: Time) | Number(f: Float) | Text(s: string)

  /** map[string]interface{} */
  type Dataset = map<string, Cell>

  /** The timeRange argument: [start, end], where a zero bound is no bound. */
  datatype TimeRange = TimeRange(start: Time, end: Time)

  /** What ParseDataFile returns beside the error. */
  datatype Parsed = Parsed(datasets: seq<Dataset>, parameters: seq<TimeseriesField>)

  /** The float when ParseFloat accepts the field, the raw field otherwise. */
  function CellOf(s: string): (c: Cell)
    ensures c.Number? <==> ParsesAsNumber(s)
    ensures c.Text? ==> c.s == s
  {
    if ParsesAsNumber(s) then Number(FromText(s)) else Text(s)
  }

  /** A row is kept unless a non-zero start is after its time or a non-zero end is before it. */
  predicate InRange(t: Time, range: TimeRange)
  {
    !(!IsZero(range.start) && Before(t, range.start)) && !(!IsZero(range.end) && After(t, range.end))
  }

  /** The column loop of one row: dataset[header[i]] = value of data[i], for i from the given column on. */
  function Columns(header: seq<string>, data: seq<string>, i: nat, dataset: Dataset): Outcome<Dataset>
  {
    Fill(CellOf, header, data, i, dataset)
  }

  /** The same loop with the conversion of a field to a cell as a parameter. */
  function Fill(cell: string -> Cell, header: seq<string>, data: seq<string>, i: nat, dataset: Dataset): Outcome<Dataset>
    decreases |data| - i
  {
    if i >= |data| then Done(dataset)
    else if i >= |header| then Panicked(IndexPanic)
    else Fill(cell, header, data, i + 1, dataset[header[i] := cell(data[i])])
  }

  /**
   * One raw row under the cut header: its first and last fields are cut
   * off, the date is tried in the three layouts, and a row in range becomes
   * a dataset (None: the row is passed over).
   */
  function Row(header: seq<string>, range: TimeRange, raw: seq<string>): Outcome<Option<Dataset>>
  {
    if |raw| < 2 then Panicked(SlicePanic)
    else
      var data := raw[1..|raw| - 1];
      if data == [] then Panicked(IndexPanic)
      else if ParseDate(data[0]).None? then Failed(TimeParseError)
      else
        var t := ParseDate(data[0]).value;
        if !InRange(t, range) then Done(None)
        else
          var d := Columns(header, data, 1, map[TimeKey := Timestamp(t)]);
          if d.Done? then Done(Some(d.value)) else Forward(d)
  }

  /** How the row loop reads one raw row. */
  type RowReader = seq<string> -> Outcome<Option<Dataset>>

  function RowsUnder(header: seq<string>, range: TimeRange): (read: RowReader)
    ensures forall raw :: read(raw) == Row(header, range, raw)
  {
    raw => Row(header, range, raw)
  }

  /** The row loop over lines[2:], appending each kept row's dataset. */
  function DataRows(read: RowReader, rows: seq<seq<string>>, acc: seq<Dataset>): Outcome<seq<Dataset>>
    decreases |rows|
  {
    if rows == [] then Done(acc)
    else
      var r := read(rows[0]);
      if !r.Done? then Forward(r)
      else DataRows(read, rows[1..], if r.value.Some? then acc + [r.value.value] else acc)
  }

  /** A "produkt" file on top of the datasets so far: the header is cut, the rows from index 2 on are read. */
  function DataEntry(lines: seq<seq<string>>, range: TimeRange, datasets: seq<Dataset>): Outcome<seq<Dataset>>
  {
    if lines == [] then Panicked(IndexPanic)
    else if |lines[0]| < 2 || |lines| < 2 then Panicked(SlicePanic)
    else
      var header := lines[0][1..|lines[0]| - 1];
      DataRows(RowsUnder(header, range), lines[2..], datasets)
  }

  /** The entries read for the field descriptions, and those read for datasets. */
  predicate IsParameterEntry(name: string) { HasSuffix(name, ".txt") && HasPrefix(name, "Metadaten_Parameter") }

  predicate IsDataEntry(name: string) { HasSuffix(name, ".txt") && Contains(name, "produkt") }

  /** One entry: a parameter file replaces the parameters; then, if it is a data file, its rows are added. */
  function Entry(file: ArchiveParser.Entry, range: TimeRange, state: Parsed): Outcome<Parsed>
  {
    var read := if IsParameterEntry(file.name) then ParameterFile(file.rows) else Done(state.parameters);
    if !read.Done? then Forward(read)
    else if !IsDataEntry(file.name) then Done(state.(parameters := read.value))
    else
      var datasets := DataEntry(file.rows, range, state.datasets);
      if datasets.Done? then Done(Parsed(datasets.value, read.value)) else Forward(datasets)
  }

  /** The entry loop from the given entry on. */
  function EntriesFrom(entries: seq<ArchiveParser.Entry>, range: TimeRange, state: Parsed): Outcome<Parsed>
    decreases |entries|
  {
    if entries == [] then Done(state)
    else
      var next := Entry(entries[0], range, state);
      if !next.Done? then next else EntriesFrom(entries[1..], range, next.value)
  }

  /** What ParseDataFile returns for the archive's entries; any error discards everything. */
  function DataFile(entries: seq<ArchiveParser.Entry>, range: TimeRange): Outcome<Parsed>
  {
    EntriesFrom(entries, range, Parsed([], []))
  }

  // ---------------------------------------------------------------- the methods

  /** The body of the row loop: cut the row, parse its date, filter, fill the dataset. */
  method ReadRow(header: seq<string>, range: TimeRange, raw: seq<string>) returns (outcome: Outcome<Option<Dataset>>)
    ensures outcome == Row(header, range, raw)
  {
    if |raw| < 2 {
      return Panicked(SlicePanic);
    }
    var data := raw[1..|raw| - 1];
    if data == [] {
      return Panicked(IndexPanic);
    }
    var measurementTime := ParseDate(data[0]);
    if measurementTime.None? {
      return Failed(TimeParseError);
    }
    var t := measurementTime.value;
    if !IsZero(range.start) && Before(t, range.start) {
      return Done(None);
    }
    if !IsZero(range.end) && After(t, range.end) {
      return Done(None);
    }
    var dataset: Dataset := map[TimeKey := Timestamp(t)];
    var i := 1;
    while i < |data|
      invariant 1 <= i
      invariant Columns(header, data, i, dataset) == Columns(header, data, 1, map[TimeKey := Timestamp(t)])
      decreases |data| - i
    {
      if i >= |header| {
        return Panicked(IndexPanic);
      }
      dataset := dataset[header[i] := CellOf(data[i])];
      i := i + 1;
    }
    return Done(Some(dataset));
  }

  /** ParseDataFile over the archive's entries (as rows), with the requested range. */
  method ParseDataFile(entries: seq<ArchiveParser.Entry>, timeRange: TimeRange) returns (outcome: Outcome<Parsed>)
    ensures outcome == DataFile(entries, timeRange)
  {
    var datasets: seq<Dataset> := [];
    var parameters: seq<TimeseriesField> := [];
    for k := 0 to |entries|
      invariant EntriesFrom(entries[k..], timeRange, Parsed(datasets, parameters)) == DataFile(entries, timeRange)
    {
      assert entries[k..][0] == entries[k] && entries[k..][1..] == entries[k + 1..];
      var file := entries[k];
      ghost var before := Parsed(datasets, parameters);
      if IsParameterEntry(file.name) {
        var lines := file.rows;
        if lines == [] {
          return Panicked(IndexPanic);
        }
        if |lines| < 3 {
          return Panicked(SlicePanic);
        }
        var read := ParseMetadataFileContents(lines[0], lines[1..|lines| - 2]);
        if !read.Done? {
          return Forward(read);
        }
        parameters := read.value;
      }
      if !IsDataEntry(file.name) {
        assert Entry(file, timeRange, before) == Done(Parsed(datasets, parameters));
        continue;
      }
      var read := ReadDataEntry(file.rows, timeRange, datasets);
      if !read.Done? {
        return Forward(read);
      }
      datasets := read.value;
      assert Entry(file, timeRange, before) == Done(Parsed(datasets, parameters));
    }
    return Done(Parsed(datasets, parameters));
  }

  /** The part of the entry loop that reads one "produkt" file. */
  method ReadDataEntry(lines: seq<seq<string>>, range: TimeRange, datasets: seq<Dataset>)
    returns (outcome: Outcome<seq<Dataset>>)
    ensures outcome == DataEntry(lines, range, datasets)
  {
    if lines == [] {
      return Panicked(IndexPanic);
    }
    if |lines[0]| < 2 || |lines| < 2 {
      return Panicked(SlicePanic);
    }
    var header := lines[0][1..|lines[0]| - 1];
    ghost var read := RowsUnder(header, range);
    var rows := lines[2..];
    var acc := datasets;
    for i := 0 to |rows|
      invariant DataRows(read, rows[i..], acc) == DataEntry(lines, range, datasets)
    {
      assert rows[i..][0] == rows[i] && rows[i..][1..] == rows[i + 1..];
      var r := ReadRow(header, range, rows[i]);
      assert r == read(rows[i]);
      if !r.Done? {
        return Forward(r);
      }
      if r.value.Some? {
        acc := acc + [r.value.value];
      }
    }
    return Done(acc);
  }

  // ---------------------------------------------------------------- lemmas

  /** Both bounds are inclusive, and a zero bound does not filter. */
  lemma RangeInclusive(t: Time, range: TimeRange)
    ensures InRange(t, range) <==>
      (IsZero(range.start) || range.start.ns <= t.ns) && (IsZero(range.end) || t.ns <= range.end.ns)
  {
  }

  /** A row with a readable date is passed over exactly when its time is outside the range. */
  lemma RowFilter(header: seq<string>, range: TimeRange, raw: seq<string>)
    requires |raw| >= 3 && ParseDate(raw[1]).Some?
    ensures Row(header, range, raw) == Done(None) <==> !InRange(ParseDate(raw[1]).value, range)
  {
    assert raw[1..|raw| - 1][0] == raw[1];
    ColumnsNeverNone(header, raw[1..|raw| - 1], 1, map[TimeKey := Timestamp(ParseDate(raw[1]).value)]);
  }

  lemma ColumnsNeverNone(header: seq<string>, data: seq<string>, i: nat, dataset: Dataset)
    ensures Columns(header, data, i, dataset).Done? || Columns(header, data, i, dataset) == Panicked(IndexPanic)
    decreases |data| - i
  {
    if i < |data| && i < |header| {
      ColumnsNeverNone(header, data, i + 1, dataset[header[i] := CellOf(data[i])]);
    }
  }

  /**
   * The column loop fits when the header has a name for every remaining
   * field; it then adds one key per remaining column and keeps every other
   * key, and a column's key holds its value unless a later column has the
   * same name.
   */
  lemma ColumnsContents(header: seq<string>, data: seq<string>, i: nat, dataset: Dataset)
    ensures Columns(header, data, i, dataset).Done? <==> i >= |data| || |data| <= |header|
    ensures Columns(header, data, i, dataset).Done? ==>
      var d := Columns(header, data, i, dataset).value;
      && d.Keys == dataset.Keys + (set j | i <= j < |data| :: header[j])
      && (forall k :: k in dataset && (forall j :: i <= j < |data| ==> header[j] != k) ==> d[k] == dataset[k])
      && (forall j :: i <= j < |data| && (forall l :: j < l < |data| ==> header[l] != header[j]) ==>
            d[header[j]] == CellOf(data[j]))
  {
    FillDone(CellOf, header, data, i, dataset);
    if i >= |data| || |data| <= |header| {
      FillKeys(CellOf, header, data, i, dataset);
      FillKept(CellOf, header, data, i, dataset);
    }
    if Columns(header, data, i, dataset).Done? {
      forall j | i <= j < |data| && (forall l :: j < l < |data| ==> header[l] != header[j])
        ensures header[j] in Columns(header, data, i, dataset).value
        ensures Columns(header, data, i, dataset).value[header[j]] == CellOf(data[j])
      {
        FillLast(CellOf, header, data, i, dataset, j);
      }
    }
  }

  lemma {:induction false} FillDone(cell: string -> Cell, header: seq<string>, data: seq<string>, i: nat, dataset: Dataset)
    ensures Fill(cell, header, data, i, dataset).Done? <==> i >= |data| || |data| <= |header|
    decreases |data| - i
  {
    if i < |data| && i < |header| {
      FillDone(cell, header, data, i + 1, dataset[header[i] := cell(data[i])]);
    }
  }

  lemma {:induction false} FillKeys(cell: string -> Cell, header: seq<string>, data: seq<string>, i: nat, dataset: Dataset)
    requires i >= |data| || |data| <= |header|
    ensures Fill(cell, header, data, i, dataset).Done? ==>
      Fill(cell, header, data, i, dataset).value.Keys == dataset.Keys + (set j | i <= j < |data| :: header[j])
    decreases |data| - i
  {
    if i < |data| {
      FillKeys(cell, header, data, i + 1, dataset[header[i] := cell(data[i])]);
      assert (set j | i <= j < |data| :: header[j]) == {header[i]} + (set j | i + 1 <= j < |data| :: header[j]);
    }
  }

  lemma {:induction false} FillKept(cell: string -> Cell, header: seq<string>, data: seq<string>, i: nat, dataset: Dataset)
    requires i >= |data| || |data| <= |header|
    ensures Fill(cell, header, data, i, dataset).Done? ==>
      var d := Fill(cell, header, data, i, dataset).value;
      forall k :: k in dataset && (forall j :: i <= j < |data| ==> header[j] != k) ==> k in d && d[k] == dataset[k]
    decreases |data| - i
  {
    if i < |data| {
      FillKept(cell, header, data, i + 1, dataset[header[i] := cell(data[i])]);
    }
  }

  /** Column j's key holds its cell when no later column has the same name. */
  lemma {:induction false} FillLast(cell: string -> Cell, header: seq<string>, data: seq<string>, i: nat, dataset: Dataset, j: nat)
    requires i <= j < |data| <= |header|
    requires Fill(cell, header, data, i, dataset).Done?
    requires forall l :: j < l < |data| ==> header[l] != header[j]
    ensures header[j] in Fill(cell, header, data, i, dataset).value
    ensures Fill(cell, header, data, i, dataset).value[header[j]] == cell(data[j])
    decreases |data| - i
  {
    if j == i {
      FillFirst(cell, header, data, i, dataset);
    } else {
      FillLast(cell, header, data, i + 1, dataset[header[i] := cell(data[i])], j);
    }
  }

  /** The first column's key keeps its cell when no later column has the same name. */
  lemma FillFirst(cell: string -> Cell, header: seq<string>, data: seq<string>, i: nat, dataset: Dataset)
    requires i < |data| <= |header|
    requires Fill(cell, header, data, i, dataset).Done?
    requires forall l :: i < l < |data| ==> header[l] != header[i]
    ensures header[i] in Fill(cell, header, data, i, dataset).value
    ensures Fill(cell, header, data, i, dataset).value[header[i]] == cell(data[i])
  {
    var next := dataset[header[i] := cell(data[i])];
    FillKept(cell, header, data, i + 1, next);
    assert header[i] in next;
  }

  /** A kept row's dataset holds its time under "ts" when no column of the header is named so. */
  lemma RowTimestamp(header: seq<string>, range: TimeRange, raw: seq<string>)
    requires Row(header, range, raw).Done? && Row(header, range, raw).value.Some?
    requires TimeKey !in header
    ensures TimeKey in Row(header, range, raw).value.value
    ensures Row(header, range, raw).value.value[TimeKey] == Timestamp(ParseDate(raw[1]).value)
  {
    var data := raw[1..|raw| - 1];
    assert data[0] == raw[1];
    var t := ParseDate(data[0]).value;
    ColumnsContents(header, data, 1, map[TimeKey := Timestamp(t)]);
  }

  /** The row right after the header never yields a dataset: it is not read at all. */
  lemma SecondRowIgnored(lines: seq<seq<string>>, range: TimeRange, datasets: seq<Dataset>, other: seq<string>)
    requires |lines| >= 2
    ensures DataEntry(lines[1 := other], range, datasets) == DataEntry(lines, range, datasets)
  {
    assert lines[1 := other][2..] == lines[2..];
  }

  /** The datasets read so far are never lost: each file's datasets come after those of the files before. */
  lemma {:induction false} DataRowsExtend(read: RowReader, rows: seq<seq<string>>, acc: seq<Dataset>)
    requires DataRows(read, rows, acc).Done?
    ensures |acc| <= |DataRows(read, rows, acc).value| && DataRows(read, rows, acc).value[..|acc|] == acc
    decreases |rows|
  {
    if rows != [] {
      var r := read(rows[0]);
      var acc' := if r.value.Some? then acc + [r.value.value] else acc;
      DataRowsExtend(read, rows[1..], acc');
      assert DataRows(read, rows, acc).value[..|acc'|][..|acc|] == DataRows(read, rows, acc).value[..|acc|];
    }
  }

  lemma {:induction false} DatasetsAccumulate(entries: seq<ArchiveParser.Entry>, range: TimeRange, state: Parsed)
    requires EntriesFrom(entries, range, state).Done?
    ensures var result := EntriesFrom(entries, range, state).value.datasets;
      |state.datasets| <= |result| && result[..|state.datasets|] == state.datasets
    decreases |entries|
  {
    if entries != [] {
      var next := Entry(entries[0], range, state).value;
      EntryExtends(entries[0], range, state);
      DatasetsAccumulate(entries[1..], range, next);
      var result := EntriesFrom(entries, range, state).value.datasets;
      assert result[..|next.datasets|][..|state.datasets|] == result[..|state.datasets|];
    }
  }

  /** One entry keeps the datasets read before it, in front. */
  lemma EntryExtends(file: ArchiveParser.Entry, range: TimeRange, state: Parsed)
    requires Entry(file, range, state).Done?
    ensures var result := Entry(file, range, state).value.datasets;
      |state.datasets| <= |result| && result[..|state.datasets|] == state.datasets
  {
    if IsDataEntry(file.name) {
      var lines := file.rows;
      var header := lines[0][1..|lines[0]| - 1];
      DataRowsExtend(RowsUnder(header, range), lines[2..], state.datasets);
    }
  }

  /** With no later parameter file, the parameters are those of the last one: a later file replaces earlier ones. */
  lemma {:induction false} LastParameterEntryWins(entries: seq<ArchiveParser.Entry>, range: TimeRange, state: Parsed, k: nat)
    requires k < |entries| && IsParameterEntry(entries[k].name)
    requires forall j :: k < j < |entries| ==> !IsParameterEntry(entries[j].name)
    requires EntriesFrom(entries, range, state).Done?
    ensures ParameterFile(entries[k].rows).Done?
    ensures EntriesFrom(entries, range, state).value.parameters == ParameterFile(entries[k].rows).value
    decreases k
  {
    var rest := entries[1..];
    assert forall j :: 0 <= j < |rest| ==> rest[j] == entries[j + 1];
    var next := Entry(entries[0], range, state).value;
    EntryParameters(entries[0], range, state);
    if k == 0 {
      ParametersKept(rest, range, next);
    } else {
      LastParameterEntryWins(rest, range, next, k - 1);
    }
  }

  /** Entries that are not parameter files leave the parameters as they are. */
  lemma {:induction false} ParametersKept(entries: seq<ArchiveParser.Entry>, range: TimeRange, state: Parsed)
    requires forall j :: 0 <= j < |entries| ==> !IsParameterEntry(entries[j].name)
    requires EntriesFrom(entries, range, state).Done?
    ensures EntriesFrom(entries, range, state).value.parameters == state.parameters
    decreases |entries|
  {
    if entries != [] {
      var rest := entries[1..];
      assert forall j :: 0 <= j < |rest| ==> rest[j] == entries[j + 1];
      EntryParameters(entries[0], range, state);
      ParametersKept(rest, range, Entry(entries[0], range, state).value);
    }
  }

  /** One entry replaces the parameters exactly when it is a parameter file, which then reads. */
  lemma EntryParameters(file: ArchiveParser.Entry, range: TimeRange, state: Parsed)
    requires Entry(file, range, state).Done?
    ensures IsParameterEntry(file.name) ==> ParameterFile(file.rows).Done?
    ensures Entry(file, range, state).value.parameters ==
      if IsParameterEntry(file.name) then ParameterFile(file.rows).value else state.parameters
  {
  }
}
