// The v2 archive reader (internal/dwd/v2/internal/parser/datafile.go): the
// entries of a downloaded zip archive are sorted by their name prefix into
// the field-metadata table, the primary data file and the file of
// documented gaps; gaps become evenly spaced placeholder datapoints and the
// primary datapoints receive the unit of their field.
//
// An entry arrives as its name and its rows, already decoded from
// Windows-1252 and split at ';'.
module ArchiveParser {
  import opened Common
  import opened Numbers
  import opened Chrono
  import opened V2Types
  import QualityFlags

  const TextSuffix := ".txt"
  const ParametersPrefix := "Metadaten_Parameter_"
  const MissingValuesPrefix := "Metadaten_Fehlwerte_"
  const DataFilePrefix := "produkt_"

  const ParameterColumn := "Parameter"
  const DescriptionColumn := "Parameterbeschreibung"
  const UnitColumn := "Einheit"
  const FromColumn := "Von_Datum"
  const UntilColumn := "Bis_Datum"

  const StationIdColumn := "STATIONS_ID"
  const DateColumn := "MESS_DATUM"
  const QualityPrefix := "QN"
  const EndOfRowColumn := "eor"

  const GapStationIdField := "Stations_ID"
  const GapStartColumn := "Von_Datum"
  const GapEndColumn := "Bis_Datum"
  const GapCountColumn := "Anzahl_Fehlwerte"
  const GapParameterColumn := "Parameter"

  /** Go's run-time panic for line[i] with i = -1 or past the end. */
  const IndexPanic := "runtime error: index out of range"
  const UnsupportedFormat := "unsupported datetime format"
  /** Stand-ins for the error values of time.Parse, strconv.ParseInt and csv.Reader. */
  const TimeParseError := "parsing time: cannot parse"
  const IntParseError := "strconv.ParseInt: invalid syntax"
  const FieldCountError := "record on line: wrong number of fields"

  /** A file inside the archive. */
  datatype Entry = Entry(name: string, rows: seq<seq<string>>)

  /** line[i]; None stands for the index-out-of-range panic. */
  function At(line: seq<string>, i: int): Option<string>
  {
    if 0 <= i < |line| then Some(line[i]) else None
  }

  /** line[slices.Index(header, col)] */
  function Column(header: seq<string>, line: seq<string>, col: string): Option<string>
  {
    At(line, IndexOf(header, col))
  }

  // ========================================================= metadata file

  /** One metadata row of the header's length (lines 134-176). */
  function MetadataRow(header: seq<string>, line: seq<string>): Outcome<FieldMetadata>
  {
    var name := Column(header, line, ParameterColumn);
    var description := Column(header, line, DescriptionColumn);
    var unit := Column(header, line, UnitColumn);
    if name.None? || description.None? || unit.None? then Panicked(IndexPanic)
    else
      var from := Column(header, line, FromColumn);
      if from.None? then Panicked(IndexPanic)
      else if LayoutForLength(|from.value|).None? then Failed(UnsupportedFormat)
      else
        // the layout chosen by the length of the from date serves both dates
        var layout := LayoutForLength(|from.value|).value;
        var validFrom := ParseLayout(layout, from.value);
        if validFrom.None? then Failed(TimeParseError)
        else
          var until := Column(header, line, UntilColumn);
          if until.None? then Panicked(IndexPanic)
          else
            var validUntil := ParseLayout(layout, until.value);
            if validUntil.None? then Failed(TimeParseError)
            else Done(FieldMetadata(name.value, description.value, unit.value,
                                    ToTime(validFrom.value), ToTime(validUntil.value)))
  }

  /** How the row loop reads one metadata row. */
  type MetadataReader = seq<string> -> Outcome<FieldMetadata>

  /** Reading a metadata row under the given header. */
  function MetadataRowsUnder(header: seq<string>): (read: MetadataReader)
    ensures forall line :: read(line) == MetadataRow(header, line)
  {
    line => MetadataRow(header, line)
  }

  /**
   * The row loop of parseMetadataFile over the rows after the header, with
   * the fields read so far: rows whose length is not the header's width are
   * passed over, the others are read by `read`.
   */
  function MetadataRows(read: MetadataReader, width: nat, rows: seq<seq<string>>, acc: seq<FieldMetadata>): Outcome<seq<FieldMetadata>>
    decreases |rows|
  {
    if rows == [] then Done(acc)
    else if |rows[0]| != width then MetadataRows(read, width, rows[1..], acc)
    else
      var m := read(rows[0]);
      if !m.Done? then Forward(m) else MetadataRows(read, width, rows[1..], acc + [m.value])
  }

  /** parseMetadataFile on the rows of the entry: lines[0] panics on an empty file. */
  function MetadataFile(lines: seq<seq<string>>): Outcome<seq<FieldMetadata>>
  {
    if lines == [] then Panicked(IndexPanic)
    else MetadataRows(MetadataRowsUnder(lines[0]), |lines[0]|, lines[1..], [])
  }

  /** parseMetadataFile */
  method ParseMetadataFile(lines: seq<seq<string>>) returns (outcome: Outcome<seq<FieldMetadata>>)
    ensures outcome == MetadataFile(lines)
  {
    if lines == [] {
      return Panicked(IndexPanic);
    }
    var header := lines[0];
    ghost var read := MetadataRowsUnder(header);
    var metadata: seq<FieldMetadata> := [];
    var idx := 1;
    while idx < |lines|
      invariant 1 <= idx <= |lines|
      invariant MetadataRows(read, |header|, lines[idx..], metadata) == MetadataFile(lines)
    {
      assert lines[idx..][0] == lines[idx] && lines[idx..][1..] == lines[idx + 1..];
      var line := lines[idx];
      if |line| == |header| {
        var m := MetadataRow(header, line);
        assert m == read(line);
        if !m.Done? {
          return Forward(m);
        }
        metadata := metadata + [m.value];
      }
      idx := idx + 1;
    }
    return Done(metadata);
  }

  /** The rows that parseMetadataFile reads: those with as many fields as the header. */
  function SameLength(width: nat, rows: seq<seq<string>>): (kept: seq<seq<string>>)
    ensures forall j :: 0 <= j < |kept| ==> |kept[j]| == width && kept[j] in rows
    decreases |rows|
  {
    if rows == [] then []
    else if |rows[0]| == width then [rows[0]] + SameLength(width, rows[1..])
    else SameLength(width, rows[1..])
  }

  /** The metadata rows are read exactly when every row of the header's width reads. */
  lemma {:induction false} MetadataRowsDone(read: MetadataReader, width: nat, rows: seq<seq<string>>, acc: seq<FieldMetadata>)
    ensures MetadataRows(read, width, rows, acc).Done? <==> forall row :: row in SameLength(width, rows) ==> read(row).Done?
    decreases |rows|
  {
    if rows != [] {
      var kept := SameLength(width, rows);
      var rest := SameLength(width, rows[1..]);
      if |rows[0]| != width {
        MetadataRowsDone(read, width, rows[1..], acc);
      } else {
        assert kept == [rows[0]] + rest;
        var m := read(rows[0]);
        if m.Done? {
          MetadataRowsDone(read, width, rows[1..], acc + [m.value]);
        }
      }
    }
  }

  /**
   * Once read, the table holds the fields read so far followed by one field
   * per row of the header's width, in order; rows of any other length are
   * skipped.
   */
  lemma {:induction false} MetadataRowsValue(read: MetadataReader, width: nat, rows: seq<seq<string>>, acc: seq<FieldMetadata>)
    requires MetadataRows(read, width, rows, acc).Done?
    ensures var kept := SameLength(width, rows); var ms := MetadataRows(read, width, rows, acc).value;
      |ms| == |acc| + |kept| && ms[..|acc|] == acc
      && forall j :: 0 <= j < |kept| ==> read(kept[j]) == Done(ms[|acc| + j])
    decreases |rows|
  {
    if rows != [] {
      var kept := SameLength(width, rows);
      var rest := SameLength(width, rows[1..]);
      if |rows[0]| != width {
        MetadataRowsValue(read, width, rows[1..], acc);
      } else {
        assert kept == [rows[0]] + rest;
        var m := read(rows[0]).value;
        var acc' := acc + [m];
        assert MetadataRows(read, width, rows, acc) == MetadataRows(read, width, rows[1..], acc');
        MetadataRowsValue(read, width, rows[1..], acc');
        var ms := MetadataRows(read, width, rows, acc).value;
        assert ms[..|acc'|][..|acc|] == ms[..|acc|];
        forall j | 0 <= j < |kept|
          ensures read(kept[j]) == Done(ms[|acc| + j])
        {
          if j > 0 {
            assert kept[j] == rest[j - 1] && |acc| + j == |acc'| + (j - 1);
          } else {
            assert ms[|acc|] == ms[..|acc'|][|acc|];
          }
        }
      }
    }
  }

  /**
   * A metadata file reads exactly when each row of the header's width after
   * the header reads, and then holds one field per such row, in order.
   */
  lemma MetadataFileRows(lines: seq<seq<string>>)
    requires lines != []
    ensures var kept := SameLength(|lines[0]|, lines[1..]);
      MetadataFile(lines).Done? <==> forall row :: row in kept ==> MetadataRow(lines[0], row).Done?
    ensures var kept := SameLength(|lines[0]|, lines[1..]);
      MetadataFile(lines).Done? ==>
        |MetadataFile(lines).value| == |kept|
        && forall j :: 0 <= j < |kept| ==> MetadataRow(lines[0], kept[j]) == Done(MetadataFile(lines).value[j])
  {
    var read := MetadataRowsUnder(lines[0]);
    var kept := SameLength(|lines[0]|, lines[1..]);
    assert MetadataFile(lines) == MetadataRows(read, |lines[0]|, lines[1..], []);
    MetadataRowsDone(read, |lines[0]|, lines[1..], []);
    if MetadataFile(lines).Done? {
      MetadataRowsValue(read, |lines[0]|, lines[1..], []);
    }
  }

  /**
   * A field read from a row: name, description and unit are the columns
   * named in the header, and both dates were read with the layout that the
   * length of the from date selects, so the until date has a length that
   * layout fits: the same, or one less with the hour layout.
   */
  lemma MetadataRowFields(header: seq<string>, line: seq<string>)
    requires MetadataRow(header, line).Done?
    ensures var m := MetadataRow(header, line).value;
      && Column(header, line, ParameterColumn) == Some(m.name)
      && Column(header, line, DescriptionColumn) == Some(m.description)
      && Column(header, line, UnitColumn) == Some(m.unit)
    ensures var from := Column(header, line, FromColumn); var until := Column(header, line, UntilColumn);
      && from.Some? && until.Some?
      && LayoutForLength(|from.value|).Some?
      && Fits(LayoutForLength(|from.value|).value, |until.value|)
      && ParseLayout(LayoutForLength(|from.value|).value, from.value).Some?
      && MetadataRow(header, line).value.validFrom == ToTime(ParseLayout(LayoutForLength(|from.value|).value, from.value).value)
      && ParseLayout(LayoutForLength(|from.value|).value, until.value).Some?
      && MetadataRow(header, line).value.validUntil == ToTime(ParseLayout(LayoutForLength(|from.value|).value, until.value).value)
  {
  }

  /**
   * A from date of any length other than 12, 10 or 8 is an "unsupported
   * datetime format"; an until date of a length the from date's layout does
   * not fit fails to parse even when it would read in its own layout.
   */
  lemma MetadataRowRefusals(header: seq<string>, line: seq<string>)
    requires Column(header, line, ParameterColumn).Some? && Column(header, line, DescriptionColumn).Some?
    requires Column(header, line, UnitColumn).Some? && Column(header, line, FromColumn).Some?
    requires Column(header, line, UntilColumn).Some?
    ensures var from := Column(header, line, FromColumn).value;
      |from| !in {8, 10, 12} ==> MetadataRow(header, line) == Failed(UnsupportedFormat)
    ensures var from := Column(header, line, FromColumn).value; var until := Column(header, line, UntilColumn).value;
      |from| in {8, 10, 12} && ParseByLength(from).Some? && !Fits(LayoutForLength(|from|).value, |until|) ==>
        MetadataRow(header, line) == Failed(TimeParseError)
  {
  }

  // ===================================================== primary data file

  /** The columns the header loop passes over. */
  predicate Excluded(h: string) { h == DateColumn || h == StationIdColumn || h == EndOfRowColumn }

  /** A quality column: a "QN" name that is not excluded. */
  predicate QualityHead(h: string) { !Excluded(h) && HasPrefix(h, QualityPrefix) }

  /** A data column: neither excluded nor a quality column. */
  predicate DataHead(h: string) { !Excluded(h) && !HasPrefix(h, QualityPrefix) }

  /** ql_idx after the header loop: the last quality column, or -1. */
  function QualityColumn(header: seq<string>): (ql: int)
    ensures -1 <= ql < |header|
    ensures ql >= 0 ==> QualityHead(header[ql])
    ensures forall k :: ql < k < |header| ==> !QualityHead(header[k])
  {
    if header == [] then -1
    else if QualityHead(header[|header| - 1]) then |header| - 1
    else QualityColumn(header[..|header| - 1])
  }

  /** An entry of datacolidxs: a column index and its name. */
  datatype DataColumn = DataColumn(index: nat, name: string)

  /** datacolidxs after the header loop, in column order. */
  function DataColumns(header: seq<string>): (cols: seq<DataColumn>)
    ensures forall j :: 0 <= j < |cols| ==>
      cols[j].index < |header| && header[cols[j].index] == cols[j].name && DataHead(cols[j].name)
    ensures forall k :: 0 <= k < |header| && DataHead(header[k]) ==> DataColumn(k, header[k]) in cols
    ensures forall i, j :: 0 <= i < j < |cols| ==> cols[i].index < cols[j].index
  {
    if header == [] then []
    else
      var n := |header| - 1;
      var init := DataColumns(header[..n]);
      assert forall k :: 0 <= k < n ==> header[..n][k] == header[k];
      if DataHead(header[n]) then init + [DataColumn(n, header[n])] else init
  }

  /**
   * The order in which a range over the map datacolidxs visits the data
   * columns. Go leaves it unspecified, and each range may differ, so it is a
   * parameter: the n-th row after the header visits Arrange(cols, order(n)).
   */
  type ColumnOrder = nat -> seq<nat>

  /**
   * The columns in the order a choice sequence picks them: each choice
   * selects, modulo the number left, the next column among those not yet
   * visited; a missing choice picks the first left.
   */
  function Arrange(cols: seq<DataColumn>, choice: seq<nat>): (r: seq<DataColumn>)
    ensures |r| == |cols|
    decreases |cols|
  {
    if cols == [] then []
    else
      var k := if choice == [] then 0 else choice[0] % |cols|;
      [cols[k]] + Arrange(cols[..k] + cols[k + 1..], if choice == [] then [] else choice[1..])
  }

  /** Whatever the choices, the order visits every data column once: a rearrangement of them. */
  lemma {:induction false} ArrangePermutes(cols: seq<DataColumn>, choice: seq<nat>)
    ensures multiset(Arrange(cols, choice)) == multiset(cols)
    decreases |cols|
  {
    if cols != [] {
      var k := if choice == [] then 0 else choice[0] % |cols|;
      ArrangePermutes(cols[..k] + cols[k + 1..], if choice == [] then [] else choice[1..]);
      PickedOut(cols, k);
    }
  }

  /** The visiting order is no restriction: every rearrangement of the columns is picked by some choice sequence. */
  function ChoiceFor(cols: seq<DataColumn>, visit: seq<DataColumn>): (choice: seq<nat>)
    requires multiset(visit) == multiset(cols)
    ensures Arrange(cols, choice) == visit
    decreases |cols|
  {
    if cols == [] then
      assert |visit| == |multiset(visit)| == 0;
      []
    else
      FirstAmong(cols, visit);
      var k := Position(cols, visit[0]);
      RestRearranges(cols, visit, k);
      var tail := ChoiceFor(cols[..k] + cols[k + 1..], visit[1..]);
      ArrangeFrom(cols, k, tail);
      assert visit == [visit[0]] + visit[1..];
      [k] + tail
  }

  /** A choice in range picks that column. */
  lemma ArrangeFrom(cols: seq<DataColumn>, k: nat, tail: seq<nat>)
    requires k < |cols|
    ensures Arrange(cols, [k] + tail) == [cols[k]] + Arrange(cols[..k] + cols[k + 1..], tail)
  {
    SmallRemainder(k, |cols|);
    assert ([k] + tail)[0] == k && ([k] + tail)[1..] == tail;
  }

  lemma SmallRemainder(k: nat, n: nat)
    requires k < n
    ensures k % n == k
  {
  }

  /** A rearrangement of some columns starts with one of them. */
  lemma FirstAmong(cols: seq<DataColumn>, visit: seq<DataColumn>)
    requires multiset(visit) == multiset(cols) && cols != []
    ensures visit != [] && visit[0] in cols
  {
    assert |visit| == |multiset(visit)| == |cols|;
    assert visit[0] in multiset(visit);
  }

  /** After the first column of a rearrangement, the rest rearranges the others. */
  lemma RestRearranges(cols: seq<DataColumn>, visit: seq<DataColumn>, k: nat)
    requires multiset(visit) == multiset(cols) && visit != [] && k < |cols| && cols[k] == visit[0]
    ensures multiset(visit[1..]) == multiset(cols[..k] + cols[k + 1..])
  {
    PickedOut(visit, 0);
    assert visit[..0] + visit[1..] == visit[1..];
    PickedOut(cols, k);
    Cancel(multiset(visit[1..]), multiset(cols[..k] + cols[k + 1..]), visit[0]);
  }

  /** The first place where x stands. */
  function Position(cols: seq<DataColumn>, x: DataColumn): (k: nat)
    requires x in cols
    ensures k < |cols| && cols[k] == x
    ensures forall j :: 0 <= j < k ==> cols[j] != x
  {
    if cols[0] == x then 0 else 1 + Position(cols[1..], x)
  }

  /** Taking the k-th column out leaves the others. */
  lemma PickedOut(cols: seq<DataColumn>, k: nat)
    requires k < |cols|
    ensures multiset(cols) == multiset(cols[..k] + cols[k + 1..]) + multiset{cols[k]}
  {
    assert cols == cols[..k] + [cols[k]] + cols[k + 1..];
  }

  lemma Cancel(a: multiset<DataColumn>, b: multiset<DataColumn>, x: DataColumn)
    requires a + multiset{x} == b + multiset{x}
    ensures a == b
  {
    assert forall y :: a[y] == (a + multiset{x})[y] - multiset{x}[y];
  }

  /** The header loop of parseDatapointFile (lines 200-214). */
  method ClassifyHeader(header: seq<string>) returns (ql: int, cols: seq<DataColumn>)
    ensures ql == QualityColumn(header) && cols == DataColumns(header)
  {
    ql := -1;
    cols := [];
    var idx := 0;
    while idx < |header|
      invariant 0 <= idx <= |header|
      invariant ql == QualityColumn(header[..idx]) && cols == DataColumns(header[..idx])
    {
      assert header[..idx + 1][..idx] == header[..idx];
      var rowHead := header[idx];
      if !Excluded(rowHead) {
        if HasPrefix(rowHead, QualityPrefix) {
          ql := idx;
        } else {
          cols := cols + [DataColumn(idx, rowHead)];
        }
      }
      idx := idx + 1;
    }
    assert header[..|header|] == header;
  }

  /** The timestamp of a data row: read by length, relabelled to UTC+1 before 2000 (lines 221-243). */
  function RowDate(header: seq<string>, line: seq<string>): Outcome<Time>
  {
    var field := Column(header, line, DateColumn);
    if field.None? then Panicked(IndexPanic)
    else if LayoutForLength(|field.value|).None? then Failed(UnsupportedFormat)
    else
      var c := ParseLayout(LayoutForLength(|field.value|).value, field.value);
      if c.None? then Failed(TimeParseError)
      else if c.value.year < 2000 then Done(In(ToTime(c.value), EtcGmtMinus1))
      else Done(ToTime(c.value))
  }

  /** The float when ParseFloat accepts the field, the raw field otherwise. */
  function FieldValue(s: string): Value
  {
    if ParsesAsNumber(s) then Number(FromText(s)) else Raw(s)
  }

  /**
   * The quality decoder the file parser calls: QualityFlag.Parse, starting
   * from flag 0, on the int64 that ParseInt returned.
   */
  const ParseQualityInt64: Int64 -> Effect<QualityFlags.QualityFlag> :=
    (v: Int64) => QualityFlags.ParseEffect(QualityFlags.Unflagged, Int64Val(v))

  /**
   * The column loop of one row (lines 245-274), with the quality decoder as
   * a parameter: one datapoint per data column, or the first failure.
   */
  function ColumnPoints(parseFlag: Int64 -> Effect<QualityFlags.QualityFlag>, ql: int, cols: seq<DataColumn>,
                        line: seq<string>, date: Time, acc: seq<Datapoint>): Outcome<seq<Datapoint>>
  {
    EachColumn(StepOf(parseFlag, ql, line, date), cols, acc)
  }

  /** A loop over columns with any per-column step: the steps' datapoints in order, or the first stop. */
  function EachColumn(step: DataColumn -> Outcome<Datapoint>, cols: seq<DataColumn>, acc: seq<Datapoint>): Outcome<seq<Datapoint>>
    decreases |cols|
  {
    if cols == [] then Done(acc)
    else
      match step(cols[0])
      case Done(p) => EachColumn(step, cols[1..], acc + [p])
      case Failed(e) => Failed(e)
      case Panicked(r) => Panicked(r)
  }

  /** The column step of one row as a function of the column. */
  function StepOf(parseFlag: Int64 -> Effect<QualityFlags.QualityFlag>, ql: int, line: seq<string>, date: Time)
    : DataColumn -> Outcome<Datapoint>
  {
    c => ColumnStep(parseFlag, ql, c, line, date)
  }

  /** One pass of the column loop: the column's datapoint, or why the row stops there. */
  function ColumnStep(parseFlag: Int64 -> Effect<QualityFlags.QualityFlag>, ql: int, col: DataColumn,
                      line: seq<string>, date: Time): Outcome<Datapoint>
  {
    var field := At(line, col.index);
    if field.None? then Panicked(IndexPanic)
    else
      var q := At(line, ql);
      if q.None? then Panicked(IndexPanic)
      else
        var qlInt := ParseInt64(q.value);
        if qlInt.None? then Failed(IntParseError)
        else
          var flag := parseFlag(qlInt.value);
          match flag.status
          case Panic(r) => Panicked(r)
          case Err(e) => Failed(e)
          case Ok => Done(Datapoint(col.name, date, FieldValue(field.value), None, Some(flag.receiver)))
  }

  /**
   * The row loop of parseDatapointFile over the rows after the header, the
   * first of them the at-th: each row visits its columns in its own order.
   */
  function DataRows(parseFlag: Int64 -> Effect<QualityFlags.QualityFlag>, order: ColumnOrder, header: seq<string>, ql: int,
                    cols: seq<DataColumn>, rows: seq<seq<string>>, at: nat, acc: seq<Datapoint>): Outcome<seq<Datapoint>>
    decreases |rows|
  {
    if rows == [] then Done(acc)
    else
      var points := RowPoints(parseFlag, order, header, ql, cols, rows[0], at, acc);
      if !points.Done? then points
      else DataRows(parseFlag, order, header, ql, cols, rows[1..], at + 1, points.value)
  }

  /** One pass of the row loop on the at-th row: its date, then its columns in that row's order. */
  function RowPoints(parseFlag: Int64 -> Effect<QualityFlags.QualityFlag>, order: ColumnOrder, header: seq<string>, ql: int,
                     cols: seq<DataColumn>, line: seq<string>, at: nat, acc: seq<Datapoint>): Outcome<seq<Datapoint>>
  {
    var date := RowDate(header, line);
    if !date.Done? then Forward(date)
    else ColumnPoints(parseFlag, ql, Arrange(cols, order(at)), line, date.value, acc)
  }

  /** Every record has as many fields as the first: what csv.Reader demands by default. */
  predicate Uniform(lines: seq<seq<string>>)
  {
    forall i :: 0 <= i < |lines| ==> |lines[i]| == |lines[0]|
  }

  /** parseDatapointFile with a given quality decoder. */
  function DatapointFile(parseFlag: Int64 -> Effect<QualityFlags.QualityFlag>, order: ColumnOrder, lines: seq<seq<string>>): Outcome<seq<Datapoint>>
  {
    if !Uniform(lines) then Failed(FieldCountError)
    else if lines == [] then Panicked(IndexPanic)
    else DataRows(parseFlag, order, lines[0], QualityColumn(lines[0]), DataColumns(lines[0]), lines[1..], 0, [])
  }

  /** The column loop of one row. */
  method AppendColumnPoints(parseFlag: Int64 -> Effect<QualityFlags.QualityFlag>, ql: int, cols: seq<DataColumn>,
                            line: seq<string>, date: Time, acc: seq<Datapoint>) returns (outcome: Outcome<seq<Datapoint>>)
    ensures outcome == ColumnPoints(parseFlag, ql, cols, line, date, acc)
  {
    var datapoints := acc;
    var j := 0;
    while j < |cols|
      invariant 0 <= j <= |cols|
      invariant ColumnPoints(parseFlag, ql, cols[j..], line, date, datapoints) == ColumnPoints(parseFlag, ql, cols, line, date, acc)
    {
      assert cols[j..][0] == cols[j] && cols[j..][1..] == cols[j + 1..];
      var field := At(line, cols[j].index);
      if field.None? {
        return Panicked(IndexPanic);
      }
      var value := FieldValue(field.value);
      var qualityLevelStr := At(line, ql);
      if qualityLevelStr.None? {
        return Panicked(IndexPanic);
      }
      var qlInt := ParseInt64(qualityLevelStr.value);
      if qlInt.None? {
        return Failed(IntParseError);
      }
      var flag := parseFlag(qlInt.value);
      match flag.status {
        case Panic(r) => return Panicked(r);
        case Err(e) => return Failed(e);
        case Ok =>
      }
      datapoints := datapoints + [Datapoint(cols[j].name, date, value, None, Some(flag.receiver))];
      j := j + 1;
    }
    return Done(datapoints);
  }

  /** The row loop at the idx-th line: that row's date and columns, then the rest. */
  lemma DataRowsStep(parseFlag: Int64 -> Effect<QualityFlags.QualityFlag>, order: ColumnOrder, header: seq<string>, ql: int,
                     cols: seq<DataColumn>, lines: seq<seq<string>>, idx: nat, acc: seq<Datapoint>)
    requires 1 <= idx < |lines|
    ensures DataRows(parseFlag, order, header, ql, cols, lines[idx..], idx - 1, acc) ==
      var points := RowPoints(parseFlag, order, header, ql, cols, lines[idx], idx - 1, acc);
      if !points.Done? then points
      else DataRows(parseFlag, order, header, ql, cols, lines[idx + 1..], idx, points.value)
  {
    assert lines[idx..][0] == lines[idx] && lines[idx..][1..] == lines[idx + 1..];
  }

  /** parseDatapointFile */
  method ParseDatapointFile(parseFlag: Int64 -> Effect<QualityFlags.QualityFlag>, order: ColumnOrder, lines: seq<seq<string>>)
    returns (outcome: Outcome<seq<Datapoint>>)
    ensures outcome == DatapointFile(parseFlag, order, lines)
  {
    if !Uniform(lines) {
      return Failed(FieldCountError);
    }
    if lines == [] {
      return Panicked(IndexPanic);
    }
    var header := lines[0];
    var ql, cols := ClassifyHeader(header);
    var datapoints: seq<Datapoint> := [];
    var idx := 1;
    while idx < |lines|
      invariant 1 <= idx <= |lines|
      invariant DataRows(parseFlag, order, header, ql, cols, lines[idx..], idx - 1, datapoints) == DatapointFile(parseFlag, order, lines)
    {
      DataRowsStep(parseFlag, order, header, ql, cols, lines, idx, datapoints);
      var line := lines[idx];
      var date := RowDate(header, line);
      if !date.Done? {
        return Forward(date);
      }
      var visit := Arrange(cols, order(idx - 1));
      var row := AppendColumnPoints(parseFlag, ql, visit, line, date.value, datapoints);
      assert row == RowPoints(parseFlag, order, header, ql, cols, line, idx - 1, datapoints);
      if !row.Done? {
        return row;
      }
      datapoints := row.value;
      idx := idx + 1;
    }
    return Done(datapoints);
  }

  /** A datapoint of the column loop: the column's name and value, the row's time, no unit, a quality level. */
  predicate ColumnPoint(p: Datapoint, c: DataColumn, line: seq<string>, date: Time)
  {
    p.labelName == c.name && p.timestamp == date && p.unit.None? && p.qualityLevel.Some?
    && c.index < |line| && p.value == FieldValue(line[c.index])
  }

  /**
   * What the column loop produces, whatever the decoder: one datapoint per
   * data column after those already collected, in column order.
   */
  lemma ColumnPointsShape(parseFlag: Int64 -> Effect<QualityFlags.QualityFlag>, ql: int,
                          cols: seq<DataColumn>, line: seq<string>, date: Time, acc: seq<Datapoint>)
    requires ColumnPoints(parseFlag, ql, cols, line, date, acc).Done?
    ensures var ps := ColumnPoints(parseFlag, ql, cols, line, date, acc).value;
      |ps| == |acc| + |cols| && ps[..|acc|] == acc
      && forall j :: 0 <= j < |cols| ==> ColumnPoint(ps[|acc| + j], cols[j], line, date)
  {
    var step := StepOf(parseFlag, ql, line, date);
    EachColumnShape(step, cols, acc);
    var ps := ColumnPoints(parseFlag, ql, cols, line, date, acc).value;
    forall j | 0 <= j < |cols|
      ensures ColumnPoint(ps[|acc| + j], cols[j], line, date)
    {
      assert step(cols[j]) == ColumnStep(parseFlag, ql, cols[j], line, date);
      ColumnStepPoint(parseFlag, ql, cols[j], line, date);
    }
  }

  /**
   * On a row that holds every data column, the stop of a column's step does
   * not depend on the column: only the quality field and the decoder decide.
   */
  lemma StepsAgree(parseFlag: Int64 -> Effect<QualityFlags.QualityFlag>, ql: int, a: DataColumn, b: DataColumn,
                   line: seq<string>, date: Time)
    requires a.index < |line| && b.index < |line|
    ensures ColumnStep(parseFlag, ql, a, line, date).Done? == ColumnStep(parseFlag, ql, b, line, date).Done?
    ensures !ColumnStep(parseFlag, ql, a, line, date).Done? ==>
      ColumnStep(parseFlag, ql, a, line, date) == ColumnStep(parseFlag, ql, b, line, date)
  {
  }

  /** Hence a row with a data column stops exactly when the step of any one of its columns does, and for that reason. */
  lemma {:induction false} RowStopsAsOneColumn(parseFlag: Int64 -> Effect<QualityFlags.QualityFlag>, ql: int,
                                               visit: seq<DataColumn>, line: seq<string>, date: Time,
                                               acc: seq<Datapoint>, col: DataColumn)
    requires forall j :: 0 <= j < |visit| ==> visit[j].index < |line|
    requires col.index < |line| && visit != []
    ensures ColumnPoints(parseFlag, ql, visit, line, date, acc).Done? == ColumnStep(parseFlag, ql, col, line, date).Done?
    ensures !ColumnStep(parseFlag, ql, col, line, date).Done? ==>
      ColumnPoints(parseFlag, ql, visit, line, date, acc) == Forward(ColumnStep(parseFlag, ql, col, line, date))
    decreases |visit|
  {
    var step := StepOf(parseFlag, ql, line, date);
    assert step(visit[0]) == ColumnStep(parseFlag, ql, visit[0], line, date);
    StepsAgree(parseFlag, ql, visit[0], col, line, date);
    if step(visit[0]).Done? {
      var acc1 := acc + [step(visit[0]).value];
      assert ColumnPoints(parseFlag, ql, visit, line, date, acc) == EachColumn(step, visit[1..], acc1);
      if |visit| > 1 {
        RowStopsAsOneColumn(parseFlag, ql, visit[1..], line, date, acc1, col);
      } else {
        assert EachColumn(step, visit[1..], acc1) == Done(acc1);
      }
    }
  }

  /** Every column the order visits is a column of the header, so it lies inside a row of the header's width. */
  lemma ArrangedInRow(cols: seq<DataColumn>, choice: seq<nat>, line: seq<string>)
    requires forall j :: 0 <= j < |cols| ==> cols[j].index < |line|
    ensures forall j :: 0 <= j < |Arrange(cols, choice)| ==> Arrange(cols, choice)[j].index < |line|
  {
    var visit := Arrange(cols, choice);
    ArrangePermutes(cols, choice);
    forall j | 0 <= j < |visit|
      ensures visit[j].index < |line|
    {
      assert visit[j] in multiset(visit);
    }
  }

  /**
   * The column order decides the order of a row's datapoints, but not
   * whether the row stops, nor which failure it reports.
   */
  lemma FailureWhateverOrder(parseFlag: Int64 -> Effect<QualityFlags.QualityFlag>, ql: int, cols: seq<DataColumn>,
                             line: seq<string>, date: Time, acc: seq<Datapoint>, acc': seq<Datapoint>,
                             one: seq<nat>, other: seq<nat>)
    requires forall j :: 0 <= j < |cols| ==> cols[j].index < |line|
    ensures ColumnPoints(parseFlag, ql, Arrange(cols, one), line, date, acc).Done?
        == ColumnPoints(parseFlag, ql, Arrange(cols, other), line, date, acc').Done?
    ensures !ColumnPoints(parseFlag, ql, Arrange(cols, one), line, date, acc).Done? ==>
      ColumnPoints(parseFlag, ql, Arrange(cols, one), line, date, acc)
        == ColumnPoints(parseFlag, ql, Arrange(cols, other), line, date, acc')
  {
    if cols != [] {
      ArrangedInRow(cols, one, line);
      ArrangedInRow(cols, other, line);
      RowStopsAsOneColumn(parseFlag, ql, Arrange(cols, one), line, date, acc, cols[0]);
      RowStopsAsOneColumn(parseFlag, ql, Arrange(cols, other), line, date, acc', cols[0]);
    }
  }

  /** The same over the rows of a file: the orders of two runs may differ row by row. */
  lemma {:induction false} DataRowsFailureWhateverOrder(parseFlag: Int64 -> Effect<QualityFlags.QualityFlag>,
                                                        one: ColumnOrder, other: ColumnOrder, header: seq<string>, ql: int,
                                                        cols: seq<DataColumn>, rows: seq<seq<string>>, at: nat,
                                                        acc: seq<Datapoint>, acc': seq<Datapoint>)
    requires forall j :: 0 <= j < |cols| ==> cols[j].index < |header|
    requires forall i :: 0 <= i < |rows| ==> |rows[i]| == |header|
    ensures DataRows(parseFlag, one, header, ql, cols, rows, at, acc).Done?
        == DataRows(parseFlag, other, header, ql, cols, rows, at, acc').Done?
    ensures !DataRows(parseFlag, one, header, ql, cols, rows, at, acc).Done? ==>
      DataRows(parseFlag, one, header, ql, cols, rows, at, acc) == DataRows(parseFlag, other, header, ql, cols, rows, at, acc')
    decreases |rows|
  {
    if rows != [] && RowDate(header, rows[0]).Done? {
      var date := RowDate(header, rows[0]).value;
      FailureWhateverOrder(parseFlag, ql, cols, rows[0], date, acc, acc', one(at), other(at));
      var p := RowPoints(parseFlag, one, header, ql, cols, rows[0], at, acc);
      var p' := RowPoints(parseFlag, other, header, ql, cols, rows[0], at, acc');
      if p.Done? {
        DataRowsFailureWhateverOrder(parseFlag, one, other, header, ql, cols, rows[1..], at + 1, p.value, p'.value);
      }
    }
  }

  /**
   * parseDatapointFile succeeds or fails alike whatever order the map
   * ranges take, and a failure is the same; only a success's order of
   * datapoints depends on them.
   */
  lemma DatapointFileFailureWhateverOrder(parseFlag: Int64 -> Effect<QualityFlags.QualityFlag>,
                                          one: ColumnOrder, other: ColumnOrder, lines: seq<seq<string>>)
    ensures DatapointFile(parseFlag, one, lines).Done? == DatapointFile(parseFlag, other, lines).Done?
    ensures !DatapointFile(parseFlag, one, lines).Done? ==> DatapointFile(parseFlag, one, lines) == DatapointFile(parseFlag, other, lines)
  {
    if Uniform(lines) && lines != [] {
      DataRowsFailureWhateverOrder(parseFlag, one, other, lines[0], QualityColumn(lines[0]), DataColumns(lines[0]),
                                   lines[1..], 0, [], []);
    }
  }

  /** A column loop that does not stop appends, in column order, the datapoint of each column's step. */
  lemma {:induction false} EachColumnShape(step: DataColumn -> Outcome<Datapoint>, cols: seq<DataColumn>, acc: seq<Datapoint>)
    requires EachColumn(step, cols, acc).Done?
    ensures var ps := EachColumn(step, cols, acc).value;
      |ps| == |acc| + |cols| && ps[..|acc|] == acc
      && forall j :: 0 <= j < |cols| ==> step(cols[j]) == Done(ps[|acc| + j])
    decreases |cols|
  {
    if cols != [] {
      var p := step(cols[0]).value;
      var acc' := acc + [p];
      var rest := cols[1..];
      EachColumnShape(step, rest, acc');
      var ps := EachColumn(step, cols, acc).value;
      assert ps == EachColumn(step, rest, acc').value;
      assert ps[..|acc'|] == acc';
      assert ps[..|acc|] == ps[..|acc'|][..|acc|];
      forall j | 0 <= j < |cols|
        ensures step(cols[j]) == Done(ps[|acc| + j])
      {
        if j == 0 {
          assert ps[|acc|] == ps[..|acc'|][|acc|] == p;
        } else {
          assert cols[j] == rest[j - 1] && |acc| + j == |acc'| + (j - 1);
        }
      }
    }
  }

  /** A step that does not stop gives the column's datapoint. */
  lemma ColumnStepPoint(parseFlag: Int64 -> Effect<QualityFlags.QualityFlag>, ql: int, col: DataColumn,
                        line: seq<string>, date: Time)
    requires ColumnStep(parseFlag, ql, col, line, date).Done?
    ensures ColumnPoint(ColumnStep(parseFlag, ql, col, line, date).value, col, line, date)
  {
  }

  /** The decoder as written panics on every int64: the reflect IsNil guard refuses it. */
  lemma ParseQualityInt64Panics(v: Int64)
    ensures ParseQualityInt64(v) == Effect(QualityFlags.Unflagged, Panic(QualityFlags.IsNilPanic))
  {
  }

  /**
   * With the decoder as written, a row that reaches its first data column
   * ends the parse with a panic or an error: no row with a data column ever
   * yields a datapoint.
   */
  lemma ColumnPointsNeverDone(ql: int, cols: seq<DataColumn>, line: seq<string>, date: Time, acc: seq<Datapoint>)
    requires cols != []
    ensures !ColumnPoints(ParseQualityInt64, ql, cols, line, date, acc).Done?
  {
    ParseQualityInt64Panics(if 0 <= ql < |line| && ParseInt64(line[ql]).Some? then ParseInt64(line[ql]).value else 0);
  }

  /** Hence the row loop as written succeeds only when there is no data column or no row, and adds nothing. */
  lemma {:induction false} DataRowsAsWritten(order: ColumnOrder, header: seq<string>, ql: int, cols: seq<DataColumn>,
                                             rows: seq<seq<string>>, at: nat, acc: seq<Datapoint>)
    requires DataRows(ParseQualityInt64, order, header, ql, cols, rows, at, acc).Done?
    ensures cols == [] || rows == []
    ensures DataRows(ParseQualityInt64, order, header, ql, cols, rows, at, acc).value == acc
    decreases |rows|
  {
    if rows != [] {
      if cols != [] {
        ColumnPointsNeverDone(ql, Arrange(cols, order(at)), rows[0], RowDate(header, rows[0]).value, acc);
      } else {
        DataRowsAsWritten(order, header, ql, cols, rows[1..], at + 1, acc);
      }
    }
  }

  /**
   * parseDatapointFile never returns a datapoint: it succeeds only on a file
   * whose header has no data column or that has no row after the header,
   * and the result is then empty.
   */
  lemma DatapointFileYieldsNothing(order: ColumnOrder, lines: seq<seq<string>>)
    requires DatapointFile(ParseQualityInt64, order, lines).Done?
    ensures DatapointFile(ParseQualityInt64, order, lines).value == []
    ensures DataColumns(lines[0]) == [] || |lines| == 1
  {
    DataRowsAsWritten(order, lines[0], QualityColumn(lines[0]), DataColumns(lines[0]), lines[1..], 0, []);
  }

  /**
   * The int case of QualityFlag.Parse (quality-flag.go lines 60-67), which
   * the file parser evidently means to reach: 0..7 is that flag, any other
   * value FlagNonExistent, and neither is an error.
   */
  const ParseQualityInt: Int64 -> Effect<QualityFlags.QualityFlag> :=
    (v: Int64) => if 0 <= v <= 7 then Effect(v, Ok) else Effect(QualityFlags.NonExistent, Ok)

  /**
   * With that decoder every row whose fields are all present and whose
   * quality field is an integer yields one datapoint per data column.
   */
  lemma {:induction false} ColumnPointsWithIntDecoder(ql: int, cols: seq<DataColumn>, line: seq<string>,
                                                      date: Time, acc: seq<Datapoint>)
    requires forall j :: 0 <= j < |cols| ==> cols[j].index < |line|
    requires 0 <= ql < |line| && ParseInt64(line[ql]).Some?
    ensures ColumnPoints(ParseQualityInt, ql, cols, line, date, acc).Done?
    ensures |ColumnPoints(ParseQualityInt, ql, cols, line, date, acc).value| == |acc| + |cols|
    decreases |cols|
  {
    if cols != [] {
      var p := ColumnStep(ParseQualityInt, ql, cols[0], line, date).value;
      ColumnPointsWithIntDecoder(ql, cols[1..], line, date, acc + [p]);
    }
  }

  /** A row's timestamp is the instant read in UTC; only its presentation changes before 2000. */
  lemma RowDateRelabels(header: seq<string>, line: seq<string>)
    requires RowDate(header, line).Done?
    ensures var c := ParseByLength(Column(header, line, DateColumn).value); var t := RowDate(header, line).value;
      c.Some? && t.ns == Instant(c.value)
      && (c.value.year < 2000 ==> t.zone == EtcGmtMinus1)
      && (c.value.year >= 2000 ==> t.zone == UTC)
  {
  }

  // =============================================================== gap file

  /** A placeholder for a missing measurement: no value, no unit, no quality level. */
  predicate IsPlaceholder(p: Datapoint)
  {
    p.value == NoValue && p.unit.None? && p.qualityLevel.None?
  }

  function Placeholder(name: string, t: Time): Datapoint
  {
    Datapoint(name, t, NoValue, None, None)
  }

  /** The placeholders of the counted loop: i * step nanoseconds after start for i = 0 .. n-1, in int64 arithmetic. */
  function Grid(name: string, start: Time, step: Int64, n: nat): seq<Datapoint>
  {
    seq(n, i requires 0 <= i < n => Placeholder(name, Add(start, Wrap64(i * step))))
  }

  /**
   * The placeholders of one gap row once start, end and count are read
   * (lines 319-341); the label is looked up for each placeholder, so a
   * missing Parameter column panics only when there is one to make.
   */
  function GapPoints(header: seq<string>, line: seq<string>, start: Time, end: Time, count: Int64): (r: Outcome<seq<Datapoint>>)
    ensures r.Done? ==> forall i :: 0 <= i < |r.value| ==> IsPlaceholder(r.value[i])
  {
    var parameter := Column(header, line, GapParameterColumn);
    if count == 1 then
      if parameter.None? then Panicked(IndexPanic) else Done([Placeholder(parameter.value, start)])
    else
      // missingDatapointCount - 1 in int64: one below MinInt64 wraps to MaxInt64
      var n: Int64 := if count == MinInt64 then MaxInt64 else count - 1;
      var step := Wrap64(TruncDiv(Sub(end, start), n));
      if n <= 0 then Done([])
      else if parameter.None? then Panicked(IndexPanic)
      else Done(Grid(parameter.value, start, step, n))
  }

  /** One row of the gap file (lines 304-341). */
  function GapRow(header: seq<string>, line: seq<string>): Outcome<seq<Datapoint>>
  {
    var startField := Column(header, line, GapStartColumn);
    if startField.None? then Panicked(IndexPanic)
    else
      var start := ParseGapTime(startField.value);
      if start.None? then Failed(TimeParseError)
      else
        var endField := Column(header, line, GapEndColumn);
        if endField.None? then Panicked(IndexPanic)
        else
          var end := ParseGapTime(endField.value);
          if end.None? then Failed(TimeParseError)
          else
            var countField := Column(header, line, GapCountColumn);
            if countField.None? then Panicked(IndexPanic)
            else
              var count := ParseInt64(countField.value);
              if count.None? then Failed(IntParseError)
              else GapPoints(header, line, ToTime(start.value), ToTime(end.value), count.value)
  }

  /** How the row loop reads one gap row. */
  type GapReader = seq<string> -> Outcome<seq<Datapoint>>

  /** Reading a gap row under the given header. */
  function GapRowsUnder(header: seq<string>): (read: GapReader)
    ensures forall line :: read(line) == GapRow(header, line)
  {
    line => GapRow(header, line)
  }

  /**
   * The row loop of generateMissingDatapoints from row idx on, each row
   * read by `read`. The header, rows whose first field is "Stations_ID" and
   * the last row are passed over; reading the first field of an empty row
   * panics, even in the last row.
   */
  function GapLines(read: GapReader, lines: seq<seq<string>>, idx: nat, acc: seq<Datapoint>): Outcome<seq<Datapoint>>
    decreases |lines| - idx
  {
    if idx >= |lines| then Done(acc)
    else if idx == 0 then GapLines(read, lines, 1, acc)
    else if lines[idx] == [] then Panicked(IndexPanic)
    else if lines[idx][0] == GapStationIdField || idx == |lines| - 1 then GapLines(read, lines, idx + 1, acc)
    else
      var r := read(lines[idx]);
      if !r.Done? then Forward(r) else GapLines(read, lines, idx + 1, acc + r.value)
  }

  /** generateMissingDatapoints on the rows of the entry. */
  function MissingDatapoints(lines: seq<seq<string>>): Outcome<seq<Datapoint>>
  {
    if lines == [] then Panicked(IndexPanic) else GapLines(GapRowsUnder(lines[0]), lines, 0, [])
  }

  /** The counted loop of lines 332-341. */
  method AppendGrid(name: string, start: Time, step: Int64, n: Int64, acc: seq<Datapoint>) returns (points: seq<Datapoint>)
    ensures points == acc + (if n > 0 then Grid(name, start, step, n) else [])
  {
    points := acc;
    if n <= 0 {
      return;
    }
    var i: nat := 0;
    assert Grid(name, start, step, 0) == [];
    while i < n
      invariant i <= n
      invariant points == acc + Grid(name, start, step, i)
    {
      var offset := Wrap64(i * step);
      assert Grid(name, start, step, i + 1) == Grid(name, start, step, i) + [Placeholder(name, Add(start, offset))];
      points := points + [Placeholder(name, Add(start, offset))];
      i := i + 1;
    }
  }

  /** The body of the row loop for a row that is read. */
  method GapRowPoints(header: seq<string>, line: seq<string>) returns (outcome: Outcome<seq<Datapoint>>)
    ensures outcome == GapRow(header, line)
  {
    var startField := Column(header, line, GapStartColumn);
    if startField.None? {
      return Panicked(IndexPanic);
    }
    var missingDataStart := ParseGapTime(startField.value);
    if missingDataStart.None? {
      return Failed(TimeParseError);
    }
    var endField := Column(header, line, GapEndColumn);
    if endField.None? {
      return Panicked(IndexPanic);
    }
    var missingDataEnd := ParseGapTime(endField.value);
    if missingDataEnd.None? {
      return Failed(TimeParseError);
    }
    var countField := Column(header, line, GapCountColumn);
    if countField.None? {
      return Panicked(IndexPanic);
    }
    var count := ParseInt64(countField.value);
    if count.None? {
      return Failed(IntParseError);
    }
    outcome := MakePlaceholders(header, line, ToTime(missingDataStart.value), ToTime(missingDataEnd.value), count.value);
  }

  /** Lines 319-341. */
  method MakePlaceholders(header: seq<string>, line: seq<string>, start: Time, end: Time, count: Int64)
    returns (outcome: Outcome<seq<Datapoint>>)
    ensures outcome == GapPoints(header, line, start, end, count)
  {
    var parameter := Column(header, line, GapParameterColumn);
    if count == 1 {
      if parameter.None? {
        return Panicked(IndexPanic);
      }
      return Done([Placeholder(parameter.value, start)]);
    }
    var n: Int64 := if count == MinInt64 then MaxInt64 else count - 1;
    var timeStep := Wrap64(TruncDiv(Sub(end, start), n));
    if n <= 0 {
      return Done([]);
    }
    if parameter.None? {
      return Panicked(IndexPanic);
    }
    var points := AppendGrid(parameter.value, start, timeStep, n, []);
    assert points == Grid(parameter.value, start, timeStep, n);
    return Done(points);
  }

  /** generateMissingDatapoints */
  method GenerateMissingDatapoints(lines: seq<seq<string>>) returns (outcome: Outcome<seq<Datapoint>>)
    ensures outcome == MissingDatapoints(lines)
  {
    if lines == [] {
      return Panicked(IndexPanic);
    }
    var header := lines[0];
    ghost var read := GapRowsUnder(header);
    var generated: seq<Datapoint> := [];
    var idx := 0;
    while idx < |lines|
      invariant 0 <= idx <= |lines|
      invariant GapLines(read, lines, idx, generated) == MissingDatapoints(lines)
    {
      if idx != 0 {
        var line := lines[idx];
        if line == [] {
          return Panicked(IndexPanic);
        }
        if line[0] != GapStationIdField && idx != |lines| - 1 {
          var r := GapRowPoints(header, line);
          assert r == read(line);
          if !r.Done? {
            return Forward(r);
          }
          generated := generated + r.value;
        }
      }
      idx := idx + 1;
    }
    return Done(generated);
  }

  /** 0 <= i < n and 0 <= step give 0 <= i * step <= diff whenever n * step <= diff. */
  lemma GridOffsetBounds(i: int, n: int, step: int, diff: int)
    requires 0 <= i < n && 0 <= step && n * step <= diff
    ensures 0 <= i * step <= (n - 1) * step && (n - 1) * step + step <= diff
  {
    assert (n - 1) * step - i * step == (n - 1 - i) * step;
    assert (n - 1) * step + step == n * step;
  }

  /**
   * A gap of count >= 2 samples between start and end (at most MaxInt64
   * nanoseconds apart) gives count - 1 placeholders, the i-th at
   * start + i * ((end - start) div (count - 1)): evenly spaced from start,
   * and short of end whenever start and end differ.
   */
  lemma GapSpacing(header: seq<string>, line: seq<string>, start: Time, end: Time, count: Int64)
    requires Column(header, line, GapParameterColumn).Some?
    requires 2 <= count && start.ns <= end.ns <= start.ns + MaxInt64
    ensures var r := GapPoints(header, line, start, end, count);
      r.Done? && |r.value| == count - 1
      && forall i :: 0 <= i < count - 1 ==>
           r.value[i] == Placeholder(Column(header, line, GapParameterColumn).value,
                                     Time(start.ns + i * ((end.ns - start.ns) / (count - 1)), start.zone))
           && (start.ns < end.ns ==> r.value[i].timestamp.ns < end.ns)
           && start.ns <= r.value[i].timestamp.ns
  {
    var n := count - 1;
    var diff := end.ns - start.ns;
    var step := diff / n;
    assert Sub(end, start) == diff;
    assert TruncDiv(diff, n) == step;
    assert n * step <= diff;
    forall i | 0 <= i < n
      ensures 0 <= i * step <= diff && (diff > 0 ==> i * step < diff)
    {
      GridOffsetBounds(i, n, step, diff);
    }
  }

  /** A single missing sample is one placeholder at the start of the gap. */
  lemma GapSingleSample(header: seq<string>, line: seq<string>, start: Time, end: Time)
    requires Column(header, line, GapParameterColumn).Some?
    ensures GapPoints(header, line, start, end, 1) == Done([Placeholder(Column(header, line, GapParameterColumn).value, start)])
  {
  }

  /** A count of zero or below gives nothing, and no Parameter column is needed. */
  lemma GapNoSamples(header: seq<string>, line: seq<string>, start: Time, end: Time, count: Int64)
    requires MinInt64 < count <= 0
    ensures GapPoints(header, line, start, end, count) == Done([])
  {
  }

  /** The smallest int64 count wraps around: count - 1 becomes MaxInt64 and as many placeholders are made. */
  lemma GapCountWraps(header: seq<string>, line: seq<string>, start: Time, end: Time)
    requires Column(header, line, GapParameterColumn).Some?
    ensures GapPoints(header, line, start, end, MinInt64).Done?
    ensures |GapPoints(header, line, start, end, MinInt64).value| == MaxInt64
  {
  }

  /** The rows that contribute placeholders: after the header, before the last row, and not a "Stations_ID" row. */
  predicate Counted(lines: seq<seq<string>>, i: int)
    requires 0 <= i < |lines|
  {
    0 < i < |lines| - 1 && lines[i] != [] && lines[i][0] != GapStationIdField
  }

  /** The placeholders of the counted rows from idx on, in order. */
  function CountedPoints(read: GapReader, lines: seq<seq<string>>, idx: nat): seq<Datapoint>
    decreases |lines| - idx
  {
    if idx >= |lines| then []
    else
      var here := if Counted(lines, idx) && read(lines[idx]).Done? then read(lines[idx]).value else [];
      here + CountedPoints(read, lines, idx + 1)
  }

  /** The gap file reads exactly when no row after the header is empty and every counted row reads. */
  lemma {:induction false} GapLinesDone(read: GapReader, lines: seq<seq<string>>, idx: nat, acc: seq<Datapoint>)
    ensures GapLines(read, lines, idx, acc).Done? <==>
      forall i :: idx <= i < |lines| && 0 < i ==> lines[i] != [] && (Counted(lines, i) ==> read(lines[i]).Done?)
    decreases |lines| - idx
  {
    if idx < |lines| {
      if idx == 0 {
        GapLinesDone(read, lines, 1, acc);
      } else if lines[idx] != [] {
        var r := read(lines[idx]);
        if !Counted(lines, idx) {
          GapLinesDone(read, lines, idx + 1, acc);
        } else if r.Done? {
          GapLinesDone(read, lines, idx + 1, acc + r.value);
        }
      }
    }
  }

  /**
   * Once read, the result is the counted rows' placeholders in order: the
   * header, "Stations_ID" rows and the last row contribute nothing.
   */
  lemma {:induction false} GapLinesValue(read: GapReader, lines: seq<seq<string>>, idx: nat, acc: seq<Datapoint>)
    requires GapLines(read, lines, idx, acc).Done?
    ensures GapLines(read, lines, idx, acc).value == acc + CountedPoints(read, lines, idx)
    decreases |lines| - idx
  {
    if idx < |lines| {
      if idx == 0 {
        GapLinesValue(read, lines, 1, acc);
        assert !Counted(lines, 0);
      } else if !Counted(lines, idx) {
        GapLinesValue(read, lines, idx + 1, acc);
      } else {
        var r := read(lines[idx]).value;
        GapLinesValue(read, lines, idx + 1, acc + r);
        assert acc + r + CountedPoints(read, lines, idx + 1) == acc + (r + CountedPoints(read, lines, idx + 1));
      }
    }
  }

  /** Whatever a reader that makes only placeholders reads, the counted rows give only placeholders. */
  lemma {:induction false} CountedPointsArePlaceholders(read: GapReader, lines: seq<seq<string>>, idx: nat)
    requires forall line :: read(line).Done? ==> forall i :: 0 <= i < |read(line).value| ==> IsPlaceholder(read(line).value[i])
    ensures forall i :: 0 <= i < |CountedPoints(read, lines, idx)| ==> IsPlaceholder(CountedPoints(read, lines, idx)[i])
    decreases |lines| - idx
  {
    if idx < |lines| {
      CountedPointsArePlaceholders(read, lines, idx + 1);
    }
  }

  /**
   * The gap file reads exactly when no row after the header is empty and
   * every counted row reads; its result is then the counted rows'
   * placeholders in order, and nothing but placeholders.
   */
  lemma MissingDatapointsRows(lines: seq<seq<string>>)
    requires lines != []
    ensures MissingDatapoints(lines).Done? <==>
      forall i :: 0 < i < |lines| ==> lines[i] != [] && (Counted(lines, i) ==> GapRow(lines[0], lines[i]).Done?)
    ensures MissingDatapoints(lines).Done? ==>
      && MissingDatapoints(lines).value == CountedPoints(GapRowsUnder(lines[0]), lines, 0)
      && forall i :: 0 <= i < |MissingDatapoints(lines).value| ==> IsPlaceholder(MissingDatapoints(lines).value[i])
  {
    var read := GapRowsUnder(lines[0]);
    GapLinesDone(read, lines, 0, []);
    if MissingDatapoints(lines).Done? {
      GapLinesValue(read, lines, 0, []);
      CountedPointsArePlaceholders(read, lines, 0);
    }
  }

  // ================================================================ archive

  /** What ReadArchive does with an entry, by its name (lines 61-84). */
  datatype EntryKind = Ignored | ParametersFile | MissingValuesFile | DataFile

  function Kind(name: string): (k: EntryKind)
    ensures k.Ignored? <==> (!HasSuffix(name, TextSuffix)
      || (!HasPrefix(name, ParametersPrefix) && !HasPrefix(name, MissingValuesPrefix) && !HasPrefix(name, DataFilePrefix)))
    ensures k.ParametersFile? <==> HasSuffix(name, TextSuffix) && HasPrefix(name, ParametersPrefix)
    ensures k.DataFile? ==> HasSuffix(name, TextSuffix) && HasPrefix(name, DataFilePrefix)
  {
    if !HasSuffix(name, TextSuffix) then Ignored
    else if HasPrefix(name, ParametersPrefix) then ParametersFile
    else if HasPrefix(name, MissingValuesPrefix) then MissingValuesFile
    else if HasPrefix(name, DataFilePrefix) then DataFile
    else Ignored
  }

  /** The loop variables of ReadArchive: metadata, the collected datapoints and the parsed ones. */
  datatype ArchiveState = ArchiveState(metadata: seq<FieldMetadata>, datapoints: seq<Datapoint>, parsed: seq<Datapoint>)

  const NoEntriesRead := ArchiveState([], [], [])

  /**
   * One pass of the entry loop: a parameters file replaces the metadata, a
   * missing-values file appends its placeholders, a data file replaces the
   * parsed datapoints; a failure ends the read.
   */
  function EntryStep(parseFlag: Int64 -> Effect<QualityFlags.QualityFlag>, order: ColumnOrder, s: ArchiveState, e: Entry): Outcome<ArchiveState>
  {
    match Kind(e.name)
    case Ignored => Done(s)
    case ParametersFile =>
      var m := MetadataFile(e.rows);
      if !m.Done? then Forward(m) else Done(s.(metadata := m.value))
    case MissingValuesFile =>
      var g := MissingDatapoints(e.rows);
      if !g.Done? then Forward(g) else Done(s.(datapoints := s.datapoints + g.value))
    case DataFile =>
      var p := DatapointFile(parseFlag, order, e.rows);
      if !p.Done? then Forward(p) else Done(s.(parsed := p.value))
  }

  /** The entry loop over the entries in archive order. */
  function Entries(parseFlag: Int64 -> Effect<QualityFlags.QualityFlag>, order: ColumnOrder, s: ArchiveState, es: seq<Entry>): Outcome<ArchiveState>
    decreases |es|
  {
    if es == [] then Done(s)
    else
      var next := EntryStep(parseFlag, order, s, es[0]);
      if !next.Done? then Forward(next) else Entries(parseFlag, order, next.value, es[1..])
  }

  /** The units map of lines 97-100, filled in order, so a later field of the same name overwrites. */
  function UnitsOf(ms: seq<FieldMetadata>): map<string, string>
    decreases |ms|
  {
    if ms == [] then map[] else UnitsOf(ms[..|ms| - 1])[ms[|ms| - 1].name := ms[|ms| - 1].unit]
  }

  /** units[label]: the empty string for a label without a field. */
  function Lookup(units: map<string, string>, labelName: string): string
  {
    if labelName in units then units[labelName] else ""
  }

  /** The parsed datapoints with the unit of their label set (lines 102-106). */
  function WithUnits(units: map<string, string>, ps: seq<Datapoint>): (r: seq<Datapoint>)
    ensures |r| == |ps|
    ensures forall i :: 0 <= i < |ps| ==> r[i] == ps[i].(unit := Some(Lookup(units, ps[i].labelName)))
  {
    seq(|ps|, i requires 0 <= i < |ps| => ps[i].(unit := Some(Lookup(units, ps[i].labelName))))
  }

  /** The datapoints and metadata ReadArchive returns. */
  datatype ArchiveContents = ArchiveContents(datapoints: seq<Datapoint>, metadata: seq<FieldMetadata>)

  /**
   * After the entry loop (lines 93-108): with no metadata or no collected
   * datapoint the parsed datapoints are dropped; otherwise they follow the
   * collected ones, each with its unit set.
   */
  function Finish(s: ArchiveState): (r: ArchiveContents)
    ensures r.metadata == s.metadata
    ensures s.metadata == [] || s.datapoints == [] ==> r.datapoints == s.datapoints
    ensures s.metadata != [] && s.datapoints != [] ==>
      r.datapoints == s.datapoints + WithUnits(UnitsOf(s.metadata), s.parsed)
  {
    if s.metadata == [] || s.datapoints == [] then ArchiveContents(s.datapoints, s.metadata)
    else ArchiveContents(s.datapoints + WithUnits(UnitsOf(s.metadata), s.parsed), s.metadata)
  }

  /** ReadArchive on the entries of an opened archive. */
  function Archive(parseFlag: Int64 -> Effect<QualityFlags.QualityFlag>, order: ColumnOrder, entries: seq<Entry>): Outcome<ArchiveContents>
  {
    var s := Entries(parseFlag, order, NoEntriesRead, entries);
    if !s.Done? then Forward(s) else Done(Finish(s.value))
  }

  /** ReadArchive */
  method ReadArchive(parseFlag: Int64 -> Effect<QualityFlags.QualityFlag>, order: ColumnOrder, entries: seq<Entry>)
    returns (outcome: Outcome<ArchiveContents>)
    ensures outcome == Archive(parseFlag, order, entries)
  {
    var metadata: seq<FieldMetadata> := [];
    var datapoints: seq<Datapoint> := [];
    var parsed: seq<Datapoint> := [];
    var i := 0;
    while i < |entries|
      invariant 0 <= i <= |entries|
      invariant Entries(parseFlag, order, ArchiveState(metadata, datapoints, parsed), entries[i..])
        == Entries(parseFlag, order, NoEntriesRead, entries)
    {
      assert entries[i..][0] == entries[i] && entries[i..][1..] == entries[i + 1..];
      var file := entries[i];
      ghost var s := ArchiveState(metadata, datapoints, parsed);
      var kind := Kind(file.name);
      if kind.ParametersFile? {
        var m := ParseMetadataFile(file.rows);
        if !m.Done? {
          return Forward(m);
        }
        metadata := m.value;
      } else if kind.MissingValuesFile? {
        var g := GenerateMissingDatapoints(file.rows);
        if !g.Done? {
          return Forward(g);
        }
        datapoints := datapoints + g.value;
      } else if kind.DataFile? {
        var p := ParseDatapointFile(parseFlag, order, file.rows);
        if !p.Done? {
          return Forward(p);
        }
        parsed := p.value;
      }
      assert EntryStep(parseFlag, order, s, file) == Done(ArchiveState(metadata, datapoints, parsed));
      i := i + 1;
    }
    ghost var last := ArchiveState(metadata, datapoints, parsed);
    assert Entries(parseFlag, order, NoEntriesRead, entries) == Done(last);
    if metadata == [] || datapoints == [] {
      return Done(ArchiveContents(datapoints, metadata));
    }
    var units := BuildUnits(metadata);
    var result := datapoints;
    var j := 0;
    while j < |parsed|
      invariant 0 <= j <= |parsed|
      invariant result == datapoints + WithUnits(units, parsed[..j])
    {
      var dp := parsed[j].(unit := Some(Lookup(units, parsed[j].labelName)));
      assert WithUnits(units, parsed[..j + 1]) == WithUnits(units, parsed[..j]) + [dp];
      result := result + [dp];
      j := j + 1;
    }
    assert parsed[..j] == parsed;
    return Done(ArchiveContents(result, metadata));
  }

  /** The units loop of lines 97-100. */
  method BuildUnits(ms: seq<FieldMetadata>) returns (units: map<string, string>)
    ensures units == UnitsOf(ms)
  {
    units := map[];
    var i := 0;
    while i < |ms|
      invariant 0 <= i <= |ms|
      invariant units == UnitsOf(ms[..i])
    {
      assert ms[..i + 1][..i] == ms[..i];
      units := units[ms[i].name := ms[i].unit];
      i := i + 1;
    }
    assert ms[..i] == ms;
  }

  /** A label has a unit exactly when some field carries its name. */
  lemma {:induction false} UnitsOfDomain(ms: seq<FieldMetadata>, labelName: string)
    ensures labelName in UnitsOf(ms) <==> exists k :: 0 <= k < |ms| && ms[k].name == labelName
    decreases |ms|
  {
    if ms != [] {
      var init := ms[..|ms| - 1];
      UnitsOfDomain(init, labelName);
      if labelName in UnitsOf(init) {
        var k :| 0 <= k < |init| && init[k].name == labelName;
        assert ms[k] == init[k];
      } else if labelName != ms[|ms| - 1].name {
        forall k | 0 <= k < |ms|
          ensures ms[k].name != labelName
        {
          if k < |init| {
            assert ms[k] == init[k];
          }
        }
      }
    }
  }

  /** The unit of a label is that of the last field carrying its name. */
  lemma {:induction false} UnitsOfLast(ms: seq<FieldMetadata>, k: nat)
    requires k < |ms|
    requires forall j :: k < j < |ms| ==> ms[j].name != ms[k].name
    ensures Lookup(UnitsOf(ms), ms[k].name) == ms[k].unit
    decreases |ms|
  {
    if k < |ms| - 1 {
      var init := ms[..|ms| - 1];
      assert init[k] == ms[k];
      UnitsOfLast(init, k);
    }
  }

  /** An entry that is not a text file, or has none of the three prefixes, changes nothing. */
  lemma IgnoredEntryChangesNothing(parseFlag: Int64 -> Effect<QualityFlags.QualityFlag>, order: ColumnOrder, s: ArchiveState, e: Entry)
    requires !HasSuffix(e.name, TextSuffix)
      || (!HasPrefix(e.name, ParametersPrefix) && !HasPrefix(e.name, MissingValuesPrefix) && !HasPrefix(e.name, DataFilePrefix))
    ensures EntryStep(parseFlag, order, s, e) == Done(s)
  {
  }

  /** Reading two runs of entries in turn is reading them together. */
  lemma {:induction false} EntriesAppend(parseFlag: Int64 -> Effect<QualityFlags.QualityFlag>, order: ColumnOrder, s: ArchiveState, a: seq<Entry>, b: seq<Entry>)
    ensures Entries(parseFlag, order, s, a + b) ==
      (var mid := Entries(parseFlag, order, s, a); if !mid.Done? then mid else Entries(parseFlag, order, mid.value, b))
    decreases |a|
  {
    if a == [] {
      assert a + b == b;
    } else {
      assert (a + b)[0] == a[0] && (a + b)[1..] == a[1..] + b;
      var next := EntryStep(parseFlag, order, s, a[0]);
      if next.Done? {
        EntriesAppend(parseFlag, order, next.value, a[1..], b);
      }
    }
  }

  /** Entries that are not parameters files keep the metadata read so far. */
  lemma {:induction false} OtherEntriesKeepMetadata(parseFlag: Int64 -> Effect<QualityFlags.QualityFlag>, order: ColumnOrder, s: ArchiveState, es: seq<Entry>)
    requires forall k :: 0 <= k < |es| ==> !Kind(es[k].name).ParametersFile?
    requires Entries(parseFlag, order, s, es).Done?
    ensures Entries(parseFlag, order, s, es).value.metadata == s.metadata
    decreases |es|
  {
    if es != [] {
      var next := EntryStep(parseFlag, order, s, es[0]);
      assert !Kind(es[0].name).ParametersFile?;
      OtherEntriesKeepMetadata(parseFlag, order, next.value, es[1..]);
    }
  }

  /** The metadata returned is that of the last parameters file in the archive. */
  lemma LastParametersFileWins(parseFlag: Int64 -> Effect<QualityFlags.QualityFlag>, order: ColumnOrder, s: ArchiveState,
                               before: seq<Entry>, e: Entry, after: seq<Entry>)
    requires Kind(e.name).ParametersFile?
    requires forall k :: 0 <= k < |after| ==> !Kind(after[k].name).ParametersFile?
    requires Entries(parseFlag, order, s, before + [e] + after).Done?
    ensures MetadataFile(e.rows).Done?
    ensures Entries(parseFlag, order, s, before + [e] + after).value.metadata == MetadataFile(e.rows).value
  {
    EntriesAppend(parseFlag, order, s, before + [e], after);
    EntriesAppend(parseFlag, order, s, before, [e]);
    var mid := Entries(parseFlag, order, s, before);
    assert Entries(parseFlag, order, mid.value, [e]) == EntryStep(parseFlag, order, mid.value, e);
    var withE := Entries(parseFlag, order, s, before + [e]);
    OtherEntriesKeepMetadata(parseFlag, order, withE.value, after);
  }

  /** What the entry loop keeps with the decoder as written: nothing parsed, only placeholders collected. */
  predicate OnlyPlaceholders(s: ArchiveState)
  {
    s.parsed == [] && forall i :: 0 <= i < |s.datapoints| ==> IsPlaceholder(s.datapoints[i])
  }

  lemma {:induction false} EntriesKeepOnlyPlaceholders(order: ColumnOrder, s: ArchiveState, es: seq<Entry>)
    requires OnlyPlaceholders(s)
    requires Entries(ParseQualityInt64, order, s, es).Done?
    ensures OnlyPlaceholders(Entries(ParseQualityInt64, order, s, es).value)
    decreases |es|
  {
    if es != [] {
      var e := es[0];
      var next := EntryStep(ParseQualityInt64, order, s, e);
      match Kind(e.name) {
        case Ignored =>
        case ParametersFile =>
        case MissingValuesFile =>
          MissingDatapointsRows(e.rows);
          var g := MissingDatapoints(e.rows).value;
          assert next.value.datapoints == s.datapoints + g;
        case DataFile =>
          DatapointFileYieldsNothing(order, e.rows);
      }
      EntriesKeepOnlyPlaceholders(order, next.value, es[1..]);
    }
  }

  /**
   * As written, ReadArchive returns only the placeholders made for the gap
   * file: no measured value ever reaches the result.
   */
  lemma ArchiveOnlyPlaceholders(order: ColumnOrder, entries: seq<Entry>)
    requires Archive(ParseQualityInt64, order, entries).Done?
    ensures forall i :: 0 <= i < |Archive(ParseQualityInt64, order, entries).value.datapoints| ==>
      IsPlaceholder(Archive(ParseQualityInt64, order, entries).value.datapoints[i])
  {
    EntriesKeepOnlyPlaceholders(order, NoEntriesRead, entries);
  }

  /**
   * When metadata and collected datapoints are both there, every parsed
   * datapoint follows them in order, carrying the unit of the last field
   * named after its label, or "" when no field is.
   */
  lemma FinishUnits(s: ArchiveState, i: nat)
    requires s.metadata != [] && s.datapoints != []
    requires i < |s.parsed|
    ensures var r := Finish(s).datapoints; var p := s.parsed[i];
      |r| == |s.datapoints| + |s.parsed| && r[..|s.datapoints|] == s.datapoints
      && r[|s.datapoints| + i].labelName == p.labelName && r[|s.datapoints| + i].value == p.value
      && r[|s.datapoints| + i].timestamp == p.timestamp && r[|s.datapoints| + i].qualityLevel == p.qualityLevel
      && r[|s.datapoints| + i].unit == Some(Lookup(UnitsOf(s.metadata), p.labelName))
      && ((forall k :: 0 <= k < |s.metadata| ==> s.metadata[k].name != p.labelName) ==> r[|s.datapoints| + i].unit == Some(""))
  {
    UnitsOfDomain(s.metadata, s.parsed[i].labelName);
  }
}
