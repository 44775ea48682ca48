// The legacy parameter-metadata parsers of the v1 API
// (internal/dwd/metadata-archive-parser.go, and its textually identical
// copies helpers/parse-meta-data-archive.go and helpers/parse-metadata.go):
// every "Metadaten_Parameter" text file of an archive is read as a header,
// content rows and two trailer rows, and each content row becomes one
// field description whose dates are tried in three layouts.
module LegacyMetadata {
  import opened Common
  import opened Chrono
  import ArchiveParser

  // The header names and the error texts of the legacy parsers (helpers/constants.go).
  const ParameterNameKey := "Parameter"
  const ParameterDescriptionKey := "Parameterbeschreibung"
  const ParameterUnitKey := "Einheit"
  const ParameterFromDateKey := "Von_Datum"
  const ParameterUntilDateKey := "Bis_Datum"

  const IndexPanic := ArchiveParser.IndexPanic
  const SlicePanic := "runtime error: slice bounds out of range"
  const TimeParseError := ArchiveParser.TimeParseError

  /** v1.TimeseriesField (types/v1/timeseries.go) */
  datatype TimeseriesField = TimeseriesField(
    name: string,
    description: string,
    availableFrom: Time,
    availableUntil: Time,
    unit: string)

  /** time.Parse with the full layout, then the hour layout, then the day layout; the result is in UTC. */
  function ParseDate(s: string): (t: Option<Time>)
    ensures t.Some? ==> t.value.zone == UTC
    ensures t.Some? <==> TryEachLayout(s).Some?
  {
    var c := TryEachLayout(s);
    if c.Some? then Some(ToTime(c.value))
    else None
  }

  /** One content row: the five columns looked up by header name, each date tried on its own. */
  function FieldOf(header: seq<string>, line: seq<string>): Outcome<TimeseriesField>
  {
    var name := ArchiveParser.Column(header, line, ParameterNameKey);
    var description := ArchiveParser.Column(header, line, ParameterDescriptionKey);
    var unit := ArchiveParser.Column(header, line, ParameterUnitKey);
    if name.None? || description.None? || unit.None? then Panicked(IndexPanic)
    else
      var from := ArchiveParser.Column(header, line, ParameterFromDateKey);
      if from.None? then Panicked(IndexPanic)
      else if ParseDate(from.value).None? then Failed(TimeParseError)
      else
        var until := ArchiveParser.Column(header, line, ParameterUntilDateKey);
        if until.None? then Panicked(IndexPanic)
        else if ParseDate(until.value).None? then Failed(TimeParseError)
        else Done(TimeseriesField(name.value, description.value,
                                  ParseDate(from.value).value, ParseDate(until.value).value, unit.value))
  }

  /** How the row loop reads one content row. */
  type FieldReader = seq<string> -> Outcome<TimeseriesField>

  /** Reading a content row under the given header. */
  function FieldsUnder(header: seq<string>): (read: FieldReader)
    ensures forall line :: read(line) == FieldOf(header, line)
  {
    line => FieldOf(header, line)
  }

  /** The row loop of parseMetadataFileContents over the remaining rows, with the fields read so far. */
  function FieldRows(read: FieldReader, lines: seq<seq<string>>, acc: seq<TimeseriesField>): Outcome<seq<TimeseriesField>>
    decreases |lines|
  {
    if lines == [] then Done(acc)
    else
      var f := read(lines[0]);
      if !f.Done? then Forward(f) else FieldRows(read, lines[1..], acc + [f.value])
  }

  /** What parseMetadataFileContents returns: nil and the error on the first failing row. */
  function Contents(header: seq<string>, contentLines: seq<seq<string>>): Outcome<seq<TimeseriesField>>
  {
    FieldRows(FieldsUnder(header), contentLines, [])
  }

  /** parseMetadataFileContents */
  method ParseMetadataFileContents(header: seq<string>, contentLines: seq<seq<string>>)
    returns (outcome: Outcome<seq<TimeseriesField>>)
    ensures outcome == Contents(header, contentLines)
  {
    ghost var read := FieldsUnder(header);
    var parameters: seq<TimeseriesField> := [];
    for i := 0 to |contentLines|
      invariant FieldRows(read, contentLines[i..], parameters) == Contents(header, contentLines)
    {
      assert contentLines[i..][0] == contentLines[i] && contentLines[i..][1..] == contentLines[i + 1..];
      var field := FieldOf(header, contentLines[i]);
      assert field == read(contentLines[i]);
      if !field.Done? {
        return Forward(field);
      }
      parameters := parameters + [field.value];
    }
    return Done(parameters);
  }

  /** The entries ParseMetadataArchive reads. */
  predicate IsParameterFile(name: string)
  {
    HasSuffix(name, "txt") && Contains(name, "Metadaten_Parameter")
  }

  /** One parameter file: lines[0] is the header and lines[1 : len-2] the content, which needs three rows. */
  function ParameterFile(lines: seq<seq<string>>): Outcome<seq<TimeseriesField>>
  {
    if lines == [] then Panicked(IndexPanic)
    else if |lines| < 3 then Panicked(SlicePanic)
    else Contents(lines[0], lines[1..|lines| - 2])
  }

  /** The entry loop of ParseMetadataArchive from the given entry on, with the parameters so far. */
  function ArchiveFrom(entries: seq<ArchiveParser.Entry>, parameters: seq<TimeseriesField>): Outcome<seq<TimeseriesField>>
    decreases |entries|
  {
    if entries == [] then Done(parameters)
    else if !IsParameterFile(entries[0].name) then ArchiveFrom(entries[1..], parameters)
    else
      var read := ParameterFile(entries[0].rows);
      if !read.Done? then Forward(read) else ArchiveFrom(entries[1..], read.value)
  }

  /** What ParseMetadataArchive returns for the archive's entries. */
  function MetadataArchive(entries: seq<ArchiveParser.Entry>): Outcome<seq<TimeseriesField>>
  {
    ArchiveFrom(entries, [])
  }

  /** ParseMetadataArchive; each matching file overwrites the parameters of the one before. */
  method ParseMetadataArchive(entries: seq<ArchiveParser.Entry>) returns (outcome: Outcome<seq<TimeseriesField>>)
    ensures outcome == MetadataArchive(entries)
  {
    var parameters: seq<TimeseriesField> := [];
    for i := 0 to |entries|
      invariant ArchiveFrom(entries[i..], parameters) == MetadataArchive(entries)
    {
      assert entries[i..][0] == entries[i] && entries[i..][1..] == entries[i + 1..];
      var file := entries[i];
      if !IsParameterFile(file.name) {
        continue;
      }
      var lines := file.rows;
      if lines == [] {
        return Panicked(IndexPanic);
      }
      if |lines| < 3 {
        return Panicked(SlicePanic);
      }
      var header := lines[0];
      var content := lines[1..|lines| - 2];
      var read := ParseMetadataFileContents(header, content);
      if !read.Done? {
        return Forward(read);
      }
      parameters := read.value;
    }
    return Done(parameters);
  }

  // ---------------------------------------------------------------- lemmas

  /**
   * The row loop succeeds exactly when every row does, and then holds one
   * field per row, in row order, after the fields read before.
   */
  lemma {:induction false} FieldRowsDone(read: FieldReader, lines: seq<seq<string>>, acc: seq<TimeseriesField>)
    ensures FieldRows(read, lines, acc).Done? <==> forall line :: line in lines ==> read(line).Done?
    ensures FieldRows(read, lines, acc).Done? ==>
      var fields := FieldRows(read, lines, acc).value;
      |fields| == |acc| + |lines| && fields[..|acc|] == acc
      && forall k :: 0 <= k < |lines| ==> read(lines[k]) == Done(fields[|acc| + k])
    decreases |lines|
  {
    if lines != [] {
      var f := read(lines[0]);
      assert forall line :: line in lines ==> line == lines[0] || line in lines[1..];
      if f.Done? {
        var acc' := acc + [f.value];
        FieldRowsDone(read, lines[1..], acc');
        if FieldRows(read, lines, acc).Done? {
          var fields := FieldRows(read, lines, acc).value;
          assert fields[..|acc'|][..|acc|] == fields[..|acc|];
          forall k | 0 <= k < |lines|
            ensures read(lines[k]) == Done(fields[|acc| + k])
          {
            if k > 0 {
              assert lines[k] == lines[1..][k - 1] && |acc| + k == |acc'| + (k - 1);
            } else {
              assert fields[|acc|] == fields[..|acc'|][|acc|];
            }
          }
        }
      }
    }
  }

  /** A failing row hands its error (or panic) on: the first failing row decides the outcome. */
  lemma {:induction false} FieldRowsFail(read: FieldReader, lines: seq<seq<string>>, acc: seq<TimeseriesField>, k: nat)
    requires k < |lines| && !read(lines[k]).Done?
    requires forall j :: 0 <= j < k ==> read(lines[j]).Done?
    ensures FieldRows(read, lines, acc) == Forward(read(lines[k]))
    decreases k
  {
    if k > 0 {
      var f := read(lines[0]);
      assert f.Done?;
      assert forall j :: 0 <= j < k - 1 ==> lines[1..][j] == lines[j + 1];
      FieldRowsFail(read, lines[1..], acc + [f.value], k - 1);
    }
  }

  /** One field per content row, in input order, or nil and the error of the first failing row. */
  lemma ContentsRows(header: seq<string>, contentLines: seq<seq<string>>)
    ensures Contents(header, contentLines).Done? <==>
      forall line :: line in contentLines ==> FieldOf(header, line).Done?
    ensures Contents(header, contentLines).Done? ==>
      |Contents(header, contentLines).value| == |contentLines|
      && forall k :: 0 <= k < |contentLines| ==>
        FieldOf(header, contentLines[k]) == Done(Contents(header, contentLines).value[k])
    ensures forall k ::
      (0 <= k < |contentLines| && !FieldOf(header, contentLines[k]).Done?
       && forall j :: 0 <= j < k ==> FieldOf(header, contentLines[j]).Done?) ==>
        Contents(header, contentLines) == Forward(FieldOf(header, contentLines[k]))
  {
    var read := FieldsUnder(header);
    FieldRowsDone(read, contentLines, []);
    forall k | 0 <= k < |contentLines| && !FieldOf(header, contentLines[k]).Done?
      && (forall j :: 0 <= j < k ==> FieldOf(header, contentLines[j]).Done?)
      ensures Contents(header, contentLines) == Forward(FieldOf(header, contentLines[k]))
    {
      FieldRowsFail(read, contentLines, [], k);
    }
  }

  /**
   * A row's field carries the five columns named in the header, and each
   * date is the first of the three layouts that reads its own text.
   */
  lemma FieldColumns(header: seq<string>, line: seq<string>)
    requires FieldOf(header, line).Done?
    ensures var f := FieldOf(header, line).value;
      && (ParameterNameKey in header && f.name == line[IndexOf(header, ParameterNameKey)])
      && (ParameterDescriptionKey in header && f.description == line[IndexOf(header, ParameterDescriptionKey)])
      && (ParameterUnitKey in header && f.unit == line[IndexOf(header, ParameterUnitKey)])
      && (ParameterFromDateKey in header && ParseDate(line[IndexOf(header, ParameterFromDateKey)]) == Some(f.availableFrom))
      && (ParameterUntilDateKey in header && ParseDate(line[IndexOf(header, ParameterUntilDateKey)]) == Some(f.availableUntil))
  {
  }

  /** A header without one of the five names panics on the first row. */
  lemma MissingColumnPanics(header: seq<string>, line: seq<string>)
    requires ParameterNameKey !in header || ParameterFromDateKey !in header
    ensures FieldOf(header, line) == Panicked(IndexPanic)
  {
  }

  /** An archive without parameter files has no parameters. */
  lemma {:induction false} NoParameterFiles(entries: seq<ArchiveParser.Entry>, parameters: seq<TimeseriesField>)
    requires forall k :: 0 <= k < |entries| ==> !IsParameterFile(entries[k].name)
    ensures ArchiveFrom(entries, parameters) == Done(parameters)
    decreases |entries|
  {
    if entries != [] {
      assert forall k :: 0 <= k < |entries| - 1 ==> entries[1..][k] == entries[k + 1];
      NoParameterFiles(entries[1..], parameters);
    }
  }

  /**
   * When the archive is read without a failure, its parameters are those of
   * the last parameter file: a later one replaces the earlier ones.
   */
  lemma {:induction false} LastParameterFileWins(entries: seq<ArchiveParser.Entry>, parameters: seq<TimeseriesField>, k: nat)
    requires k < |entries| && IsParameterFile(entries[k].name)
    requires forall j :: k < j < |entries| ==> !IsParameterFile(entries[j].name)
    requires ArchiveFrom(entries, parameters).Done?
    ensures ParameterFile(entries[k].rows).Done?
    ensures ArchiveFrom(entries, parameters) == ParameterFile(entries[k].rows)
    decreases k
  {
    var rest := entries[1..];
    assert forall j :: 0 <= j < |rest| ==> rest[j] == entries[j + 1];
    if k == 0 {
      NoParameterFiles(rest, ParameterFile(entries[0].rows).value);
    } else if !IsParameterFile(entries[0].name) {
      LastParameterFileWins(rest, parameters, k - 1);
    } else {
      LastParameterFileWins(rest, ParameterFile(entries[0].rows).value, k - 1);
    }
  }

  /** A parameter file of fewer than three rows panics on the slice of its content. */
  lemma ShortParameterFilePanics(entries: seq<ArchiveParser.Entry>)
    requires |entries| > 0 && IsParameterFile(entries[0].name) && |entries[0].rows| < 3
    ensures MetadataArchive(entries).Panicked?
  {
  }
}
