# service-dwd-proxy, modelled in Dafny

The service is a proxy in front of the open-data file server of the German
weather service (DWD). It reads directory index pages, downloads station
lists and ZIP archives of observations, and turns them into typed records:
stations with the products and granularities they deliver, time series of
datapoints with field metadata, and one cached station snapshot built by a
periodic discovery crawl.

This project models the logic between "the bytes were fetched and split into
rows or an HTML tree" and "typed records were produced", and proves
properties of that model:

- the v2 archive parser (`ArchiveParser`): telling archive entries apart by their names,
  the field-metadata table, one datapoint per data column and row, evenly
  spaced placeholders for documented gaps, unit back-filling, and the choice
  of a date layout by the length of the text;
- the v2 station-list parser (`StationList`): re-joining station names that
  hold blanks, the coordinates, and the availability period;
- the link walks over an HTML tree: the v2 trio (`ParserLinks`) and the
  legacy walks (`DocumentFilter`, `DwdUrls`);
- the closed enumerations and their codecs (`QualityFlags`,
  `QualityControlProcedures`, `Granularities`, `Products`), the support table
  (`ProductMapping`), and the bitmask sets `Resolution` and `DataType`
  (`BitFlags`, `Resolutions`, `ResolutionsV1`, `DataTypes`, `DataTypesV1`);
- the station records: `UpdateCapabilities` (`Stations`), the location-keyed
  merge of the all-stations route (`DiscoverAll`), and the v2 records
  (`V2Types`);
- the v2 time-series route (`TimeseriesRoute`): the ladder of request
  checks, the naming of description files, the concatenation of archives and
  the sort by timestamp;
- the legacy v1 parsers (`LegacyMetadata`, `LegacyDataFile`);
- the discovery crawl of `helpers/refresh-discovery.go`
  (`RefreshDiscovery`): the "running" flag protocol, the failure policy of
  each crawl level, the fold of station records into the station map, and
  the write of the snapshot.

`Common`, `Numbers`, `Chrono` and `HtmlTree` model the parts of Go's standard
library the service relies on: outcomes with errors and panics, `strings`,
`slices`, `strconv`, `time.Parse` with the DWD layouts, and HTML nodes.

Code that changes state step by step is modelled imperatively: each Go loop
is a Dafny method with a loop, proved equal to a specification function, and
each pointer-receiver `Parse` or `Unmarshal` method is a method of a small
class that holds the receiver. The properties are lemmas about those
specification functions. A Go panic is an explicit outcome (`Panicked`,
`PanickedInMain`, `CrashedInGoroutine`), never a precondition.

### Behaviour of the code that the model keeps

The model follows the code where it differs from what its names, comments
and surrounding callers lead one to expect. Each of these is stated by a
lemma:

- `QualityFlag.Parse` calls reflect's `IsNil` on its argument, which panics
  on a string or an integer (`QualityFlags.ParseOfStringPanics`). The v2
  data-file parser hands it the int64 from `ParseInt`, so every row with a
  data column panics (`ArchiveParser.ColumnPointsNeverDone`). `ReadArchive`
  can therefore only return gap placeholders
  (`ArchiveParser.ArchiveOnlyPlaceholders`). The decoder is a parameter of the
  data-file functions, and `ArchiveParser.ColumnPointsWithIntDecoder` states
  what an integer-accepting decoder would give.
- The column loop of the v2 data-file parser ranges over the map
  `datacolidxs`, so each row visits its data columns in an order Go leaves
  open. That order is a parameter, any rearrangement of the data columns
  (`ArchiveParser.ArrangePermutes`, `ArchiveParser.ChoiceFor`). It decides
  the order of a row's datapoints. It does not decide whether the file
  parses or which failure it reports, because the CSV reader refuses a row
  whose width differs from the header's before the column loop runs
  (`ArchiveParser.DatapointFileFailureWhateverOrder`).
- The int guard of `QualityControlProcedure.Parse` reads `v <= 7 && v <= 10`.
  It accepts every int up to 7, negatives included, and refuses the defined
  values 8 to 10 (`QualityControlProcedures.IntAcceptedIffAtMostSeven`).
- `UnmarshalJSON` of `Product`, `QualityFlag` and `QualityControlProcedure`
  passes the raw JSON bytes, quotes included, to `Parse`. A marshalled value
  therefore never unmarshals back (the `UnmarshalAfterMarshal` lemmas).
- A gap count equal to the smallest int64 wraps around in `count - 1`
  (`ArchiveParser.GapCountWraps`).
- In the v2 metadata file the until-date is parsed with the layout chosen by
  the length of the from-date (`ArchiveParser.MetadataRowFields`).
- The "15" hour element of Go's layouts is not fixed-width. So the hour-only
  layout "2006010215" also accepts eight date digits followed by a one-digit
  hour (`Chrono.ExampleOneDigitHour`). The legacy parsers try the layouts in
  turn and accept such a nine-character date. The v2 parsers choose the layout
  by length and refuse it (`Chrono.TryEachNineCharacters`).
- In the station list the end date is measured trimmed but parsed untrimmed
  (`StationList.PaddedEndRefused`). An end date before 2000 is replaced by
  the start date (`StationList.StationRowPeriod`).
- The v2 time-series route checks the requested range but never filters by
  it (`TimeseriesRoute.RangeNeverFilters`). A zero start with a non-zero end
  is refused as too early (`TimeseriesRoute.ZeroStartTooEarly`).
- The legacy data-file parser never reads the line after the header
  (`LegacyDataFile.SecondRowIgnored`). The legacy metadata parsers panic on a
  parameter file of fewer than three lines
  (`LegacyMetadata.ShortParameterFilePanics`) or a header without the
  expected columns (`LegacyMetadata.MissingColumnPanics`).
- The "running" flag is written "true" only when it is absent. A stored
  "false" lets the crawl run without marking itself as running
  (`RefreshDiscovery.Decide`). The deferred reset runs on every way out of
  `RunDiscovery`, the skip included, except a panic in a goroutine, which
  ends the process (`RefreshDiscovery.RunDiscovery`).
- Only a failure on the resolution level stops the crawl. The lower levels
  drop a failed branch (`RefreshDiscovery.LowerFailuresDropped`).
- A later record of a known station whose url names no data type panics. An
  unreadable until-date, height or coordinate is only logged
  (`RefreshDiscovery.RecordEnds`, `Numbers.FloatOrZero`).
- Capability windows are never unioned (min of the froms, max of the
  untils). The code ORs resolution bits (`Stations.UpdatedEntries`), the all-stations route appends
  granularities (`DiscoverAll.MergedList`), and `AddCapability` is not part of
  this model.

The v1 copies `types/v1/resolution.go` and `types/v1/datapoint.go` declare
the same flags, labels, `String` and `Parse` variants as `types/`. The v1
modules reuse those definitions and model only what differs, `UnmarshalJSON`.
`helpers/parse-metadata.go` and `helpers/parse-meta-data-archive.go` are
textual copies of `internal/dwd/metadata-archive-parser.go`, and
`LegacyMetadata` models all three. `FilterDocumentForFiles` in
`internal/dwd/file-urls.go` is the same walk as in
`helpers/document-filter.go`.

## Model

| member | source | states |
|---|---|---|
| ArchiveParser.ParseMetadataFile | internal/dwd/v2/internal/parser/datafile.go:111-182 | the row loop gives exactly MetadataFile(lines): an empty file panics at `lines[0]`, row 0 is the header, and the rows as wide as the header are read in order |
| ArchiveParser.SameLength | internal/dwd/v2/internal/parser/datafile.go:129-132 | every row kept has the header's width and is one of the input rows |
| ArchiveParser.MetadataRowsDone | internal/dwd/v2/internal/parser/datafile.go:129-178 | the row loop succeeds exactly when every row of the header's width reads; other rows are never looked at |
| ArchiveParser.MetadataRowsValue | internal/dwd/v2/internal/parser/datafile.go:129-178 | on success the result keeps the earlier fields and adds one field per row of the header's width, in row order |
| ArchiveParser.MetadataFileRows | internal/dwd/v2/internal/parser/datafile.go:127-180 | parseMetadataFile succeeds iff every row after the header with the header's width reads, and then returns one field per such row, in order |
| ArchiveParser.MetadataRowFields | internal/dwd/v2/internal/parser/datafile.go:134-174 | name, description and unit come from the columns named by the header; both dates are parsed with the layout chosen by the length of the from-date, so the until-date has a length that layout fits (the same, or one less for the hour layout's one-digit hour) |
| ArchiveParser.MetadataRowRefusals | internal/dwd/v2/internal/parser/datafile.go:142-171 | a from-date of a length other than 8, 10 or 12 is the "unsupported datetime format" error; an until-date of a length the valid from-date's layout does not fit is a time parse error |
| ArchiveParser.QualityColumn | internal/dwd/v2/internal/parser/datafile.go:200-211 | the quality column is the last "QN" column that is not excluded, or -1 when there is none |
| ArchiveParser.DataColumns | internal/dwd/v2/internal/parser/datafile.go:201-214 | the data columns are exactly the columns that are neither excluded nor "QN" columns, with their names, in column order |
| ArchiveParser.ClassifyHeader | internal/dwd/v2/internal/parser/datafile.go:203-214 | the header loop yields that quality column and those data columns |
| ArchiveParser.ArrangePermutes | internal/dwd/v2/internal/parser/datafile.go:245 | whatever order the range over the datacolidxs map takes, it visits every data column exactly once |
| ArchiveParser.ChoiceFor | internal/dwd/v2/internal/parser/datafile.go:245 | every rearrangement of the data columns is an order the model allows, so no visiting order Go may take is excluded |
| ArchiveParser.AppendColumnPoints | internal/dwd/v2/internal/parser/datafile.go:245-274 | the column loop of one row, over the columns in any visiting order, gives exactly ColumnPoints |
| ArchiveParser.ParseDatapointFile | internal/dwd/v2/internal/parser/datafile.go:184-278 | the header and row loops, each row visiting its columns in its own order, give exactly DatapointFile, the per-row specification |
| ArchiveParser.ColumnPointsShape | internal/dwd/v2/internal/parser/datafile.go:245-273 | for any visiting order, a row that succeeds adds one datapoint per visited column, in visiting order, with the column's name, the row's time, the parsed value and no unit |
| ArchiveParser.EachColumnShape | internal/dwd/v2/internal/parser/datafile.go:245-273 | a column loop that does not stop keeps what was collected and appends, for each column in visiting order, the datapoint of that column's step |
| ArchiveParser.RowStopsAsOneColumn | internal/dwd/v2/internal/parser/datafile.go:245-269 | on a row of the header's width, the row stops exactly when any one column's step stops, and with that step's failure |
| ArchiveParser.FailureWhateverOrder | internal/dwd/v2/internal/parser/datafile.go:245-274 | two visiting orders of one row both succeed or both stop, and a stop reports the same failure |
| ArchiveParser.DataRowsFailureWhateverOrder | internal/dwd/v2/internal/parser/datafile.go:216-275 | over all rows, with orders that may differ row by row, the row loop succeeds for both or for neither, and fails alike |
| ArchiveParser.DatapointFileFailureWhateverOrder | internal/dwd/v2/internal/parser/datafile.go:184-278 | whether parseDatapointFile succeeds, and which failure it reports, does not depend on the map's order |
| ArchiveParser.ParseQualityInt64Panics | internal/dwd/v2/dwdTypes/quality-flag.go:48-52 | the int64 from ParseInt reaches the reflect IsNil check, which panics on it |
| ArchiveParser.ColumnPointsNeverDone | internal/dwd/v2/internal/parser/datafile.go:259-269 | with the decoder as written, a row visiting at least one data column, in any order, never succeeds |
| ArchiveParser.DataRowsAsWritten | internal/dwd/v2/internal/parser/datafile.go:216-275 | so the row loop succeeds only when there is no data column or no row, and then adds nothing |
| ArchiveParser.DatapointFileYieldsNothing | internal/dwd/v2/internal/parser/datafile.go:184-278 | a primary data file that parses yields no datapoint |
| ArchiveParser.ColumnPointsWithIntDecoder | internal/dwd/v2/internal/parser/datafile.go:259-273 | with a decoder that accepts the int branch, a row whose fields exist and whose quality field is an integer yields one datapoint per data column |
| ArchiveParser.RowDateRelabels | internal/dwd/v2/internal/parser/datafile.go:221-243 | a row's time is the instant read from MESS_DATUM by its length; only the zone changes, to Etc/GMT-1, before the year 2000 |
| ArchiveParser.GapPoints | internal/dwd/v2/internal/parser/datafile.go:319-341 | a gap row yields only placeholders (no value, no unit, no quality) |
| ArchiveParser.GapRowPoints | internal/dwd/v2/internal/parser/datafile.go:304-341 | the body of the gap loop gives exactly GapRow |
| ArchiveParser.MakePlaceholders | internal/dwd/v2/internal/parser/datafile.go:319-341 | the count branch gives exactly GapPoints |
| ArchiveParser.AppendGrid | internal/dwd/v2/internal/parser/datafile.go:330-341 | the counted loop appends n placeholders i * step after the start, and nothing when n <= 0 |
| ArchiveParser.GenerateMissingDatapoints | internal/dwd/v2/internal/parser/datafile.go:280-346 | the row loop of the gap file gives exactly MissingDatapoints |
| ArchiveParser.GapSpacing | internal/dwd/v2/internal/parser/datafile.go:330-341 | for a count n >= 2 there are n - 1 placeholders at start + i * ((end - start) div (n - 1)), all at or after the start and before an end later than it |
| ArchiveParser.GapSingleSample | internal/dwd/v2/internal/parser/datafile.go:319-328 | a count of 1 gives one placeholder at the start |
| ArchiveParser.GapNoSamples | internal/dwd/v2/internal/parser/datafile.go:330-332 | a count of 0 or less (above the smallest int64) gives none |
| ArchiveParser.GapCountWraps | internal/dwd/v2/internal/parser/datafile.go:331-332 | the smallest int64 count wraps: count - 1 is the largest int64 and that many placeholders are made |
| ArchiveParser.GapLinesDone | internal/dwd/v2/internal/parser/datafile.go:299-302 | the gap loop succeeds iff no row after the header is empty and every counted row reads; the header, "Stations_ID" rows and the last row are skipped |
| ArchiveParser.GapLinesValue | internal/dwd/v2/internal/parser/datafile.go:299-343 | its result is the placeholders of the counted rows, in order |
| ArchiveParser.CountedPointsArePlaceholders | internal/dwd/v2/internal/parser/datafile.go:319-341 | the counted rows give only placeholders |
| ArchiveParser.MissingDatapointsRows | internal/dwd/v2/internal/parser/datafile.go:296-345 | generateMissingDatapoints succeeds iff those conditions hold, and then yields the counted rows' placeholders and nothing else |
| ArchiveParser.Kind | internal/dwd/v2/internal/parser/datafile.go:60-84 | an entry is ignored iff it is no ".txt" file or has none of the three prefixes; the parameters prefix is checked first |
| ArchiveParser.WithUnits | internal/dwd/v2/internal/parser/datafile.go:102-106 | each parsed datapoint gets the unit stored for its label, in order |
| ArchiveParser.Finish | internal/dwd/v2/internal/parser/datafile.go:93-106 | with no metadata or no placeholders the collected points are returned as they are; otherwise the parsed points with units follow them |
| ArchiveParser.ReadArchive | internal/dwd/v2/internal/parser/datafile.go:51-109 | the entry loop gives exactly Archive(parseFlag, order, entries), for any decoder and any column order |
| ArchiveParser.BuildUnits | internal/dwd/v2/internal/parser/datafile.go:97-100 | the units loop gives exactly UnitsOf |
| ArchiveParser.UnitsOfDomain | internal/dwd/v2/internal/parser/datafile.go:97-103 | a label has a unit iff some field carries its name |
| ArchiveParser.UnitsOfLast | internal/dwd/v2/internal/parser/datafile.go:97-100 | a label's unit is that of the last field with its name |
| ArchiveParser.IgnoredEntryChangesNothing | internal/dwd/v2/internal/parser/datafile.go:61-63 | an ignored entry leaves the loop state as it was |
| ArchiveParser.EntriesAppend | internal/dwd/v2/internal/parser/datafile.go:60-91 | reading two runs of entries in turn is reading them together, and the first error stops the loop |
| ArchiveParser.OtherEntriesKeepMetadata | internal/dwd/v2/internal/parser/datafile.go:65-71 | entries that are not parameters files keep the metadata |
| ArchiveParser.LastParametersFileWins | internal/dwd/v2/internal/parser/datafile.go:65-71 | the metadata returned is that of the last parameters file |
| ArchiveParser.EntriesKeepOnlyPlaceholders | internal/dwd/v2/internal/parser/datafile.go:73-90 | with the decoder as written the loop never keeps a parsed point and collects only placeholders |
| ArchiveParser.ArchiveOnlyPlaceholders | internal/dwd/v2/internal/parser/datafile.go:51-109 | so every datapoint ReadArchive returns is a placeholder |
| ArchiveParser.FinishUnits | internal/dwd/v2/internal/parser/datafile.go:97-106 | after the placeholders comes each parsed point with its label, value, time and quality kept and the unit of its label, "" for a label without a field |
| StationList.CleanRow | internal/dwd/v2/internal/parser/station-list.go:58-69 | a record of more than ten fields keeps its first six and last three fields, and everything between is the name, joined by single blanks; a shorter record is kept as it is |
| StationList.RecordTime | internal/dwd/v2/internal/parser/station-list.go:97-109 | a date is read only with the layout of its length; a length other than 8, 10 or 12 is the given "unsupported date string" error |
| StationList.StationRowsRead | internal/dwd/v2/internal/parser/station-list.go:58-141 | the record reader is the body of the record loop |
| StationList.Records | internal/dwd/v2/internal/parser/station-list.go:52-56 | the two header lines are skipped |
| StationList.Unzip | internal/dwd/v2/internal/parser/station-list.go:140-141 | the stations and the periods are two lists of equal length, entry i from record i |
| StationList.UnzipAppend | internal/dwd/v2/internal/parser/station-list.go:140-141 | one more record appends one station and one period |
| StationList.ParseStationList | internal/dwd/v2/internal/parser/station-list.go:42-145 | the record loop gives exactly StationFile(rows): the first record that fails ends the parse with its error or panic |
| StationList.ReadRecords | internal/dwd/v2/internal/parser/station-list.go:52-143 | the loop over the records after the two header lines, with any record reader, gives exactly FileWith: the first record that fails ends it, otherwise one station and one period per record in file order |
| StationList.RecordsFromRead | internal/dwd/v2/internal/parser/station-list.go:52-143 | the loop succeeds iff every record reads, and then keeps one result per record, in order |
| StationList.StationFileRecords | internal/dwd/v2/internal/parser/station-list.go:42-145 | the list is read iff every record after the headers reads, and then station i and period i come from record i |
| StationList.NameRecovered | internal/dwd/v2/internal/parser/station-list.go:60-66 | when no name part holds a blank, splitting the joined name gives the parts back |
| StationList.StationRowFields | internal/dwd/v2/internal/parser/station-list.go:71-94 | a record read gives the ID and name of the cleaned record, a point of longitude, latitude and height in SRID 4326, no height and no products |
| StationList.StationRowPeriod | internal/dwd/v2/internal/parser/station-list.go:96-141 | the start is the instant of its date, shown in Etc/GMT-1 before 2000; the end is its own date from 2000 on and otherwise the start, shown in Etc/GMT-1 |
| StationList.PaddedEndRefused | internal/dwd/v2/internal/parser/station-list.go:111-124 | an end date with trailing white space is measured trimmed but parsed untrimmed, so the record is refused |
| StationList.ShortRowUntouched | internal/dwd/v2/internal/parser/station-list.go:67-69 | a record of at most ten fields is not cleaned |
| ParserLinks.AppendHrefs | internal/dwd/v2/internal/parser/link.go:16-23 | the attribute loop appends the trimmed value of each href attribute, in order |
| ParserLinks.CollectLinks | internal/dwd/v2/internal/parser/link.go:11-29 | the walk appends the links of the node and then those of its children, in document order |
| ParserLinks.ParseLinks | internal/dwd/v2/internal/parser/link.go:9-32 | parseLinks returns exactly Links(document) |
| ParserLinks.HrefsTrimmed | internal/dwd/v2/internal/parser/link.go:21 | every href collected from one element is trimmed |
| ParserLinks.LinksTrimmed | internal/dwd/v2/internal/parser/link.go:9-32 | every link of a document is trimmed |
| ParserLinks.LinksAllTrimmed | internal/dwd/v2/internal/parser/link.go:26-28 | every link under a list of children is trimmed |
| ParserLinks.FileLinksExactly | internal/dwd/v2/internal/parser/file-link.go:12-18 | the file links are exactly the links that are neither empty, "../" nor end in "/" |
| ParserLinks.FolderLinksExactly | internal/dwd/v2/internal/parser/folder-link.go:12-18 | the folder links are exactly the non-empty links that end in "/" |
| ParserLinks.ParseFileLinks | internal/dwd/v2/internal/parser/file-link.go:9-20 | ParseFileLinks returns the file links of the document, in document order |
| ParserLinks.ParseFolderLinks | internal/dwd/v2/internal/parser/folder-link.go:9-21 | ParseFolderLinks returns the folder links of the document, in document order |
| ParserLinks.FileAndFolderDisjoint | internal/dwd/v2/internal/parser/file-link.go:13 | no link is both a file and a folder |
| ParserLinks.FilesFoldersPartition | internal/dwd/v2/internal/parser/folder-link.go:13 | files, folders and empty links together are all the links |
| ParserLinks.ParentLinkIsAFolder | internal/dwd/v2/internal/parser/folder-link.go:13 | unlike the file filter, the folder filter keeps "../" |
| ParserLinks.FileLinksOfAppend | internal/dwd/v2/internal/parser/file-link.go:12-18 | filtering keeps the order of the links |
| ParserLinks.HrefsComplete | internal/dwd/v2/internal/parser/link.go:16-23 | every href attribute of an anchor gives a link, its trimmed value |
| ParserLinks.HrefsSound | internal/dwd/v2/internal/parser/link.go:16-23 | every link of an anchor is the trimmed value of one of its href attributes, and no other attribute counts |
| DocumentFilter.Then | helpers/document-filter.go:25-27 | a walk that panics in one subtree panics; otherwise the folders are those of both parts in order |
| DocumentFilter.LastHrefFound | helpers/document-filter.go:42-47 | the link is "" when the element has no href attribute, and otherwise the value of the last href attribute |
| DocumentFilter.FileEntry | helpers/document-filter.go:40-51 | an element adds at most one file, and only an anchor does |
| DocumentFilter.WalkFolders | helpers/document-filter.go:14-28 | the folder walk gives exactly Folders(node) after acc |
| DocumentFilter.WalkFolderChildren | helpers/document-filter.go:25-27 | the child loop appends each child's folders in order, and panics as soon as one child's walk panics |
| DocumentFilter.FoldersAllPrefix | helpers/document-filter.go:25-27 | once a panic happened among the first children, the walk of all children panics |
| DocumentFilter.FilterDocumentForFolders | helpers/document-filter.go:12-31 | FilterDocumentForFolders returns exactly Folders(document) |
| DocumentFilter.FindLastHref | helpers/document-filter.go:42-47 | the attribute loop keeps the last href value |
| DocumentFilter.AnchorFile | helpers/document-filter.go:40-51 | one element adds exactly FileEntry |
| DocumentFilter.WalkFiles | helpers/document-filter.go:38-57 | the file walk gives exactly Files(node) after acc |
| DocumentFilter.WalkFileChildren | helpers/document-filter.go:54-56 | the child loop appends each child's files in order |
| DocumentFilter.FilterDocumentForFiles | helpers/document-filter.go:36-60 | FilterDocumentForFiles returns exactly Files(document), and every file it returns is non-empty, is not "../" and does not end in "/" |
| DocumentFilter.FilesKept | helpers/document-filter.go:48-50 | every file of the walk is non-empty, is not "../" and does not end in "/" |
| DocumentFilter.FilesKeptAll | helpers/document-filter.go:54-56 | the same for a list of children |
| DocumentFilter.FilesPerAnchor | helpers/document-filter.go:40-51 | there are at most as many files as anchors |
| DocumentFilter.FilesPerAnchorAll | helpers/document-filter.go:54-56 | the same for a list of children |
| DocumentFilter.FoldersPerAnchor | helpers/document-filter.go:16-22 | there are at most as many folders as anchors |
| DocumentFilter.FoldersPerAnchorAll | helpers/document-filter.go:25-27 | the same for a list of children |
| DocumentFilter.FoldersKept | helpers/document-filter.go:19 | every folder ends in "/" and is not "../" |
| DocumentFilter.FoldersKeptAll | helpers/document-filter.go:25-27 | the same for a list of children |
| DocumentFilter.FoldersPanicOnEmptyAnchor | helpers/document-filter.go:16-18 | the folder walk panics iff the document holds an anchor without children |
| DocumentFilter.FoldersPanicOnEmptyAnchorAll | helpers/document-filter.go:25-27 | a list of children panics iff one of them holds such an anchor |
| DwdUrls.FilterDocumentForFiles | internal/dwd/file-urls.go:9-33 | the file walk of the dwd package is the same walk: at most one file per anchor, and every file it returns is non-empty, is not "../" and does not end in "/" |
| DwdUrls.FolderUrls | internal/dwd/folder-urls.go:18 | each folder becomes "<baseUrl>/<folder>" |
| DwdUrls.FolderUrlsAppend | internal/dwd/folder-urls.go:18 | building the URLs keeps the order |
| DwdUrls.AnchorFolderUrl | internal/dwd/folder-urls.go:14-20 | an element panics iff it is an anchor without children, and otherwise adds the URL of its kept folder |
| DwdUrls.WalkFolderUrls | internal/dwd/folder-urls.go:12-27 | the walk panics iff the folder walk does, and otherwise appends the folder URLs |
| DwdUrls.WalkFolderUrlChildren | internal/dwd/folder-urls.go:23-25 | the child loop appends the URLs of each child's folders in order, and panics iff the folder walk of the children does |
| DwdUrls.GetFolderURLs | internal/dwd/folder-urls.go:10-30 | GetFolderURLs returns "<baseUrl>/<folder>" for each folder of the legacy folder walk, in order, and panics when that walk does |
| QualityFlags.MarshalJSON | internal/dwd/v2/dwdTypes/quality-flag.go:97-102 | the non-existent flag marshals to nothing; every other flag to the JSON string of its name |
| QualityFlags.QualityFlagVar.Parse | internal/dwd/v2/dwdTypes/quality-flag.go:48-95 | the receiver and error are those of ParseEffect on the dynamic type of the input |
| QualityFlags.QualityFlagVar.UnmarshalJSON | internal/dwd/v2/dwdTypes/quality-flag.go:104-106 | unmarshalling is Parse of the raw bytes |
| QualityFlags.NamedName | internal/dwd/v2/dwdTypes/quality-flag.go:23-92 | the name of each declared flag parses back to that flag |
| QualityFlags.NamedIsName | internal/dwd/v2/dwdTypes/quality-flag.go:73-92 | a text names a flag 0..7 only when it is that flag's name; any other text gives the non-existent flag |
| QualityFlags.ParseOfStringPanics | internal/dwd/v2/dwdTypes/quality-flag.go:49 | a string or an int panics in the IsNil check and leaves the receiver as it was |
| QualityFlags.ParseBytesTotal | internal/dwd/v2/dwdTypes/quality-flag.go:58-93 | bytes never give an error and always store a declared flag |
| QualityFlags.UnmarshalAfterMarshal | internal/dwd/v2/dwdTypes/quality-flag.go:97-106 | unmarshalling a marshalled flag keeps the quotes and gives the non-existent flag |
| QualityFlags.QuotedIsNoName | internal/dwd/v2/dwdTypes/quality-flag.go:73-92 | a text that starts with a quote names no flag |
| QualityFlags.NameUndeclared | internal/dwd/v2/dwdTypes/quality-flag.go:43-44 | an undeclared value has the empty name |
| QualityFlags.ParseNameBytes | internal/dwd/v2/dwdTypes/quality-flag.go:58-93 | the bytes of a flag's name parse to that flag |
| QualityFlags.ParseNil | internal/dwd/v2/dwdTypes/quality-flag.go:49-52 | nil, a nil slice and any nil value store the non-existent flag without an error |
| QualityControlProcedures.MarshalJSON | internal/dwd/v2/dwdTypes/quality-control-procedure.go:90-92 | a procedure marshals to the JSON string of its name |
| QualityControlProcedures.ProcedureVar.Parse | internal/dwd/v2/dwdTypes/quality-control-procedure.go:45-88 | the receiver and error are those of ParseEffect on the dynamic type of the input |
| QualityControlProcedures.ProcedureVar.UnmarshalJSON | internal/dwd/v2/dwdTypes/quality-control-procedure.go:94-96 | unmarshalling is Parse of the raw bytes |
| QualityControlProcedures.NamedName | internal/dwd/v2/dwdTypes/quality-control-procedure.go:22-86 | each declared procedure's name parses back to it |
| QualityControlProcedures.NamedIsName | internal/dwd/v2/dwdTypes/quality-control-procedure.go:67-86 | a text is recognised iff it is the name of a declared procedure |
| QualityControlProcedures.IntAcceptedIffAtMostSeven | internal/dwd/v2/dwdTypes/quality-control-procedure.go:56-62 | as written, an int is accepted iff it is at most 7, negatives included, and stored unchanged; a larger one is the "int not mapped" error |
| QualityControlProcedures.Int64Unsupported | internal/dwd/v2/dwdTypes/quality-control-procedure.go:63-64 | an int64 is an unsupported input type |
| QualityControlProcedures.UnmarshalAfterMarshal | internal/dwd/v2/dwdTypes/quality-control-procedure.go:90-96 | unmarshalling a marshalled procedure keeps the quotes and is the "unknown quality control procedure" error |
| QualityControlProcedures.NameUndeclared | internal/dwd/v2/dwdTypes/quality-control-procedure.go:40-41 | an undeclared value has the empty name |
| QualityControlProcedures.ParseNameRoundTrip | internal/dwd/v2/dwdTypes/quality-control-procedure.go:50-87 | a procedure's name, as a string or as bytes, parses back to it |
| QualityControlProcedures.ParseNil | internal/dwd/v2/dwdTypes/quality-control-procedure.go:46-48 | nil is refused and the receiver kept |
| Granularities.MarshalJSON | internal/dwd/v2/dwdTypes/granularity.go:113-115 | a granularity marshals to the JSON string of its name |
| Granularities.GranularityVar.Parse | internal/dwd/v2/dwdTypes/granularity.go:72-86 | the receiver and error are those of ParseEffect on the dynamic type of the input |
| Granularities.GranularityVar.ParseString | internal/dwd/v2/dwdTypes/granularity.go:88-111 | the receiver and error are those of ParseStringEffect |
| Granularities.SpellingsDistinct | internal/dwd/v2/dwdTypes/granularity.go:24-70 | no text spells two granularities |
| Granularities.SpelledSpelling | internal/dwd/v2/dwdTypes/granularity.go:24-70 | both spellings of a granularity lead back to it |
| Granularities.SpelledExact | internal/dwd/v2/dwdTypes/granularity.go:88-105 | a text is recognised as g iff it is one of g's two spellings |
| Granularities.ParseBothSpellings | internal/dwd/v2/dwdTypes/granularity.go:88-110 | parsing either spelling stores g without an error |
| Granularities.TrimSpaceOfName | internal/dwd/v2/dwdTypes/granularity.go:89 | the spellings carry no surrounding white space, so the trim keeps them |
| Granularities.ParseStringExact | internal/dwd/v2/dwdTypes/granularity.go:88-110 | parsing stores g iff the trimmed text spells g; on an error the receiver becomes None |
| Granularities.NoneDoesNotRoundTrip | internal/dwd/v2/dwdTypes/granularity.go:26-108 | None has empty spellings, and parsing its name is an error |
| Granularities.UrlPartSpelling | internal/dwd/v2/dwdTypes/granularity.go:49-70 | the URL part is the name for annual, monthly, daily and hourly and the folder spelling otherwise; empty outside the enum |
| Granularities.ParseRefused | internal/dwd/v2/dwdTypes/granularity.go:72-85 | nil and every type other than string and bytes are refused with the receiver kept |
| Products.FirstSpelled | internal/dwd/v2/dwdTypes/product.go:138-185 | the first product from k on, in declaration order, that the text spells, with none before it; None when there is none |
| Products.FirstSpelledReaches | internal/dwd/v2/dwdTypes/product.go:138-185 | the search finds the first product that spells the text |
| Products.MarshalJSON | internal/dwd/v2/dwdTypes/product.go:189-191 | a product marshals to the JSON string of its name |
| Products.ProductVar.Parse | internal/dwd/v2/dwdTypes/product.go:124-187 | the receiver and error are those of ParseEffect on the dynamic type of the input |
| Products.ProductVar.UnmarshalJSON | internal/dwd/v2/dwdTypes/product.go:193-195 | unmarshalling is Parse of the raw bytes |
| Products.ClassifyName | internal/dwd/v2/dwdTypes/product.go:138-185 | the switch maps a product's name back to it |
| Products.ClassifyUrlPart | internal/dwd/v2/dwdTypes/product.go:138-185 | the switch maps a product's URL part back to it |
| Products.ClassifySpelling | internal/dwd/v2/dwdTypes/product.go:138-185 | any spelling of a product leads to it |
| Products.ClassifyQuoted | internal/dwd/v2/dwdTypes/product.go:138-185 | a text starting with a quote matches no product |
| Products.SpellingsDistinct | internal/dwd/v2/dwdTypes/product.go:36-122 | no text spells two products |
| Products.SpelledSpelling | internal/dwd/v2/dwdTypes/product.go:36-122 | both spellings of a product lead back to it |
| Products.ParseNameExact | internal/dwd/v2/dwdTypes/product.go:138-186 | parsing stores p iff the text spells p; it is an error iff no product spells it, and then the receiver is kept |
| Products.UintStoredUnchecked | internal/dwd/v2/dwdTypes/product.go:131-133 | a uint is stored unchecked, so a value past the enum gets an empty name |
| Products.UnmarshalAfterMarshal | internal/dwd/v2/dwdTypes/product.go:189-195 | unmarshalling a marshalled product keeps the quotes and is the "unsupported product" error |
| Products.UrlPartFallback | internal/dwd/v2/dwdTypes/product.go:87-122 | the URL part equals the name exactly for the seven products that fall to the default branch |
| Products.SpellingsOutside | internal/dwd/v2/dwdTypes/product.go:82-120 | a value outside the enum has empty spellings |
| Products.ParseRefused | internal/dwd/v2/dwdTypes/product.go:124-136 | nil and an int are unsupported input types with the receiver kept |
| ProductMapping.Offered | internal/dwd/v2/product-mapping.go:10-66 | the products of a granularity in the table, none for a granularity outside it |
| ProductMapping.TableDomain | internal/dwd/v2/product-mapping.go:10-66 | the table has an entry for every granularity but None, and lists only declared products |
| ProductMapping.FinestOnlyPrecipitation | internal/dwd/v2/product-mapping.go:11-12 | at every minute and every five minutes only precipitation is offered |
| ProductMapping.MonthlyIsAnnual | internal/dwd/v2/product-mapping.go:56-65 | monthly and annual offer the same three products |
| ProductMapping.NothingAtNone | internal/dwd/v2/product-mapping.go:10-66 | nothing is offered at None |
| ProductMapping.TableHasNoDuplicates | internal/dwd/v2/product-mapping.go:10-66 | no list repeats a product |
| ProductMapping.MorePhenomenaNeverOffered | internal/dwd/v2/product-mapping.go:10-66 | "more phenomena" is offered at no granularity |
| ProductMapping.PrecipitationGranularities | internal/dwd/v2/product-mapping.go:11-28 | precipitation is offered exactly at every minute, every five and ten minutes and hourly |
| ProductMapping.Ascending | internal/dwd/v2/product-mapping.go:10-66 | a list in ascending declaration order, as every list of the table is, has no duplicates |
| BitFlags.Match | types/data-resolution.go:74-102 | the switch on one part gives the bit of a label equal to the part, and nothing when no label is |
| BitFlags.ParseParts | types/data-resolution.go:71-105 | the loop over the parts ORs exactly PartsValue of them |
| BitFlags.SetLabels | types/data-resolution.go:24-63 | the labels listed are exactly those of the set flags, with unknown bits ignored |
| BitFlags.Lowest | types/data-type.go:35-89 | the name of the lowest set flag, "" when no defined flag is set |
| BitFlags.PartsValueRecognised | types/data-resolution.go:71-106 | with distinct labels a parse stores exactly the flags whose label is among the parts |
| BitFlags.SameLabelsSameValue | types/data-resolution.go:71-106 | the order, repeats and unknown parts of the input do not matter |
| BitFlags.ListedTrimmed | types/data-resolution.go:24-63 | appending "label," per set flag and trimming the commas is joining the labels with "," |
| BitFlags.JoinedLabelsEmpty | types/data-resolution.go:24-63 | the listing is empty iff no defined flag is set |
| BitFlags.ParseListing | types/data-resolution.go:24-106 | parsing the listing of r gives back the defined flags of r |
| BitFlags.ParseOneLabel | types/data-type.go:97-167 | parsing one label gives its single flag |
| BitFlags.LowestOfOne | types/data-type.go:35-89 | the lowest flag of a single flag is that flag |
| Resolutions.LabelsWellFormed | types/data-resolution.go:11-63 | the nine labels are distinct, non-empty and free of commas |
| Resolutions.String | types/data-resolution.go:24-63 | String is the labels of the set flags joined by "," |
| Resolutions.ResolutionVar.ParseString | types/data-resolution.go:71-106 | the receiver becomes the flags of the comma-separated parts |
| Resolutions.ResolutionVar.ParseStringWithSeparator | types/data-resolution.go:114-149 | the receiver becomes the flags of the parts split at the given separator |
| Resolutions.ResolutionVar.ParseUrlValues | types/data-resolution.go:153-188 | the receiver becomes the flags of the values under the key, none for a missing key |
| Resolutions.ResolutionVar.UnmarshalJSON | types/data-resolution.go:194-203 | a source that is not a list of strings is an error with the receiver kept; otherwise each element is parsed in turn, so the last one decides, and an empty list keeps the receiver |
| Resolutions.ListingEmpty | types/data-resolution.go:24-63 | String is "" iff no defined flag is set |
| Resolutions.StringRoundTrip | types/data-resolution.go:24-106 | ParseString(String(r)) == r for every r of defined flags |
| Resolutions.ParsedFlags | types/data-resolution.go:71-106 | a parse stores exactly the flags whose label occurs among the parts |
| ResolutionsV1.ResolutionVar.ParseString | types/v1/resolution.go:66-92 | as in Resolutions |
| ResolutionsV1.ResolutionVar.ParseStringWithSeparator | types/v1/resolution.go:95-130 | as in Resolutions |
| ResolutionsV1.ResolutionVar.ParseUrlValues | types/v1/resolution.go:133-168 | as in Resolutions |
| ResolutionsV1.ResolutionVar.UnmarshalJSON | types/v1/resolution.go:174-181 | a source that is not a JSON string is an error with the receiver kept; otherwise the string is parsed |
| DataTypes.NamesWellFormed | types/data-type.go:7-89 | the 25 names are distinct, non-empty and free of commas |
| DataTypes.String | types/data-type.go:35-89 | String is the name of the lowest set flag, and "" iff no defined flag is set |
| DataTypes.DataTypeVar.ParseString | types/data-type.go:97-99 | the receiver becomes the flags of the comma-separated parts |
| DataTypes.DataTypeVar.ParseStringWithSeperator | types/data-type.go:107-167 | the receiver becomes the flags of the parts split at the given separator |
| DataTypes.StringRoundTrip | types/data-type.go:35-167 | the name of a single flag parses back to that flag |
| DataTypes.ParsedFlags | types/data-type.go:107-167 | a parse stores exactly the flags whose name occurs among the parts |
| DataTypesV1.DataTypeVar.ParseString | types/v1/datapoint.go:95-97 | as in DataTypes |
| DataTypesV1.DataTypeVar.ParseStringWithSeperator | types/v1/datapoint.go:100-160 | as in DataTypes |
| DataTypesV1.DataTypeVar.UnmarshalJSON | types/v1/datapoint.go:166-173 | a source that is not a JSON string is an error with the receiver kept; otherwise the string is parsed |
| Stations.StationVar.UpdateCapabilities | types/station.go:14-25 | a nil map is created, and the entry of the type's name is ORed with the resolution or created with it |
| Stations.UpdatedEntries | types/station.go:14-25 | the entry at the type's name holds the old resolutions plus the new one; other entries are unchanged |
| Stations.UpdateNeverClears | types/station.go:14-25 | an update never clears a resolution of any entry |
| Stations.UpdateIdempotent | types/station.go:14-25 | repeating an update changes nothing |
| Stations.UpdatesCommute | types/station.go:14-25 | two updates give the same map in either order |
| Stations.MergesCommute | types/station.go:19-23 | two merges give the same map in either order |
| V2Types.ToFeature | types/v2/station.go:23-34 | the feature carries the station's ID, location, name and products |
| DiscoverAll.TaskRow | routes/v2/discover-all.go:27-28 | one task per product offered at the granularity, in table order |
| DiscoverAll.TasksAreSupportedPairs | routes/v2/discover-all.go:26-47 | the tasks are exactly the supported (granularity, product) pairs |
| DiscoverAll.TasksIn | routes/v2/discover-all.go:26-47 | a task is started iff its granularity is visited and the pair is supported |
| DiscoverAll.Tag | routes/v2/discover-all.go:35-37 | a discovered station keeps its fields and supports only the task's product, at the task's granularity |
| DiscoverAll.TagAll | routes/v2/discover-all.go:34-41 | every station of a task is tagged, in order |
| DiscoverAll.CollectAllOrNothing | routes/v2/discover-all.go:29-54 | the collection succeeds iff every task succeeds |
| DiscoverAll.CollectedAreTagged | routes/v2/discover-all.go:34-41 | every station collected supports one product at one granularity of a started task |
| DiscoverAll.MergedList | routes/v2/discover-all.go:71-74 | the granularities are kept when the first incoming one is stored already, and the incoming ones appended otherwise |
| DiscoverAll.MergedMap | routes/v2/discover-all.go:70-75 | every incoming product is merged, every other stored product is kept |
| DiscoverAll.AddProducts | routes/v2/discover-all.go:70-75 | the product loop gives exactly MergeProducts |
| DiscoverAll.EmptyListPanics | routes/v2/discover-all.go:71 | an incoming product with no granularity panics at granularity[0] |
| DiscoverAll.MergeStations | routes/v2/discover-all.go:59-78 | the merge loop gives exactly MergeAll |
| DiscoverAll.MergeAllKeys | routes/v2/discover-all.go:59-78 | the merged map has one entry per location key of the stations |
| DiscoverAll.MergeAllKeepsFirst | routes/v2/discover-all.go:64-77 | a stored station keeps its ID, name, height and location |
| DiscoverAll.FirstStationWins | routes/v2/discover-all.go:64-68 | the entry of a location is the first station found there, with products merged |
| DiscoverAll.KeysOf | routes/v2/discover-all.go:62 | the keys are those of the stations |
| DiscoverAll.MergeAllSplit | routes/v2/discover-all.go:61-78 | merging two runs of stations in turn is merging them together |
| DiscoverAll.MergeStationLists | routes/v2/discover-all.go:64-77 | merging one tagged station keeps every list free of repeats and adds its granularity at its key |
| DiscoverAll.MergeAllLists | routes/v2/discover-all.go:61-78 | after the merge each product's list at a key holds exactly the granularities seen for it there, without repeats |
| DiscoverAll.EachValue | routes/v2/discover-all.go:83-86 | the range over the merged map visits every key once: the result has one element per key, holds f of every value, and nothing else |
| DiscoverAll.ToFeatures | routes/v2/discover-all.go:83-86 | one feature per merged station, and nothing else |
| DiscoverAll.DiscoverAllStations | routes/v2/discover-all.go:19-94 | a failed task aborts with its error; a successful discovery always answers, with one feature per merged location and nothing else |
| DiscoverAll.MergeOfCollected | routes/v2/discover-all.go:59-78 | after a successful discovery the merge never panics, has one entry per location, and each product list holds exactly the granularities seen there, once each |
| DiscoverAll.MergeNeverPanics | routes/v2/discover-all.go:70-75 | tagged stations never reach the empty-list panic |
| TimeseriesRoute.FindStation | routes/v2/timeseries.go:156-163 | the station found is the first one with the requested ID, and none is found iff no station has it |
| TimeseriesRoute.RangeProblem | routes/v2/timeseries.go:181-201 | the range checks can only end with the boundary, too-early or too-late problem |
| TimeseriesRoute.Assembled | routes/v2/timeseries.go:203-290 | once the request is selected, no problem response is emitted any more: it is served or fails with an error |
| TimeseriesRoute.Insert | routes/v2/timeseries.go:275-285 | inserting a datapoint adds it to the multiset and keeps a sorted list sorted |
| TimeseriesRoute.SortedCons | routes/v2/timeseries.go:276-278 | a head no later than a sorted rest gives a sorted list |
| TimeseriesRoute.SortByTime | routes/v2/timeseries.go:275-285 | the sort gives a permutation of the datapoints ordered by timestamp |
| TimeseriesRoute.Timeseries | routes/v2/timeseries.go:98-292 | the handler's response agrees with Respond: the check ladder, then the assembly of the series |
| TimeseriesRoute.Assemble | routes/v2/timeseries.go:203-290 | downloading, naming the description files, concatenating the archives and sorting agrees with Assembled |
| TimeseriesRoute.Describe | routes/v2/timeseries.go:214-258 | the description loop names each file by its prefix, attaches it, and stops at the first file that cannot be read: exactly Described |
| TimeseriesRoute.Gather | routes/v2/timeseries.go:261-273 | the archive loop concatenates datapoints and metadata in download order and stops at the first failed archive: exactly Gathered |
| TimeseriesRoute.DescribedFailurePersists | routes/v2/timeseries.go:229-252 | the first description file that fails ends the loop with its error |
| TimeseriesRoute.GatheredFailurePersists | routes/v2/timeseries.go:264-270 | the first archive that fails ends the loop with its error |
| TimeseriesRoute.SelectStation | routes/v2/timeseries.go:99-167 | the path checks in the handler, run in order with the first failure answering at once, give exactly Select |
| TimeseriesRoute.LadderOrder | routes/v2/timeseries.go:99-167 | each problem of the ladder is emitted exactly when every earlier check passed and its own fails, and the station is selected exactly when all pass |
| TimeseriesRoute.QueryBoundLast | routes/v2/timeseries.go:169-177 | the query parse error comes only after the station is selected, and exactly when the timestamps do not parse |
| TimeseriesRoute.BothZeroSkipsRangeChecks | routes/v2/timeseries.go:181-183 | without start and end no range check applies |
| TimeseriesRoute.SwitchedBoundsNeedAnEnd | routes/v2/timeseries.go:185-189 | the boundary problem is raised iff the start is after a non-zero end |
| TimeseriesRoute.ZeroStartTooEarly | routes/v2/timeseries.go:191-195 | with only an end given, the zero start is before any real availability start and is refused |
| TimeseriesRoute.ZeroEndNeverTooLate | routes/v2/timeseries.go:197-201 | a zero end is never too late |
| TimeseriesRoute.RangeNeverFilters | routes/v2/timeseries.go:203-290 | the range only decides whether the request is served: any two ranges that are served give the same series |
| TimeseriesRoute.GermanDescription | routes/v2/timeseries.go:217-219 | a file starting with "BESCHREIBUNG" is named "[DE] Datensatzbeschreibung" |
| TimeseriesRoute.EnglishDescription | routes/v2/timeseries.go:221-223 | a file starting with "DESCRIPTION" is named "[EN] Dataset Description" |
| TimeseriesRoute.OtherDescription | routes/v2/timeseries.go:225-227 | any other file is named by its text up to the first "." |
| TimeseriesRoute.GatheredAppend | routes/v2/timeseries.go:264-273 | the datapoints and metadata of the archives are concatenated in archive order |
| TimeseriesRoute.SortedPairwise | routes/v2/timeseries.go:276-278 | in a sorted list every earlier datapoint is no later than every later one |
| LegacyMetadata.ParseDate | internal/dwd/metadata-archive-parser.go:63-73 | a date parses iff one of the three layouts, tried full, hour-only, then day-only, accepts it, and is then in UTC |
| LegacyMetadata.FieldsUnder | internal/dwd/metadata-archive-parser.go:57-90 | the field reader is the body of the content loop |
| LegacyMetadata.ParseMetadataFileContents | internal/dwd/metadata-archive-parser.go:55-93 | the content loop gives exactly Contents(header, contentLines) |
| LegacyMetadata.ParseMetadataArchive | internal/dwd/metadata-archive-parser.go:17-53 | the entry loop gives exactly MetadataArchive(entries) |
| LegacyMetadata.FieldRowsDone | helpers/parse-metadata.go:11-47 | the loop succeeds iff every line reads, and then keeps one field per line, in order |
| LegacyMetadata.FieldRowsFail | helpers/parse-metadata.go:19-39 | the first line that fails ends the loop with its error or panic |
| LegacyMetadata.ContentsRows | internal/dwd/metadata-archive-parser.go:55-93 | parseMetadataFileContents succeeds iff every content line reads, then field k is line k's; otherwise it fails as the first failing line does |
| LegacyMetadata.FieldColumns | internal/dwd/metadata-archive-parser.go:58-88 | a field read takes its name, description, unit and dates from the columns the header names |
| LegacyMetadata.MissingColumnPanics | internal/dwd/metadata-archive-parser.go:58-63 | a header without the name or the from-date column makes slices.Index return -1, and the index panics |
| LegacyMetadata.NoParameterFiles | helpers/parse-meta-data-archive.go:22-26 | other entries are skipped and leave the parameters as they were |
| LegacyMetadata.LastParameterFileWins | internal/dwd/metadata-archive-parser.go:46 | the parameters returned are those of the last parameter file |
| LegacyMetadata.ShortParameterFilePanics | helpers/parse-meta-data-archive.go:43-44 | a parameter file of fewer than three lines panics when its trailer rows are cut |
| LegacyDataFile.CellOf | internal/dwd/datafile-parser.go:94-99 | a cell is stored as a number iff it parses as one, and as its text otherwise |
| LegacyDataFile.RowsUnder | internal/dwd/datafile-parser.go:71-101 | the row reader is the body of the row loop |
| LegacyDataFile.ReadRow | internal/dwd/datafile-parser.go:71-101 | reading one row gives exactly Row(header, range, raw) |
| LegacyDataFile.ParseDataFile | internal/dwd/datafile-parser.go:16-106 | the entry loop gives exactly DataFile(entries, timeRange) |
| LegacyDataFile.ReadDataEntry | internal/dwd/datafile-parser.go:63-102 | one "produkt" file gives exactly DataEntry |
| LegacyDataFile.RangeInclusive | internal/dwd/datafile-parser.go:84-89 | a time is kept iff it is not before a non-zero start and not after a non-zero end |
| LegacyDataFile.RowFilter | internal/dwd/datafile-parser.go:84-89 | a row whose date parses is passed over iff its time is outside the range |
| LegacyDataFile.ColumnsNeverNone | internal/dwd/datafile-parser.go:91-100 | the column loop either succeeds or panics on a missing header column |
| LegacyDataFile.ColumnsContents | internal/dwd/datafile-parser.go:91-100 | the column loop succeeds iff the row is no wider than the header, and then stores each cell under its column name, the last cell of a repeated name winning |
| LegacyDataFile.RowTimestamp | internal/dwd/datafile-parser.go:74-90 | a kept row holds its parsed measurement time under "ts" |
| LegacyDataFile.SecondRowIgnored | internal/dwd/datafile-parser.go:69 | the second line of a data file is never read |
| LegacyDataFile.DataRowsExtend | internal/dwd/datafile-parser.go:69-102 | the row loop only appends datasets |
| LegacyDataFile.DatasetsAccumulate | internal/dwd/datafile-parser.go:21-103 | the entry loop only appends datasets |
| LegacyDataFile.LastParameterEntryWins | internal/dwd/datafile-parser.go:22-45 | the parameters returned are those of the last parameter file |
| LegacyDataFile.ParametersKept | internal/dwd/datafile-parser.go:22-45 | entries that are no parameter file keep the parameters |
| RefreshDiscovery.Decide | helpers/refresh-discovery.go:42-56 | the crawl starts iff the read works and the flag is absent (then it is written "true") or reads as false; a flag that reads as true skips; a failed read or a flag that is no boolean stops the run |
| RefreshDiscovery.Below | helpers/refresh-discovery.go:152-156 | one url per link: the page's url followed by the link, in link order |
| RefreshDiscovery.ParseStationFile | helpers/parse-station-file.go:13-26 | an unopenable file ends the run, a file of fewer than two lines or an unreadable one panics, and otherwise the lines after the two header lines are the records |
| RefreshDiscovery.ParseDay | helpers/refresh-discovery.go:234-242 | a date is read with the day layout only, and is then in UTC |
| RefreshDiscovery.Updated | helpers/refresh-discovery.go:313-320 | the historical update fails iff it fails for some station; otherwise every station is replaced by its update and the IDs are kept |
| RefreshDiscovery.Listing | helpers/refresh-discovery.go:312-320 | the list holds the station of each ID of the iteration order, in that order |
| RefreshDiscovery.RunResolutionTask | helpers/refresh-discovery.go:97-120 | a resolution goroutine fails when its page cannot be read, crashes when the page holds an anchor without children, and sends "<url>/<folder>" for each folder otherwise |
| RefreshDiscovery.RunDataTypeTask | helpers/refresh-discovery.go:141-159 | a data type goroutine fails when its page cannot be read, crashes when the page holds an anchor without children, and otherwise sends its url directly followed by each folder |
| RefreshDiscovery.RunDataTask | helpers/refresh-discovery.go:172-193 | a data goroutine sends the url of each file that ends in "Beschreibung_Stationen.txt" |
| RefreshDiscovery.BuildUrls | helpers/refresh-discovery.go:152-156 | the url loop gives exactly Below(prefix, folders) |
| RefreshDiscovery.ResolveDataTypes | helpers/refresh-discovery.go:91-134 | the resolution level gives exactly ResolutionLevel: a crash ends the process, a failure ends the run, and otherwise the urls sent are collected |
| RefreshDiscovery.ResolveDataFolders | helpers/refresh-discovery.go:137-167 | the data type level gives exactly DataTypeLevel |
| RefreshDiscovery.ResolveStationFiles | helpers/refresh-discovery.go:168-201 | the data level gives exactly DataLevel |
| RefreshDiscovery.DownloadStationFiles | helpers/refresh-discovery.go:203-218 | the download level gives exactly DownloadLevel |
| RefreshDiscovery.ApplyRecord | helpers/refresh-discovery.go:230-309 | one record gives exactly Record: a short record or a known station whose url names no data type panics, an unreadable from-date ends the run, and otherwise the station gets one more capability |
| RefreshDiscovery.BuildStations | helpers/refresh-discovery.go:222-311 | the file and record loops give exactly StationFiles |
| RefreshDiscovery.CrawlStations | helpers/refresh-discovery.go:60-311 | the root page and the four levels, then the station map, give exactly Crawl(env) |
| RefreshDiscovery.UpdateAll | helpers/refresh-discovery.go:312-320 | the loop fails iff some station's update fails; otherwise the list is the updated map in the order the loop took, and that order lists every ID once |
| RefreshDiscovery.UpdatesListed | helpers/refresh-discovery.go:313-320 | when every station was updated in the loop, the list is the updated map in loop order |
| RefreshDiscovery.Discover | helpers/refresh-discovery.go:42-346 | the flag becomes "true" iff it was absent and read fine; the run ends as EndOf says; the station list is replaced only after a full crawl, every update and the encoding succeeded and the write worked |
| RefreshDiscovery.RunDiscovery | helpers/refresh-discovery.go:36-41 | the deferred write leaves the flag "false" on every way out except a crash in a goroutine |
| RefreshDiscovery.CollectGathers | helpers/refresh-discovery.go:130-134 | collecting a level keeps what every goroutine sent, in order, and notes whether any failed or crashed |
| RefreshDiscovery.ResolutionFailureAborts | helpers/refresh-discovery.go:104-127 | the resolution level ends the run iff some page could not be read and no goroutine crashed; otherwise the urls of all goroutines are collected |
| RefreshDiscovery.LowerFailuresDropped | helpers/refresh-discovery.go:144-148 | the three lower levels never end the run by a failure: a goroutine that fails sends nothing |
| RefreshDiscovery.StationFileUrlsKept | helpers/refresh-discovery.go:184-190 | a data page yields exactly the url of each file with the station file suffix |
| RefreshDiscovery.RunningFlagSkips | helpers/refresh-discovery.go:53-56 | a stored "true" skips the run and leaves the list |
| RefreshDiscovery.ListWrittenLast | helpers/refresh-discovery.go:312-345 | a changed list means the crawl started and completed, every update worked and the write succeeded |
| RefreshDiscovery.RecordTouchesOwnStation | helpers/refresh-discovery.go:243-308 | a record only touches its own station: it creates it from its fields or adds a capability to the stored one |
| RefreshDiscovery.RecordEnds | helpers/refresh-discovery.go:231-252 | exactly when a record ends the run, and how; an unreadable until-date never does |
| RefreshDiscovery.RecordsKeys | helpers/refresh-discovery.go:230-309 | after a file's records the map holds exactly the old stations and the records' IDs |
| Common.Wrap64 | internal/dwd/v2/internal/parser/datafile.go:331 | int64 arithmetic wraps modulo 2^64 |
| Common.IndexOf | internal/dwd/metadata-archive-parser.go:58 | slices.Index is the first position of the value, -1 when it is missing |
| Common.TruncDiv | internal/dwd/v2/internal/parser/datafile.go:331 | Go's division truncates toward zero, so a negative time difference gives a negative step |
| Common.Split | types/data-resolution.go:72 | strings.Split gives at least one part for a non-empty separator, and one part per character for an empty one |
| Common.SplitJoin | types/data-resolution.go:24-72 | splitting a join at a separator that no part holds gives the parts back |
| Common.TrimChar | routes/v2/timeseries.go:226 | strings.Trim with one character removes it from both ends only |
| Numbers.ParseInt64 | internal/dwd/v2/internal/parser/datafile.go:314 | ParseInt(s, 10, 64) accepts one optional sign and decimal digits whose value fits in an int64, and returns that value |
| Numbers.ParseBool | helpers/refresh-discovery.go:42 | ParseBool accepts exactly the six spellings of true and the six of false |
| Numbers.FloatOrZero | helpers/refresh-discovery.go:268-282 | a float whose parse error is only logged is the text's number, or 0 when the text is no number |
| Chrono.LayoutForLength | internal/dwd/v2/internal/parser/datafile.go:140-156 | a layout is chosen for the lengths 8, 10 and 12 only, and has that length |
| Chrono.ParseByLength | internal/dwd/v2/internal/parser/datafile.go:221-235 | a date read by its length is a valid calendar date |
| Chrono.TryEachIsByLength | internal/dwd/metadata-archive-parser.go:64-73 | for any text not nine characters long, trying the three layouts in turn is the same as choosing the layout by the length of the text |
| Chrono.TryEachNineCharacters | internal/dwd/metadata-archive-parser.go:64-73 | a nine-character text is read by the hour layout when the layouts are tried in turn, and refused by the length switch |
| Chrono.ExampleOneDigitHour | internal/dwd/metadata-archive-parser.go:66 | "199001017" parses as 1990-01-01 07:00 with the hour layout, and is no date for the length switch |
| Chrono.ParseGapTime | internal/dwd/v2/internal/parser/datafile.go:304-317 | a gap time has 15 or 16 characters and is a valid calendar date |
| Chrono.Sub | internal/dwd/v2/internal/parser/datafile.go:330 | the difference of two times saturates at the int64 bounds as Go's Time.Sub does |
| Chrono.ParseLayout | internal/dwd/v2/internal/parser/datafile.go:142-155 | time.Parse with a DWD layout accepts exactly the all-digit texts of the layout's length that are valid calendar dates, and with the hour layout also those one shorter, whose hour has one digit |
| Chrono.ExampleGapTimeOneDigitHour | internal/dwd/v2/internal/parser/datafile.go:304 | the gap layout accepts a one-digit hour |
| Chrono.ExampleGapTimeBadDay | internal/dwd/v2/internal/parser/datafile.go:304-307 | the gap layout refuses a day the month does not have |

## Left out

- HTTP requests, index-page fetches and downloads to temporary files (the downloader files, `helpers/index-pages.go`, `internal/dwd/index-page.go`, the v2 page fetch) are I/O. The model takes their results as inputs: a parsed page, a downloaded name, or rows.
- ZIP reading, CSV tokenising and Windows-1252 decoding are left out. An archive entry is a name with its rows, already split into fields. A CSV read error is an explicit outcome where the code handles one.
- `strconv.ParseFloat` is the predicate `Numbers.ParsesAsNumber` over a decimal, infinity and NaN grammar, with `_` accepted only between two digits as strconv's `underscoreOK` rule does (`1_0` is ten). The float's value is not computed, and hexadecimal floats and range errors are left out.
- The calendar inside `time.Parse` is modelled for the DWD layouts only. Zones are tags: `In` relabels the zone and keeps the instant. The zone database is not modelled.
- Concurrency is left out: goroutines, wait groups, channels, mutexes and errgroups. Each crawl level collects its tasks' results in the order the tasks were started, which is one schedule the code allows. The data race on `errorOccurred` and the non-atomic get-then-set of the "running" flag, which lets two runs start, are not modelled.
- Go's map iteration order is an out-parameter (`RefreshDiscovery.UpdateAll`) or a parameter of the model, such as the per-row column order `ArchiveParser.ColumnOrder` of the data-file parser. It is not chosen by the model.
- `ArchiveParser.ColumnOrder` gives one order per row position, shared by the data files of one archive, where Go picks a fresh one at each range. Nothing observable is lost: a later data file replaces the points of an earlier one, and a file's failure does not depend on the order (`ArchiveParser.DatapointFileFailureWhateverOrder`).
- Go's `len` counts the UTF-8 bytes of a string, and a Dafny string counts characters. The length switches `Chrono.LayoutForLength` (used by `ArchiveParser.MetadataRow` and `ArchiveParser.RowDate`) and `StationList.RecordTime` therefore agree with Go only on ASCII text. On a date text with a non-ASCII character, Go may report an unsupported format where the model tries a layout, or the reverse.
- The JSON encoder and decoder are left out: `json.Marshal`, and the decoding step of the `UnmarshalJSON` methods, which is an input. Brotli compression, MIME detection and base64 encoding are left out too. `MarshalJSON` of `Resolution` and `DataType` only encodes `String()`. `Station.MarshalJSON` of the v2 types only encodes `ToFeature()`.
- The station encoding of the snapshot and the store write are inputs of `RefreshDiscovery.Portal`. A failed write of the "running" flag is not modelled, because the code ignores that result.
- Exact Go error texts are shortened to constants. Only which error occurs is modelled, not its wording.
- `Station.AddCapability` and `Station.UpdateHistoricalState` are defined in no file of this model. They stay abstract functions in `RefreshDiscovery.Portal` with no assumed contract. The `types` package's `Capability` is not part of this model either: its field layout is taken from `types/v1/capability.go`.
- `os.Remove` of the downloaded station files and all logging are side effects with no bearing on the result.
- The unsigned widths of `Resolution` (uint16) and `DataType` (uint32) are modelled as sets of bit positions. The model stores every bit position, and only the defined flags are labelled.
- `internal/dwd` reads constants (header names, date layouts) from a file that is not part of this model. They are taken to equal `helpers/constants.go`.
- `internal/dwd/v2/discover-stations.go`, `internal/dwd/v2/download.go` and `internal/dwd/v2/archive-parser.go` are orchestration over the network. Station discovery for one (granularity, product) pair, the download of archives, `HandleArchive` and the reachability check of the database are abstract parameters of `DiscoverAll` and `TimeseriesRoute`. The availability window of a station, which the source reads from differently shaped station types, is an abstract function `availability`.
- The `%f|%f` location key of the all-stations route formats floats. It is an abstract key function.
- The timing header and `c.JSON` of the routes are I/O, and the route inputs arrive already parsed.
- `TimeseriesRoute.SortByTime`: the repeat-until-sorted loop around `slices.SortFunc` is modelled by a sort that gives a sorted permutation. The order of datapoints with equal timestamps is not modelled, because `SortFunc` is not stable.
- The bootstrap, the ticker, the signal handling of `dwd-weather-data.go`, the Redis client, and the handlers that only decompress and forward the snapshot are left out.
- `helpers/parse-data-file.go` always returns nothing and is left out. `helpers/parse-station-file.go` is `RefreshDiscovery.ParseStationFile`.
- The data-only type files (`types/v2/*.go`, `types/v1/timeseries.go`, `types/v1/capability.go`, `types/v1/datapoint-details.go`) are mirrored as datatypes only.
