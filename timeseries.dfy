// The v2 time-series route (routes/v2/timeseries.go): a ladder of request
// checks, each of which ends the request with its own problem response,
// then the download of the station's archives, the naming of the
// description files, the concatenation of the archives' datapoints and
// metadata, and the sort of the datapoints by timestamp.
module TimeseriesRoute {
  import opened Common
  import opened Chrono
  import opened V2Types
  import Products
  import Granularities
  import ProductMapping

  /** The problem responses of the route (the ServiceError values it emits). */
  datatype Problem =
    | UnknownDatabase
    | DatabaseUnreachable
    | UnknownProduct
    | UnknownGranularity
    | UnsupportedGranularity
    | StationValidationFailed
    | StationNotAvailable
    | TimeseriesParseError
    | TimeseriesBoundaryError
    | TimeseriesStartTooEarly
    | TimeseriesEndTooLate

  /** What the handler answers: a problem, an internal error handed to c.Error, or the series. */
  datatype Response = Emitted(problem: Problem) | Errored(error: string) | Served(series: Timeseries)

  /** The outcome of a call into code outside the route. */
  datatype Result<T> = Success(value: T) | Failure(error: string)

  /** A time window: the bound query parameters, or a station's availability. */
  datatype Window = Window(start: Time, end: Time)

  /** The path parameters of the route. */
  datatype Path = Path(database: string, product: string, granularity: string, stationID: string)

  /** The path parameters and the query; a query that does not bind is None. */
  datatype Request = Request(path: Path, range: Option<Window>)

  /** A description file as DownloadFiles returns it: [file name, local path]. */
  datatype DescriptionFile = DescriptionFile(fileName: string, path: string)

  /** The files DownloadFiles returns. */
  datatype Downloads = Downloads(dataFiles: seq<string>, descriptionFiles: seq<DescriptionFile>)

  /** What HandleArchive returns for one data file. */
  datatype Archive = Archive(datapoints: seq<Datapoint>, metadata: seq<FieldMetadata>)

  /** The detected MIME type and the base64 text of an opened description file. */
  datatype Attachment = Attachment(mimeType: string, content: string)

  /**
   * Everything the route calls but does not define: the database table, the
   * HTTP probe (the status code), station discovery, the availability
   * window a station records for a product and granularity, the download,
   * opening a description file (with MIME detection and base64 encoding),
   * and the archive handler.
   */
  datatype Services = Services(
    databases: map<string, string>,
    probe: string -> Result<int>,
    discover: (string, Granularities.Granularity, Products.Product) -> Result<seq<Station>>,
    availability: (Station, Products.Product, Granularities.Granularity) -> Window,
    download: (string, string, Products.Product, Granularities.Granularity) -> Result<Downloads>,
    attach: string -> Result<Attachment>,
    handleArchive: string -> Result<Archive>)

  const StatusOK := 200

  // ---------------------------------------------------------------- the ladder

  /** The closure handed to slices.ContainsFunc: the first station with the ID. */
  function FindStation(stations: seq<Station>, id: string): (found: Option<Station>)
    ensures found.None? <==> forall s :: s in stations ==> s.id != id
    ensures found.Some? ==>
      exists k :: 0 <= k < |stations| && stations[k] == found.value && found.value.id == id
        && forall j :: 0 <= j < k ==> stations[j].id != id
  {
    if stations == [] then None
    else if stations[0].id == id then Some(stations[0])
    else
      var rest := FindStation(stations[1..], id);
      if rest.Some? then
        var k :| 0 <= k < |stations[1..]| && stations[1..][k] == rest.value && rest.value.id == id
          && forall j :: 0 <= j < k ==> stations[1..][j].id != id;
        assert stations[k + 1] == rest.value;
        rest
      else
        assert forall s :: s in stations ==> s == stations[0] || s in stations[1..];
        rest
  }

  /** The three range checks, skipped altogether when both bounds are zero. */
  function RangeProblem(range: Window, available: Window): (problem: Option<Problem>)
    ensures problem.Some? ==>
      problem.value in {TimeseriesBoundaryError, TimeseriesStartTooEarly, TimeseriesEndTooLate}
  {
    if IsZero(range.start) && IsZero(range.end) then None
    else if After(range.start, range.end) && !IsZero(range.end) then Some(TimeseriesBoundaryError)
    else if Before(range.start, available.start) then Some(TimeseriesStartTooEarly)
    else if After(range.end, available.end) then Some(TimeseriesEndTooLate)
    else None
  }

  /** The URL of a known database. */
  function Url(path: Path, env: Services): string
    requires path.database in env.databases
  {
    env.databases[path.database]
  }

  /** Product(0).Parse(p) and Granularity(0).Parse(g) on the path parameters. */
  function ProductParse(path: Path): Effect<Products.Product>
  {
    Products.ParseEffect(0, Str(path.product))
  }

  function GranularityParse(path: Path): Effect<Granularities.Granularity>
  {
    Granularities.ParseEffect(Granularities.None_, Str(path.granularity))
  }

  // The stages of the ladder a request passes.

  predicate DatabaseUp(path: Path, env: Services)
  {
    path.database in env.databases && env.probe(Url(path, env)) == Success(StatusOK)
  }

  predicate CombinationSupported(path: Path)
  {
    ProductParse(path).status.Ok? && GranularityParse(path).status.Ok?
    && ProductMapping.Supports(GranularityParse(path).receiver, ProductParse(path).receiver)
  }

  function Discovered(path: Path, env: Services): Result<seq<Station>>
    requires DatabaseUp(path, env) && CombinationSupported(path)
  {
    env.discover(Url(path, env), GranularityParse(path).receiver, ProductParse(path).receiver)
  }

  predicate StationsListed(path: Path, env: Services)
  {
    DatabaseUp(path, env) && CombinationSupported(path) && Discovered(path, env).Success?
  }

  function Station_(path: Path, env: Services): Option<Station>
    requires StationsListed(path, env)
  {
    FindStation(Discovered(path, env).value, path.stationID)
  }

  /** Where the ladder ends before the query is bound: a response, or the station and the parsed values. */
  datatype Selection =
    | Rejected(response: Response)
    | Selected(station: Station, product: Products.Product, granularity: Granularities.Granularity)

  /** The checks on the path parameters, in the handler's order. */
  function Select(path: Path, env: Services): Selection
  {
    if path.database !in env.databases then Rejected(Emitted(UnknownDatabase))
    else if env.probe(Url(path, env)).Failure? then Rejected(Errored(env.probe(Url(path, env)).error))
    else if env.probe(Url(path, env)).value != StatusOK then Rejected(Emitted(DatabaseUnreachable))
    else if !ProductParse(path).status.Ok? then Rejected(Emitted(UnknownProduct))
    else if !GranularityParse(path).status.Ok? then Rejected(Emitted(UnknownGranularity))
    else if !CombinationSupported(path) then Rejected(Emitted(UnsupportedGranularity))
    else if Discovered(path, env).Failure? then Rejected(Emitted(StationValidationFailed))
    else if Station_(path, env).None? then Rejected(Emitted(StationNotAvailable))
    else Selected(Station_(path, env).value, ProductParse(path).receiver, GranularityParse(path).receiver)
  }

  /**
   * The response of the handler, with the datapoints of a served series in
   * archive order: the handler sorts them before answering (see Agrees).
   */
  function Respond(req: Request, env: Services): Response
  {
    match Select(req.path, env)
    case Rejected(response) => response
    case Selected(station, product, granularity) =>
      if req.range.None? then Emitted(TimeseriesParseError)
      else
        var problem := RangeProblem(req.range.value, env.availability(station, product, granularity));
        if problem.Some? then Emitted(problem.value)
        else Assembled(req.path.database, station, product, granularity, env)
  }

  // ---------------------------------------------------------------- the series

  /** The display name of a description file. */
  function DescriptionName(fileName: string): string
  {
    var name := if HasPrefix(fileName, "BESCHREIBUNG") then "[DE] Datensatzbeschreibung" else "";
    var name := if HasPrefix(fileName, "DESCRIPTION") then "[EN] Dataset Description" else name;
    if name == "" then TrimChar(UpToFirst(fileName, '.'), '.') else name
  }

  /** The description files, in download order; the first that cannot be opened ends the request. */
  function Described(env: Services, files: seq<DescriptionFile>): Result<seq<File>>
  {
    if files == [] then Success([])
    else
      var last := files[|files| - 1];
      match Described(env, files[..|files| - 1])
      case Failure(e) => Failure(e)
      case Success(done) =>
        match env.attach(last.path)
        case Failure(e) => Failure(e)
        case Success(a) => Success(done + [File(DescriptionName(last.fileName), a.mimeType, a.content)])
  }

  /** The archives' datapoints and metadata, concatenated in download order. */
  function Gathered(env: Services, files: seq<string>): Result<Archive>
  {
    if files == [] then Success(Archive([], []))
    else
      match Gathered(env, files[..|files| - 1])
      case Failure(e) => Failure(e)
      case Success(done) =>
        match env.handleArchive(files[|files| - 1])
        case Failure(e) => Failure(e)
        case Success(a) => Success(Archive(done.datapoints + a.datapoints, done.metadata + a.metadata))
  }

  /** The part after the startDownload label, with the datapoints not yet sorted. */
  function Assembled(database: string, station: Station, product: Products.Product,
                     granularity: Granularities.Granularity, env: Services): (r: Response)
    ensures !r.Emitted?
  {
    match env.download(database, station.id, product, granularity)
    case Failure(e) => Errored(e)
    case Success(files) =>
      match Described(env, files.descriptionFiles)
      case Failure(e) => Errored(e)
      case Success(descriptions) =>
        match Gathered(env, files.dataFiles)
        case Failure(e) => Errored(e)
        case Success(archive) => Served(V2Types.Timeseries(archive.datapoints, archive.metadata, descriptions))
  }

  /** slices.IsSortedFunc with Timestamp.Compare: no datapoint is earlier than the one before it. */
  predicate IsSorted(points: seq<Datapoint>)
  {
    forall i :: 0 < i < |points| ==> points[i - 1].timestamp.ns <= points[i].timestamp.ns
  }

  /**
   * The handler's answer agrees with the specification: the same response,
   * except that a served series holds a sorted permutation of the datapoints.
   */
  predicate Agrees(actual: Response, spec: Response)
  {
    if spec.Served? then
      actual.Served?
      && IsSorted(actual.series.datapoints)
      && multiset(actual.series.datapoints) == multiset(spec.series.datapoints)
      && actual.series.metadata == spec.series.metadata
      && actual.series.descriptionFiles == spec.series.descriptionFiles
    else actual == spec
  }

  /** Insert a datapoint into a sorted list, after the points that are not later. */
  function Insert(p: Datapoint, points: seq<Datapoint>): (r: seq<Datapoint>)
    ensures multiset(r) == multiset(points) + multiset{p}
    ensures |r| > 0 && (r[0] == p || (|points| > 0 && r[0] == points[0]))
    ensures IsSorted(points) ==> IsSorted(r)
  {
    if points == [] || Before(p.timestamp, points[0].timestamp) then [p] + points
    else
      var rest := Insert(p, points[1..]);
      assert points == [points[0]] + points[1..];
      if IsSorted(points) then
        SortedCons(points[0], rest);
        [points[0]] + rest
      else [points[0]] + rest
  }

  /** Putting a point before a sorted list that starts no earlier keeps it sorted. */
  lemma SortedCons(head: Datapoint, rest: seq<Datapoint>)
    requires IsSorted(rest) && (rest == [] || head.timestamp.ns <= rest[0].timestamp.ns)
    ensures IsSorted([head] + rest)
  {
  }

  /** slices.SortFunc by Timestamp.Compare, as an insertion sort (the library's tie order is not fixed). */
  function SortByTime(points: seq<Datapoint>): (r: seq<Datapoint>)
    ensures IsSorted(r) && multiset(r) == multiset(points)
  {
    if points == [] then []
    else
      var init := points[..|points| - 1];
      assert points == init + [points[|points| - 1]];
      Insert(points[|points| - 1], SortByTime(init))
  }

  // ---------------------------------------------------------------- the handler

  /** Timeseries: the checks in the handler's order; each failure answers at once. */
  method Timeseries(req: Request, env: Services) returns (response: Response)
    ensures Agrees(response, Respond(req, env))
  {
    var selection := SelectStation(req.path, env);
    if selection.Rejected? {
      return selection.response;
    }

    if req.range.None? {
      return Emitted(TimeseriesParseError);
    }
    var range := req.range.value;
    var available := env.availability(selection.station, selection.product, selection.granularity);

    if !(IsZero(range.start) && IsZero(range.end)) {
      if After(range.start, range.end) && !IsZero(range.end) {
        return Emitted(TimeseriesBoundaryError);
      }
      if Before(range.start, available.start) {
        return Emitted(TimeseriesStartTooEarly);
      }
      if After(range.end, available.end) {
        return Emitted(TimeseriesEndTooLate);
      }
    }

    response := Assemble(req.path.database, selection.station, selection.product, selection.granularity, env);
  }

  /** The checks on the path parameters (lines 99-167): the first that fails gives the response. */
  method SelectStation(path: Path, env: Services) returns (selection: Selection)
    ensures selection == Select(path, env)
  {
    if path.database !in env.databases {
      return Rejected(Emitted(UnknownDatabase));
    }
    var url := env.databases[path.database];
    var res := env.probe(url);
    if res.Failure? {
      return Rejected(Errored(res.error));
    }
    if res.value != StatusOK {
      return Rejected(Emitted(DatabaseUnreachable));
    }

    var product := new Products.ProductVar(0);
    var status := product.Parse(Str(path.product));
    if !status.Ok? {
      return Rejected(Emitted(UnknownProduct));
    }

    var granularity := new Granularities.GranularityVar(Granularities.None_);
    status := granularity.Parse(Str(path.granularity));
    if !status.Ok? {
      return Rejected(Emitted(UnknownGranularity));
    }

    if product.value !in ProductMapping.Offered(granularity.value) {
      return Rejected(Emitted(UnsupportedGranularity));
    }

    var stations := env.discover(url, granularity.value, product.value);
    if stations.Failure? {
      return Rejected(Emitted(StationValidationFailed));
    }

    var station := FindStation(stations.value, path.stationID);
    if station.None? {
      return Rejected(Emitted(StationNotAvailable));
    }
    return Selected(station.value, product.value, granularity.value);
  }

  /** The part after the startDownload label: download, name and attach, gather, sort. */
  method Assemble(database: string, station: Station, product: Products.Product,
                  granularity: Granularities.Granularity, env: Services) returns (response: Response)
    ensures Agrees(response, Assembled(database, station, product, granularity, env))
  {
    var downloaded := env.download(database, station.id, product, granularity);
    if downloaded.Failure? {
      return Errored(downloaded.error);
    }
    var described := Describe(env, downloaded.value.descriptionFiles);
    if described.Failure? {
      return Errored(described.error);
    }
    var gathered := Gather(env, downloaded.value.dataFiles);
    if gathered.Failure? {
      return Errored(gathered.error);
    }

    var allDatapoints := gathered.value.datapoints;
    while !IsSorted(allDatapoints)
      invariant multiset(allDatapoints) == multiset(gathered.value.datapoints)
      decreases if IsSorted(allDatapoints) then 0 else 1
    {
      allDatapoints := SortByTime(allDatapoints);
    }

    return Served(V2Types.Timeseries(allDatapoints, gathered.value.metadata, described.value));
  }

  /** The description loop: each file named by its prefix and attached; the first failure ends it. */
  method Describe(env: Services, descriptionFiles: seq<DescriptionFile>) returns (described: Result<seq<File>>)
    ensures described == Described(env, descriptionFiles)
  {
    var descriptions: seq<File> := [];
    for i := 0 to |descriptionFiles|
      invariant Described(env, descriptionFiles[..i]) == Success(descriptions)
    {
      var descriptionFile := descriptionFiles[i];
      var file := File("", "", "");
      if HasPrefix(descriptionFile.fileName, "BESCHREIBUNG") {
        file := file.(name := "[DE] Datensatzbeschreibung");
      }
      if HasPrefix(descriptionFile.fileName, "DESCRIPTION") {
        file := file.(name := "[EN] Dataset Description");
      }
      if file.name == "" {
        file := file.(name := TrimChar(UpToFirst(descriptionFile.fileName, '.'), '.'));
      }
      assert file.name == DescriptionName(descriptionFile.fileName);
      assert descriptionFiles[..i + 1][..i] == descriptionFiles[..i];
      var attached := env.attach(descriptionFile.path);
      if attached.Failure? {
        DescribedFailurePersists(env, descriptionFiles, i + 1);
        return Failure(attached.error);
      }
      file := file.(mimeType := attached.value.mimeType, content := attached.value.content);
      descriptions := descriptions + [file];
    }
    assert descriptionFiles[..|descriptionFiles|] == descriptionFiles;
    return Success(descriptions);
  }

  /** The archive loop: datapoints and metadata appended file by file; the first failure ends it. */
  method Gather(env: Services, dataFiles: seq<string>) returns (gathered: Result<Archive>)
    ensures gathered == Gathered(env, dataFiles)
  {
    var allDatapoints: seq<Datapoint> := [];
    var allMetadata: seq<FieldMetadata> := [];
    for i := 0 to |dataFiles|
      invariant Gathered(env, dataFiles[..i]) == Success(Archive(allDatapoints, allMetadata))
    {
      assert dataFiles[..i + 1][..i] == dataFiles[..i];
      var archive := env.handleArchive(dataFiles[i]);
      if archive.Failure? {
        GatheredFailurePersists(env, dataFiles, i + 1);
        return Failure(archive.error);
      }
      allDatapoints := allDatapoints + archive.value.datapoints;
      allMetadata := allMetadata + archive.value.metadata;
    }
    assert dataFiles[..|dataFiles|] == dataFiles;
    return Success(Archive(allDatapoints, allMetadata));
  }

  // ---------------------------------------------------------------- lemmas

  /** Once a description file fails, every longer list of files fails with its error. */
  lemma {:induction false} DescribedFailurePersists(env: Services, files: seq<DescriptionFile>, n: nat)
    requires n <= |files| && Described(env, files[..n]).Failure?
    ensures Described(env, files) == Described(env, files[..n])
    decreases |files| - n
  {
    if n < |files| {
      assert files[..n + 1][..n] == files[..n];
      DescribedFailurePersists(env, files, n + 1);
    } else {
      assert files[..n] == files;
    }
  }

  /** Once an archive fails, every longer list of archives fails with its error. */
  lemma {:induction false} GatheredFailurePersists(env: Services, files: seq<string>, n: nat)
    requires n <= |files| && Gathered(env, files[..n]).Failure?
    ensures Gathered(env, files) == Gathered(env, files[..n])
    decreases |files| - n
  {
    if n < |files| {
      assert files[..n + 1][..n] == files[..n];
      GatheredFailurePersists(env, files, n + 1);
    } else {
      assert files[..n] == files;
    }
  }

  /**
   * Checks run in a fixed order and the first failure wins: each problem is
   * answered exactly when every earlier check passed and its own failed.
   */
  lemma LadderOrder(path: Path, env: Services)
    ensures Select(path, env) == Rejected(Emitted(UnknownDatabase)) <==> path.database !in env.databases
    ensures Select(path, env) == Rejected(Emitted(DatabaseUnreachable)) <==>
      path.database in env.databases && env.probe(Url(path, env)).Success? && env.probe(Url(path, env)).value != StatusOK
    ensures Select(path, env) == Rejected(Emitted(UnknownProduct)) <==>
      DatabaseUp(path, env) && !ProductParse(path).status.Ok?
    ensures Select(path, env) == Rejected(Emitted(UnknownGranularity)) <==>
      DatabaseUp(path, env) && ProductParse(path).status.Ok? && !GranularityParse(path).status.Ok?
    ensures Select(path, env) == Rejected(Emitted(UnsupportedGranularity)) <==>
      DatabaseUp(path, env) && ProductParse(path).status.Ok? && GranularityParse(path).status.Ok? && !CombinationSupported(path)
    ensures Select(path, env) == Rejected(Emitted(StationValidationFailed)) <==>
      DatabaseUp(path, env) && CombinationSupported(path) && Discovered(path, env).Failure?
    ensures Select(path, env) == Rejected(Emitted(StationNotAvailable)) <==>
      StationsListed(path, env) && Station_(path, env).None?
    ensures Select(path, env).Selected? <==> StationsListed(path, env) && Station_(path, env).Some?
  {
  }

  /** The query is bound last: a request that passes the path checks and has no bound query is a parse error. */
  lemma QueryBoundLast(req: Request, env: Services)
    ensures Respond(req, env) == Emitted(TimeseriesParseError) <==> Select(req.path, env).Selected? && req.range.None?
  {
    SelectNeverParseError(req.path, env);
  }

  /** No check on the path parameters answers with the query's parse error. */
  lemma SelectNeverParseError(path: Path, env: Services)
    ensures Select(path, env) != Rejected(Emitted(TimeseriesParseError))
  {
  }

  /** A request whose two bounds are zero passes every range check. */
  lemma BothZeroSkipsRangeChecks(range: Window, available: Window)
    requires IsZero(range.start) && IsZero(range.end)
    ensures RangeProblem(range, available) == None
  {
  }

  /** Switched bounds are reported exactly when the end is non-zero (and the range is not all zero). */
  lemma SwitchedBoundsNeedAnEnd(range: Window, available: Window)
    ensures RangeProblem(range, available) == Some(TimeseriesBoundaryError) <==>
      After(range.start, range.end) && !IsZero(range.end)
  {
  }

  /** A zero start with a later non-zero end is too early for any station that starts after the zero time. */
  lemma ZeroStartTooEarly(range: Window, available: Window)
    requires IsZero(range.start) && range.end.ns > 0 && available.start.ns > 0
    ensures RangeProblem(range, available) == Some(TimeseriesStartTooEarly)
  {
  }

  /** A zero end is never too late for a station whose availability ends after the zero time. */
  lemma ZeroEndNeverTooLate(range: Window, available: Window)
    requires IsZero(range.end) && available.end.ns >= 0
    ensures RangeProblem(range, available) != Some(TimeseriesEndTooLate)
  {
  }

  /** The requested range only decides whether the series is served; it never filters it. */
  lemma RangeNeverFilters(req: Request, env: Services, other: Window)
    requires Respond(req, env).Served? && Respond(req.(range := Some(other)), env).Served?
    ensures Respond(req.(range := Some(other)), env) == Respond(req, env)
  {
  }

  /** A "BESCHREIBUNG" file is the German dataset description. */
  lemma GermanDescription(fileName: string)
    requires HasPrefix(fileName, "BESCHREIBUNG")
    ensures DescriptionName(fileName) == "[DE] Datensatzbeschreibung"
  {
    assert fileName[0] == 'B';
    assert !HasPrefix(fileName, "DESCRIPTION");
  }

  /** A "DESCRIPTION" file is the English dataset description. */
  lemma EnglishDescription(fileName: string)
    requires HasPrefix(fileName, "DESCRIPTION")
    ensures DescriptionName(fileName) == "[EN] Dataset Description"
  {
  }

  /** Any other file is named by the text before its first dot. */
  lemma OtherDescription(fileName: string)
    requires !HasPrefix(fileName, "BESCHREIBUNG") && !HasPrefix(fileName, "DESCRIPTION")
    ensures DescriptionName(fileName) == fileName[..FindChar(fileName, '.')]
  {
    var i := FindChar(fileName, '.');
    var u := UpToFirst(fileName, '.');
    if i == |fileName| {
      assert '.' !in fileName;
      TrimCharNoop(fileName, '.');
    } else {
      assert u == fileName[..i + 1];
      assert '.' !in fileName[..i];
      if i > 0 {
        assert u[0] != '.' && u[..i] == fileName[..i];
        TrimCharNoop(fileName[..i], '.');
      }
    }
  }

  lemma TrimCharNoop(s: string, c: char)
    requires c !in s
    ensures TrimChar(s, c) == s
  {
  }

  /** Gathering two lists of archives concatenates what each gives, in order. */
  lemma {:induction false} GatheredAppend(env: Services, first: seq<string>, second: seq<string>)
    requires Gathered(env, first).Success? && Gathered(env, second).Success?
    ensures Gathered(env, first + second) == Success(Archive(
      Gathered(env, first).value.datapoints + Gathered(env, second).value.datapoints,
      Gathered(env, first).value.metadata + Gathered(env, second).value.metadata))
    decreases |second|
  {
    if second == [] {
      assert first + second == first;
      var a := Gathered(env, first).value;
      assert a.datapoints + [] == a.datapoints && a.metadata + [] == a.metadata;
    } else {
      var init := second[..|second| - 1];
      var last := second[|second| - 1];
      assert (first + second)[..|first + second| - 1] == first + init;
      assert (first + second)[|first + second| - 1] == last;
      assert Gathered(env, init).Success? && env.handleArchive(last).Success?;
      GatheredAppend(env, first, init);
      var a, b, c := Gathered(env, first).value, Gathered(env, init).value, env.handleArchive(last).value;
      assert Gathered(env, second).value == Archive(b.datapoints + c.datapoints, b.metadata + c.metadata);
      assert a.datapoints + (b.datapoints + c.datapoints) == (a.datapoints + b.datapoints) + c.datapoints;
      assert a.metadata + (b.metadata + c.metadata) == (a.metadata + b.metadata) + c.metadata;
    }
  }

  /** A sorted list of datapoints is ordered pairwise, not only between neighbours. */
  lemma {:induction false} SortedPairwise(points: seq<Datapoint>, i: nat, j: nat)
    requires IsSorted(points) && i <= j < |points|
    ensures points[i].timestamp.ns <= points[j].timestamp.ns
    decreases j - i
  {
    if i < j {
      SortedPairwise(points, i, j - 1);
    }
  }
}
