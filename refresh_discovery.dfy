// helpers.RunDiscovery (helpers/refresh-discovery.go): the legacy station
// discovery. It guards itself with the "dwd-discovery-running" flag in the
// cache store, crawls the index pages of the open data portal level by
// level (resolutions, data types, sub-folders, station description files),
// downloads the description files, folds their records into a station map
// and finally stores the whole list under "dwd-station-list".
//
// The portal, the downloads, the CSV reader, the encoders and the two
// station methods the source calls but does not show are parameters
// (`Portal`). The goroutines of one level are taken to run one after the
// other in the order they were started, and their channel is drained in
// that order, which is one of the schedules the source admits.
module RefreshDiscovery {
  import opened Common
  import opened Numbers
  import opened Chrono
  import opened HtmlTree
  import opened DocumentFilter
  import opened Stations
  import Resolutions
  import DataTypes

  const BaseHost := "https://opendata.dwd.de"
  const BasePath := "/climate_environment/CDC/observations_germany/climate"
  /** The index page of the climate observations the crawl starts from. */
  const RootUrl := BaseHost + BasePath
  /** Only links with this ending are downloaded. */
  const StationFileSuffix := "Beschreibung_Stationen.txt"

  /** The compressed JSON stored under "dwd-station-list". */
  type Bytes = seq<bv8>

  /** A capability of a station: the struct built from each record. */
  datatype Capability = Capability(
    dataType: DataTypes.DataType,
    resolution: Resolutions.Resolution,
    availableFrom: Time,
    availableUntil: Time)

  /** What reading a station file with the CSV reader gives. */
  datatype CsvRead =
    | Unopened                     // os.Open failed
    | Unreadable                   // ReadAll failed: no lines at all
    | Rows(rows: seq<seq<string>>) // the space-separated fields of every line

  /** A downloaded station file: the temporary file's name and the URL it came from. */
  datatype Download = Download(name: string, url: string)

  /**
   * The outside world of one run. `fetch` is one index-page request (a
   * request error, a status other than 200 and an HTML parse error are all
   * None); `addCapability` and `updateHistorical` stand for
   * Station.AddCapability and Station.UpdateHistoricalState; `encode` is
   * the JSON marshalling followed by the brotli write and flush (None when
   * any of the three fails); `readFails` and `storeFails` say whether the
   * read of the running flag and the write of the list fail.
   */
  datatype Portal = Portal(
    readFails: bool,
    fetch: string -> Option<Node>,
    download: string -> Option<string>,
    readCsv: string -> CsvRead,
    addCapability: (Station, Capability) -> Station,
    updateHistorical: Station -> Option<Station>,
    encode: seq<Station> -> Option<Bytes>,
    storeFails: bool)

  /**
   * How a run ends: by returning (the deferred flag write runs), by a panic
   * in the main goroutine (the deferred write runs while the panic unwinds),
   * or by a panic in a child goroutine, which ends the process at once.
   */
  datatype End = Returned | PanickedInMain | CrashedInGoroutine

  /** A stage either hands its value to the next one or ends the run. */
  datatype Step<T> = Next(value: T) | Ended(end: End)

  /** The two keys of the cache store the discovery uses. */
  class Store {
    var running: Option<string>     // "dwd-discovery-running"; None while the key is absent
    var stationList: Option<Bytes>  // "dwd-station-list"

    constructor (running: Option<string>, stationList: Option<Bytes>)
      ensures this.running == running && this.stationList == stationList
    {
      this.running := running;
      this.stationList := stationList;
    }
  }

  // ------------------------------------------------------------ the flag

  /** What the flag check decides. */
  datatype Decision =
    | Abort                     // the read failed, or the stored text is no boolean
    | Skip                      // another discovery is running
    | Start(marksRunning: bool) // crawl; the flag is written "true" first when it was absent

  /**
   * Get("dwd-discovery-running").Bool(): an absent key reads as false and
   * has the flag written; a stored value is read by strconv.ParseBool.
   */
  function Decide(stored: Option<string>, readFails: bool): (d: Decision)
    ensures d == Start(true) <==> !readFails && stored.None?
    ensures d == Start(false) <==> !readFails && stored.Some? && ParseBool(stored.value) == Some(false)
    ensures d == Skip <==> !readFails && stored.Some? && ParseBool(stored.value) == Some(true)
    ensures d == Abort <==> readFails || (stored.Some? && ParseBool(stored.value).None?)
  {
    if readFails then Abort
    else if stored.None? then Start(true)
    else match ParseBool(stored.value)
      case None => Abort
      case Some(running) => if running then Skip else Start(false)
  }

  // ----------------------------------------------------------- the levels

  /** The outcome of one goroutine of a crawl level. */
  datatype Task<T> = Yielded(items: seq<T>) | Errored | Crashed

  /** What a level has gathered so far: the items sent, and whether a task failed or crashed. */
  datatype Gathered<T> = Gathered(items: seq<T>, failed: bool, crashed: bool)

  function Gather<T>(acc: Gathered<T>, task: Task<T>): Gathered<T>
  {
    match task
    case Yielded(items) => acc.(items := acc.items + items)
    case Errored => acc.(failed := true)
    case Crashed => acc.(crashed := true)
  }

  /** The tasks of a level gathered in start order. */
  function Collect<T>(acc: Gathered<T>, tasks: seq<Task<T>>): Gathered<T>
    decreases |tasks|
  {
    if tasks == [] then acc else Collect(Gather(acc, tasks[0]), tasks[1..])
  }

  /** Everything the tasks sent, in order. */
  function Sent<T>(tasks: seq<Task<T>>): seq<T>
    decreases |tasks|
  {
    if tasks == [] then []
    else (if tasks[0].Yielded? then tasks[0].items else []) + Sent(tasks[1..])
  }

  /** The url of each link below a page: the page's url followed by the link. */
  function Below(prefix: string, links: seq<string>): (urls: seq<string>)
    ensures |urls| == |links|
    ensures forall k :: 0 <= k < |links| ==> urls[k] == prefix + links[k]
  {
    seq(|links|, k requires 0 <= k < |links| => prefix + links[k])
  }

  /** The url of each station description file among the links of a page. */
  function StationFileUrls(prefix: string, files: seq<string>): seq<string>
    decreases |files|
  {
    if files == [] then []
    else
      var rest := StationFileUrls(prefix, files[..|files| - 1]);
      var file := files[|files| - 1];
      if HasSuffix(file, StationFileSuffix) then rest + [prefix + file] else rest
  }

  /** The root page: its folders are the resolutions. The folder filter runs in the main goroutine. */
  function Root(env: Portal): Step<seq<string>>
  {
    match env.fetch(RootUrl)
    case None => Ended(Returned)
    case Some(document) =>
      match Folders(document)
      case None => Ended(PanickedInMain)
      case Some(folders) => Next(folders)
  }

  /** One resolution folder: its sub-folders are the data types (the folder filter panics in a goroutine). */
  function ResolutionTask(env: Portal, folder: string): Task<string>
  {
    var url := RootUrl + "/" + folder;
    match env.fetch(url)
    case None => Errored
    case Some(page) =>
      match Folders(page)
      case None => Crashed
      case Some(folders) => Yielded(Below(url + "/", folders))
  }

  /** One data type folder: its sub-folders are where the station files live. */
  function DataTypeTask(env: Portal, url: string): Task<string>
  {
    match env.fetch(url)
    case None => Errored
    case Some(page) =>
      match Folders(page)
      case None => Crashed
      case Some(folders) => Yielded(Below(url, folders))
  }

  /** One data folder: the links to its station description files. */
  function DataTask(env: Portal, url: string): Task<string>
  {
    match env.fetch(url)
    case None => Errored
    case Some(page) => Yielded(StationFileUrls(url, Files(page)))
  }

  /** One station file: its download. */
  function DownloadTask(env: Portal, url: string): Task<Download>
  {
    match env.download(url)
    case None => Errored
    case Some(name) => Yielded([Download(name, url)])
  }

  function NothingYet<T>(): Gathered<T> { Gathered([], false, false) }

  function ResolutionTasks(env: Portal, folders: seq<string>): seq<Task<string>>
  {
    seq(|folders|, k requires 0 <= k < |folders| => ResolutionTask(env, folders[k]))
  }

  function DataTypeTasks(env: Portal, urls: seq<string>): seq<Task<string>>
  {
    seq(|urls|, k requires 0 <= k < |urls| => DataTypeTask(env, urls[k]))
  }

  function DataTasks(env: Portal, urls: seq<string>): seq<Task<string>>
  {
    seq(|urls|, k requires 0 <= k < |urls| => DataTask(env, urls[k]))
  }

  function DownloadTasks(env: Portal, urls: seq<string>): seq<Task<Download>>
  {
    seq(|urls|, k requires 0 <= k < |urls| => DownloadTask(env, urls[k]))
  }

  /** The resolution level: a crash ends the process, and any failure ends the run after the wait. */
  function ResolutionLevel(env: Portal, folders: seq<string>): Step<seq<string>>
  {
    var g := Collect(NothingYet(), ResolutionTasks(env, folders));
    if g.crashed then Ended(CrashedInGoroutine) else if g.failed then Ended(Returned) else Next(g.items)
  }

  /** The lower levels drop a failed task and go on with what the others sent. */
  function Lower<T>(g: Gathered<T>): Step<seq<T>>
  {
    if g.crashed then Ended(CrashedInGoroutine) else Next(g.items)
  }

  function DataTypeLevel(env: Portal, urls: seq<string>): Step<seq<string>>
  {
    Lower(Collect(NothingYet(), DataTypeTasks(env, urls)))
  }

  function DataLevel(env: Portal, urls: seq<string>): Step<seq<string>>
  {
    Lower(Collect(NothingYet(), DataTasks(env, urls)))
  }

  function DownloadLevel(env: Portal, urls: seq<string>): Step<seq<Download>>
  {
    Lower(Collect(NothingYet(), DownloadTasks(env, urls)))
  }

  // ---------------------------------------------------------- the records

  /** ParseStationFile: the CSV lines without the two header lines. */
  function ParseStationFile(read: CsvRead): (r: Step<seq<seq<string>>>)
    ensures r.Next? <==> read.Rows? && |read.rows| >= 2
    ensures r.Next? ==> r.value == read.rows[2..]
    ensures r == Ended(Returned) <==> read.Unopened?
  {
    match read
    case Unopened => Ended(Returned)
    case Unreadable => Ended(PanickedInMain)   // lines[2:] of a nil slice
    case Rows(rows) => if |rows| < 2 then Ended(PanickedInMain) else Next(rows[2..])
  }

  /** time.Parse with the day layout "20060102". */
  function ParseDay(s: string): (t: Option<Time>)
    ensures t.Some? <==> ParseLayout(DayOnly, s).Some?
    ensures t.Some? ==> t.value.zone == UTC
  {
    match ParseLayout(DayOnly, s)
    case None => None
    case Some(c) => Some(ToTime(c))
  }

  /** The station a first record describes (its capabilities are still nil). */
  function NewStation(record: seq<string>): Station
    requires |record| >= 8
  {
    Station(record[0], Join(record[6..|record| - 2], " "), record[|record| - 2],
            FloatOrZero(record[3]), Some([FloatOrZero(record[4]), FloatOrZero(record[5])]), None)
  }

  /**
   * One record of a station file downloaded from url: a missing field
   * panics, an unreadable from-date ends the run, an unreadable until-date
   * is only logged (the zero time is used). The first record of a station
   * creates it; a later one adds a capability, and panics when the url
   * names no data type.
   */
  function Record(env: Portal, url: string, stations: map<string, Station>, record: seq<string>): Step<map<string, Station>>
  {
    if |record| < 3 then Ended(PanickedInMain)
    else
      match ParseDay(record[1])
      case None => Ended(Returned)
      case Some(from) =>
        var until := if ParseDay(record[2]).Some? then ParseDay(record[2]).value else ZeroTime;
        var parts := Split(url, "/");
        var c := Capability(DataTypes.Parsed(parts), Resolutions.Parsed(parts), from, until);
        if record[0] in stations then
          if DataTypes.Parsed(parts) == {} then Ended(PanickedInMain)
          else Next(stations[record[0] := env.addCapability(stations[record[0]], c)])
        else if |record| < 8 then Ended(PanickedInMain)   // record[3..5], then record[6:len-2]
        else Next(stations[record[0] := env.addCapability(NewStation(record), c)])
  }

  /** The records of one file, in order; the first one that ends the run ends it. */
  function Records(env: Portal, url: string, stations: map<string, Station>, records: seq<seq<string>>): Step<map<string, Station>>
    decreases |records|
  {
    if records == [] then Next(stations)
    else
      match Record(env, url, stations, records[0])
      case Ended(e) => Ended(e)
      case Next(m) => Records(env, url, m, records[1..])
  }

  /** The downloaded files, in order. */
  function StationFiles(env: Portal, stations: map<string, Station>, files: seq<Download>): Step<map<string, Station>>
    decreases |files|
  {
    if files == [] then Next(stations)
    else
      match ParseStationFile(env.readCsv(files[0].name))
      case Ended(e) => Ended(e)
      case Next(records) =>
        match Records(env, files[0].url, stations, records)
        case Ended(e) => Ended(e)
        case Next(m) => StationFiles(env, m, files[1..])
  }

  /** Everything from the root page up to the station map. */
  function Crawl(env: Portal): Step<map<string, Station>>
  {
    match Root(env)
    case Ended(e) => Ended(e)
    case Next(folders) =>
      match ResolutionLevel(env, folders)
      case Ended(e) => Ended(e)
      case Next(dataTypeUrls) =>
        match DataTypeLevel(env, dataTypeUrls)
        case Ended(e) => Ended(e)
        case Next(dataUrls) =>
          match DataLevel(env, dataUrls)
          case Ended(e) => Ended(e)
          case Next(stationFileUrls) =>
            match DownloadLevel(env, stationFileUrls)
            case Ended(e) => Ended(e)
            case Next(files) => StationFiles(env, map[], files)
  }

  // ---------------------------------------------------------- the snapshot

  /** Every station after UpdateHistoricalState, or None when one of them fails. */
  function Updated(env: Portal, stations: map<string, Station>): (u: Option<map<string, Station>>)
    ensures u.None? <==> exists id :: id in stations && env.updateHistorical(stations[id]).None?
    ensures u.Some? ==> u.value.Keys == stations.Keys
    ensures u.Some? ==> forall id :: id in stations ==> env.updateHistorical(stations[id]) == Some(u.value[id])
  {
    if forall id :: id in stations ==> env.updateHistorical(stations[id]).Some? then
      Some(map id | id in stations :: env.updateHistorical(stations[id]).value)
    else None
  }

  predicate NoRepeats(xs: seq<string>)
  {
    forall i, j :: 0 <= i < j < |xs| ==> xs[i] != xs[j]
  }

  /** order lists every key of the map exactly once: one iteration order of a Go map. */
  predicate Enumerates(order: seq<string>, keys: set<string>)
  {
    && NoRepeats(order)
    && (forall id :: id in order ==> id in keys)
    && (forall id :: id in keys ==> id in order)
  }

  /** The station list in the given iteration order. */
  function Listing(stations: map<string, Station>, order: seq<string>): (list: seq<Station>)
    requires forall id :: id in order ==> id in stations
    ensures |list| == |order|
    ensures forall k :: 0 <= k < |order| ==> list[k] == stations[order[k]]
  {
    seq(|order|, k requires 0 <= k < |order| => stations[order[k]])
  }

  // ------------------------------------------------------- the whole run

  /** How the run ends, for the stored flag it reads. */
  function EndOf(env: Portal, stored: Option<string>): End
  {
    if Decide(stored, env.readFails).Start? && Crawl(env).Ended? then Crawl(env).end else Returned
  }

  /**
   * The station list after a run that iterated the station map in `order`:
   * replaced only when the crawl, every historical update, the encoding
   * and the store write succeed.
   */
  predicate ListAfter(env: Portal, stored: Option<string>, before: Option<Bytes>, order: seq<string>, after: Option<Bytes>)
  {
    if Decide(stored, env.readFails).Start? && Crawl(env).Next? && Updated(env, Crawl(env).value).Some? then
      var u := Updated(env, Crawl(env).value).value;
      && Enumerates(order, u.Keys)
      && var bytes := env.encode(Listing(u, order));
         after == if bytes.Some? && !env.storeFails then Some(bytes.value) else before
    else after == before
  }

  // ------------------------------------------------------------- methods

  /** A resolution goroutine: fetch the folder's page and build the data type urls. */
  method RunResolutionTask(env: Portal, folder: string) returns (task: Task<string>)
    ensures task == ResolutionTask(env, folder)
  {
    var url := RootUrl + "/" + folder;
    var page := env.fetch(url);
    if page.None? {
      return Errored;
    }
    var folders := FilterDocumentForFolders(page.value);
    if folders.None? {
      return Crashed;
    }
    var urls := BuildUrls(url + "/", folders.value);
    return Yielded(urls);
  }

  /** A data type goroutine. */
  method RunDataTypeTask(env: Portal, url: string) returns (task: Task<string>)
    ensures task == DataTypeTask(env, url)
  {
    var page := env.fetch(url);
    if page.None? {
      return Errored;
    }
    var folders := FilterDocumentForFolders(page.value);
    if folders.None? {
      return Crashed;
    }
    var urls := BuildUrls(url, folders.value);
    return Yielded(urls);
  }

  /** A data folder goroutine: keep the station description files. */
  method RunDataTask(env: Portal, url: string) returns (task: Task<string>)
    ensures task == DataTask(env, url)
  {
    var page := env.fetch(url);
    if page.None? {
      return Errored;
    }
    var possibleFiles := FilterDocumentForFiles(page.value);
    var urls := [];
    for i := 0 to |possibleFiles|
      invariant urls == StationFileUrls(url, possibleFiles[..i])
    {
      assert possibleFiles[..i + 1][..i] == possibleFiles[..i];
      if !HasSuffix(possibleFiles[i], StationFileSuffix) {
        continue;
      }
      urls := urls + [url + possibleFiles[i]];
    }
    assert possibleFiles[..|possibleFiles|] == possibleFiles;
    return Yielded(urls);
  }

  /** The url loop of the folder levels. */
  method BuildUrls(prefix: string, folders: seq<string>) returns (urls: seq<string>)
    ensures urls == Below(prefix, folders)
  {
    urls := [];
    for i := 0 to |folders|
      invariant |urls| == i
      invariant forall k :: 0 <= k < i ==> urls[k] == prefix + folders[k]
    {
      urls := urls + [prefix + folders[i]];
    }
  }

  /** The resolution level: start a task per folder, wait, then check the error flag. */
  method ResolveDataTypes(env: Portal, folders: seq<string>) returns (step: Step<seq<string>>)
    ensures step == ResolutionLevel(env, folders)
  {
    ghost var tasks := ResolutionTasks(env, folders);
    var acc: Gathered<string> := NothingYet();
    for i := 0 to |folders|
      invariant Collect(NothingYet(), tasks) == Collect(acc, tasks[i..])
    {
      var task := RunResolutionTask(env, folders[i]);
      assert tasks[i..][1..] == tasks[i + 1..];
      acc := Gather(acc, task);
    }
    if acc.crashed {
      return Ended(CrashedInGoroutine);
    }
    if acc.failed {
      return Ended(Returned);
    }
    return Next(acc.items);
  }

  /** The data type level. */
  method ResolveDataFolders(env: Portal, urls: seq<string>) returns (step: Step<seq<string>>)
    ensures step == DataTypeLevel(env, urls)
  {
    ghost var tasks := DataTypeTasks(env, urls);
    var acc: Gathered<string> := NothingYet();
    for i := 0 to |urls|
      invariant Collect(NothingYet(), tasks) == Collect(acc, tasks[i..])
    {
      var task := RunDataTypeTask(env, urls[i]);
      assert tasks[i..][1..] == tasks[i + 1..];
      acc := Gather(acc, task);
    }
    return Lower(acc);
  }

  /** The data folder level. */
  method ResolveStationFiles(env: Portal, urls: seq<string>) returns (step: Step<seq<string>>)
    ensures step == DataLevel(env, urls)
  {
    ghost var tasks := DataTasks(env, urls);
    var acc: Gathered<string> := NothingYet();
    for i := 0 to |urls|
      invariant Collect(NothingYet(), tasks) == Collect(acc, tasks[i..])
    {
      var task := RunDataTask(env, urls[i]);
      assert tasks[i..][1..] == tasks[i + 1..];
      acc := Gather(acc, task);
    }
    return Lower(acc);
  }

  /** The download level: a failed download is dropped. */
  method DownloadStationFiles(env: Portal, urls: seq<string>) returns (step: Step<seq<Download>>)
    ensures step == DownloadLevel(env, urls)
  {
    ghost var tasks := DownloadTasks(env, urls);
    var acc: Gathered<Download> := NothingYet();
    for i := 0 to |urls|
      invariant Collect(NothingYet(), tasks) == Collect(acc, tasks[i..])
    {
      var file := env.download(urls[i]);
      var task := if file.None? then Errored else Yielded([Download(file.value, urls[i])]);
      assert tasks[i..][1..] == tasks[i + 1..];
      acc := Gather(acc, task);
    }
    return Lower(acc);
  }

  /** One record: the body of the record loop. */
  method ApplyRecord(env: Portal, url: string, stations: map<string, Station>, record: seq<string>)
    returns (step: Step<map<string, Station>>)
    ensures step == Record(env, url, stations, record)
  {
    if |record| < 3 {
      return Ended(PanickedInMain);
    }
    var stationID := record[0];
    var fromDate := ParseDay(record[1]);
    if fromDate.None? {
      return Ended(Returned);
    }
    var untilDate := ParseDay(record[2]);
    var until := if untilDate.Some? then untilDate.value else ZeroTime;
    var resolution := new Resolutions.ResolutionVar({});
    resolution.ParseStringWithSeparator(url, "/");
    var dataType := new DataTypes.DataTypeVar({});
    dataType.ParseStringWithSeperator(url, "/");
    var c := Capability(dataType.value, resolution.value, fromDate.value, until);
    if stationID in stations {
      if dataType.value == {} {
        return Ended(PanickedInMain);
      }
      return Next(stations[stationID := env.addCapability(stations[stationID], c)]);
    }
    if |record| < 8 {
      return Ended(PanickedInMain);
    }
    var s := Station(stationID, Join(record[6..|record| - 2], " "), record[|record| - 2],
                     FloatOrZero(record[3]), Some([FloatOrZero(record[4]), FloatOrZero(record[5])]), None);
    return Next(stations[stationID := env.addCapability(s, c)]);
  }

  /** The file loop: parse each downloaded file and fold its records into the map. */
  method BuildStations(env: Portal, files: seq<Download>) returns (step: Step<map<string, Station>>)
    ensures step == StationFiles(env, map[], files)
  {
    var stationMap: map<string, Station> := map[];
    for i := 0 to |files|
      invariant StationFiles(env, map[], files) == StationFiles(env, stationMap, files[i..])
    {
      assert files[i..][0] == files[i] && files[i..][1..] == files[i + 1..];
      var records := ParseStationFile(env.readCsv(files[i].name));
      if records.Ended? {
        return Ended(records.end);
      }
      ghost var m0 := stationMap;
      for j := 0 to |records.value|
        invariant Records(env, files[i].url, m0, records.value) == Records(env, files[i].url, stationMap, records.value[j..])
      {
        assert records.value[j..][0] == records.value[j] && records.value[j..][1..] == records.value[j + 1..];
        var next := ApplyRecord(env, files[i].url, stationMap, records.value[j]);
        if next.Ended? {
          return next;
        }
        stationMap := next.value;
      }
    }
    return Next(stationMap);
  }

  /** The crawl, level after level. */
  method CrawlStations(env: Portal) returns (step: Step<map<string, Station>>)
    ensures step == Crawl(env)
  {
    var document := env.fetch(RootUrl);
    if document.None? {
      return Ended(Returned);
    }
    var resolutionFolders := FilterDocumentForFolders(document.value);
    if resolutionFolders.None? {
      return Ended(PanickedInMain);
    }
    var dataTypeUrls := ResolveDataTypes(env, resolutionFolders.value);
    if dataTypeUrls.Ended? {
      return Ended(dataTypeUrls.end);
    }
    var dataUrls := ResolveDataFolders(env, dataTypeUrls.value);
    if dataUrls.Ended? {
      return Ended(dataUrls.end);
    }
    var stationFileUrls := ResolveStationFiles(env, dataUrls.value);
    if stationFileUrls.Ended? {
      return Ended(stationFileUrls.end);
    }
    var files := DownloadStationFiles(env, stationFileUrls.value);
    if files.Ended? {
      return Ended(files.end);
    }
    step := BuildStations(env, files.value);
  }

  /**
   * The station map loop: UpdateHistoricalState on each station in an
   * order of the runtime's choosing; the first failure stops it. The
   * order taken is returned beside the list.
   */
  method UpdateAll(env: Portal, stations: map<string, Station>) returns (list: Option<seq<Station>>, order: seq<string>)
    ensures list.None? <==> Updated(env, stations).None?
    ensures list.Some? ==> Enumerates(order, stations.Keys) && list.value == Listing(Updated(env, stations).value, order)
  {
    var remaining := stations.Keys;
    var updated: seq<Station> := [];
    order := [];
    while remaining != {}
      invariant remaining <= stations.Keys
      invariant NoRepeats(order)
      invariant forall id :: id in order <==> id in stations.Keys - remaining
      invariant forall k :: 0 <= k < |order| ==> order[k] in stations
      invariant |updated| == |order|
      invariant forall k :: 0 <= k < |order| ==> env.updateHistorical(stations[order[k]]) == Some(updated[k])
      decreases |remaining|
    {
      var id :| id in remaining;
      var station := env.updateHistorical(stations[id]);
      if station.None? {
        return None, order;
      }
      assert id !in order;
      assert forall k :: 0 <= k < |order| ==> order[k] in order;
      updated := updated + [station.value];
      order := order + [id];
      remaining := remaining - {id};
    }
    UpdatesListed(env, stations, order, updated);
    return Some(updated), order;
  }

  /** When every station was updated in the loop, the list is the updated map listed in loop order. */
  lemma UpdatesListed(env: Portal, stations: map<string, Station>, order: seq<string>, updated: seq<Station>)
    requires forall id :: id in stations ==> id in order
    requires forall k :: 0 <= k < |order| ==> order[k] in stations
    requires |updated| == |order|
    requires forall k :: 0 <= k < |order| ==> env.updateHistorical(stations[order[k]]) == Some(updated[k])
    ensures Updated(env, stations).Some?
    ensures updated == Listing(Updated(env, stations).value, order)
  {
    forall id | id in stations
      ensures env.updateHistorical(stations[id]).Some?
    {
      var k :| 0 <= k < |order| && order[k] == id;
    }
  }

  /** The body of RunDiscovery up to its return (or panic), without the deferred write. */
  method Discover(store: Store, env: Portal) returns (end: End, order: seq<string>)
    modifies store
    ensures store.running == if Decide(old(store.running), env.readFails) == Start(true) then Some("true") else old(store.running)
    ensures end == EndOf(env, old(store.running))
    ensures ListAfter(env, old(store.running), old(store.stationList), order, store.stationList)
  {
    order := [];
    if env.readFails {
      return Returned, order;
    }
    var discoveryRunning := false;
    if store.running.None? {
      store.running := Some("true");
    } else {
      var stored := ParseBool(store.running.value);
      if stored.None? {
        return Returned, order;
      }
      discoveryRunning := stored.value;
    }
    if discoveryRunning {
      return Returned, order;
    }
    var crawl := CrawlStations(env);
    if crawl.Ended? {
      return crawl.end, order;
    }
    var stations;
    stations, order := UpdateAll(env, crawl.value);
    if stations.None? {
      return Returned, order;
    }
    var stationBytes := env.encode(stations.value);
    if stationBytes.None? {
      return Returned, order;
    }
    if !env.storeFails {
      store.stationList := Some(stationBytes.value);
    }
    return Returned, order;
  }

  /**
   * RunDiscovery: the run with its deferred Set("dwd-discovery-running",
   * "false"), which every way out runs except a panic in a child goroutine.
   */
  method RunDiscovery(store: Store, env: Portal) returns (end: End, order: seq<string>)
    modifies store
    ensures end == EndOf(env, old(store.running))
    ensures end != CrashedInGoroutine ==> store.running == Some("false")
    ensures end == CrashedInGoroutine ==>
      store.running == if Decide(old(store.running), env.readFails) == Start(true) then Some("true") else old(store.running)
    ensures ListAfter(env, old(store.running), old(store.stationList), order, store.stationList)
  {
    end, order := Discover(store, env);
    if end != CrashedInGoroutine {
      store.running := Some("false");
    }
  }

  // ---------------------------------------------------------------- lemmas

  /** Gathering keeps what was sent in order and remembers any failure or crash. */
  lemma CollectGathers<T>(acc: Gathered<T>, tasks: seq<Task<T>>)
    ensures Collect(acc, tasks).items == acc.items + Sent(tasks)
    ensures Collect(acc, tasks).failed <==> acc.failed || exists k :: 0 <= k < |tasks| && tasks[k].Errored?
    ensures Collect(acc, tasks).crashed <==> acc.crashed || exists k :: 0 <= k < |tasks| && tasks[k].Crashed?
  {
    CollectItems(acc, tasks);
    CollectFailed(acc, tasks);
    CollectCrashed(acc, tasks);
  }

  lemma {:induction false} CollectItems<T>(acc: Gathered<T>, tasks: seq<Task<T>>)
    ensures Collect(acc, tasks).items == acc.items + Sent(tasks)
    decreases |tasks|
  {
    if tasks != [] {
      var own := if tasks[0].Yielded? then tasks[0].items else [];
      CollectItems(Gather(acc, tasks[0]), tasks[1..]);
      assert Gather(acc, tasks[0]).items == acc.items + own;
      AppendAssoc(acc.items, own, Sent(tasks[1..]));
    }
  }

  lemma {:induction false} CollectFailed<T>(acc: Gathered<T>, tasks: seq<Task<T>>)
    ensures Collect(acc, tasks).failed <==> acc.failed || exists k :: 0 <= k < |tasks| && tasks[k].Errored?
    decreases |tasks|
  {
    if tasks != [] {
      var tail := tasks[1..];
      CollectFailed(Gather(acc, tasks[0]), tail);
      if exists k :: 0 <= k < |tail| && tail[k].Errored? {
        var k :| 0 <= k < |tail| && tail[k].Errored?;
        assert tasks[k + 1].Errored?;
      }
      if exists k :: 0 <= k < |tasks| && tasks[k].Errored? {
        var k :| 0 <= k < |tasks| && tasks[k].Errored?;
        if k > 0 {
          assert tail[k - 1].Errored?;
        }
      }
    }
  }

  lemma {:induction false} CollectCrashed<T>(acc: Gathered<T>, tasks: seq<Task<T>>)
    ensures Collect(acc, tasks).crashed <==> acc.crashed || exists k :: 0 <= k < |tasks| && tasks[k].Crashed?
    decreases |tasks|
  {
    if tasks != [] {
      var tail := tasks[1..];
      CollectCrashed(Gather(acc, tasks[0]), tail);
      if exists k :: 0 <= k < |tail| && tail[k].Crashed? {
        var k :| 0 <= k < |tail| && tail[k].Crashed?;
        assert tasks[k + 1].Crashed?;
      }
      if exists k :: 0 <= k < |tasks| && tasks[k].Crashed? {
        var k :| 0 <= k < |tasks| && tasks[k].Crashed?;
        if k > 0 {
          assert tail[k - 1].Crashed?;
        }
      }
    }
  }

  /**
   * Only the resolution level can end the run by a failure: it does so
   * exactly when some resolution page could not be read and no goroutine
   * crashed, and otherwise goes on with every data type url in order.
   */
  lemma ResolutionFailureAborts(env: Portal, folders: seq<string>)
    ensures ResolutionLevel(env, folders) == Ended(Returned) <==>
      (exists k :: 0 <= k < |folders| && ResolutionTask(env, folders[k]).Errored?) &&
      (forall k :: 0 <= k < |folders| ==> !ResolutionTask(env, folders[k]).Crashed?)
    ensures ResolutionLevel(env, folders).Next? ==> ResolutionLevel(env, folders).value == Sent(ResolutionTasks(env, folders))
  {
    var tasks := ResolutionTasks(env, folders);
    CollectGathers(NothingYet(), tasks);
    assert forall k :: 0 <= k < |folders| ==> tasks[k] == ResolutionTask(env, folders[k]);
  }

  /** On the lower levels a failed task is dropped: they never end the run by a failure. */
  lemma LowerFailuresDropped(env: Portal, urls: seq<string>)
    ensures DataTypeLevel(env, urls) != Ended(Returned)
    ensures DataLevel(env, urls) == Next(Sent(DataTasks(env, urls)))
    ensures DownloadLevel(env, urls) == Next(Sent(DownloadTasks(env, urls)))
    ensures DataTypeLevel(env, urls).Next? ==> DataTypeLevel(env, urls).value == Sent(DataTypeTasks(env, urls))
  {
    CollectGathers(NothingYet(), DataTypeTasks(env, urls));
    CollectGathers(NothingYet(), DataTasks(env, urls));
    CollectGathers(NothingYet(), DownloadTasks(env, urls));
    assert [] + Sent(DataTasks(env, urls)) == Sent(DataTasks(env, urls));
    assert [] + Sent(DownloadTasks(env, urls)) == Sent(DownloadTasks(env, urls));
    assert forall k :: 0 <= k < |urls| ==> !DataTasks(env, urls)[k].Crashed?;
    assert forall k :: 0 <= k < |urls| ==> !DownloadTasks(env, urls)[k].Crashed?;
  }

  /** A data folder yields exactly the links ending in the station file suffix, below its url. */
  lemma {:induction false} StationFileUrlsKept(prefix: string, files: seq<string>)
    ensures forall u :: u in StationFileUrls(prefix, files) <==>
      exists f :: f in files && HasSuffix(f, StationFileSuffix) && u == prefix + f
    decreases |files|
  {
    if files != [] {
      var init := files[..|files| - 1];
      StationFileUrlsKept(prefix, init);
      assert files == init + [files[|files| - 1]];
    }
  }

  /** A stored "true" skips the crawl; the deferred write still leaves "false" and the list untouched. */
  lemma RunningFlagSkips(env: Portal, before: Option<Bytes>, order: seq<string>, after: Option<Bytes>)
    requires !env.readFails
    requires ListAfter(env, Some("true"), before, order, after)
    ensures EndOf(env, Some("true")) == Returned
    ensures after == before
  {
    assert ParseBool("true") == Some(true);
  }

  /** The list changes only when the whole crawl, every update, the encoding and the store write succeeded. */
  lemma ListWrittenLast(env: Portal, stored: Option<string>, before: Option<Bytes>, order: seq<string>, after: Option<Bytes>)
    requires ListAfter(env, stored, before, order, after)
    requires after != before
    ensures Decide(stored, env.readFails).Start?
    ensures Crawl(env).Next? && EndOf(env, stored) == Returned && !env.storeFails
    ensures forall id :: id in Crawl(env).value ==> env.updateHistorical(Crawl(env).value[id]).Some?
    ensures after.Some?
  {
  }

  /**
   * A record only ever touches the entry of its own station: the first
   * one for an ID creates the entry, a later one replaces it by the
   * station with one more capability.
   */
  lemma RecordTouchesOwnStation(env: Portal, url: string, stations: map<string, Station>, record: seq<string>)
    requires Record(env, url, stations, record).Next?
    ensures |record| >= 3
    ensures var m := Record(env, url, stations, record).value;
      && m.Keys == stations.Keys + {record[0]}
      && forall id :: id in stations && id != record[0] ==> m[id] == stations[id]
    ensures record[0] !in stations ==>
      (|record| >= 8 && exists c :: Record(env, url, stations, record).value[record[0]] == env.addCapability(NewStation(record), c))
    ensures record[0] in stations ==>
      exists c :: Record(env, url, stations, record).value[record[0]] == env.addCapability(stations[record[0]], c)
  {
  }

  /**
   * When a record ends the run: a short record or a later record whose url
   * names no data type panics, an unreadable from-date returns; the
   * until-date never matters.
   */
  lemma RecordEnds(env: Portal, url: string, stations: map<string, Station>, record: seq<string>)
    ensures Record(env, url, stations, record) == Ended(Returned) <==>
      |record| >= 3 && ParseLayout(DayOnly, record[1]).None?
    ensures Record(env, url, stations, record) == Ended(PanickedInMain) <==>
      |record| < 3 ||
      (ParseLayout(DayOnly, record[1]).Some? &&
       if record[0] in stations then DataTypes.Parsed(Split(url, "/")) == {} else |record| < 8)
    ensures !Record(env, url, stations, record).Ended? || Record(env, url, stations, record).end != CrashedInGoroutine
  {
  }

  /** The IDs of the records, for the records long enough to have one. */
  function IDs(records: seq<seq<string>>): set<string>
    decreases |records|
  {
    if records == [] then {}
    else (if |records[0]| > 0 then {records[0][0]} else {}) + IDs(records[1..])
  }

  /** After a file's records went through, the map holds exactly the old stations and the records' IDs. */
  lemma {:induction false} RecordsKeys(env: Portal, url: string, stations: map<string, Station>, records: seq<seq<string>>)
    requires Records(env, url, stations, records).Next?
    ensures Records(env, url, stations, records).value.Keys == stations.Keys + IDs(records)
    decreases |records|
  {
    if records != [] {
      RecordTouchesOwnStation(env, url, stations, records[0]);
      var m := Record(env, url, stations, records[0]).value;
      var rest := records[1..];
      RecordsKeys(env, url, m, rest);
    }
  }
}
