/** scripts/download_service.py: a registry of prepared downloads
    (DownloadService.active_downloads) with creation, marking as downloaded,
    expiry and listing, and the JSON and CSV exports of a job's results.

    A download item is a record; the registry is an insertion-ordered table
    of items under their ids.  Times are integer seconds: the wall-clock
    reading `now` and the fresh `uuid4` id of an operation are parameters,
    and so is the size the file system reports for a written file.  The
    progress messages `_update_progress` prints are kept as a log of
    (download id, percentage) pairs. */
module Downloads {
  import opened Wrappers
  import opened Dicts
  import opened Text

  /** DownloadStatus. */
  const Preparing: string := "preparing"
  const Ready: string := "ready"
  const CompletedStatus: string := "completed"
  const ErrorStatus: string := "error"

  /** `timedelta(hours=24)` in seconds. */
  const Lifetime: int := 24 * 60 * 60

  /** DownloadItem. */
  datatype DownloadItem = DownloadItem(id: string, jobId: Json, fileName: string, format: string, status: string,
                                       progress: int, createdAt: int, expiresAt: int, filePath: Option<string>,
                                       fileSize: nat, downloadCount: nat, jobData: Dict)

  // ---------------------------------------------------------------------------
  // Names and sizes

  /** `d.get(key, default)`. */
  function GetOr(d: Dict, key: string, default: Json): Json {
    match Get(d, key)
    case Some(v) => v
    case None => default
  }

  /** The file name of a download: the job's file name up to its first '.',
      then "_results." and the format. */
  function DownloadFileName(fileName: string, format: string): string {
    Stem(fileName) + "_results." + format
  }

  /** `DownloadItem(job_data, format_type)`: KeyError without an id or a file
      name, AttributeError when the file name is not a string. */
  function NewItem(jobData: Dict, format: string, id: string, now: int): Result<DownloadItem, string> {
    var jobId := Get(jobData, "id");
    var fileName := Get(jobData, "fileName");
    if jobId.None? then Err("KeyError: id")
    else if fileName.None? then Err("KeyError: fileName")
    else if !fileName.value.JStr? then Err("AttributeError: split")
    else Ok(DownloadItem(id, jobId.value, DownloadFileName(fileName.value.s, format), format, Preparing, 0,
                         now, now + Lifetime, None, 0, 0, jobData))
  }

  /** The fixed names of `_get_agent_name`. */
  function KnownAgentName(agentId: string): Option<string> {
    if agentId == "video-agent" then Some("Video Enhancement Agent")
    else if agentId == "audio-agent" then Some("Audio Optimization Agent")
    else if agentId == "storyboard-agent" then Some("Storyboard Generation Agent")
    else if agentId == "metadata-agent" then Some("Metadata Extraction Agent")
    else None
  }

  /** `_get_agent_name`: a fixed name for the four agents, otherwise the id
      with '-' replaced by ' ', title-cased. */
  function AgentName(agentId: string): string {
    match KnownAgentName(agentId)
    case Some(name) => name
    case None => Title(ReplaceChar(agentId, '-', ' '))
  }

  /** The fallback name keeps the id's length, has no '-', and is already in
      title case. */
  lemma FallbackAgentName(agentId: string)
    requires KnownAgentName(agentId).None?
    ensures var name := AgentName(agentId);
      && |name| == |agentId| && '-' !in name && Title(name) == name
      && forall i :: 0 <= i < |agentId| && agentId[i] == '-' ==> name[i] == ' '
  {
    var spaced := ReplaceChar(agentId, '-', ' ');
    var name := Title(spaced);
    forall i | 0 <= i < |name| ensures name[i] != '-' {
      if !IsCased(spaced[i]) {
        assert name[i] == spaced[i];
      }
    }
    TitleFromIdempotent(spaced, false);
  }

  /** What `_format_file_size` prints: the exact byte count, or a count of
      `divisor`-byte units shown with one decimal (floating point is not
      modelled). */
  datatype SizeText = Exact(text: string) | Scaled(divisor: nat, unit: string)

  function FormatFileSize(size: int): SizeText {
    if size < 1024 then Exact(IntToString(size) + " B")
    else if size < 1024 * 1024 then Scaled(1024, "KB")
    else if size < 1024 * 1024 * 1024 then Scaled(1024 * 1024, "MB")
    else Scaled(1024 * 1024 * 1024, "GB")
  }

  /** Bytes below 1024 print exactly; otherwise the unit is the largest of
      KB, MB, GB not above the size, so the shown count is at least 1 and,
      below GB, under 1024. */
  lemma FileSizeUnits(size: int)
    ensures var t := FormatFileSize(size);
      && (t.Exact? <==> size < 1024)
      && (0 <= size < 1024 ==> exists digits :: t.text == digits + " B" && (forall i :: 0 <= i < |digits| ==> IsDigit(digits[i])) && DigitsValue(digits) == size)
      && (t.Scaled? ==> t.divisor <= size && (t.unit != "GB" ==> size < 1024 * t.divisor))
      && (t.Scaled? ==> t.unit == (if size < 1024 * 1024 then "KB" else if size < 1024 * 1024 * 1024 then "MB" else "GB"))
  {
    if 0 <= size < 1024 {
      NatToStringValue(size);
      assert FormatFileSize(size).text == NatToString(size) + " B";
    }
  }

  // ---------------------------------------------------------------------------
  // The exports

  /** `len(x)` for the values that have one. */
  function Length(j: Json): Option<nat> {
    match j
    case JObj(fields) => Some(|fields|)
    case JArr(items) => Some(|items|)
    case JStr(s) => Some(|s|)
    case _ => None
  }

  /** The agents kept for a download: with a non-empty selection only the
      selected ones (`results.items()` then needs an object), otherwise all. */
  function Select(results: Json, selected: Option<seq<string>>): Result<Json, string> {
    if selected.None? || selected.value == [] then Ok(results)
    else if !results.JObj? then Err("AttributeError: items")
    else Ok(JObj(Kept(results.fields, selected.value)))
  }

  function Kept(fields: Dict, selected: seq<string>): (r: Dict)
    ensures forall i :: 0 <= i < |r| ==> r[i] in fields && r[i].0 in selected
  {
    if fields == [] then []
    else (if fields[0].0 in selected then [fields[0]] else []) + Kept(fields[1..], selected)
  }

  /** A selected agent keeps its results, an unselected one is dropped. */
  lemma {:induction false} KeptGet(fields: Dict, selected: seq<string>, k: string)
    ensures Get(Kept(fields, selected), k) == if k in selected then Get(fields, k) else None
  {
    if fields != [] {
      var rest := Kept(fields[1..], selected);
      KeptGet(fields[1..], selected, k);
      GetCons(fields[0], fields[1..], k);
      assert fields == [fields[0]] + fields[1..];
      if fields[0].0 in selected {
        assert Kept(fields, selected) == [fields[0]] + rest;
        GetCons(fields[0], rest, k);
      } else {
        assert Kept(fields, selected) == rest;
      }
    }
  }

  /** `_generate_json`: the job summary, the kept results, and the metadata
      block when asked for. */
  function JsonExport(jobData: Dict, results: Json, includeMetadata: bool, now: int): Result<Json, string> {
    var id := Get(jobData, "id");
    var fileName := Get(jobData, "fileName");
    var status := Get(jobData, "status");
    if id.None? then Err("KeyError: id")
    else if fileName.None? then Err("KeyError: fileName")
    else if status.None? then Err("KeyError: status")
    else if includeMetadata && Length(results).None? then Err("TypeError: len")
    else
      var job := JObj([("id", id.value), ("fileName", fileName.value), ("status", status.value),
                       ("progress", GetOr(jobData, "progress", JNum(0)))]);
      var metadata := if includeMetadata then
          [("metadata", JObj([("downloadedAt", JNum(now)), ("format", JStr("JSON")),
                              ("totalAgents", JNum(Length(results).value)),
                              ("generatedBy", JStr("AI Multimedia Production Suite"))]))]
        else [];
      Ok(JObj([("job", job), ("results", results)] + metadata))
  }

  /** The JSON export holds the kept results, a metadata block exactly when
      asked for, and totalAgents counts the kept agents. */
  lemma JsonExportShape(jobData: Dict, results: Json, includeMetadata: bool, now: int)
    requires JsonExport(jobData, results, includeMetadata, now).Ok?
    ensures var out := JsonExport(jobData, results, includeMetadata, now).value;
      && out.JObj?
      && Get(out.fields, "results") == Some(results)
      && (Get(out.fields, "metadata").Some? <==> includeMetadata)
      && (includeMetadata ==>
            var md := Get(out.fields, "metadata");
            md.Some? && md.value.JObj? && Length(results).Some? &&
            Get(md.value.fields, "totalAgents") == Some(JNum(Length(results).value)))
  {
    var out := JsonExport(jobData, results, includeMetadata, now).value;
    GetAt(out.fields, 1);
    if includeMetadata {
      GetAt(out.fields, 2);
      GetAt(Get(out.fields, "metadata").value.fields, 2);
    } else {
      assert |out.fields| == 2;
      assert Get(out.fields[2..], "metadata") == None;
    }
  }

  /** Python's `repr` of a value; strings are quoted with single quotes
      (the choice of quotes and escaping is not modelled). */
  function Repr(j: Json): string
    decreases j
  {
    match j
    case JNull => "None"
    case JBool(b) => if b then "True" else "False"
    case JNum(n) => IntToString(n)
    case JStr(s) => "'" + s + "'"
    case JArr(items) => "[" + Join(seq(|items|, i requires 0 <= i < |items| => assert items[i] in items; Repr(items[i])), ", ") + "]"
    case JObj(fields) =>
      "{" + Join(seq(|fields|, i requires 0 <= i < |fields| =>
                   assert fields[i] in fields; "'" + fields[i].0 + "': " + Repr(fields[i].1)), ", ") + "}"
  }

  /** Python's `str` of a value. */
  function Str(j: Json): string {
    if j.JStr? then j.s else Repr(j)
  }

  type Row = seq<string>

  const CsvHeader: Row := ["Agent", "Metric", "Value"]

  /** A value `csv.writer` writes itself: None is an empty cell, anything
      else its `str`. */
  function Cell(j: Json): string {
    if j.JNull? then "" else Str(j)
  }

  /** The five metadata rows of the CSV export: id, file name and status are
      written as they are, the progress through an f-string. */
  function MetadataRows(id: Json, fileName: Json, status: Json, progress: Json, now: int): seq<Row> {
    [["Metadata", "Job ID", Cell(id)], ["Metadata", "File Name", Cell(fileName)], ["Metadata", "Status", Cell(status)],
     ["Metadata", "Progress", Str(progress) + "%"], ["Metadata", "Downloaded At", IntToString(now)]]
  }

  /** One row per metric of an agent. */
  function MetricRows(name: string, metrics: Dict): (rows: seq<Row>)
    ensures |rows| == |metrics|
    ensures forall m :: 0 <= m < |metrics| ==> rows[m] == [name, metrics[m].0, Str(metrics[m].1)]
  {
    if metrics == [] then [] else [[name, metrics[0].0, Str(metrics[0].1)]] + MetricRows(name, metrics[1..])
  }

  /** Every agent's results are an object, as `.items()` needs. */
  predicate AllObjects(agents: Dict) {
    forall k :: 0 <= k < |agents| ==> agents[k].1.JObj?
  }

  /** The rows of the agents, in order: each agent's metrics under its name. */
  function AgentRows(agents: Dict): seq<Row> {
    if agents == [] then []
    else
      var rest := AgentRows(agents[1..]);
      if agents[0].1.JObj? then MetricRows(AgentName(agents[0].0), agents[0].1.fields) + rest else rest
  }

  /** The number of metrics of all agents. */
  function MetricCount(agents: Dict): nat {
    if agents == [] then 0
    else (if agents[0].1.JObj? then |agents[0].1.fields| else 0) + MetricCount(agents[1..])
  }

  /** The metadata rows of the CSV export: none unless asked for. */
  function CsvMetadata(jobData: Dict, includeMetadata: bool, now: int): (r: Result<seq<Row>, string>)
    ensures r.Ok? ==> |r.value| == (if includeMetadata then 5 else 0)
    ensures r.Ok? ==> forall i :: 0 <= i < |r.value| ==> |r.value[i]| == 3 && r.value[i][0] == "Metadata"
  {
    if !includeMetadata then Ok([])
    else
      var id := Get(jobData, "id");
      var fileName := Get(jobData, "fileName");
      var status := Get(jobData, "status");
      if id.None? then Err("KeyError: id")
      else if fileName.None? then Err("KeyError: fileName")
      else if status.None? then Err("KeyError: status")
      else Ok(MetadataRows(id.value, fileName.value, status.value, GetOr(jobData, "progress", JNum(0)), now))
  }

  /** `_generate_csv` as rows: the header, the metadata rows when asked for,
      one row per metric of each agent. */
  function CsvExport(jobData: Dict, results: Json, includeMetadata: bool, now: int): Result<seq<Row>, string> {
    var meta := CsvMetadata(jobData, includeMetadata, now);
    if meta.Err? then Err(meta.error)
    else if !results.JObj? then Err("AttributeError: items")
    else if !AllObjects(results.fields) then Err("AttributeError: items")
    else Ok([CsvHeader] + meta.value + AgentRows(results.fields))
  }

  lemma {:induction false} AgentRowsAppend(agents: Dict, a: (string, Json))
    ensures AgentRows(agents + [a]) == AgentRows(agents) + AgentRows([a])
    ensures MetricCount(agents + [a]) == MetricCount(agents) + MetricCount([a])
  {
    if agents != [] {
      assert (agents + [a])[1..] == agents[1..] + [a];
      AgentRowsAppend(agents[1..], a);
    } else {
      assert agents + [a] == [a];
    }
  }

  lemma {:induction false} AgentRowsLength(agents: Dict)
    ensures |AgentRows(agents)| == MetricCount(agents)
  {
    if agents != [] {
      AgentRowsLength(agents[1..]);
    }
  }

  /** The row of metric m of agent a comes after the rows of the agents
      before it, and names the agent, the metric and its value. */
  lemma {:induction false} AgentRowsAt(agents: Dict, a: nat, m: nat)
    requires a < |agents| && agents[a].1.JObj? && m < |agents[a].1.fields|
    ensures var i := MetricCount(agents[..a]) + m;
      i < |AgentRows(agents)| &&
      AgentRows(agents)[i] == [AgentName(agents[a].0), agents[a].1.fields[m].0, Str(agents[a].1.fields[m].1)]
  {
    AgentRowsLength(agents);
    if a == 0 {
      assert agents[..0] == [];
    } else {
      AgentRowsAt(agents[1..], a - 1, m);
      assert agents[1..][..a - 1] == agents[..a][1..];
      AgentRowsLength(agents[..a]);
      if agents[0].1.JObj? {
        assert |MetricRows(AgentName(agents[0].0), agents[0].1.fields)| == |agents[0].1.fields|;
      }
    }
  }

  /** The CSV export has one header row, five metadata rows exactly when
      asked for, then one row per (agent, metric) pair. */
  lemma CsvExportShape(jobData: Dict, results: Json, includeMetadata: bool, now: int)
    requires CsvExport(jobData, results, includeMetadata, now).Ok?
    ensures var rows := CsvExport(jobData, results, includeMetadata, now).value;
      var meta := if includeMetadata then 5 else 0;
      && |rows| == 1 + meta + MetricCount(results.fields)
      && rows[0] == CsvHeader
      && (forall i :: 1 <= i <= meta ==> rows[i][0] == "Metadata")
      && rows[1 + meta..] == AgentRows(results.fields)
  {
    var metaRows := CsvMetadata(jobData, includeMetadata, now).value;
    var agentRows := AgentRows(results.fields);
    AgentRowsLength(results.fields);
    var rows := [CsvHeader] + metaRows + agentRows;
    assert CsvExport(jobData, results, includeMetadata, now).value == rows;
    assert rows[1 + |metaRows|..] == agentRows;
    forall i | 1 <= i <= |metaRows| ensures rows[i][0] == "Metadata" {
      assert rows[i] == metaRows[i - 1];
    }
  }

  /** Python's truth value of a JSON value: None, False, 0 and the empty
      string, list and object are false. */
  predicate PyTruthy(j: Json) {
    match j
    case JNull => false
    case JBool(b) => b
    case JNum(n) => n != 0
    case JStr(s) => s != ""
    case JArr(items) => items != []
    case JObj(fields) => fields != []
  }

  /** ElementTree writes an element's text only when it is truthy, and then
      refuses any text that is not a string. */
  predicate Unserializable(text: Json) {
    !text.JStr? && PyTruthy(text)
  }

  /** The failure, if any, of the XML export, of the text report and of the
      archive; their bytes are not modelled. */
  function ItemsFailure(results: Json): Option<string> {
    if !results.JObj? || !AllObjects(results.fields) then Some("AttributeError: items") else None
  }

  function MetadataFailure(jobData: Dict, includeMetadata: bool): Option<string> {
    if includeMetadata && Get(jobData, "status").None? then Some("KeyError: status") else None
  }

  function XmlFailure(jobData: Dict, results: Json, includeMetadata: bool): Option<string> {
    if MetadataFailure(jobData, includeMetadata).Some? then MetadataFailure(jobData, includeMetadata)
    else if ItemsFailure(results).Some? then ItemsFailure(results)
    else if includeMetadata && (Unserializable(GetOr(jobData, "id", JNull)) || Unserializable(GetOr(jobData, "status", JNull))) then
      Some("TypeError: cannot serialize")
    else None
  }

  /** The job of the two lemmas below: only its id varies. */
  function JobWithId(jobId: Json): Dict {
    [("id", jobId), ("fileName", JStr("a.mp4")), ("status", JStr("completed")), ("results", JObj([]))]
  }

  /** The fields of that job, looked up. */
  lemma JobWithIdGet(jobId: Json)
    ensures Get(JobWithId(jobId), "id") == Some(jobId)
    ensures Get(JobWithId(jobId), "fileName") == Some(JStr("a.mp4"))
    ensures Get(JobWithId(jobId), "status") == Some(JStr("completed"))
    ensures Get(JobWithId(jobId), "results") == Some(JObj([]))
  {
    var job := JobWithId(jobId);
    GetAt(job, 1);
    GetAt(job, 2);
    GetAt(job, 3);
  }

  /** A falsy id that is not a string is written as an empty element, so the
      XML download with metadata succeeds. */
  lemma XmlFalsyIdSaved(r: Registry, storagePath: string, id: string, now: int, writtenSize: nat)
    ensures var result := AfterGenerate(r, storagePath, JobWithId(JNum(0)), "xml", true, None, id, now, writtenSize).1;
      result.Ok? && result.value.status == "ready" && result.value.progress == 100
  {
    var job := JobWithId(JNum(0));
    JobWithIdGet(JNum(0));
    assert NewItem(job, "xml", id, now).Ok?;
    assert Select(GetOr(job, "results", JObj([])), None) == Ok(JObj([]));
    assert XmlFailure(job, JObj([]), true) == None;
  }

  /** A truthy id that is not a string cannot be serialised. */
  lemma XmlTruthyIdFails(r: Registry, storagePath: string, id: string, now: int, writtenSize: nat)
    ensures AfterGenerate(r, storagePath, JobWithId(JNum(7)), "xml", true, None, id, now, writtenSize).1
         == Err("TypeError: cannot serialize")
  {
    var job := JobWithId(JNum(7));
    JobWithIdGet(JNum(7));
    assert NewItem(job, "xml", id, now).Ok?;
    assert Select(GetOr(job, "results", JObj([])), None) == Ok(JObj([]));
    assert XmlFailure(job, JObj([]), true) == Some("TypeError: cannot serialize");
  }

  function PdfFailure(jobData: Dict, results: Json, includeMetadata: bool): Option<string> {
    if MetadataFailure(jobData, includeMetadata).Some? then MetadataFailure(jobData, includeMetadata) else ItemsFailure(results)
  }

  function ErrorOf<T>(r: Result<T, string>): Option<string> {
    if r.Err? then Some(r.error) else None
  }

  /** What raises while the content of a format is generated; the archive
      generates the four others in turn. */
  function ContentFailure(format: string, jobData: Dict, results: Json, includeMetadata: bool, now: int): Option<string> {
    var json := ErrorOf(JsonExport(jobData, results, includeMetadata, now));
    var csv := ErrorOf(CsvExport(jobData, results, includeMetadata, now));
    var xml := XmlFailure(jobData, results, includeMetadata);
    var pdf := PdfFailure(jobData, results, includeMetadata);
    if format == "json" then json
    else if format == "csv" then csv
    else if format == "xml" then xml
    else if format == "pdf" then pdf
    else if format == "zip" then
      if json.Some? then json else if csv.Some? then csv else if xml.Some? then xml else pdf
    else Some("ValueError: Unsupported format: " + format)
  }

  // ---------------------------------------------------------------------------
  // The registry

  /** The state of a DownloadService: the items under their ids and the
      progress reports printed so far. */
  datatype Registry = Registry(downloads: Assoc<string, DownloadItem>, reports: seq<(string, int)>)

  /** `_update_progress`: a registered item takes the new percentage; the
      report is printed in any case. */
  function Progressed(r: Registry, id: string, progress: int): Registry {
    match Get(r.downloads, id)
    case Some(item) => Registry(Put(r.downloads, id, item.(progress := progress)), r.reports + [(id, progress)])
    case None => r.(reports := r.reports + [(id, progress)])
  }

  /** The item's status set to error, in the registry as in the item itself. */
  function Failed(r: Registry, id: string): Registry {
    match Get(r.downloads, id)
    case Some(item) => r.(downloads := Put(r.downloads, id, item.(status := ErrorStatus)))
    case None => r
  }

  /** generate_download: `id` is the fresh uuid, `now` the clock,
      `writtenSize` the size of the written file; the file is
      `storagePath/id.format`. */
  function AfterGenerate(r: Registry, storagePath: string, jobData: Dict, format: string, includeMetadata: bool,
                         selected: Option<seq<string>>, id: string, now: int, writtenSize: nat): (Registry, Result<DownloadItem, string>) {
    match NewItem(jobData, format, id, now)
    case Err(e) => (r, Err(e))
    case Ok(item) =>
      var r1 := Progressed(r.(downloads := Put(r.downloads, id, item)), id, 10);
      var kept := Select(GetOr(jobData, "results", JObj([])), selected);
      if kept.Err? then (Failed(r1, id), Err(kept.error))
      else
        var r2 := Progressed(r1, id, 30);
        var failure := ContentFailure(format, jobData, kept.value, includeMetadata, now);
        if failure.Some? then (Failed(r2, id), Err(failure.value))
        else
          var r3 := Progressed(r2, id, 70);
          var done := item.(filePath := Some(storagePath + "/" + id + "." + format), fileSize := writtenSize,
                            status := Ready, progress := 100);
          (Progressed(r3.(downloads := Put(r3.downloads, id, done)), id, 100), Ok(done))
  }

  /** mark_downloaded. */
  function AfterMarkDownloaded(m: Assoc<string, DownloadItem>, id: string): Assoc<string, DownloadItem> {
    match Get(m, id)
    case Some(item) => Put(m, id, item.(status := CompletedStatus, downloadCount := item.downloadCount + 1))
    case None => m
  }

  /** An item has expired when `now` is strictly later than its expiry. */
  predicate Expired(item: DownloadItem, now: int) {
    now > item.expiresAt
  }

  /** The ids of the expired items, in table order. */
  function ExpiredIds(m: Assoc<string, DownloadItem>, now: int): seq<string> {
    if m == [] then [] else (if Expired(m[0].1, now) then [m[0].0] else []) + ExpiredIds(m[1..], now)
  }

  /** The entries whose key is not listed. */
  function WithoutKeys(m: Assoc<string, DownloadItem>, ks: seq<string>): Assoc<string, DownloadItem> {
    if m == [] then [] else (if m[0].0 in ks then [] else [m[0]]) + WithoutKeys(m[1..], ks)
  }

  /** The items that have not expired, in table order. */
  function Unexpired(m: Assoc<string, DownloadItem>, now: int): (r: Assoc<string, DownloadItem>)
    ensures forall i :: 0 <= i < |r| ==> r[i] in m
  {
    if m == [] then [] else (if Expired(m[0].1, now) then [] else [m[0]]) + Unexpired(m[1..], now)
  }

  /** The row list_downloads gives for an item. */
  datatype Listing = Listing(id: string, jobId: Json, fileName: string, format: string, status: string, progress: int,
                             fileSize: SizeText, createdAt: int, expiresAt: int, downloadCount: nat)

  function ListingOf(item: DownloadItem): Listing {
    Listing(item.id, item.jobId, item.fileName, item.format, item.status, item.progress, FormatFileSize(item.fileSize),
            item.createdAt, item.expiresAt, item.downloadCount)
  }

  // ---------------------------------------------------------------------------
  // Properties of the registry

  /** A new item is preparing, at 0%, never downloaded, expires a day after
      its creation, and its file name is the stem with "_results." and the
      format. */
  lemma NewItemFields(jobData: Dict, format: string, id: string, now: int)
    requires NewItem(jobData, format, id, now).Ok?
    ensures var item := NewItem(jobData, format, id, now).value;
      && item.status == "preparing" && item.progress == 0 && item.downloadCount == 0
      && item.expiresAt == item.createdAt + 86400
      && var fileName := Get(jobData, "fileName").value.s;
      && item.fileName == Stem(fileName) + "_results." + format
      && '.' !in Stem(fileName) && Stem(fileName) <= fileName
  {
  }

  /** One progress report on a registered item. */
  lemma ProgressedGet(r: Registry, id: string, item: DownloadItem, p: int, k: string)
    requires Get(r.downloads, id) == Some(item)
    ensures Progressed(r, id, p).reports == r.reports + [(id, p)]
    ensures Get(Progressed(r, id, p).downloads, k) == if k == id then Some(item.(progress := p)) else Get(r.downloads, k)
  {
    PutGet(r.downloads, id, item.(progress := p), k);
  }

  lemma FailedGet(r: Registry, id: string, item: DownloadItem, k: string)
    requires Get(r.downloads, id) == Some(item)
    ensures Failed(r, id).reports == r.reports
    ensures Get(Failed(r, id).downloads, k) == if k == id then Some(item.(status := "error")) else Get(r.downloads, k)
  {
    PutGet(r.downloads, id, item.(status := ErrorStatus), k);
  }

  /** generate_download registers the new item under its id and leaves every
      other item as it was. */
  lemma GenerateOthersUnchanged(r: Registry, storagePath: string, jobData: Dict, format: string, includeMetadata: bool,
                                selected: Option<seq<string>>, id: string, now: int, writtenSize: nat, k: string)
    requires NewItem(jobData, format, id, now).Ok?
    ensures var r' := AfterGenerate(r, storagePath, jobData, format, includeMetadata, selected, id, now, writtenSize).0;
      && Get(r'.downloads, id).Some?
      && (k != id ==> Get(r'.downloads, k) == Get(r.downloads, k))
  {
    var item := NewItem(jobData, format, id, now).value;
    var r0 := r.(downloads := Put(r.downloads, id, item));
    PutGet(r.downloads, id, item, id);
    PutGet(r.downloads, id, item, k);
    var r1 := Progressed(r0, id, 10);
    ProgressedGet(r0, id, item, 10, id);
    ProgressedGet(r0, id, item, 10, k);
    if Select(GetOr(jobData, "results", JObj([])), selected).Err? {
      FailedGet(r1, id, item.(progress := 10), id);
      FailedGet(r1, id, item.(progress := 10), k);
    } else {
      var r2 := Progressed(r1, id, 30);
      ProgressedGet(r1, id, item.(progress := 10), 30, id);
      ProgressedGet(r1, id, item.(progress := 10), 30, k);
      var failure := ContentFailure(format, jobData, Select(GetOr(jobData, "results", JObj([])), selected).value, includeMetadata, now);
      if failure.Some? {
        FailedGet(r2, id, item.(progress := 30), id);
        FailedGet(r2, id, item.(progress := 30), k);
      } else {
        var r3 := Progressed(r2, id, 70);
        ProgressedGet(r2, id, item.(progress := 30), 70, id);
        ProgressedGet(r2, id, item.(progress := 30), 70, k);
        var done := item.(filePath := Some(storagePath + "/" + id + "." + format), fileSize := writtenSize,
                          status := Ready, progress := 100);
        PutGet(r3.downloads, id, done, id);
        PutGet(r3.downloads, id, done, k);
        ProgressedGet(r3.(downloads := Put(r3.downloads, id, done)), id, done, 100, id);
        ProgressedGet(r3.(downloads := Put(r3.downloads, id, done)), id, done, 100, k);
      }
    }
  }

  /** A download that succeeds is registered ready at 100%, after the
      reports 10, 30, 70 and 100. */
  lemma GenerateReady(r: Registry, storagePath: string, jobData: Dict, format: string, includeMetadata: bool,
                      selected: Option<seq<string>>, id: string, now: int, writtenSize: nat)
    requires AfterGenerate(r, storagePath, jobData, format, includeMetadata, selected, id, now, writtenSize).1.Ok?
    ensures var (r', result) := AfterGenerate(r, storagePath, jobData, format, includeMetadata, selected, id, now, writtenSize);
      && format in ["json", "csv", "xml", "pdf", "zip"]
      && Get(r'.downloads, id) == Some(result.value)
      && result.value.status == "ready" && result.value.progress == 100
      && result.value.filePath == Some(storagePath + "/" + id + "." + format)
      && r'.reports == r.reports + [(id, 10), (id, 30), (id, 70), (id, 100)]
  {
    var item := NewItem(jobData, format, id, now).value;
    var r0 := r.(downloads := Put(r.downloads, id, item));
    PutGet(r.downloads, id, item, id);
    var r1 := Progressed(r0, id, 10);
    ProgressedGet(r0, id, item, 10, id);
    var r2 := Progressed(r1, id, 30);
    ProgressedGet(r1, id, item.(progress := 10), 30, id);
    var r3 := Progressed(r2, id, 70);
    ProgressedGet(r2, id, item.(progress := 30), 70, id);
    var done := item.(filePath := Some(storagePath + "/" + id + "." + format), fileSize := writtenSize,
                      status := Ready, progress := 100);
    PutGet(r3.downloads, id, done, id);
    ProgressedGet(r3.(downloads := Put(r3.downloads, id, done)), id, done, 100, id);
  }

  /** A download that fails leaves its item registered in error; at most the
      reports 10 and 30 were printed.  An unsupported format fails with
      ValueError unless the agent selection failed first. */
  lemma GenerateFails(r: Registry, storagePath: string, jobData: Dict, format: string, includeMetadata: bool,
                      selected: Option<seq<string>>, id: string, now: int, writtenSize: nat)
    requires NewItem(jobData, format, id, now).Ok?
    ensures var (r', result) := AfterGenerate(r, storagePath, jobData, format, includeMetadata, selected, id, now, writtenSize);
      && (format !in ["json", "csv", "xml", "pdf", "zip"] ==>
            result == (if Select(GetOr(jobData, "results", JObj([])), selected).Err? then Err("AttributeError: items")
                       else Err("ValueError: Unsupported format: " + format)))
      && (result.Err? ==>
            && Get(r'.downloads, id).Some? && Get(r'.downloads, id).value.status == "error"
            && r'.reports in [r.reports + [(id, 10)], r.reports + [(id, 10), (id, 30)]])
  {
    var item := NewItem(jobData, format, id, now).value;
    var r0 := r.(downloads := Put(r.downloads, id, item));
    PutGet(r.downloads, id, item, id);
    var r1 := Progressed(r0, id, 10);
    ProgressedGet(r0, id, item, 10, id);
    if Select(GetOr(jobData, "results", JObj([])), selected).Err? {
      FailedGet(r1, id, item.(progress := 10), id);
      assert Failed(r1, id).reports == r.reports + [(id, 10)];
    } else {
      var r2 := Progressed(r1, id, 30);
      ProgressedGet(r1, id, item.(progress := 10), 30, id);
      FailedGet(r2, id, item.(progress := 30), id);
      assert Failed(r2, id).reports == r.reports + [(id, 10), (id, 30)];
    }
  }

  /** mark_downloaded completes a known item and counts one more download;
      nothing else changes, and an unknown id changes nothing. */
  lemma MarkDownloadedSpec(m: Assoc<string, DownloadItem>, id: string, k: string)
    ensures var m' := AfterMarkDownloaded(m, id);
      && (Get(m, id).Some? ==> Get(m', id) == Some(Get(m, id).value.(status := "completed",
                                                                     downloadCount := Get(m, id).value.downloadCount + 1)))
      && (Get(m, id).None? ==> m' == m)
      && (k != id ==> Get(m', k) == Get(m, k))
  {
    if Get(m, id).Some? {
      var item := Get(m, id).value;
      PutGet(m, id, item.(status := CompletedStatus, downloadCount := item.downloadCount + 1), id);
      PutGet(m, id, item.(status := CompletedStatus, downloadCount := item.downloadCount + 1), k);
    }
  }

  lemma {:induction false} ExpiredIdsSnoc(m: Assoc<string, DownloadItem>, now: int, i: nat)
    requires i < |m|
    ensures ExpiredIds(m[..i + 1], now) == ExpiredIds(m[..i], now) + (if Expired(m[i].1, now) then [m[i].0] else [])
  {
    if i == 0 {
      assert m[..1][1..] == [];
    } else {
      ExpiredIdsSnoc(m[1..], now, i - 1);
      assert m[1..][..i] == m[..i + 1][1..];
      assert m[1..][..i - 1] == m[..i][1..];
    }
  }

  lemma {:induction false} RemoveWithout(m: Assoc<string, DownloadItem>, ks: seq<string>, k: string)
    ensures Remove(WithoutKeys(m, ks), k) == WithoutKeys(m, ks + [k])
  {
    if m != [] {
      var e := m[0];
      var w := WithoutKeys(m[1..], ks);
      RemoveWithout(m[1..], ks, k);
      assert WithoutKeys(m, ks + [k]) == (if e.0 in ks + [k] then [] else [e]) + WithoutKeys(m[1..], ks + [k]);
      if e.0 in ks {
        assert WithoutKeys(m, ks) == w;
      } else {
        assert WithoutKeys(m, ks) == [e] + w;
        assert ([e] + w)[1..] == w;
        if e.0 == k {
          assert Remove([e] + w, k) == Remove(w, k);
        } else {
          assert Remove([e] + w, k) == [e] + Remove(w, k);
        }
      }
    }
  }

  lemma {:induction false} WithoutOtherKey(m: Assoc<string, DownloadItem>, x: string, ks: seq<string>)
    requires x !in Keys(m)
    ensures WithoutKeys(m, [x] + ks) == WithoutKeys(m, ks)
  {
    if m != [] {
      assert Keys(m) == [m[0].0] + Keys(m[1..]);
      WithoutOtherKey(m[1..], x, ks);
    }
  }

  /** Deleting the expired ids one by one leaves exactly the unexpired items. */
  lemma {:induction false} WithoutExpired(m: Assoc<string, DownloadItem>, now: int)
    requires DistinctKeys(m)
    ensures WithoutKeys(m, ExpiredIds(m, now)) == Unexpired(m, now)
  {
    if m != [] {
      var e := m[0];
      var rest := m[1..];
      assert DistinctKeys(rest);
      WithoutExpired(rest, now);
      var later := ExpiredIds(rest, now);
      NotLaterKey(m);
      ExpiredIdsKeys(rest, now);
      assert e.0 !in later;
      if Expired(e.1, now) {
        assert ExpiredIds(m, now) == [e.0] + later;
        WithoutOtherKey(rest, e.0, later);
        assert WithoutKeys(m, [e.0] + later) == WithoutKeys(rest, [e.0] + later);
        assert Unexpired(m, now) == Unexpired(rest, now);
      } else {
        assert ExpiredIds(m, now) == later;
        assert WithoutKeys(m, later) == [e] + WithoutKeys(rest, later);
        assert Unexpired(m, now) == [e] + Unexpired(rest, now);
      }
    }
  }

  lemma NotLaterKey(m: Assoc<string, DownloadItem>)
    requires m != [] && DistinctKeys(m)
    ensures m[0].0 !in Keys(m[1..])
  {
    var rest := m[1..];
    forall i | 0 <= i < |rest| ensures Keys(rest)[i] != m[0].0 {
      assert rest[i] == m[i + 1];
    }
  }

  lemma {:induction false} ExpiredIdsKeys(m: Assoc<string, DownloadItem>, now: int)
    ensures forall x :: x in ExpiredIds(m, now) ==> x in Keys(m)
  {
    if m != [] {
      ExpiredIdsKeys(m[1..], now);
      assert Keys(m) == [m[0].0] + Keys(m[1..]);
    }
  }

  /** After cleanup_expired an id finds its item exactly when the item had
      not expired. */
  lemma {:induction false} UnexpiredGet(m: Assoc<string, DownloadItem>, now: int, k: string)
    requires DistinctKeys(m)
    ensures Get(Unexpired(m, now), k) == if Get(m, k).Some? && Expired(Get(m, k).value, now) then None else Get(m, k)
  {
    if m != [] {
      var e := m[0];
      var rest := m[1..];
      assert DistinctKeys(rest);
      UnexpiredGet(rest, now, k);
      GetCons(e, rest, k);
      assert m == [e] + rest;
      if Expired(e.1, now) {
        assert Unexpired(m, now) == Unexpired(rest, now);
        if e.0 == k {
          NotLaterKey(m);
          GetKeys(rest, k);
        }
      } else {
        assert Unexpired(m, now) == [e] + Unexpired(rest, now);
        GetCons(e, Unexpired(rest, now), k);
      }
    }
  }

  // ---------------------------------------------------------------------------
  // The service

  /** DownloadService. */
  class DownloadService {
    const storagePath: string
    var activeDownloads: Assoc<string, DownloadItem>
    /** The progress reports `_update_progress` prints. */
    var reports: seq<(string, int)>

    function State(): Registry
      reads this
    {
      Registry(activeDownloads, reports)
    }

    ghost predicate Valid()
      reads this
    {
      DistinctKeys(activeDownloads)
    }

    constructor(storagePath: string)
      ensures Valid() && this.storagePath == storagePath && activeDownloads == [] && reports == []
    {
      this.storagePath := storagePath;
      activeDownloads := [];
      reports := [];
    }

    method UpdateProgress(downloadId: string, progress: int)
      requires Valid()
      modifies this
      ensures Valid() && State() == Progressed(old(State()), downloadId, progress)
    {
      var item := Get(activeDownloads, downloadId);
      if item.Some? {
        PutDistinct(activeDownloads, downloadId, item.value.(progress := progress));
        activeDownloads := Put(activeDownloads, downloadId, item.value.(progress := progress));
      }
      reports := reports + [(downloadId, progress)];
    }

    /** The status of a registered item set to error. */
    method Fail(downloadId: string)
      requires Valid()
      modifies this
      ensures Valid() && State() == Failed(old(State()), downloadId)
    {
      var item := Get(activeDownloads, downloadId);
      if item.Some? {
        PutDistinct(activeDownloads, downloadId, item.value.(status := ErrorStatus));
        activeDownloads := Put(activeDownloads, downloadId, item.value.(status := ErrorStatus));
      }
    }

    method GenerateDownload(jobData: Dict, formatType: string, includeMetadata: bool, selectedAgents: Option<seq<string>>,
                            id: string, now: int, writtenSize: nat) returns (result: Result<DownloadItem, string>)
      requires Valid()
      modifies this
      ensures Valid()
      ensures (State(), result) == AfterGenerate(old(State()), storagePath, jobData, formatType, includeMetadata,
                                                 selectedAgents, id, now, writtenSize)
    {
      var created := NewItem(jobData, formatType, id, now);
      if created.Err? {
        return Err(created.error);
      }
      var item := created.value;
      PutDistinct(activeDownloads, id, item);
      activeDownloads := Put(activeDownloads, id, item);
      UpdateProgress(id, 10);
      var results := Select(GetOr(jobData, "results", JObj([])), selectedAgents);
      if results.Err? {
        Fail(id);
        return Err(results.error);
      }
      UpdateProgress(id, 30);
      var failure := ContentFailure(formatType, jobData, results.value, includeMetadata, now);
      if failure.Some? {
        Fail(id);
        return Err(failure.value);
      }
      UpdateProgress(id, 70);
      var done := item.(filePath := Some(storagePath + "/" + id + "." + formatType),
                        fileSize := writtenSize, status := Ready, progress := 100);
      PutDistinct(activeDownloads, id, done);
      activeDownloads := Put(activeDownloads, id, done);
      UpdateProgress(id, 100);
      result := Ok(done);
    }

    method GetDownloadInfo(downloadId: string) returns (item: Option<DownloadItem>)
      ensures item == Get(activeDownloads, downloadId)
    {
      item := Get(activeDownloads, downloadId);
    }

    method MarkDownloaded(downloadId: string)
      requires Valid()
      modifies this
      ensures Valid() && activeDownloads == AfterMarkDownloaded(old(activeDownloads), downloadId)
      ensures reports == old(reports)
    {
      var item := Get(activeDownloads, downloadId);
      if item.Some? {
        var marked := item.value.(status := CompletedStatus, downloadCount := item.value.downloadCount + 1);
        PutDistinct(activeDownloads, downloadId, marked);
        activeDownloads := Put(activeDownloads, downloadId, marked);
      }
    }

    /** cleanup_expired: the expired ids are collected in one pass and
        deleted in a second. */
    method CleanupExpired(now: int)
      requires Valid()
      modifies this
      ensures Valid() && activeDownloads == Unexpired(old(activeDownloads), now)
      ensures reports == old(reports)
    {
      var expiredIds := CollectExpired(activeDownloads, now);
      ghost var table := activeDownloads;
      DeleteAll(expiredIds);
      WithoutExpired(table, now);
    }

    /** The deletion pass of cleanup_expired. */
    method DeleteAll(ids: seq<string>)
      requires Valid()
      modifies this
      ensures Valid() && activeDownloads == WithoutKeys(old(activeDownloads), ids)
      ensures reports == old(reports)
    {
      ghost var table := activeDownloads;
      WithoutNone(table);
      assert ids[..0] == [];
      for j := 0 to |ids|
        invariant reports == old(reports)
        invariant activeDownloads == WithoutKeys(table, ids[..j])
        invariant DistinctKeys(activeDownloads)
      {
        RemoveWithout(table, ids[..j], ids[j]);
        assert ids[..j + 1] == ids[..j] + [ids[j]];
        RemoveDistinct(activeDownloads, ids[j]);
        activeDownloads := Remove(activeDownloads, ids[j]);
      }
      assert ids[..|ids|] == ids;
    }

    method ListDownloads() returns (downloads: seq<Listing>)
      ensures |downloads| == |activeDownloads|
      ensures forall i :: 0 <= i < |activeDownloads| ==> downloads[i] == ListingOf(activeDownloads[i].1)
    {
      downloads := [];
      for i := 0 to |activeDownloads|
        invariant |downloads| == i
        invariant forall j :: 0 <= j < i ==> downloads[j] == ListingOf(activeDownloads[j].1)
      {
        downloads := downloads + [ListingOf(activeDownloads[i].1)];
      }
    }

    /** `_generate_csv`: the rows the writer is given, in order. */
    method GenerateCsv(jobData: Dict, results: Json, includeMetadata: bool, now: int) returns (rows: Result<seq<Row>, string>)
      ensures rows == CsvExport(jobData, results, includeMetadata, now)
    {
      var meta := CsvMetadata(jobData, includeMetadata, now);
      if meta.Err? {
        return Err(meta.error);
      }
      if !results.JObj? {
        return Err("AttributeError: items");
      }
      var agentRows := WriteAgentRows(results.fields);
      if agentRows.None? {
        return Err("AttributeError: items");
      }
      rows := Ok([CsvHeader] + meta.value + agentRows.value);
    }
  }

  /** The loop over the agents of `_generate_csv`: None when an agent's
      results are not an object. */
  method WriteAgentRows(agents: Dict) returns (rows: Option<seq<Row>>)
    ensures rows == if AllObjects(agents) then Some(AgentRows(agents)) else None
  {
    var out: seq<Row> := [];
    for a := 0 to |agents|
      invariant out == AgentRows(agents[..a])
      invariant AllObjects(agents[..a])
    {
      var agentResults := agents[a].1;
      if !agentResults.JObj? {
        return None;
      }
      var agentName := AgentName(agents[a].0);
      AgentRowsAppend(agents[..a], agents[a]);
      assert agents[..a + 1] == agents[..a] + [agents[a]];
      assert AgentRows([agents[a]]) == MetricRows(agentName, agentResults.fields);
      out := WriteMetricRows(out, agentName, agentResults.fields);
    }
    assert agents[..|agents|] == agents;
    rows := Some(out);
  }

  /** The loop over one agent's metrics. */
  method WriteMetricRows(out: seq<Row>, name: string, metrics: Dict) returns (rows: seq<Row>)
    ensures rows == out + MetricRows(name, metrics)
  {
    rows := out;
    for m := 0 to |metrics|
      invariant rows == out + MetricRows(name, metrics[..m])
    {
      MetricRowsSnoc(name, metrics, m);
      rows := rows + [[name, metrics[m].0, Str(metrics[m].1)]];
    }
    assert metrics[..|metrics|] == metrics;
  }

  /** The collecting pass of cleanup_expired. */
  method CollectExpired(table: Assoc<string, DownloadItem>, now: int) returns (expiredIds: seq<string>)
    ensures expiredIds == ExpiredIds(table, now)
  {
    expiredIds := [];
    for i := 0 to |table|
      invariant expiredIds == ExpiredIds(table[..i], now)
    {
      ExpiredIdsSnoc(table, now, i);
      if Expired(table[i].1, now) {
        expiredIds := expiredIds + [table[i].0];
      }
    }
    assert table[..|table|] == table;
  }

  lemma {:induction false} MetricRowsSnoc(name: string, metrics: Dict, m: nat)
    requires m < |metrics|
    ensures MetricRows(name, metrics[..m + 1]) == MetricRows(name, metrics[..m]) + [[name, metrics[m].0, Str(metrics[m].1)]]
  {
    var r := MetricRows(name, metrics[..m + 1]);
    var s := MetricRows(name, metrics[..m]) + [[name, metrics[m].0, Str(metrics[m].1)]];
    assert |r| == |s|;
    forall i | 0 <= i < |r| ensures r[i] == s[i] {
      if i < m {
        assert metrics[..m + 1][i] == metrics[..m][i];
      }
    }
  }

  lemma {:induction false} WithoutNone(m: Assoc<string, DownloadItem>)
    ensures WithoutKeys(m, []) == m
  {
    if m != [] {
      WithoutNone(m[1..]);
    }
  }
}
