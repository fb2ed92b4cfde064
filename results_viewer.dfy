/** The results viewer of the web client (components/results-viewer.tsx):
    the agent-name lookup and the download dialog, whose state is the chosen
    format, the selected agents, the metadata flag and the busy flag, and
    whose exports (JSON, CSV, XML, PDF text, ZIP text) are built from the
    selected agents that have results. */
module ResultsViewer {
  import opened Wrappers
  import opened Dicts
  import opened Text
  import opened Jobs
  import DM = DownloadManager

  // ---------------------------------------------------------------------------
  // Agent names

  const KnownAgents: seq<string> := ["video-agent", "audio-agent", "storyboard-agent", "metadata-agent"]

  /** getAgentName: the display name of a known agent, any other id as it is. */
  function AgentName(agentId: string): string {
    if agentId == "video-agent" then "Video Enhancement"
    else if agentId == "audio-agent" then "Audio Optimization"
    else if agentId == "storyboard-agent" then "Storyboard Generation"
    else if agentId == "metadata-agent" then "Metadata Extraction"
    else agentId
  }

  /** The four known ids get their fixed names, which differ from the ids;
      every other id is its own name. */
  lemma AgentNames(agentId: string)
    ensures agentId in KnownAgents <==> AgentName(agentId) != agentId
    ensures AgentName("video-agent") == "Video Enhancement" && AgentName("audio-agent") == "Audio Optimization"
    ensures AgentName("storyboard-agent") == "Storyboard Generation"
    ensures AgentName("metadata-agent") == "Metadata Extraction"
  {
    assert "Video Enhancement"[0] == 'V' && "video-agent"[0] == 'v';
    assert "Audio Optimization"[0] == 'A' && "audio-agent"[0] == 'a';
    assert "Storyboard Generation"[0] == 'S' && "storyboard-agent"[0] == 's';
    assert "Metadata Extraction"[0] == 'M' && "metadata-agent"[0] == 'm';
  }

  // ---------------------------------------------------------------------------
  // The dialog state

  /** The four pieces of React state of DownloadDialog. */
  datatype Dialog = Dialog(selectedFormat: string, selectedAgents: seq<string>, includeMetadata: bool, isDownloading: bool)

  /** The formats the select offers. */
  const Formats: seq<string> := ["json", "csv", "xml", "pdf", "zip"]

  /** The state a dialog opens with. */
  function InitialDialog(job: ProcessingJob): Dialog {
    Dialog("json", Keys(job.results), true, false)
  }

  /** The download button is disabled while a download runs or when no agent
      is selected. */
  predicate DownloadDisabled(d: Dialog) {
    d.isDownloading || |d.selectedAgents| == 0
  }

  /** A freshly opened dialog offers a JSON download with metadata of every
      agent that has results, and it can download exactly when there are
      results. */
  lemma InitialState(job: ProcessingJob)
    ensures var d := InitialDialog(job);
      && d.selectedFormat in Formats && d.includeMetadata
      && (forall k :: k in d.selectedAgents <==> Get(job.results, k).Some?)
      && (DownloadDisabled(d) <==> job.results == [])
  {
    forall k ensures k in Keys(job.results) <==> Get(job.results, k).Some? {
      GetKeys(job.results, k);
    }
  }

  /** The ids other than `agentId`, in their order. */
  function Without(ids: seq<string>, agentId: string): seq<string> {
    if ids == [] then [] else (if ids[0] == agentId then [] else [ids[0]]) + Without(ids[1..], agentId)
  }

  /** The checkbox of an agent: checking appends the id, unchecking removes
      every occurrence of it. */
  function Toggle(selected: seq<string>, agentId: string, checked: bool): seq<string> {
    if checked then selected + [agentId] else Without(selected, agentId)
  }

  /** Unchecking removes every occurrence of the id and keeps every other id
      as often as it was selected. */
  lemma {:induction false} WithoutCounts(ids: seq<string>, agentId: string, other: string)
    ensures agentId !in Without(ids, agentId)
    ensures other != agentId ==> multiset(Without(ids, agentId))[other] == multiset(ids)[other]
  {
    if ids != [] {
      WithoutCounts(ids[1..], agentId, other);
      assert ids == [ids[0]] + ids[1..];
    }
  }

  /** An id that is not selected leaves the selection as it is. */
  lemma {:induction false} WithoutAbsent(ids: seq<string>, agentId: string)
    requires agentId !in ids
    ensures Without(ids, agentId) == ids
  {
    if ids != [] {
      assert ids[1..] == ids[1..] && agentId !in ids[1..];
      WithoutAbsent(ids[1..], agentId);
      assert [ids[0]] + ids[1..] == ids;
    }
  }

  /** Checking appends the id once; unchecking it again restores a selection
      that did not hold it. */
  lemma ToggleSpec(selected: seq<string>, agentId: string)
    ensures Toggle(selected, agentId, true) == selected + [agentId]
    ensures agentId !in selected ==> Toggle(Toggle(selected, agentId, true), agentId, false) == selected
  {
    if agentId !in selected {
      WithoutAppend(selected, [agentId], agentId);
      WithoutAbsent(selected, agentId);
      assert Without([agentId], agentId) == [] + Without([], agentId);
      assert selected + [] == selected;
    }
  }

  lemma {:induction false} WithoutAppend(a: seq<string>, b: seq<string>, agentId: string)
    ensures Without(a + b, agentId) == Without(a, agentId) + Without(b, agentId)
  {
    if a == [] {
      assert a + b == b;
    } else {
      assert (a + b)[0] == a[0] && (a + b)[1..] == a[1..] + b;
      WithoutAppend(a[1..], b, agentId);
      var head := if a[0] == agentId then [] else [a[0]];
      assert head + (Without(a[1..], agentId) + Without(b, agentId))
          == (head + Without(a[1..], agentId)) + Without(b, agentId);
    }
  }

  // ---------------------------------------------------------------------------
  // The walk over the selected agents

  /** What one selected agent contributes: its rendered results when
      `job.results[agentId]` is truthy, nothing otherwise. A truthy value is
      never null, so its entries exist. */
  function Piece(results: Dict, agentId: string, render: (string, Dict) -> seq<string>): seq<string> {
    var v := Get(results, agentId);
    if Truthy(v) then render(agentId, Entries(v.value).value) else []
  }

  /** `agents.forEach(...)`: the pieces of the selected agents in selection
      order. */
  function Selection(results: Dict, agents: seq<string>, render: (string, Dict) -> seq<string>): seq<string>
    decreases |agents|
  {
    if agents == [] then []
    else Selection(results, agents[..|agents| - 1], render) + Piece(results, agents[|agents| - 1], render)
  }

  /** The walk over a concatenated selection is the walk over its parts. */
  lemma {:induction false} SelectionSplit(results: Dict, a: seq<string>, b: seq<string>, render: (string, Dict) -> seq<string>)
    ensures Selection(results, a + b, render) == Selection(results, a, render) + Selection(results, b, render)
    decreases |b|
  {
    if b == [] {
      assert a + b == a;
    } else {
      var b' := b[..|b| - 1];
      assert (a + b)[..|a + b| - 1] == a + b';
      assert (a + b)[|a + b| - 1] == b[|b| - 1];
      SelectionSplit(results, a, b', render);
      var p := Piece(results, b[|b| - 1], render);
      assert Selection(results, a, render) + Selection(results, b', render) + p
          == Selection(results, a, render) + (Selection(results, b', render) + p);
    }
  }

  /** The selected agents that have results, counted as often as selected. */
  function PresentCount(results: Dict, agents: seq<string>): nat
    decreases |agents|
  {
    if agents == [] then 0
    else PresentCount(results, agents[..|agents| - 1]) + (if Truthy(Get(results, agents[|agents| - 1])) then 1 else 0)
  }

  /** The entries of the selected agents that have results. */
  function MetricTotal(results: Dict, agents: seq<string>): nat
    decreases |agents|
  {
    if agents == [] then 0
    else
      var v := Get(results, agents[|agents| - 1]);
      MetricTotal(results, agents[..|agents| - 1]) + (if Truthy(v) then |Entries(v.value).value| else 0)
  }

  /** The walk over a prefix, one agent at a time. */
  lemma SelectionStep(results: Dict, agents: seq<string>, i: nat, render: (string, Dict) -> seq<string>)
    requires i < |agents|
    ensures Selection(results, agents[..i + 1], render) == Selection(results, agents[..i], render) + Piece(results, agents[i], render)
  {
    assert agents[..i + 1][..i] == agents[..i] && agents[..i + 1][i] == agents[i];
  }

  /** One more agent appends its piece to the text. */
  lemma AppendedPiece(text: string, results: Dict, agents: seq<string>, i: nat, render: (string, Dict) -> seq<string>)
    requires i < |agents|
    ensures text + Concat(Selection(results, agents[..i + 1], render))
         == text + Concat(Selection(results, agents[..i], render)) + Concat(Piece(results, agents[i], render))
  {
    SelectionStep(results, agents, i, render);
    ConcatSplit(Selection(results, agents[..i], render), Piece(results, agents[i], render));
  }

  /** The forEach of each text export: the pieces of the selected agents
      appended to the text in turn. */
  method AppendSelection(text: string, results: Dict, agents: seq<string>, render: (string, Dict) -> seq<string>)
    returns (t: string)
    ensures t == text + Concat(Selection(results, agents, render))
  {
    t := text;
    assert agents[..0] == [] && t == text + Concat([]);
    for i := 0 to |agents|
      invariant t == text + Concat(Selection(results, agents[..i], render))
    {
      AppendedPiece(text, results, agents, i, render);
      var v := Get(results, agents[i]);
      if Truthy(v) {
        t := AppendLines(t, render(agents[i], Entries(v.value).value));
      }
    }
    assert agents[..|agents|] == agents;
  }

  // ---------------------------------------------------------------------------
  // JSON

  /** `results.results`: each selected agent with results under its id, with
      the value it has in the job. */
  function SelectedResults(results: Dict, agents: seq<string>): Dict
    decreases |agents|
  {
    if agents == [] then []
    else
      var before := SelectedResults(results, agents[..|agents| - 1]);
      var v := Get(results, agents[|agents| - 1]);
      if Truthy(v) then Put(before, agents[|agents| - 1], v.value) else before
  }

  /** Exactly the selected agents that have results appear, each with its
      job value. */
  lemma {:induction false} SelectedResultsGet(results: Dict, agents: seq<string>, k: string)
    ensures Get(SelectedResults(results, agents), k)
            == if k in agents && Truthy(Get(results, k)) then Get(results, k) else None
    decreases |agents|
  {
    if agents != [] {
      var init := agents[..|agents| - 1];
      var last := agents[|agents| - 1];
      SelectedResultsGet(results, init, k);
      assert agents == init + [last];
      assert k in agents <==> k in init || k == last;
      var v := Get(results, last);
      if Truthy(v) {
        PutGet(SelectedResults(results, init), last, v.value, k);
      }
    }
  }

  /** No id appears twice among the exported results. */
  lemma {:induction false} SelectedResultsDistinct(results: Dict, agents: seq<string>)
    ensures DistinctKeys(SelectedResults(results, agents))
    decreases |agents|
  {
    if agents != [] {
      var init := agents[..|agents| - 1];
      SelectedResultsDistinct(results, init);
      var v := Get(results, agents[|agents| - 1]);
      if Truthy(v) {
        PutDistinct(SelectedResults(results, init), agents[|agents| - 1], v.value);
      }
    }
  }

  /** The `job` block of the JSON export. */
  function JobObject(job: ProcessingJob): Json {
    JObj([("id", JStr(job.id)), ("fileName", JStr(job.fileName)), ("status", JStr(StatusName(job.status))),
          ("progress", JNum(job.progress))])
  }

  /** The `metadata` block of the JSON export; `now` is the ISO timestamp. */
  function MetadataObject(job: ProcessingJob, agents: seq<string>, now: string): Json {
    JObj([("downloadedAt", JStr(now)), ("selectedAgents", JArr(seq(|agents|, i requires 0 <= i < |agents| => JStr(agents[i])))),
          ("totalAgents", JNum(|job.results|))])
  }

  /** The object generateJSONDownload serialises: job, results, then the
      metadata block when asked for. */
  function JsonExport(job: ProcessingJob, agents: seq<string>, metadata: bool, now: string): Json {
    JObj([("job", JobObject(job)), ("results", JObj(SelectedResults(job.results, agents)))]
         + (if metadata then [("metadata", MetadataObject(job, agents, now))] else []))
  }

  /** The JSON export holds the selection's results; the metadata block is
      there exactly when asked for and counts every agent of the job. */
  lemma JsonShape(job: ProcessingJob, agents: seq<string>, metadata: bool, now: string)
    ensures var fields := JsonExport(job, agents, metadata, now).fields;
      && Get(fields, "results") == Some(JObj(SelectedResults(job.results, agents)))
      && Get(fields, "metadata") == (if metadata then Some(MetadataObject(job, agents, now)) else None)
      && Get(MetadataObject(job, agents, now).fields, "totalAgents") == Some(JNum(|job.results|))
  {
    assert "results"[0] != "job"[0] && "metadata"[0] != "job"[0] && "metadata"[0] != "results"[0];
    assert "totalAgents"[0] != "downloadedAt"[0] && "totalAgents"[0] != "selectedAgents"[0];
    var meta := MetadataObject(job, agents, now).fields;
    GetCons(meta[0], meta[1..], "totalAgents");
    GetCons(meta[1], meta[2..], "totalAgents");
    assert meta == [meta[0]] + meta[1..] && meta[1..] == [meta[1]] + meta[2..];
    GetCons(meta[2], [], "totalAgents");
    assert meta[2..] == [meta[2]] + [];
    var tail := if metadata then [("metadata", MetadataObject(job, agents, now))] else [];
    GetCons(("job", JobObject(job)), [("results", JObj(SelectedResults(job.results, agents)))] + tail, "results");
    GetCons(("job", JobObject(job)), [("results", JObj(SelectedResults(job.results, agents)))] + tail, "metadata");
    GetCons(("results", JObj(SelectedResults(job.results, agents))), tail, "results");
    GetCons(("results", JObj(SelectedResults(job.results, agents))), tail, "metadata");
    assert [("job", JobObject(job)), ("results", JObj(SelectedResults(job.results, agents)))] + tail
        == [("job", JobObject(job))] + ([("results", JObj(SelectedResults(job.results, agents)))] + tail);
  }

  /** generateJSONDownload: the results object filled in selection order. */
  method GenerateJson(job: ProcessingJob, agents: seq<string>, metadata: bool, now: string) returns (json: Json)
    ensures json == JsonExport(job, agents, metadata, now)
  {
    var selected: Dict := [];
    assert agents[..0] == [];
    for i := 0 to |agents|
      invariant selected == SelectedResults(job.results, agents[..i])
    {
      assert agents[..i + 1][..i] == agents[..i] && agents[..i + 1][i] == agents[i];
      var v := Get(job.results, agents[i]);
      if Truthy(v) {
        selected := Put(selected, agents[i], v.value);
      }
    }
    assert agents[..|agents|] == agents;
    var fields := [("job", JobObject(job)), ("results", JObj(selected))];
    if metadata {
      fields := fields + [("metadata", MetadataObject(job, agents, now))];
    }
    json := JObj(fields);
  }

  // ---------------------------------------------------------------------------
  // CSV

  const CsvHeader: string := "Agent,Metric,Value\n"

  /** The five metadata lines; `now` is the ISO timestamp. */
  function CsvMetaLines(job: ProcessingJob, now: string): (lines: seq<string>)
    ensures |lines| == 5 && forall i :: 0 <= i < 5 ==> "Metadata," <= lines[i]
  {
    [MetaLine("Job ID", job.id), MetaLine("File Name", job.fileName), MetaLine("Status", StatusName(job.status)),
     MetaLine("Progress", IntToString(job.progress) + "%"), MetaLine("Downloaded At", now)]
  }

  /** One line per entry: agent name, key, value. */
  function CsvAgentLines(agentId: string, metrics: Dict): (lines: seq<string>)
    ensures |lines| == |metrics|
  {
    if metrics == [] then []
    else [AgentName(agentId) + "," + metrics[0].0 + "," + JsString(metrics[0].1) + "\n"] + CsvAgentLines(agentId, metrics[1..])
  }

  /** The CSV export, line by line. */
  function CsvLines(job: ProcessingJob, agents: seq<string>, metadata: bool, now: string): seq<string> {
    [CsvHeader] + (if metadata then CsvMetaLines(job, now) else []) + Selection(job.results, agents, CsvAgentLines)
  }

  /** One CSV line per entry of each selected agent with results. */
  lemma {:induction false} CsvSelectionCount(results: Dict, agents: seq<string>)
    ensures |Selection(results, agents, CsvAgentLines)| == MetricTotal(results, agents)
    decreases |agents|
  {
    if agents != [] {
      CsvSelectionCount(results, agents[..|agents| - 1]);
    }
  }

  /** The CSV export is the header, five metadata lines only when asked for,
      then one line per entry of each selected agent with results. */
  lemma CsvShape(job: ProcessingJob, agents: seq<string>, metadata: bool, now: string)
    ensures var lines := CsvLines(job, agents, metadata, now);
      var m := if metadata then 5 else 0;
      && |lines| == 1 + m + MetricTotal(job.results, agents)
      && lines[0] == CsvHeader
      && (forall i :: 1 <= i < 1 + m ==> "Metadata," <= lines[i])
      && lines[1 + m..] == Selection(job.results, agents, CsvAgentLines)
  {
    CsvSelectionCount(job.results, agents);
    var meta := if metadata then CsvMetaLines(job, now) else [];
    HeadMiddleTail(CsvHeader, meta, Selection(job.results, agents, CsvAgentLines));
  }

  /** Where the three parts of a header line, middle lines and tail lines
      sit in their concatenation. */
  lemma HeadMiddleTail<T>(h: T, middle: seq<T>, tail: seq<T>)
    ensures var l := [h] + middle + tail;
      && |l| == 1 + |middle| + |tail| && l[0] == h
      && (forall i :: 1 <= i < 1 + |middle| ==> l[i] == middle[i - 1])
      && l[1 + |middle|..] == tail
  { }

  /** generateCSVDownload. */
  method GenerateCsv(job: ProcessingJob, agents: seq<string>, metadata: bool, now: string) returns (csv: string)
    ensures csv == Concat(CsvLines(job, agents, metadata, now))
  {
    var head := [CsvHeader] + (if metadata then CsvMetaLines(job, now) else []);
    csv := CsvHeader;
    assert Concat([CsvHeader]) == CsvHeader + Concat([]);
    if metadata {
      csv := AppendLines(csv, CsvMetaLines(job, now));
      ConcatSplit([CsvHeader], CsvMetaLines(job, now));
    } else {
      assert head == [CsvHeader];
    }
    csv := AppendSelection(csv, job.results, agents, CsvAgentLines);
    ConcatSplit(head, Selection(job.results, agents, CsvAgentLines));
  }

  // ---------------------------------------------------------------------------
  // XML

  const XmlOpen: string := DM.XmlDeclaration + "<ProcessingResults>\n"
  const ResultsOpen: string := "  <Results>\n"
  const XmlClose: string := "  </Results>\n</ProcessingResults>"

  /** What the metadata element's opening line starts with. */
  const MetadataPrefix: string := "  <Metadata>"

  /** The metadata element; `now` is the ISO timestamp. */
  function XmlMetaLines(job: ProcessingJob, now: string): seq<string> {
    [MetadataPrefix + "\n", "    <JobId>" + job.id + "</JobId>\n", "    <FileName>" + job.fileName + "</FileName>\n",
     "    <Status>" + StatusName(job.status) + "</Status>\n",
     "    <Progress>" + IntToString(job.progress) + "</Progress>\n",
     "    <DownloadedAt>" + now + "</DownloadedAt>\n", "  </Metadata>\n"]
  }

  /** An agent's element: its id and name, one element per entry. */
  function XmlAgentLines(agentId: string, metrics: Dict): seq<string> {
    [DM.AgentPrefix + agentId + "\" name=\"" + AgentName(agentId) + "\">\n"] + DM.MetricElements(metrics) + [DM.AgentClosing]
  }

  /** The XML export, piece by piece. */
  function XmlLines(job: ProcessingJob, agents: seq<string>, metadata: bool, now: string): seq<string> {
    [XmlOpen] + (if metadata then XmlMetaLines(job, now) else []) + [ResultsOpen]
      + Selection(job.results, agents, XmlAgentLines) + [XmlClose]
  }

  lemma {:induction false} MetricElementsIndented(metrics: Dict)
    ensures CountStarting(DM.MetricElements(metrics), MetadataPrefix) == 0
    ensures CountStarting(DM.MetricElements(metrics), DM.AgentPrefix) == 0
  {
    if metrics != [] {
      var line := DM.MetricElements(metrics)[0];
      assert line[2] == ' ' && line[4] == ' ';
      MetricElementsIndented(metrics[1..]);
    }
  }

  /** An agent's element opens one agent element and no metadata element. */
  lemma AgentElementCounts(agentId: string, metrics: Dict)
    ensures CountStarting(XmlAgentLines(agentId, metrics), DM.AgentPrefix) == 1
    ensures CountStarting(XmlAgentLines(agentId, metrics), MetadataPrefix) == 0
  {
    var opening := DM.AgentPrefix + agentId + "\" name=\"" + AgentName(agentId) + "\">\n";
    assert DM.AgentPrefix <= opening && opening[2] == ' ';
    assert DM.AgentClosing[2] == ' ' && DM.AgentClosing[5] == '/';
    MetricElementsIndented(metrics);
    CountStartingAppend([opening], DM.MetricElements(metrics), DM.AgentPrefix);
    CountStartingAppend([opening] + DM.MetricElements(metrics), [DM.AgentClosing], DM.AgentPrefix);
    CountStartingAppend([opening], DM.MetricElements(metrics), MetadataPrefix);
    CountStartingAppend([opening] + DM.MetricElements(metrics), [DM.AgentClosing], MetadataPrefix);
  }

  /** The agent part opens one agent element per selected agent with results
      and no metadata element. */
  lemma {:induction false} SelectionCounts(results: Dict, agents: seq<string>)
    ensures CountStarting(Selection(results, agents, XmlAgentLines), DM.AgentPrefix) == PresentCount(results, agents)
    ensures CountStarting(Selection(results, agents, XmlAgentLines), MetadataPrefix) == 0
    decreases |agents|
  {
    if agents != [] {
      var init := agents[..|agents| - 1];
      var last := agents[|agents| - 1];
      SelectionCounts(results, init);
      var p := Piece(results, last, XmlAgentLines);
      var v := Get(results, last);
      if Truthy(v) {
        AgentElementCounts(last, Entries(v.value).value);
      }
      CountStartingAppend(Selection(results, init, XmlAgentLines), p, DM.AgentPrefix);
      CountStartingAppend(Selection(results, init, XmlAgentLines), p, MetadataPrefix);
    }
  }

  /** The fixed pieces open no agent element, and only the metadata block
      opens a metadata element. */
  lemma FixedPieceCounts(job: ProcessingJob, metadata: bool, now: string)
    ensures var meta := if metadata then XmlMetaLines(job, now) else [];
      && CountStarting([XmlOpen] + meta + [ResultsOpen], DM.AgentPrefix) == 0
      && CountStarting([XmlOpen] + meta + [ResultsOpen], MetadataPrefix) == (if metadata then 1 else 0)
      && CountStarting([XmlClose], DM.AgentPrefix) == 0 && CountStarting([XmlClose], MetadataPrefix) == 0
  {
    var meta := if metadata then XmlMetaLines(job, now) else [];
    assert XmlOpen[2] == 'x' && ResultsOpen[3] == 'R' && XmlClose[3] == '/';
    CountStartingAppend([XmlOpen] + meta, [ResultsOpen], DM.AgentPrefix);
    CountStartingAppend([XmlOpen] + meta, [ResultsOpen], MetadataPrefix);
    CountStartingAppend([XmlOpen], meta, DM.AgentPrefix);
    CountStartingAppend([XmlOpen], meta, MetadataPrefix);
    if metadata {
      MetaCounts(job, now);
    }
  }

  lemma MetaCounts(job: ProcessingJob, now: string)
    ensures CountStarting(XmlMetaLines(job, now), DM.AgentPrefix) == 0
    ensures CountStarting(XmlMetaLines(job, now), MetadataPrefix) == 1
  {
    var lines := XmlMetaLines(job, now);
    assert MetadataPrefix <= lines[0] && lines[0][2] == '<';
    assert lines[1][2] == ' ' && lines[2][2] == ' ' && lines[3][2] == ' ';
    assert lines[4][2] == ' ' && lines[5][2] == ' ' && lines[6][3] == '/';
    assert DM.AgentPrefix[2] == ' ' && DM.AgentPrefix[5] == 'A' && lines[6][2] == '<';
    assert lines[1][5] == 'J' && lines[2][5] == 'F' && lines[3][5] == 'S' && lines[4][5] == 'P' && lines[5][5] == 'D';
    NoneStarting(lines[1..], MetadataPrefix);
    NoneStarting(lines, DM.AgentPrefix);
  }

  /** The XML export has a metadata element only when asked for, and one
      agent element per selected agent with results. */
  lemma XmlShape(job: ProcessingJob, agents: seq<string>, metadata: bool, now: string)
    ensures CountStarting(XmlLines(job, agents, metadata, now), MetadataPrefix) == (if metadata then 1 else 0)
    ensures CountStarting(XmlLines(job, agents, metadata, now), DM.AgentPrefix) == PresentCount(job.results, agents)
  {
    var head := [XmlOpen] + (if metadata then XmlMetaLines(job, now) else []) + [ResultsOpen];
    var body := Selection(job.results, agents, XmlAgentLines);
    FixedPieceCounts(job, metadata, now);
    SelectionCounts(job.results, agents);
    CountStartingAppend(head, body, MetadataPrefix);
    CountStartingAppend(head + body, [XmlClose], MetadataPrefix);
    CountStartingAppend(head, body, DM.AgentPrefix);
    CountStartingAppend(head + body, [XmlClose], DM.AgentPrefix);
  }

  /** generateXMLDownload. */
  method GenerateXml(job: ProcessingJob, agents: seq<string>, metadata: bool, now: string) returns (xml: string)
    ensures xml == Concat(XmlLines(job, agents, metadata, now))
  {
    var meta := if metadata then XmlMetaLines(job, now) else [];
    xml := AppendLines(XmlOpen, meta + [ResultsOpen]);
    xml := AppendSelection(xml, job.results, agents, XmlAgentLines);
    xml := xml + XmlClose;
    var body := Selection(job.results, agents, XmlAgentLines);
    assert Concat([XmlOpen]) == XmlOpen + Concat([]);
    ConcatSplit([XmlOpen], meta + [ResultsOpen]);
    assert [XmlOpen] + (meta + [ResultsOpen]) == [XmlOpen] + meta + [ResultsOpen];
    ConcatSplit([XmlOpen] + meta + [ResultsOpen], body);
    ConcatAppend([XmlOpen] + meta + [ResultsOpen] + body, XmlClose);
  }

  // ---------------------------------------------------------------------------
  // PDF text

  const PdfTitle: string := "AI MULTIMEDIA PRODUCTION SUITE" + " - PROCESSING REPORT\n\n"
  const PdfResultsTitle: string := "Processing Results:\n\n"

  /** The job block; `localNow` is the locale timestamp. */
  function PdfMetaLines(job: ProcessingJob, localNow: string): seq<string> {
    ["Job Information:\n", "- Job ID: " + job.id + "\n", "- File Name: " + job.fileName + "\n",
     "- Status: " + StatusName(job.status) + "\n", "- Progress: " + IntToString(job.progress) + "%\n",
     "- Generated: " + localNow + "\n\n"]
  }

  /** One bullet per entry. */
  function Bullets(metrics: Dict): (lines: seq<string>)
    ensures |lines| == |metrics|
  {
    if metrics == [] then [] else ["  • " + metrics[0].0 + ": " + JsString(metrics[0].1) + "\n"] + Bullets(metrics[1..])
  }

  /** An agent's section: its name, its bullets, a blank line. */
  function PdfAgentLines(agentId: string, metrics: Dict): seq<string> {
    [AgentName(agentId) + ":\n"] + Bullets(metrics) + ["\n"]
  }

  function PdfLines(job: ProcessingJob, agents: seq<string>, metadata: bool, localNow: string): seq<string> {
    [PdfTitle] + (if metadata then PdfMetaLines(job, localNow) else []) + [PdfResultsTitle]
      + Selection(job.results, agents, PdfAgentLines)
  }

  /** Two lines per selected agent with results, plus one per entry. */
  lemma {:induction false} PdfSelectionCount(results: Dict, agents: seq<string>)
    ensures |Selection(results, agents, PdfAgentLines)| == 2 * PresentCount(results, agents) + MetricTotal(results, agents)
    decreases |agents|
  {
    if agents != [] {
      PdfSelectionCount(results, agents[..|agents| - 1]);
    }
  }

  /** The PDF text is the title, the job block only when asked for, the
      results title, then a section per selected agent with results. */
  lemma PdfShape(job: ProcessingJob, agents: seq<string>, metadata: bool, localNow: string)
    ensures var lines := PdfLines(job, agents, metadata, localNow);
      var m := if metadata then 6 else 0;
      && |lines| == 2 + m + 2 * PresentCount(job.results, agents) + MetricTotal(job.results, agents)
      && lines[0] == PdfTitle && lines[1 + m] == PdfResultsTitle
      && lines[2 + m..] == Selection(job.results, agents, PdfAgentLines)
  {
    PdfSelectionCount(job.results, agents);
    var lines := PdfLines(job, agents, metadata, localNow);
    var m := if metadata then 6 else 0;
    assert lines[2 + m..] == Selection(job.results, agents, PdfAgentLines);
  }

  /** generatePDFDownload. */
  method GeneratePdf(job: ProcessingJob, agents: seq<string>, metadata: bool, localNow: string) returns (pdf: string)
    ensures pdf == Concat(PdfLines(job, agents, metadata, localNow))
  {
    var meta := if metadata then PdfMetaLines(job, localNow) else [];
    pdf := AppendLines(PdfTitle, meta + [PdfResultsTitle]);
    pdf := AppendSelection(pdf, job.results, agents, PdfAgentLines);
    assert Concat([PdfTitle]) == PdfTitle + Concat([]);
    ConcatSplit([PdfTitle], meta + [PdfResultsTitle]);
    assert [PdfTitle] + (meta + [PdfResultsTitle]) == [PdfTitle] + meta + [PdfResultsTitle];
    ConcatSplit([PdfTitle] + meta + [PdfResultsTitle], Selection(job.results, agents, PdfAgentLines));
  }

  // ---------------------------------------------------------------------------
  // The exports as written

  /** What calling getAgentName from DownloadDialog throws: the function is
      declared inside ResultsViewer, so it is not in scope there. */
  const NameError: string := "ReferenceError: getAgentName is not defined"

  /** generateCSVDownload as written: the first entry line of a selected
      agent with results calls getAgentName and throws. */
  function CsvAsWritten(job: ProcessingJob, agents: seq<string>, metadata: bool, now: string): Result<string, string> {
    if MetricTotal(job.results, agents) > 0 then Err(NameError) else Ok(Concat(CsvLines(job, agents, metadata, now)))
  }

  /** generateXMLDownload as written: the opening of the first selected
      agent with results calls getAgentName and throws. */
  function XmlAsWritten(job: ProcessingJob, agents: seq<string>, metadata: bool, now: string): Result<string, string> {
    if PresentCount(job.results, agents) > 0 then Err(NameError) else Ok(Concat(XmlLines(job, agents, metadata, now)))
  }

  /** generatePDFDownload as written: the heading of the first selected
      agent with results calls getAgentName and throws. */
  function PdfAsWritten(job: ProcessingJob, agents: seq<string>, metadata: bool, localNow: string): Result<string, string> {
    if PresentCount(job.results, agents) > 0 then Err(NameError) else Ok(Concat(PdfLines(job, agents, metadata, localNow)))
  }

  /** A video-agent result with one entry: the three exports as written throw,
      while the intended CSV export has the agent's line under its display
      name. */
  lemma AsWrittenThrows(now: string)
    ensures var job := ProcessingJob("1", "clip.mp4", "video/mp4", Completed, 100, [],
                                     [("video-agent", JObj([("resolution", JStr("4K"))]))], None);
      && CsvAsWritten(job, ["video-agent"], false, now) == Err(NameError)
      && XmlAsWritten(job, ["video-agent"], false, now) == Err(NameError)
      && PdfAsWritten(job, ["video-agent"], false, now) == Err(NameError)
      && CsvLines(job, ["video-agent"], false, now) == [CsvHeader, "Video Enhancement,resolution,4K\n"]
  {
    var job := ProcessingJob("1", "clip.mp4", "video/mp4", Completed, 100, [],
                             [("video-agent", JObj([("resolution", JStr("4K"))]))], None);
    var agents := ["video-agent"];
    assert agents[..0] == [];
    var v := Get(job.results, "video-agent");
    assert v == Some(JObj([("resolution", JStr("4K"))]));
    assert Truthy(v);
    assert Entries(v.value) == Some([("resolution", JStr("4K"))]);
    assert Selection(job.results, agents, CsvAgentLines) == CsvAgentLines("video-agent", [("resolution", JStr("4K"))]);
    var metrics: Dict := [("resolution", JStr("4K"))];
    assert metrics[1..] == [];
    assert JsString(metrics[0].1) == "4K";
    assert CsvAgentLines("video-agent", metrics) == [AgentName("video-agent") + "," + "resolution" + "," + "4K" + "\n"];
    assert AgentName("video-agent") + "," + "resolution" + "," + "4K" + "\n" == "Video Enhancement,resolution,4K\n";
    assert MetricTotal(job.results, agents) == 1;
    assert PresentCount(job.results, agents) == 1;
  }

  // ---------------------------------------------------------------------------
  // ZIP text and handleDownload

  /** The listing in front of the JSON text of the ZIP download. */
  const ZipListing: seq<string> := ["ZIP Archive Contents:\n\n", "Files included:\n", "- results.json\n",
                                    "- results.csv\n", "- results.xml\n", "- report.pdf\n\n", "JSON Content:\n"]

  /** What a download holds: text, a JSON value (its serialisation by
      `JSON.stringify` is not modelled), or the ZIP text made of the listing
      and a JSON value. */
  datatype DownloadData = TextData(text: string) | JsonData(value: Json) | ZipData(listing: string, value: Json)

  /** generateZIPDownload: the listing, then the JSON export of the same
      selection and flag. */
  method GenerateZip(job: ProcessingJob, agents: seq<string>, metadata: bool, now: string) returns (zip: DownloadData)
    ensures zip.ZipData? && zip.listing == Concat(ZipListing)
    ensures zip.value == JsonExport(job, agents, metadata, now)
  {
    var listing := AppendLines("", ZipListing);
    var json := GenerateJson(job, agents, metadata, now);
    zip := ZipData(listing, json);
  }

  /** What a download does: a file saved under a name with a MIME type, or
      the error that the catch turns into the "Download failed" alert. */
  datatype Outcome = Saved(fileName: string, mimeType: string, data: DownloadData) | Thrown(error: string)

  /** The download of the dialog's current choice. `now` is the ISO
      timestamp, `localNow` the locale one. */
  function DownloadOutcome(job: ProcessingJob, d: Dialog, now: string, localNow: string): Outcome {
    var stem := Stem(job.fileName);
    var agents, metadata := d.selectedAgents, d.includeMetadata;
    match d.selectedFormat
    case "json" => Saved(stem + "_results.json", "application/json", JsonData(JsonExport(job, agents, metadata, now)))
    case "csv" => Saved(stem + "_results.csv", "text/csv", TextData(Concat(CsvLines(job, agents, metadata, now))))
    case "xml" => Saved(stem + "_results.xml", "application/xml", TextData(Concat(XmlLines(job, agents, metadata, now))))
    case "pdf" => Saved(stem + "_report.pdf", "application/pdf", TextData(Concat(PdfLines(job, agents, metadata, localNow))))
    case "zip" => Saved(stem + "_complete.zip", "application/zip", ZipData(Concat(ZipListing), JsonExport(job, agents, metadata, now)))
    case _ => Thrown("Unsupported format")
  }

  /** The suffix a format gives the download's name. */
  function Suffix(format: string): string {
    match format
    case "json" => "_results.json"
    case "csv" => "_results.csv"
    case "xml" => "_results.xml"
    case "pdf" => "_report.pdf"
    case _ => "_complete.zip"
  }

  /** A download succeeds exactly for the five offered formats and is named
      after the part of the file name before its first '.'; any other
      format fails with "Unsupported format". */
  lemma DownloadNames(job: ProcessingJob, d: Dialog, now: string, localNow: string)
    ensures var outcome := DownloadOutcome(job, d, now, localNow);
      && (outcome.Saved? <==> d.selectedFormat in Formats)
      && (outcome.Saved? ==> outcome.fileName == Stem(job.fileName) + Suffix(d.selectedFormat))
      && (outcome.Thrown? ==> outcome.error == "Unsupported format")
  {
  }

  /** handleDownload: the chosen export built, named by the format switch;
      the busy flag is set for the run and cleared at the end. */
  method HandleDownload(job: ProcessingJob, d: Dialog, now: string, localNow: string) returns (d': Dialog, outcome: Outcome)
    ensures d' == d.(isDownloading := false)
    ensures outcome == DownloadOutcome(job, d, now, localNow)
  {
    d' := d.(isDownloading := true);
    var stem := Stem(job.fileName);
    var agents, metadata := d.selectedAgents, d.includeMetadata;
    match d.selectedFormat {
      case "json" =>
        var json := GenerateJson(job, agents, metadata, now);
        outcome := Saved(stem + "_results.json", "application/json", JsonData(json));
      case "csv" =>
        var csv := GenerateCsv(job, agents, metadata, now);
        outcome := Saved(stem + "_results.csv", "text/csv", TextData(csv));
      case "xml" =>
        var xml := GenerateXml(job, agents, metadata, now);
        outcome := Saved(stem + "_results.xml", "application/xml", TextData(xml));
      case "pdf" =>
        var pdf := GeneratePdf(job, agents, metadata, localNow);
        outcome := Saved(stem + "_report.pdf", "application/pdf", TextData(pdf));
      case "zip" =>
        var zip := GenerateZip(job, agents, metadata, now);
        outcome := Saved(stem + "_complete.zip", "application/zip", zip);
      case _ =>
        outcome := Thrown("Unsupported format");
    }
    d' := d'.(isDownloading := false);
  }
}
