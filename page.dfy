/** The client page of app/page.tsx: the agent cards, the job list and the
    message log held in React state, and the simulated pipeline run that
    startProcessing drives when a file is uploaded.

    The React state is the class `Home` at the end; each `setX(prev => ...)`
    updater is a function from the previous value to the next, and every
    state change of the page is first written as a function from one `State`
    to the next.  What comes from `Math.random()`, the clock or the delays is
    not part of the state: the drawn job id arrives with the file in an
    `Upload`, messages carry no id and no timestamp, and what
    generateAgentResults returns for an agent, or the error it throws, is
    given by a function `produce`. */
module Page {
  import opened Wrappers
  import opened Dicts
  import opened Text
  import opened Jobs

  /** The order in which startProcessing runs the agents. */
  const AgentOrder: seq<string> := ["metadata-agent", "video-agent", "audio-agent", "storyboard-agent"]

  /** addCommunicationMessage keeps the newest MessageLimit messages. */
  const MessageLimit: nat := 50

  /** The inner loop's progress values 0, 20, ..., 100: six ticks. */
  const TickCount: nat := 6

  datatype AgentStatus = AgentIdle | AgentProcessing | AgentCompleted | AgentError

  /** An agent card; `kind` is the agent's `type`. */
  datatype Agent = Agent(id: string, name: string, kind: string, status: AgentStatus, progress: int,
                         lastMessage: string, capabilities: seq<string>)

  datatype MessageKind = Request | Response | Notification

  /** A CommunicationMessage without its random id and its timestamp. */
  datatype Message = Message(from: string, to: string, kind: MessageKind, payload: Json, protocol: string)

  /** The uploaded file and the id drawn for its job. */
  datatype Upload = Upload(jobId: string, fileName: string, fileType: string, fileSize: int)

  /** The changes startProcessing makes to its job, each through `setJobs`. */
  datatype JobUpdate = SetProgress(progress: int) | AddResult(agentId: string, value: Json) | MarkCompleted | MarkFailed

  /** The page's React state. */
  datatype State = State(agents: seq<Agent>, jobs: seq<ProcessingJob>, messages: seq<Message>, isProcessing: bool)

  /** What generateAgentResults gives for an agent: its results, or the
      message of the Error it throws. */
  type Producer = string -> Result<Json, string>

  // ---------------------------------------------------------------------------
  // Initial state

  function InitialAgents(): seq<Agent> {
    [Agent("video-agent", "Video Enhancement Agent", "video", AgentIdle, 0, "Ready for video processing",
           ["Noise Reduction", "Upscaling", "Color Correction", "Scene Detection"]),
     Agent("audio-agent", "Audio Optimization Agent", "audio", AgentIdle, 0, "Audio processing ready",
           ["Noise Reduction", "Enhancement", "Music Generation", "Speech-to-Text"]),
     Agent("storyboard-agent", "Storyboard Generation Agent", "storyboard", AgentIdle, 0, "Storyboard analysis ready",
           ["Scene Analysis", "Key Frame Extraction", "Visual Composition", "Timeline Generation"]),
     Agent("metadata-agent", "Metadata Extraction Agent", "metadata", AgentIdle, 0, "Metadata extraction ready",
           ["OCR", "Object Detection", "Tag Generation", "Content Analysis"])]
  }

  function InitialState(): State {
    State(InitialAgents(), [], [], false)
  }

  /** Whether `agents.find` finds an agent with this id. */
  predicate HasAgent(roster: seq<Agent>, agentId: string) {
    exists k :: 0 <= k < |roster| && roster[k].id == agentId
  }

  // ---------------------------------------------------------------------------
  // The state updaters

  /** `.slice(0, MessageLimit)`. */
  function KeepNewest(log: seq<Message>): seq<Message> {
    if |log| > MessageLimit then log[..MessageLimit] else log
  }

  /** The updater of addCommunicationMessage. */
  function Logged(prev: seq<Message>, m: Message): seq<Message> {
    KeepNewest([m] + prev)
  }

  /** One card under the updater of updateAgentStatus. */
  function Touched(a: Agent, agentId: string, status: AgentStatus, progress: int, message: string): Agent {
    if a.id == agentId then a.(status := status, progress := progress, lastMessage := message) else a
  }

  /** The updater of updateAgentStatus. */
  function SetAgent(prev: seq<Agent>, agentId: string, status: AgentStatus, progress: int, message: string): seq<Agent> {
    seq(|prev|, k requires 0 <= k < |prev| => Touched(prev[k], agentId, status, progress, message))
  }

  /** The updater that puts every card in one status with progress 0. */
  function SetAll(prev: seq<Agent>, status: AgentStatus, message: string): seq<Agent> {
    seq(|prev|, k requires 0 <= k < |prev| => prev[k].(status := status, progress := 0, lastMessage := message))
  }

  /** A job after one of startProcessing's changes; results are merged with
      object spread, which is `Put`. */
  function Apply(j: ProcessingJob, u: JobUpdate): ProcessingJob {
    match u
    case SetProgress(p) => j.(progress := p)
    case AddResult(agentId, v) => j.(results := Put(j.results, agentId, v))
    case MarkCompleted => j.(status := Completed, progress := 100)
    case MarkFailed => j.(status := Failed, progress := 0)
  }

  function Revised(j: ProcessingJob, jobId: string, u: JobUpdate): ProcessingJob {
    if j.id == jobId then Apply(j, u) else j
  }

  /** The `setJobs(prev => prev.map(...))` updaters of startProcessing. */
  function MapJob(prev: seq<ProcessingJob>, jobId: string, u: JobUpdate): seq<ProcessingJob> {
    seq(|prev|, k requires 0 <= k < |prev| => Revised(prev[k], jobId, u))
  }

  /** The job startProcessing creates; the base64 file data is not modelled. */
  function NewJob(u: Upload): ProcessingJob {
    ProcessingJob(u.jobId, u.fileName, u.fileType, Queued, 0, AgentOrder, [], Some(u.fileSize))
  }

  // ---------------------------------------------------------------------------
  // Card texts and message payloads (timestamps and random times left out)

  function WorkingText(fileName: string): string { "Processing " + fileName }

  function TickText(fileName: string, progress: int): string {
    "Processing " + fileName + " - " + IntToString(progress) + "%"
  }

  function DoneText(fileName: string): string { "Completed processing " + fileName }

  function ErrorText(fileName: string): string { "Error processing " + fileName }

  const ReadyText: string := "Ready for next task"

  /** The `dependencies` of the request to the i-th agent of the order. */
  function Prerequisites(i: nat): seq<Json>
    requires i < |AgentOrder|
  {
    if i > 0 then [JStr(AgentOrder[i - 1])] else []
  }

  function StartNote(u: Upload): Json {
    JObj([("action", JStr("pipeline_start")), ("jobId", JStr(u.jobId)), ("fileName", JStr(u.fileName)),
          ("protocol", JStr("A2A"))])
  }

  function RequestBody(u: Upload, i: nat): Json
    requires i < |AgentOrder|
  {
    JObj([("action", JStr("process")), ("jobId", JStr(u.jobId)), ("fileName", JStr(u.fileName)),
          ("fileType", JStr(u.fileType)), ("dependencies", JArr(Prerequisites(i)))])
  }

  function ResponseBody(u: Upload, results: Json): Json {
    JObj([("action", JStr("process_complete")), ("jobId", JStr(u.jobId)), ("results", results)])
  }

  function CompleteNote(u: Upload): Json {
    JObj([("action", JStr("pipeline_complete")), ("jobId", JStr(u.jobId)), ("agentsCompleted", JNum(|AgentOrder|))])
  }

  function ErrorNote(u: Upload, error: string): Json {
    JObj([("action", JStr("pipeline_error")), ("jobId", JStr(u.jobId)), ("error", JStr(error))])
  }

  function Sent(from: string, to: string, kind: MessageKind, payload: Json): Message {
    Message(from, to, kind, payload, "A2A")
  }

  // ---------------------------------------------------------------------------
  // State transitions

  function AfterMessage(s: State, from: string, to: string, kind: MessageKind, payload: Json): State {
    s.(messages := Logged(s.messages, Sent(from, to, kind, payload)))
  }

  function AfterAgentUpdate(s: State, agentId: string, status: AgentStatus, progress: int, message: string): State {
    s.(agents := SetAgent(s.agents, agentId, status, progress, message))
  }

  function AfterJobUpdate(s: State, jobId: string, u: JobUpdate): State {
    s.(jobs := MapJob(s.jobs, jobId, u))
  }

  /** The timer set at the end of startProcessing. */
  function AfterReset(s: State): State {
    s.(agents := SetAll(s.agents, AgentIdle, ReadyText))
  }

  /** Job creation and the pipeline_start notification. */
  function Launched(s: State, u: Upload): State {
    AfterMessage(s.(jobs := [NewJob(u)] + s.jobs, isProcessing := true),
                 "orchestrator", "all-agents", Notification, StartNote(u))
  }

  /** The start of the i-th agent's step: its card turns to processing and
      it is sent its request. */
  function Begin(s: State, u: Upload, i: nat): State
    requires i < |AgentOrder|
  {
    AfterMessage(AfterAgentUpdate(s, AgentOrder[i], AgentProcessing, 0, WorkingText(u.fileName)),
                 "orchestrator", AgentOrder[i], Request, RequestBody(u, i))
  }

  /** A tick of the i-th agent's progress loop at `progress`: its card, then
      the job's progress (i·100 + progress) divided by the number of agents,
      4.  Each tick overwrites both, so after the loop it is as if only the
      last one, at 100, had run. */
  function Ticked(s: State, u: Upload, i: nat, progress: int): State
    requires i < |AgentOrder|
  {
    AfterJobUpdate(AfterAgentUpdate(s, AgentOrder[i], AgentProcessing, progress, TickText(u.fileName, progress)),
                   u.jobId, SetProgress((i * 100 + progress) / 4))
  }

  /** The i-th agent's step up to its call of generateAgentResults. */
  function Worked(s: State, u: Upload, i: nat): State
    requires i < |AgentOrder|
  {
    Ticked(Begin(s, u, i), u, i, 100)
  }

  /** The rest of the i-th agent's step once it has produced `v`. */
  function Finish(s: State, u: Upload, i: nat, v: Json): State
    requires i < |AgentOrder|
  {
    var agentId := AgentOrder[i];
    AfterJobUpdate(AfterMessage(AfterAgentUpdate(s, agentId, AgentCompleted, 100, DoneText(u.fileName)),
                                agentId, "orchestrator", Response, ResponseBody(u, v)),
                   u.jobId, AddResult(agentId, v))
  }

  /** After the loop, when nothing threw. */
  function Completion(s: State, u: Upload): State {
    AfterMessage(AfterJobUpdate(s, u.jobId, MarkCompleted), "orchestrator", "all-agents", Notification, CompleteNote(u))
  }

  /** The catch block. */
  function Failure(s: State, u: Upload, error: string): State {
    var s1 := AfterMessage(AfterJobUpdate(s, u.jobId, MarkFailed),
                           "orchestrator", "all-agents", Notification, ErrorNote(u, error));
    s1.(agents := SetAll(s1.agents, AgentError, ErrorText(u.fileName)))
  }

  /** The loop from the i-th agent on, then the completion or the catch;
      `roster` is the agent list the page had when the upload started. */
  function RunFrom(s: State, u: Upload, roster: seq<Agent>, produce: Producer, i: nat): State
    decreases |AgentOrder| - i
  {
    if i >= |AgentOrder| then Completion(s, u)
    else if !HasAgent(roster, AgentOrder[i]) then RunFrom(s, u, roster, produce, i + 1)
    else match produce(AgentOrder[i])
      case Err(error) => Failure(Worked(s, u, i), u, error)
      case Ok(v) => RunFrom(Finish(Worked(s, u, i), u, i, v), u, roster, produce, i + 1)
  }

  /** One step of RunFrom for an agent with a card. */
  lemma RunFromStep(s: State, u: Upload, roster: seq<Agent>, produce: Producer, i: nat)
    requires i < |AgentOrder| && HasAgent(roster, AgentOrder[i])
    ensures RunFrom(s, u, roster, produce, i) == match produce(AgentOrder[i])
      case Err(error) => Failure(Worked(s, u, i), u, error)
      case Ok(v) => RunFrom(Finish(Worked(s, u, i), u, i, v), u, roster, produce, i + 1)
  { }

  /** startProcessing, up to the timer it sets. */
  function AfterProcessing(s: State, u: Upload, produce: Producer): State {
    RunFrom(Launched(s, u), u, s.agents, produce, 0).(isProcessing := false)
  }

  // ---------------------------------------------------------------------------
  // Reference definitions of what a run does

  /** Whether some step from the i-th agent on throws. */
  predicate Fails(roster: seq<Agent>, produce: Producer, i: nat)
    decreases |AgentOrder| - i
  {
    if i >= |AgentOrder| then false
    else if !HasAgent(roster, AgentOrder[i]) then Fails(roster, produce, i + 1)
    else produce(AgentOrder[i]).Err? || Fails(roster, produce, i + 1)
  }

  /** The agents, from the i-th on, whose results reach the job. */
  function Collected(roster: seq<Agent>, produce: Producer, i: nat): seq<string>
    decreases |AgentOrder| - i
  {
    if i >= |AgentOrder| then []
    else if !HasAgent(roster, AgentOrder[i]) then Collected(roster, produce, i + 1)
    else if produce(AgentOrder[i]).Err? then []
    else [AgentOrder[i]] + Collected(roster, produce, i + 1)
  }

  /** The job's results after the steps from the i-th agent on. */
  function Merged(r: Dict, roster: seq<Agent>, produce: Producer, i: nat): Dict
    decreases |AgentOrder| - i
  {
    if i >= |AgentOrder| then r
    else if !HasAgent(roster, AgentOrder[i]) then Merged(r, roster, produce, i + 1)
    else match produce(AgentOrder[i])
      case Err(_) => r
      case Ok(v) => Merged(Put(r, AgentOrder[i], v), roster, produce, i + 1)
  }

  /** The messages sent from the i-th agent on, oldest first. */
  function SentFrom(u: Upload, roster: seq<Agent>, produce: Producer, i: nat): seq<Message>
    decreases |AgentOrder| - i
  {
    if i >= |AgentOrder| then [Sent("orchestrator", "all-agents", Notification, CompleteNote(u))]
    else if !HasAgent(roster, AgentOrder[i]) then SentFrom(u, roster, produce, i + 1)
    else
      var request := Sent("orchestrator", AgentOrder[i], Request, RequestBody(u, i));
      match produce(AgentOrder[i])
      case Err(error) => [request, Sent("orchestrator", "all-agents", Notification, ErrorNote(u, error))]
      case Ok(v) => [request, Sent(AgentOrder[i], "orchestrator", Response, ResponseBody(u, v))] + SentFrom(u, roster, produce, i + 1)
  }

  /** Messages logged one after the other. */
  function LogAll(prev: seq<Message>, ms: seq<Message>): seq<Message>
    decreases |ms|
  {
    if ms == [] then prev else LogAll(Logged(prev, ms[0]), ms[1..])
  }

  /** The progress values the i-th agent's ticks write into the job. */
  function StepTrace(i: nat): seq<int> {
    seq(TickCount, k requires 0 <= k < TickCount => (i * 100 + 20 * k) / 4)
  }

  /** The progress values written into the job from the i-th agent on. */
  function ProgressTrace(roster: seq<Agent>, produce: Producer, i: nat): seq<int>
    decreases |AgentOrder| - i
  {
    if i >= |AgentOrder| then []
    else if !HasAgent(roster, AgentOrder[i]) then ProgressTrace(roster, produce, i + 1)
    else StepTrace(i) + (if produce(AgentOrder[i]).Err? then [] else ProgressTrace(roster, produce, i + 1))
  }

  /** One step of ProgressTrace for an agent with a card. */
  lemma ProgressTraceStep(roster: seq<Agent>, produce: Producer, i: nat)
    requires i < |AgentOrder| && HasAgent(roster, AgentOrder[i])
    ensures ProgressTrace(roster, produce, i) == StepTrace(i) + (if produce(AgentOrder[i]).Err? then [] else ProgressTrace(roster, produce, i + 1))
  { }

  // ---------------------------------------------------------------------------
  // The updaters

  /** The initial cards: the four agents, idle at progress 0; every agent of
      the processing order has a card. */
  lemma InitialRoster()
    ensures |InitialAgents()| == 4
    ensures forall k :: 0 <= k < 4 ==> InitialAgents()[k].status == AgentIdle && InitialAgents()[k].progress == 0
    ensures forall k :: 0 <= k < 4 ==> InitialAgents()[k].id in AgentOrder
    ensures forall i :: 0 <= i < |AgentOrder| ==> HasAgent(InitialAgents(), AgentOrder[i])
  {
    var r := InitialAgents();
    assert r[0].id == AgentOrder[1] && r[1].id == AgentOrder[2] && r[2].id == AgentOrder[3] && r[3].id == AgentOrder[0];
  }

  /** The new message comes first, the older ones follow in their order, and
      at most MessageLimit are kept. */
  lemma LoggedSpec(prev: seq<Message>, m: Message)
    ensures var r := Logged(prev, m);
      && |r| == (if |prev| < MessageLimit then |prev| + 1 else MessageLimit)
      && r[0] == m
      && r[1..] == prev[..|r| - 1]
  {
    var r := Logged(prev, m);
    assert r[1..] == prev[..|r| - 1];
  }

  /** Only the card with the given id changes, in status, progress and last
      message; the list keeps its length, ids and order. */
  lemma UpdateAgentSpec(prev: seq<Agent>, agentId: string, status: AgentStatus, progress: int, message: string)
    ensures var r := SetAgent(prev, agentId, status, progress, message);
      && |r| == |prev|
      && forall k :: 0 <= k < |r| ==>
           && r[k].id == prev[k].id
           && (prev[k].id != agentId ==> r[k] == prev[k])
           && (prev[k].id == agentId ==> r[k].status == status && r[k].progress == progress && r[k].lastMessage == message
                                         && r[k].name == prev[k].name && r[k].capabilities == prev[k].capabilities)
  { }

  /** Every card gets the status, progress 0 and the message; nothing else
      changes. */
  lemma SetAllSpec(prev: seq<Agent>, status: AgentStatus, message: string)
    ensures var r := SetAll(prev, status, message);
      && |r| == |prev|
      && forall k :: 0 <= k < |r| ==>
           r[k].status == status && r[k].progress == 0 && r[k].lastMessage == message
           && r[k].id == prev[k].id && r[k].name == prev[k].name && r[k].kind == prev[k].kind
           && r[k].capabilities == prev[k].capabilities
  { }

  /** Only jobs with the given id change; the list keeps its length, ids
      and order. */
  lemma MapJobSpec(prev: seq<ProcessingJob>, jobId: string, u: JobUpdate)
    ensures var r := MapJob(prev, jobId, u);
      && |r| == |prev|
      && forall k :: 0 <= k < |r| ==> r[k].id == prev[k].id && (prev[k].id != jobId ==> r[k] == prev[k])
  { }

  /** The job's results gain exactly the agent's key, at the end when it is
      new, hold the agent's results under it and keep every other key. */
  lemma ResultStep(j: ProcessingJob, agentId: string, v: Json)
    ensures var r := Apply(j, AddResult(agentId, v)).results;
      && Keys(r) == (if agentId in Keys(j.results) then Keys(j.results) else Keys(j.results) + [agentId])
      && Get(r, agentId) == Some(v)
      && forall k :: k != agentId ==> Get(r, k) == Get(j.results, k)
  {
    PutSpec(j.results, agentId, v);
  }

  /** A new job goes first, "queued" at progress 0 with no results and the
      four agents; the older jobs follow unchanged and the pipeline_start
      notification is the newest message. */
  lemma LaunchedSpec(s: State, u: Upload)
    ensures var s' := Launched(s, u);
      && s'.jobs[0].id == u.jobId && s'.jobs[0].status == Queued && s'.jobs[0].progress == 0
      && s'.jobs[0].results == [] && s'.jobs[0].agents == AgentOrder
      && s'.jobs[1..] == s.jobs
      && s'.isProcessing && s'.agents == s.agents
      && s'.messages[0] == Sent("orchestrator", "all-agents", Notification, StartNote(u))
  {
    var s' := Launched(s, u);
    assert s'.jobs[1..] == s.jobs;
  }

  /** The request to the first agent lists no dependency, and the request to
      every later agent lists exactly the agent before it. */
  lemma RequestDependencies(u: Upload, i: nat)
    requires i < |AgentOrder|
    ensures var deps := Get(RequestBody(u, i).fields, "dependencies");
      && (i == 0 ==> deps == Some(JArr([])))
      && (i > 0 ==> deps == Some(JArr([JStr(AgentOrder[i - 1])])))
  {
    var f := RequestBody(u, i).fields;
    var d := ("dependencies", JArr(Prerequisites(i)));
    assert f == [f[0]] + ([f[1]] + ([f[2]] + ([f[3]] + [d])));
    GetCons(f[0], [f[1]] + ([f[2]] + ([f[3]] + [d])), "dependencies");
    GetCons(f[1], [f[2]] + ([f[3]] + [d]), "dependencies");
    GetCons(f[2], [f[3]] + [d], "dependencies");
    GetCons(f[3], [d], "dependencies");
  }

  // ---------------------------------------------------------------------------
  // Step lemmas

  lemma SetAgentTwice(prev: seq<Agent>, agentId: string, s1: AgentStatus, p1: int, m1: string,
                      s2: AgentStatus, p2: int, m2: string)
    ensures SetAgent(SetAgent(prev, agentId, s1, p1, m1), agentId, s2, p2, m2) == SetAgent(prev, agentId, s2, p2, m2)
  {
    var a := SetAgent(SetAgent(prev, agentId, s1, p1, m1), agentId, s2, p2, m2);
    var b := SetAgent(prev, agentId, s2, p2, m2);
    assert forall k :: 0 <= k < |prev| ==> a[k] == b[k];
  }

  lemma MapJobProgressTwice(prev: seq<ProcessingJob>, jobId: string, p1: int, p2: int)
    ensures MapJob(MapJob(prev, jobId, SetProgress(p1)), jobId, SetProgress(p2)) == MapJob(prev, jobId, SetProgress(p2))
  {
    var a := MapJob(MapJob(prev, jobId, SetProgress(p1)), jobId, SetProgress(p2));
    var b := MapJob(prev, jobId, SetProgress(p2));
    assert forall k :: 0 <= k < |prev| ==> a[k] == b[k];
  }

  /** A tick overwrites the previous one. */
  lemma TickedTwice(s: State, u: Upload, i: nat, p: int, q: int)
    requires i < |AgentOrder|
    ensures Ticked(Ticked(s, u, i, p), u, i, q) == Ticked(s, u, i, q)
  {
    SetAgentTwice(s.agents, AgentOrder[i], AgentProcessing, p, TickText(u.fileName, p),
                  AgentProcessing, q, TickText(u.fileName, q));
    MapJobProgressTwice(s.jobs, u.jobId, (i * 100 + p) / 4, (i * 100 + q) / 4);
  }

  /** An agent's step up to generateAgentResults, field by field. */
  lemma WorkedForm(s: State, u: Upload, i: nat)
    requires i < |AgentOrder|
    ensures Worked(s, u, i) == s.(agents := SetAgent(s.agents, AgentOrder[i], AgentProcessing, 100, TickText(u.fileName, 100)),
                                  messages := Logged(s.messages, Sent("orchestrator", AgentOrder[i], Request, RequestBody(u, i))),
                                  jobs := MapJob(s.jobs, u.jobId, SetProgress(25 * i + 25)))
  {
    assert (i * 100 + 100) / 4 == 25 * i + 25;
    SetAgentTwice(s.agents, AgentOrder[i], AgentProcessing, 0, WorkingText(u.fileName),
                  AgentProcessing, 100, TickText(u.fileName, 100));
  }

  /** A successful agent step, field by field. */
  lemma FinishedForm(s: State, u: Upload, i: nat, v: Json)
    requires i < |AgentOrder|
    ensures var s' := Finish(Worked(s, u, i), u, i, v);
      && s'.agents == SetAgent(s.agents, AgentOrder[i], AgentCompleted, 100, DoneText(u.fileName))
      && s'.messages == Logged(Logged(s.messages, Sent("orchestrator", AgentOrder[i], Request, RequestBody(u, i))),
                               Sent(AgentOrder[i], "orchestrator", Response, ResponseBody(u, v)))
      && s'.jobs == MapJob(MapJob(s.jobs, u.jobId, SetProgress(25 * i + 25)), u.jobId, AddResult(AgentOrder[i], v))
      && s'.isProcessing == s.isProcessing
  {
    WorkedForm(s, u, i);
    SetAgentTwice(s.agents, AgentOrder[i], AgentProcessing, 100, TickText(u.fileName, 100),
                  AgentCompleted, 100, DoneText(u.fileName));
  }

  /** The four agents of the order are distinct. */
  lemma OrderDistinct()
    ensures forall a, b :: 0 <= a < b < |AgentOrder| ==> AgentOrder[a] != AgentOrder[b]
  {
    assert AgentOrder[1][0] == 'v' && AgentOrder[2][0] == 'a';
  }

  // ---------------------------------------------------------------------------
  // Properties of the reference definitions

  /** A run throws exactly when some agent with a card produces an error. */
  lemma {:induction false} FailsSpec(roster: seq<Agent>, produce: Producer, i: nat)
    ensures Fails(roster, produce, i) <==>
            exists k :: i <= k < |AgentOrder| && HasAgent(roster, AgentOrder[k]) && produce(AgentOrder[k]).Err?
    decreases |AgentOrder| - i
  {
    if i < |AgentOrder| {
      FailsSpec(roster, produce, i + 1);
      if HasAgent(roster, AgentOrder[i]) && produce(AgentOrder[i]).Err? {
        assert Fails(roster, produce, i);
      }
    }
  }

  /** The progress values written into a job lie between 25·i and 100 and
      never decrease; each is exact, (i·100 + progress) being a multiple of 4. */
  lemma {:induction false} ProgressTraceBounds(roster: seq<Agent>, produce: Producer, i: nat)
    ensures var t := ProgressTrace(roster, produce, i);
      && (forall a :: 0 <= a < |t| ==> 25 * i <= t[a] <= 100)
      && (forall a, b :: 0 <= a <= b < |t| ==> t[a] <= t[b])
    decreases |AgentOrder| - i
  {
    if i < |AgentOrder| {
      ProgressTraceBounds(roster, produce, i + 1);
      if HasAgent(roster, AgentOrder[i]) {
        StepTraceSpec(i);
        var t1 := StepTrace(i);
        var t2 := if produce(AgentOrder[i]).Err? then [] else ProgressTrace(roster, produce, i + 1);
        assert t1 + t2 == ProgressTrace(roster, produce, i);
        assert forall a :: 0 <= a < |t2| ==> 25 * (i + 1) <= t2[a];
        assert forall a :: 0 <= a < |t1| ==> t1[a] <= 25 * (i + 1);
        BoundedSortedConcat(t1, t2, 25 * i);
      }
    }
  }

  /** A bounded nondecreasing run followed by one that starts no lower is
      bounded and nondecreasing. */
  lemma BoundedSortedConcat(t1: seq<int>, t2: seq<int>, lo: int)
    requires forall a :: 0 <= a < |t1| ==> lo <= t1[a] <= 100
    requires forall a, b :: 0 <= a <= b < |t1| ==> t1[a] <= t1[b]
    requires forall a :: 0 <= a < |t2| ==> lo <= t2[a] <= 100
    requires forall a, b :: 0 <= a <= b < |t2| ==> t2[a] <= t2[b]
    requires forall a, b :: 0 <= a < |t1| && 0 <= b < |t2| ==> t1[a] <= t2[b]
    ensures forall a :: 0 <= a < |t1 + t2| ==> lo <= (t1 + t2)[a] <= 100
    ensures forall a, b :: 0 <= a <= b < |t1 + t2| ==> (t1 + t2)[a] <= (t1 + t2)[b]
  {
    var t := t1 + t2;
    forall a, b | 0 <= a <= b < |t| ensures t[a] <= t[b] {
      if b < |t1| {
      } else if a < |t1| {
        assert t[b] == t2[b - |t1|];
      } else {
        assert t[a] == t2[a - |t1|] && t[b] == t2[b - |t1|];
      }
    }
  }

  /** The six progress values of the i-th agent: (i·100 + 20·k) / 4 is the
      exact quotient 25·i + 5·k. */
  lemma Quarter(i: nat, k: nat)
    ensures (i * 100 + 20 * k) / 4 == 25 * i + 5 * k
  {
    assert i * 100 + 20 * k == 4 * (25 * i + 5 * k);
  }

  lemma StepTraceSpec(i: nat)
    ensures |StepTrace(i)| == TickCount
    ensures forall k :: 0 <= k < TickCount ==>
              StepTrace(i)[k] == 25 * i + 5 * k && 4 * StepTrace(i)[k] == i * 100 + 20 * k
  {
    forall k | 0 <= k < TickCount ensures StepTrace(i)[k] == 25 * i + 5 * k {
      assert i * 100 + 20 * k == 4 * (25 * i + 5 * k);
    }
  }

  /** A merged key is not touched again: later steps put other agents. */
  lemma {:induction false} MergedOther(r: Dict, roster: seq<Agent>, produce: Producer, i: nat, x: string)
    requires forall k :: i <= k < |AgentOrder| ==> AgentOrder[k] != x
    ensures Get(Merged(r, roster, produce, i), x) == Get(r, x)
    decreases |AgentOrder| - i
  {
    if i < |AgentOrder| && HasAgent(roster, AgentOrder[i]) && produce(AgentOrder[i]).Ok? {
      var v := produce(AgentOrder[i]).value;
      MergedOther(Put(r, AgentOrder[i], v), roster, produce, i + 1, x);
      PutGet(r, AgentOrder[i], v, x);
    } else if i < |AgentOrder| && !HasAgent(roster, AgentOrder[i]) {
      MergedOther(r, roster, produce, i + 1, x);
    }
  }

  /** The results gain one key per collected agent, in the processing order,
      after the keys they had. */
  lemma {:induction false} MergedKeys(r: Dict, roster: seq<Agent>, produce: Producer, i: nat)
    requires forall k :: i <= k < |AgentOrder| ==> AgentOrder[k] !in Keys(r)
    ensures Keys(Merged(r, roster, produce, i)) == Keys(r) + Collected(roster, produce, i)
    decreases |AgentOrder| - i
  {
    if i < |AgentOrder| && HasAgent(roster, AgentOrder[i]) && produce(AgentOrder[i]).Ok? {
      var a := AgentOrder[i];
      var v := produce(a).value;
      var r' := Put(r, a, v);
      PutNew(r, a, v);
      KeysAppend(r, a, v);
      assert Keys(r') == Keys(r) + [a];
      OrderDistinct();
      forall k | i + 1 <= k < |AgentOrder| ensures AgentOrder[k] !in Keys(r') {
        assert AgentOrder[k] != a;
      }
      MergedKeys(r', roster, produce, i + 1);
      assert Merged(r, roster, produce, i) == Merged(r', roster, produce, i + 1);
      assert Collected(roster, produce, i) == [a] + Collected(roster, produce, i + 1);
      ConcatAssoc(Keys(r), [a], Collected(roster, produce, i + 1));
    } else if i < |AgentOrder| && !HasAgent(roster, AgentOrder[i]) {
      MergedKeys(r, roster, produce, i + 1);
    }
  }

  /** Each collected agent produced results, and they are what the job holds
      under its id. */
  lemma {:induction false} MergedValues(r: Dict, roster: seq<Agent>, produce: Producer, i: nat)
    ensures forall x :: x in Collected(roster, produce, i) ==>
              produce(x).Ok? && Get(Merged(r, roster, produce, i), x) == Some(produce(x).value)
    decreases |AgentOrder| - i
  {
    if i < |AgentOrder| && HasAgent(roster, AgentOrder[i]) && produce(AgentOrder[i]).Ok? {
      var a := AgentOrder[i];
      var v := produce(a).value;
      MergedValues(Put(r, a, v), roster, produce, i + 1);
      OrderDistinct();
      MergedOther(Put(r, a, v), roster, produce, i + 1, a);
      PutGet(r, a, v, a);
    } else if i < |AgentOrder| && !HasAgent(roster, AgentOrder[i]) {
      MergedValues(r, roster, produce, i + 1);
    }
  }

  /** When every agent has a card and none throws, every agent is collected. */
  lemma {:induction false} CollectedAll(roster: seq<Agent>, produce: Producer, i: nat)
    requires i <= |AgentOrder|
    requires forall k :: i <= k < |AgentOrder| ==> HasAgent(roster, AgentOrder[k]) && produce(AgentOrder[k]).Ok?
    ensures Collected(roster, produce, i) == AgentOrder[i..]
    decreases |AgentOrder| - i
  {
    if i < |AgentOrder| {
      CollectedAll(roster, produce, i + 1);
      assert AgentOrder[i..] == [AgentOrder[i]] + AgentOrder[i + 1..];
    }
  }

  /** Two messages per collected agent, plus the request to and the
      notification of a throwing agent, or the completion notification. */
  lemma {:induction false} SentCount(u: Upload, roster: seq<Agent>, produce: Producer, i: nat)
    ensures |SentFrom(u, roster, produce, i)| == 2 * |Collected(roster, produce, i)| + (if Fails(roster, produce, i) then 2 else 1)
    decreases |AgentOrder| - i
  {
    if i < |AgentOrder| {
      SentCount(u, roster, produce, i + 1);
    }
  }

  lemma KeepNewestAppend(x: seq<Message>, y: seq<Message>)
    ensures KeepNewest(x + KeepNewest(y)) == KeepNewest(x + y)
  {
    if |y| > MessageLimit {
      var a := KeepNewest(x + y[..MessageLimit]);
      var b := KeepNewest(x + y);
      assert |a| == MessageLimit && |b| == MessageLimit;
      forall j | 0 <= j < MessageLimit ensures a[j] == b[j] {
        if j >= |x| {
          assert a[j] == y[j - |x|];
        }
      }
    }
  }

  /** Logging messages one by one puts them newest first before the older
      ones and keeps the newest MessageLimit. */
  lemma {:induction false} LogAllSpec(prev: seq<Message>, ms: seq<Message>)
    requires ms != []
    ensures LogAll(prev, ms) == KeepNewest(Reverse(ms) + prev)
    decreases |ms|
  {
    var m := ms[0];
    var rest := ms[1..];
    assert Reverse(ms) == Reverse(rest) + [m];
    if rest == [] {
      assert LogAll(Logged(prev, m), rest) == Logged(prev, m);
    } else {
      LogAllSpec(Logged(prev, m), rest);
      KeepNewestAppend(Reverse(rest), [m] + prev);
      assert Reverse(rest) + ([m] + prev) == Reverse(ms) + prev;
    }
  }

  // ---------------------------------------------------------------------------
  // What a run does to the state

  /** The run changes the jobs with the upload's id only: each ends
      "completed" at 100, or "error" at 0 if a step throws, holding its
      results merged with those collected. */
  lemma {:induction false} RunJobs(s: State, u: Upload, roster: seq<Agent>, produce: Producer, i: nat)
    ensures var r := RunFrom(s, u, roster, produce, i).jobs;
      var failed := Fails(roster, produce, i);
      && |r| == |s.jobs|
      && forall k :: 0 <= k < |s.jobs| ==>
           r[k] == if s.jobs[k].id == u.jobId
                   then s.jobs[k].(status := if failed then Failed else Completed, progress := if failed then 0 else 100,
                                   results := Merged(s.jobs[k].results, roster, produce, i))
                   else s.jobs[k]
    decreases |AgentOrder| - i
  {
    if i < |AgentOrder| {
      var a := AgentOrder[i];
      if !HasAgent(roster, a) {
        RunJobs(s, u, roster, produce, i + 1);
      } else {
        WorkedForm(s, u, i);
        match produce(a) {
          case Err(e) =>
          case Ok(v) =>
            FinishedForm(s, u, i, v);
            RunJobs(Finish(Worked(s, u, i), u, i, v), u, roster, produce, i + 1);
        }
      }
    }
  }

  /** If a step throws, every card ends in error; otherwise exactly the
      cards of the agents run from the i-th on end completed. */
  lemma {:induction false} RunAgents(s: State, u: Upload, roster: seq<Agent>, produce: Producer, i: nat)
    requires i <= |AgentOrder|
    ensures var r := RunFrom(s, u, roster, produce, i).agents;
      && |r| == |s.agents|
      && forall k :: 0 <= k < |s.agents| ==>
           r[k] == if Fails(roster, produce, i)
                   then s.agents[k].(status := AgentError, progress := 0, lastMessage := ErrorText(u.fileName))
                   else if s.agents[k].id in AgentOrder[i..] && HasAgent(roster, s.agents[k].id)
                   then s.agents[k].(status := AgentCompleted, progress := 100, lastMessage := DoneText(u.fileName))
                   else s.agents[k]
    decreases |AgentOrder| - i
  {
    if i < |AgentOrder| {
      var a := AgentOrder[i];
      assert AgentOrder[i..] == [a] + AgentOrder[i + 1..];
      if !HasAgent(roster, a) {
        RunAgents(s, u, roster, produce, i + 1);
      } else {
        WorkedForm(s, u, i);
        match produce(a) {
          case Err(e) =>
          case Ok(v) =>
            FinishedForm(s, u, i, v);
            OrderDistinct();
            assert a !in AgentOrder[i + 1..];
            RunAgents(Finish(Worked(s, u, i), u, i, v), u, roster, produce, i + 1);
        }
      }
    }
  }

  /** The run logs the messages it sends one by one. */
  lemma {:induction false} RunMessages(s: State, u: Upload, roster: seq<Agent>, produce: Producer, i: nat)
    ensures RunFrom(s, u, roster, produce, i).messages == LogAll(s.messages, SentFrom(u, roster, produce, i))
    decreases |AgentOrder| - i
  {
    if i >= |AgentOrder| {
      var m := Sent("orchestrator", "all-agents", Notification, CompleteNote(u));
      assert LogAll(Logged(s.messages, m), []) == Logged(s.messages, m);
    } else {
      var a := AgentOrder[i];
      if !HasAgent(roster, a) {
        RunMessages(s, u, roster, produce, i + 1);
      } else {
        WorkedForm(s, u, i);
        var request := Sent("orchestrator", a, Request, RequestBody(u, i));
        match produce(a) {
          case Err(e) =>
            var note := Sent("orchestrator", "all-agents", Notification, ErrorNote(u, e));
            var logged := Logged(s.messages, request);
            assert [request, note][1..] == [note] && [note][1..] == [];
            assert LogAll(Logged(logged, note), []) == Logged(logged, note);
            assert LogAll(logged, [note]) == Logged(logged, note);
            assert LogAll(s.messages, [request, note]) == LogAll(logged, [note]);
            assert SentFrom(u, roster, produce, i) == [request, note];
          case Ok(v) =>
            FinishedForm(s, u, i, v);
            RunMessages(Finish(Worked(s, u, i), u, i, v), u, roster, produce, i + 1);
            var reply := Sent(a, "orchestrator", Response, ResponseBody(u, v));
            var more := SentFrom(u, roster, produce, i + 1);
            assert ([request, reply] + more)[1..] == [reply] + more;
            assert ([reply] + more)[1..] == more;
        }
      }
    }
  }

  /** The job list after startProcessing: the new job first, "completed" at
      100, or "error" at 0 when a step throws, holding the collected
      results; every older job with another id is unchanged. */
  lemma ProcessingJobs(s: State, u: Upload, produce: Producer)
    ensures var s' := AfterProcessing(s, u, produce);
      var failed := Fails(s.agents, produce, 0);
      && |s'.jobs| == |s.jobs| + 1
      && s'.jobs[0].id == u.jobId && s'.jobs[0].agents == AgentOrder
      && s'.jobs[0].status == (if failed then Failed else Completed)
      && s'.jobs[0].progress == (if failed then 0 else 100)
      && s'.jobs[0].results == Merged([], s.agents, produce, 0)
      && (forall k :: 0 <= k < |s.jobs| && s.jobs[k].id != u.jobId ==> s'.jobs[k + 1] == s.jobs[k])
      && !s'.isProcessing
  {
    var l := Launched(s, u);
    LaunchedSpec(s, u);
    RunJobs(l, u, s.agents, produce, 0);
    assert forall k :: 0 <= k < |s.jobs| ==> l.jobs[k + 1] == s.jobs[k];
  }

  /** The new job's results: one key per collected agent, in the processing
      order, each holding what that agent produced. */
  lemma ProcessingResults(roster: seq<Agent>, produce: Producer)
    ensures var results := Merged([], roster, produce, 0);
      && Keys(results) == Collected(roster, produce, 0)
      && forall x :: x in Collected(roster, produce, 0) ==> Get(results, x) == Some(produce(x).value)
  {
    MergedKeys([], roster, produce, 0);
    MergedValues([], roster, produce, 0);
  }

  /** The cards after startProcessing: all in error when a step throws;
      otherwise each card of an agent of the order completed, the others
      unchanged. */
  lemma ProcessingAgents(s: State, u: Upload, produce: Producer)
    ensures var s' := AfterProcessing(s, u, produce);
      && |s'.agents| == |s.agents|
      && forall k :: 0 <= k < |s.agents| ==>
           s'.agents[k] == if Fails(s.agents, produce, 0)
                           then s.agents[k].(status := AgentError, progress := 0, lastMessage := ErrorText(u.fileName))
                           else if s.agents[k].id in AgentOrder
                           then s.agents[k].(status := AgentCompleted, progress := 100, lastMessage := DoneText(u.fileName))
                           else s.agents[k]
  {
    RunAgents(Launched(s, u), u, s.agents, produce, 0);
    assert AgentOrder[0..] == AgentOrder;
    forall k | 0 <= k < |s.agents| ensures HasAgent(s.agents, s.agents[k].id) { }
  }

  /** The messages of startProcessing, newest first before the older ones,
      at most MessageLimit: pipeline_start, two per collected agent, and the
      closing notification (with the request to a throwing agent first). */
  lemma ProcessingMessages(s: State, u: Upload, produce: Producer)
    ensures var s' := AfterProcessing(s, u, produce);
      var sent := [Sent("orchestrator", "all-agents", Notification, StartNote(u))] + SentFrom(u, s.agents, produce, 0);
      && s'.messages == KeepNewest(Reverse(sent) + s.messages)
      && |sent| == 2 * |Collected(s.agents, produce, 0)| + (if Fails(s.agents, produce, 0) then 3 else 2)
  {
    var start := Sent("orchestrator", "all-agents", Notification, StartNote(u));
    var rest := SentFrom(u, s.agents, produce, 0);
    RunMessages(Launched(s, u), u, s.agents, produce, 0);
    assert ([start] + rest)[1..] == rest;
    LogAllSpec(s.messages, [start] + rest);
    SentCount(u, s.agents, produce, 0);
  }

  /** The first upload on a fresh page, with no step throwing: one job,
      completed at 100 with results from the four agents in order, every
      card completed, ten messages. */
  lemma FirstUpload(u: Upload, produce: Producer)
    requires forall k :: 0 <= k < |AgentOrder| ==> produce(AgentOrder[k]).Ok?
    ensures var s' := AfterProcessing(InitialState(), u, produce);
      && |s'.jobs| == 1 && s'.jobs[0].status == Completed && s'.jobs[0].progress == 100
      && Keys(s'.jobs[0].results) == AgentOrder
      && |s'.agents| == 4
      && (forall k :: 0 <= k < 4 ==> s'.agents[k].status == AgentCompleted && s'.agents[k].progress == 100)
      && |s'.messages| == 10
  {
    var s := InitialState();
    InitialRoster();
    FailsSpec(s.agents, produce, 0);
    CollectedAll(s.agents, produce, 0);
    assert AgentOrder[0..] == AgentOrder;
    ProcessingJobs(s, u, produce);
    ProcessingResults(s.agents, produce);
    ProcessingAgents(s, u, produce);
    ProcessingMessages(s, u, produce);
  }

  // ---------------------------------------------------------------------------
  // The page

  class Home {
    var agents: seq<Agent>
    var jobs: seq<ProcessingJob>
    var messages: seq<Message>
    var isProcessing: bool

    function Snapshot(): State
      reads this
    {
      State(agents, jobs, messages, isProcessing)
    }

    constructor()
      ensures Snapshot() == InitialState()
    {
      agents, jobs, messages, isProcessing := InitialAgents(), [], [], false;
    }

    method AddCommunicationMessage(from: string, to: string, kind: MessageKind, payload: Json)
      modifies this
      ensures Snapshot() == AfterMessage(old(Snapshot()), from, to, kind, payload)
    {
      messages := Logged(messages, Message(from, to, kind, payload, "A2A"));
    }

    method UpdateAgentStatus(agentId: string, status: AgentStatus, progress: int, message: string)
      modifies this
      ensures Snapshot() == AfterAgentUpdate(old(Snapshot()), agentId, status, progress, message)
    {
      agents := SetAgent(agents, agentId, status, progress, message);
    }

    /** One tick of the progress loop. */
    method TickOnce(u: Upload, i: nat, progress: int)
      requires i < |AgentOrder|
      modifies this
      ensures Snapshot() == Ticked(old(Snapshot()), u, i, progress)
    {
      UpdateAgentStatus(AgentOrder[i], AgentProcessing, progress, TickText(u.fileName, progress));
      jobs := MapJob(jobs, u.jobId, SetProgress((i * 100 + progress) / 4));
    }

    /** The i-th agent's card turns to processing and it is sent its request. */
    method StartAgent(u: Upload, i: nat)
      requires i < |AgentOrder|
      modifies this
      ensures Snapshot() == Begin(old(Snapshot()), u, i)
    {
      var agentId := AgentOrder[i];
      UpdateAgentStatus(agentId, AgentProcessing, 0, WorkingText(u.fileName));
      AddCommunicationMessage("orchestrator", agentId, Request, RequestBody(u, i));
    }

    /** The i-th agent's step up to its call of generateAgentResults: its
        card, its request and the progress loop; `part` is the job's progress
        as the loop sets it. */
    method RunTicks(u: Upload, i: nat) returns (ghost part: seq<int>)
      requires i < |AgentOrder|
      modifies this
      ensures Snapshot() == Worked(old(Snapshot()), u, i)
      ensures part == StepTrace(i)
    {
      StartAgent(u, i);
      ghost var begun := Snapshot();
      part := [];
      ghost var k := 0;
      var progress := 0;
      while progress <= 100
        invariant 0 <= k <= TickCount && progress == 20 * k
        invariant k == 0 ==> Snapshot() == begun
        invariant k > 0 ==> Snapshot() == Ticked(begun, u, i, progress - 20)
        invariant |part| == k && forall j :: 0 <= j < k ==> part[j] == 25 * i + 5 * j
        decreases TickCount - k
      {
        TickOnce(u, i, progress);
        if k > 0 {
          TickedTwice(begun, u, i, progress - 20, progress);
        }
        Quarter(i, k);
        part := part + [(i * 100 + progress) / 4];
        progress := progress + 20;
        k := k + 1;
      }
      assert k == TickCount && Snapshot() == Ticked(begun, u, i, 100);
      StepTraceSpec(i);
    }

    /** The rest of an agent's step once it has produced `v`. */
    method FinishStep(u: Upload, i: nat, v: Json)
      requires i < |AgentOrder|
      modifies this
      ensures Snapshot() == Finish(old(Snapshot()), u, i, v)
    {
      var agentId := AgentOrder[i];
      UpdateAgentStatus(agentId, AgentCompleted, 100, DoneText(u.fileName));
      AddCommunicationMessage(agentId, "orchestrator", Response, ResponseBody(u, v));
      jobs := MapJob(jobs, u.jobId, AddResult(agentId, v));
    }

    /** One iteration of the loop for an agent that has a card: the error it
        throws, if any. */
    method RunAgentStep(u: Upload, produce: Producer, i: nat) returns (error: Option<string>, ghost part: seq<int>)
      requires i < |AgentOrder|
      modifies this
      ensures error == (if produce(AgentOrder[i]).Err? then Some(produce(AgentOrder[i]).error) else None)
      ensures Snapshot() == match produce(AgentOrder[i])
                            case Err(_) => Worked(old(Snapshot()), u, i)
                            case Ok(v) => Finish(Worked(old(Snapshot()), u, i), u, i, v)
      ensures part == StepTrace(i)
    {
      part := RunTicks(u, i);
      match produce(AgentOrder[i]) {
        case Err(msg) =>
          error := Some(msg);
        case Ok(v) =>
          error := None;
          FinishStep(u, i, v);
      }
    }

    /** After the loop, when nothing threw. */
    method Complete(u: Upload)
      modifies this
      ensures Snapshot() == Completion(old(Snapshot()), u)
    {
      jobs := MapJob(jobs, u.jobId, MarkCompleted);
      AddCommunicationMessage("orchestrator", "all-agents", Notification, CompleteNote(u));
    }

    /** The catch block. */
    method Fail(u: Upload, error: string)
      modifies this
      ensures Snapshot() == Failure(old(Snapshot()), u, error)
    {
      jobs := MapJob(jobs, u.jobId, MarkFailed);
      AddCommunicationMessage("orchestrator", "all-agents", Notification, ErrorNote(u, error));
      agents := SetAll(agents, AgentError, ErrorText(u.fileName));
    }

    /** The new job, the flag and the start notification. */
    method Launch(u: Upload)
      modifies this
      ensures Snapshot() == Launched(old(Snapshot()), u)
    {
      jobs := [NewJob(u)] + jobs;
      isProcessing := true;
      AddCommunicationMessage("orchestrator", "all-agents", Notification, StartNote(u));
    }

    /** The body of that loop for the i-th agent of the order: skipped when
        it has no card. */
    method Visit(u: Upload, produce: Producer, roster: seq<Agent>, i: nat) returns (error: Option<string>, ghost part: seq<int>)
      requires i < |AgentOrder|
      modifies this
      ensures error.None? ==> RunFrom(Snapshot(), u, roster, produce, i + 1) == RunFrom(old(Snapshot()), u, roster, produce, i)
      ensures error.Some? ==> Failure(Snapshot(), u, error.value) == RunFrom(old(Snapshot()), u, roster, produce, i)
      ensures error.None? ==> part + ProgressTrace(roster, produce, i + 1) == ProgressTrace(roster, produce, i)
      ensures error.Some? ==> part == ProgressTrace(roster, produce, i)
    {
      error := None;
      part := [];
      if HasAgent(roster, AgentOrder[i]) {
        ghost var before := Snapshot();
        error, part := RunAgentStep(u, produce, i);
        RunFromStep(before, u, roster, produce, i);
        ProgressTraceStep(roster, produce, i);
      }
    }

    /** The loop of startProcessing over the processing order, for the
        cards `roster` had when processing started; it stops at the first
        error. */
    method RunAgents(u: Upload, produce: Producer, roster: seq<Agent>) returns (error: Option<string>, ghost trace: seq<int>)
      modifies this
      ensures error.None? ==> Completion(Snapshot(), u) == RunFrom(old(Snapshot()), u, roster, produce, 0)
      ensures error.Some? ==> Failure(Snapshot(), u, error.value) == RunFrom(old(Snapshot()), u, roster, produce, 0)
      ensures trace == ProgressTrace(roster, produce, 0)
    {
      ghost var goal := RunFrom(Snapshot(), u, roster, produce, 0);
      ghost var full := ProgressTrace(roster, produce, 0);
      trace := [];
      error := None;
      var i := 0;
      while i < |AgentOrder| && error.None?
        invariant 0 <= i <= |AgentOrder|
        invariant error.None? ==> RunFrom(Snapshot(), u, roster, produce, i) == goal
        invariant error.None? ==> trace + ProgressTrace(roster, produce, i) == full
        invariant error.Some? ==> Failure(Snapshot(), u, error.value) == goal
        invariant error.Some? ==> trace == full
      {
        ghost var part;
        error, part := Visit(u, produce, roster, i);
        ConcatAssoc(trace, part, ProgressTrace(roster, produce, i + 1));
        trace := trace + part;
        i := i + 1;
      }
    }

    /** startProcessing for an uploaded file; `trace` is the job's progress
        as the inner loop sets it. */
    method StartProcessing(u: Upload, produce: Producer) returns (ghost trace: seq<int>)
      modifies this
      ensures Snapshot() == AfterProcessing(old(Snapshot()), u, produce)
      ensures trace == ProgressTrace(old(agents), produce, 0)
    {
      var roster := agents;
      Launch(u);
      var error;
      error, trace := RunAgents(u, produce, roster);
      match error {
        case None => Complete(u);
        case Some(msg) => Fail(u, msg);
      }
      isProcessing := false;
    }

    /** The timer startProcessing sets: every card back to idle. */
    method ResetAgents()
      modifies this
      ensures Snapshot() == AfterReset(old(Snapshot()))
    {
      agents := SetAll(agents, AgentIdle, ReadyText);
    }
  }
}
