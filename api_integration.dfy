/** The mock backend of scripts/api_integration.js: an in-memory job / agent /
    message store (DatabaseConnection), message sending and broadcasting
    between agents (A2AProtocolHandler), and a FIFO job queue drained one job
    at a time through four agents (ProcessingPipelineManager).

    Jobs, agents and messages have the fixed shapes the code gives them, so
    they are records here; the results an agent produces stay free-form
    objects (`Dict`).  A JavaScript Map is a Dafny `map` together with the
    list of its keys in insertion order.  `Math.random()` ids and `new Date()`
    both draw on a logical clock `tick`: an id is `idOf(tick)` for a function
    fixed when the store is built, a date is the number `tick`.  What an agent
    step returns (random mock results) or the error it throws is given by an
    outcome function `step`, fixed when the pipeline is built.  Every
    state-changing operation is first written as a function from one `Store`
    to the next; the classes at the end are proved to follow those functions. */
module ApiIntegration {
  import opened Wrappers
  import opened Dicts
  import opened Text

  /** The order in which processJob runs the agents. */
  const AgentOrder: seq<string> := ["metadata-agent", "video-agent", "audio-agent", "storyboard-agent"]

  /** addMessage keeps only the newest MessageCap messages. */
  const MessageCap: nat := 1000

  /** An agent record.  It only ever gets Object.assign of `{status,
      currentJob}`; `currentJob: null` and an absent currentJob are both None. */
  datatype Agent = Agent(id: string, name: string, kind: string, status: string,
                         capabilities: seq<string>, currentJob: Option<string>)

  /** A job: the properties submitJob passes to createJob, those createJob adds,
      and those processJob later assigns (absent until then: None). */
  datatype Job = Job(id: string, fileName: string, fileType: string, fileSize: int, agents: seq<string>,
                     status: string, progress: int, createdAt: nat, results: Assoc<string, Dict>,
                     startedAt: Option<nat>, completedAt: Option<nat>, errorMessage: Option<string>)

  /** The properties of the object passed to createJob that the job keeps or
      that createJob overrides; None: not given. */
  datatype JobData = JobData(id: Option<string>, fileName: string, fileType: string, fileSize: int, agents: seq<string>,
                             status: Option<string>, progress: Option<int>, createdAt: Option<nat>,
                             results: Option<Assoc<string, Dict>>)

  /** What submitJob passes to createJob: the file and the agent order. */
  function Submitted(fileName: string, fileType: string, fileSize: int): JobData {
    JobData(None, fileName, fileType, fileSize, AgentOrder, None, None, None, None)
  }

  /** The properties of an update object passed to updateJob; None: not given. */
  datatype JobPatch = JobPatch(status: Option<string>, progress: Option<int>, results: Option<Assoc<string, Dict>>,
                               startedAt: Option<nat>, completedAt: Option<nat>, errorMessage: Option<string>)

  /** The payloads the pipeline sends. */
  datatype Payload =
    | JobQueued(jobId: string, fileName: string)
    | ProcessRequest(jobId: string, fileName: string, fileType: string, dependencies: seq<string>)
    | ProcessComplete(jobId: string, results: Dict)
    | ProcessError(jobId: string, error: string)
    | JobCompleted(jobId: string)

  /** A message as sendMessage builds it and addMessage stamps it. */
  datatype Message = Message(id: string, timestamp: nat, from: string, to: string, kind: string,
                             payload: Payload, protocol: string)

  /** The whole state of a DatabaseConnection: the two Maps with their keys in
      insertion order, the message log and the clock. */
  datatype Store = Store(jobs: map<string, Job>, jobIds: seq<string>, agents: map<string, Agent>, agentIds: seq<string>,
                         messages: seq<Message>, tick: nat)

  /** What one agent step of processJob yields: the results it produced, or
      the message of the error it threw. */
  datatype StepOutcome = Completed(results: Dict) | Threw(message: string)

  /** No id occurs twice. */
  ghost predicate NoRepeats(ids: seq<string>) {
    forall x, y :: 0 <= x < y < |ids| ==> ids[x] != ids[y]
  }

  /** Every job and agent is stored under its own id, the key lists list each
      key once, and the log is within the cap. */
  ghost predicate WellFormed(s: Store) {
    && (forall id :: id in s.jobs ==> s.jobs[id].id == id)
    && (forall id :: id in s.agents ==> s.agents[id].id == id)
    && (forall id :: id in s.jobs <==> id in s.jobIds)
    && (forall id :: id in s.agents <==> id in s.agentIds)
    && NoRepeats(s.jobIds) && NoRepeats(s.agentIds)
    && |s.messages| <= MessageCap
  }

  // ---------------------------------------------------------------------------
  // DatabaseConnection

  function AgentRecord(id: string, name: string, kind: string, capabilities: seq<string>): Agent {
    Agent(id, name, kind, "idle", capabilities, None)
  }

  /** The defaultAgents list of initializeAgents. */
  function DefaultAgentList(): seq<Agent> {
    [AgentRecord("video-agent", "Video Enhancement Agent", "video",
                 ["noise_reduction", "upscaling", "color_correction", "scene_detection"]),
     AgentRecord("audio-agent", "Audio Optimization Agent", "audio",
                 ["noise_reduction", "enhancement", "music_generation", "speech_to_text"]),
     AgentRecord("storyboard-agent", "Storyboard Generation Agent", "storyboard",
                 ["scene_analysis", "key_frame_extraction", "visual_composition", "timeline_generation"]),
     AgentRecord("metadata-agent", "Metadata Extraction Agent", "metadata",
                 ["ocr", "object_detection", "tag_generation", "content_analysis"])]
  }

  /** `list.forEach(a => map.set(a.id, a))` on a Map with keys `ids`: a new key
      goes to the end of the key order, an existing one keeps its place. */
  function SetEachById(m: map<string, Agent>, ids: seq<string>, list: seq<Agent>): (map<string, Agent>, seq<string>)
    decreases |list|
  {
    if list == [] then (m, ids)
    else
      var a := list[0];
      SetEachById(m[a.id := a], if a.id in m then ids else ids + [a.id], list[1..])
  }

  /** initializeAgents: every default agent set under its id. */
  function AfterInitializeAgents(s: Store): Store {
    var (agents, ids) := SetEachById(s.agents, s.agentIds, DefaultAgentList());
    s.(agents := agents, agentIds := ids)
  }

  /** A new DatabaseConnection: no jobs, the default agents, no messages. */
  function InitialStore(): Store {
    AfterInitializeAgents(Store(map[], [], map[], [], [], 0))
  }

  /** createJob: a fresh id, which an id in the data replaces, the given
      data, then status, progress, creation date and results set by createJob
      itself over whatever the data carries. */
  function AfterCreateJob(s: Store, idOf: nat -> string, data: JobData): (Store, Job) {
    var job := Job(if data.id.Some? then data.id.value else idOf(s.tick), data.fileName, data.fileType, data.fileSize, data.agents,
                   "queued", 0, s.tick + 1, [], None, None, None);
    (s.(jobs := s.jobs[job.id := job], jobIds := if job.id in s.jobs then s.jobIds else s.jobIds + [job.id],
        tick := s.tick + 2), job)
  }

  /** Object.assign(job, patch): the given properties replace the old ones. */
  function Patched(j: Job, p: JobPatch): Job {
    j.(status := if p.status.Some? then p.status.value else j.status,
       progress := if p.progress.Some? then p.progress.value else j.progress,
       results := if p.results.Some? then p.results.value else j.results,
       startedAt := if p.startedAt.Some? then p.startedAt else j.startedAt,
       completedAt := if p.completedAt.Some? then p.completedAt else j.completedAt,
       errorMessage := if p.errorMessage.Some? then p.errorMessage else j.errorMessage)
  }

  /** updateJob: an unknown id changes nothing and yields undefined. */
  function AfterUpdateJob(s: Store, jobId: string, p: JobPatch): (Store, Option<Job>) {
    if jobId in s.jobs then
      var j := Patched(s.jobs[jobId], p);
      (s.(jobs := s.jobs[jobId := j]), Some(j))
    else (s, None)
  }

  /** `Object.assign(agent, {status, currentJob})` on the agent stored under
      `id`, if there is one. */
  function Updated(m: map<string, Agent>, id: string, status: string, currentJob: Option<string>): map<string, Agent> {
    if id in m then m[id := m[id].(status := status, currentJob := currentJob)] else m
  }

  /** updateAgent with `{status, currentJob}`: an unknown id changes nothing
      and yields undefined. */
  function AfterUpdateAgent(s: Store, agentId: string, status: string, currentJob: Option<string>): (Store, Option<Agent>) {
    (s.(agents := Updated(s.agents, agentId, status, currentJob)),
     if agentId in s.agents then Some(s.agents[agentId].(status := status, currentJob := currentJob)) else None)
  }

  /** The log with its oldest messages dropped until it is within the cap:
      `messages.slice(-MessageCap)` once the log has grown past the cap (see
      CappedSlice). */
  function Capped(log: seq<Message>): (r: seq<Message>)
    ensures |r| == if |log| > MessageCap then MessageCap else |log|
    decreases |log|
  {
    if |log| <= MessageCap then log else Capped(log[1..])
  }

  /** addMessage stamps the message with a fresh id and the time, appends it
      and trims the log. */
  function AfterAddMessage(s: Store, idOf: nat -> string, message: Message): (Store, Message) {
    var m := message.(id := idOf(s.tick), timestamp := s.tick + 1);
    (s.(messages := Capped(s.messages + [m]), tick := s.tick + 2), m)
  }

  /** JavaScript `a.slice(start)`: a negative start counts from the end, and
      the start is clamped to the array. */
  function SliceFrom<T>(a: seq<T>, start: int): seq<T> {
    var from := if start < 0 then (if |a| + start < 0 then 0 else |a| + start)
                else (if start > |a| then |a| else start);
    a[from..]
  }

  /** getMessages(limit): `messages.slice(-limit).reverse()`. */
  function RecentMessages(messages: seq<Message>, limit: int): seq<Message> {
    Reverse(SliceFrom(messages, -limit))
  }

  // ---------------------------------------------------------------------------
  // A2AProtocolHandler

  /** The message addMessage stores for one built by sendMessage at clock `t`. */
  function Stamped(idOf: nat -> string, t: nat, from: string, to: string, kind: string, payload: Payload): Message {
    Message(idOf(t), t + 1, from, to, kind, payload, "A2A")
  }

  function AfterSendMessage(s: Store, idOf: nat -> string, from: string, to: string, kind: string, payload: Payload): (Store, Message) {
    AfterAddMessage(s, idOf, Message("", 0, from, to, kind, payload, "A2A"))
  }

  /** The ids a broadcast from `from` over `agents` addresses, in order. */
  function Recipients(agents: seq<Agent>, from: string): seq<string>
    decreases |agents|
  {
    if agents == [] then []
    else (if agents[0].id != from then [agents[0].id] else []) + Recipients(agents[1..], from)
  }

  /** The messages of sendMessage calls to each of `tos` in turn, from clock `t` on. */
  function Sends(idOf: nat -> string, t: nat, from: string, tos: seq<string>, kind: string, payload: Payload): seq<Message>
    decreases |tos|
  {
    if tos == [] then [] else [Stamped(idOf, t, from, tos[0], kind, payload)] + Sends(idOf, t + 2, from, tos[1..], kind, payload)
  }

  /** The store once the messages `sent`, stamped from its clock on, have
      been added. */
  function Logged(s: Store, sent: seq<Message>): Store {
    s.(messages := if sent == [] then s.messages else Capped(s.messages + sent), tick := s.tick + 2 * |sent|)
  }

  /** The outcome of broadcastToAgents' loop over a snapshot of the agents:
      one sendMessage per agent that is not the sender, in order. */
  function AfterBroadcastTo(s: Store, idOf: nat -> string, agents: seq<Agent>, from: string, kind: string, payload: Payload): (Store, seq<Message>) {
    var sent := Sends(idOf, s.tick, from, Recipients(agents, from), kind, payload);
    (Logged(s, sent), sent)
  }

  /** broadcastToAgents: over getAllAgents(), the agents in Map order. */
  function AfterBroadcast(s: Store, idOf: nat -> string, from: string, kind: string, payload: Payload): (Store, seq<Message>) {
    AfterBroadcastTo(s, idOf, InOrder(s.agents, s.agentIds), from, kind, payload)
  }

  // ---------------------------------------------------------------------------
  // ProcessingPipelineManager

  /** submitJob, up to the point where it starts draining the queue: the job
      is created with the four agents and every agent is told it is queued. */
  function AfterSubmit(s: Store, idOf: nat -> string, fileName: string, fileType: string, fileSize: int): (Store, Job) {
    var (s1, job) := AfterCreateJob(s, idOf, Submitted(fileName, fileType, fileSize));
    (AfterBroadcast(s1, idOf, "orchestrator", "job_queued", JobQueued(job.id, job.fileName)).0, job)
  }

  /** The job object processJob holds: it is the stored one, so it shows every
      update; `alias` is what it was when fetched. */
  function Current(s: Store, jobId: string, alias: Job): Job {
    if jobId in s.jobs then s.jobs[jobId] else alias
  }

  /** The dependencies listed in the request to the i-th agent: the agent
      before it. */
  function Dependencies(order: seq<string>, i: nat): seq<string>
    requires i < |order|
  {
    if i > 0 then [order[i - 1]] else []
  }

  /** The progress after the i-th agent: `((i + 1) / agentOrder.length) * 100`. */
  function ProgressAfter(order: seq<string>, i: nat): int
    requires i < |order|
  {
    (i + 1) * 100 / |order|
  }

  /** The request processJob sends to the i-th agent at clock `t`. */
  function Request(idOf: nat -> string, t: nat, jobId: string, alias: Job, order: seq<string>, i: nat): Message
    requires i < |order|
  {
    Stamped(idOf, t, "orchestrator", order[i], "process_request",
            ProcessRequest(jobId, alias.fileName, alias.fileType, Dependencies(order, i)))
  }

  /** The start of an iteration of processJob's loop: the agent is marked
      busy and sent its request. */
  function BeginStep(s: Store, idOf: nat -> string, jobId: string, alias: Job, agentId: string, deps: seq<string>): Store {
    var s1 := AfterUpdateAgent(s, agentId, "processing", Some(jobId)).0;
    AfterSendMessage(s1, idOf, "orchestrator", agentId, "process_request",
                     ProcessRequest(jobId, alias.fileName, alias.fileType, deps)).0
  }

  /** The rest of an iteration when the agent returns its results. */
  function FinishStep(s: Store, idOf: nat -> string, jobId: string, alias: Job, agentId: string, progress: int, results: Dict): Store {
    var merged := Put(Current(s, jobId, alias).results, agentId, results);
    var s1 := AfterUpdateJob(s, jobId, JobPatch(None, Some(progress), Some(merged), None, None, None)).0;
    var s2 := AfterUpdateAgent(s1, agentId, "idle", None).0;
    AfterSendMessage(s2, idOf, agentId, "orchestrator", "process_complete", ProcessComplete(jobId, results)).0
  }

  /** The catch block of an iteration when the agent throws. */
  function FailStep(s: Store, idOf: nat -> string, jobId: string, agentId: string, msg: string): Store {
    var s1 := AfterUpdateJob(s, jobId, JobPatch(Some("error"), None, None, None, None, Some(msg))).0;
    AfterSendMessage(s1, idOf, agentId, "orchestrator", "process_error", ProcessError(jobId, msg)).0
  }

  /** Iteration i of processJob's loop over `order`: the updated store and
      whether the loop goes on. */
  function AfterAgentStep(s: Store, idOf: nat -> string, jobId: string, alias: Job, order: seq<string>, i: nat, outcome: StepOutcome): (Store, bool)
    requires i < |order|
  {
    var s1 := BeginStep(s, idOf, jobId, alias, order[i], Dependencies(order, i));
    match outcome
    case Threw(msg) => (FailStep(s1, idOf, jobId, order[i], msg), false)
    case Completed(results) => (FinishStep(s1, idOf, jobId, alias, order[i], ProgressAfter(order, i), results), true)
  }

  /** The end of a job that went through every agent. */
  function AfterComplete(s: Store, idOf: nat -> string, jobId: string): Store {
    var s1 := AfterUpdateJob(s.(tick := s.tick + 1), jobId, JobPatch(Some("completed"), Some(100), None, None, Some(s.tick), None)).0;
    AfterBroadcast(s1, idOf, "orchestrator", "job_completed", JobCompleted(jobId)).0
  }

  /** processJob's first update: status processing, started now. */
  function AfterStart(s: Store, jobId: string): Store {
    AfterUpdateJob(s.(tick := s.tick + 1), jobId, JobPatch(Some("processing"), None, None, Some(s.tick), None, None)).0
  }

  /** The results an agent step produced; none for a step that threw. */
  function ResultsOf(o: StepOutcome): Dict {
    match o case Completed(r) => r case Threw(_) => []
  }

  /** The agents order[0..n] set idle one after another. */
  function IdleFrom(m: map<string, Agent>, order: seq<string>, n: nat): map<string, Agent>
    requires n <= |order|
  {
    if n == 0 then m else Updated(IdleFrom(m, order, n - 1), order[n - 1], "idle", None)
  }

  /** `results` after `{...job.results, [agentId]: results}` for each agent of
      order[0..n] in turn. */
  function MergedFrom(results: Assoc<string, Dict>, step: (string, nat) -> StepOutcome, jobId: string, order: seq<string>, n: nat): Assoc<string, Dict>
    requires n <= |order|
  {
    if n == 0 then results else Put(MergedFrom(results, step, jobId, order, n - 1), order[n - 1], ResultsOf(step(jobId, n - 1)))
  }

  /** The completion report of the i-th agent, in an iteration started at
      clock `t`. */
  function Report(idOf: nat -> string, t: nat, step: (string, nat) -> StepOutcome, jobId: string, order: seq<string>, i: nat): Message
    requires i < |order|
  {
    Stamped(idOf, t + 2, order[i], "orchestrator", "process_complete", ProcessComplete(jobId, ResultsOf(step(jobId, i))))
  }

  /** The request to, and the completion report of, each agent of order[0..n]
      in turn, from clock `t` on. */
  function RunPairs(idOf: nat -> string, t: nat, step: (string, nat) -> StepOutcome, jobId: string, alias: Job,
                    order: seq<string>, n: nat): seq<Message>
    requires n <= |order|
  {
    if n == 0 then []
    else RunPairs(idOf, t, step, jobId, alias, order, n - 1)
         + [Request(idOf, t + 4 * (n - 1), jobId, alias, order, n - 1), Report(idOf, t + 4 * (n - 1), step, jobId, order, n - 1)]
  }

  /** The log once the first n agents of the loop have returned results. */
  function RunLog(log: seq<Message>, idOf: nat -> string, t: nat, step: (string, nat) -> StepOutcome, jobId: string, alias: Job,
                  order: seq<string>, n: nat): seq<Message>
    requires n <= |order|
  {
    if n == 0 then log else Capped(log + RunPairs(idOf, t, step, jobId, alias, order, n))
  }

  /** The job once the first n agents of the loop have returned results. */
  function RunJob(j: Job, step: (string, nat) -> StepOutcome, jobId: string, order: seq<string>, n: nat): Job
    requires n <= |order|
  {
    j.(progress := if n == 0 then j.progress else ProgressAfter(order, n - 1),
       results := MergedFrom(j.results, step, jobId, order, n))
  }

  /** The store once the first n agents of the loop have returned results. */
  function Partial(s: Store, idOf: nat -> string, step: (string, nat) -> StepOutcome, jobId: string, alias: Job,
                   order: seq<string>, n: nat): Store
    requires jobId in s.jobs && n <= |order|
  {
    s.(jobs := s.jobs[jobId := RunJob(s.jobs[jobId], step, jobId, order, n)],
       agents := IdleFrom(s.agents, order, n),
       messages := RunLog(s.messages, idOf, s.tick, step, jobId, alias, order, n),
       tick := s.tick + 4 * n)
  }

  /** The store after an iteration whose agent returns `results`, in closed
      form: the job gets the new progress and the results merged in under the
      agent's id, the agent ends idle, and the request and the completion
      report are logged. */
  function Advanced(s: Store, idOf: nat -> string, jobId: string, alias: Job, order: seq<string>, i: nat, results: Dict): Store
    requires i < |order| && jobId in s.jobs
  {
    var j := s.jobs[jobId];
    s.(jobs := s.jobs[jobId := j.(progress := ProgressAfter(order, i), results := Put(j.results, order[i], results))],
       agents := Updated(s.agents, order[i], "idle", None),
       messages := Capped(s.messages + [Request(idOf, s.tick, jobId, alias, order, i),
                                        Stamped(idOf, s.tick + 2, order[i], "orchestrator", "process_complete",
                                                ProcessComplete(jobId, results))]),
       tick := s.tick + 4)
  }

  /** The store after an iteration whose agent throws, in closed form: the job
      is marked as failed with the error's message, the agent stays busy with
      the job, and the request and the error report are logged. */
  function Aborted(s: Store, idOf: nat -> string, jobId: string, alias: Job, order: seq<string>, i: nat, msg: string): Store
    requires i < |order| && jobId in s.jobs
  {
    s.(jobs := s.jobs[jobId := s.jobs[jobId].(status := "error", errorMessage := Some(msg))],
       agents := Updated(s.agents, order[i], "processing", Some(jobId)),
       messages := Capped(s.messages + [Request(idOf, s.tick, jobId, alias, order, i),
                                        Stamped(idOf, s.tick + 2, order[i], "orchestrator", "process_error",
                                                ProcessError(jobId, msg))]),
       tick := s.tick + 4)
  }

  /** The store after the end of a job that went through every agent, in
      closed form: it is completed at progress 100, and every registered agent
      but the orchestrator is told so. */
  function Finalized(s: Store, idOf: nat -> string, jobId: string): Store
    requires jobId in s.jobs
  {
    var sent := Sends(idOf, s.tick + 1, "orchestrator", Recipients(InOrder(s.agents, s.agentIds), "orchestrator"),
                      "job_completed", JobCompleted(jobId));
    s.(jobs := s.jobs[jobId := s.jobs[jobId].(status := "completed", progress := 100, completedAt := Some(s.tick))],
       messages := if sent == [] then s.messages else Capped(s.messages + sent),
       tick := s.tick + 1 + 2 * |sent|)
  }

  /** processJob's loop from the i-th agent of `order` on, and what follows
      it: an agent that throws ends the job in error and the loop; once every
      agent has returned results the job is completed. */
  function AfterRunFrom(s: Store, idOf: nat -> string, step: (string, nat) -> StepOutcome, jobId: string, alias: Job,
                        order: seq<string>, i: nat): Store
    requires jobId in s.jobs && i <= |order|
    decreases |order| - i
  {
    if i == |order| then Finalized(s, idOf, jobId)
    else match step(jobId, i)
      case Threw(msg) => Aborted(s, idOf, jobId, alias, order, i, msg)
      case Completed(results) => AfterRunFrom(Advanced(s, idOf, jobId, alias, order, i, results), idOf, step, jobId, alias, order, i + 1)
  }

  /** processJob's loop over all of `order`, and what follows it. */
  function AfterRun(s: Store, idOf: nat -> string, step: (string, nat) -> StepOutcome, jobId: string, alias: Job, order: seq<string>): Store
    requires jobId in s.jobs
  {
    AfterRunFrom(s, idOf, step, jobId, alias, order, 0)
  }

  /** processJob: nothing for an unknown id. */
  function AfterProcessJob(s: Store, idOf: nat -> string, step: (string, nat) -> StepOutcome, jobId: string): Store {
    if jobId in s.jobs then AfterRun(AfterStart(s, jobId), idOf, step, jobId, s.jobs[jobId], AgentOrder) else s
  }

  /** processQueue's loop: the queued jobs, first in first out. */
  function AfterDrain(s: Store, idOf: nat -> string, step: (string, nat) -> StepOutcome, queue: seq<string>): Store
    decreases |queue|
  {
    if queue == [] then s else AfterDrain(AfterProcessJob(s, idOf, step, queue[0]), idOf, step, queue[1..])
  }

  // ---------------------------------------------------------------------------
  // Properties of the store

  /** initializeAgents' loop: setting idle agents by id keeps every agent
      stored under its own id and idle, each key listed once, and stores every
      agent of the list. */
  lemma {:induction false} SetEachByIdSpec(m: map<string, Agent>, ids: seq<string>, list: seq<Agent>)
    requires forall id :: id in m ==> m[id].id == id && m[id].status == "idle" && m[id].currentJob == None
    requires forall id :: id in m <==> id in ids
    requires NoRepeats(ids)
    requires forall k :: 0 <= k < |list| ==> list[k].status == "idle" && list[k].currentJob == None
    ensures var (m', ids') := SetEachById(m, ids, list);
      && (forall id :: id in m' ==> m'[id].id == id && m'[id].status == "idle" && m'[id].currentJob == None)
      && (forall id :: id in m' <==> id in ids')
      && NoRepeats(ids')
      && (forall id :: id in m ==> id in m')
      && (forall k :: 0 <= k < |list| ==> list[k].id in m')
    decreases |list|
  {
    if list != [] {
      var a := list[0];
      var ids1 := if a.id in m then ids else ids + [a.id];
      assert forall id :: id in ids1 <==> id in ids || id == a.id;
      assert forall k :: 0 <= k < |list[1..]| ==> list[1..][k] == list[k + 1];
      SetEachByIdSpec(m[a.id := a], ids1, list[1..]);
    }
  }

  /** The order initializeAgents stores the default agents in. */
  lemma InitialAgentIds()
    ensures InitialStore().agentIds == ["video-agent", "audio-agent", "storyboard-agent", "metadata-agent"]
  {
    var l := DefaultAgentList();
    var ids1 := [l[0].id];
    var ids2 := ids1 + [l[1].id];
    var ids3 := ids2 + [l[2].id];
    var m1 := map[l[0].id := l[0]];
    var m2 := m1[l[1].id := l[1]];
    var m3 := m2[l[2].id := l[2]];
    assert [] + ids1 == ids1;
    assert SetEachById(map[], [], l).1 == SetEachById(m1, ids1, l[1..]).1;
    assert SetEachById(m1, ids1, l[1..]).1 == SetEachById(m2, ids2, l[2..]).1;
    assert SetEachById(m2, ids2, l[2..]).1 == SetEachById(m3, ids3, l[3..]).1;
    assert l[3..][1..] == [];
  }

  /** A fresh DatabaseConnection holds the four default agents, idle and
      without a job, under their ids and in list order; among them is every
      agent of the pipeline. */
  lemma InitialStoreSpec()
    ensures var s := InitialStore();
      && s.agentIds == ["video-agent", "audio-agent", "storyboard-agent", "metadata-agent"]
      && (forall id :: id in s.agents ==> s.agents[id].status == "idle" && s.agents[id].currentJob == None)
      && (forall k :: 0 <= k < |AgentOrder| ==> AgentOrder[k] in s.agents)
      && s.jobs == map[] && s.messages == []
      && WellFormed(s)
  {
    SetEachByIdSpec(map[], [], DefaultAgentList());
    InitialAgentIds();
    var s := InitialStore();
    assert forall k :: 0 <= k < |AgentOrder| ==> AgentOrder[k] in s.agentIds;
  }

  /** createJob stores a queued job with progress 0, no results and a fresh
      creation date, whatever status, progress, date or results the data
      carries, under the id the data gives or else a fresh one; no other job,
      no agent and no message changes. */
  lemma CreateJobSpec(s: Store, idOf: nat -> string, data: JobData)
    ensures var (s', job) := AfterCreateJob(s, idOf, data);
      && job.id == (if data.id.Some? then data.id.value else idOf(s.tick))
      && job.status == "queued" && job.progress == 0 && job.results == [] && job.createdAt == s.tick + 1
      && job.fileName == data.fileName && job.fileType == data.fileType && job.fileSize == data.fileSize && job.agents == data.agents
      && job.startedAt == None && job.completedAt == None && job.errorMessage == None
      && job.id in s'.jobs && s'.jobs[job.id] == job
      && (forall other :: other != job.id ==> (other in s'.jobs <==> other in s.jobs))
      && (forall other :: other != job.id && other in s.jobs ==> s'.jobs[other] == s.jobs[other])
      && s'.jobIds == (if job.id in s.jobs then s.jobIds else s.jobIds + [job.id])
      && s'.agents == s.agents && s'.agentIds == s.agentIds && s'.messages == s.messages && s'.tick == s.tick + 2
      && (WellFormed(s) ==> WellFormed(s'))
  {
    var (s', job) := AfterCreateJob(s, idOf, data);
    if WellFormed(s) && job.id !in s.jobs {
      assert forall x :: 0 <= x < |s.jobIds| ==> s'.jobIds[x] == s.jobIds[x];
    }
  }

  lemma CreateJobWellFormed(s: Store, idOf: nat -> string, data: JobData)
    requires WellFormed(s)
    ensures WellFormed(AfterCreateJob(s, idOf, data).0)
  {
    var (s', job) := AfterCreateJob(s, idOf, data);
    if job.id !in s.jobs {
      assert forall x :: 0 <= x < |s.jobIds| ==> s'.jobIds[x] == s.jobIds[x];
    }
  }

  /** updateJob applies the update to the job stored under the id and to no
      other job; an unknown id leaves the store as it was and yields undefined. */
  lemma UpdateJobSpec(s: Store, jobId: string, p: JobPatch)
    ensures var (s', r) := AfterUpdateJob(s, jobId, p);
      && (jobId !in s.jobs ==> s' == s && r.None?)
      && (jobId in s.jobs ==> r == Some(Patched(s.jobs[jobId], p)) && s'.jobs == s.jobs[jobId := r.value])
      && s'.jobIds == s.jobIds && s'.agents == s.agents && s'.agentIds == s.agentIds
      && s'.messages == s.messages && s'.tick == s.tick
      && (WellFormed(s) ==> WellFormed(s'))
  {
  }

  /** Object.assign with an update object replaces exactly the properties it
      carries: the others, and the job's identity and data, are kept. */
  lemma PatchedSpec(j: Job, p: JobPatch)
    ensures var r := Patched(j, p);
      && r.id == j.id && r.fileName == j.fileName && r.fileType == j.fileType && r.fileSize == j.fileSize
      && r.agents == j.agents && r.createdAt == j.createdAt
      && r.status == (if p.status.Some? then p.status.value else j.status)
      && r.progress == (if p.progress.Some? then p.progress.value else j.progress)
      && r.results == (if p.results.Some? then p.results.value else j.results)
      && (p.startedAt.Some? ==> r.startedAt == p.startedAt) && (p.startedAt.None? ==> r.startedAt == j.startedAt)
      && (p.completedAt.Some? ==> r.completedAt == p.completedAt) && (p.completedAt.None? ==> r.completedAt == j.completedAt)
      && (p.errorMessage.Some? ==> r.errorMessage == p.errorMessage) && (p.errorMessage.None? ==> r.errorMessage == j.errorMessage)
      && (p == JobPatch(None, None, None, None, None, None) ==> r == j)
  {
  }

  /** updateAgent sets status and currentJob of the agent stored under the id
      and of no other agent; an unknown id changes nothing. */
  lemma UpdateAgentSpec(s: Store, agentId: string, status: string, currentJob: Option<string>)
    ensures var (s', r) := AfterUpdateAgent(s, agentId, status, currentJob);
      && (agentId !in s.agents ==> s' == s && r.None?)
      && (agentId in s.agents ==>
            r == Some(s.agents[agentId].(status := status, currentJob := currentJob)) && s'.agents == s.agents[agentId := r.value])
      && s'.jobs == s.jobs && s'.jobIds == s.jobIds && s'.agentIds == s.agentIds
      && s'.messages == s.messages && s'.tick == s.tick
      && (WellFormed(s) ==> WellFormed(s'))
  {
  }

  /** Trimming keeps exactly the newest MessageCap messages. */
  lemma {:induction false} CappedSlice(log: seq<Message>)
    ensures Capped(log) == if |log| > MessageCap then log[|log| - MessageCap..] else log
    decreases |log|
  {
    if |log| > MessageCap {
      CappedSlice(log[1..]);
      assert log[1..][|log| - 1 - MessageCap..] == log[|log| - MessageCap..];
    }
  }

  /** Trimming after each append is trimming once at the end. */
  lemma CappedAppend(x: seq<Message>, y: seq<Message>)
    ensures Capped(Capped(x) + y) == Capped(x + y)
  {
    CappedSlice(x);
    CappedSlice(x + y);
    CappedSlice(Capped(x) + y);
    if |x| > MessageCap {
      var c := x[|x| - MessageCap..];
      var r1 := (c + y)[|y|..];
      var r2 := (x + y)[|x| + |y| - MessageCap..];
      forall j | 0 <= j < MessageCap ensures r1[j] == r2[j] {
        if |y| + j < MessageCap {
          assert r1[j] == c[|y| + j] == x[|x| - MessageCap + |y| + j];
          assert r2[j] == x[|x| + |y| - MessageCap + j];
        } else {
          assert r1[j] == y[|y| + j - MessageCap];
          assert r2[j] == y[|y| + j - MessageCap];
        }
      }
    }
  }

  /** addMessage appends the stamped message as the last entry, dropping the
      oldest one only when the log is full, so the log never exceeds the cap. */
  lemma AddMessageSpec(s: Store, idOf: nat -> string, message: Message)
    requires |s.messages| <= MessageCap
    ensures var (s', m) := AfterAddMessage(s, idOf, message);
      && m == message.(id := idOf(s.tick), timestamp := s.tick + 1)
      && |s'.messages| <= MessageCap && s'.messages[|s'.messages| - 1] == m
      && (|s.messages| < MessageCap ==> s'.messages == s.messages + [m])
      && (|s.messages| == MessageCap ==> s'.messages == s.messages[1..] + [m])
      && s'.jobs == s.jobs && s'.jobIds == s.jobIds && s'.agents == s.agents && s'.agentIds == s.agentIds
      && s'.tick == s.tick + 2
      && (WellFormed(s) ==> WellFormed(s'))
  {
    var m := AfterAddMessage(s, idOf, message).1;
    CappedSlice(s.messages + [m]);
    if |s.messages| == MessageCap {
      assert (s.messages + [m])[1..] == s.messages[1..] + [m];
    }
  }

  /** getMessages(limit) for a positive limit: the newest `limit` messages
      (all of them if there are fewer), newest first. */
  lemma RecentMessagesNewestFirst(messages: seq<Message>, limit: int)
    requires limit > 0
    ensures var r := RecentMessages(messages, limit);
      && |r| == (if limit < |messages| then limit else |messages|)
      && forall j :: 0 <= j < |r| ==> r[j] == messages[|messages| - 1 - j]
  {
    var n := |messages|;
    var tail := SliceFrom(messages, -limit);
    assert tail == messages[n - |tail|..];
  }

  /** getMessages(0) returns every message, since `slice(-0)` is `slice(0)`;
      a negative limit drops the oldest messages instead. */
  lemma RecentMessagesNonPositive(messages: seq<Message>, limit: int)
    requires limit <= 0
    ensures var r := RecentMessages(messages, limit);
      && |r| == (if -limit < |messages| then |messages| + limit else 0)
      && (forall j :: 0 <= j < |r| ==> r[j] == messages[|messages| - 1 - j])
      && (limit == 0 ==> |r| == |messages|)
  {
  }

  // ---------------------------------------------------------------------------
  // Properties of broadcasting

  /** `ids` without the occurrences of `x`. */
  function Without(ids: seq<string>, x: string): seq<string> {
    if ids == [] then [] else (if ids[0] != x then [ids[0]] else []) + Without(ids[1..], x)
  }

  function Addressees(ms: seq<Message>): (r: seq<string>)
    ensures |r| == |ms| && forall j :: 0 <= j < |ms| ==> r[j] == ms[j].to
  {
    if ms == [] then [] else [ms[0].to] + Addressees(ms[1..])
  }

  /** One message per addressee, in order. */
  lemma {:induction false} SendsAddressees(idOf: nat -> string, t: nat, from: string, tos: seq<string>, kind: string, payload: Payload)
    ensures Addressees(Sends(idOf, t, from, tos, kind, payload)) == tos
    decreases |tos|
  {
    if tos != [] {
      var rest := Sends(idOf, t, from, tos, kind, payload)[1..];
      assert rest == Sends(idOf, t + 2, from, tos[1..], kind, payload);
      SendsAddressees(idOf, t + 2, from, tos[1..], kind, payload);
      assert Addressees(Sends(idOf, t, from, tos, kind, payload)) == [tos[0]] + Addressees(rest);
    }
  }

  /** The j-th message goes to the j-th addressee, with the id and date of
      clock t + 2j. */
  lemma {:induction false} SendsAt(idOf: nat -> string, t: nat, from: string, tos: seq<string>, kind: string, payload: Payload, j: nat)
    requires j < |tos|
    ensures var ms := Sends(idOf, t, from, tos, kind, payload);
      |ms| == |tos| && ms[j] == Stamped(idOf, t + 2 * j, from, tos[j], kind, payload)
    decreases |tos|
  {
    SendsAddressees(idOf, t, from, tos, kind, payload);
    if j > 0 {
      SendsAt(idOf, t + 2, from, tos[1..], kind, payload, j - 1);
      assert Sends(idOf, t, from, tos, kind, payload)[j] == Sends(idOf, t + 2, from, tos[1..], kind, payload)[j - 1];
    }
  }

  /** Over agents stored under their own ids, the recipients are the ids in
      Map order without the sender. */
  lemma {:induction false} RecipientsInOrder(m: map<string, Agent>, ids: seq<string>, from: string)
    requires forall id :: id in m ==> m[id].id == id
    requires forall k :: 0 <= k < |ids| ==> ids[k] in m
    ensures Recipients(InOrder(m, ids), from) == Without(ids, from)
  {
    if ids != [] {
      assert forall k :: 0 <= k < |ids[1..]| ==> ids[1..][k] == ids[k + 1];
      RecipientsInOrder(m, ids[1..], from);
      assert InOrder(m, ids) == [m[ids[0]]] + InOrder(m, ids[1..]);
    }
  }

  /** `Without(ids, x)` keeps every other id and its order, and drops `x`. */
  lemma {:induction false} WithoutSpec(ids: seq<string>, x: string)
    ensures x !in Without(ids, x)
    ensures forall id :: id in Without(ids, x) <==> id in ids && id != x
    ensures NoRepeats(ids) ==> NoRepeats(Without(ids, x))
  {
    if ids != [] {
      WithoutSpec(ids[1..], x);
      if NoRepeats(ids) {
        assert NoRepeats(ids[1..]) by {
          forall a, b | 0 <= a < b < |ids[1..]| ensures ids[1..][a] != ids[1..][b] {
            assert ids[1..][a] == ids[a + 1] && ids[1..][b] == ids[b + 1];
          }
        }
        var rest := Without(ids[1..], x);
        if ids[0] != x {
          assert ids[0] !in ids[1..];
          var w := [ids[0]] + rest;
          forall a, b | 0 <= a < b < |w| ensures w[a] != w[b] {
            if a == 0 { assert w[b] == rest[b - 1] && w[b] in rest; }
            else { assert w[a] == rest[a - 1] && w[b] == rest[b - 1]; }
          }
        }
      }
    }
  }

  /** broadcastToAgents' loop, one agent further. */
  lemma RecipientsSnoc(agents: seq<Agent>, k: nat, from: string)
    requires k < |agents|
    ensures Recipients(agents[..k + 1], from)
         == Recipients(agents[..k], from) + (if agents[k].id != from then [agents[k].id] else [])
  {
    RecipientsSplit(agents[..k], [agents[k]], from);
    assert agents[..k] + [agents[k]] == agents[..k + 1];
  }

  lemma {:induction false} RecipientsSplit(a: seq<Agent>, b: seq<Agent>, from: string)
    ensures Recipients(a + b, from) == Recipients(a, from) + Recipients(b, from)
  {
    if a == [] {
      assert a + b == b;
    } else {
      assert (a + b)[1..] == a[1..] + b;
      RecipientsSplit(a[1..], b, from);
    }
  }

  /** One more addressee adds one message, at the clock after the others. */
  lemma {:induction false} SendsSnoc(idOf: nat -> string, t: nat, from: string, tos: seq<string>, to: string, kind: string, payload: Payload)
    ensures Sends(idOf, t, from, tos + [to], kind, payload)
         == Sends(idOf, t, from, tos, kind, payload) + [Stamped(idOf, t + 2 * |tos|, from, to, kind, payload)]
    decreases |tos|
  {
    if tos == [] {
      assert [] + [to] == [to];
    } else {
      assert (tos + [to])[1..] == tos[1..] + [to];
      SendsSnoc(idOf, t + 2, from, tos[1..], to, kind, payload);
    }
  }

  /** One more sendMessage during a broadcast logs the next message of the
      broadcast. */
  lemma BroadcastStep(s: Store, idOf: nat -> string, from: string, tos: seq<string>, to: string, kind: string, payload: Payload,
                      sent: seq<Message>, m: Message, before: Store, after: Store)
    requires sent == Sends(idOf, s.tick, from, tos, kind, payload)
    requires before == Logged(s, sent)
    requires (after, m) == AfterSendMessage(before, idOf, from, to, kind, payload)
    ensures sent + [m] == Sends(idOf, s.tick, from, tos + [to], kind, payload)
    ensures after == Logged(s, sent + [m])
  {
    SendsAddressees(idOf, s.tick, from, tos, kind, payload);
    SendsSnoc(idOf, s.tick, from, tos, to, kind, payload);
    if sent != [] {
      CappedAppend(s.messages + sent, [m]);
      assert s.messages + sent + [m] == s.messages + (sent + [m]);
    } else {
      assert sent + [m] == [m];
    }
  }

  /** Replacing the log by one within the cap, and moving the clock, keeps a
      store well formed. */
  lemma LogReplaced(s: Store, log: seq<Message>, t: nat)
    requires WellFormed(s) && |log| <= MessageCap
    ensures WellFormed(s.(messages := log, tick := t))
  {
  }

  /** broadcastToAgents on a well-formed store sends exactly one message to
      each registered agent whose id differs from the sender, in Map order. */
  lemma BroadcastSends(s: Store, idOf: nat -> string, from: string, kind: string, payload: Payload)
    requires WellFormed(s)
    ensures var sent := AfterBroadcast(s, idOf, from, kind, payload).1;
      && sent == Sends(idOf, s.tick, from, Without(s.agentIds, from), kind, payload)
      && Addressees(sent) == Without(s.agentIds, from)
      && NoRepeats(Addressees(sent))
      && (forall id :: id in Addressees(sent) <==> id in s.agents && id != from)
  {
    RecipientsInOrder(s.agents, s.agentIds, from);
    WithoutSpec(s.agentIds, from);
    SendsAddressees(idOf, s.tick, from, Without(s.agentIds, from), kind, payload);
  }

  /** A broadcast appends what it sent to the log, under the cap, moves the
      clock two steps per message and changes nothing else. */
  lemma BroadcastStore(s: Store, idOf: nat -> string, from: string, kind: string, payload: Payload)
    requires WellFormed(s)
    ensures var (s', sent) := AfterBroadcast(s, idOf, from, kind, payload);
      && s' == s.(messages := Capped(s.messages + sent), tick := s.tick + 2 * |sent|)
      && WellFormed(s')
  {
    var (s', sent) := AfterBroadcast(s, idOf, from, kind, payload);
    assert s.messages + [] == s.messages;
    LogReplaced(s, Capped(s.messages + sent), s.tick + 2 * |sent|);
  }

  // ---------------------------------------------------------------------------
  // Properties of the pipeline

  /** Draining a queue then more queued ids is draining them all in turn. */
  lemma {:induction false} DrainAppend(s: Store, idOf: nat -> string, step: (string, nat) -> StepOutcome, q: seq<string>, r: seq<string>)
    ensures AfterDrain(s, idOf, step, q + r) == AfterDrain(AfterDrain(s, idOf, step, q), idOf, step, r)
    decreases |q|
  {
    if q == [] {
      assert q + r == r;
    } else {
      assert (q + r)[0] == q[0] && (q + r)[1..] == q[1..] + r;
      DrainAppend(AfterProcessJob(s, idOf, step, q[0]), idOf, step, q[1..], r);
    }
  }

  lemma UpdatedTwice(m: map<string, Agent>, id: string, a: string, b: Option<string>, c: string, d: Option<string>)
    ensures Updated(Updated(m, id, a, b), id, c, d) == Updated(m, id, c, d)
  {
  }

  /** An iteration whose agent returns results goes on with the Advanced store. */
  lemma StepCompletedForm(s: Store, idOf: nat -> string, jobId: string, alias: Job, order: seq<string>, i: nat, results: Dict)
    requires i < |order| && jobId in s.jobs
    ensures AfterAgentStep(s, idOf, jobId, alias, order, i, Completed(results)) == (Advanced(s, idOf, jobId, alias, order, i, results), true)
  {
    var req := Request(idOf, s.tick, jobId, alias, order, i);
    var done := Stamped(idOf, s.tick + 2, order[i], "orchestrator", "process_complete", ProcessComplete(jobId, results));
    var s1 := BeginStep(s, idOf, jobId, alias, order[i], Dependencies(order, i));
    assert s1 == s.(agents := Updated(s.agents, order[i], "processing", Some(jobId)), messages := Capped(s.messages + [req]),
                    tick := s.tick + 2);
    UpdatedTwice(s.agents, order[i], "processing", Some(jobId), "idle", None);
    CappedAppend(s.messages + [req], [done]);
    assert s.messages + [req] + [done] == s.messages + [req, done];
  }

  /** An iteration whose agent throws stops the loop with the Aborted store. */
  lemma StepThrewForm(s: Store, idOf: nat -> string, jobId: string, alias: Job, order: seq<string>, i: nat, msg: string)
    requires i < |order| && jobId in s.jobs
    ensures AfterAgentStep(s, idOf, jobId, alias, order, i, Threw(msg)) == (Aborted(s, idOf, jobId, alias, order, i, msg), false)
  {
    var req := Request(idOf, s.tick, jobId, alias, order, i);
    var err := Stamped(idOf, s.tick + 2, order[i], "orchestrator", "process_error", ProcessError(jobId, msg));
    var s1 := BeginStep(s, idOf, jobId, alias, order[i], Dependencies(order, i));
    assert s1 == s.(agents := Updated(s.agents, order[i], "processing", Some(jobId)), messages := Capped(s.messages + [req]),
                    tick := s.tick + 2);
    CappedAppend(s.messages + [req], [err]);
    assert s.messages + [req] + [err] == s.messages + [req, err];
  }

  /** The end of a job that went through every agent is Finalized. */
  lemma CompleteForm(s: Store, idOf: nat -> string, jobId: string)
    requires jobId in s.jobs
    ensures AfterComplete(s, idOf, jobId) == Finalized(s, idOf, jobId)
  {
  }

  /** The calls of an iteration whose agent returns results, one store after
      another, end in the Advanced store. */
  lemma IterationCompleted(st: Store, idOf: nat -> string, jobId: string, alias: Job, order: seq<string>, i: nat, results: Dict,
                           s1: Store, s2: Store, s3: Store, s4: Store, s5: Store)
    requires i < |order| && jobId in st.jobs
    requires s1 == AfterUpdateAgent(st, order[i], "processing", Some(jobId)).0
    requires s2 == AfterSendMessage(s1, idOf, "orchestrator", order[i], "process_request",
                                    ProcessRequest(jobId, alias.fileName, alias.fileType, Dependencies(order, i))).0
    requires s3 == AfterUpdateJob(s2, jobId, JobPatch(None, Some(ProgressAfter(order, i)),
                                                      Some(Put(Current(s2, jobId, alias).results, order[i], results)), None, None, None)).0
    requires s4 == AfterUpdateAgent(s3, order[i], "idle", None).0
    requires s5 == AfterSendMessage(s4, idOf, order[i], "orchestrator", "process_complete", ProcessComplete(jobId, results)).0
    ensures s5 == Advanced(st, idOf, jobId, alias, order, i, results)
  {
    StepCompletedForm(st, idOf, jobId, alias, order, i, results);
  }

  /** The calls of an iteration whose agent throws end in the Aborted store. */
  lemma IterationThrew(st: Store, idOf: nat -> string, jobId: string, alias: Job, order: seq<string>, i: nat, msg: string,
                       s1: Store, s2: Store, s3: Store, s4: Store)
    requires i < |order| && jobId in st.jobs
    requires s1 == AfterUpdateAgent(st, order[i], "processing", Some(jobId)).0
    requires s2 == AfterSendMessage(s1, idOf, "orchestrator", order[i], "process_request",
                                    ProcessRequest(jobId, alias.fileName, alias.fileType, Dependencies(order, i))).0
    requires s3 == AfterUpdateJob(s2, jobId, JobPatch(Some("error"), None, None, None, None, Some(msg))).0
    requires s4 == AfterSendMessage(s3, idOf, order[i], "orchestrator", "process_error", ProcessError(jobId, msg)).0
    ensures s4 == Aborted(st, idOf, jobId, alias, order, i, msg)
  {
    StepThrewForm(st, idOf, jobId, alias, order, i, msg);
  }

  /** An agent that throws ends the run with the Aborted store. */
  lemma RunFromThrew(st: Store, idOf: nat -> string, step: (string, nat) -> StepOutcome, jobId: string, alias: Job,
                     order: seq<string>, i: nat, msg: string)
    requires jobId in st.jobs && i < |order| && step(jobId, i) == Threw(msg)
    ensures AfterRunFrom(st, idOf, step, jobId, alias, order, i) == Aborted(st, idOf, jobId, alias, order, i, msg)
  {
  }

  /** The calls that end a job that went through every agent end in the
      Finalized store, which is where the run ends. */
  lemma CompletionSteps(st: Store, idOf: nat -> string, jobId: string, s1: Store, s2: Store, s3: Store)
    requires jobId in st.jobs
    requires s1 == st.(tick := st.tick + 1)
    requires s2 == AfterUpdateJob(s1, jobId, JobPatch(Some("completed"), Some(100), None, None, Some(st.tick), None)).0
    requires s3 == AfterBroadcast(s2, idOf, "orchestrator", "job_completed", JobCompleted(jobId)).0
    ensures s3 == Finalized(st, idOf, jobId)
  {
    CompleteForm(st, idOf, jobId);
  }

  lemma ProcessJobResult(s: Store, idOf: nat -> string, step: (string, nat) -> StepOutcome, jobId: string, s0: Store, r: Store)
    requires jobId in s.jobs
    requires s0 == AfterUpdateJob(s.(tick := s.tick + 1), jobId, JobPatch(Some("processing"), None, None, Some(s.tick), None, None)).0
    requires r == AfterRun(s0, idOf, step, jobId, s.jobs[jobId], AgentOrder)
    ensures r == AfterProcessJob(s, idOf, step, jobId)
  {
  }

  /** The request and report of one more agent extend the log of a run. */
  lemma RunPairsNext(idOf: nat -> string, t: nat, step: (string, nat) -> StepOutcome, jobId: string, alias: Job,
                     order: seq<string>, n: nat)
    requires n < |order|
    ensures RunPairs(idOf, t, step, jobId, alias, order, n + 1)
         == RunPairs(idOf, t, step, jobId, alias, order, n)
            + [Request(idOf, t + 4 * n, jobId, alias, order, n), Report(idOf, t + 4 * n, step, jobId, order, n)]
  {
  }

  /** Appending to the log of a run after n agents, and trimming, is trimming
      once the run's messages and the new ones are appended to the first log. */
  lemma RunLogAppend(log: seq<Message>, idOf: nat -> string, t: nat, step: (string, nat) -> StepOutcome, jobId: string, alias: Job,
                     order: seq<string>, n: nat, more: seq<Message>)
    requires n <= |order|
    ensures Capped(RunLog(log, idOf, t, step, jobId, alias, order, n) + more)
         == Capped(log + RunPairs(idOf, t, step, jobId, alias, order, n) + more)
  {
    var before := RunPairs(idOf, t, step, jobId, alias, order, n);
    if n == 0 {
      assert log + before == log;
    } else {
      CappedAppend(log + before, more);
    }
  }

  /** One more agent's request and report extend the log of a run. */
  lemma RunLogNext(log: seq<Message>, idOf: nat -> string, t: nat, step: (string, nat) -> StepOutcome, jobId: string, alias: Job,
                   order: seq<string>, n: nat)
    requires n < |order|
    ensures RunLog(log, idOf, t, step, jobId, alias, order, n + 1)
         == Capped(RunLog(log, idOf, t, step, jobId, alias, order, n)
                   + [Request(idOf, t + 4 * n, jobId, alias, order, n), Report(idOf, t + 4 * n, step, jobId, order, n)])
  {
    var before := RunPairs(idOf, t, step, jobId, alias, order, n);
    var pair := [Request(idOf, t + 4 * n, jobId, alias, order, n), Report(idOf, t + 4 * n, step, jobId, order, n)];
    RunPairsNext(idOf, t, step, jobId, alias, order, n);
    RunLogAppend(log, idOf, t, step, jobId, alias, order, n, pair);
    assert log + before + pair == log + (before + pair);
  }

  /** The loop's step: after the first n agents, one more that returns
      results brings the store to the one after the first n + 1. */
  lemma PartialNext(s: Store, idOf: nat -> string, step: (string, nat) -> StepOutcome, jobId: string, alias: Job,
                    order: seq<string>, n: nat)
    requires jobId in s.jobs && n < |order|
    ensures Partial(s, idOf, step, jobId, alias, order, n + 1)
         == Advanced(Partial(s, idOf, step, jobId, alias, order, n), idOf, jobId, alias, order, n, ResultsOf(step(jobId, n)))
  {
    var p := Partial(s, idOf, step, jobId, alias, order, n);
    var q := Partial(s, idOf, step, jobId, alias, order, n + 1);
    var r := Advanced(p, idOf, jobId, alias, order, n, ResultsOf(step(jobId, n)));
    assert p.tick == s.tick + 4 * n;
    RunLogNext(s.messages, idOf, s.tick, step, jobId, alias, order, n);
    assert r.messages == q.messages;
    assert r.jobs == q.jobs;
    assert r.agents == q.agents;
  }


  /** Agents keyed alike, with the same ids, are addressed alike. */
  lemma {:induction false} RecipientsSameIds(m: map<string, Agent>, m': map<string, Agent>, ids: seq<string>, from: string)
    requires forall id :: id in m' <==> id in m
    requires forall id :: id in m ==> m'[id].id == m[id].id
    ensures Recipients(InOrder(m', ids), from) == Recipients(InOrder(m, ids), from)
  {
    if ids != [] {
      RecipientsSameIds(m, m', ids[1..], from);
      var x := ids[0];
      if x in m {
        assert InOrder(m, ids) == [m[x]] + InOrder(m, ids[1..]);
        assert InOrder(m', ids) == [m'[x]] + InOrder(m', ids[1..]);
      } else {
        assert InOrder(m, ids) == InOrder(m, ids[1..]);
        assert InOrder(m', ids) == InOrder(m', ids[1..]);
      }
    }
  }

  /** Marking agents idle changes no agent's id, so a broadcast addresses the
      same agents. */
  lemma {:induction false} IdleFromRecipients(m: map<string, Agent>, order: seq<string>, n: nat, ids: seq<string>, from: string)
    requires n <= |order|
    ensures Recipients(InOrder(IdleFrom(m, order, n), ids), from) == Recipients(InOrder(m, ids), from)
  {
    if n > 0 {
      var prev := IdleFrom(m, order, n - 1);
      IdleFromRecipients(m, order, n - 1, ids, from);
      RecipientsSameIds(prev, Updated(prev, order[n - 1], "idle", None), ids, from);
    }
  }

  /** The agents of the run end idle with no current job; every other agent,
      and every agent's id, is kept. */
  lemma {:induction false} IdleFromSpec(m: map<string, Agent>, order: seq<string>, n: nat)
    requires n <= |order|
    ensures var r := IdleFrom(m, order, n);
      && (forall id :: id in r <==> id in m)
      && (forall id :: id in m && id in order[..n] ==> r[id] == m[id].(status := "idle", currentJob := None))
      && (forall id :: id in m && id !in order[..n] ==> r[id] == m[id])
  {
    if n > 0 {
      IdleFromSpec(m, order, n - 1);
      assert order[..n] == order[..n - 1] + [order[n - 1]];
    }
  }

  /** After the run, the results hold under each agent's id what that agent
      returned. */
  lemma {:induction false} MergedFromAt(results: Assoc<string, Dict>, step: (string, nat) -> StepOutcome, jobId: string,
                                        order: seq<string>, n: nat, k: nat)
    requires k < n <= |order| && NoRepeats(order)
    ensures Get(MergedFrom(results, step, jobId, order, n), order[k]) == Some(ResultsOf(step(jobId, k)))
  {
    var prev := MergedFrom(results, step, jobId, order, n - 1);
    PutGet(prev, order[n - 1], ResultsOf(step(jobId, n - 1)), order[k]);
    if k < n - 1 {
      MergedFromAt(results, step, jobId, order, n - 1, k);
      assert order[k] != order[n - 1];
    }
  }

  /** After the run, every key that is not an agent's id holds what it held
      before. */
  lemma {:induction false} MergedFromOther(results: Assoc<string, Dict>, step: (string, nat) -> StepOutcome, jobId: string,
                                           order: seq<string>, n: nat, a: string)
    requires n <= |order| && a !in order[..n]
    ensures Get(MergedFrom(results, step, jobId, order, n), a) == Get(results, a)
  {
    if n > 0 {
      var prev := MergedFrom(results, step, jobId, order, n - 1);
      PutGet(prev, order[n - 1], ResultsOf(step(jobId, n - 1)), a);
      assert order[..n] == order[..n - 1] + [order[n - 1]];
      MergedFromOther(results, step, jobId, order, n - 1, a);
    }
  }

  /** Results that start empty end with one entry per agent, in run order. */
  lemma {:induction false} MergedFromKeys(step: (string, nat) -> StepOutcome, jobId: string, order: seq<string>, n: nat)
    requires n <= |order| && NoRepeats(order)
    ensures Keys(MergedFrom([], step, jobId, order, n)) == order[..n]
  {
    if n > 0 {
      var prev := MergedFrom([], step, jobId, order, n - 1);
      var x := order[n - 1];
      var v := ResultsOf(step(jobId, n - 1));
      assert MergedFrom([], step, jobId, order, n) == Put(prev, x, v);
      MergedFromKeys(step, jobId, order, n - 1);
      LastIsNew(order, n);
      KeysPutNew(prev, x, v);
      TakeLast(order, n);
    }
  }

  /** Without repeats, the n-th id is not among the ones before it. */
  lemma LastIsNew(order: seq<string>, n: nat)
    requires 0 < n <= |order| && NoRepeats(order)
    ensures order[n - 1] !in order[..n - 1]
  {
    forall j | 0 <= j < n - 1
      ensures order[j] != order[n - 1]
    {
    }
  }

  /** The log of a run: for each agent in turn, the request with its
      dependencies and then the agent's completion report. */
  lemma {:induction false} RunPairsAt(idOf: nat -> string, t: nat, step: (string, nat) -> StepOutcome, jobId: string, alias: Job,
                                      order: seq<string>, n: nat, k: nat)
    requires k < n <= |order|
    ensures var ms := RunPairs(idOf, t, step, jobId, alias, order, n);
      && 2 * k + 1 < |ms|
      && ms[2 * k] == Request(idOf, t + 4 * k, jobId, alias, order, k)
      && ms[2 * k + 1] == Report(idOf, t + 4 * k, step, jobId, order, k)
  {
    var prev := RunPairs(idOf, t, step, jobId, alias, order, n - 1);
    var pair := [Request(idOf, t + 4 * (n - 1), jobId, alias, order, n - 1), Report(idOf, t + 4 * (n - 1), step, jobId, order, n - 1)];
    var ms := RunPairs(idOf, t, step, jobId, alias, order, n);
    assert ms == prev + pair;
    RunPairsLength(idOf, t, step, jobId, alias, order, n - 1);
    if k < n - 1 {
      RunPairsAt(idOf, t, step, jobId, alias, order, n - 1, k);
      assert ms[2 * k] == prev[2 * k] && ms[2 * k + 1] == prev[2 * k + 1];
    } else {
      assert ms[2 * k] == pair[0] && ms[2 * k + 1] == pair[1];
    }
  }

  lemma {:induction false} RunPairsLength(idOf: nat -> string, t: nat, step: (string, nat) -> StepOutcome, jobId: string, alias: Job,
                                          order: seq<string>, n: nat)
    requires n <= |order|
    ensures |RunPairs(idOf, t, step, jobId, alias, order, n)| == 2 * n
  {
    if n > 0 {
      RunPairsLength(idOf, t, step, jobId, alias, order, n - 1);
    }
  }

  lemma AgentOrderFacts()
    ensures NoRepeats(AgentOrder)
    ensures forall i :: 0 <= i < |AgentOrder| ==> ProgressAfter(AgentOrder, i) == 25 * (i + 1)
  {
  }

  /** processJob on a stored job: the start update, then the run over the
      agent order. */
  lemma ProcessJobForm(s: Store, idOf: nat -> string, step: (string, nat) -> StepOutcome, jobId: string)
    requires jobId in s.jobs
    ensures var j := s.jobs[jobId];
      var s0 := s.(jobs := s.jobs[jobId := j.(status := "processing", startedAt := Some(s.tick))], tick := s.tick + 1);
      && AfterStart(s, jobId) == s0
      && AfterProcessJob(s, idOf, step, jobId) == AfterRun(s0, idOf, step, jobId, j, AgentOrder)
  {
  }

  /** No agent has run yet. */
  lemma PartialZero(s: Store, idOf: nat -> string, step: (string, nat) -> StepOutcome, jobId: string, alias: Job, order: seq<string>)
    requires jobId in s.jobs
    ensures Partial(s, idOf, step, jobId, alias, order, 0) == s
  {
    assert RunJob(s.jobs[jobId], step, jobId, order, 0) == s.jobs[jobId];
  }

  /** An agent that returns results hands the run on to the next one. */
  lemma RunFromNext(st: Store, idOf: nat -> string, step: (string, nat) -> StepOutcome, jobId: string, alias: Job,
                    order: seq<string>, i: nat)
    requires jobId in st.jobs && i < |order| && step(jobId, i).Completed?
    ensures AfterRunFrom(st, idOf, step, jobId, alias, order, i)
         == AfterRunFrom(Advanced(st, idOf, jobId, alias, order, i, ResultsOf(step(jobId, i))), idOf, step, jobId, alias, order, i + 1)
  {
  }

  /** Once the first n agents have returned results, the rest of the run
      goes on from the store Partial describes. */
  lemma {:induction false} RunFromPartial(s: Store, idOf: nat -> string, step: (string, nat) -> StepOutcome, jobId: string, alias: Job,
                                          order: seq<string>, n: nat)
    requires jobId in s.jobs && n <= |order|
    requires forall k :: 0 <= k < n ==> step(jobId, k).Completed?
    ensures AfterRunFrom(Partial(s, idOf, step, jobId, alias, order, n), idOf, step, jobId, alias, order, n)
         == AfterRun(s, idOf, step, jobId, alias, order)
  {
    if n == 0 {
      PartialZero(s, idOf, step, jobId, alias, order);
    } else {
      RunFromPartial(s, idOf, step, jobId, alias, order, n - 1);
      var p := Partial(s, idOf, step, jobId, alias, order, n - 1);
      RunFromNext(p, idOf, step, jobId, alias, order, n - 1);
      PartialNext(s, idOf, step, jobId, alias, order, n - 1);
    }
  }

  /** A run in which no agent throws: every agent Advanced the store, and the
      job is Finalized. */
  lemma RunCompletes(s: Store, idOf: nat -> string, step: (string, nat) -> StepOutcome, jobId: string, alias: Job, order: seq<string>)
    requires jobId in s.jobs
    requires forall k :: 0 <= k < |order| ==> step(jobId, k).Completed?
    ensures AfterRun(s, idOf, step, jobId, alias, order)
         == Finalized(Partial(s, idOf, step, jobId, alias, order, |order|), idOf, jobId)
  {
    RunFromPartial(s, idOf, step, jobId, alias, order, |order|);
  }

  /** A run whose f-th agent throws after the ones before it returned
      results: those Advanced the store, and the f-th Aborted it. */
  lemma RunFails(s: Store, idOf: nat -> string, step: (string, nat) -> StepOutcome, jobId: string, alias: Job, order: seq<string>, f: nat)
    requires jobId in s.jobs && f < |order|
    requires forall k :: 0 <= k < f ==> step(jobId, k).Completed?
    requires step(jobId, f).Threw?
    ensures AfterRun(s, idOf, step, jobId, alias, order)
         == Aborted(Partial(s, idOf, step, jobId, alias, order, f), idOf, jobId, alias, order, f, step(jobId, f).message)
  {
    RunFromPartial(s, idOf, step, jobId, alias, order, f);
  }

  /** Finalizing a store whose log is that of a run over all of `order`
      appends one completion notice per registered agent but the orchestrator. */
  lemma FinalizedLog(p: Store, idOf: nat -> string, step: (string, nat) -> StepOutcome, jobId: string, alias: Job, order: seq<string>,
                     log: seq<Message>, t: nat)
    requires jobId in p.jobs && 0 < |order|
    requires p.messages == RunLog(log, idOf, t, step, jobId, alias, order, |order|)
    ensures var sent := Sends(idOf, p.tick + 1, "orchestrator", Recipients(InOrder(p.agents, p.agentIds), "orchestrator"),
                              "job_completed", JobCompleted(jobId));
      && Finalized(p, idOf, jobId).messages == Capped(log + RunPairs(idOf, t, step, jobId, alias, order, |order|) + sent)
      && Finalized(p, idOf, jobId).tick == p.tick + 1 + 2 * |sent|
  {
    var pairs := RunPairs(idOf, t, step, jobId, alias, order, |order|);
    var sent := Sends(idOf, p.tick + 1, "orchestrator", Recipients(InOrder(p.agents, p.agentIds), "orchestrator"),
                      "job_completed", JobCompleted(jobId));
    RunLogAppend(log, idOf, t, step, jobId, alias, order, |order|, sent);
    assert p.messages + [] == p.messages;
    assert log + pairs + [] == log + pairs;
  }

  /** The log of a completed run: each agent's request and report, then one
      completion notice per registered agent but the orchestrator. */
  lemma CompletedLog(s: Store, idOf: nat -> string, step: (string, nat) -> StepOutcome, jobId: string, alias: Job, order: seq<string>)
    requires jobId in s.jobs && 0 < |order|
    ensures var n := |order|;
      var r := Finalized(Partial(s, idOf, step, jobId, alias, order, n), idOf, jobId);
      var sent := Sends(idOf, s.tick + 4 * n + 1, "orchestrator", Recipients(InOrder(s.agents, s.agentIds), "orchestrator"),
                        "job_completed", JobCompleted(jobId));
      && r.messages == Capped(s.messages + RunPairs(idOf, s.tick, step, jobId, alias, order, n) + sent)
      && r.tick == s.tick + 4 * n + 1 + 2 * |sent|
  {
    var n := |order|;
    var p := Partial(s, idOf, step, jobId, alias, order, n);
    assert p.messages == RunLog(s.messages, idOf, s.tick, step, jobId, alias, order, n);
    assert p.tick == s.tick + 4 * n && p.agentIds == s.agentIds && jobId in p.jobs;
    assert p.agents == IdleFrom(s.agents, order, n);
    IdleFromRecipients(s.agents, order, n, s.agentIds, "orchestrator");
    FinalizedLog(p, idOf, step, jobId, alias, order, s.messages, s.tick);
  }

  /** Aborting a store whose log is that of a run over order[..f] appends
      the f-th agent's request and error report. */
  lemma AbortedLog(p: Store, idOf: nat -> string, step: (string, nat) -> StepOutcome, jobId: string, alias: Job, order: seq<string>,
                   f: nat, msg: string, log: seq<Message>, t: nat)
    requires jobId in p.jobs && f < |order|
    requires p.messages == RunLog(log, idOf, t, step, jobId, alias, order, f)
    ensures Aborted(p, idOf, jobId, alias, order, f, msg).messages
         == Capped(log + RunPairs(idOf, t, step, jobId, alias, order, f)
                   + [Request(idOf, p.tick, jobId, alias, order, f),
                      Stamped(idOf, p.tick + 2, order[f], "orchestrator", "process_error", ProcessError(jobId, msg))])
  {
    var last := [Request(idOf, p.tick, jobId, alias, order, f),
                 Stamped(idOf, p.tick + 2, order[f], "orchestrator", "process_error", ProcessError(jobId, msg))];
    RunLogAppend(log, idOf, t, step, jobId, alias, order, f, last);
  }

  lemma UpdateTwice<K, V>(m: map<K, V>, k: K, a: V, b: V)
    ensures m[k := a][k := b] == m[k := b]
  {
  }

  /** The job after a run in which every agent returns results: completed at
      progress 100, with the results of every agent merged in. */
  lemma RunCompletedJob(s: Store, idOf: nat -> string, step: (string, nat) -> StepOutcome, jobId: string, alias: Job, order: seq<string>)
    requires jobId in s.jobs
    requires forall k :: 0 <= k < |order| ==> step(jobId, k).Completed?
    ensures var j := s.jobs[jobId];
      AfterRun(s, idOf, step, jobId, alias, order).jobs
        == s.jobs[jobId := j.(status := "completed", progress := 100, completedAt := Some(s.tick + 4 * |order|),
                              results := MergedFrom(j.results, step, jobId, order, |order|))]
  {
    RunCompletes(s, idOf, step, jobId, alias, order);
    var j := s.jobs[jobId];
    var p := Partial(s, idOf, step, jobId, alias, order, |order|);
    var j1 := RunJob(j, step, jobId, order, |order|);
    assert p.jobs == s.jobs[jobId := j1] && p.tick == s.tick + 4 * |order|;
    var done := j1.(status := "completed", progress := 100, completedAt := Some(p.tick));
    assert Finalized(p, idOf, jobId).jobs == p.jobs[jobId := done];
    assert done == j.(status := "completed", progress := 100, completedAt := Some(s.tick + 4 * |order|),
                      results := MergedFrom(j.results, step, jobId, order, |order|));
    UpdateTwice(s.jobs, jobId, j1, done);
  }

  /** The agents after a run in which every agent returns results: each agent
      of the run set idle in turn. */
  lemma RunCompletedAgents(s: Store, idOf: nat -> string, step: (string, nat) -> StepOutcome, jobId: string, alias: Job, order: seq<string>)
    requires jobId in s.jobs
    requires forall k :: 0 <= k < |order| ==> step(jobId, k).Completed?
    ensures var s' := AfterRun(s, idOf, step, jobId, alias, order);
      s'.agents == IdleFrom(s.agents, order, |order|) && s'.agentIds == s.agentIds && s'.jobIds == s.jobIds
  {
    RunCompletes(s, idOf, step, jobId, alias, order);
  }

  /** The log after a run in which every agent returns results. */
  lemma RunCompletedMessages(s: Store, idOf: nat -> string, step: (string, nat) -> StepOutcome, jobId: string, alias: Job, order: seq<string>)
    requires jobId in s.jobs && 0 < |order|
    requires forall k :: 0 <= k < |order| ==> step(jobId, k).Completed?
    ensures var s' := AfterRun(s, idOf, step, jobId, alias, order);
      var sent := Sends(idOf, s.tick + 4 * |order| + 1, "orchestrator", Recipients(InOrder(s.agents, s.agentIds), "orchestrator"),
                        "job_completed", JobCompleted(jobId));
      && s'.messages == Capped(s.messages + RunPairs(idOf, s.tick, step, jobId, alias, order, |order|) + sent)
      && s'.tick == s.tick + 4 * |order| + 1 + 2 * |sent|
  {
    CompletedLog(s, idOf, step, jobId, alias, order);
    RunCompletes(s, idOf, step, jobId, alias, order);
  }

  /** The job after a run whose f-th agent throws: in error with the
      message, with the progress and results of the agents before. */
  lemma RunFailedJob(s: Store, idOf: nat -> string, step: (string, nat) -> StepOutcome, jobId: string, alias: Job, order: seq<string>, f: nat)
    requires jobId in s.jobs && f < |order|
    requires forall k :: 0 <= k < f ==> step(jobId, k).Completed?
    requires step(jobId, f).Threw?
    ensures var j := s.jobs[jobId];
      var j1 := RunJob(j, step, jobId, order, f);
      AfterRun(s, idOf, step, jobId, alias, order).jobs
        == s.jobs[jobId := j1.(status := "error", errorMessage := Some(step(jobId, f).message))]
  {
    RunFails(s, idOf, step, jobId, alias, order, f);
    var p := Partial(s, idOf, step, jobId, alias, order, f);
    var j1 := RunJob(s.jobs[jobId], step, jobId, order, f);
    assert p.jobs == s.jobs[jobId := j1];
    UpdateTwice(s.jobs, jobId, j1, j1.(status := "error", errorMessage := Some(step(jobId, f).message)));
  }

  /** The agents after a run whose f-th agent throws: those before it set
      idle in turn, and the f-th left busy with the job. */
  lemma RunFailedAgents(s: Store, idOf: nat -> string, step: (string, nat) -> StepOutcome, jobId: string, alias: Job, order: seq<string>, f: nat)
    requires jobId in s.jobs && f < |order|
    requires forall k :: 0 <= k < f ==> step(jobId, k).Completed?
    requires step(jobId, f).Threw?
    ensures var s' := AfterRun(s, idOf, step, jobId, alias, order);
      && s'.agents == Updated(IdleFrom(s.agents, order, f), order[f], "processing", Some(jobId))
      && s'.agentIds == s.agentIds && s'.jobIds == s.jobIds
  {
    RunFails(s, idOf, step, jobId, alias, order, f);
  }

  /** The log after a run whose f-th agent throws: the requests and reports
      of the agents before it, then its request and error report. */
  lemma RunFailedMessages(s: Store, idOf: nat -> string, step: (string, nat) -> StepOutcome, jobId: string, alias: Job, order: seq<string>, f: nat)
    requires jobId in s.jobs && f < |order|
    requires forall k :: 0 <= k < f ==> step(jobId, k).Completed?
    requires step(jobId, f).Threw?
    ensures var s' := AfterRun(s, idOf, step, jobId, alias, order);
      var t := s.tick + 4 * f;
      && s'.messages == Capped(s.messages + RunPairs(idOf, s.tick, step, jobId, alias, order, f)
                               + [Request(idOf, t, jobId, alias, order, f),
                                  Stamped(idOf, t + 2, order[f], "orchestrator", "process_error",
                                          ProcessError(jobId, step(jobId, f).message))])
      && s'.tick == t + 4
  {
    RunFails(s, idOf, step, jobId, alias, order, f);
    var t := s.tick + 4 * f;
    var last := [Request(idOf, t, jobId, alias, order, f),
                 Stamped(idOf, t + 2, order[f], "orchestrator", "process_error", ProcessError(jobId, step(jobId, f).message))];
    RunLogAppend(s.messages, idOf, s.tick, step, jobId, alias, order, f, last);
  }

  // ---------------------------------------------------------------------------
  // processJob on a stored job, over the four agents

  /** While a job runs, its progress after the n-th agent is 25 * n. */
  lemma ProgressSteps(s: Store, idOf: nat -> string, step: (string, nat) -> StepOutcome, jobId: string, alias: Job, n: nat)
    requires jobId in s.jobs && 0 < n <= |AgentOrder|
    ensures Partial(s, idOf, step, jobId, alias, AgentOrder, n).jobs[jobId].progress == 25 * n
  {
    AgentOrderFacts();
  }

  /** A job all of whose agents return results ends with status "completed",
      progress 100, its start and end dates and the results of the run;
      nothing else of it changes, and no other job does. */
  lemma CompletedJob(s: Store, idOf: nat -> string, step: (string, nat) -> StepOutcome, jobId: string)
    requires jobId in s.jobs
    requires forall k :: 0 <= k < |AgentOrder| ==> step(jobId, k).Completed?
    ensures var j := s.jobs[jobId];
      AfterProcessJob(s, idOf, step, jobId).jobs
        == s.jobs[jobId := j.(status := "completed", progress := 100, startedAt := Some(s.tick), completedAt := Some(s.tick + 17),
                              results := MergedFrom(j.results, step, jobId, AgentOrder, |AgentOrder|))]
  {
    var j := s.jobs[jobId];
    var s0 := AfterStart(s, jobId);
    var j0 := j.(status := "processing", startedAt := Some(s.tick));
    ProcessJobForm(s, idOf, step, jobId);
    RunCompletedJob(s0, idOf, step, jobId, j, AgentOrder);
    UpdateTwice(s.jobs, jobId, j0, j0.(status := "completed", progress := 100, completedAt := Some(s.tick + 17),
                                       results := MergedFrom(j.results, step, jobId, AgentOrder, |AgentOrder|)));
  }

  /** The results of a job all of whose agents return results hold, under
      each agent's id, what that agent returned, and every other entry they
      held before; results that started empty list the agents in run order. */
  lemma CompletedResults(s: Store, idOf: nat -> string, step: (string, nat) -> StepOutcome, jobId: string)
    requires jobId in s.jobs
    requires forall k :: 0 <= k < |AgentOrder| ==> step(jobId, k).Completed?
    ensures var j := s.jobs[jobId];
      var r := AfterProcessJob(s, idOf, step, jobId).jobs[jobId].results;
      && (forall k :: 0 <= k < |AgentOrder| ==> Get(r, AgentOrder[k]) == Some(step(jobId, k).results))
      && (forall a :: a !in AgentOrder ==> Get(r, a) == Get(j.results, a))
      && (j.results == [] ==> Keys(r) == AgentOrder)
  {
    var j := s.jobs[jobId];
    CompletedJob(s, idOf, step, jobId);
    AgentOrderFacts();
    var n := |AgentOrder|;
    assert AgentOrder[..n] == AgentOrder;
    forall k | 0 <= k < n ensures Get(MergedFrom(j.results, step, jobId, AgentOrder, n), AgentOrder[k]) == Some(step(jobId, k).results) {
      MergedFromAt(j.results, step, jobId, AgentOrder, n, k);
    }
    forall a | a !in AgentOrder ensures Get(MergedFrom(j.results, step, jobId, AgentOrder, n), a) == Get(j.results, a) {
      MergedFromOther(j.results, step, jobId, AgentOrder, n, a);
    }
    if j.results == [] {
      MergedFromKeys(step, jobId, AgentOrder, n);
    }
  }

  /** After a job all of whose agents return results, every agent of the run
      is idle with no current job, and every other agent is as it was. */
  lemma CompletedAgents(s: Store, idOf: nat -> string, step: (string, nat) -> StepOutcome, jobId: string)
    requires jobId in s.jobs
    requires forall k :: 0 <= k < |AgentOrder| ==> step(jobId, k).Completed?
    ensures var s' := AfterProcessJob(s, idOf, step, jobId);
      && s'.agentIds == s.agentIds && s'.jobIds == s.jobIds
      && (forall id :: id in s'.agents <==> id in s.agents)
      && (forall id :: id in s.agents && id in AgentOrder ==> s'.agents[id] == s.agents[id].(status := "idle", currentJob := None))
      && (forall id :: id in s.agents && id !in AgentOrder ==> s'.agents[id] == s.agents[id])
  {
    ProcessJobForm(s, idOf, step, jobId);
    RunCompletedAgents(AfterStart(s, jobId), idOf, step, jobId, s.jobs[jobId], AgentOrder);
    IdleFromSpec(s.agents, AgentOrder, |AgentOrder|);
    assert AgentOrder[..|AgentOrder|] == AgentOrder;
  }

  /** The log of a job all of whose agents return results: each agent's
      request and completion report in run order, then one job_completed
      notice per registered agent but the orchestrator. */
  lemma CompletedMessages(s: Store, idOf: nat -> string, step: (string, nat) -> StepOutcome, jobId: string)
    requires jobId in s.jobs
    requires forall k :: 0 <= k < |AgentOrder| ==> step(jobId, k).Completed?
    ensures var s' := AfterProcessJob(s, idOf, step, jobId);
      var sent := Sends(idOf, s.tick + 18, "orchestrator", Recipients(InOrder(s.agents, s.agentIds), "orchestrator"),
                        "job_completed", JobCompleted(jobId));
      && s'.messages == Capped(s.messages + RunPairs(idOf, s.tick + 1, step, jobId, s.jobs[jobId], AgentOrder, |AgentOrder|) + sent)
      && s'.tick == s.tick + 18 + 2 * |sent|
  {
    ProcessJobForm(s, idOf, step, jobId);
    RunCompletedMessages(AfterStart(s, jobId), idOf, step, jobId, s.jobs[jobId], AgentOrder);
  }

  /** A job whose f-th agent throws, after the ones before it returned
      results, ends with status "error" and the error's message, the progress
      and results of the agents before the failing one, and no completion
      date; no other job changes. */
  lemma FailedJob(s: Store, idOf: nat -> string, step: (string, nat) -> StepOutcome, jobId: string, f: nat)
    requires jobId in s.jobs && f < |AgentOrder|
    requires forall k :: 0 <= k < f ==> step(jobId, k).Completed?
    requires step(jobId, f).Threw?
    ensures var j := s.jobs[jobId];
      AfterProcessJob(s, idOf, step, jobId).jobs
        == s.jobs[jobId := j.(status := "error", errorMessage := Some(step(jobId, f).message),
                              progress := if f == 0 then j.progress else 25 * f, startedAt := Some(s.tick),
                              results := MergedFrom(j.results, step, jobId, AgentOrder, f))]
  {
    var j := s.jobs[jobId];
    var s0 := AfterStart(s, jobId);
    var j0 := j.(status := "processing", startedAt := Some(s.tick));
    ProcessJobForm(s, idOf, step, jobId);
    RunFailedJob(s0, idOf, step, jobId, j, AgentOrder, f);
    AgentOrderFacts();
    var j1 := RunJob(j0, step, jobId, AgentOrder, f);
    UpdateTwice(s.jobs, jobId, j0, j1.(status := "error", errorMessage := Some(step(jobId, f).message)));
  }

  /** After a job whose f-th agent throws, the agents before it are idle with
      no current job, the f-th stays busy with the job, and the later ones
      and those outside the run are as they were. */
  lemma FailedAgents(s: Store, idOf: nat -> string, step: (string, nat) -> StepOutcome, jobId: string, f: nat)
    requires jobId in s.jobs && f < |AgentOrder|
    requires forall k :: 0 <= k < f ==> step(jobId, k).Completed?
    requires step(jobId, f).Threw?
    ensures var s' := AfterProcessJob(s, idOf, step, jobId);
      && s'.agentIds == s.agentIds && s'.jobIds == s.jobIds
      && (forall id :: id in s'.agents <==> id in s.agents)
      && (forall id :: id in s.agents && id in AgentOrder[..f] ==> s'.agents[id] == s.agents[id].(status := "idle", currentJob := None))
      && (AgentOrder[f] in s.agents ==> s'.agents[AgentOrder[f]] == s.agents[AgentOrder[f]].(status := "processing", currentJob := Some(jobId)))
      && (forall id :: id in s.agents && id !in AgentOrder[..f + 1] ==> s'.agents[id] == s.agents[id])
  {
    ProcessJobForm(s, idOf, step, jobId);
    RunFailedAgents(AfterStart(s, jobId), idOf, step, jobId, s.jobs[jobId], AgentOrder, f);
    IdleFromSpec(s.agents, AgentOrder, f);
    AgentOrderFacts();
    assert AgentOrder[..f + 1] == AgentOrder[..f] + [AgentOrder[f]];
    assert AgentOrder[f] !in AgentOrder[..f];
  }

  /** The log of a job whose f-th agent throws: the request and completion
      report of each agent before it, then its request and error report; no
      job_completed notice is sent. */
  lemma FailedMessages(s: Store, idOf: nat -> string, step: (string, nat) -> StepOutcome, jobId: string, f: nat)
    requires jobId in s.jobs && f < |AgentOrder|
    requires forall k :: 0 <= k < f ==> step(jobId, k).Completed?
    requires step(jobId, f).Threw?
    ensures var s' := AfterProcessJob(s, idOf, step, jobId);
      var t := s.tick + 1 + 4 * f;
      && s'.messages == Capped(s.messages + RunPairs(idOf, s.tick + 1, step, jobId, s.jobs[jobId], AgentOrder, f)
                               + [Request(idOf, t, jobId, s.jobs[jobId], AgentOrder, f),
                                  Stamped(idOf, t + 2, AgentOrder[f], "orchestrator", "process_error",
                                          ProcessError(jobId, step(jobId, f).message))])
      && s'.tick == t + 4
  {
    ProcessJobForm(s, idOf, step, jobId);
    RunFailedMessages(AfterStart(s, jobId), idOf, step, jobId, s.jobs[jobId], AgentOrder, f);
  }

  // ---------------------------------------------------------------------------
  // The classes

  /** DatabaseConnection: the two Maps (each with its keys in insertion
      order), the message log and the clock, updated in place. */
  class DatabaseConnection {
    var jobs: map<string, Job>
    var jobIds: seq<string>
    var agents: map<string, Agent>
    var agentIds: seq<string>
    var messages: seq<Message>
    var tick: nat
    /** What `Math.random()` ids draw at each clock value. */
    const idOf: nat -> string

    function State(): Store
      reads this
    {
      Store(jobs, jobIds, agents, agentIds, messages, tick)
    }

    ghost predicate Valid()
      reads this
    {
      WellFormed(State())
    }

    constructor(idOf: nat -> string)
      ensures Valid() && State() == InitialStore() && this.idOf == idOf
    {
      this.idOf := idOf;
      jobs, jobIds, agents, agentIds, messages, tick := map[], [], map[], [], [], 0;
      new;
      InitializeAgents();
      InitialStoreSpec();
    }

    method InitializeAgents()
      modifies this
      ensures State() == AfterInitializeAgents(old(State()))
    {
      var defaultAgents := DefaultAgentList();
      ghost var s0 := State();
      var k := 0;
      while k < |defaultAgents|
        invariant k <= |defaultAgents|
        invariant SetEachById(agents, agentIds, defaultAgents[k..]) == SetEachById(s0.agents, s0.agentIds, defaultAgents)
        invariant State() == s0.(agents := agents, agentIds := agentIds)
      {
        var agent := defaultAgents[k];
        assert defaultAgents[k..][1..] == defaultAgents[k + 1..];
        if agent.id !in agents {
          agentIds := agentIds + [agent.id];
        }
        agents := agents[agent.id := agent];
        k := k + 1;
      }
    }

    /** `generateId()`: the id drawn at the current clock. */
    method GenerateId() returns (id: string)
      modifies this
      ensures id == idOf(old(tick)) && State() == old(State()).(tick := old(tick) + 1)
    {
      id := idOf(tick);
      tick := tick + 1;
    }

    /** `new Date()`: the current clock. */
    method NewDate() returns (d: nat)
      modifies this
      ensures d == old(tick) && State() == old(State()).(tick := old(tick) + 1)
    {
      d := tick;
      tick := tick + 1;
    }

    method CreateJob(data: JobData) returns (job: Job)
      requires Valid()
      modifies this
      ensures Valid() && (State(), job) == AfterCreateJob(old(State()), idOf, data)
    {
      ghost var s0 := State();
      CreateJobWellFormed(s0, idOf, data);
      var generated := GenerateId();
      var id := if data.id.Some? then data.id.value else generated;
      var createdAt := NewDate();
      assert generated == idOf(s0.tick) && createdAt == s0.tick + 1;
      assert State() == s0.(tick := s0.tick + 2);
      job := Job(id, data.fileName, data.fileType, data.fileSize, data.agents, "queued", 0, createdAt, [], None, None, None);
      assert job == AfterCreateJob(s0, idOf, data).1;
      if job.id !in jobs {
        jobIds := jobIds + [job.id];
      }
      jobs := jobs[job.id := job];
      assert State() == AfterCreateJob(s0, idOf, data).0;
    }

    method UpdateJob(jobId: string, updates: JobPatch) returns (job: Option<Job>)
      requires Valid()
      modifies this
      ensures Valid() && (State(), job) == AfterUpdateJob(old(State()), jobId, updates)
    {
      UpdateJobSpec(State(), jobId, updates);
      if jobId in jobs {
        job := Some(Patched(jobs[jobId], updates));
        jobs := jobs[jobId := job.value];
      } else {
        job := None;
      }
    }

    method GetJob(jobId: string) returns (job: Option<Job>)
      ensures job.Some? <==> jobId in jobs
      ensures job.Some? ==> job.value == jobs[jobId]
    {
      job := if jobId in jobs then Some(jobs[jobId]) else None;
    }

    /** `Array.from(this.jobs.values())`: the jobs in Map order. */
    method GetAllJobs() returns (list: seq<Job>)
      requires Valid()
      ensures |list| == |jobIds| && forall k :: 0 <= k < |jobIds| ==> list[k] == jobs[jobIds[k]]
    {
      list := InOrder(jobs, jobIds);
      InOrderAt(jobs, jobIds);
    }

    method UpdateAgent(agentId: string, status: string, currentJob: Option<string>) returns (agent: Option<Agent>)
      requires Valid()
      modifies this
      ensures Valid() && (State(), agent) == AfterUpdateAgent(old(State()), agentId, status, currentJob)
    {
      UpdateAgentSpec(State(), agentId, status, currentJob);
      if agentId in agents {
        agent := Some(agents[agentId].(status := status, currentJob := currentJob));
        agents := agents[agentId := agent.value];
      } else {
        agent := None;
      }
    }

    /** `Array.from(this.agents.values())`: the agents in Map order. */
    method GetAllAgents() returns (list: seq<Agent>)
      requires Valid()
      ensures list == InOrder(agents, agentIds)
      ensures |list| == |agentIds| && forall k :: 0 <= k < |agentIds| ==> list[k] == agents[agentIds[k]]
    {
      list := InOrder(agents, agentIds);
      InOrderAt(agents, agentIds);
    }

    method AddMessage(message: Message) returns (m: Message)
      requires Valid()
      modifies this
      ensures Valid() && (State(), m) == AfterAddMessage(old(State()), idOf, message)
    {
      AddMessageSpec(State(), idOf, message);
      var id := GenerateId();
      var timestamp := NewDate();
      m := message.(id := id, timestamp := timestamp);
      CappedSlice(messages + [m]);
      messages := messages + [m];
      if |messages| > MessageCap {
        messages := messages[|messages| - MessageCap..];
      }
    }

    /** getMessages; the limit is 50 when none is given. */
    method GetMessages(limit: int := 50) returns (list: seq<Message>)
      ensures list == RecentMessages(messages, limit)
    {
      list := Reverse(SliceFrom(messages, -limit));
    }
  }

  /** A2AProtocolHandler: sends messages by logging them in the store. */
  class A2AProtocolHandler {
    const db: DatabaseConnection

    constructor(db: DatabaseConnection)
      ensures this.db == db
    {
      this.db := db;
    }

    method SendMessage(fromAgent: string, toAgent: string, messageType: string, payload: Payload) returns (message: Message)
      requires db.Valid()
      modifies db
      ensures db.Valid() && (db.State(), message) == AfterSendMessage(old(db.State()), db.idOf, fromAgent, toAgent, messageType, payload)
      ensures message == Stamped(db.idOf, old(db.tick), fromAgent, toAgent, messageType, payload)
    {
      message := db.AddMessage(Message("", 0, fromAgent, toAgent, messageType, payload, "A2A"));
    }

    method BroadcastToAgents(fromAgent: string, messageType: string, payload: Payload) returns (messages: seq<Message>)
      requires db.Valid()
      modifies db
      ensures db.Valid() && (db.State(), messages) == AfterBroadcast(old(db.State()), db.idOf, fromAgent, messageType, payload)
    {
      ghost var s0 := db.State();
      ghost var idOf := db.idOf;
      var agents := db.GetAllAgents();
      messages := [];
      ghost var tos: seq<string> := [];
      var k := 0;
      while k < |agents|
        invariant k <= |agents| && db.Valid() && db.idOf == idOf
        invariant tos == Recipients(agents[..k], fromAgent)
        invariant messages == Sends(idOf, s0.tick, fromAgent, tos, messageType, payload)
        invariant db.State() == Logged(s0, messages)
      {
        RecipientsSnoc(agents, k, fromAgent);
        if agents[k].id != fromAgent {
          ghost var before := db.State();
          var message := SendMessage(fromAgent, agents[k].id, messageType, payload);
          BroadcastStep(s0, idOf, fromAgent, tos, agents[k].id, messageType, payload, messages, message, before, db.State());
          messages := messages + [message];
          tos := tos + [agents[k].id];
        }
        k := k + 1;
      }
      assert agents[..k] == agents;
    }
  }

  /** ProcessingPipelineManager: the FIFO queue of job ids and the flag that
      keeps a second drain of it from starting. */
  class ProcessingPipelineManager {
    const db: DatabaseConnection
    const a2a: A2AProtocolHandler
    /** What simulateAgentProcessing returns, or throws, for the i-th agent of a job. */
    const step: (string, nat) -> StepOutcome
    var processingQueue: seq<string>
    var isProcessing: bool

    ghost predicate Valid()
      reads db
    {
      a2a.db == db && db.Valid()
    }

    constructor(db: DatabaseConnection, a2aHandler: A2AProtocolHandler, step: (string, nat) -> StepOutcome)
      ensures this.db == db && a2a == a2aHandler && this.step == step
      ensures processingQueue == [] && !isProcessing
    {
      this.db := db;
      a2a := a2aHandler;
      this.step := step;
      processingQueue := [];
      isProcessing := false;
    }

    /** One iteration of processJob's loop, the try block and its catch:
        whether the loop goes on. */
    method RunAgentStep(jobId: string, job: Job, agentOrder: seq<string>, i: nat) returns (goOn: bool)
      requires Valid() && jobId in db.jobs && i < |agentOrder|
      modifies db
      ensures Valid() && jobId in db.jobs
      ensures goOn == step(jobId, i).Completed?
      ensures db.State() == match step(jobId, i)
                            case Completed(results) => Advanced(old(db.State()), db.idOf, jobId, job, agentOrder, i, results)
                            case Threw(msg) => Aborted(old(db.State()), db.idOf, jobId, job, agentOrder, i, msg)
    {
      var agentId := agentOrder[i];
      ghost var st := db.State();
      var _ := db.UpdateAgent(agentId, "processing", Some(jobId));
      ghost var s1 := db.State();
      var _ := a2a.SendMessage("orchestrator", agentId, "process_request",
                               ProcessRequest(jobId, job.fileName, job.fileType, if i > 0 then [agentOrder[i - 1]] else []));
      ghost var s2 := db.State();
      match step(jobId, i)
      case Completed(results) =>
        var progress := (i + 1) * 100 / |agentOrder|;
        var _ := db.UpdateJob(jobId, JobPatch(None, Some(progress), Some(Put(Current(db.State(), jobId, job).results, agentId, results)),
                                              None, None, None));
        ghost var s3 := db.State();
        var _ := db.UpdateAgent(agentId, "idle", None);
        ghost var s4 := db.State();
        var _ := a2a.SendMessage(agentId, "orchestrator", "process_complete", ProcessComplete(jobId, results));
        IterationCompleted(st, db.idOf, jobId, job, agentOrder, i, results, s1, s2, s3, s4, db.State());
        goOn := true;
      case Threw(msg) =>
        var _ := db.UpdateJob(jobId, JobPatch(Some("error"), None, None, None, None, Some(msg)));
        ghost var s3 := db.State();
        var _ := a2a.SendMessage(agentId, "orchestrator", "process_error", ProcessError(jobId, msg));
        IterationThrew(st, db.idOf, jobId, job, agentOrder, i, msg, s1, s2, s3, db.State());
        goOn := false;
    }

    /** processJob from its loop over the agents on: each agent in turn, then
        the completion; the job's status is already "processing". */
    method RunAgents(jobId: string, job: Job)
      requires Valid() && jobId in db.jobs
      modifies db
      ensures Valid() && db.State() == AfterRun(old(db.State()), db.idOf, step, jobId, job, AgentOrder)
    {
      ghost var s0 := db.State();
      var agentOrder := AgentOrder;
      for i := 0 to |agentOrder|
        invariant Valid() && jobId in db.jobs
        invariant AfterRunFrom(db.State(), db.idOf, step, jobId, job, agentOrder, i) == AfterRun(s0, db.idOf, step, jobId, job, agentOrder)
      {
        ghost var st := db.State();
        var goOn := RunAgentStep(jobId, job, agentOrder, i);
        if !goOn {
          RunFromThrew(st, db.idOf, step, jobId, job, agentOrder, i, step(jobId, i).message);
          return;
        }
        RunFromNext(st, db.idOf, step, jobId, job, agentOrder, i);
      }
      ghost var s5 := db.State();
      CompleteJob(jobId);
      assert db.State() == AfterRunFrom(s5, db.idOf, step, jobId, job, agentOrder, |agentOrder|);
    }

    /** The end of processJob once every agent has reported: the job is
        completed at 100% and every agent is told. */
    method CompleteJob(jobId: string)
      requires Valid() && jobId in db.jobs
      modifies db
      ensures Valid() && db.State() == Finalized(old(db.State()), db.idOf, jobId)
    {
      ghost var s5 := db.State();
      var completedAt := db.NewDate();
      ghost var s6 := db.State();
      var _ := db.UpdateJob(jobId, JobPatch(Some("completed"), Some(100), None, None, Some(completedAt), None));
      ghost var s7 := db.State();
      var _ := a2a.BroadcastToAgents("orchestrator", "job_completed", JobCompleted(jobId));
      CompletionSteps(s5, db.idOf, jobId, s6, s7, db.State());
    }

    method ProcessJob(jobId: string)
      requires Valid()
      modifies db
      ensures Valid() && db.State() == AfterProcessJob(old(db.State()), db.idOf, step, jobId)
    {
      var found := db.GetJob(jobId);
      if found.None? {
        return;
      }
      var job := found.value;
      ghost var sInit := db.State();
      var startedAt := db.NewDate();
      var _ := db.UpdateJob(jobId, JobPatch(Some("processing"), None, None, Some(startedAt), None, None));
      ghost var s0 := db.State();
      RunAgents(jobId, job);
      ProcessJobResult(sInit, db.idOf, step, jobId, s0, db.State());
    }

    /** submitJob: creates the job, queues it, tells every agent, and drains
        the queue unless a drain is already under way (the drain is modelled
        as running to completion before submitJob returns). */
    method SubmitJob(fileName: string, fileType: string, fileSize: int) returns (job: Job)
      requires Valid()
      modifies this, db
      ensures Valid()
      ensures job == AfterSubmit(old(db.State()), db.idOf, fileName, fileType, fileSize).1
      ensures var s1 := AfterSubmit(old(db.State()), db.idOf, fileName, fileType, fileSize).0;
              var queue := old(processingQueue) + [job.id];
              if old(isProcessing) then db.State() == s1 && processingQueue == queue && isProcessing
              else db.State() == AfterDrain(s1, db.idOf, step, queue) && processingQueue == [] && !isProcessing
    {
      ghost var s0 := db.State();
      job := db.CreateJob(Submitted(fileName, fileType, fileSize));
      processingQueue := processingQueue + [job.id];
      var _ := a2a.BroadcastToAgents("orchestrator", "job_queued", JobQueued(job.id, job.fileName));
      assert db.State() == AfterSubmit(s0, db.idOf, fileName, fileType, fileSize).0;
      if !isProcessing {
        ProcessQueue();
      }
    }

    /** processQueue: one drain at a time; the queued jobs are processed first
        in first out until the queue is empty. */
    method ProcessQueue()
      requires Valid()
      modifies this, db
      ensures Valid()
      ensures if old(isProcessing) || old(processingQueue) == [] then
                db.State() == old(db.State()) && processingQueue == old(processingQueue) && isProcessing == old(isProcessing)
              else
                db.State() == AfterDrain(old(db.State()), db.idOf, step, old(processingQueue)) && processingQueue == [] && !isProcessing
    {
      if isProcessing || |processingQueue| == 0 {
        return;
      }
      isProcessing := true;
      while |processingQueue| > 0
        invariant Valid()
        invariant AfterDrain(db.State(), db.idOf, step, processingQueue) == AfterDrain(old(db.State()), db.idOf, step, old(processingQueue))
        decreases |processingQueue|
      {
        var jobId := processingQueue[0];
        processingQueue := processingQueue[1..];
        ProcessJob(jobId);
      }
      isProcessing := false;
    }
  }
}
