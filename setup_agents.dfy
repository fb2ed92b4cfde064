/** The demonstration back end of the agent system: an orchestrator that
    registers agents by id, queues A2A messages, and runs a file through the
    registered agents in a fixed order, each agent answering with mock
    results for its type. */
module SetupAgents {
  import opened Wrappers
  import opened Dicts

  datatype AgentStatus = Idle | Processing | Completed | Error

  datatype MessageType = Request | Response | Notification

  /** An agent record; `kind` is the agent's type ("video", "audio", ...). */
  datatype Agent = Agent(id: string, name: string, kind: string, status: AgentStatus,
                         capabilities: seq<string>, currentJob: Option<string>)

  /** An A2A message; its random id and its timestamp are not modelled. */
  datatype Message = Message(from: string, to: string, kind: MessageType, payload: Dict)

  /** A job record; the start and end times are not modelled. */
  datatype Job = Job(id: string, filePath: string, fileType: string, status: string,
                     results: Assoc<string, Dict>)

  /** Everything the orchestrator holds. */
  datatype State = State(agents: map<string, Agent>, queue: seq<Message>, jobs: map<string, Job>)

  /** The order in which process_file visits the agents. */
  const AgentOrder: seq<string> := ["metadata-agent", "video-agent", "audio-agent", "storyboard-agent"]

  const ProcessingStatus: string := "processing"
  const CompletedStatus: string := "completed"

  // ---------------------------------------------------------------------------
  // Mock results and payloads

  /** simulate_agent_processing: the fixed results of an agent of type `kind`;
      the file type is not used. */
  function Simulated(kind: string): Dict {
    if kind == "video" then
      [("resolution_enhanced", JStr("4K")), ("noise_reduction", JStr("85% improvement")),
       ("color_correction", JStr("Applied")), ("scenes_detected", JNum(12)),
       ("frames_processed", JNum(1440))]
    else if kind == "audio" then
      [("noise_reduction", JStr("92% improvement")), ("audio_quality", JStr("Enhanced to 48kHz")),
       ("speech_to_text", JStr("Transcription complete")), ("background_music", JStr("Generated"))]
    else if kind == "storyboard" then
      [("key_frames", JNum(24)), ("scenes", JNum(12)), ("transitions", JNum(11)),
       ("composition_analysis", JStr("Complete")), ("timeline_generated", JBool(true))]
    else if kind == "metadata" then
      [("tags", JArr([JStr("action"), JStr("outdoor"), JStr("daylight"), JStr("people")])),
       ("objects_detected", JNum(15)), ("text_extracted", JStr("OCR complete")),
       ("sentiment", JStr("Positive")), ("duration", JStr("2:34"))]
    else []
  }

  /** The agent types that have mock results. */
  const KnownKinds: seq<string> := ["video", "audio", "storyboard", "metadata"]

  /** The request sent to an agent. */
  function RequestPayload(jobId: string, filePath: string, fileType: string): Dict {
    [("action", JStr("process")), ("job_id", JStr(jobId)),
     ("file_path", JStr(filePath)), ("file_type", JStr(fileType))]
  }

  /** An agent's completion response. */
  function ResponsePayload(jobId: string, results: Dict): Dict {
    [("action", JStr("process_complete")), ("job_id", JStr(jobId)), ("results", JObj(results))]
  }

  function RequestTo(agentId: string, jobId: string, filePath: string, fileType: string): Message {
    Message("orchestrator", agentId, Request, RequestPayload(jobId, filePath, fileType))
  }

  function ResponseFrom(agentId: string, jobId: string, results: Dict): Message {
    Message(agentId, "orchestrator", Response, ResponsePayload(jobId, results))
  }

  // ---------------------------------------------------------------------------
  // What the operations do to the state

  function AfterRegister(s: State, a: Agent): State {
    s.(agents := s.agents[a.id := a])
  }

  function AfterSend(s: State, m: Message): State {
    s.(queue := s.queue + [m])
  }

  /** The agents of the processing order, among its first n, that are
      registered: the ones process_file visits, in the order it visits them. */
  function Visited(agents: map<string, Agent>, n: nat): (r: seq<string>)
    requires n <= |AgentOrder|
    ensures forall x :: x in r ==> x in agents && x in AgentOrder && x in AgentOrder[..n]
  {
    if n == 0 then []
    else Visited(agents, n - 1) + (if AgentOrder[n - 1] in agents then [AgentOrder[n - 1]] else [])
  }

  /** An agent after its step: completed, with no current job. */
  function Finished(a: Agent): Agent {
    a.(status := Completed, currentJob := None)
  }

  /** The registry once the agents `ids` have had their step. */
  function AgentsAfter(agents: map<string, Agent>, ids: seq<string>): map<string, Agent> {
    map k | k in agents :: if k in ids then Finished(agents[k]) else agents[k]
  }

  /** The messages the steps of the agents `ids` send, oldest first. */
  function Exchanges(agents: map<string, Agent>, jobId: string, filePath: string, fileType: string,
                     ids: seq<string>): seq<Message>
    requires forall x :: x in ids ==> x in agents
  {
    if ids == [] then []
    else
      var x := ids[|ids| - 1];
      Exchanges(agents, jobId, filePath, fileType, ids[..|ids| - 1])
        + [RequestTo(x, jobId, filePath, fileType), ResponseFrom(x, jobId, Simulated(agents[x].kind))]
  }

  /** The job's results once the agents `ids` have had their step. */
  function ResultsOf(agents: map<string, Agent>, ids: seq<string>): Assoc<string, Dict>
    requires forall x :: x in ids ==> x in agents
  {
    if ids == [] then []
    else
      var x := ids[|ids| - 1];
      Put(ResultsOf(agents, ids[..|ids| - 1]), x, Simulated(agents[x].kind))
  }

  /** One iteration of process_file's loop: a registered agent is
      completed, is sent its request and answers with its results, which go
      into the job; an unregistered one is skipped. */
  function StepOf(p: State, x: string, jobId: string, filePath: string, fileType: string): State
    requires jobId in p.jobs
  {
    if x !in p.agents then p
    else
      var v := Simulated(p.agents[x].kind);
      State(p.agents[x := Finished(p.agents[x])],
            p.queue + [RequestTo(x, jobId, filePath, fileType)] + [ResponseFrom(x, jobId, v)],
            p.jobs[jobId := p.jobs[jobId].(results := Put(p.jobs[jobId].results, x, v))])
  }

  /** process_file after the loop has looked at the first n agents of the
      order; the job is still processing. */
  function Pipeline(s: State, jobId: string, filePath: string, fileType: string, n: nat): State
    requires n <= |AgentOrder|
  {
    Progress(s, jobId, filePath, fileType, Visited(s.agents, n))
  }

  /** The state once the agents `ids` have had their step, the job still
      processing. */
  function Progress(s: State, jobId: string, filePath: string, fileType: string, ids: seq<string>): State
    requires forall x :: x in ids ==> x in s.agents
  {
    State(AgentsAfter(s.agents, ids),
          s.queue + Exchanges(s.agents, jobId, filePath, fileType, ids),
          s.jobs[jobId := Job(jobId, filePath, fileType, ProcessingStatus, ResultsOf(s.agents, ids))])
  }

  /** process_file: the pipeline over the whole order, then the job is
      completed. */
  function AfterProcess(s: State, jobId: string, filePath: string, fileType: string): State {
    var p := Pipeline(s, jobId, filePath, fileType, |AgentOrder|);
    p.(jobs := p.jobs[jobId := p.jobs[jobId].(status := CompletedStatus)])
  }

  // ---------------------------------------------------------------------------
  // Properties

  /** Registering stores the agent under its id and leaves every other id,
      the queue and the jobs alone. */
  lemma RegisterSpec(s: State, a: Agent)
    ensures var s' := AfterRegister(s, a);
      && a.id in s'.agents && s'.agents[a.id] == a
      && (forall k :: k != a.id ==> (k in s'.agents <==> k in s.agents))
      && (forall k :: k != a.id && k in s.agents ==> s'.agents[k] == s.agents[k])
      && s'.queue == s.queue && s'.jobs == s.jobs
  { }

  /** A later registration under the same id replaces the earlier one. */
  lemma RegisterTwice(s: State, a: Agent, b: Agent)
    requires a.id == b.id
    ensures AfterRegister(AfterRegister(s, a), b) == AfterRegister(s, b)
  { }

  /** Registrations under different ids commute. */
  lemma RegisterCommutes(s: State, a: Agent, b: Agent)
    requires a.id != b.id
    ensures AfterRegister(AfterRegister(s, a), b) == AfterRegister(AfterRegister(s, b), a)
  { }

  /** Sending only appends: every earlier message stays where it was. */
  lemma SendSpec(s: State, m: Message)
    ensures var s' := AfterSend(s, m);
      && |s'.queue| == |s.queue| + 1 && s'.queue[..|s.queue|] == s.queue
      && s'.queue[|s.queue|] == m && s'.agents == s.agents && s'.jobs == s.jobs
  { }

  /** Mock results exist exactly for the four known types, and their keys
      are distinct. */
  lemma SimulatedSpec(kind: string)
    ensures Simulated(kind) == [] <==> kind !in KnownKinds
    ensures DistinctKeys(Simulated(kind))
    ensures |Simulated(kind)| == (if kind == "audio" then 4 else if kind in KnownKinds then 5 else 0)
  { }

  lemma OrderDistinct()
    ensures forall a, b :: 0 <= a < b < |AgentOrder| ==> AgentOrder[a] != AgentOrder[b]
  { }

  /** The visited agents are exactly the registered ones among the first n
      of the order. */
  lemma {:induction false} VisitedMembers(agents: map<string, Agent>, n: nat)
    requires n <= |AgentOrder|
    ensures forall x :: x in Visited(agents, n) <==> x in AgentOrder[..n] && x in agents
  {
    if n > 0 {
      VisitedMembers(agents, n - 1);
      assert AgentOrder[..n] == AgentOrder[..n - 1] + [AgentOrder[n - 1]];
    }
  }

  /** A visited agent lies, in the order, before every agent visited after it. */
  lemma {:induction false} VisitedBefore(agents: map<string, Agent>, n: nat, p: nat, q: nat, k: nat)
    requires n <= |AgentOrder| && p < q < |Visited(agents, n)| && k < |AgentOrder|
    requires Visited(agents, n)[q] == AgentOrder[k]
    ensures Visited(agents, n)[p] in AgentOrder[..k]
  {
    var v := Visited(agents, n - 1);
    var w := Visited(agents, n);
    if AgentOrder[n - 1] in agents {
      assert w == v + [AgentOrder[n - 1]];
      assert w[p] == v[p];
      if q == |v| {
        OrderDistinct();
        assert k == n - 1;
        assert v[p] in v;
      } else {
        assert w[q] == v[q];
        VisitedBefore(agents, n - 1, p, q, k);
      }
    } else {
      assert w == v;
      VisitedBefore(agents, n - 1, p, q, k);
    }
  }

  /** The visited agents come in the order's order: each lies, in the
      order, before every agent visited after it. */
  lemma VisitedOrdered(agents: map<string, Agent>, n: nat)
    requires n <= |AgentOrder|
    ensures var v := Visited(agents, n);
      forall p, q, k :: 0 <= p < q < |v| && 0 <= k < |AgentOrder| && v[q] == AgentOrder[k] ==> v[p] in AgentOrder[..k]
  {
    var v := Visited(agents, n);
    forall p, q, k | 0 <= p < q < |v| && 0 <= k < |AgentOrder| && v[q] == AgentOrder[k]
      ensures v[p] in AgentOrder[..k]
    {
      VisitedBefore(agents, n, p, q, k);
    }
  }

  /** No agent is visited twice. */
  lemma {:induction false} VisitedDistinct(agents: map<string, Agent>, n: nat)
    requires n <= |AgentOrder|
    ensures forall p, q :: 0 <= p < q < |Visited(agents, n)| ==> Visited(agents, n)[p] != Visited(agents, n)[q]
  {
    if n > 0 {
      VisitedDistinct(agents, n - 1);
      var v := Visited(agents, n - 1);
      if AgentOrder[n - 1] in agents {
        StepFacts(agents, n - 1);
        var w := Visited(agents, n);
        forall p, q | 0 <= p < q < |w| ensures w[p] != w[q] {
          assert w[p] == v[p] && v[p] in v;
          if q < |v| {
            assert w[q] == v[q];
          }
        }
      } else {
        assert Visited(agents, n) == v;
      }
    }
  }

  /** With every agent of the order registered, all four are visited in
      order. */
  lemma {:induction false} VisitedAll(agents: map<string, Agent>, n: nat)
    requires n <= |AgentOrder|
    requires forall x :: x in AgentOrder ==> x in agents
    ensures Visited(agents, n) == AgentOrder[..n]
  {
    if n > 0 {
      VisitedAll(agents, n - 1);
      assert AgentOrder[..n] == AgentOrder[..n - 1] + [AgentOrder[n - 1]];
    }
  }

  /** Two messages per visited agent: the orchestrator's request to it, then
      its response carrying its results. */
  lemma {:induction false} ExchangesSpec(agents: map<string, Agent>, jobId: string, filePath: string, fileType: string,
                                         ids: seq<string>)
    requires forall x :: x in ids ==> x in agents
    ensures var e := Exchanges(agents, jobId, filePath, fileType, ids);
      && |e| == 2 * |ids|
      && forall p :: 0 <= p < |ids| ==>
           && e[2 * p] == RequestTo(ids[p], jobId, filePath, fileType)
           && e[2 * p + 1] == ResponseFrom(ids[p], jobId, Simulated(agents[ids[p]].kind))
  {
    if ids != [] {
      var init := ids[..|ids| - 1];
      ExchangesSpec(agents, jobId, filePath, fileType, init);
      var e := Exchanges(agents, jobId, filePath, fileType, ids);
      var e0 := Exchanges(agents, jobId, filePath, fileType, init);
      var x := ids[|ids| - 1];
      assert e == e0 + [RequestTo(x, jobId, filePath, fileType), ResponseFrom(x, jobId, Simulated(agents[x].kind))];
      forall p | 0 <= p < |ids|
        ensures e[2 * p] == RequestTo(ids[p], jobId, filePath, fileType)
        ensures e[2 * p + 1] == ResponseFrom(ids[p], jobId, Simulated(agents[ids[p]].kind))
      {
        if p < |init| {
          assert e[2 * p] == e0[2 * p] && e[2 * p + 1] == e0[2 * p + 1];
          assert ids[p] == init[p];
        }
      }
    }
  }

  /** The results hold one entry per visited agent, in visiting order, each
      the mock results of that agent's type. */
  lemma {:induction false} ResultsSpec(agents: map<string, Agent>, ids: seq<string>)
    requires forall x :: x in ids ==> x in agents
    requires forall p, q :: 0 <= p < q < |ids| ==> ids[p] != ids[q]
    ensures Keys(ResultsOf(agents, ids)) == ids
    ensures forall x :: x in ids ==> Get(ResultsOf(agents, ids), x) == Some(Simulated(agents[x].kind))
  {
    if ids != [] {
      var init := ids[..|ids| - 1];
      var x := ids[|ids| - 1];
      var v := Simulated(agents[x].kind);
      ResultsSpec(agents, init);
      assert x !in init;
      PutNew(ResultsOf(agents, init), x, v);
      KeysAppend(ResultsOf(agents, init), x, v);
      assert ids == init + [x];
      forall y | y in ids ensures Get(ResultsOf(agents, ids), y) == Some(Simulated(agents[y].kind)) {
        PutGet(ResultsOf(agents, init), x, v, y);
      }
    }
  }

  /** process_file appends two messages per visited agent to the queue and
      alters none of the earlier ones. */
  lemma ProcessQueue(s: State, jobId: string, filePath: string, fileType: string)
    ensures var s' := AfterProcess(s, jobId, filePath, fileType);
      var ids := Visited(s.agents, |AgentOrder|);
      && |s'.queue| == |s.queue| + 2 * |ids|
      && s'.queue[..|s.queue|] == s.queue
      && forall p :: 0 <= p < |ids| ==>
           && s'.queue[|s.queue| + 2 * p] == RequestTo(ids[p], jobId, filePath, fileType)
           && s'.queue[|s.queue| + 2 * p + 1] == ResponseFrom(ids[p], jobId, Simulated(s.agents[ids[p]].kind))
  {
    var ids := Visited(s.agents, |AgentOrder|);
    ExchangesSpec(s.agents, jobId, filePath, fileType, ids);
  }

  /** process_file leaves the job completed, with one result per visited
      agent keyed by its id, and every other job as it was. */
  lemma ProcessJob(s: State, jobId: string, filePath: string, fileType: string)
    ensures var s' := AfterProcess(s, jobId, filePath, fileType);
      var ids := Visited(s.agents, |AgentOrder|);
      && jobId in s'.jobs
      && s'.jobs[jobId].status == CompletedStatus
      && s'.jobs[jobId].id == jobId && s'.jobs[jobId].filePath == filePath && s'.jobs[jobId].fileType == fileType
      && Keys(s'.jobs[jobId].results) == ids
      && (forall x :: x in ids ==> Get(s'.jobs[jobId].results, x) == Some(Simulated(s.agents[x].kind)))
      && (forall k :: k != jobId ==> (k in s'.jobs <==> k in s.jobs))
      && (forall k :: k != jobId && k in s.jobs ==> s'.jobs[k] == s.jobs[k])
  {
    var ids := Visited(s.agents, |AgentOrder|);
    VisitedDistinct(s.agents, |AgentOrder|);
    ResultsSpec(s.agents, ids);
  }

  /** After process_file every visited agent is completed with no current
      job, and nothing else about the registry changes. */
  lemma ProcessAgents(s: State, jobId: string, filePath: string, fileType: string)
    ensures var s' := AfterProcess(s, jobId, filePath, fileType);
      && (forall k :: k in s'.agents <==> k in s.agents)
      && (forall k :: k in s.agents && k in AgentOrder ==>
            && s'.agents[k].status == Completed && s'.agents[k].currentJob == None
            && s'.agents[k] == s.agents[k].(status := Completed, currentJob := None))
      && (forall k :: k in s.agents && k !in AgentOrder ==> s'.agents[k] == s.agents[k])
  {
    VisitedMembers(s.agents, |AgentOrder|);
    assert AgentOrder[..|AgentOrder|] == AgentOrder;
  }

  /** The four agents main registers, all idle and without a job. */
  function DemoAgents(): seq<Agent> {
    [Agent("video-agent", "Video Enhancement Agent", "video", Idle,
           ["Noise Reduction", "Upscaling", "Color Correction", "Scene Detection"], None),
     Agent("audio-agent", "Audio Optimization Agent", "audio", Idle,
           ["Noise Reduction", "Enhancement", "Music Generation", "Speech-to-Text"], None),
     Agent("storyboard-agent", "Storyboard Generation Agent", "storyboard", Idle,
           ["Scene Analysis", "Key Frame Extraction", "Visual Composition", "Timeline Generation"], None),
     Agent("metadata-agent", "Metadata Extraction Agent", "metadata", Idle,
           ["OCR", "Object Detection", "Tag Generation", "Content Analysis"], None)]
  }

  /** Registering a list of agents one after the other. */
  function RegisterAll(s: State, agents: seq<Agent>): State
    decreases |agents|
  {
    if agents == [] then s else RegisterAll(AfterRegister(s, agents[0]), agents[1..])
  }

  /** The type each agent of the order is named after. */
  function KindOf(agentId: string): string {
    if agentId == "metadata-agent" then "metadata"
    else if agentId == "video-agent" then "video"
    else if agentId == "audio-agent" then "audio"
    else "storyboard"
  }

  /** The registry main builds: every agent of the order, each of the type
      its id names. */
  lemma DemoRegistry()
    ensures var r := RegisterAll(State(map[], [], map[]), DemoAgents()).agents;
      forall x :: x in AgentOrder ==> x in r && r[x].kind == KindOf(x)
  {
    var d := DemoAgents();
    var s0 := State(map[], [], map[]);
    var s1 := AfterRegister(s0, d[0]);
    var s2 := AfterRegister(s1, d[1]);
    var s3 := AfterRegister(s2, d[2]);
    var s4 := AfterRegister(s3, d[3]);
    assert RegisterAll(s0, d) == RegisterAll(s1, d[1..]);
    assert RegisterAll(s1, d[1..]) == RegisterAll(s2, d[2..]);
    assert RegisterAll(s2, d[2..]) == RegisterAll(s3, d[3..]);
    assert RegisterAll(s3, d[3..]) == RegisterAll(s4, d[4..]);
    assert forall x :: x in AgentOrder ==> x == "metadata-agent" || x == "video-agent" || x == "audio-agent" || x == "storyboard-agent";
  }

  /** With every agent of the order registered under the type its id names,
      a run exchanges 8 messages and stores results from all four agents. */
  lemma FullRun(s: State, jobId: string, filePath: string, fileType: string)
    requires forall x :: x in AgentOrder ==> x in s.agents && s.agents[x].kind == KindOf(x)
    ensures var s' := AfterProcess(s, jobId, filePath, fileType);
      && |s'.queue| == |s.queue| + 8
      && s'.jobs[jobId].status == CompletedStatus
      && Keys(s'.jobs[jobId].results) == AgentOrder
      && forall x :: x in AgentOrder ==> Get(s'.jobs[jobId].results, x) == Some(Simulated(KindOf(x)))
  {
    VisitedAll(s.agents, |AgentOrder|);
    assert AgentOrder[..|AgentOrder|] == AgentOrder;
    ProcessQueue(s, jobId, filePath, fileType);
    ProcessJob(s, jobId, filePath, fileType);
  }

  /** main's first file: with the four demo agents registered, one run
      exchanges 8 messages and stores results from all four agents. */
  lemma DemoRun(jobId: string, filePath: string, fileType: string)
    ensures var s' := AfterProcess(RegisterAll(State(map[], [], map[]), DemoAgents()), jobId, filePath, fileType);
      && |s'.queue| == 8
      && Keys(s'.jobs[jobId].results) == AgentOrder
      && (forall x :: x in AgentOrder ==> Get(s'.jobs[jobId].results, x) == Some(Simulated(KindOf(x))))
  {
    DemoRegistry();
    FullRun(RegisterAll(State(map[], [], map[]), DemoAgents()), jobId, filePath, fileType);
  }

  // ---------------------------------------------------------------------------
  // The orchestrator

  class Orchestrator {
    var agents: map<string, Agent>
    var messageQueue: seq<Message>
    var jobs: map<string, Job>

    function Snapshot(): State
      reads this
    {
      State(agents, messageQueue, jobs)
    }

    constructor()
      ensures Snapshot() == State(map[], [], map[])
    {
      agents := map[];
      messageQueue := [];
      jobs := map[];
    }

    method RegisterAgent(agent: Agent)
      modifies this
      ensures Snapshot() == AfterRegister(old(Snapshot()), agent)
    {
      agents := agents[agent.id := agent];
    }

    method SendMessage(message: Message)
      modifies this
      ensures Snapshot() == AfterSend(old(Snapshot()), message)
    {
      messageQueue := messageQueue + [message];
    }

    /** One iteration of process_file's loop, for the agent `agentId`. */
    method Step(agentId: string, jobId: string, filePath: string, fileType: string)
      requires jobId in jobs
      modifies this
      ensures Snapshot() == StepOf(old(Snapshot()), agentId, jobId, filePath, fileType)
    {
      if agentId in agents {
        var agent := agents[agentId];
        agents := agents[agentId := agent.(status := Processing, currentJob := Some(jobId))];
        SendMessage(RequestTo(agentId, jobId, filePath, fileType));
        var results := Simulated(agent.kind);
        jobs := jobs[jobId := jobs[jobId].(results := Put(jobs[jobId].results, agentId, results))];
        agents := agents[agentId := agents[agentId].(status := Completed, currentJob := None)];
        SendMessage(ResponseFrom(agentId, jobId, results));
      }
    }

    /** process_file, with the job id it draws as a parameter. */
    method ProcessFile(jobId: string, filePath: string, fileType: string) returns (id: string)
      modifies this
      ensures id == jobId
      ensures Snapshot() == AfterProcess(old(Snapshot()), jobId, filePath, fileType)
    {
      ghost var s0 := Snapshot();
      jobs := jobs[jobId := Job(jobId, filePath, fileType, ProcessingStatus, [])];
      AgentsAfterNone(s0.agents);
      for i := 0 to |AgentOrder|
        invariant Snapshot() == Pipeline(s0, jobId, filePath, fileType, i)
      {
        Step(AgentOrder[i], jobId, filePath, fileType);
        PipelineStep(s0, jobId, filePath, fileType, i);
      }
      jobs := jobs[jobId := jobs[jobId].(status := CompletedStatus)];
      id := jobId;
    }
  }

  // ---------------------------------------------------------------------------
  // Step lemmas for the loop

  lemma AgentsAfterNone(agents: map<string, Agent>)
    ensures AgentsAfter(agents, []) == agents
  { }

  /** The i-th agent of the order, when registered, has not been visited
      before, and the visited list grows by it. */
  lemma StepFacts(agents: map<string, Agent>, i: nat)
    requires i < |AgentOrder| && AgentOrder[i] in agents
    ensures AgentOrder[i] !in Visited(agents, i)
    ensures Visited(agents, i + 1) == Visited(agents, i) + [AgentOrder[i]]
  {
    OrderDistinct();
  }

  /** A step for one more, not yet visited, registered agent. */
  lemma ProgressStep(s0: State, jobId: string, filePath: string, fileType: string, ids: seq<string>, x: string)
    requires forall y :: y in ids ==> y in s0.agents
    requires x in s0.agents && x !in ids
    ensures Progress(s0, jobId, filePath, fileType, ids + [x])
         == StepOf(Progress(s0, jobId, filePath, fileType, ids), x, jobId, filePath, fileType)
  {
    AgentsAfterStep(s0.agents, ids, x);
    ExchangesStep(s0, jobId, filePath, fileType, ids, x);
    assert (ids + [x])[..|ids|] == ids;
  }

  /** A step of the loop for a registered agent. */
  lemma PipelineVisit(s0: State, jobId: string, filePath: string, fileType: string, i: nat)
    requires i < |AgentOrder| && AgentOrder[i] in s0.agents
    ensures Pipeline(s0, jobId, filePath, fileType, i + 1)
         == StepOf(Pipeline(s0, jobId, filePath, fileType, i), AgentOrder[i], jobId, filePath, fileType)
  {
    StepFacts(s0.agents, i);
    ProgressStep(s0, jobId, filePath, fileType, Visited(s0.agents, i), AgentOrder[i]);
  }

  /** Each iteration of the loop is one StepOf. */
  lemma PipelineStep(s0: State, jobId: string, filePath: string, fileType: string, i: nat)
    requires i < |AgentOrder|
    ensures Pipeline(s0, jobId, filePath, fileType, i + 1)
         == StepOf(Pipeline(s0, jobId, filePath, fileType, i), AgentOrder[i], jobId, filePath, fileType)
  {
    if AgentOrder[i] in s0.agents {
      PipelineVisit(s0, jobId, filePath, fileType, i);
    } else {
      assert Visited(s0.agents, i + 1) == Visited(s0.agents, i);
    }
  }

  /** One more agent's messages. */
  lemma ExchangesStep(s0: State, jobId: string, filePath: string, fileType: string, ids: seq<string>, x: string)
    requires forall y :: y in ids ==> y in s0.agents
    requires x in s0.agents
    ensures s0.queue + Exchanges(s0.agents, jobId, filePath, fileType, ids + [x])
         == s0.queue + Exchanges(s0.agents, jobId, filePath, fileType, ids)
            + [RequestTo(x, jobId, filePath, fileType)] + [ResponseFrom(x, jobId, Simulated(s0.agents[x].kind))]
  {
    assert (ids + [x])[..|ids|] == ids;
  }

  /** One more agent's step in the registry. */
  lemma AgentsAfterStep(agents: map<string, Agent>, ids: seq<string>, x: string)
    requires x in agents && x !in ids
    ensures AgentsAfter(agents, ids + [x]) == AgentsAfter(agents, ids)[x := Finished(agents[x])]
  { }
}
