/** The orchestrator of the orchestrator package: it runs a file through the
    agents of the registry in listing order, one request and one response per
    agent, and keeps the jobs and every message sent. */
module Orchestration {
  import opened Wrappers
  import opened Dicts
  import opened Agents
  import opened AgentRegistry

  /** The message kinds of the A2A messages the orchestrator sends. */
  datatype MessageType = Request | Response | Notification

  /** An A2A message; its random id and its timestamp are not modelled. */
  datatype Message = Message(from: string, to: string, kind: MessageType, payload: Dict)

  /** A job record; the start and completion times are not modelled. */
  datatype Job = Job(id: string, filePath: string, fileType: string, results: Assoc<string, Dict>, status: string)

  datatype State = State(jobs: map<string, Job>, messages: seq<Message>)

  const ProcessingStatus: string := "processing"
  const CompletedStatus: string := "completed"

  function RequestTo(agentId: string, jobId: string, filePath: string, fileType: string): Message {
    Message("orchestrator", agentId, Request,
            [("job_id", JStr(jobId)), ("file_path", JStr(filePath)), ("file_type", JStr(fileType))])
  }

  function ResponseFrom(agentId: string, jobId: string, result: Dict): Message {
    Message(agentId, "orchestrator", Response, [("job_id", JStr(jobId)), ("results", JObj(result))])
  }

  /** The keyword arguments the orchestrator builds an agent with: the file
      type goes to the metadata agent only. */
  function FileTypeArgument(agentId: string, fileType: string): Option<string> {
    if agentId == "metadata-agent" then Some(fileType) else None
  }

  /** Every registered agent can be built with the arguments it is given. */
  lemma BuildListed(agentId: string, jobId: string, filePath: string, fileType: string)
    requires GetAgentClass(agentId).Some?
    ensures New(GetAgentClass(agentId).value, jobId, filePath, FileTypeArgument(agentId, fileType)).Ok?
  {
    GetAgentClassSpec(agentId);
    ListAgentsSpec();
  }

  /** What the registered agent `agentId` answers. */
  function Output(agentId: string, jobId: string, filePath: string, fileType: string, llm: Llm): Dict
    requires GetAgentClass(agentId).Some?
  {
    BuildListed(agentId, jobId, filePath, fileType);
    Process(New(GetAgentClass(agentId).value, jobId, filePath, FileTypeArgument(agentId, fileType)).value, llm)
  }

  function AfterSend(s: State, m: Message): State {
    s.(messages := s.messages + [m])
  }

  /** One iteration of process_file's loop for the id `agentId`: an id
      without a class is skipped; otherwise the agent is sent its request,
      its answer goes into the job's results, and it sends its response. */
  function StepOf(p: State, agentId: string, jobId: string, filePath: string, fileType: string, llm: Llm): State
    requires jobId in p.jobs
  {
    if GetAgentClass(agentId).None? then p
    else
      var r := Output(agentId, jobId, filePath, fileType, llm);
      State(p.jobs[jobId := p.jobs[jobId].(results := Put(p.jobs[jobId].results, agentId, r))],
            p.messages + [RequestTo(agentId, jobId, filePath, fileType)] + [ResponseFrom(agentId, jobId, r)])
  }

  /** process_file once the loop has handled the ids `ids`, in order. */
  function PartialOf(s: State, jobId: string, filePath: string, fileType: string, llm: Llm, ids: seq<string>): (r: State)
    ensures jobId in r.jobs
    decreases |ids|
  {
    if ids == [] then s.(jobs := s.jobs[jobId := Job(jobId, filePath, fileType, [], ProcessingStatus)])
    else StepOf(PartialOf(s, jobId, filePath, fileType, llm, ids[..|ids| - 1]), ids[|ids| - 1], jobId, filePath, fileType, llm)
  }

  /** One more iteration of the loop extends the run by one step. */
  lemma PartialOfStep(s: State, jobId: string, filePath: string, fileType: string, llm: Llm, ids: seq<string>, i: nat)
    requires i < |ids|
    ensures var p := PartialOf(s, jobId, filePath, fileType, llm, ids[..i]);
      PartialOf(s, jobId, filePath, fileType, llm, ids[..i + 1]) == StepOf(p, ids[i], jobId, filePath, fileType, llm)
  {
    assert ids[..i + 1][..i] == ids[..i];
  }

  /** process_file: the loop over the whole listing, then the job is
      completed. */
  function AfterProcessFile(s: State, jobId: string, filePath: string, fileType: string, llm: Llm): State {
    var p := PartialOf(s, jobId, filePath, fileType, llm, ListAgents());
    p.(jobs := p.jobs[jobId := p.jobs[jobId].(status := CompletedStatus)])
  }

  // ---------------------------------------------------------------------------
  // Properties

  /** Sending only appends: every earlier message stays where it was. */
  lemma SendSpec(s: State, m: Message)
    ensures var s' := AfterSend(s, m);
      && |s'.messages| == |s.messages| + 1 && s'.messages[..|s.messages|] == s.messages
      && s'.messages[|s.messages|] == m && s'.jobs == s.jobs
  { }

  lemma ListedHaveClasses()
    ensures forall x :: x in ListAgents() ==> GetAgentClass(x).Some?
  {
    forall x | x in ListAgents() ensures GetAgentClass(x).Some? {
      GetAgentClassSpec(x);
    }
  }

  /** The messages of one step for a registered id. */
  lemma StepMessages(p: State, x: string, jobId: string, filePath: string, fileType: string, llm: Llm)
    requires jobId in p.jobs && GetAgentClass(x).Some?
    ensures StepOf(p, x, jobId, filePath, fileType, llm).messages
         == p.messages + [RequestTo(x, jobId, filePath, fileType)] + [ResponseFrom(x, jobId, Output(x, jobId, filePath, fileType, llm))]
  { }

  /** The jobs after one step for a registered id. */
  lemma StepJob(p: State, x: string, jobId: string, filePath: string, fileType: string, llm: Llm)
    requires jobId in p.jobs && GetAgentClass(x).Some?
    ensures var r := Output(x, jobId, filePath, fileType, llm);
      StepOf(p, x, jobId, filePath, fileType, llm).jobs == p.jobs[jobId := p.jobs[jobId].(results := Put(p.jobs[jobId].results, x, r))]
  { }

  /** While the loop runs the job is processing; it holds the answers of
      the agents handled so far, keyed by their ids in order, and no other
      job changes. */
  lemma {:induction false} PartialJob(s: State, jobId: string, filePath: string, fileType: string, llm: Llm, ids: seq<string>)
    requires forall x :: x in ids ==> GetAgentClass(x).Some?
    requires forall p, q :: 0 <= p < q < |ids| ==> ids[p] != ids[q]
    ensures var j := PartialOf(s, jobId, filePath, fileType, llm, ids).jobs[jobId];
      && j.id == jobId && j.filePath == filePath && j.fileType == fileType
      && j.status == ProcessingStatus
      && Keys(j.results) == ids
      && forall x :: x in ids ==> Get(j.results, x) == Some(Output(x, jobId, filePath, fileType, llm))
    ensures var jobs := PartialOf(s, jobId, filePath, fileType, llm, ids).jobs;
      (forall k :: k != jobId ==> (k in jobs <==> k in s.jobs)) && (forall k :: k != jobId && k in s.jobs ==> jobs[k] == s.jobs[k])
    decreases |ids|
  {
    if ids != [] {
      var init := ids[..|ids| - 1];
      var x := ids[|ids| - 1];
      PartialJob(s, jobId, filePath, fileType, llm, init);
      var p := PartialOf(s, jobId, filePath, fileType, llm, init);
      var j0 := p.jobs[jobId];
      var r := Output(x, jobId, filePath, fileType, llm);
      StepJob(p, x, jobId, filePath, fileType, llm);
      SplitLast(ids);
      assert x !in init;
      PutNew(j0.results, x, r);
      KeysAppend(j0.results, x, r);
      forall y | y in ids
        ensures Get(Put(j0.results, x, r), y) == Some(Output(y, jobId, filePath, fileType, llm))
      {
        PutGet(j0.results, x, r, y);
      }
    }
  }

  /** The messages the loop adds for the registered ids `ids`: a request to
      each and its response, in order. */
  function Exchanges(ids: seq<string>, jobId: string, filePath: string, fileType: string, llm: Llm): seq<Message>
    requires forall x :: x in ids ==> GetAgentClass(x).Some?
    decreases |ids|
  {
    if ids == [] then []
    else
      var x := ids[|ids| - 1];
      Exchanges(ids[..|ids| - 1], jobId, filePath, fileType, llm)
        + [RequestTo(x, jobId, filePath, fileType)] + [ResponseFrom(x, jobId, Output(x, jobId, filePath, fileType, llm))]
  }

  /** While the loop runs, the earlier messages stay and the exchanges of the
      agents handled so far follow them. */
  lemma {:induction false} PartialMessages(s: State, jobId: string, filePath: string, fileType: string, llm: Llm, ids: seq<string>)
    requires forall x :: x in ids ==> GetAgentClass(x).Some?
    ensures PartialOf(s, jobId, filePath, fileType, llm, ids).messages == s.messages + Exchanges(ids, jobId, filePath, fileType, llm)
    decreases |ids|
  {
    if ids != [] {
      var init := ids[..|ids| - 1];
      var x := ids[|ids| - 1];
      PartialMessages(s, jobId, filePath, fileType, llm, init);
      var p := PartialOf(s, jobId, filePath, fileType, llm, init);
      StepMessages(p, x, jobId, filePath, fileType, llm);
      ConcatAssoc(s.messages + Exchanges(init, jobId, filePath, fileType, llm), [RequestTo(x, jobId, filePath, fileType)],
                  [ResponseFrom(x, jobId, Output(x, jobId, filePath, fileType, llm))]);
      ConcatAssoc(s.messages, Exchanges(init, jobId, filePath, fileType, llm),
                  [RequestTo(x, jobId, filePath, fileType)] + [ResponseFrom(x, jobId, Output(x, jobId, filePath, fileType, llm))]);
      ConcatAssoc(Exchanges(init, jobId, filePath, fileType, llm), [RequestTo(x, jobId, filePath, fileType)],
                  [ResponseFrom(x, jobId, Output(x, jobId, filePath, fileType, llm))]);
    }
  }

  /** The exchanges are two messages per agent: the request to the p-th id
      and then that agent's response. */
  lemma {:induction false} ExchangesAt(ids: seq<string>, jobId: string, filePath: string, fileType: string, llm: Llm)
    requires forall x :: x in ids ==> GetAgentClass(x).Some?
    ensures var e := Exchanges(ids, jobId, filePath, fileType, llm);
      && |e| == 2 * |ids|
      && forall p :: 0 <= p < |ids| ==>
           && e[2 * p] == RequestTo(ids[p], jobId, filePath, fileType)
           && e[2 * p + 1] == ResponseFrom(ids[p], jobId, Output(ids[p], jobId, filePath, fileType, llm))
    decreases |ids|
  {
    if ids != [] {
      var init := ids[..|ids| - 1];
      ExchangesAt(init, jobId, filePath, fileType, llm);
      var e0 := Exchanges(init, jobId, filePath, fileType, llm);
      var x := ids[|ids| - 1];
      var e := Exchanges(ids, jobId, filePath, fileType, llm);
      AppendTwo(e0, RequestTo(x, jobId, filePath, fileType), ResponseFrom(x, jobId, Output(x, jobId, filePath, fileType, llm)));
      forall q | 0 <= q < |init|
        ensures e[2 * q] == RequestTo(ids[q], jobId, filePath, fileType)
        ensures e[2 * q + 1] == ResponseFrom(ids[q], jobId, Output(ids[q], jobId, filePath, fileType, llm))
      {
        assert ids[q] == init[q];
        assert e[2 * q] == e0[2 * q] && e[2 * q + 1] == e0[2 * q + 1];
      }
    }
  }

  /** Appending two elements keeps the earlier ones in place. */
  lemma AppendTwo<T>(e: seq<T>, a: T, b: T)
    ensures var l := e + [a] + [b];
      && |l| == |e| + 2 && l[|e|] == a && l[|e| + 1] == b
      && forall k :: 0 <= k < |e| ==> l[k] == e[k]
  { }

  /** process_file completes its job, which holds an answer from each of the
      four agents under its id, and leaves the other jobs alone. */
  lemma ProcessFileJob(s: State, jobId: string, filePath: string, fileType: string, llm: Llm)
    ensures var s' := AfterProcessFile(s, jobId, filePath, fileType, llm);
      && jobId in s'.jobs
      && (var j := s'.jobs[jobId];
          && j.status == CompletedStatus
          && Keys(j.results) == ListAgents()
          && "video-agent" in Keys(j.results) && "audio-agent" in Keys(j.results)
          && "metadata-agent" in Keys(j.results) && "storyboard-agent" in Keys(j.results)
          && (forall x :: x in ListAgents() ==> GetAgentClass(x).Some? && Get(j.results, x) == Some(Output(x, jobId, filePath, fileType, llm))))
      && (forall k :: k != jobId ==> (k in s'.jobs <==> k in s.jobs))
      && (forall k :: k != jobId && k in s.jobs ==> s'.jobs[k] == s.jobs[k])
  {
    ListedHaveClasses();
    ListAgentsSpec();
    PartialJob(s, jobId, filePath, fileType, llm, ListAgents());
  }

  /** After the loop over any registered ids, the earlier messages stay and
      each id has added its request and then its response, in order. */
  lemma PartialMessagesAt(s: State, jobId: string, filePath: string, fileType: string, llm: Llm, ids: seq<string>)
    requires forall x :: x in ids ==> GetAgentClass(x).Some?
    ensures var m := PartialOf(s, jobId, filePath, fileType, llm, ids).messages;
      && |m| == |s.messages| + 2 * |ids|
      && m[..|s.messages|] == s.messages
      && forall p :: 0 <= p < |ids| ==>
           && m[|s.messages| + 2 * p] == RequestTo(ids[p], jobId, filePath, fileType)
           && m[|s.messages| + 2 * p + 1] == ResponseFrom(ids[p], jobId, Output(ids[p], jobId, filePath, fileType, llm))
  {
    PartialMessages(s, jobId, filePath, fileType, llm, ids);
    ExchangesAt(ids, jobId, filePath, fileType, llm);
    var e := Exchanges(ids, jobId, filePath, fileType, llm);
    var m := s.messages + e;
    AppendedAt(s.messages, e);
    forall p | 0 <= p < |ids|
      ensures m[|s.messages| + 2 * p] == RequestTo(ids[p], jobId, filePath, fileType)
      ensures m[|s.messages| + 2 * p + 1] == ResponseFrom(ids[p], jobId, Output(ids[p], jobId, filePath, fileType, llm))
    {
      assert m[|s.messages| + 2 * p] == e[2 * p];
      assert m[|s.messages| + 2 * p + 1] == e[2 * p + 1];
    }
  }

  /** Appending keeps the earlier elements and shifts the new ones. */
  lemma AppendedAt<T>(a: seq<T>, e: seq<T>)
    ensures |a + e| == |a| + |e| && (a + e)[..|a|] == a
    ensures forall k :: 0 <= k < |e| ==> (a + e)[|a| + k] == e[k]
  { }

  /** process_file adds exactly 8 messages, the exchanges of the four
      listed agents in listing order, and alters none of the earlier
      ones. */
  lemma ProcessFileMessages(s: State, jobId: string, filePath: string, fileType: string, llm: Llm)
    ensures var m := AfterProcessFile(s, jobId, filePath, fileType, llm).messages;
      && |m| == |s.messages| + 8
      && m[..|s.messages|] == s.messages
      && (forall x :: x in ListAgents() ==> GetAgentClass(x).Some?)
      && m == s.messages + Exchanges(ListAgents(), jobId, filePath, fileType, llm)
  {
    ListedHaveClasses();
    PartialMessagesAt(s, jobId, filePath, fileType, llm, ListAgents());
    PartialMessages(s, jobId, filePath, fileType, llm, ListAgents());
  }

  /** Only the metadata agent is built with the file type, so only its answer
      can depend on it. */
  lemma OnlyMetadataSeesFileType(agentId: string, jobId: string, filePath: string, fileType: string, fileType': string, llm: Llm)
    requires GetAgentClass(agentId).Some? && agentId != "metadata-agent"
    ensures FileTypeArgument(agentId, fileType) == None
    ensures Output(agentId, jobId, filePath, fileType, llm) == Output(agentId, jobId, filePath, fileType', llm)
  {
    GetAgentClassSpec(agentId);
    ListAgentsSpec();
  }

  // ---------------------------------------------------------------------------
  // The orchestrator

  class AgentOrchestrator {
    var jobs: map<string, Job>
    var messages: seq<Message>

    function Snapshot(): State
      reads this
    {
      State(jobs, messages)
    }

    constructor()
      ensures Snapshot() == State(map[], [])
    {
      jobs := map[];
      messages := [];
    }

    method SendMessage(message: Message)
      modifies this
      ensures Snapshot() == AfterSend(old(Snapshot()), message)
    {
      messages := messages + [message];
    }

    /** One iteration of process_file's loop. */
    method Step(agentId: string, jobId: string, filePath: string, fileType: string, llm: Llm)
      requires jobId in jobs
      modifies this
      ensures Snapshot() == StepOf(old(Snapshot()), agentId, jobId, filePath, fileType, llm)
    {
      var agentClass := GetAgentClass(agentId);
      if agentClass.None? {
        return;
      }
      BuildListed(agentId, jobId, filePath, fileType);
      var agent := New(agentClass.value, jobId, filePath, FileTypeArgument(agentId, fileType)).value;
      SendMessage(RequestTo(agentId, jobId, filePath, fileType));
      var result := Process(agent, llm);
      jobs := jobs[jobId := jobs[jobId].(results := Put(jobs[jobId].results, agentId, result))];
      SendMessage(ResponseFrom(agentId, jobId, result));
    }

    /** process_file, with the job id it draws and the language model as
        parameters. */
    method ProcessFile(jobId: string, filePath: string, fileType: string, llm: Llm) returns (id: string)
      modifies this
      ensures id == jobId
      ensures Snapshot() == AfterProcessFile(old(Snapshot()), jobId, filePath, fileType, llm)
    {
      ghost var s0 := Snapshot();
      jobs := jobs[jobId := Job(jobId, filePath, fileType, [], ProcessingStatus)];
      var ids := ListAgents();
      for i := 0 to |ids|
        invariant Snapshot() == PartialOf(s0, jobId, filePath, fileType, llm, ids[..i])
      {
        Step(ids[i], jobId, filePath, fileType, llm);
        PartialOfStep(s0, jobId, filePath, fileType, llm, ids, i);
      }
      assert ids[..|ids|] == ids;
      jobs := jobs[jobId := jobs[jobId].(status := CompletedStatus)];
      id := jobId;
    }
  }

  /** The pipeline test: a fresh orchestrator's run completes its job with
      results from all four agents and exchanges 8 messages. */
  lemma FreshRun(jobId: string, filePath: string, fileType: string, llm: Llm)
    ensures var s' := AfterProcessFile(State(map[], []), jobId, filePath, fileType, llm);
      && jobId in s'.jobs && s'.jobs[jobId].status == CompletedStatus
      && "video-agent" in Keys(s'.jobs[jobId].results) && "audio-agent" in Keys(s'.jobs[jobId].results)
      && "metadata-agent" in Keys(s'.jobs[jobId].results) && "storyboard-agent" in Keys(s'.jobs[jobId].results)
      && |s'.messages| == 8
  {
    ProcessFileJob(State(map[], []), jobId, filePath, fileType, llm);
    ProcessFileMessages(State(map[], []), jobId, filePath, fileType, llm);
  }
}
