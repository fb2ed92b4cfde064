/** scripts/a2a_protocol.py: A2A messages and their dictionary form, the
    per-agent protocol object (registered handlers, message history, messages
    awaiting an acknowledgement), and the MultimediaAgent handlers that keep a
    per-job status table.

    `uuid.uuid4()`, `time.time()` and `datetime.now()` all draw on a logical
    clock: a message created at clock reading t has id `idOf(t)`, timestamp t
    and creation date t, for a function `idOf` fixed when the protocol object
    is built; each reading advances the clock.  Timestamps and processing
    times are integers.  The dictionary form is `Dicts.Json`.  Every
    state-changing operation is first written as a function from one state to
    the next; the classes at the end are proved to follow those functions. */
module A2aProtocol {
  import opened Wrappers
  import opened Dicts

  /** ProtocolVersion.V2_0.value, the version create_message stamps. */
  const Version: string := "2.0"

  datatype Priority = Low | Normal | High | Critical

  /** The value of a MessagePriority member. */
  function PriorityValue(p: Priority): int {
    match p
    case Low => 1
    case Normal => 2
    case High => 3
    case Critical => 4
  }

  /** `MessagePriority(v)`: the member whose value equals v; `True` equals 1
      in Python and so finds LOW. Any other value raises ValueError (None
      here). */
  function PriorityOf(v: Json): (r: Option<Priority>)
    ensures r.Some? <==> (v.JNum? && 1 <= v.n <= 4) || v == JBool(true)
    ensures r.Some? ==> PriorityValue(r.value) == (if v.JBool? then 1 else v.n)
  {
    if v == JNum(1) || v == JBool(true) then Some(Low)
    else if v == JNum(2) then Some(Normal)
    else if v == JNum(3) then Some(High)
    else if v == JNum(4) then Some(Critical)
    else None
  }

  /** A2AHeader. */
  datatype Header = Header(version: string, messageId: string, timestamp: int, fromAgent: string, toAgent: string,
                           priority: Priority, requiresAck: bool, correlationId: Option<string>)

  /** A2APayload. */
  datatype Payload = Payload(action: string, data: Dict, metadata: Option<Dict>)

  /** A2AMessage. */
  datatype Message = Message(header: Header, payload: Payload)

  // ---------------------------------------------------------------------------
  // to_dict / from_dict

  function TextOrNull(o: Option<string>): Json {
    if o.Some? then JStr(o.value) else JNull
  }

  function ObjectOrNull(o: Option<Dict>): Json {
    if o.Some? then JObj(o.value) else JNull
  }

  /** `asdict(header)`. asdict keeps the priority as its enum member; a JSON
      value cannot hold one, so the dictionary holds the member's value,
      which MessagePriority reads back as the same member. */
  function HeaderDict(h: Header): Dict {
    [("version", JStr(h.version)), ("message_id", JStr(h.messageId)), ("timestamp", JNum(h.timestamp)),
     ("from_agent", JStr(h.fromAgent)), ("to_agent", JStr(h.toAgent)), ("priority", JNum(PriorityValue(h.priority))),
     ("requires_ack", JBool(h.requiresAck)), ("correlation_id", TextOrNull(h.correlationId))]
  }

  /** `asdict(payload)`. */
  function PayloadDict(p: Payload): Dict {
    [("action", JStr(p.action)), ("data", JObj(p.data)), ("metadata", ObjectOrNull(p.metadata))]
  }

  /** A2AMessage.to_dict. */
  function ToDict(m: Message): Json {
    JObj([("header", JObj(HeaderDict(m.header))), ("payload", JObj(PayloadDict(m.payload)))])
  }

  /** `d[key]` holding an object: KeyError when absent. */
  function ObjectField(d: Json, key: string): Result<Dict, string> {
    if !d.JObj? then Err("not a dictionary")
    else
      var v: Option<Json> := Get(d.fields, key);
      match v
      case None => Err("KeyError: " + key)
      case Some(JObj(fields)) => Ok(fields)
      case Some(_) => Err("not a dictionary: " + key)
  }

  /** `d[key]` holding a string. */
  function TextField(d: Dict, key: string): Result<string, string> {
    var v: Option<Json> := Get(d, key);
    match v
    case None => Err("KeyError: " + key)
    case Some(JStr(s)) => Ok(s)
    case Some(_) => Err("not a string: " + key)
  }

  /** `d[key]` holding a number. */
  function NumberField(d: Dict, key: string): Result<int, string> {
    var v: Option<Json> := Get(d, key);
    match v
    case None => Err("KeyError: " + key)
    case Some(JNum(n)) => Ok(n)
    case Some(_) => Err("not a number: " + key)
  }

  /** `MessagePriority(d[key])`. */
  function PriorityField(d: Dict, key: string): Result<Priority, string> {
    var v: Option<Json> := Get(d, key);
    match v
    case None => Err("KeyError: " + key)
    case Some(v) => if PriorityOf(v).Some? then Ok(PriorityOf(v).value) else Err("ValueError: " + key)
  }

  /** `d.get(key, False)`; a stored None is false as well. */
  function FlagField(d: Dict, key: string): Result<bool, string> {
    var v: Option<Json> := Get(d, key);
    match v
    case None => Ok(false)
    case Some(JNull) => Ok(false)
    case Some(JBool(b)) => Ok(b)
    case Some(_) => Err("not a boolean: " + key)
  }

  /** `d.get(key)` holding a string or None. */
  function OptionalTextField(d: Dict, key: string): Result<Option<string>, string> {
    var v: Option<Json> := Get(d, key);
    match v
    case None => Ok(None)
    case Some(JNull) => Ok(None)
    case Some(JStr(s)) => Ok(Some(s))
    case Some(_) => Err("not a string: " + key)
  }

  /** `d.get(key)` holding an object or None. */
  function OptionalObjectField(d: Dict, key: string): Result<Option<Dict>, string> {
    var v: Option<Json> := Get(d, key);
    match v
    case None => Ok(None)
    case Some(JNull) => Ok(None)
    case Some(JObj(fields)) => Ok(Some(fields))
    case Some(_) => Err("not a dictionary: " + key)
  }

  /** The A2AHeader built from a header dictionary; the first failing field,
      in the order the constructor call evaluates them, gives the error. */
  function HeaderFrom(h: Dict): Result<Header, string> {
    var version := TextField(h, "version");
    var id := TextField(h, "message_id");
    var timestamp := NumberField(h, "timestamp");
    var from := TextField(h, "from_agent");
    var to := TextField(h, "to_agent");
    var priority := PriorityField(h, "priority");
    var ack := FlagField(h, "requires_ack");
    var correlation := OptionalTextField(h, "correlation_id");
    if version.Err? then Err(version.error)
    else if id.Err? then Err(id.error)
    else if timestamp.Err? then Err(timestamp.error)
    else if from.Err? then Err(from.error)
    else if to.Err? then Err(to.error)
    else if priority.Err? then Err(priority.error)
    else if ack.Err? then Err(ack.error)
    else if correlation.Err? then Err(correlation.error)
    else Ok(Header(version.value, id.value, timestamp.value, from.value, to.value, priority.value, ack.value, correlation.value))
  }

  /** The A2APayload built from a payload dictionary. */
  function PayloadFrom(p: Dict): Result<Payload, string> {
    var action := TextField(p, "action");
    var data := ObjectField(JObj(p), "data");
    var metadata := OptionalObjectField(p, "metadata");
    if action.Err? then Err(action.error)
    else if data.Err? then Err(data.error)
    else if metadata.Err? then Err(metadata.error)
    else Ok(Payload(action.value, data.value, metadata.value))
  }

  /** A2AMessage.from_dict: the header is read before the payload. */
  function FromDict(d: Json): Result<Message, string> {
    var h := ObjectField(d, "header");
    if h.Err? then Err(h.error)
    else
      var header := HeaderFrom(h.value);
      if header.Err? then Err(header.error)
      else
        var p := ObjectField(d, "payload");
        if p.Err? then Err(p.error)
        else
          var payload := PayloadFrom(p.value);
          if payload.Err? then Err(payload.error) else Ok(Message(header.value, payload.value))
  }

  /** Reading back a header's dictionary gives the header. */
  lemma HeaderRoundTrip(h: Header)
    ensures HeaderFrom(HeaderDict(h)) == Ok(h)
  {
    var d := HeaderDict(h);
    GetAt(d, 0); GetAt(d, 1); GetAt(d, 2); GetAt(d, 3); GetAt(d, 4); GetAt(d, 5); GetAt(d, 6); GetAt(d, 7);
  }

  /** Reading back a payload's dictionary gives the payload. */
  lemma PayloadRoundTrip(p: Payload)
    ensures PayloadFrom(PayloadDict(p)) == Ok(p)
  {
    var d := PayloadDict(p);
    GetAt(d, 0); GetAt(d, 1); GetAt(d, 2);
  }

  /** from_dict(to_dict(m)) reproduces every header and payload field of m. */
  lemma RoundTrip(m: Message)
    ensures FromDict(ToDict(m)) == Ok(m)
  {
    var d := [("header", JObj(HeaderDict(m.header))), ("payload", JObj(PayloadDict(m.payload)))];
    GetAt(d, 0);
    GetAt(d, 1);
    HeaderRoundTrip(m.header);
    PayloadRoundTrip(m.payload);
  }

  /** Without requires_ack, correlation_id and metadata the message reads as
      not needing an acknowledgement, uncorrelated and without metadata. */
  lemma AbsentFieldsDefault(h: Dict, p: Dict)
    requires Get(h, "requires_ack") == None && Get(h, "correlation_id") == None && Get(p, "metadata") == None
    ensures var r := FromDict(JObj([("header", JObj(h)), ("payload", JObj(p))]));
      r.Ok? ==> !r.value.header.requiresAck && r.value.header.correlationId == None && r.value.payload.metadata == None
  {
    var d := [("header", JObj(h)), ("payload", JObj(p))];
    assert Get(d, "header") == Some(JObj(h));
    assert Get(d, "payload") == Some(JObj(p));
  }

  // ---------------------------------------------------------------------------
  // A2AProtocol

  /** The state of an A2AProtocol object: the actions of its handlers in
      registration order (the handlers themselves are code the protocol only
      calls), the messages awaiting an acknowledgement under their ids, the
      message history, the connected agents and the clock. */
  datatype Protocol = Protocol(agentId: string, handlers: seq<string>, pendingAcks: Assoc<string, Message>,
                               history: seq<Message>, connectedAgents: Assoc<string, bool>, clock: nat)

  /** What get_message_stats reports. */
  datatype MessageStats = MessageStats(totalMessages: nat, pendingAcks: nat, registeredHandlers: nat, connectedAgents: nat)

  /** A new A2AProtocol: nothing registered, sent or received. */
  function NewProtocol(agentId: string): Protocol {
    Protocol(agentId, [], [], [], [], 0)
  }

  /** register_handler: a new action goes last, a registered one keeps its place. */
  function AfterRegister(p: Protocol, action: string): Protocol {
    p.(handlers := if action in p.handlers then p.handlers else p.handlers + [action])
  }

  /** The strings as JSON strings. */
  function Texts(ss: seq<string>): (r: seq<Json>)
    ensures |r| == |ss| && forall i :: 0 <= i < |ss| ==> r[i] == JStr(ss[i])
  {
    if ss == [] then [] else [JStr(ss[0])] + Texts(ss[1..])
  }

  /** The message create_message builds at the current clock reading. */
  function Created(p: Protocol, idOf: nat -> string, to: string, action: string, data: Dict, priority: Priority,
                   requiresAck: bool, correlationId: Option<string>): Message {
    Message(Header(Version, idOf(p.clock), p.clock, p.agentId, to, priority, requiresAck, correlationId),
            Payload(action, data, Some([("created_at", JNum(p.clock)), ("agent_capabilities", JArr(Texts(p.handlers)))])))
  }

  /** create_message: the message, and the clock moved on. */
  function AfterCreate(p: Protocol, idOf: nat -> string, to: string, action: string, data: Dict, priority: Priority,
                       requiresAck: bool, correlationId: Option<string>): (Protocol, Message) {
    (p.(clock := p.clock + 1), Created(p, idOf, to, action, data, priority, requiresAck, correlationId))
  }

  /** send_message: the message joins the history and, when it asks for an
      acknowledgement, the pending table under its id. */
  function AfterSend(p: Protocol, m: Message): Protocol {
    p.(history := p.history + [m],
       pendingAcks := if m.header.requiresAck then Put(p.pendingAcks, m.header.messageId, m) else p.pendingAcks)
  }

  /** A reply to `original`: created with default priority, no
      acknowledgement, addressed to the original sender and correlated with
      the original id, then sent. */
  function Replied(p: Protocol, idOf: nat -> string, original: Message, action: string, data: Dict): Message {
    Created(p, idOf, original.header.fromAgent, action, data, Normal, false, Some(original.header.messageId))
  }

  function AfterReply(p: Protocol, idOf: nat -> string, original: Message, action: string, data: Dict): Protocol {
    AfterSend(p.(clock := p.clock + 1), Replied(p, idOf, original, action, data))
  }

  function AckData(m: Message): Dict {
    [("ack_for", JStr(m.header.messageId))]
  }

  function ErrorData(m: Message, error: string): Dict {
    [("error", JStr(error)), ("original_message_id", JStr(m.header.messageId))]
  }

  /** receive_message, with the outcome of the handler given: None when it
      returns, the text of the exception when it raises.  The result says
      whether a handler was registered for the action. */
  function AfterReceive(p: Protocol, idOf: nat -> string, m: Message, failure: Option<string>): (Protocol, bool) {
    var p1 := p.(history := p.history + [m]);
    var p2 := if m.header.requiresAck then AfterReply(p1, idOf, m, "ack", AckData(m)) else p1;
    if m.payload.action !in p.handlers then (p2, false)
    else if failure.Some? then (AfterReply(p2, idOf, m, "error", ErrorData(m, failure.value)), true)
    else (p2, true)
  }

  /** get_message_stats. */
  function StatsOf(p: Protocol): MessageStats {
    MessageStats(|p.history|, |p.pendingAcks|, |p.handlers|, |p.connectedAgents|)
  }

  /** create_message stamps version 2.0, the agent's own id as sender, a
      fresh id from the clock, and the registered actions as capabilities. */
  lemma CreatedHeader(p: Protocol, idOf: nat -> string, to: string, action: string, data: Dict, priority: Priority,
                      requiresAck: bool, correlationId: Option<string>)
    ensures var m := Created(p, idOf, to, action, data, priority, requiresAck, correlationId);
      && m.header.version == "2.0" && m.header.fromAgent == p.agentId && m.header.messageId == idOf(p.clock)
      && m.header.toAgent == to && m.payload.action == action && m.payload.data == data
      && m.header.requiresAck == requiresAck && m.header.correlationId == correlationId
      && m.payload.metadata.Some?
      && Get(m.payload.metadata.value, "agent_capabilities") == Some(JArr(Texts(p.handlers)))
  {
    var meta := [("created_at", JNum(p.clock)), ("agent_capabilities", JArr(Texts(p.handlers)))];
    assert meta[1..][0] == ("agent_capabilities", JArr(Texts(p.handlers)));
  }

  /** After send_message the message is pending under its id exactly when it
      asks for an acknowledgement (its id being new), and every other pending
      entry is as before. */
  lemma SendPending(p: Protocol, m: Message, k: string)
    requires Get(p.pendingAcks, m.header.messageId) == None
    ensures var q := AfterSend(p, m);
      && q.history == p.history + [m]
      && (Get(q.pendingAcks, m.header.messageId).Some? <==> m.header.requiresAck)
      && (m.header.requiresAck ==> Get(q.pendingAcks, m.header.messageId) == Some(m))
      && (k != m.header.messageId ==> Get(q.pendingAcks, k) == Get(p.pendingAcks, k))
  {
    if m.header.requiresAck {
      PutGet(p.pendingAcks, m.header.messageId, m, m.header.messageId);
      PutGet(p.pendingAcks, m.header.messageId, m, k);
    }
  }

  /** Sending adds one message to the history and one pending entry for a new
      id that asks for an acknowledgement. */
  lemma SendStats(p: Protocol, m: Message)
    ensures var before := StatsOf(p);
      var after := StatsOf(AfterSend(p, m));
      && after.totalMessages == before.totalMessages + 1
      && after.pendingAcks == before.pendingAcks +
           (if m.header.requiresAck && m.header.messageId !in Keys(p.pendingAcks) then 1 else 0)
      && after.registeredHandlers == before.registeredHandlers
  {
    if m.header.requiresAck {
      PutSpec(p.pendingAcks, m.header.messageId, m);
    }
  }

  /** A message asking for an acknowledgement is answered by an "ack" to its
      sender, right after it in the history, whose ack_for and correlation id
      are the message's id. */
  lemma ReceiveAcknowledges(p: Protocol, idOf: nat -> string, m: Message, failure: Option<string>)
    requires m.header.requiresAck
    ensures var h := AfterReceive(p, idOf, m, failure).0.history;
      && |h| >= |p.history| + 2 && h[..|p.history| + 1] == p.history + [m]
      && var ack := h[|p.history| + 1];
      && ack.payload.action == "ack" && ack.header.toAgent == m.header.fromAgent
      && Get(ack.payload.data, "ack_for") == Some(JStr(m.header.messageId))
      && ack.header.correlationId == Some(m.header.messageId)
  {
    var p1 := p.(history := p.history + [m]);
    var p2 := AfterReply(p1, idOf, m, "ack", AckData(m));
    var r := AfterReceive(p, idOf, m, failure).0;
    assert p2.history == p.history + [m] + [Replied(p1, idOf, m, "ack", AckData(m))];
    assert r.history[..|p2.history|] == p2.history;
  }

  /** An action without a handler gets no reply beyond the acknowledgement,
      and receive_message reports it unhandled. */
  lemma ReceiveUnhandled(p: Protocol, idOf: nat -> string, m: Message, failure: Option<string>)
    requires m.payload.action !in p.handlers
    ensures var (q, handled) := AfterReceive(p, idOf, m, failure);
      && !handled
      && q.history == p.history + [m] +
           (if m.header.requiresAck then [Replied(p.(history := p.history + [m]), idOf, m, "ack", AckData(m))] else [])
  {
  }

  /** A handler that raises yields exactly one "error" reply, last in the
      history, carrying the original id; everything added before it is the
      message and its acknowledgement. */
  lemma ReceiveFailing(p: Protocol, idOf: nat -> string, m: Message, error: string)
    requires m.payload.action in p.handlers
    ensures var (q, handled) := AfterReceive(p, idOf, m, Some(error));
      && handled
      && var added := q.history[|p.history|..];
      && |added| == (if m.header.requiresAck then 3 else 2) && added[0] == m
      && (forall j :: 0 < j < |added| - 1 ==> added[j].payload.action == "ack")
      && var reply := added[|added| - 1];
      && reply.payload.action == "error" && reply.header.toAgent == m.header.fromAgent
      && Get(reply.payload.data, "original_message_id") == Some(JStr(m.header.messageId))
      && reply.header.correlationId == Some(m.header.messageId)
  {
    var p1 := p.(history := p.history + [m]);
    var p2 := if m.header.requiresAck then AfterReply(p1, idOf, m, "ack", AckData(m)) else p1;
    var q := AfterReceive(p, idOf, m, Some(error)).0;
    var e := Replied(p2, idOf, m, "error", ErrorData(m, error));
    assert ErrorData(m, error)[1..][0] == ("original_message_id", JStr(m.header.messageId));
    if m.header.requiresAck {
      var a := Replied(p1, idOf, m, "ack", AckData(m));
      assert q.history[|p.history|..] == [m, a, e];
    } else {
      assert q.history[|p.history|..] == [m, e];
    }
  }

  /** A handler that returns adds nothing beyond the message and its
      acknowledgement. */
  lemma ReceiveHandled(p: Protocol, idOf: nat -> string, m: Message)
    requires m.payload.action in p.handlers
    ensures var (q, handled) := AfterReceive(p, idOf, m, None);
      && handled
      && q.history == p.history + [m] +
           (if m.header.requiresAck then [Replied(p.(history := p.history + [m]), idOf, m, "ack", AckData(m))] else [])
  {
  }

  // ---------------------------------------------------------------------------
  // MultimediaAgent

  /** An entry of current_jobs: what handle_process_request records. */
  datatype JobEntry = JobEntry(status: string, startTime: nat, filePath: Json, requester: string,
                               results: Option<Dict>, endTime: Option<nat>)

  /** The state of a MultimediaAgent: its protocol and its current_jobs,
      keyed by the `JobKey` of the request's job_id (None when absent). */
  datatype AgentState = AgentState(protocol: Protocol, jobs: Assoc<Json, JobEntry>)

  /** The actions setup_handlers registers, in order. */
  const AgentActions: seq<string> := ["process", "status", "cancel", "ack", "error"]

  /** setup_handlers: the five actions registered one after another. */
  function AfterSetup(p: Protocol): Protocol {
    AfterRegister(AfterRegister(AfterRegister(AfterRegister(AfterRegister(p, "process"), "status"), "cancel"), "ack"), "error")
  }

  /** `d.get(key)`: None (JSON null) when absent. */
  function Lookup(d: Dict, key: string): Json {
    match Get(d, key)
    case Some(v) => v
    case None => JNull
  }

  /** The dictionary key a job_id stands for: Python's `True == 1` and
      `False == 0` hash alike, so a boolean finds or replaces the entry under
      its integer. Which of the two equal objects the dict keeps is not
      visible to the agent, so the integer stands for both. */
  function JobKey(v: Json): (k: Json)
    ensures !k.JBool?
    ensures k.JNum? <==> v.JNum? || v.JBool?
    ensures !v.JBool? ==> k == v
  {
    if v.JBool? then JNum(if v.b then 1 else 0) else v
  }

  /** Python can use the value as a dictionary key (lists and dictionaries
      are unhashable). */
  predicate Hashable(v: Json) {
    !v.JArr? && !v.JObj?
  }

  /** Whether the registered handler for the message's action raises: the
      process and cancel handlers index current_jobs with job_id, the ack
      handler looks ack_for up in pending_acks, and an unhashable value makes
      that first step raise TypeError, before anything changes. */
  function HandlerFailure(m: Message): Option<string> {
    var action := m.payload.action;
    if (action == "process" || action == "cancel") && !Hashable(Lookup(m.payload.data, "job_id")) then Some("unhashable type")
    else if action == "ack" && !Hashable(Lookup(m.payload.data, "ack_for")) then Some("unhashable type")
    else None
  }

  /** simulate_processing: fixed results per agent type. */
  function SimulatedResults(agentType: string): Dict {
    var time := if agentType == "video" then 2 else 1;
    if agentType == "video" then
      [("resolution_enhanced", JStr("4K")), ("noise_reduction", JStr("85% improvement")), ("color_correction", JStr("Applied")),
       ("scenes_detected", JNum(12)), ("frames_processed", JNum(1440)), ("processing_time", JNum(time))]
    else if agentType == "audio" then
      [("noise_reduction", JStr("92% improvement")), ("audio_quality", JStr("Enhanced to 48kHz")),
       ("speech_to_text", JStr("Transcription complete")), ("background_music", JStr("Generated")), ("processing_time", JNum(time))]
    else if agentType == "storyboard" then
      [("key_frames", JNum(24)), ("scenes", JNum(12)), ("transitions", JNum(11)), ("composition_analysis", JStr("Complete")),
       ("timeline_generated", JBool(true)), ("processing_time", JNum(time))]
    else if agentType == "metadata" then
      [("tags", JArr([JStr("action"), JStr("outdoor"), JStr("daylight"), JStr("people")])), ("objects_detected", JNum(15)),
       ("text_extracted", JStr("OCR complete")), ("sentiment", JStr("Positive")), ("duration", JStr("2:34")),
       ("processing_time", JNum(time))]
    else
      [("processing_time", JNum(time))]
  }

  /** The number of jobs whose status is "processing". */
  function ActiveJobs(jobs: Assoc<Json, JobEntry>): nat {
    if jobs == [] then 0 else (if jobs[0].1.status == "processing" then 1 else 0) + ActiveJobs(jobs[1..])
  }

  /** handle_process_request on a hashable job id: the job is recorded as
      processing, then completed with the simulated results (two clock
      readings), and a process_complete reply goes to the requester. */
  function AfterProcessRequest(s: AgentState, idOf: nat -> string, agentType: string, m: Message): AgentState {
    var data := m.payload.data;
    var jobId := Lookup(data, "job_id");
    var key := JobKey(jobId);
    var results := SimulatedResults(agentType);
    var done := JobEntry("completed", s.protocol.clock, Lookup(data, "file_path"), m.header.fromAgent,
                         Some(results), Some(s.protocol.clock + 1));
    var p := s.protocol.(clock := s.protocol.clock + 2);
    AgentState(AfterReply(p, idOf, m, "process_complete",
                          [("job_id", jobId), ("status", JStr("completed")), ("results", JObj(results))]),
               Put(s.jobs, key, done))
  }

  /** The data of a status reply. */
  function StatusData(agentId: string, agentType: string, capabilities: seq<string>, jobs: Assoc<Json, JobEntry>): Dict {
    [("agent_id", JStr(agentId)), ("agent_type", JStr(agentType)), ("capabilities", JArr(Texts(capabilities))),
     ("active_jobs", JNum(ActiveJobs(jobs))), ("total_jobs", JNum(|jobs|))]
  }

  /** handle_status_request: a status_response reply; the jobs are unchanged. */
  function AfterStatusRequest(s: AgentState, idOf: nat -> string, agentId: string, agentType: string,
                              capabilities: seq<string>, m: Message): AgentState {
    s.(protocol := AfterReply(s.protocol, idOf, m, "status_response", StatusData(agentId, agentType, capabilities, s.jobs)))
  }

  /** handle_cancel_request on a hashable job id: a known job becomes
      cancelled; the reply says cancelled in every case. */
  function AfterCancelRequest(s: AgentState, idOf: nat -> string, m: Message): AgentState {
    var jobId := Lookup(m.payload.data, "job_id");
    var key := JobKey(jobId);
    var jobs := match Get(s.jobs, key)
      case Some(e) => Put(s.jobs, key, e.(status := "cancelled"))
      case None => s.jobs;
    AgentState(AfterReply(s.protocol, idOf, m, "cancel_response", [("job_id", jobId), ("status", JStr("cancelled"))]), jobs)
  }

  /** handle_acknowledgment: the acknowledged id leaves the pending table if
      it is there. */
  function AfterAcknowledgment(s: AgentState, m: Message): AgentState {
    var ackFor := Lookup(m.payload.data, "ack_for");
    var pending := s.protocol.pendingAcks;
    if ackFor.JStr? && Get(pending, ackFor.s).Some? then s.(protocol := s.protocol.(pendingAcks := Remove(pending, ackFor.s)))
    else s
  }

  /** `agent.protocol.receive_message(m)` with the agent's own handlers; the
      error handler only prints. */
  function AfterDeliver(s: AgentState, idOf: nat -> string, agentId: string, agentType: string,
                        capabilities: seq<string>, m: Message): AgentState {
    var failure := HandlerFailure(m);
    var (p, handled) := AfterReceive(s.protocol, idOf, m, failure);
    var s1 := s.(protocol := p);
    if !handled || failure.Some? then s1
    else if m.payload.action == "process" then AfterProcessRequest(s1, idOf, agentType, m)
    else if m.payload.action == "status" then AfterStatusRequest(s1, idOf, agentId, agentType, capabilities, m)
    else if m.payload.action == "cancel" then AfterCancelRequest(s1, idOf, m)
    else if m.payload.action == "ack" then AfterAcknowledgment(s1, m)
    else s1
  }

  /** setup_handlers registers exactly the five actions, in order. */
  lemma SetupActions(agentId: string)
    ensures AfterSetup(NewProtocol(agentId)).handlers == AgentActions
  {
  }

  /** Every simulated result reports its processing time: 2 for video, 1 otherwise. */
  lemma SimulatedProcessingTime(agentType: string)
    ensures Get(SimulatedResults(agentType), "processing_time") == Some(JNum(if agentType == "video" then 2 else 1))
  {
    var r := SimulatedResults(agentType);
    GetAt(r, |r| - 1);
  }

  /** Putting an entry changes the count of processing jobs by what leaves
      and what comes. */
  lemma {:induction false} ActiveJobsPut(jobs: Assoc<Json, JobEntry>, k: Json, e: JobEntry)
    requires DistinctKeys(jobs)
    ensures ActiveJobs(Put(jobs, k, e)) + (if Get(jobs, k).Some? && Get(jobs, k).value.status == "processing" then 1 else 0)
         == ActiveJobs(jobs) + (if e.status == "processing" then 1 else 0)
  {
    if jobs != [] {
      var r := Put(jobs, k, e);
      if jobs[0].0 == k {
        assert r[1..] == jobs[1..];
      } else {
        assert r[1..] == Put(jobs[1..], k, e);
        ActiveJobsPut(jobs[1..], k, e);
      }
    }
  }

  /** A processed job ends completed with the simulated results, no longer
      counts as active, every other job is unchanged, and the requester gets
      a process_complete reply. */
  lemma ProcessRequestCompletes(s: AgentState, idOf: nat -> string, agentType: string, m: Message, k: Json)
    requires DistinctKeys(s.jobs)
    ensures var r := AfterProcessRequest(s, idOf, agentType, m);
      var key := JobKey(Lookup(m.payload.data, "job_id"));
      && Get(r.jobs, key).Some? && Get(r.jobs, key).value.status == "completed"
      && Get(r.jobs, key).value.results == Some(SimulatedResults(agentType))
      && (JobKey(k) != key ==> Get(r.jobs, JobKey(k)) == Get(s.jobs, JobKey(k)))
      && ActiveJobs(r.jobs) + (if Get(s.jobs, key).Some? && Get(s.jobs, key).value.status == "processing" then 1 else 0)
         == ActiveJobs(s.jobs)
      && |r.protocol.history| == |s.protocol.history| + 1
      && r.protocol.history[|s.protocol.history|].payload.action == "process_complete"
      && r.protocol.history[|s.protocol.history|].header.correlationId == Some(m.header.messageId)
  {
    var key := JobKey(Lookup(m.payload.data, "job_id"));
    var r := AfterProcessRequest(s, idOf, agentType, m);
    var done := JobEntry("completed", s.protocol.clock, Lookup(m.payload.data, "file_path"), m.header.fromAgent,
                         Some(SimulatedResults(agentType)), Some(s.protocol.clock + 1));
    assert r.jobs == Put(s.jobs, key, done);
    PutGet(s.jobs, key, done, key);
    PutGet(s.jobs, key, done, JobKey(k));
    ActiveJobsPut(s.jobs, key, done);
  }

  /** Two process requests whose job ids are one dictionary key, such as 1
      and True, leave one job: the second replaces the first. */
  lemma SameKeyReplaces(s: AgentState, idOf: nat -> string, agentType: string, m1: Message, m2: Message)
    requires JobKey(Lookup(m1.payload.data, "job_id")) == JobKey(Lookup(m2.payload.data, "job_id"))
    ensures var r1 := AfterProcessRequest(s, idOf, agentType, m1);
      var r2 := AfterProcessRequest(r1, idOf, agentType, m2);
      var key := JobKey(Lookup(m1.payload.data, "job_id"));
      && |r2.jobs| == |r1.jobs|
      && Get(r2.jobs, key).Some? && Get(r2.jobs, key).value.requester == m2.header.fromAgent
  {
    var key := JobKey(Lookup(m1.payload.data, "job_id"));
    var r1 := AfterProcessRequest(s, idOf, agentType, m1);
    var r2 := AfterProcessRequest(r1, idOf, agentType, m2);
    var done1 := JobEntry("completed", s.protocol.clock, Lookup(m1.payload.data, "file_path"), m1.header.fromAgent,
                          Some(SimulatedResults(agentType)), Some(s.protocol.clock + 1));
    var done2 := JobEntry("completed", r1.protocol.clock, Lookup(m2.payload.data, "file_path"), m2.header.fromAgent,
                          Some(SimulatedResults(agentType)), Some(r1.protocol.clock + 1));
    assert r1.jobs == Put(s.jobs, key, done1);
    assert r2.jobs == Put(r1.jobs, key, done2);
    PutSpec(s.jobs, key, done1);
    GetKeys(r1.jobs, key);
    PutSpec(r1.jobs, key, done2);
  }

  /** The status reply counts the processing jobs and all jobs. */
  lemma StatusReports(s: AgentState, idOf: nat -> string, agentId: string, agentType: string,
                      capabilities: seq<string>, m: Message)
    ensures var r := AfterStatusRequest(s, idOf, agentId, agentType, capabilities, m);
      && r.jobs == s.jobs
      && |r.protocol.history| == |s.protocol.history| + 1
      && var reply := r.protocol.history[|s.protocol.history|];
      && reply.payload.action == "status_response"
      && Get(reply.payload.data, "active_jobs") == Some(JNum(ActiveJobs(s.jobs)))
      && Get(reply.payload.data, "total_jobs") == Some(JNum(|s.jobs|))
  {
    var d := StatusData(agentId, agentType, capabilities, s.jobs);
    GetAt(d, 3);
    GetAt(d, 4);
  }

  /** Cancelling marks a known job cancelled and changes no other job; the
      reply says cancelled whether the job was known or not. */
  lemma CancelMarks(s: AgentState, idOf: nat -> string, m: Message, k: Json)
    ensures var r := AfterCancelRequest(s, idOf, m);
      var key := JobKey(Lookup(m.payload.data, "job_id"));
      && Get(r.jobs, JobKey(k)) == (if JobKey(k) == key && Get(s.jobs, key).Some? then Some(Get(s.jobs, key).value.(status := "cancelled"))
                                   else Get(s.jobs, JobKey(k)))
      && |r.protocol.history| == |s.protocol.history| + 1
      && var reply := r.protocol.history[|s.protocol.history|];
      && reply.payload.action == "cancel_response"
      && Get(reply.payload.data, "status") == Some(JStr("cancelled"))
  {
    var key := JobKey(Lookup(m.payload.data, "job_id"));
    match Get(s.jobs, key)
    case Some(e) => PutGet(s.jobs, key, e.(status := "cancelled"), JobKey(k));
    case None =>
  }

  /** An acknowledgement removes the acknowledged id from the pending table
      and keeps every other entry; for an id not pending nothing changes. */
  lemma AcknowledgmentRemoves(s: AgentState, m: Message, k: string)
    ensures var r := AfterAcknowledgment(s, m);
      var ackFor := Lookup(m.payload.data, "ack_for");
      && (ackFor == JStr(k) ==> Get(r.protocol.pendingAcks, k) == None)
      && (ackFor != JStr(k) ==> Get(r.protocol.pendingAcks, k) == Get(s.protocol.pendingAcks, k))
      && (!(ackFor.JStr? && Get(s.protocol.pendingAcks, ackFor.s).Some?) ==> r == s)
  {
  }

  // ---------------------------------------------------------------------------
  // The classes

  /** A2AProtocol. */
  class A2AProtocol {
    const agentId: string
    /** The message id uuid4 yields at each clock reading. */
    const idOf: nat -> string
    var handlers: seq<string>
    var pendingAcks: Assoc<string, Message>
    var history: seq<Message>
    var connectedAgents: Assoc<string, bool>
    var clock: nat

    function State(): Protocol
      reads this
    {
      Protocol(agentId, handlers, pendingAcks, history, connectedAgents, clock)
    }

    /** A pending table lists each id once. */
    ghost predicate Valid()
      reads this
    {
      DistinctKeys(pendingAcks)
    }

    constructor(agentId: string, idOf: nat -> string)
      ensures Valid() && State() == NewProtocol(agentId) && this.idOf == idOf
    {
      this.agentId := agentId;
      this.idOf := idOf;
      handlers := [];
      pendingAcks := [];
      history := [];
      connectedAgents := [];
      clock := 0;
    }

    method RegisterHandler(action: string)
      modifies this
      ensures State() == AfterRegister(old(State()), action)
      ensures unchanged(this`pendingAcks)
    {
      if action !in handlers {
        handlers := handlers + [action];
      }
    }

    method CreateMessage(toAgent: string, action: string, data: Dict, priority: Priority, requiresAck: bool,
                         correlationId: Option<string>) returns (message: Message)
      modifies this
      ensures (State(), message) == AfterCreate(old(State()), idOf, toAgent, action, data, priority, requiresAck, correlationId)
      ensures unchanged(this`pendingAcks)
    {
      var now := clock;
      clock := clock + 1;
      var header := Header(Version, idOf(now), now, agentId, toAgent, priority, requiresAck, correlationId);
      var payload := Payload(action, data, Some([("created_at", JNum(now)), ("agent_capabilities", JArr(Texts(handlers)))]));
      message := Message(header, payload);
    }

    method SendMessage(message: Message)
      requires Valid()
      modifies this
      ensures Valid() && State() == AfterSend(old(State()), message)
    {
      history := history + [message];
      if message.header.requiresAck {
        PutDistinct(pendingAcks, message.header.messageId, message);
        pendingAcks := Put(pendingAcks, message.header.messageId, message);
      }
    }

    /** A reply to `original`, created and sent. */
    method Reply(original: Message, action: string, data: Dict)
      requires Valid()
      modifies this
      ensures Valid() && State() == AfterReply(old(State()), idOf, original, action, data)
    {
      var reply := CreateMessage(original.header.fromAgent, action, data, Normal, false, Some(original.header.messageId));
      SendMessage(reply);
    }

    /** receive_message; `failure` is what the registered handler raises, if
        it raises. */
    method ReceiveMessage(message: Message, failure: Option<string>) returns (handled: bool)
      requires Valid()
      modifies this
      ensures Valid() && (State(), handled) == AfterReceive(old(State()), idOf, message, failure)
    {
      history := history + [message];
      if message.header.requiresAck {
        Reply(message, "ack", AckData(message));
      }
      handled := message.payload.action in handlers;
      if handled && failure.Some? {
        Reply(message, "error", ErrorData(message, failure.value));
      }
    }

    method GetCapabilities() returns (capabilities: seq<string>)
      ensures capabilities == handlers
    {
      capabilities := handlers;
    }

    method GetMessageStats() returns (stats: MessageStats)
      ensures stats == StatsOf(State())
    {
      stats := MessageStats(|history|, |pendingAcks|, |handlers|, |connectedAgents|);
    }
  }

  /** MultimediaAgent. */
  class MultimediaAgent {
    const agentId: string
    const agentType: string
    const capabilities: seq<string>
    const protocol: A2AProtocol
    var currentJobs: Assoc<Json, JobEntry>

    function State(): AgentState
      reads this, protocol
    {
      AgentState(protocol.State(), currentJobs)
    }

    ghost predicate Valid()
      reads this, protocol
    {
      protocol.Valid() && DistinctKeys(currentJobs) && protocol.agentId == agentId
    }

    constructor(agentId: string, agentType: string, capabilities: seq<string>, idOf: nat -> string)
      ensures Valid() && fresh(protocol) && protocol.idOf == idOf
      ensures State() == AgentState(AfterSetup(NewProtocol(agentId)), [])
      ensures this.agentId == agentId && this.agentType == agentType && this.capabilities == capabilities
    {
      this.agentId := agentId;
      this.agentType := agentType;
      this.capabilities := capabilities;
      protocol := new A2AProtocol(agentId, idOf);
      currentJobs := [];
      new;
      SetupHandlers();
    }

    method SetupHandlers()
      modifies protocol
      ensures protocol.State() == AfterSetup(old(protocol.State()))
      ensures unchanged(protocol`pendingAcks)
    {
      protocol.RegisterHandler("process");
      protocol.RegisterHandler("status");
      protocol.RegisterHandler("cancel");
      protocol.RegisterHandler("ack");
      protocol.RegisterHandler("error");
    }

    /** handle_process_request: None when it returns, the error when it raises
        (an unhashable job id, before anything changes). */
    method HandleProcessRequest(message: Message) returns (raised: Option<string>)
      requires Valid()
      modifies this, protocol
      ensures Valid()
      ensures raised == (if Hashable(Lookup(message.payload.data, "job_id")) then None else Some("unhashable type"))
      ensures State() == if raised.Some? then old(State()) else AfterProcessRequest(old(State()), protocol.idOf, agentType, message)
    {
      ghost var s0 := State();
      var jobData := message.payload.data;
      var jobId := Lookup(jobData, "job_id");
      if !Hashable(jobId) {
        return Some("unhashable type");
      }
      var startTime := protocol.clock;
      protocol.clock := protocol.clock + 1;
      var entry := JobEntry("processing", startTime, Lookup(jobData, "file_path"), message.header.fromAgent, None, None);
      var key := JobKey(jobId);
      PutDistinct(currentJobs, key, entry);
      currentJobs := Put(currentJobs, key, entry);
      var results := SimulatedResults(agentType);
      var endTime := protocol.clock;
      protocol.clock := protocol.clock + 1;
      var done := entry.(status := "completed", results := Some(results), endTime := Some(endTime));
      PutTwice(old(currentJobs), key, entry, done);
      PutDistinct(currentJobs, key, done);
      currentJobs := Put(currentJobs, key, done);
      assert currentJobs == Put(s0.jobs, key, done);
      assert protocol.State() == s0.protocol.(clock := s0.protocol.clock + 2);
      protocol.Reply(message, "process_complete", [("job_id", jobId), ("status", JStr("completed")), ("results", JObj(results))]);
      raised := None;
    }

    method HandleStatusRequest(message: Message)
      requires Valid()
      modifies protocol
      ensures Valid()
      ensures State() == AfterStatusRequest(old(State()), protocol.idOf, agentId, agentType, capabilities, message)
    {
      var statusData := StatusData(agentId, agentType, capabilities, currentJobs);
      protocol.Reply(message, "status_response", statusData);
    }

    /** handle_cancel_request: None when it returns, the error when it raises. */
    method HandleCancelRequest(message: Message) returns (raised: Option<string>)
      requires Valid()
      modifies this, protocol
      ensures Valid()
      ensures raised == (if Hashable(Lookup(message.payload.data, "job_id")) then None else Some("unhashable type"))
      ensures State() == if raised.Some? then old(State()) else AfterCancelRequest(old(State()), protocol.idOf, message)
    {
      var jobId := Lookup(message.payload.data, "job_id");
      if !Hashable(jobId) {
        return Some("unhashable type");
      }
      var key := JobKey(jobId);
      var known := Get(currentJobs, key);
      if known.Some? {
        PutDistinct(currentJobs, key, known.value.(status := "cancelled"));
        currentJobs := Put(currentJobs, key, known.value.(status := "cancelled"));
      }
      protocol.Reply(message, "cancel_response", [("job_id", jobId), ("status", JStr("cancelled"))]);
      raised := None;
    }

    /** handle_acknowledgment: None when it returns, the error when it raises. */
    method HandleAcknowledgment(message: Message) returns (raised: Option<string>)
      requires Valid()
      modifies protocol
      ensures Valid()
      ensures raised == (if Hashable(Lookup(message.payload.data, "ack_for")) then None else Some("unhashable type"))
      ensures State() == if raised.Some? then old(State()) else AfterAcknowledgment(old(State()), message)
    {
      var ackFor := Lookup(message.payload.data, "ack_for");
      if !Hashable(ackFor) {
        return Some("unhashable type");
      }
      if ackFor.JStr? && Get(protocol.pendingAcks, ackFor.s).Some? {
        RemoveDistinct(protocol.pendingAcks, ackFor.s);
        protocol.pendingAcks := Remove(protocol.pendingAcks, ackFor.s);
      }
      raised := None;
    }

    /** `protocol.receive_message(message)` dispatching to this agent's
        handlers.  A handler raises only at its first step, so whether it
        raises is known before it runs and is what the protocol reports. */
    method ReceiveMessage(message: Message)
      requires Valid()
      modifies this, protocol
      ensures Valid()
      ensures State() == AfterDeliver(old(State()), protocol.idOf, agentId, agentType, capabilities, message)
    {
      var failure := HandlerFailure(message);
      var handled := protocol.ReceiveMessage(message, failure);
      if handled && failure.None? {
        var action := message.payload.action;
        if action == "process" {
          var _ := HandleProcessRequest(message);
        } else if action == "status" {
          HandleStatusRequest(message);
        } else if action == "cancel" {
          var _ := HandleCancelRequest(message);
        } else if action == "ack" {
          var _ := HandleAcknowledgment(message);
        }
      }
    }
  }
}
