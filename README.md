# AI Multimedia Suite — a verified model of its processing core

The AI Multimedia Suite takes an uploaded media file and runs it through four
agents: metadata, video, audio and storyboard. An orchestrator hands the file to
each agent in a fixed order, trades a request and a response message with each
one, collects their results into a processing job and marks the job completed,
or failed. The results can then be exported as JSON, CSV, XML, a text report
or an archive listing, and the media-specific "source" files (MP4, WAV, PNG)
can be downloaded.

This project is a Dafny model of that core, written one module per source file:

| module | file | form |
|---|---|---|
| `ApiIntegration` | scripts/api_integration.js | classes: `DatabaseConnection` (job and agent tables, message log capped at 1000), `A2AProtocolHandler` (send, broadcast), `ProcessingPipelineManager` (FIFO queue, four-agent run) |
| `A2aProtocol` | scripts/a2a_protocol.py | pure `to_dict`/`from_dict`/`create_message`; classes `A2AProtocol` (history, pending acks, dispatch) and `MultimediaAgent` (job table, handlers) |
| `Downloads` | scripts/download_service.py | pure name, size and export-row functions; class `DownloadService` over its table of active downloads |
| `DownloadManager` | components/download-manager.tsx | option list, MP4/WAV/PNG source bytes, file names, CSV and XML text, the download handler |
| `ResultsViewer` | components/results-viewer.tsx | agent names, the export dialog's selection toggle and its JSON, CSV, XML, report and archive texts |
| `Page` | app/page.tsx | class `Home` holding the page's jobs, agents and message log, with the `startProcessing` run as loops |
| `SetupAgents` | scripts/setup_agents.py | class `Orchestrator` with register, send and `process_file` |
| `Orchestration` | orchestrator/agent_orchestrator.py | class `AgentOrchestrator` with `process_file` and `send_message` |
| `AgentRegistry`, `Agents` | orchestrator/agent_registry.py, agents/*.py | the fixed registry table and the four agents' results |

Shared modules: `Wrappers` (Option and Result), `Dicts` (insertion-ordered
dictionaries, as both JavaScript objects and Python dicts keep them, and a
JSON value type), `Text` (decimal printing, `split(".")[0]`, `str.title()`,
`replace`) and `Jobs` (the client's `ProcessingJob` and JavaScript's
`String(value)` and `Object.entries`).

Every class method is proved against a specification function of the state
before the call (`ensures Snapshot() == AfterX(old(Snapshot()), ...)`). The
properties the source promises are lemmas about those functions: what a
completed or failed run leaves in the job, the agents and the message log;
the to_dict/from_dict round trip; which rows and elements the exports hold;
the byte layout of the MP4, WAV and PNG headers; and the bounds of the
progress values. Clocks, random ids, the language model and random sizes are
parameters of the operations that read them.

## Model

| member | source | states |
|---|---|---|
| A2aProtocol.PriorityOf | scripts/a2a_protocol.py:19-23 | `MessagePriority(v)` succeeds exactly for the values 1 to 4 and for `True`, which equals 1, and the member found has that value |
| A2aProtocol.HeaderRoundTrip | scripts/a2a_protocol.py:47-65 | reading back `asdict(header)` gives the same header, every field included |
| A2aProtocol.PayloadRoundTrip | scripts/a2a_protocol.py:47-72 | reading back `asdict(payload)` gives the same payload |
| A2aProtocol.RoundTrip | scripts/a2a_protocol.py:47-74 | `from_dict(to_dict(m))` is m, priority, requires_ack and correlation_id included |
| A2aProtocol.AbsentFieldsDefault | scripts/a2a_protocol.py:63-71 | when requires_ack, correlation_id and metadata are absent, the message reads as not needing an ack, with no correlation id and no metadata |
| A2aProtocol.Texts | scripts/a2a_protocol.py:184-186 | the capability names become JSON strings one for one, in order |
| A2aProtocol.CreatedHeader | scripts/a2a_protocol.py:89-118 | create_message sets version "2.0", the agent's own id as sender, the clock's id, the given fields, and the registered actions as agent_capabilities (get_capabilities, lines 184-186, gives the actions) |
| A2aProtocol.SendPending | scripts/a2a_protocol.py:128-133 | send_message appends to the history; the message is pending under its id exactly when requires_ack is set; other pending entries do not change |
| A2aProtocol.SendStats | scripts/a2a_protocol.py:128-133 | sending adds one to total_messages, adds one to pending_acks only for a new id that asks for an ack, and leaves registered_handlers as it was (as get_message_stats, lines 188-195, reports them) |
| A2aProtocol.ReceiveAcknowledges | scripts/a2a_protocol.py:151-162 | a received message that asks for an ack goes into the history, followed at once by an "ack" to its sender whose ack_for and correlation_id are the message's id |
| A2aProtocol.ReceiveUnhandled | scripts/a2a_protocol.py:165-182 | an action with no handler gives no reply beyond the ack, and the message counts as unhandled |
| A2aProtocol.ReceiveFailing | scripts/a2a_protocol.py:171-180 | a handler that raises gives exactly one "error" reply, placed last, to the sender, carrying original_message_id and the correlation id |
| A2aProtocol.ReceiveHandled | scripts/a2a_protocol.py:167-170 | a handler that returns adds nothing beyond the message and its ack |
| A2aProtocol.SetupActions | scripts/a2a_protocol.py:208-214 | setup_handlers registers exactly process, status, cancel, ack and error, in that order |
| A2aProtocol.SimulatedProcessingTime | scripts/a2a_protocol.py:302-345 | every simulated result reports processing_time: 2 for video, 1 for any other type, unknown types included |
| A2aProtocol.ActiveJobsPut | scripts/a2a_protocol.py:259 | putting a job entry changes the count of "processing" jobs only by the entry that leaves and the one that arrives |
| A2aProtocol.ProcessRequestCompletes | scripts/a2a_protocol.py:216-251 | a processed job ends "completed" with the simulated results under the dictionary key of its job_id, `True` and `False` being the keys 1 and 0, and no longer counts as active; jobs under other keys do not change; one process_complete reply correlated to the request is sent |
| A2aProtocol.SameKeyReplaces | scripts/a2a_protocol.py:224-237 | two process requests whose job ids are one dictionary key, such as 1 and `True`, leave one job, the second request's, so total_jobs does not grow |
| A2aProtocol.StatusReports | scripts/a2a_protocol.py:253-270 | the status reply carries active_jobs equal to the number of "processing" jobs and total_jobs equal to the number of jobs; the jobs do not change |
| A2aProtocol.CancelMarks | scripts/a2a_protocol.py:272-287 | cancel marks "cancelled" the job stored under the dictionary key of its job_id, so `True` finds the job under 1, and no other job; the reply says "cancelled" whether the job was known or not |
| A2aProtocol.AcknowledgmentRemoves | scripts/a2a_protocol.py:289-294 | an ack removes the acked id from pending_acks and keeps every other entry; if the id is not pending, nothing changes |
| A2aProtocol.A2AProtocol.constructor | scripts/a2a_protocol.py:77-82 | a new protocol has no handlers, nothing pending, an empty history and no connected agents |
| A2aProtocol.A2AProtocol.RegisterHandler | scripts/a2a_protocol.py:84-87 | register_handler adds a new action last and leaves a registered one in place |
| A2aProtocol.A2AProtocol.CreateMessage | scripts/a2a_protocol.py:89-118 | create_message returns the message `Created` describes, and only the clock advances |
| A2aProtocol.A2AProtocol.SendMessage | scripts/a2a_protocol.py:120-142 | send_message leaves the state `AfterSend` describes |
| A2aProtocol.A2AProtocol.ReceiveMessage | scripts/a2a_protocol.py:144-182 | receive_message leaves the state `AfterReceive` describes and reports whether a handler ran |
| A2aProtocol.A2AProtocol.GetCapabilities | scripts/a2a_protocol.py:184-186 | get_capabilities is the registered actions, in registration order |
| A2aProtocol.A2AProtocol.GetMessageStats | scripts/a2a_protocol.py:188-195 | get_message_stats counts the history, the pending acks, the handlers and the connected agents |
| A2aProtocol.MultimediaAgent.constructor | scripts/a2a_protocol.py:198-206 | a new agent has no jobs, and its protocol has the five handlers registered |
| A2aProtocol.MultimediaAgent.SetupHandlers | scripts/a2a_protocol.py:208-214 | setup_handlers registers the five actions and changes nothing else |
| A2aProtocol.MultimediaAgent.HandleProcessRequest | scripts/a2a_protocol.py:216-251 | handle_process_request leaves the state `AfterProcessRequest` describes; it raises only for an unhashable job id, and then changes nothing |
| A2aProtocol.MultimediaAgent.HandleStatusRequest | scripts/a2a_protocol.py:253-270 | handle_status_request leaves the state `AfterStatusRequest` describes |
| A2aProtocol.MultimediaAgent.HandleCancelRequest | scripts/a2a_protocol.py:272-287 | handle_cancel_request leaves the state `AfterCancelRequest` describes; it raises only for an unhashable job id |
| A2aProtocol.MultimediaAgent.HandleAcknowledgment | scripts/a2a_protocol.py:289-294 | handle_acknowledgment leaves the state `AfterAcknowledgment` describes; it raises only for an unhashable ack_for |
| A2aProtocol.MultimediaAgent.ReceiveMessage | scripts/a2a_protocol.py:144-300 | the agent's protocol dispatches to its handlers, and the state is then as `AfterDeliver` describes |
| ApiIntegration.Capped | scripts/api_integration.js:107-110 | trimming leaves exactly min(n, 1000) messages |
| ApiIntegration.CappedSlice | scripts/api_integration.js:107-110 | trimming keeps exactly the newest 1000 messages, and a log within the cap is left as it is |
| ApiIntegration.CappedAppend | scripts/api_integration.js:105-110 | trimming after each push gives the same log as trimming once at the end |
| ApiIntegration.SetEachByIdSpec | scripts/api_integration.js:53-55 | initializeAgents' loop stores every agent of the list under its own id, idle and without a job, each id listed once |
| ApiIntegration.InitialAgentIds | scripts/api_integration.js:21-55 | the default agents are stored in the order video, audio, storyboard, metadata |
| ApiIntegration.InitialStoreSpec | scripts/api_integration.js:11-56 | a fresh DatabaseConnection holds the four default agents, idle and without a job, and every agent of the pipeline order; it has no jobs and no messages |
| ApiIntegration.CreateJobSpec | scripts/api_integration.js:58-70 | createJob stores a job under the id jobData gives, or else a fresh one, with status "queued", progress 0, empty results and a fresh creation date, whatever status, progress, date or results jobData carries; the job can be found by its id; no other job, agent or message changes |
| ApiIntegration.UpdateJobSpec | scripts/api_integration.js:72-79 | updateJob changes only the job stored under the id; an unknown id changes nothing and gives undefined |
| ApiIntegration.PatchedSpec | scripts/api_integration.js:75 | Object.assign replaces exactly the fields the update carries and keeps every other field |
| ApiIntegration.UpdateAgentSpec | scripts/api_integration.js:89-96 | updateAgent sets status and currentJob of the agent under the id and of no other agent; an unknown id changes nothing and gives undefined |
| ApiIntegration.AddMessageSpec | scripts/api_integration.js:102-113 | addMessage stamps an id and a date, puts the message last, and keeps the log within 1000 entries, dropping the oldest only when the log is full |
| ApiIntegration.RecentMessagesNewestFirst | scripts/api_integration.js:115-117 | for a positive limit, getMessages returns the newest min(limit, n) messages, newest first |
| ApiIntegration.RecentMessagesNonPositive | scripts/api_integration.js:115-117 | getMessages(0) returns the whole log reversed, because `slice(-0)` is `slice(0)`; a negative limit drops the oldest messages instead |
| ApiIntegration.Addressees | scripts/api_integration.js:152-157 | the addressees of a list of messages, one for one |
| ApiIntegration.SendsAddressees | scripts/api_integration.js:152-157 | a broadcast's messages go to the given addressees, one message each, in order |
| ApiIntegration.SendsAt | scripts/api_integration.js:132-157 | the j-th broadcast message goes to the j-th addressee, with the id and date of the j-th send |
| ApiIntegration.RecipientsInOrder | scripts/api_integration.js:149-153 | over agents stored under their own ids, the recipients are the ids in Map order without the sender |
| ApiIntegration.WithoutSpec | scripts/api_integration.js:153 | dropping the sender keeps every other id in order, each id once |
| ApiIntegration.RecipientsSnoc | scripts/api_integration.js:152-157 | one more agent in the loop adds its id when it is not the sender |
| ApiIntegration.RecipientsSplit | scripts/api_integration.js:152-157 | the recipients of two lists of agents are the recipients of each list in turn |
| ApiIntegration.SendsSnoc | scripts/api_integration.js:152-157 | one more addressee adds one message, at the next clock reading |
| ApiIntegration.BroadcastStep | scripts/api_integration.js:154-155 | one more sendMessage during a broadcast logs the next message of the broadcast |
| ApiIntegration.LogReplaced | scripts/api_integration.js:102-113 | a log within the cap keeps the store well formed |
| ApiIntegration.BroadcastSends | scripts/api_integration.js:148-160 | broadcastToAgents sends exactly one message to each registered agent other than the sender, in Map order, and none to the sender |
| ApiIntegration.BroadcastStore | scripts/api_integration.js:148-160 | a broadcast appends what it sent to the log, within the cap, and changes nothing else |
| ApiIntegration.DrainAppend | scripts/api_integration.js:205-208 | draining a queue and then more ids is draining them all in turn, first in first out |
| ApiIntegration.UpdatedTwice | scripts/api_integration.js:234-261 | a second updateAgent of the same agent overrides the first |
| ApiIntegration.StepCompletedForm | scripts/api_integration.js:232-269 | an iteration whose agent returns results goes on with the `Advanced` store |
| ApiIntegration.StepThrewForm | scripts/api_integration.js:270-285 | an iteration whose agent throws stops the loop with the `Aborted` store |
| ApiIntegration.CompleteForm | scripts/api_integration.js:288-297 | the end of a job that went through every agent is the `Finalized` store |
| ApiIntegration.IterationCompleted | scripts/api_integration.js:232-269 | the five calls of a successful iteration, one store after another, end in the `Advanced` store |
| ApiIntegration.IterationThrew | scripts/api_integration.js:232-285 | the calls of an iteration whose agent throws end in the `Aborted` store |
| ApiIntegration.RunFromThrew | scripts/api_integration.js:270-285 | an agent that throws ends the run with the `Aborted` store |
| ApiIntegration.CompletionSteps | scripts/api_integration.js:288-297 | the calls that end a job end in the `Finalized` store |
| ApiIntegration.ProcessJobResult | scripts/api_integration.js:213-301 | processJob's calls end in the store `AfterProcessJob` describes |
| ApiIntegration.RunPairsNext | scripts/api_integration.js:240-267 | one more agent adds its request and its report to the log of a run |
| ApiIntegration.RunLogAppend | scripts/api_integration.js:107-110 | appending to a trimmed run log and trimming again is trimming once at the end |
| ApiIntegration.RunLogNext | scripts/api_integration.js:240-267 | one more agent's request and report extend the trimmed log of a run |
| ApiIntegration.PartialNext | scripts/api_integration.js:229-269 | the loop's step: one more agent that returns results takes the store after n agents to the store after n + 1 |
| ApiIntegration.RecipientsSameIds | scripts/api_integration.js:149-153 | agents stored under the same ids are addressed alike |
| ApiIntegration.IdleFromRecipients | scripts/api_integration.js:258-297 | setting agents idle changes no id, so the completion broadcast addresses the same agents |
| ApiIntegration.IdleFromSpec | scripts/api_integration.js:258-261 | the agents of the run end idle with no current job; every other agent is kept |
| ApiIntegration.MergedFromAt | scripts/api_integration.js:254 | after the run, the results hold under each agent's id what that agent returned |
| ApiIntegration.MergedFromOther | scripts/api_integration.js:254 | after the run, every key that is not an agent's id holds what it held before |
| ApiIntegration.MergedFromKeys | scripts/api_integration.js:254 | results that start empty end with one key per agent, in run order |
| ApiIntegration.RunPairsAt | scripts/api_integration.js:240-267 | the log of a run holds, for each agent in turn, its request with its dependencies and then its completion report |
| ApiIntegration.RunPairsLength | scripts/api_integration.js:240-267 | a run over n agents logs 2n messages |
| ApiIntegration.AgentOrderFacts | scripts/api_integration.js:227-251 | the agent order has no repeats, and the progress after agent i is 25(i+1) |
| ApiIntegration.ProcessJobForm | scripts/api_integration.js:213-227 | processJob on a stored job sets it "processing" with a start date, then runs the agent order |
| ApiIntegration.PartialZero | scripts/api_integration.js:229 | before any agent has run, the store is unchanged |
| ApiIntegration.RunFromNext | scripts/api_integration.js:229-269 | an agent that returns results hands the run on to the next agent |
| ApiIntegration.RunFromPartial | scripts/api_integration.js:229-286 | once the first n agents have returned results, the rest of the run goes on from the store `Partial` describes |
| ApiIntegration.RunCompletes | scripts/api_integration.js:229-297 | a run in which no agent throws advances through every agent and then finalizes the job |
| ApiIntegration.RunFails | scripts/api_integration.js:229-285 | when the f-th agent is the first to throw, the agents before it advanced the store and the f-th aborted it |
| ApiIntegration.FinalizedLog | scripts/api_integration.js:288-297 | finalizing appends one job_completed notice per registered agent other than the orchestrator |
| ApiIntegration.CompletedLog | scripts/api_integration.js:229-297 | a completed run's log is each agent's request and report, then the job_completed notices |
| ApiIntegration.AbortedLog | scripts/api_integration.js:240-281 | aborting appends the failing agent's request and its process_error report |
| ApiIntegration.RunCompletedJob | scripts/api_integration.js:250-293 | after a successful run the job is "completed" at progress 100, with every agent's results merged in |
| ApiIntegration.RunCompletedAgents | scripts/api_integration.js:258-261 | after a successful run each agent of the run is idle |
| ApiIntegration.RunCompletedMessages | scripts/api_integration.js:240-297 | the log after a successful run |
| ApiIntegration.RunFailedJob | scripts/api_integration.js:273-276 | after a failed run the job is "error" with the error's message, and keeps the progress and results of the agents before the failing one |
| ApiIntegration.RunFailedAgents | scripts/api_integration.js:234-285 | after a failed run the agents before the failing one are idle, and the failing one stays "processing" with the job |
| ApiIntegration.RunFailedMessages | scripts/api_integration.js:240-281 | the log after a failed run: the earlier agents' requests and reports, then the failing agent's request and process_error; no job_completed notice |
| ApiIntegration.ProgressSteps | scripts/api_integration.js:251-253 | while a job runs, its progress after the n-th agent is 25n, so 25, 50, 75, 100 |
| ApiIntegration.CompletedJob | scripts/api_integration.js:219-293 | a job whose agents all return results ends "completed" at progress 100, with start and end dates and the results of the run; no other job changes |
| ApiIntegration.CompletedResults | scripts/api_integration.js:254 | the results then hold each agent's results under its id and every entry they held before; results that started empty are keyed metadata, video, audio, storyboard |
| ApiIntegration.CompletedAgents | scripts/api_integration.js:234-261 | every agent of the run ends idle with currentJob null; every other agent is as it was |
| ApiIntegration.CompletedMessages | scripts/api_integration.js:240-297 | the log is each agent's request and completion report in run order, then one job_completed notice per registered agent other than the orchestrator |
| ApiIntegration.FailedJob | scripts/api_integration.js:219-285 | a job whose f-th agent throws ends "error" with that message and the progress and results of the earlier agents, without a completion date; later agents do not run |
| ApiIntegration.FailedAgents | scripts/api_integration.js:234-285 | the agents before the failing one end idle, the failing one stays busy with the job, and the rest are as they were |
| ApiIntegration.FailedMessages | scripts/api_integration.js:240-285 | the log is the earlier agents' requests and reports, then the failing agent's request and process_error; there is no job_completed broadcast |
| ApiIntegration.DatabaseConnection.constructor | scripts/api_integration.js:12-19 | a new connection is the initial store |
| ApiIntegration.DatabaseConnection.InitializeAgents | scripts/api_integration.js:21-56 | initializeAgents leaves the store `AfterInitializeAgents` describes |
| ApiIntegration.DatabaseConnection.GenerateId | scripts/api_integration.js:119-121 | generateId draws the id of the current clock reading and advances the clock |
| ApiIntegration.DatabaseConnection.NewDate | scripts/api_integration.js:64-104 | `new Date()` reads the clock and advances it |
| ApiIntegration.DatabaseConnection.CreateJob | scripts/api_integration.js:58-70 | createJob leaves the store and returns the job that `AfterCreateJob` describes |
| ApiIntegration.DatabaseConnection.UpdateJob | scripts/api_integration.js:72-79 | updateJob leaves the store and returns the job that `AfterUpdateJob` describes |
| ApiIntegration.DatabaseConnection.GetJob | scripts/api_integration.js:81-83 | getJob finds a job exactly when one is stored under the id, and it is that job |
| ApiIntegration.DatabaseConnection.GetAllJobs | scripts/api_integration.js:85-87 | getAllJobs lists the stored jobs in Map order |
| ApiIntegration.DatabaseConnection.UpdateAgent | scripts/api_integration.js:89-96 | updateAgent leaves the store and returns the agent that `AfterUpdateAgent` describes |
| ApiIntegration.DatabaseConnection.GetAllAgents | scripts/api_integration.js:98-100 | getAllAgents lists the stored agents in Map order |
| ApiIntegration.DatabaseConnection.AddMessage | scripts/api_integration.js:102-113 | addMessage leaves the store and returns the message that `AfterAddMessage` describes |
| ApiIntegration.DatabaseConnection.GetMessages | scripts/api_integration.js:115-117 | getMessages returns `RecentMessages` of the log, the newest first; the limit is 50 when none is given |
| ApiIntegration.A2AProtocolHandler.constructor | scripts/api_integration.js:126-130 | the handler works on the given connection |
| ApiIntegration.A2AProtocolHandler.SendMessage | scripts/api_integration.js:132-146 | sendMessage logs and returns one stamped message from the sender to the addressee |
| ApiIntegration.A2AProtocolHandler.BroadcastToAgents | scripts/api_integration.js:148-160 | broadcastToAgents leaves the store and returns the messages that `AfterBroadcast` describes |
| ApiIntegration.ProcessingPipelineManager.constructor | scripts/api_integration.js:165-171 | a new manager has an empty queue and is not processing |
| ApiIntegration.ProcessingPipelineManager.RunAgentStep | scripts/api_integration.js:232-285 | one iteration of processJob's loop: the `Advanced` store when the agent returns results, the `Aborted` store when it throws, and whether the loop goes on |
| ApiIntegration.ProcessingPipelineManager.RunAgents | scripts/api_integration.js:227-297 | processJob from its agent loop on leaves the store `AfterRun` describes |
| ApiIntegration.ProcessingPipelineManager.CompleteJob | scripts/api_integration.js:288-297 | the end of processJob leaves the `Finalized` store |
| ApiIntegration.ProcessingPipelineManager.ProcessJob | scripts/api_integration.js:213-301 | processJob leaves the store `AfterProcessJob` describes |
| ApiIntegration.ProcessingPipelineManager.SubmitJob | scripts/api_integration.js:173-196 | submitJob creates the job, queues it and broadcasts job_queued; it drains the queue unless a drain is already under way |
| ApiIntegration.ProcessingPipelineManager.ProcessQueue | scripts/api_integration.js:198-211 | processQueue does nothing while a drain is under way or when the queue is empty; otherwise it processes the queued ids first in first out, empties the queue and clears isProcessing |
| Downloads.FallbackAgentName | scripts/download_service.py:299-307 | an id outside the four fixed names is shown with every '-' turned into a space, keeps its length, has no '-' left and is already title case, with title case taken over ASCII letters only (see "## Left out") |
| Downloads.FileSizeUnits | scripts/download_service.py:325-334 | sizes below 1024 print as their exact decimal digits and " B"; larger sizes use KB, MB or GB, the largest unit not above the size, and below GB the count shown is under 1024 |
| Downloads.Kept | scripts/download_service.py:70-71 | every entry kept by the selection is an entry of the results whose agent was selected |
| Downloads.KeptGet | scripts/download_service.py:70-71 | after the selection a selected agent has its results and an unselected one has none |
| Downloads.JsonExportShape | scripts/download_service.py:127-149 | the JSON export holds the kept results, a metadata block exactly when metadata is asked for, and that block's totalAgents is the number of kept agents |
| Downloads.MetricRows | scripts/download_service.py:172-173 | one row per metric of an agent, in order, naming the agent, the metric and the value as `str` prints it |
| Downloads.CsvMetadata | scripts/download_service.py:162-167 | the metadata rows number five when metadata is asked for and none otherwise, each with three cells starting with "Metadata" |
| Downloads.AgentRowsAppend | scripts/download_service.py:170-173 | the rows for one more agent come after the rows for the agents before it |
| Downloads.AgentRowsLength | scripts/download_service.py:170-173 | there are as many agent rows as metrics over all agents |
| Downloads.AgentRowsAt | scripts/download_service.py:170-173 | the row of metric m of agent a comes right after the rows of the agents before a and names a, the metric and its value |
| Downloads.CsvExportShape | scripts/download_service.py:151-175 | the CSV rows are the header, five metadata rows exactly when asked for, then every (agent, metric) row in order |
| Downloads.Unexpired | scripts/download_service.py:348-364 | the items left after cleanup are items of the table |
| Downloads.NewItemFields | scripts/download_service.py:34-47 | a new item is preparing at 0%, never downloaded, expires 24 hours after creation, and its file name is the part of the job's file name before the first '.', then "_results." and the format |
| Downloads.ProgressedGet | scripts/download_service.py:120-125 | a progress update sets the percentage of that item only and logs one report |
| Downloads.FailedGet | scripts/download_service.py:115-118 | a failure sets the status of that item only to error |
| Downloads.GenerateOthersUnchanged | scripts/download_service.py:56-62 | generate_download registers the item under its id and leaves every other item as it was |
| Downloads.GenerateReady | scripts/download_service.py:56-113 | a download that succeeds has one of the five formats, is registered ready at 100% under storage_path/id.format, and the reports were 10, 30, 70 and 100 |
| Downloads.GenerateFails | scripts/download_service.py:56-118 | a format outside the five raises ValueError, unless the agent selection failed first; a download that fails stays registered with status error after the reports 10 or 10 and 30 |
| Downloads.MarkDownloadedSpec | scripts/download_service.py:340-346 | mark_downloaded completes a known item and counts one more download; other items are unchanged, and an unknown id changes nothing |
| Downloads.ExpiredIdsSnoc | scripts/download_service.py:353-355 | each step of the collecting pass adds the item's id exactly when the item has expired |
| Downloads.RemoveWithout | scripts/download_service.py:363-364 | deleting one more id is the same as leaving out one more key |
| Downloads.WithoutOtherKey | scripts/download_service.py:363-364 | also leaving out a key the table does not hold gives the same table |
| Downloads.WithoutExpired | scripts/download_service.py:348-364 | deleting the collected ids leaves exactly the unexpired items, in order |
| Downloads.NotLaterKey | scripts/download_service.py:53 | in a table with distinct keys, the first key does not appear again later |
| Downloads.ExpiredIdsKeys | scripts/download_service.py:353-355 | every collected id is a key of the table |
| Downloads.UnexpiredGet | scripts/download_service.py:348-364 | after cleanup an id finds its item exactly when the item had not expired |
| Downloads.DownloadService.constructor | scripts/download_service.py:50-54 | a new service has its storage path and no downloads |
| Downloads.DownloadService.UpdateProgress | scripts/download_service.py:120-125 | the service's new state is the progress update of its old state |
| Downloads.DownloadService.Fail | scripts/download_service.py:115-116 | the service's new state is its old state with that item in error |
| Downloads.DownloadService.GenerateDownload | scripts/download_service.py:56-118 | the new state and the result are those of generate_download applied to the old state, including the TypeError ElementTree raises for a truthy id or status that is not a string |
| Downloads.JobWithIdGet | scripts/download_service.py:186-188 | the metadata fields the XML export reads are found in the job they were put in |
| Downloads.XmlFalsyIdSaved | scripts/download_service.py:180-190 | a falsy id that is not a string, such as 0, is written as an empty `JobId` element, and the XML download with metadata ends ready at 100% |
| Downloads.XmlTruthyIdFails | scripts/download_service.py:180-190 | a truthy id that is not a string, such as 7, cannot be serialised, and the XML download with metadata ends in a TypeError |
| Downloads.DownloadService.GetDownloadInfo | scripts/download_service.py:336-338 | the item registered under the id, or nothing |
| Downloads.DownloadService.MarkDownloaded | scripts/download_service.py:340-346 | the new table is mark_downloaded applied to the old one; no report is logged |
| Downloads.DownloadService.CleanupExpired | scripts/download_service.py:348-367 | the new table holds exactly the unexpired items of the old one, in order |
| Downloads.DownloadService.DeleteAll | scripts/download_service.py:363-364 | the deletion loop leaves the table without the listed ids |
| Downloads.DownloadService.ListDownloads | scripts/download_service.py:369-385 | one listing per item, in table order, with its fields and formatted size |
| Downloads.DownloadService.GenerateCsv | scripts/download_service.py:151-175 | the rows written are the CSV export of the job |
| Downloads.WriteAgentRows | scripts/download_service.py:170-173 | the loop over the agents writes their rows, or fails when an agent's results are not an object |
| Downloads.WriteMetricRows | scripts/download_service.py:172-173 | the loop over one agent's metrics appends its metric rows |
| Downloads.CollectExpired | scripts/download_service.py:350-355 | the collecting loop gathers exactly the expired ids, in table order |
| Downloads.MetricRowsSnoc | scripts/download_service.py:172-173 | each metric adds its row at the end |
| Downloads.WithoutNone | scripts/download_service.py:363-364 | deleting no ids changes nothing |
| DownloadManager.OptionsOrder | components/download-manager.tsx:29-132 | the archive is offered last, right after the JSON, CSV and XML exports, and every option before those is a source file |
| DownloadManager.OptionsOffered | components/download-manager.tsx:33-87 | the enhanced video is offered exactly for a video, the WAV audio exactly for audio, the storyboard exactly for a video whose storyboard-agent result is truthy |
| DownloadManager.FormatsDiffer | components/download-manager.tsx:34-129 | the formats that can be offered together are different strings |
| DownloadManager.TailDistinct | components/download-manager.tsx:90-129 | the three data exports and the archive have distinct formats, none of them a source format |
| DownloadManager.OptionsDistinct | components/download-manager.tsx:29-132 | no two offered options share a format |
| DownloadManager.GetDownloadOptions | components/download-manager.tsx:29-132 | the options pushed one by one are the options offered for the job |
| DownloadManager.Ascii | components/download-manager.tsx:204-208 | one byte per character |
| DownloadManager.LittleEndian | components/download-manager.tsx:211-222 | a little-endian field has exactly the number of bytes of its setter |
| DownloadManager.LittleEndianRoundTrip | components/download-manager.tsx:211-222 | the bytes a setter stores read back as the number when it fits |
| DownloadManager.BoxesStep | components/download-manager.tsx:141-185 | the first box is read from its 4-byte big-endian size and its 4-byte type, and the rest of the bytes follow it |
| DownloadManager.AsciiFour | components/download-manager.tsx:204-208 | the bytes of a four-character code are its four character codes |
| DownloadManager.Mp4Codes | components/download-manager.tsx:147-184 | the byte groups are the codes 'ftyp', 'mdat', 'isom', 'iso2', 'avc1' and 'mp41' their comments name |
| DownloadManager.BrandsCons | components/download-manager.tsx:159-174 | a four-byte code in front reads back as the first brand |
| DownloadManager.BrandsOfTwo | components/download-manager.tsx:159-174 | two four-byte codes read back as two brands |
| DownloadManager.BrandsOfFour | components/download-manager.tsx:159-174 | four four-byte codes read back as four brands, in order |
| DownloadManager.Mp4Tail | components/download-manager.tsx:176-184 | the last eight bytes are an empty 'mdat' box of size 8 |
| DownloadManager.Mp4Brands | components/download-manager.tsx:159-174 | the compatible brands are isom, iso2, avc1 and mp41 |
| DownloadManager.Mp4Head | components/download-manager.tsx:143-158 | the first box has size 0x20, type 'ftyp', major brand 'isom' and minor version 0x200 |
| DownloadManager.Mp4Layout | components/download-manager.tsx:141-185 | the enhanced video is 40 bytes: a 32-byte 'ftyp' box then an empty 8-byte 'mdat' box |
| DownloadManager.FieldFront | components/download-manager.tsx:210-222 | a field inside the first part of the header keeps its value in the whole header |
| DownloadManager.FieldBack | components/download-manager.tsx:210-222 | a field inside the last part of the header keeps its value, shifted by the length of what comes before |
| DownloadManager.ReadBack | components/download-manager.tsx:211-222 | numbers below 2^32 read back from their four bytes, and below 2^16 from their two |
| DownloadManager.ThreeFields | components/download-manager.tsx:210-212 | three four-byte fields sit at offsets 0, 4 and 8 |
| DownloadManager.TwoFields | components/download-manager.tsx:221-222 | two four-byte fields sit at offsets 0 and 4 |
| DownloadManager.EightFields | components/download-manager.tsx:213-220 | the eight fields of the 'fmt ' chunk sit at their offsets |
| DownloadManager.FourFields | components/download-manager.tsx:217-220 | fields of sizes 4, 4, 2 and 2 sit at offsets 0, 4, 8 and 10 |
| DownloadManager.RiffFields | components/download-manager.tsx:198-212 | the RIFF header holds 'RIFF', the size 36 + dataSize, which is the file length less 8, and 'WAVE' |
| DownloadManager.DataFields | components/download-manager.tsx:197-222 | the data header holds 'data' and dataSize, the number of samples times blockAlign |
| DownloadManager.FmtFields | components/download-manager.tsx:190-220 | the 'fmt ' chunk has length 16, PCM format 1, two channels, 44100 samples a second, byteRate sampleRate * blockAlign, blockAlign 4 and 16 bits a sample |
| DownloadManager.WavHeaderFields | components/download-manager.tsx:190-222 | the 44-byte header holds each field at its offset: RIFF size at 4, channels at 22, sample rate at 24, byte rate at 28, blockAlign at 32, dataSize at 40 |
| DownloadManager.HeaderFields | components/download-manager.tsx:210-222 | the fields of the whole header are those of its three parts |
| DownloadManager.HeaderSlices | components/download-manager.tsx:210-222 | each slice of the 44-byte header is the matching slice of one of its parts |
| DownloadManager.WriteBytes | components/download-manager.tsx:204-208 | storing bytes one by one from an offset leaves what was before the offset, followed by the bytes |
| DownloadManager.WriteRiffHeader | components/download-manager.tsx:210-212 | the first 12 bytes become the RIFF header |
| DownloadManager.WriteFmtChunk | components/download-manager.tsx:213-220 | bytes 12 to 36 become the 'fmt ' chunk, and the bytes before are kept |
| DownloadManager.WriteFmtRates | components/download-manager.tsx:217-220 | bytes 24 to 36 become the rate and alignment fields, and the bytes before are kept |
| DownloadManager.AppendEight | components/download-manager.tsx:213-220 | eight parts written one after the other make their concatenation |
| DownloadManager.GenerateWav | components/download-manager.tsx:188-222 | the buffer is new, 44 + dataSize bytes long, and its first 44 bytes are the WAV header |
| DownloadManager.ChunksStep | components/download-manager.tsx:237-307 | the first chunk is read from its big-endian length, its type, that many data bytes and a four-byte CRC |
| DownloadManager.PngCodes | components/download-manager.tsx:250-302 | the chunk type bytes are 'IHDR', 'IDAT' and 'IEND' |
| DownloadManager.ChunkFront | components/download-manager.tsx:237-307 | a chunk whose length field counts its data is read back in front of the chunks that follow |
| DownloadManager.PngEnd | components/download-manager.tsx:295-306 | the last chunk is an empty IEND |
| DownloadManager.PngData | components/download-manager.tsx:271-306 | before it comes an IDAT chunk of 12 data bytes |
| DownloadManager.DropFirst | components/download-manager.tsx:237-307 | taking off the first of four parts leaves the other three |
| DownloadManager.PngLayout | components/download-manager.tsx:237-308 | the enhanced image is 69 bytes: the PNG signature, then IHDR with 13 data bytes, IDAT with 12 and IEND with none |
| DownloadManager.PngHeader | components/download-manager.tsx:236-266 | the IHDR data declares a 100 by 100 image with bit depth 8, colour type 2 and methods 0, not the 1 by 1 image of the comment |
| DownloadManager.NamesDiffer | components/download-manager.tsx:500-553 | names built from one stem differ when their formats differ and hold no '.' |
| DownloadManager.PlainFormats | components/download-manager.tsx:34-129 | no format holds a '.', and only the archive has the archive's format |
| DownloadManager.OptionFormats | components/download-manager.tsx:29-132 | every offered option's format is plain |
| DownloadManager.NameOf | components/download-manager.tsx:500-553 | the file name of an option is the stem, '_', its format, '.' and its extension, the archive included |
| DownloadManager.NameAssoc | components/download-manager.tsx:500 | the parts of a file name can be grouped either way |
| DownloadManager.OfferedNames | components/download-manager.tsx:497-555 | every offered option downloads under the stem of the file name, '_', its format, '.' and its extension, and no two offered options share a file name (the options are those of lines 29-132) |
| DownloadManager.GatherAppend | components/download-manager.tsx:539-585 | one more agent's lines come after those of the agents before it |
| DownloadManager.GatherFail | components/download-manager.tsx:539-585 | when Object.entries throws for one agent, the whole export throws |
| DownloadManager.GatherStep | components/download-manager.tsx:539-585 | the walk over the first a + 1 agents extends the walk over the first a |
| DownloadManager.AppendGathered | components/download-manager.tsx:539-585 | the forEach appends every agent's lines to the text in turn, or throws |
| DownloadManager.MetricLines | components/download-manager.tsx:540-542 | one CSV line per metric of an agent |
| DownloadManager.ResultLinesCount | components/download-manager.tsx:539-543 | there is one CSV line per (agent, metric) pair |
| DownloadManager.CsvShape | components/download-manager.tsx:533-544 | the CSV export is the header line, five job lines starting with "Metadata,", then one line per (agent, metric) pair |
| DownloadManager.GenerateCsv | components/download-manager.tsx:533-544 | the text built by the loops is the CSV export's lines in order |
| DownloadManager.MetricElements | components/download-manager.tsx:581-583 | one XML element per metric of an agent |
| DownloadManager.NoMetricOpenings | components/download-manager.tsx:581-583 | no metric element opens an agent element |
| DownloadManager.AgentOpenings | components/download-manager.tsx:579-585 | the agent part opens one agent element per agent |
| DownloadManager.XmlAgentCount | components/download-manager.tsx:575-590 | the XML export opens exactly one `<Agent>` element per results entry |
| DownloadManager.HeadOpenings | components/download-manager.tsx:576-578 | no line of the document head opens an agent element |
| DownloadManager.TailOpenings | components/download-manager.tsx:586-588 | no line of the document tail opens an agent element |
| DownloadManager.GenerateXml | components/download-manager.tsx:575-590 | the text built by the loops is the XML export's pieces in order |
| DownloadManager.DownloadAlert | components/download-manager.tsx:486-573 | a source file is always saved, and a download that fails shows "Download failed. Please try again." |
| DownloadManager.DownloadFails | components/download-manager.tsx:508-569 | a data download fails exactly when it is the CSV or the XML export and Object.entries throws for an agent |
| DownloadManager.DownloadNamed | components/download-manager.tsx:500-553 | every saved download has its option's file name |
| DownloadManager.DownloadTyped | components/download-manager.tsx:497-558 | a source file is saved with the type of the Blob its generator builds (a WAV for the audio, whatever the option declares), the package as "text/plain", and text and JSON with the option's type |
| DownloadManager.HandleDownload | components/download-manager.tsx:486-573 | the download saved, or the alert, is the one the option calls for, with the type of the Blob actually saved |
| ResultsViewer.AgentNames | components/results-viewer.tsx:44-52 | the four known ids get their fixed display names, which differ from the ids, and every other id is shown as it is |
| ResultsViewer.InitialState | components/results-viewer.tsx:209-212 | a new dialog offers a JSON download with metadata, selects exactly the agents that have results, and can download exactly when the job has results (the disabled rule is line 492) |
| ResultsViewer.WithoutCounts | components/results-viewer.tsx:453-455 | unchecking removes every occurrence of the id and keeps every other id as often as it was selected |
| ResultsViewer.WithoutAbsent | components/results-viewer.tsx:453-455 | unchecking an id that is not selected leaves the selection as it is |
| ResultsViewer.ToggleSpec | components/results-viewer.tsx:450-456 | checking appends the id once; unchecking it again restores a selection that did not hold it |
| ResultsViewer.WithoutAppend | components/results-viewer.tsx:453-455 | unchecking works on each part of a selection separately |
| ResultsViewer.SelectionSplit | components/results-viewer.tsx:317-382 | the forEach over a selection made of two parts gives the lines of the first part, then those of the second |
| ResultsViewer.SelectionStep | components/results-viewer.tsx:317-382 | the forEach over the first i + 1 selected agents extends that over the first i |
| ResultsViewer.AppendedPiece | components/results-viewer.tsx:317-324 | one more selected agent appends its piece to the text |
| ResultsViewer.AppendSelection | components/results-viewer.tsx:317-382 | the forEach appends the lines of every selected agent with results to the text, in selection order |
| ResultsViewer.SelectedResultsGet | components/results-viewer.tsx:297-301 | an agent appears in the exported results exactly when it is selected and its result is truthy, and then with the job's value |
| ResultsViewer.SelectedResultsDistinct | components/results-viewer.tsx:297-301 | no agent appears twice among the exported results |
| ResultsViewer.JsonShape | components/results-viewer.tsx:278-304 | the JSON export holds the selection's results; the metadata block is there exactly when asked for, and its totalAgents counts every agent of the job, selected or not |
| ResultsViewer.GenerateJson | components/results-viewer.tsx:278-304 | the object filled in selection order is the JSON export |
| ResultsViewer.CsvMetaLines | components/results-viewer.tsx:310-314 | five metadata lines, each starting with "Metadata," |
| ResultsViewer.CsvAgentLines | components/results-viewer.tsx:320-322 | one CSV line per entry of an agent |
| ResultsViewer.CsvSelectionCount | components/results-viewer.tsx:317-324 | one CSV line per entry of each selected agent with results |
| ResultsViewer.CsvShape | components/results-viewer.tsx:306-327 | the CSV export is the header, five metadata lines only when asked for, then one line per entry of each selected agent with results |
| ResultsViewer.HeadMiddleTail | components/results-viewer.tsx:306-327 | where the header, the middle lines and the tail lines sit in the export |
| ResultsViewer.GenerateCsv | components/results-viewer.tsx:306-327 | the text built by the loops is the CSV export's lines in order, with getAgentName in scope (corrected; see "## Findings") |
| ResultsViewer.MetricElementsIndented | components/results-viewer.tsx:347-349 | no metric element opens an agent or a metadata element |
| ResultsViewer.AgentElementCounts | components/results-viewer.tsx:345-350 | an agent's element opens one agent element and no metadata element |
| ResultsViewer.SelectionCounts | components/results-viewer.tsx:343-352 | the results part opens one agent element per selected agent with results and no metadata element |
| ResultsViewer.FixedPieceCounts | components/results-viewer.tsx:330-353 | the fixed lines open no agent element, and only the metadata block opens a metadata element |
| ResultsViewer.MetaCounts | components/results-viewer.tsx:332-340 | the metadata block opens one metadata element and no agent element |
| ResultsViewer.XmlShape | components/results-viewer.tsx:329-356 | the XML export has a metadata element only when asked for, and one agent element per selected agent with results |
| ResultsViewer.GenerateXml | components/results-viewer.tsx:329-356 | the text built by the loops is the XML export's lines in order, with getAgentName in scope (corrected; see "## Findings") |
| ResultsViewer.Bullets | components/results-viewer.tsx:377-379 | one bullet line per entry of an agent |
| ResultsViewer.PdfSelectionCount | components/results-viewer.tsx:373-382 | two lines per selected agent with results, plus one per entry |
| ResultsViewer.PdfShape | components/results-viewer.tsx:358-385 | the report is the title, the job block only when asked for, the results title, then a section per selected agent with results |
| ResultsViewer.GeneratePdf | components/results-viewer.tsx:358-385 | the text built by the loops is the report's lines in order, with getAgentName in scope (corrected; see "## Findings") |
| ResultsViewer.AsWrittenThrows | components/results-viewer.tsx:321-375 | for a job whose video agent has one entry, the CSV, XML and report exports as written throw, while the intended CSV export holds the line "Video Enhancement,resolution,4K" (getAgentName is declared at line 44 inside ResultsViewer) |
| ResultsViewer.GenerateZip | components/results-viewer.tsx:387-402 | the ZIP text is the listing of files, then the JSON export of the same selection and flag |
| ResultsViewer.DownloadNames | components/results-viewer.tsx:222-258 | a download is saved exactly for the five offered formats, named after the part of the file name before its first '.'; any other format throws "Unsupported format" |
| ResultsViewer.HandleDownload | components/results-viewer.tsx:222-276 | the export of the chosen format is built and named by the format switch, and the busy flag is cleared at the end, with getAgentName in scope (corrected; see "## Findings") |
| Page.RunFromStep | app/page.tsx:149-201 | one iteration for an agent with a card: the catch when its results throw, otherwise the rest of the loop from its finished step |
| Page.ProgressTraceStep | app/page.tsx:169-179 | the job progress written for an agent with a card is its six ticks, followed by those of the later agents unless it throws |
| Page.InitialRoster | app/page.tsx:45-82 | the page starts with four idle cards at progress 0, and every agent of the processing order has a card |
| Page.LoggedSpec | app/page.tsx:103 | the new message comes first, the older ones follow in order, and at most 50 are kept |
| Page.UpdateAgentSpec | app/page.tsx:106-110 | only the card with the given id changes, in status, progress and last message; the list keeps its length, ids and order |
| Page.SetAllSpec | app/page.tsx:228-249 | every card takes the status, progress 0 and the message, and nothing else changes |
| Page.MapJobSpec | app/page.tsx:174-217 | only jobs with the given id change; the list keeps its length, ids and order |
| Page.ResultStep | app/page.tsx:198-200 | the spread adds the agent's key at the end when it is new, holds the agent's results under it and keeps every other key |
| Page.LaunchedSpec | app/page.tsx:120-142 | the new job goes first, queued at 0 with no results and the four agents in processing order; older jobs follow unchanged and the pipeline_start notification is the newest message |
| Page.RequestDependencies | app/page.tsx:159-166 | the request to the first agent lists no dependency, and the request to every later agent lists exactly the agent before it |
| Page.SetAgentTwice | app/page.tsx:156-171 | a second status update of the same card overwrites the first |
| Page.MapJobProgressTwice | app/page.tsx:174-178 | a second progress update of the same job overwrites the first |
| Page.TickedTwice | app/page.tsx:169-179 | a tick overwrites the previous tick |
| Page.WorkedForm | app/page.tsx:156-179 | an agent's step up to generateAgentResults leaves its card processing at 100, logs its request and sets the job's progress to 25·i + 25 |
| Page.FinishedForm | app/page.tsx:182-200 | a successful step leaves the card completed, logs the request then the response, and adds the agent's results to the job |
| Page.OrderDistinct | app/page.tsx:146 | the four agents of the processing order are distinct |
| Page.FailsSpec | app/page.tsx:144-236 | a run throws exactly when some agent with a card, from the i-th on, produces an error |
| Page.ProgressTraceBounds | app/page.tsx:169-179 | every progress value written into the job lies between 25·i and 100, and the values never decrease |
| Page.BoundedSortedConcat | app/page.tsx:169-179 | a bounded nondecreasing run followed by one that starts no lower is bounded and nondecreasing |
| Page.Quarter | app/page.tsx:176 | (i·100 + 20·k) / 4 is the exact number 25·i + 5·k, so the progress division has no fraction |
| Page.StepTraceSpec | app/page.tsx:169-179 | an agent's ticks set the job's progress six times, to 25·i + 5·k for k from 0 to 5 |
| Page.MergedOther | app/page.tsx:198-200 | a key the later steps do not collect keeps its value |
| Page.MergedKeys | app/page.tsx:198-200 | the job's results gain one key per collected agent, in processing order, after the keys it had |
| Page.MergedValues | app/page.tsx:182-200 | each collected agent produced results, and those are what the job holds under its id |
| Page.CollectedAll | app/page.tsx:149-201 | when every agent has a card and none throws, every agent of the order is collected |
| Page.SentCount | app/page.tsx:159-225 | the loop and its ending send two messages per collected agent, plus the request to and the error notice of a throwing agent, or the completion notice |
| Page.KeepNewestAppend | app/page.tsx:103 | trimming to 50 before adding newer messages and trimming again is the same as trimming once |
| Page.LogAllSpec | app/page.tsx:103 | logging messages one by one puts them newest first before the older ones and keeps the newest 50 |
| Page.RunJobs | app/page.tsx:149-217 | the run changes only the jobs with the upload's id: each ends completed at 100, or error at 0 when a step throws, holding its results merged with those collected |
| Page.RunAgents | app/page.tsx:149-235 | when a step throws, every card ends in error; otherwise exactly the cards of the agents run from the i-th on end completed |
| Page.RunMessages | app/page.tsx:149-225 | the run logs the messages it sends one by one |
| Page.ProcessingJobs | app/page.tsx:112-238 | after startProcessing the new job is first, completed at 100 or error at 0, with the collected results; every older job with another id is unchanged, and processing is off |
| Page.ProcessingResults | app/page.tsx:182-200 | the new job's results hold one key per collected agent, in processing order, each with what that agent produced |
| Page.ProcessingAgents | app/page.tsx:149-235 | after startProcessing every card is in error when a step threw; otherwise each card of the order is completed and the others are unchanged |
| Page.ProcessingMessages | app/page.tsx:136-225 | the log is pipeline_start, two messages per collected agent and the closing notice, newest first before the older messages, at most 50 |
| Page.FirstUpload | app/page.tsx:45-238 | the first upload on a fresh page, with no step throwing, gives one job completed at 100 with results from the four agents in processing order, every card completed, and ten messages |
| Page.Home.constructor | app/page.tsx:45-86 | the page starts with its four cards, no jobs, no messages and processing off |
| Page.Home.AddCommunicationMessage | app/page.tsx:88-104 | the new state is the old one with the message logged |
| Page.Home.UpdateAgentStatus | app/page.tsx:106-110 | the new state is the old one with the card updated |
| Page.Home.TickOnce | app/page.tsx:170-178 | one tick updates the card and the job's progress |
| Page.Home.StartAgent | app/page.tsx:156-166 | the agent's card turns to processing and its request is logged |
| Page.Home.RunTicks | app/page.tsx:156-179 | the step up to generateAgentResults, with the job's progress set to the agent's six tick values |
| Page.Home.FinishStep | app/page.tsx:183-200 | the rest of a step once the agent has produced its results |
| Page.Home.RunAgentStep | app/page.tsx:155-200 | one iteration for an agent with a card, and the error it throws if any |
| Page.Home.Complete | app/page.tsx:204-212 | the job is completed at 100 and pipeline_complete is logged |
| Page.Home.Fail | app/page.tsx:213-235 | the job is in error at 0, pipeline_error is logged and every card is in error |
| Page.Home.Launch | app/page.tsx:120-142 | the new job, the processing flag and the start notification |
| Page.Home.Visit | app/page.tsx:150-153 | an agent without a card is skipped, and one with a card takes its step |
| Page.Home.RunAgents | app/page.tsx:144-201 | the loop over the processing order, for the cards the page had when processing started, stopping at the first error |
| Page.Home.StartProcessing | app/page.tsx:112-238 | the new state is that of startProcessing, and the job's progress goes through the ticks of every agent run |
| Page.Home.ResetAgents | app/page.tsx:241-250 | every card back to idle at 0, "Ready for next task" |
| SetupAgents.Visited | scripts/setup_agents.py:81-84 | the agents process_file visits are registered agents of the processing order, among its first n |
| SetupAgents.RegisterSpec | scripts/setup_agents.py:49-52 | registering stores the agent under its id and leaves every other id, the queue and the jobs alone |
| SetupAgents.RegisterTwice | scripts/setup_agents.py:49-52 | a later registration under the same id replaces the earlier one |
| SetupAgents.RegisterCommutes | scripts/setup_agents.py:49-52 | registrations under different ids can be made in either order |
| SetupAgents.SendSpec | scripts/setup_agents.py:54-62 | sending appends the message and keeps every earlier message where it was |
| SetupAgents.SimulatedSpec | scripts/setup_agents.py:137-176 | mock results exist exactly for the types video, audio, storyboard and metadata, four entries for audio and five for the others, with distinct keys; any other type gets an empty result |
| SetupAgents.OrderDistinct | scripts/setup_agents.py:81 | the four agents of the processing order are distinct |
| SetupAgents.VisitedMembers | scripts/setup_agents.py:83-84 | the visited agents are exactly the registered ones among the first n of the order |
| SetupAgents.VisitedBefore | scripts/setup_agents.py:83-84 | a visited agent comes, in the processing order, before every agent visited after it |
| SetupAgents.VisitedOrdered | scripts/setup_agents.py:83-84 | agents are visited in the order's order |
| SetupAgents.VisitedDistinct | scripts/setup_agents.py:83-84 | no agent is visited twice |
| SetupAgents.VisitedAll | scripts/setup_agents.py:83-84 | with every agent of the order registered, the first n of the order are visited, in order |
| SetupAgents.ExchangesSpec | scripts/setup_agents.py:91-128 | two messages per visited agent: the orchestrator's request to it, then its response carrying its results |
| SetupAgents.ResultsSpec | scripts/setup_agents.py:107-110 | the results hold one entry per visited agent, in visiting order, each the mock results of that agent's type |
| SetupAgents.ProcessQueue | scripts/setup_agents.py:64-135 | process_file appends two messages per visited agent to the queue and alters none of the earlier ones |
| SetupAgents.ProcessJob | scripts/setup_agents.py:64-135 | process_file leaves the job completed, with its file path and type and one result per visited agent keyed by its id; every other job is as it was |
| SetupAgents.ProcessAgents | scripts/setup_agents.py:83-114 | after process_file every registered agent of the order is completed with no current job, and nothing else about the registry changes |
| SetupAgents.DemoRegistry | scripts/setup_agents.py:187-219 | main registers every agent of the order, each with the type its id names |
| SetupAgents.FullRun | scripts/setup_agents.py:64-135 | with every agent of the order registered under the type its id names, a run adds 8 messages and stores the mock results of all four agents |
| SetupAgents.DemoRun | scripts/setup_agents.py:184-231 | main's first file, with the four demo agents registered, exchanges 8 messages and stores results from all four agents |
| SetupAgents.Orchestrator.constructor | scripts/setup_agents.py:44-47 | a new orchestrator has no agents, no messages and no jobs |
| SetupAgents.Orchestrator.RegisterAgent | scripts/setup_agents.py:49-52 | the new state is the old one with the agent registered |
| SetupAgents.Orchestrator.SendMessage | scripts/setup_agents.py:54-62 | the new state is the old one with the message queued |
| SetupAgents.Orchestrator.Step | scripts/setup_agents.py:84-128 | one iteration of process_file's loop for one agent |
| SetupAgents.Orchestrator.ProcessFile | scripts/setup_agents.py:64-135 | process_file returns the job id, and its new state is the loop over the processing order applied to the old one |
| SetupAgents.AgentsAfterNone | scripts/setup_agents.py:83 | visiting no agent changes no agent |
| SetupAgents.StepFacts | scripts/setup_agents.py:83-84 | the i-th agent of the order, when registered, has not been visited before, and the visited list grows by it |
| SetupAgents.ProgressStep | scripts/setup_agents.py:84-128 | the state after one more visited agent is one more step |
| SetupAgents.PipelineVisit | scripts/setup_agents.py:84-128 | the loop's step for a registered agent |
| SetupAgents.PipelineStep | scripts/setup_agents.py:83-128 | each iteration of the loop, for a registered agent or not, is one step |
| SetupAgents.ExchangesStep | scripts/setup_agents.py:104-128 | one more agent adds its request and its response at the end of the queue |
| SetupAgents.AgentsAfterStep | scripts/setup_agents.py:88-114 | one more agent's step leaves it completed in the registry |
| Agents.New | agents/metadata_agent.py:6-9 | building an agent succeeds exactly when a file type is given to the metadata agent and to no other; the agent then holds what it was built from |
| Agents.PromptNamesFile | agents/metadata_agent.py:15-18 | the metadata prompt names the file type and then the file path, at fixed offsets |
| Agents.ProcessIgnoresArguments | agents/video_agent.py:9-18 | the video, audio and storyboard results do not depend on the job, the file or the language model |
| Agents.VideoResults | agents/video_agent.py:12-18 | the video agent reports resolution 4K and 1440 processed frames |
| Agents.AudioResults | agents/audio_agent.py:12-17 | the audio agent reports a transcription and a quality starting with 48kHz |
| Agents.MetadataResults | agents/metadata_agent.py:15-26 | the metadata agent's summary is the model's answer to the prompt for its file type and path, and its tags are a list |
| Agents.StoryboardResults | agents/storyboard_agent.py:12-17 | the storyboard agent reports a generated timeline and a positive number of key frames |
| AgentRegistry.GetAgentClassSpec | orchestrator/agent_registry.py:6-14 | each of the four ids maps to its own class, and an id has a class exactly when it is listed |
| AgentRegistry.ListAgentsSpec | orchestrator/agent_registry.py:16-17 | the listing is video, audio, metadata, storyboard, with no id twice |
| AgentRegistry.ListingDiffersFromSetupOrder | orchestrator/agent_registry.py:6-17 | the registry lists the same four agents as the setup script's processing order, but starts with video where the script starts with metadata |
| Orchestration.BuildListed | orchestrator/agent_orchestrator.py:34-38 | every listed agent is built without error from the arguments process_file gives it |
| Orchestration.PartialOf | orchestrator/agent_orchestrator.py:17-60 | the job process_file creates exists throughout its loop |
| Orchestration.PartialOfStep | orchestrator/agent_orchestrator.py:28-60 | one more iteration extends the run by one step |
| Orchestration.SendSpec | orchestrator/agent_orchestrator.py:67-68 | sending appends the message, keeps every earlier one where it was, and changes no job |
| Orchestration.ListedHaveClasses | orchestrator/agent_orchestrator.py:28-32 | every listed id has a class, so the loop never skips an agent |
| Orchestration.StepMessages | orchestrator/agent_orchestrator.py:40-60 | one step adds the request to the agent and then the agent's response with its results |
| Orchestration.StepJob | orchestrator/agent_orchestrator.py:49-51 | one step stores the agent's answer under its id in the job's results |
| Orchestration.PartialJob | orchestrator/agent_orchestrator.py:17-51 | during the loop the job is processing with its file path and type, holds the answers of the agents handled so far keyed by their ids in order, and no other job changes |
| Orchestration.PartialMessages | orchestrator/agent_orchestrator.py:40-60 | during the loop the earlier messages stay and the exchanges of the agents handled so far follow them |
| Orchestration.ExchangesAt | orchestrator/agent_orchestrator.py:40-60 | the exchanges are two messages per agent: the request to it, then its response |
| Orchestration.PartialMessagesAt | orchestrator/agent_orchestrator.py:40-60 | after the loop over any ids the queue grows by two per id, the earlier messages stay, and the request and response of the p-th id sit at positions 2p and 2p+1 after them |
| Orchestration.ProcessFileJob | orchestrator/agent_orchestrator.py:15-65 | process_file completes its job, whose results hold the answer of each of the four listed agents under its id, and leaves the other jobs alone |
| Orchestration.ProcessFileMessages | orchestrator/agent_orchestrator.py:28-60 | process_file adds exactly 8 messages, the exchanges of the four agents in listing order, after the unchanged earlier ones |
| Orchestration.OnlyMetadataSeesFileType | orchestrator/agent_orchestrator.py:35-38 | only the metadata agent is given the file type, so no other answer depends on it |
| Orchestration.FreshRun | orchestrator/agent_orchestrator.py:10-65 | a fresh orchestrator's run completes its job with results from all four agents and exactly 8 messages |
| Orchestration.AgentOrchestrator.constructor | orchestrator/agent_orchestrator.py:10-13 | a new orchestrator has no jobs and no messages |
| Orchestration.AgentOrchestrator.SendMessage | orchestrator/agent_orchestrator.py:67-71 | the new state is the old one with the message appended |
| Orchestration.AgentOrchestrator.Step | orchestrator/agent_orchestrator.py:29-60 | the new state is one iteration of the loop applied to the old one |
| Orchestration.AgentOrchestrator.ProcessFile | orchestrator/agent_orchestrator.py:15-65 | process_file returns its job id, and its new state is the whole loop and the completion applied to the old one |
| Text.ToUpper | scripts/download_service.py:227 | upper-casing keeps whether a character is an ASCII letter and leaves no ASCII lower-case letter (ASCII letters only, see "## Left out") |
| Text.ToLower | scripts/download_service.py:307 | lower-casing keeps whether a character is an ASCII letter and leaves no ASCII upper-case letter (ASCII letters only, see "## Left out") |
| Text.NatToString | components/download-manager.tsx:538 | the decimal text of a number is non-empty, all digits, with no leading zero |
| Text.NatToStringValue | components/download-manager.tsx:538 | reading the decimal text back gives the number |
| Text.Stem | components/download-manager.tsx:500 | `split(".")[0]` is a prefix of the name with no '.', followed by a '.' when shorter |
| Text.StemDot | components/download-manager.tsx:500 | the stem of a dotted name whose base holds no '.' is that base |
| Text.ReplaceChar | scripts/download_service.py:307 | replacing one character by another keeps the length and changes exactly the occurrences of the first |
| Text.TitleFrom | scripts/download_service.py:307 | `str.title()` on ASCII letters keeps the length and which characters are letters, and leaves every other character as it is (ASCII letters only, see "## Left out") |
| Text.TitleFromIdempotent | scripts/download_service.py:307 | title-casing twice is title-casing once, for the ASCII title-casing of `Text.TitleFrom` |
| Text.AppendLines | components/download-manager.tsx:533-544 | appending line after line gives the text followed by all the lines |
| Text.Reverse | scripts/api_integration.js:116 | `reverse()` puts the j-th element from the end at position j |
| Dicts.GetKeys | orchestrator/agent_registry.py:13-14 | a dictionary lookup finds a value exactly when the key is present |
| Dicts.PutSpec | orchestrator/agent_orchestrator.py:51 | `d[k] = v` keeps an existing key's place or adds the key last, stores v, and keeps every other key's value |
| Dicts.PutGet | orchestrator/agent_orchestrator.py:51 | after `d[k] = v`, k holds v and every other key its old value |
| Dicts.PutTwice | orchestrator/agent_orchestrator.py:51 | a second assignment under the same key overwrites the first |
| Dicts.PutNew | orchestrator/agent_orchestrator.py:51 | assigning a new key appends its entry |
| Dicts.Remove | scripts/download_service.py:364 | `del d[k]` leaves k without a value, keeps every other key's value and entry, and adds nothing |
| Dicts.PutDistinct | orchestrator/agent_orchestrator.py:51 | assignment never makes a key appear twice |
| Dicts.RemoveDistinct | scripts/download_service.py:364 | deletion never makes a key appear twice |
| Dicts.AssignGet | scripts/api_integration.js:75 | `Object.assign` overwrites exactly the keys of the update and keeps every other key's value |
| Dicts.AssignDistinct | scripts/api_integration.js:75 | `Object.assign` never makes a key appear twice |
| Dicts.AssignKeys | scripts/api_integration.js:75 | the keys after `Object.assign` are those of the object and those of the update |
| Jobs.Entries | components/download-manager.tsx:539-540 | `Object.entries` gives an object's fields, and throws only on null (a string's entries are its code points, see "## Left out") |
| Jobs.MetaLine | components/download-manager.tsx:534-538 | every job line of the CSV starts with "Metadata," |

## Left out

- Rendering: all JSX and React markup, the tabs and `renderResults`, the `handlePreview` window, `getCategoryColor`, the icons and the presentational components (communication log, agent dashboard, processing pipeline, file uploader) are not modelled; they hold no logic the core depends on.
- Browser side effects: `Blob`, `URL.createObjectURL`, anchor clicks, `alert` and `console` are not modelled; a download is modelled as the file name and content it would save, and an alert as an error result.
- Clocks: every `new Date()`, `datetime.now()` and `time.time()` reading is a parameter or a logical tick; `Downloads` treats the two `now()` readings of one export as one.
- Randomness: `Math.random` ids, `uuid4`, random agent results and random sizes are parameters: the id function `idOf`, the job id, the step oracle of the pipeline, `produce` on the page, `sizeMb` in the download handler.
- Delays: `setTimeout`, `asyncio.sleep` and the 1500 ms download delay are no-ops.
- Console output: `print` and `console.log` are not modelled.
- Events and transport: the EventEmitter `emit` calls, the HTTP server, `WebSocketManager`, the route handlers of scripts/api_integration.js and the transport layer of scripts/a2a_protocol.py are not modelled, because they are I/O.
- ApiIntegration.ProcessingPipelineManager.SubmitJob: the un-awaited `processQueue` call is modelled as running to completion before `submitJob` returns, since the model has no interleaving.
- ApiIntegration.ProgressSteps: the floating-point progress `(i + 1) / length * 100` is integer division; it is exact for the four agents.
- Floating point elsewhere: processing times, the decimal digits of `_format_file_size` above the byte unit, and `Math.log` in the uploader are not modelled; `Downloads.FileSizeUnits` states the unit choice and the exact byte case.
- Downloads: file writes, `stat` and path normalisation are not modelled; the written size is a parameter. Results that are not objects take the error path. Python's `json`, `csv`, `ElementTree`, `zipfile` and repr quoting are not reproduced byte for byte: the JSON and CSV exports are modelled by their structure, and the XML, PDF and ZIP exports only by when they fail. `_indent_xml` is not modelled. A returned `DownloadItem` is a value, so aliasing between it and the table is not captured. `demonstrate_download_service` is a demo driver, and the file's syntax error near its end is outside the class.
- DownloadManager: the canvas storyboard drawing and the `Math.sin` samples of the WAV are not modelled; the WAV header is. The PNG chunk CRCs are placeholders in the source and are neither modelled nor checked. `isGenerating` and the bytes of `JSON.stringify` are not modelled, nor the integer-key ordering of `Object.entries`. The storyboard case of `generateSourceFile` cannot be reached from the option list.
- ResultsViewer: the integer-key ordering of `Object.keys` and `Object.entries` is not modelled. The text of `JSON.stringify` is not modelled; `GenerateJson` produces the object it stringifies. Local-time formatting is a parameter. Lookups through the object prototype are not modelled.
- Page: random ids, timestamps in payloads, `processingTime`, and `fileData` with `FileReader` are not modelled; the job id is a parameter. `generateAgentResults` is the parameter `produce`. A thrown value that is not an `Error` ("Unknown error") is not modelled. The unused `jobResults` local is left out. The reset timer is `Page.Home.ResetAgents`, called directly.
- A2aProtocol: `uuid` and `time` are the parameters `idOf` and the clock; `handle_error` only prints, and the demonstrate function is a demo driver.
- SetupAgents: the job's `start_time`/`end_time` and the message ids and timestamps are not modelled; the job id is a parameter. Agents are values in the registry, so aliasing of agent objects is not captured, and the intermediate PROCESSING status is visible only inside one step. `SetupAgents.DemoRun` covers the first of `main`'s three files.
- Orchestration: orchestrator/message.py is not part of this model; a minimal message type with the fields the orchestrator sets stands in for it. `run_llm` is the function parameter `llm`, so lib/llm.py is not modelled. `started_at`/`completed_at` are not modelled. The branch for an id without a class cannot be taken with the fixed registry; `Orchestration.ListedHaveClasses` proves this.
- ApiIntegration.CreateJobSpec: jobData is modelled by the properties the job keeps or createJob overrides; any other property of jobData, and an id that is not a string, are not modelled.
- Text.ToUpper: only the ASCII letters are mapped; Python's `upper()` maps every cased Unicode letter, and may change the length ("ß" becomes "SS").
- Text.ToLower: only the ASCII letters are mapped; Python's `lower()` maps every cased Unicode letter.
- Text.TitleFrom: `str.title()` is modelled over ASCII letters only; Python treats every cased Unicode letter as a word character and may change the length.
- Text.TitleFromIdempotent: stated for the ASCII title-casing of `Text.TitleFrom`; with full Unicode case mapping it is not claimed.
- Downloads.FallbackAgentName: the title-casing of an unknown agent id covers ASCII letters only, as `Text.TitleFrom` does.
- Jobs.Entries: a string's entries are its code points; JavaScript's `Object.entries` on a string yields UTF-16 code units, which differ for characters outside the Basic Multilingual Plane.
- A2aProtocol.FromDict: `from_dict` and the dataclasses it builds check no types, while the model refuses a message whose fields have the wrong JSON type; the same holds for `A2aProtocol.HeaderFrom` and `A2aProtocol.PayloadFrom`. The dict holds the integer value of `priority` rather than the enum member `asdict` keeps.
- A2aProtocol.PriorityOf: only integers and `True` are modelled; a float such as `1.0`, which Python's enum also accepts, is not.
- Other files: scripts/agent_orchestrator.py (a fragment with undefined names), lib/validate_outputs.py, lib/database.py, lib/config.py, scripts/seed_demo.py and scripts/initialize_db.py depend on external libraries or databases and are not modelled.

## Findings

| source | as written | input that shows it | evidently intended | confidence | as-written member | corrected member |
|---|---|---|---|---|---|---|
| components/results-viewer.tsx:321-375 | `DownloadDialog` calls `getAgentName`, which is declared inside `ResultsViewer` (line 44) and is out of scope there, so the CSV, XML and report exports throw a ReferenceError for every selected agent that has results; the checkbox label at line 459 throws the same way when the dialog renders | job results `{"video-agent": {"resolution": "4K"}}` with `["video-agent"]` selected | each export names the agent by its display name ("Video Enhancement") | not executed | ResultsViewer.AsWrittenThrows | ResultsViewer.CsvShape |
