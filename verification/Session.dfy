/** The session projection: what a log of events means (piqo-core/src/session.rs).

    `Step` gives the projection after one event, with the error the event raises, if any. An event that
    fails can leave its mark on the projection it failed on, so `Step` gives that value too.
    Class `SessionProjection` is the mutable record of the source, proved equal to `Step`. */
module Session {
  import opened Prelude
  import opened Events

  datatype RunStatus = Queued | RunRunning | RequiresAction | Completed | RunFailedStatus | Cancelled | RunInterruptedStatus

  datatype SessionState = SessionState(sessionId: Id, phase: SessionPhase, revision: nat, lastEventId: Option<EventId>)

  datatype Message = Message(
    messageId: Id,
    role: MessageRole,
    agentId: Option<Id>,
    author: MessageAuthor,
    blocks: seq<ContentBlock>,
    completed: bool,
    interrupted: bool,
    firstEventId: EventId,
    lastEventId: EventId)
  {
    predicate Closed() { completed || interrupted }
  }

  datatype ToolCall = ToolCall(
    callId: Id,
    assistantMessageId: Id,
    agentId: Id,
    toolName: string,
    arguments: Json,
    rawArguments: string,
    native: bool,
    executionId: Option<Id>,
    result: Option<Json>)

  datatype Run = Run(
    runId: Id,
    retryOf: Option<Id>,
    provider: string,
    model: string,
    request: Json,
    status: RunStatus,
    attemptId: Option<Id>,
    attempts: nat,
    error: Option<string>,
    usage: Option<Json>,
    queuePriority: int,
    toolCalls: map<Id, ToolCall>)

  datatype Permission = Permission(
    requestId: Id,
    runId: Id,
    call: Option<Id>,
    agentId: Id,
    toolName: string,
    arguments: Json,
    decision: Option<PermissionDecision>)

  datatype Agent = Agent(
    agentId: Id,
    parentId: Option<Id>,
    link: Option<AgentLink>,
    configRevision: Option<nat>,
    context: seq<ContextRef>,
    result: Option<AgentResult>)

  datatype Context = Context(
    durableFacts: seq<ContextFact>,
    activeArtifact: Option<ContextArtifact>,
    lastFailure: Option<string>,
    lastBypassReason: Option<string>)

  /** The agents' phases and, for spawned agents, their records. */
  datatype Agents = Agents(phases: map<Id, AgentPhase>, instances: map<Id, Agent>)

  datatype Queue = Queue(runs: map<Id, Run>, paused: bool)

  datatype Projection = Projection(
    state: SessionState,
    messages: seq<Message>,
    agents: Agents,
    permissions: map<Id, Permission>,
    queue: Queue,
    context: Context)

  datatype ProjectionError =
    | DuplicateCreation
    | InvalidTransition(from: SessionPhase, to: SessionPhase)
    | DuplicateMessage(id: Id)
    | UnknownMessage(id: Id)
    | MessageAlreadyClosed(id: Id)
    | DuplicateToolCall(id: Id)
    | UnknownToolCall(id: Id)
    | DuplicatePermissionRequest(id: Id)
    | UnknownPermissionRequest(id: Id)
    | ConflictingPermissionResolution(id: Id)
    | ConflictingToolResult(id: Id)
    | ExternalToolExecution(id: Id)
    | ConflictingToolExecution(id: Id)
    | DuplicateAgent(id: Id)
    | UnknownAgent(id: Id)
    | ConflictingAgentResult(id: Id)
    | ConflictingAgentContext(id: Id)
    | DuplicateRun(id: Id)
    | UnknownRun(id: Id)
    | InvalidRunTransition(id: Id, fromStatus: RunStatus, toStatus: RunStatus)

  /** A value together with the error raised while computing it. */
  datatype Outcome<+T> = Outcome(value: T, error: Option<ProjectionError>)
  {
    predicate Ok() { error.None? }
  }

  // ---------------------------------------------------------------- session state

  function AllowedSources(next: SessionPhase): set<SessionPhase> {
    match next
    case Created => {}
    case Running => {Created, Finished, Interrupted, Failed}
    case Interrupted => {Running}
    case Finished => {Running}
    case Failed => {Created, Running, Interrupted}
  }

  function Transition(s: SessionState, next: SessionPhase): Outcome<SessionState> {
    if s.phase in AllowedSources(next) then Outcome(s.(phase := next, revision := s.revision + 1), None)
    else Outcome(s, Some(InvalidTransition(s.phase, next)))
  }

  function StepState(s: SessionState, id: EventId, e: SessionEvent): Outcome<SessionState> {
    var moved :=
      match e
      case SessionCreated(_) =>
        Outcome(s, if s.revision != 0 || s.lastEventId.Some? then Some(DuplicateCreation) else None)
      case SessionPhaseChanged(from, to, _) =>
        if s.phase != from then Outcome(s, Some(InvalidTransition(s.phase, to))) else Transition(s, to)
      case SessionInterrupted(_) => Transition(s, Interrupted)
      case SessionForked(_, _) => Outcome(s.(phase := Interrupted, revision := s.revision + 1), None);
    if moved.Ok() then Outcome(Stamp(moved.value, id), None) else moved
  }

  function Stamp(s: SessionState, id: EventId): SessionState { s.(lastEventId := Some(id)) }

  // ---------------------------------------------------------------- messages

  /** The position of the first message with this id, or the number of messages. */
  function IndexOf(ms: seq<Message>, id: Id): (i: nat)
    ensures i <= |ms|
    ensures i < |ms| ==> ms[i].messageId == id
    ensures forall j :: 0 <= j < i ==> ms[j].messageId != id
  {
    if ms == [] then 0
    else if ms[0].messageId == id then 0
    else 1 + IndexOf(ms[1..], id)
  }

  predicate HasMessage(ms: seq<Message>, id: Id) { IndexOf(ms, id) < |ms| }

  function ProjectedAuthor(author: MessageAuthor, role: MessageRole, agentId: Id): MessageAuthor {
    if author != SystemAuthor then author
    else if role == UserRole then UserAuthor
    else if role == AssistantRole && agentId != "" then AgentAuthor(agentId)
    else if role == ToolRole && agentId != "" then ToolAuthor(agentId)
    else author
  }

  function NewMessage(messageId: Id, agentId: Id, role: MessageRole, author: MessageAuthor, id: EventId): Message {
    Message(messageId, role, if agentId == "" then None else Some(agentId),
            ProjectedAuthor(author, role, agentId), [], false, false, id, id)
  }

  /** The error of touching a message that is missing or closed. */
  function OpenError(ms: seq<Message>, messageId: Id): Option<ProjectionError> {
    var i := IndexOf(ms, messageId);
    if i == |ms| then Some(UnknownMessage(messageId))
    else if ms[i].Closed() then Some(MessageAlreadyClosed(messageId))
    else None
  }

  function StepMessages(ms: seq<Message>, id: EventId, e: MessageEvent): Outcome<seq<Message>> {
    var i := IndexOf(ms, e.messageId);
    match e
    case MessageStarted(messageId, agentId, role, author) =>
      if i < |ms| then Outcome(ms, Some(DuplicateMessage(messageId)))
      else Outcome(ms + [NewMessage(messageId, agentId, role, author, id)], None)
    case MessageContentAppended(messageId, block) =>
      if OpenError(ms, messageId).Some? then Outcome(ms, OpenError(ms, messageId))
      else Outcome(ms[i := ms[i].(blocks := ms[i].blocks + [block], lastEventId := id)], None)
    case MessageCompleted(messageId) =>
      if OpenError(ms, messageId).Some? then Outcome(ms, OpenError(ms, messageId))
      else Outcome(ms[i := ms[i].(completed := true, lastEventId := id)], None)
    case MessageInterrupted(messageId) =>
      if OpenError(ms, messageId).Some? then Outcome(ms, OpenError(ms, messageId))
      else Outcome(ms[i := ms[i].(interrupted := true, lastEventId := id)], None)
  }

  // ---------------------------------------------------------------- agents

  function StepAgents(a: Agents, e: AgentEvent): Outcome<Agents> {
    match e
    case AgentSpawned(agentId, parentId, link, configRevision) =>
      // The phase is written before the duplicate is noticed.
      var marked := a.(phases := a.phases[agentId := AgentCreated]);
      if agentId in a.phases then Outcome(marked, Some(DuplicateAgent(agentId)))
      else Outcome(marked.(instances := a.instances[agentId := Agent(agentId, parentId, link, configRevision, [], None)]), None)
    case AgentPhaseChanged(agentId, phase) => Outcome(a.(phases := a.phases[agentId := phase]), None)
    case AgentFinished(agentId, result) =>
      var marked := a.(phases := a.phases[agentId := AgentFinishedPhase]);
      if agentId !in a.instances then Outcome(marked, Some(UnknownAgent(agentId)))
      else
        var instance := a.instances[agentId];
        if instance.result.None? then Outcome(marked.(instances := a.instances[agentId := instance.(result := result)]), None)
        else if result.Some? && result != instance.result then Outcome(marked, Some(ConflictingAgentResult(agentId)))
        else Outcome(marked, None)
    case AgentContextCaptured(agentId, references) =>
      if agentId !in a.instances then Outcome(a, Some(UnknownAgent(agentId)))
      else
        var instance := a.instances[agentId];
        if instance.context != [] && instance.context != references then Outcome(a, Some(ConflictingAgentContext(agentId)))
        else Outcome(a.(instances := a.instances[agentId := instance.(context := references)]), None)
    case AgentResultDelivered(agentId, _, _, result) =>
      if agentId !in a.instances then Outcome(a, Some(UnknownAgent(agentId)))
      else
        var instance := a.instances[agentId];
        if instance.result.None? then Outcome(a.(instances := a.instances[agentId := instance.(result := Some(result))]), None)
        else if instance.result == Some(result) then Outcome(a, None)
        else Outcome(a, Some(ConflictingAgentResult(agentId)))
  }

  // ---------------------------------------------------------------- permissions

  function StepPermissions(ps: map<Id, Permission>, e: PermissionEvent): Outcome<map<Id, Permission>> {
    match e
    case PermissionRequested(requestId, runId, call, agentId, toolName, arguments) =>
      if requestId in ps then Outcome(ps, Some(DuplicatePermissionRequest(requestId)))
      else Outcome(ps[requestId := Permission(requestId, runId, call, agentId, toolName, arguments, None)], None)
    case PermissionResolved(requestId, decision, _, _, _) =>
      if requestId !in ps then Outcome(ps, Some(UnknownPermissionRequest(requestId)))
      else if ps[requestId].decision.None? then Outcome(ps[requestId := ps[requestId].(decision := Some(decision))], None)
      else if ps[requestId].decision == Some(decision) then Outcome(ps, None)
      else Outcome(ps, Some(ConflictingPermissionResolution(requestId)))
  }

  // ---------------------------------------------------------------- runs

  predicate Terminal(status: RunStatus) {
    status != Queued && status != RunRunning && status != RequiresAction
  }

  function NewRun(runId: Id, retryOf: Option<Id>, provider: string, model: string, request: Json): Run {
    Run(runId, retryOf, provider, model, request, Queued, None, 0, None, None,
        if retryOf.Some? then -1 else 0, map[])
  }

  function SetRun(q: Queue, run: Id, r: Run): Queue { q.(runs := q.runs[run := r]) }

  /** Close a run, as `set_run_terminal` does. */
  function CloseRun(q: Queue, run: Id, status: RunStatus, error: Option<string>): Outcome<Queue> {
    if run !in q.runs then Outcome(q, Some(UnknownRun(run)))
    else if Terminal(q.runs[run].status) then Outcome(q, Some(InvalidRunTransition(run, q.runs[run].status, status)))
    else Outcome(SetRun(q, run, q.runs[run].(status := status, error := error)), None)
  }

  function PauseAfter(o: Outcome<Queue>): Outcome<Queue> {
    if o.Ok() then Outcome(o.value.(paused := true), None) else o
  }

  function StepRun(q: Queue, e: RunEvent): Outcome<Queue> {
    match e
    case RunQueued(runId, retryOf, provider, model, request) =>
      if runId in q.runs then Outcome(q, Some(DuplicateRun(runId)))
      else Outcome(SetRun(q, runId, NewRun(runId, retryOf, provider, model, request)), None)
    case RunStarted(runId, attemptId, attempt) =>
      if runId !in q.runs then Outcome(q, Some(UnknownRun(runId)))
      else
        var r := q.runs[runId];
        if r.status != Queued && r.status != RequiresAction then Outcome(q, Some(InvalidRunTransition(runId, r.status, RunRunning)))
        else Outcome(SetRun(q, runId, r.(status := RunRunning, attemptId := Some(attemptId), attempts := attempt)).(paused := false), None)
    case RunAttemptStarted(runId, attemptId, attempt) =>
      if runId !in q.runs then Outcome(q, Some(UnknownRun(runId)))
      else
        var r := q.runs[runId];
        if r.status != RunRunning then Outcome(q, Some(InvalidRunTransition(runId, r.status, RunRunning)))
        else Outcome(SetRun(q, runId, r.(attemptId := Some(attemptId), attempts := attempt)), None)
    case RunAttemptFailed(runId, _, error, _) =>
      if runId !in q.runs then Outcome(q, Some(UnknownRun(runId)))
      else Outcome(SetRun(q, runId, q.runs[runId].(error := Some(error))), None)
    case RunCompleted(runId, usage) =>
      var o := CloseRun(q, runId, Completed, None);
      if o.Ok() && runId in o.value.runs then Outcome(SetRun(o.value, runId, o.value.runs[runId].(usage := usage)), None) else o
    case RunFailed(runId, error) => PauseAfter(CloseRun(q, runId, RunFailedStatus, Some(error)))
    case RunCancelled(runId, _) => PauseAfter(CloseRun(q, runId, Cancelled, None))
    case RunInterrupted(runId, reason) => PauseAfter(CloseRun(q, runId, RunInterruptedStatus, Some(reason)))
    case RunRequiresAction(runId, _) =>
      if runId !in q.runs then Outcome(q, Some(UnknownRun(runId)))
      else
        var r := q.runs[runId];
        if r.status != RunRunning then Outcome(q, Some(InvalidRunTransition(runId, r.status, RequiresAction)))
        else Outcome(SetRun(q, runId, r.(status := RequiresAction)).(paused := true), None)
  }

  function EmittedCall(e: ToolEvent): ToolCall
    requires e.ToolCallEmitted?
  {
    ToolCall(e.callId, e.assistantMessageId, e.agentId, e.toolName, e.arguments, e.rawArguments, e.native, None, None)
  }

  /** A claim or a result on an emitted call. */
  function StepCall(c: ToolCall, e: ToolEvent): Outcome<ToolCall> {
    match e
    case ToolCallEmitted(_, callId, _, _, _, _, _, _) => Outcome(c, Some(DuplicateToolCall(callId)))
    case ToolExecutionStarted(_, callId, executionId) =>
      if !c.native then Outcome(c, Some(ExternalToolExecution(callId)))
      else if c.executionId.None? then Outcome(c.(executionId := Some(executionId)), None)
      else if c.executionId == Some(executionId) then Outcome(c, None)
      else Outcome(c, Some(ConflictingToolExecution(callId)))
    case ToolResult(_, callId, _, _, result) =>
      if c.result.None? then Outcome(c.(result := Some(result)), None)
      else if c.result == Some(result) then Outcome(c, None)
      else Outcome(c, Some(ConflictingToolResult(callId)))
  }

  function StepTool(q: Queue, e: ToolEvent): Outcome<Queue> {
    if e.runId !in q.runs then Outcome(q, Some(UnknownRun(e.runId)))
    else
      var r := q.runs[e.runId];
      if e.callId in r.toolCalls then
        var c := StepCall(r.toolCalls[e.callId], e);
        if c.Ok() then Outcome(SetRun(q, e.runId, r.(toolCalls := r.toolCalls[e.callId := c.value])), None)
        else Outcome(q, c.error)
      else if e.ToolCallEmitted? then
        Outcome(SetRun(q, e.runId, r.(toolCalls := r.toolCalls[e.callId := EmittedCall(e)])), None)
      else Outcome(q, Some(UnknownToolCall(e.callId)))
  }

  /** The run an accepted event leaves behind. */
  function RunEffect(r: Run, e: RunEvent): Run {
    match e
    case RunQueued(_, _, _, _, _) => r
    case RunStarted(_, attemptId, attempt) => r.(status := RunRunning, attemptId := Some(attemptId), attempts := attempt)
    case RunAttemptStarted(_, attemptId, attempt) => r.(attemptId := Some(attemptId), attempts := attempt)
    case RunAttemptFailed(_, _, error, _) => r.(error := Some(error))
    case RunCompleted(_, usage) => r.(status := Completed, error := None, usage := usage)
    case RunFailed(_, error) => r.(status := RunFailedStatus, error := Some(error))
    case RunCancelled(_, _) => r.(status := Cancelled, error := None)
    case RunInterrupted(_, reason) => r.(status := RunInterruptedStatus, error := Some(reason))
    case RunRequiresAction(_, _) => r.(status := RequiresAction)
  }

  /** The statuses in which a run takes an event. */
  predicate RunGuard(e: RunEvent, status: RunStatus) {
    match e
    case RunQueued(_, _, _, _, _) => false
    case RunStarted(_, _, _) => status == Queued || status == RequiresAction
    case RunAttemptStarted(_, _, _) => status == RunRunning
    case RunAttemptFailed(_, _, _, _) => true
    case RunCompleted(_, _) => !Terminal(status)
    case RunFailed(_, _) => !Terminal(status)
    case RunCancelled(_, _) => !Terminal(status)
    case RunInterrupted(_, _) => !Terminal(status)
    case RunRequiresAction(_, _) => status == RunRunning
  }

  /** A run event is accepted exactly when it queues a new run or finds its run in a guarding status; it then
      changes that run alone, as `RunEffect` says. */
  lemma RunEventMeaning(q: Queue, e: RunEvent)
    ensures StepRun(q, e).Ok() <==>
            if e.RunQueued? then e.runId !in q.runs else e.runId in q.runs && RunGuard(e, q.runs[e.runId].status)
    ensures StepRun(q, e).Ok() && e.RunQueued? ==>
              StepRun(q, e).value.runs == q.runs[e.runId := NewRun(e.runId, e.retryOf, e.provider, e.model, e.request)]
    ensures StepRun(q, e).Ok() && !e.RunQueued? ==>
              StepRun(q, e).value.runs == q.runs[e.runId := RunEffect(q.runs[e.runId], e)]
    ensures StepRun(q, e).Ok() ==>
              StepRun(q, e).value.paused ==
              if e.RunStarted? then false
              else q.paused || e.RunFailed? || e.RunCancelled? || e.RunInterrupted? || e.RunRequiresAction?
    ensures !StepRun(q, e).Ok() ==> StepRun(q, e).value == q
  {
  }

  // ---------------------------------------------------------------- context

  predicate HasFact(facts: seq<ContextFact>, id: Id) { exists i :: 0 <= i < |facts| && facts[i].factId == id }

  function StepContext(c: Context, e: ContextEvent): Context {
    match e
    case ContextFactRecorded(fact) =>
      if HasFact(c.durableFacts, fact.factId) then c else c.(durableFacts := c.durableFacts + [fact])
    case ContextCompacted(_, artifact) => c.(activeArtifact := Some(artifact), lastFailure := None, lastBypassReason := None)
    case ContextCompactionFailed(_, _, code) => c.(lastFailure := Some(code))
    case ContextCompactionBypassed(_, reason) => c.(lastBypassReason := Some(reason))
    case ContextCompactionStarted(_, _, _, _, _) => c
  }

  // ---------------------------------------------------------------- the whole projection

  function New(sessionId: Id): Projection {
    Projection(SessionState(sessionId, Created, 0, None), [], Agents(map[], map[]), map[],
               Queue(map[], false), Context([], None, None, None))
  }

  /** One event. A session event that is refused changes nothing; any other event is stamped before its
      part of the projection can object, and an agent event may have been half written. */
  function Step(p: Projection, id: EventId, e: SemanticEvent): Outcome<Projection> {
    var stamped := p.(state := Stamp(p.state, id));
    match e
    case SessionEv(s) =>
      var o := StepState(p.state, id, s);
      Outcome(p.(state := o.value, queue := if s.SessionForked? then p.queue.(paused := true) else p.queue), o.error)
    case MessageEv(m) =>
      var o := StepMessages(p.messages, id, m);
      Outcome(stamped.(messages := o.value), o.error)
    case RunEv(r) =>
      var o := StepRun(p.queue, r);
      Outcome(stamped.(queue := o.value), o.error)
    case QueuePaused => Outcome(stamped.(queue := p.queue.(paused := true)), None)
    case QueueResumed => Outcome(stamped.(queue := p.queue.(paused := false)), None)
    case ToolEv(t) =>
      var o := StepTool(p.queue, t);
      Outcome(stamped.(queue := o.value), o.error)
    case AgentEv(a) =>
      var o := StepAgents(p.agents, a);
      Outcome(stamped.(agents := o.value), o.error)
    case PermissionEv(q) =>
      var o := StepPermissions(p.permissions, q);
      Outcome(stamped.(permissions := o.value), o.error)
    case ContextEv(c) => Outcome(stamped.(context := StepContext(p.context, c)), None)
  }

  /** Replay events numbered `first`, `first + 1`, ... on a projection, stopping at the first error. */
  function Replay(p: Projection, first: EventId, events: seq<SemanticEvent>): Outcome<Projection>
    decreases |events|
  {
    if events == [] then Outcome(p, None)
    else
      var n := |events| - 1;
      var before := Replay(p, first, events[..n]);
      if before.Ok() then Step(before.value, first + n, events[n]) else before
  }

  /** The projection of a log whose events are numbered from 1. */
  function Fold(sessionId: Id, log: seq<SemanticEvent>): Outcome<Projection> {
    Replay(New(sessionId), 1, log)
  }

  predicate Accepted(sessionId: Id, log: seq<SemanticEvent>) { Fold(sessionId, log).Ok() }

  lemma {:induction false} ReplayAppend(p: Projection, first: EventId, xs: seq<SemanticEvent>, ys: seq<SemanticEvent>)
    ensures Replay(p, first, xs + ys) ==
            if Replay(p, first, xs).Ok() then Replay(Replay(p, first, xs).value, first + |xs|, ys)
            else Replay(p, first, xs)
    decreases |ys|
  {
    if ys == [] {
      assert xs + ys == xs;
    } else {
      var n := |ys| - 1;
      ReplayAppend(p, first, xs, ys[..n]);
      assert (xs + ys)[..|xs + ys| - 1] == xs + ys[..n];
    }
  }

  lemma {:induction false} ReplayOne(p: Projection, first: EventId, e: SemanticEvent)
    ensures Replay(p, first, [e]) == Step(p, first, e)
  {
    assert [e][..0] == [];
  }

  /** One more event of a batch. */
  lemma ReplayNext(p: Projection, first: EventId, batch: seq<SemanticEvent>, i: nat)
    requires i < |batch|
    ensures Replay(p, first, batch[..i + 1]) ==
            if Replay(p, first, batch[..i]).Ok() then Step(Replay(p, first, batch[..i]).value, first + i, batch[i])
            else Replay(p, first, batch[..i])
  {
    assert batch[..i + 1][..i] == batch[..i];
  }

  lemma ReplayNone(p: Projection, first: EventId)
    ensures Replay(p, first, []) == Outcome(p, None)
  {
  }

  /** A log that is accepted has only accepted prefixes. */
  lemma PrefixAccepted(sessionId: Id, log: seq<SemanticEvent>, n: nat)
    requires Accepted(sessionId, log) && n <= |log|
    ensures Accepted(sessionId, log[..n])
  {
    assert log == log[..n] + log[n..];
    ReplayAppend(New(sessionId), 1, log[..n], log[n..]);
  }

  // ---------------------------------------------------------------- queries

  function RunsWith(runs: map<Id, Run>, status: RunStatus): set<Id> {
    set r | r in runs && runs[r].status == status
  }

  /** The first running run in key order. */
  function ActiveRun(q: Queue): (r: Option<Id>)
    ensures r.None? <==> RunsWith(q.runs, RunRunning) == {}
    ensures r.Some? ==> r.value in q.runs && q.runs[r.value].status == RunRunning
  {
    var running := RunsWith(q.runs, RunRunning);
    if running == {} then None else Some(First(running))
  }

  predicate AllResults(r: Run) { forall c :: c in r.toolCalls ==> r.toolCalls[c].result.Some? }

  /** Runs that wait for tool results and have them all. */
  function ReadyRuns(runs: map<Id, Run>): set<Id> {
    set r | r in runs && runs[r].status == RequiresAction && runs[r].toolCalls != map[] && AllResults(runs[r])
  }

  function ReadyActionRun(q: Queue): (r: Option<Id>)
    ensures r.None? <==> ReadyRuns(q.runs) == {}
    ensures r.Some? ==> r.value in ReadyRuns(q.runs)
  {
    var ready := ReadyRuns(q.runs);
    if ready == {} then None else Some(First(ready))
  }
}
