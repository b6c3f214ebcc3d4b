/** The event alphabet of a session's durable history (piqo-core/src/event_log.rs). */
module Events {
  import opened Prelude

  type EventId = nat

  datatype SessionPhase = Created | Running | Interrupted | Finished | Failed

  datatype AgentPhase = AgentCreated | AgentRunning | AgentWaiting | AgentFinishedPhase | AgentFailed

  datatype MessageRole = SystemRole | UserRole | AssistantRole | ToolRole

  datatype MessageAuthor = SystemAuthor | UserAuthor | AgentAuthor(id: Id) | ToolAuthor(id: Id)

  datatype ContentBlock = TextBlock(text: string) | JsonBlock(value: Json)

  datatype PermissionDecision = Allow | Ask | Deny

  datatype PermissionScope = Once | SessionScope | ProjectScope | ConfigurationScope

  datatype DecisionSource =
    | DefaultSource
    | ConfigurationSource
    | InteractiveConfiguration
    | ProjectRule
    | SessionRule
    | RequestApproval

  datatype AgentBudget = AgentBudget(
    maxModelTurns: nat,
    maxDurationSeconds: nat,
    maxTreeDurationSeconds: nat,
    maxTreeTokens: nat,
    maxContextBytes: nat,
    maxResultBytes: nat)

  datatype AgentLink = AgentLink(
    instanceId: Id,
    profileId: Id,
    parentSession: Id,
    parentRun: Id,
    parentCall: Id,
    childSession: Id,
    childRun: Id,
    depth: nat,
    budget: AgentBudget,
    permissionCeiling: Json)

  datatype TerminalStatus = CompletedResult | FailedResult | CancelledResult | InterruptedResult

  datatype AgentResult = AgentResult(
    instanceId: Id,
    profileId: Id,
    childSession: Id,
    childRun: Id,
    status: TerminalStatus,
    output: Option<Json>,
    outputTruncated: bool,
    usage: Option<Json>,
    error: Option<string>)

  datatype ContextRef = ContextRef(sourceSession: Id, messageId: Id, lastEventId: EventId)

  datatype CompactionStrategy = Deterministic | Llm

  datatype ContextFact = ContextFact(factId: Id, value: string)

  datatype ToolCorrelation = ToolCorrelation(callId: Id, toolName: string, runId: Id)

  datatype ContextArtifact = ContextArtifact(
    artifactId: Id,
    supersedes: Option<Id>,
    strategy: CompactionStrategy,
    sourceStart: EventId,
    sourceEnd: EventId,
    contextWindow: nat,
    outputReserve: nat,
    estimatedInput: nat,
    targetInput: nat,
    summary: string,
    correlations: seq<ToolCorrelation>)

  // The alphabet is one flat enumeration in the source. Here it is grouped by what an event is about, so
  // that the projection can be read, and reasoned about, one group at a time.

  datatype SessionEvent =
    | SessionCreated(title: Option<string>)
    | SessionPhaseChanged(from: SessionPhase, to: SessionPhase, phaseReason: Option<string>)
    | SessionInterrupted(reason: string)
    | SessionForked(parentSession: Id, atEvent: EventId)

  datatype MessageEvent =
    | MessageStarted(messageId: Id, agentId: Id, role: MessageRole, author: MessageAuthor)
    | MessageContentAppended(messageId: Id, block: ContentBlock)
    | MessageCompleted(messageId: Id)
    | MessageInterrupted(messageId: Id)

  datatype RunEvent =
    | RunQueued(runId: Id, retryOf: Option<Id>, provider: string, model: string, request: Json)
    | RunStarted(runId: Id, attemptId: Id, attempt: nat)
    | RunAttemptStarted(runId: Id, attemptId: Id, attempt: nat)
    | RunAttemptFailed(runId: Id, attemptId: Id, error: string, retryable: bool)
    | RunCompleted(runId: Id, usage: Option<Json>)
    | RunFailed(runId: Id, error: string)
    | RunCancelled(runId: Id, cancelReason: Option<string>)
    | RunInterrupted(runId: Id, reason: string)
    | RunRequiresAction(runId: Id, callIds: seq<Id>)

  datatype ToolEvent =
    | ToolCallEmitted(runId: Id, callId: Id, assistantMessageId: Id, agentId: Id, toolName: string,
                      arguments: Json, rawArguments: string, native: bool)
    | ToolExecutionStarted(runId: Id, callId: Id, executionId: Id)
    | ToolResult(runId: Id, callId: Id, agentId: Id, toolName: string, result: Json)

  datatype AgentEvent =
    | AgentPhaseChanged(agentId: Id, phase: AgentPhase)
    | AgentSpawned(agentId: Id, parentId: Option<Id>, link: Option<AgentLink>, configRevision: Option<nat>)
    | AgentFinished(agentId: Id, agentResult: Option<AgentResult>)
    | AgentContextCaptured(agentId: Id, references: seq<ContextRef>)
    | AgentResultDelivered(agentId: Id, parentRun: Id, parentCall: Id, delivered: AgentResult)

  datatype PermissionEvent =
    | PermissionRequested(requestId: Id, runId: Id, call: Option<Id>, agentId: Id, toolName: string, arguments: Json)
    | PermissionResolved(requestId: Id, decision: PermissionDecision, source: Option<DecisionSource>,
                         scope: Option<PermissionScope>, ruleId: Option<Id>)

  datatype ContextEvent =
    | ContextFactRecorded(fact: ContextFact)
    | ContextCompactionStarted(runId: Id, artifactId: Id, strategy: CompactionStrategy,
                               sourceStart: EventId, sourceEnd: EventId)
    | ContextCompacted(runId: Id, artifact: ContextArtifact)
    | ContextCompactionFailed(runId: Id, artifactId: Id, code: string)
    | ContextCompactionBypassed(runId: Id, reason: string)

  datatype SemanticEvent =
    | SessionEv(session: SessionEvent)
    | MessageEv(message: MessageEvent)
    | RunEv(run: RunEvent)
    | QueuePaused
    | QueueResumed
    | ToolEv(tool: ToolEvent)
    | AgentEv(agent: AgentEvent)
    | PermissionEv(permission: PermissionEvent)
    | ContextEv(context: ContextEvent)

  const SCHEMA_VERSION := 1

  /** An event with the durable sequence number assigned to it. */
  datatype RecordedEvent = RecordedEvent(id: EventId, sessionId: Id, schemaVersion: nat, event: SemanticEvent)
}
