/** The mutable projection record and its `apply` (piqo-core/src/session.rs). Errors leave the record as the
    source leaves it: the session state has already moved, and some agent events write before they object. */
module SessionRecord {
  import opened Prelude
  import opened Events
  import opened Session

  class SessionProjection {
    var state: SessionState
    var messages: seq<Message>
    var agents: map<Id, AgentPhase>
    var agentInstances: map<Id, Agent>
    var pendingPermissions: map<Id, Permission>
    var runs: map<Id, Run>
    var queuePaused: bool
    var context: Context

    /** The value this record stands for. */
    function View(): Projection
      reads this
    {
      Projection(state, messages, Agents(agents, agentInstances), pendingPermissions, Queue(runs, queuePaused), context)
    }

    constructor (sessionId: Id)
      ensures View() == New(sessionId)
    {
      state := SessionState(sessionId, Created, 0, None);
      messages := [];
      agents := map[];
      agentInstances := map[];
      pendingPermissions := map[];
      runs := map[];
      queuePaused := false;
      context := Context([], None, None, None);
    }

    /** A clone of a projection value. */
    constructor From(p: Projection)
      ensures View() == p
    {
      state := p.state;
      messages := p.messages;
      agents := p.agents.phases;
      agentInstances := p.agents.instances;
      pendingPermissions := p.permissions;
      runs := p.queue.runs;
      queuePaused := p.queue.paused;
      context := p.context;
    }

    method Transition(next: SessionPhase, allowedFrom: set<SessionPhase>) returns (error: Option<ProjectionError>)
      modifies this`state
      ensures error == if old(state).phase in allowedFrom then None else Some(InvalidTransition(old(state).phase, next))
      ensures state == if error.None? then old(state).(phase := next, revision := old(state).revision + 1) else old(state)
    {
      if state.phase !in allowedFrom {
        return Some(InvalidTransition(state.phase, next));
      }
      state := state.(phase := next, revision := state.revision + 1);
      return None;
    }

    method ApplyState(id: EventId, e: SessionEvent) returns (error: Option<ProjectionError>)
      modifies this`state
      ensures Outcome(state, error) == StepState(old(state), id, e)
    {
      match e {
        case SessionCreated(_) =>
          if state.revision != 0 || state.lastEventId.Some? {
            return Some(DuplicateCreation);
          }
        case SessionPhaseChanged(from, to, _) =>
          if state.phase != from {
            return Some(InvalidTransition(state.phase, to));
          }
          error := Transition(to, AllowedSources(to));
          if error.Some? { return; }
        case SessionInterrupted(_) =>
          error := Transition(Interrupted, {Running});
          if error.Some? { return; }
        case SessionForked(_, _) =>
          state := state.(phase := Interrupted, revision := state.revision + 1);
      }
      state := state.(lastEventId := Some(id));
      return None;
    }

    /** Close a message, or append to it, at the position `find` gives. */
    method TouchMessage(id: EventId, messageId: Id, block: Option<ContentBlock>, complete: bool, interrupt: bool)
      returns (error: Option<ProjectionError>)
      modifies this`messages
      ensures error == OpenError(old(messages), messageId)
      ensures error.Some? ==> messages == old(messages)
      ensures error.None? ==>
        var i := IndexOf(old(messages), messageId);
        var m := old(messages)[i];
        messages == old(messages)[i := m.(
          blocks := if block.Some? then m.blocks + [block.value] else m.blocks,
          completed := m.completed || complete,
          interrupted := m.interrupted || interrupt,
          lastEventId := id)]
    {
      var i := IndexOf(messages, messageId);
      if i == |messages| {
        return Some(UnknownMessage(messageId));
      }
      var message := messages[i];
      if message.completed || message.interrupted {
        return Some(MessageAlreadyClosed(messageId));
      }
      if block.Some? {
        message := message.(blocks := message.blocks + [block.value]);
      }
      if complete {
        message := message.(completed := true);
      }
      if interrupt {
        message := message.(interrupted := true);
      }
      messages := messages[i := message.(lastEventId := id)];
      return None;
    }

    method SetRunTerminal(runId: Id, status: RunStatus, runError: Option<string>) returns (error: Option<ProjectionError>)
      modifies this`runs
      ensures Outcome(Queue(runs, queuePaused), error) == CloseRun(old(Queue(runs, queuePaused)), runId, status, runError)
    {
      if runId !in runs {
        return Some(UnknownRun(runId));
      }
      var run := runs[runId];
      if run.status != Queued && run.status != RunRunning && run.status != RequiresAction {
        return Some(InvalidRunTransition(runId, run.status, status));
      }
      runs := runs[runId := run.(status := status, error := runError)];
      return None;
    }

    method ApplyAgent(e: AgentEvent) returns (error: Option<ProjectionError>)
      modifies this`agents, this`agentInstances
      ensures Outcome(Agents(agents, agentInstances), error) == StepAgents(old(Agents(agents, agentInstances)), e)
    {
      match e {
        case AgentSpawned(agentId, parentId, link, configRevision) =>
          var known := agentId in agents;
          agents := agents[agentId := AgentCreated];
          if known {
            return Some(DuplicateAgent(agentId));
          }
          agentInstances := agentInstances[agentId := Agent(agentId, parentId, link, configRevision, [], None)];
        case AgentPhaseChanged(agentId, phase) =>
          agents := agents[agentId := phase];
        case AgentFinished(agentId, result) =>
          agents := agents[agentId := AgentFinishedPhase];
          if agentId !in agentInstances {
            return Some(UnknownAgent(agentId));
          }
          var instance := agentInstances[agentId];
          if instance.result.None? {
            agentInstances := agentInstances[agentId := instance.(result := result)];
          } else if result.Some? && instance.result != result {
            return Some(ConflictingAgentResult(agentId));
          }
        case AgentContextCaptured(agentId, references) =>
          if agentId !in agentInstances {
            return Some(UnknownAgent(agentId));
          }
          var instance := agentInstances[agentId];
          if instance.context != [] && instance.context != references {
            return Some(ConflictingAgentContext(agentId));
          }
          agentInstances := agentInstances[agentId := instance.(context := references)];
        case AgentResultDelivered(agentId, _, _, result) =>
          if agentId !in agentInstances {
            return Some(UnknownAgent(agentId));
          }
          var instance := agentInstances[agentId];
          if instance.result.None? {
            agentInstances := agentInstances[agentId := instance.(result := Some(result))];
          } else if instance.result != Some(result) {
            return Some(ConflictingAgentResult(agentId));
          }
      }
      return None;
    }

    method ApplyPermission(e: PermissionEvent) returns (error: Option<ProjectionError>)
      modifies this`pendingPermissions
      ensures Outcome(pendingPermissions, error) == StepPermissions(old(pendingPermissions), e)
    {
      match e {
        case PermissionRequested(requestId, runId, call, agentId, toolName, arguments) =>
          if requestId in pendingPermissions {
            return Some(DuplicatePermissionRequest(requestId));
          }
          pendingPermissions := pendingPermissions[requestId := Permission(requestId, runId, call, agentId, toolName, arguments, None)];
        case PermissionResolved(requestId, decision, _, _, _) =>
          if requestId !in pendingPermissions {
            return Some(UnknownPermissionRequest(requestId));
          }
          var pending := pendingPermissions[requestId];
          if pending.decision.None? {
            pendingPermissions := pendingPermissions[requestId := pending.(decision := Some(decision))];
          } else if pending.decision != Some(decision) {
            return Some(ConflictingPermissionResolution(requestId));
          }
      }
      return None;
    }

    method ApplyTool(e: ToolEvent) returns (error: Option<ProjectionError>)
      modifies this`runs
      ensures Outcome(Queue(runs, queuePaused), error) == StepTool(old(Queue(runs, queuePaused)), e)
    {
      error := None;
      if e.runId !in runs {
        return Some(UnknownRun(e.runId));
      }
      var run := runs[e.runId];
      if e.ToolCallEmitted? {
        if e.callId in run.toolCalls {
          return Some(DuplicateToolCall(e.callId));
        }
        runs := runs[e.runId := run.(toolCalls := run.toolCalls[e.callId := EmittedCall(e)])];
        return;
      }
      if e.callId !in run.toolCalls {
        return Some(UnknownToolCall(e.callId));
      }
      var call := run.toolCalls[e.callId];
      if e.ToolExecutionStarted? {
        if !call.native {
          return Some(ExternalToolExecution(e.callId));
        }
        if call.executionId.None? {
          call := call.(executionId := Some(e.executionId));
        } else if call.executionId != Some(e.executionId) {
          return Some(ConflictingToolExecution(e.callId));
        }
      } else {
        if call.result.None? {
          call := call.(result := Some(e.result));
        } else if call.result != Some(e.result) {
          return Some(ConflictingToolResult(e.callId));
        }
      }
      runs := runs[e.runId := run.(toolCalls := run.toolCalls[e.callId := call])];
    }

    method ApplyRun(e: RunEvent) returns (error: Option<ProjectionError>)
      modifies this`runs, this`queuePaused
      ensures Outcome(Queue(runs, queuePaused), error) == StepRun(old(Queue(runs, queuePaused)), e)
    {
      error := None;
      match e {
        case RunQueued(runId, retryOf, provider, model, request) =>
          if runId in runs {
            return Some(DuplicateRun(runId));
          }
          runs := runs[runId := NewRun(runId, retryOf, provider, model, request)];
        case RunStarted(runId, attemptId, attempt) =>
          if runId !in runs {
            return Some(UnknownRun(runId));
          }
          var run := runs[runId];
          if run.status != Queued && run.status != RequiresAction {
            return Some(InvalidRunTransition(runId, run.status, RunRunning));
          }
          runs := runs[runId := run.(status := RunRunning, attemptId := Some(attemptId), attempts := attempt)];
          queuePaused := false;
        case RunAttemptStarted(runId, attemptId, attempt) =>
          if runId !in runs {
            return Some(UnknownRun(runId));
          }
          var run := runs[runId];
          if run.status != RunRunning {
            return Some(InvalidRunTransition(runId, run.status, RunRunning));
          }
          runs := runs[runId := run.(attemptId := Some(attemptId), attempts := attempt)];
        case RunAttemptFailed(runId, _, attemptError, _) =>
          if runId !in runs {
            return Some(UnknownRun(runId));
          }
          runs := runs[runId := runs[runId].(error := Some(attemptError))];
        case RunCompleted(runId, usage) =>
          error := SetRunTerminal(runId, Completed, None);
          if error.Some? { return; }
          runs := runs[runId := runs[runId].(usage := usage)];
        case RunFailed(runId, runError) =>
          error := SetRunTerminal(runId, RunFailedStatus, Some(runError));
          if error.Some? { return; }
          queuePaused := true;
        case RunCancelled(runId, _) =>
          error := SetRunTerminal(runId, Cancelled, None);
          if error.Some? { return; }
          queuePaused := true;
        case RunInterrupted(runId, reason) =>
          error := SetRunTerminal(runId, RunInterruptedStatus, Some(reason));
          if error.Some? { return; }
          queuePaused := true;
        case RunRequiresAction(runId, _) =>
          if runId !in runs {
            return Some(UnknownRun(runId));
          }
          var run := runs[runId];
          if run.status != RunRunning {
            return Some(InvalidRunTransition(runId, run.status, RequiresAction));
          }
          runs := runs[runId := run.(status := RequiresAction)];
          queuePaused := true;
      }
    }

    method ApplyContext(e: ContextEvent)
      modifies this`context
      ensures context == StepContext(old(context), e)
    {
      match e {
        case ContextFactRecorded(fact) =>
          if !HasFact(context.durableFacts, fact.factId) {
            context := context.(durableFacts := context.durableFacts + [fact]);
          }
        case ContextCompacted(_, artifact) =>
          context := context.(activeArtifact := Some(artifact));
          context := context.(lastFailure := None);
          context := context.(lastBypassReason := None);
        case ContextCompactionFailed(_, _, code) =>
          context := context.(lastFailure := Some(code));
        case ContextCompactionBypassed(_, reason) =>
          context := context.(lastBypassReason := Some(reason));
        case ContextCompactionStarted(_, _, _, _, _) =>
      }
    }

    method ApplyMessage(id: EventId, e: MessageEvent) returns (error: Option<ProjectionError>)
      modifies this`messages
      ensures Outcome(messages, error) == StepMessages(old(messages), id, e)
    {
      error := None;
      match e {
        case MessageStarted(messageId, agentId, role, author) =>
          if HasMessage(messages, messageId) {
            return Some(DuplicateMessage(messageId));
          }
          messages := messages + [NewMessage(messageId, agentId, role, author, id)];
        case MessageContentAppended(messageId, block) =>
          error := TouchMessage(id, messageId, Some(block), false, false);
        case MessageCompleted(messageId) =>
          error := TouchMessage(id, messageId, None, true, false);
        case MessageInterrupted(messageId) =>
          error := TouchMessage(id, messageId, None, false, true);
      }
    }

    /** One event, in place. The error, if any, is the one of `Step`, and so is what is left behind. */
    method Apply(id: EventId, e: SemanticEvent) returns (error: Option<ProjectionError>)
      modifies this
      ensures Outcome(View(), error) == Step(old(View()), id, e)
    {
      error := None;
      if e.SessionEv? {
        error := ApplyState(id, e.session);
        if error.Some? { return; }
      } else {
        state := state.(lastEventId := Some(id));
      }
      match e {
        case SessionEv(s) =>
          if s.SessionForked? {
            queuePaused := true;
          }
        case MessageEv(m) => error := ApplyMessage(id, m);
        case RunEv(r) => error := ApplyRun(r);
        case QueuePaused => queuePaused := true;
        case QueueResumed => queuePaused := false;
        case ToolEv(t) => error := ApplyTool(t);
        case AgentEv(a) => error := ApplyAgent(a);
        case PermissionEv(q) => error := ApplyPermission(q);
        case ContextEv(c) => ApplyContext(c);
      }
    }
  }
}
