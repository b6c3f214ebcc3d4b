/** Which events a log takes next, read off the log alone (piqo-core/src/session.rs). The projection decides it in the
    source; here each rule speaks only of what the events before it said. The accepted logs are exactly those in which
    every event keeps its rule, so the projection forgets nothing that matters and remembers nothing that does not. */
module LogRules {
  import opened Prelude
  import opened Events
  import opened Session
  import opened History
  import opened Ledger
  import opened Origins

  // ---------------------------------------------------------------- the rules

  /** The moves a session's phase may make. */
  predicate MayMove(from: SessionPhase, to: SessionPhase) {
    || (from == Created && (to == Running || to == Failed))
    || (from == Running && (to == Interrupted || to == Finished || to == Failed))
    || (from == Interrupted && (to == Running || to == Failed))
    || (from == Finished && to == Running)
    || (from == Failed && to == Running)
  }

  function PhaseAt(log: seq<SemanticEvent>): SessionPhase { LastOf(log, SaysPhase(), Created) }

  /** A session is created once, first of all; its phase moves from where it is; only a running one is interrupted. */
  predicate SessionFits(log: seq<SemanticEvent>, e: SessionEvent) {
    match e
    case SessionCreated(_) => log == []
    case SessionPhaseChanged(from, to, _) => PhaseAt(log) == from && MayMove(from, to)
    case SessionInterrupted(_) => PhaseAt(log) == Running
    case SessionForked(_, _) => true
  }

  predicate Started(log: seq<SemanticEvent>, m: Id) { LastOf(log, SaysOpening(m), None).Some? }

  predicate Closed(log: seq<SemanticEvent>, m: Id) {
    exists k :: 0 <= k < |log| && (log[k] == MessageEv(MessageCompleted(m)) || log[k] == MessageEv(MessageInterrupted(m)))
  }

  /** A message is started once, and spoken of until it is closed. */
  predicate MessageFits(log: seq<SemanticEvent>, e: MessageEvent) {
    if e.MessageStarted? then !Started(log, e.messageId) else Started(log, e.messageId) && !Closed(log, e.messageId)
  }

  function StatusAt(log: seq<SemanticEvent>, r: Id): Option<RunStatus> { LastOf(log, SaysStatus(r), None) }

  /** A run is queued once, starts when it is queued or waits for action, asks for action and makes attempts while it runs,
      and ends once. */
  predicate RunFits(log: seq<SemanticEvent>, e: RunEvent) {
    var status := StatusAt(log, e.runId);
    match e
    case RunQueued(_, _, _, _, _) => status == None
    case RunStarted(_, _, _) => status == Some(Queued) || status == Some(RequiresAction)
    case RunAttemptStarted(_, _, _) => status == Some(RunRunning)
    case RunRequiresAction(_, _) => status == Some(RunRunning)
    case RunAttemptFailed(_, _, _, _) => status.Some?
    case _ => status == Some(Queued) || status == Some(RunRunning) || status == Some(RequiresAction)
  }

  function CallOf(log: seq<SemanticEvent>, r: Id, c: Id): Option<Emission> { LastOf(log, SaysEmission(r, c), None) }

  predicate Names(e: SemanticEvent, r: Id, c: Id) { e.ToolEv? && e.tool.runId == r && e.tool.callId == c }

  /** A call is emitted once by a run that was queued, claimed by one execution if it is native, and has one result. */
  predicate ToolFits(log: seq<SemanticEvent>, e: ToolEvent) {
    var call := CallOf(log, e.runId, e.callId);
    match e
    case ToolCallEmitted(r, _, _, _, _, _, _, _) => StatusAt(log, r).Some? && call.None?
    case ToolExecutionStarted(r, c, x) =>
      && call.Some? && call.value.native
      && forall k :: 0 <= k < |log| && Names(log[k], r, c) && log[k].tool.ToolExecutionStarted? ==> log[k].tool.executionId == x
    case ToolResult(r, c, _, _, result) =>
      && call.Some?
      && forall k :: 0 <= k < |log| && Names(log[k], r, c) && log[k].tool.ToolResult? ==> log[k].tool.result == result
  }

  predicate Spawned(log: seq<SemanticEvent>, a: Id) { LastOf(log, SaysSpawning(a), None).Some? }

  /** No event reports another result for the agent. */
  predicate OnlyResult(log: seq<SemanticEvent>, a: Id, result: AgentResult) {
    forall k :: 0 <= k < |log| && ReportedResult(log[k], a).Some? ==> ReportedResult(log[k], a).value == result
  }

  /** An agent is spawned before anything else is said of it; what needs its record comes later; it has one result, and one
      context unless that is empty. */
  predicate AgentFits(log: seq<SemanticEvent>, e: AgentEvent) {
    match e
    case AgentSpawned(a, _, _, _) => LastOf(log, SaysAgentPhase(a), None).None?
    case AgentPhaseChanged(_, _) => true
    case AgentFinished(a, result) => Spawned(log, a) && (result.Some? ==> OnlyResult(log, a, result.value))
    case AgentContextCaptured(a, references) =>
      Spawned(log, a) && (LastOf(log, SaysCaptured(a), None) == Some([]) || LastOf(log, SaysCaptured(a), None) == Some(references))
    case AgentResultDelivered(a, _, _, result) => Spawned(log, a) && OnlyResult(log, a, result)
  }

  /** A permission is asked for once, and decided one way. */
  predicate PermissionFits(log: seq<SemanticEvent>, e: PermissionEvent) {
    var request := LastOf(log, SaysRequest(e.requestId), None);
    match e
    case PermissionRequested(_, _, _, _, _, _) => request.None?
    case PermissionResolved(x, decision, _, _, _) =>
      && request.Some?
      && forall k :: 0 <= k < |log| && log[k].PermissionEv? && log[k].permission.PermissionResolved? && log[k].permission.requestId == x ==>
           log[k].permission.decision == decision
  }

  /** What a log takes next. Anything may be said about the queue as a whole and about the context at any time. */
  predicate Fits(log: seq<SemanticEvent>, e: SemanticEvent) {
    match e
    case SessionEv(s) => SessionFits(log, s)
    case MessageEv(m) => MessageFits(log, m)
    case RunEv(r) => RunFits(log, r)
    case ToolEv(t) => ToolFits(log, t)
    case AgentEv(a) => AgentFits(log, a)
    case PermissionEv(x) => PermissionFits(log, x)
    case QueuePaused => true
    case QueueResumed => true
    case ContextEv(_) => true
  }

  // ---------------------------------------------------------------- the projection decides the same

  lemma MovesAllowed(from: SessionPhase, to: SessionPhase)
    ensures from in AllowedSources(to) <==> MayMove(from, to)
  {
  }

  lemma SessionRule(session: Id, log: seq<SemanticEvent>, e: SessionEvent)
    requires Accepted(session, log)
    ensures StepState(Fold(session, log).value.state, |log| + 1, e).Ok() <==> SessionFits(log, e)
  {
    PhaseRecorded(session, log);
    StampOfEmpty(session, log);
    if e.SessionPhaseChanged? {
      MovesAllowed(e.from, e.to);
    } else if e.SessionInterrupted? {
      MovesAllowed(Fold(session, log).value.state.phase, Interrupted);
    }
    hide Fold, LastOf, AllowedSources;
  }

  lemma StampOfEmpty(session: Id, log: seq<SemanticEvent>)
    requires Accepted(session, log)
    ensures Fold(session, log).value.state.lastEventId.None? <==> log == []
    ensures log == [] ==> Fold(session, log).value.state.revision == 0
  {
    FoldSound(session, log);
    hide MessagesSound, RunsSound, FactsSound;
  }

  lemma MessageRule(session: Id, log: seq<SemanticEvent>, e: MessageEvent)
    requires Accepted(session, log)
    ensures StepMessages(Fold(session, log).value.messages, |log| + 1, e).Ok() <==> MessageFits(log, e)
  {
    OpeningRecorded(session, log, e.messageId);
    var ms := Fold(session, log).value.messages;
    var i := IndexOf(ms, e.messageId);
    if i < |ms| {
      MessageRecorded(session, log, i);
      ClosedIs(log, ms[i]);
    }
    hide Fold, LastOf, SaidOf, Closed;
  }

  lemma ClosedIs(log: seq<SemanticEvent>, m: Message)
    requires SaidOf(log, m)
    ensures m.Closed() <==> Closed(log, m.messageId)
  {
    hide Transcript;
    var done, cut := e => e == MessageEv(MessageCompleted(m.messageId)), e => e == MessageEv(MessageInterrupted(m.messageId));
    if m.completed {
      var k :| 0 <= k < |log| && done(log[k]);
    }
    if m.interrupted {
      var k :| 0 <= k < |log| && cut(log[k]);
    }
  }

  lemma RunRule(session: Id, log: seq<SemanticEvent>, e: RunEvent)
    requires Accepted(session, log)
    ensures StepRun(Fold(session, log).value.queue, e).Ok() <==> RunFits(log, e)
  {
    EveryStatusRecorded(session, log, e.runId);
    RunEventMeaning(Fold(session, log).value.queue, e);
    hide Fold, LastOf, StepRun;
  }

  lemma ToolRule(session: Id, log: seq<SemanticEvent>, e: ToolEvent)
    requires Accepted(session, log)
    ensures StepTool(Fold(session, log).value.queue, e).Ok() <==> ToolFits(log, e)
  {
    EveryStatusRecorded(session, log, e.runId);
    EmissionRecorded(session, log, e.runId, e.callId);
    hide Fold, LastOf;
    if e.ToolExecutionStarted? {
      ClaimsAgree(session, log, e.runId, e.callId, e.executionId);
    } else if e.ToolResult? {
      ResultsAgree(session, log, e.runId, e.callId, e.result);
    }
  }

  lemma ClaimsAgree(session: Id, log: seq<SemanticEvent>, r: Id, c: Id, x: Id)
    requires Accepted(session, log)
    ensures ClaimOf(Fold(session, log).value.queue, r, c) in {None, Some(x)} <==>
            forall k :: 0 <= k < |log| && Names(log[k], r, c) && log[k].tool.ToolExecutionStarted? ==> log[k].tool.executionId == x
  {
    var claim := ClaimOf(Fold(session, log).value.queue, r, c);
    forall y ensures claim == Some(y) <==> Occurs(log, e => SaysClaim(e, r, c, y)) {
      ClaimRecorded(session, log, r, c, y);
    }
    hide Fold, ClaimOf;
    forall k | 0 <= k < |log| && Names(log[k], r, c) && log[k].tool.ToolExecutionStarted? ensures claim == Some(log[k].tool.executionId) {
      assert SaysClaim(log[k], r, c, log[k].tool.executionId);
    }
    if claim.Some? {
      var says := e => SaysClaim(e, r, c, claim.value);
      var k :| 0 <= k < |log| && says(log[k]);
    }
  }

  lemma ResultsAgree(session: Id, log: seq<SemanticEvent>, r: Id, c: Id, v: Json)
    requires Accepted(session, log)
    ensures ResultOf(Fold(session, log).value.queue, r, c) in {None, Some(v)} <==>
            forall k :: 0 <= k < |log| && Names(log[k], r, c) && log[k].tool.ToolResult? ==> log[k].tool.result == v
  {
    var result := ResultOf(Fold(session, log).value.queue, r, c);
    forall y ensures result == Some(y) <==> Occurs(log, e => SaysResult(e, r, c, y)) {
      ResultRecorded(session, log, r, c, y);
    }
    hide Fold, ResultOf;
    forall k | 0 <= k < |log| && Names(log[k], r, c) && log[k].tool.ToolResult? ensures result == Some(log[k].tool.result) {
      assert SaysResult(log[k], r, c, log[k].tool.result);
    }
    if result.Some? {
      var says := e => SaysResult(e, r, c, result.value);
      var k :| 0 <= k < |log| && says(log[k]);
    }
  }

  lemma AgentRule(session: Id, log: seq<SemanticEvent>, e: AgentEvent)
    requires Accepted(session, log)
    ensures StepAgents(Fold(session, log).value.agents, e).Ok() <==> AgentFits(log, e)
  {
    AgentPhaseRecorded(session, log, e.agentId);
    SpawningRecorded(session, log, e.agentId);
    CaptureRecorded(session, log, e.agentId);
    hide Fold, LastOf, OnlyResult;
    if e.AgentFinished? && e.agentResult.Some? {
      AgentResultsAgree(session, log, e.agentId, e.agentResult.value);
    } else if e.AgentResultDelivered? {
      AgentResultsAgree(session, log, e.agentId, e.delivered);
    }
  }

  lemma AgentResultsAgree(session: Id, log: seq<SemanticEvent>, a: Id, v: AgentResult)
    requires Accepted(session, log)
    ensures AgentResultOf(Fold(session, log).value.agents, a) in {None, Some(v)} <==> OnlyResult(log, a, v)
  {
    var result := AgentResultOf(Fold(session, log).value.agents, a);
    forall y ensures result == Some(y) <==> Occurs(log, e => SaysAgentResult(e, a, y)) {
      AgentResultRecorded(session, log, a, y);
    }
    hide Fold, AgentResultOf;
    forall k | 0 <= k < |log| && ReportedResult(log[k], a).Some? ensures result == ReportedResult(log[k], a) {
      assert SaysAgentResult(log[k], a, ReportedResult(log[k], a).value);
    }
    if result.Some? {
      var says := e => SaysAgentResult(e, a, result.value);
      var k :| 0 <= k < |log| && says(log[k]);
      assert ReportedResult(log[k], a) == result;
    }
  }

  lemma PermissionRule(session: Id, log: seq<SemanticEvent>, e: PermissionEvent)
    requires Accepted(session, log)
    ensures StepPermissions(Fold(session, log).value.permissions, e).Ok() <==> PermissionFits(log, e)
  {
    RequestRecorded(session, log, e.requestId);
    hide Fold, LastOf;
    if e.PermissionResolved? {
      DecisionsAgree(session, log, e.requestId, e.decision);
    }
  }

  lemma DecisionsAgree(session: Id, log: seq<SemanticEvent>, x: Id, d: PermissionDecision)
    requires Accepted(session, log)
    ensures DecisionOf(Fold(session, log).value.permissions, x) in {None, Some(d)} <==>
            forall k :: 0 <= k < |log| && log[k].PermissionEv? && log[k].permission.PermissionResolved? && log[k].permission.requestId == x ==>
              log[k].permission.decision == d
  {
    var decision := DecisionOf(Fold(session, log).value.permissions, x);
    forall y ensures decision == Some(y) <==> Occurs(log, e => SaysDecision(e, x, y)) {
      DecisionRecorded(session, log, x, y);
    }
    hide Fold, DecisionOf;
    forall k | 0 <= k < |log| && log[k].PermissionEv? && log[k].permission.PermissionResolved? && log[k].permission.requestId == x
      ensures decision == Some(log[k].permission.decision)
    {
      assert SaysDecision(log[k], x, log[k].permission.decision);
    }
    if decision.Some? {
      var says := e => SaysDecision(e, x, decision.value);
      var k :| 0 <= k < |log| && says(log[k]);
    }
  }

  // ---------------------------------------------------------------- who works, and who could go on

  /** The log holds a result of the call. */
  predicate Answered(log: seq<SemanticEvent>, r: Id, c: Id) {
    exists k :: 0 <= k < |log| && Names(log[k], r, c) && log[k].tool.ToolResult?
  }

  lemma AnsweredIs(session: Id, log: seq<SemanticEvent>, r: Id, c: Id)
    requires Accepted(session, log)
    ensures ResultOf(Fold(session, log).value.queue, r, c).Some? <==> Answered(log, r, c)
  {
    var result := ResultOf(Fold(session, log).value.queue, r, c);
    forall y ensures result == Some(y) <==> Occurs(log, e => SaysResult(e, r, c, y)) {
      ResultRecorded(session, log, r, c, y);
    }
    hide Fold, ResultOf;
    forall k | 0 <= k < |log| && Names(log[k], r, c) && log[k].tool.ToolResult? ensures result == Some(log[k].tool.result) {
      assert SaysResult(log[k], r, c, log[k].tool.result);
    }
    if result.Some? {
      var says := e => SaysResult(e, r, c, result.value);
      var k :| 0 <= k < |log| && says(log[k]);
      assert Names(log[k], r, c);
    }
  }

  /** A run is ready to go on exactly when the log last said that it waits for action, and has answered every call it emitted,
      of which there is one. */
  lemma ReadyRecorded(session: Id, log: seq<SemanticEvent>, r: Id)
    requires Accepted(session, log)
    ensures r in ReadyRuns(Fold(session, log).value.queue.runs) <==>
            && StatusAt(log, r) == Some(RequiresAction)
            && (exists c :: CallOf(log, r, c).Some?)
            && (forall c :: CallOf(log, r, c).Some? ==> Answered(log, r, c))
  {
    var q := Fold(session, log).value.queue;
    EveryStatusRecorded(session, log, r);
    forall c ensures CallOf(log, r, c).Some? <==> r in q.runs && c in q.runs[r].toolCalls {
      EmissionRecorded(session, log, r, c);
    }
    forall c ensures ResultOf(q, r, c).Some? <==> Answered(log, r, c) {
      AnsweredIs(session, log, r, c);
    }
    hide Fold, LastOf, CallOf, Answered;
    if r in q.runs {
      assert q.runs[r].toolCalls != map[] <==> exists c :: c in q.runs[r].toolCalls;
    }
  }

  /** The active run is the first, in key order, that the log last said to be running. */
  lemma ActiveRecorded(session: Id, log: seq<SemanticEvent>, r: Id)
    requires Accepted(session, log)
    ensures ActiveRun(Fold(session, log).value.queue) == Some(r) <==>
            StatusAt(log, r) == Some(RunRunning) && forall x :: StatusAt(log, x) == Some(RunRunning) && x != r ==> Before(r, x)
  {
    var q := Fold(session, log).value.queue;
    forall x ensures StatusAt(log, x) == Some(RunRunning) <==> x in RunsWith(q.runs, RunRunning) {
      EveryStatusRecorded(session, log, x);
    }
    hide Fold, LastOf, StatusAt;
    var running := RunsWith(q.runs, RunRunning);
    if r in running && forall x :: x in running && x != r ==> Before(r, x) {
      FirstUnique(running, r, First(running));
    }
  }

  // ---------------------------------------------------------------- whole logs

  /** An accepted log takes exactly the events that fit what it says. */
  lemma NextFits(session: Id, log: seq<SemanticEvent>, e: SemanticEvent)
    requires Accepted(session, log)
    ensures Accepted(session, log + [e]) <==> Fits(log, e)
  {
    hide SessionFits, MessageFits, RunFits, ToolFits, AgentFits, PermissionFits;
    assert (log + [e])[..|log|] == log;
    match e {
      case SessionEv(s) => SessionRule(session, log, s);
      case MessageEv(m) => MessageRule(session, log, m);
      case RunEv(r) => RunRule(session, log, r);
      case ToolEv(t) => ToolRule(session, log, t);
      case AgentEv(a) => AgentRule(session, log, a);
      case PermissionEv(x) => PermissionRule(session, log, x);
      case QueuePaused =>
      case QueueResumed =>
      case ContextEv(_) =>
    }
    hide StepState, StepMessages, StepRun, StepTool, StepAgents, StepPermissions;
  }

  /** Main result: the logs that fold are exactly those in which every event fits what was said before it. */
  lemma {:induction false} AcceptedExactly(session: Id, log: seq<SemanticEvent>)
    ensures Accepted(session, log) <==> forall k :: 0 <= k < |log| ==> Fits(log[..k], log[k])
    decreases |log|
  {
    hide Fits, Step;
    if log != [] {
      var n := |log| - 1;
      AcceptedExactly(session, log[..n]);
      forall k | 0 <= k < n ensures log[..n][..k] == log[..k] && log[..n][k] == log[k] {
      }
      assert log[..n] + [log[n]] == log;
      if Accepted(session, log[..n]) {
        NextFits(session, log[..n], log[n]);
      } else {
        if Accepted(session, log) {
          PrefixAccepted(session, log, n);
        }
        var k :| 0 <= k < n && !Fits(log[..n][..k], log[..n][k]);
        assert !Fits(log[..k], log[k]);
      }
    }
  }
}
