/** Everything the server appends, writer by writer, over all sessions (piqo-server/src/supervisor.rs,
    piqo-server/src/storage.rs). A completed turn reports its usage, and the branch that asks for permissions is only
    taken for a completion without one; so no log ever holds a permission request, and what depends on one - claims,
    tool results, delegation, continued runs - stays unused. */
module Writers {
  import opened Prelude
  import opened Events
  import opened Session
  import opened StoreSpec
  import opened Finishing
  import Permissions
  import NativeClaims
  import Delegation
  import Worker
  import Recovery
  import Origins

  /** A delegated child session: whose call it answers. */
  datatype Child = Child(parent: Id, run: Id, call: Id, instance: Id, childRun: Id)

  datatype System = System(logs: map<Id, seq<SemanticEvent>>, links: map<Id, Child>)

  /** What permission evaluation reads from outside the log. */
  datatype Asking = Asking(
    agentId: Id,
    ids: seq<Id>,
    found: seq<Option<Permissions.Rule>>,
    configured: Option<Permissions.AgentPermissions>,
    ceiling: Option<Permissions.AgentPermissions>)

  /** One writer at work on one session. */
  datatype Writer =
    | QueueRun(run: Id, retryOf: Option<Id>, provider: string, model: string, request: Json)
    | ResumeQueue
    | EndRun(end: RunEvent)
    | MovePhase(move: SessionEvent)
    | StartRun(run: Id, attemptId: Id)
    | InTurn(event: SemanticEvent)
    | FinishRun(run: Id, outcome: ExecutionResult, asking: Asking)
    | ResolveRequest(asked: Id, decision: PermissionDecision, scope: Option<PermissionScope>, rule: Option<Id>)
    | SubmitResult(run: Id, call: Id, result: Json)
    | ClaimCall(run: Id, call: Id, execution: Id)
    | ReportCall(run: Id, call: Id, result: Json)
    | ResumeReady(run: Id)

  /** What a delegation carries: the delegating agent, the link, the context it hands over, and how the child's session
      goes on with it. */
  datatype Spawn = Spawn(agent: Id, link: AgentLink, references: seq<ContextRef>, title: Option<string>, opening: seq<SemanticEvent>)

  datatype Step =
    | Create(session: Id, title: Option<string>)
    | Fork(session: Id, parent: Id, at: nat)
    | Write(session: Id, seen: nat, writer: Writer)
    | Delegate(session: Id, seen: nat, run: Id, call: Id, child: Id, spawn: Spawn)
    | Deliver(child: Id, seenChild: nat, seenParent: nat, result: AgentResult, value: Json)

  // ---------------------------------------------------------------- what each writer appends

  /** The worker continues a ready run if there is one, and otherwise starts a queued run if the queue is open. */
  function StartEvents(q: Queue, r: Id, attemptId: Id): seq<SemanticEvent> {
    if r !in q.runs || ActiveRun(q).Some? then []
    else
      var start := RunEv(RunStarted(r, attemptId, q.runs[r].attempts + 1));
      if ReadyActionRun(q).Some? then
        if ReadyActionRun(q) == Some(r) then [QueueResumed] + [start] else []
      else if !q.paused && Worker.NextQueued(q) == Some(r) then [start] else []
  }

  /** What the model's answer, retries and compaction append. A provider may ask for action itself, naming no call. */
  predicate WrittenInTurn(e: SemanticEvent) {
    || e.MessageEv? || e.ContextEv?
    || (e.RunEv? && (e.run.RunAttemptStarted? || e.run.RunAttemptFailed? || (e.run.RunRequiresAction? && e.run.callIds == [])))
    || (e.ToolEv? && e.tool.ToolCallEmitted?)
  }

  function CallIds(calls: seq<ToolCall>): seq<Id> { seq(|calls|, i requires 0 <= i < |calls| => calls[i].callId) }

  /** The branch that asks: the run's open calls, each with a request. */
  function AskEvents(p: Projection, r: Id, asking: Asking): seq<SemanticEvent> {
    if r !in p.queue.runs then []
    else
      var open := Permissions.OpenCalls(p.queue.runs[r].toolCalls);
      if open == [] || !(|open| == |asking.ids| == |asking.found|) then []
      else
        [RunEv(RunRequiresAction(r, CallIds(open)))]
        + Permissions.Batch(r, asking.agentId, Permissions.Items(open, asking.ids, asking.found, asking.configured, asking.ceiling))
        + Closing(p, r, NeedsAction)
  }

  /** A request is decided once, and a denial answers its call; a request without a call cannot be denied. */
  function ResolveEvents(p: Projection, q: Id, decision: PermissionDecision, scope: Option<PermissionScope>, rule: Option<Id>): seq<SemanticEvent> {
    if q !in p.permissions || p.permissions[q].decision.Some? || (decision == Deny && p.permissions[q].call.None?) then []
    else
      var asked := p.permissions[q];
      [PermissionEv(PermissionResolved(q, decision, Some(RequestApproval), scope, rule))]
      + (if decision == Deny then
           [ToolEv(ToolResult(asked.runId, asked.call.value, asked.agentId, asked.toolName, Permissions.DENIED))]
         else [])
  }

  /** The call is there, and has no result but a refusal. */
  predicate MayBeRefused(p: Projection, r: Id, c: Id) {
    && r in p.queue.runs && c in p.queue.runs[r].toolCalls
    && (p.queue.runs[r].toolCalls[c].result.None? || p.queue.runs[r].toolCalls[c].result == Some(Permissions.DENIED))
  }

  /** Deciding a request that is pending. An approval is always taken, changes no run, and approves exactly the call it is
      about; a denial is taken exactly when the call has no other result, answers that call and no other, and approves nothing.
      Deciding again, in whatever way, appends nothing. */
  lemma ResolutionMeaning(p: Projection, n: EventId, q: Id, decision: PermissionDecision, scope: Option<PermissionScope>, rule: Option<Id>)
    requires q in p.permissions && p.permissions[q].decision.None? && decision in {Allow, Deny}
    requires decision == Deny ==> p.permissions[q].call.Some?
    ensures var asked := p.permissions[q];
            var o := Replay(p, n, ResolveEvents(p, q, decision, scope, rule));
            && (o.Ok() <==> (decision == Deny ==> MayBeRefused(p, asked.runId, asked.call.value)))
            && (o.Ok() ==>
                  && o.value.permissions == p.permissions[q := asked.(decision := Some(decision))]
                  && (decision == Allow ==> o.value.queue == p.queue)
                  && (decision == Deny ==>
                        var run := p.queue.runs[asked.runId];
                        var refused := run.toolCalls[asked.call.value].(result := Some(Permissions.DENIED));
                        o.value.queue.runs == p.queue.runs[asked.runId := run.(toolCalls := run.toolCalls[asked.call.value := refused])])
                  && (forall r, c :: NativeClaims.Approved(o.value, r, c) <==>
                        NativeClaims.Approved(p, r, c) || (decision == Allow && asked.runId == r && asked.call == Some(c)))
                  && forall other, wider, named :: ResolveEvents(o.value, q, other, wider, named) == [])
  {
    hide Replay, StepMessages, StepAgents, StepState;
    var asked := p.permissions[q];
    var e1 := PermissionEv(PermissionResolved(q, decision, Some(RequestApproval), scope, rule));
    var p1 := Session.Step(p, n, e1).value;
    assert p1.queue == p.queue && p1.permissions == p.permissions[q := asked.(decision := Some(decision))];
    ReplayOne(p, n, e1);
    ApprovedAfter(p, p1, q, decision);
    if decision == Deny {
      var e2 := ToolEv(ToolResult(asked.runId, asked.call.value, asked.agentId, asked.toolName, Permissions.DENIED));
      ReplayAppend(p, n, [e1], [e2]);
      ReplayOne(p1, n + 1, e2);
      RefusalStep(p1, n + 1, e2.tool);
      hide Session.Step;
      if Replay(p1, n + 1, [e2]).Ok() {
        SameApprovals(p1, Replay(p1, n + 1, [e2]).value);
      }
    } else {
      hide Session.Step;
      assert ResolveEvents(p, q, decision, scope, rule) == [e1];
    }
  }

  lemma RefusalStep(p: Projection, n: EventId, e: ToolEvent)
    requires e.ToolResult? && e.result == Permissions.DENIED
    ensures var o := Session.Step(p, n, ToolEv(e));
            && (o.Ok() <==> MayBeRefused(p, e.runId, e.callId))
            && (o.Ok() ==>
                  var run := p.queue.runs[e.runId];
                  var refused := run.toolCalls[e.callId].(result := Some(Permissions.DENIED));
                  && o.value.permissions == p.permissions
                  && o.value.queue.runs == p.queue.runs[e.runId := run.(toolCalls := run.toolCalls[e.callId := refused])])
  {
    hide StepRun, StepMessages, StepAgents, StepState;
  }

  lemma SameApprovals(p: Projection, after: Projection)
    requires after.permissions == p.permissions
    ensures forall r, c :: NativeClaims.Approved(after, r, c) <==> NativeClaims.Approved(p, r, c)
  {
  }

  lemma ApprovedAfter(p: Projection, after: Projection, q: Id, decision: PermissionDecision)
    requires q in p.permissions && p.permissions[q].decision.None? && decision in {Allow, Deny}
    requires after.permissions == p.permissions[q := p.permissions[q].(decision := Some(decision))]
    ensures forall r, c :: NativeClaims.Approved(after, r, c) <==>
              NativeClaims.Approved(p, r, c) || (decision == Allow && p.permissions[q].runId == r && p.permissions[q].call == Some(c))
  {
    forall r, c | NativeClaims.Approved(p, r, c) ensures NativeClaims.Approved(after, r, c) {
      var x :| x in p.permissions && p.permissions[x].runId == r && p.permissions[x].call == Some(c) && p.permissions[x].decision == Some(Allow);
      assert after.permissions[x] == p.permissions[x];
    }
    if decision == Allow {
      assert q in after.permissions && after.permissions[q].decision == Some(Allow);
    }
  }

  /** A call that is claimed and not answered. */
  predicate Held(p: Projection, r: Id, c: Id) {
    r in p.queue.runs && c in p.queue.runs[r].toolCalls
    && p.queue.runs[r].toolCalls[c].executionId.Some? && p.queue.runs[r].toolCalls[c].result.None?
  }

  function Written(p: Projection, w: Writer): seq<SemanticEvent> {
    match w
    case QueueRun(r, retryOf, provider, model, request) =>
      [RunEv(RunQueued(r, retryOf, provider, model, request))] + (if retryOf.Some? && p.queue.paused then [QueueResumed] else [])
    case ResumeQueue => if p.queue.paused then [QueueResumed] else []
    case EndRun(e) => if e.RunCancelled? || e.RunInterrupted? || e.RunFailed? then [RunEv(e)] else []
    case MovePhase(e) => if e.SessionPhaseChanged? || e.SessionInterrupted? then [SessionEv(e)] else []
    case StartRun(r, attemptId) => StartEvents(p.queue, r, attemptId)
    case InTurn(e) => if WrittenInTurn(e) then [e] else []
    case FinishRun(r, result, asking) => if result.JustCompleted? then AskEvents(p, r, asking) else Closing(p, r, result)
    case ResolveRequest(q, decision, scope, rule) => ResolveEvents(p, q, decision, scope, rule)
    case SubmitResult(r, c, result) => var s := Submit(p, r, c, result); if s.Recorded? then s.events else []
    case ClaimCall(r, c, x) => if NativeClaims.Eligible(p, r, c) then [NativeClaims.ClaimEvent(r, c, x)] else []
    case ReportCall(r, c, result) =>
      if Held(p, r, c) then
        [ToolEv(ToolResult(r, c, p.queue.runs[r].toolCalls[c].agentId, p.queue.runs[r].toolCalls[c].toolName, result))]
      else []
    case ResumeReady(r) =>
      if r in p.queue.runs && p.queue.runs[r].status == RequiresAction && AllResults(p.queue.runs[r]) then [QueueResumed] else []
  }

  /** A retry goes first: after it is queued the queue is open, and whatever run is then the one to start is one that waited for
      its results, or a retry. */
  lemma RetryGoesFirst(s: Id, log: seq<SemanticEvent>, r: Id, retried: Id, provider: string, model: string, request: Json, x: Id, maxTurns: nat)
    requires Accepted(s, log)
    ensures var after := log + Written(Fold(s, log).value, QueueRun(r, Some(retried), provider, model, request));
            && (Accepted(s, after) <==> r !in Fold(s, log).value.queue.runs)
            && (Accepted(s, after) ==>
                  var q := Fold(s, after).value.queue;
                  && !q.paused && r in q.runs && q.runs[r].status == Queued && q.runs[r].retryOf == Some(retried)
                  && (Worker.Chosen(q, x, maxTurns) ==> q.runs[x].status == RequiresAction || q.runs[x].retryOf.Some?))
  {
    var p := Fold(s, log).value;
    var batch := Written(p, QueueRun(r, Some(retried), provider, model, request));
    var after := log + batch;
    ReplayAppend(New(s), 1, log, batch);
    RetryReplay(p, |log| + 1, r, retried, provider, model, request);
    hide Replay, Written, Session.Step;
    if Accepted(s, after) && Worker.Chosen(Fold(s, after).value.queue, x, maxTurns) {
      Origins.RetriesFirst(s, after, r, x);
    }
  }

  lemma RetryReplay(p: Projection, n: EventId, r: Id, retried: Id, provider: string, model: string, request: Json)
    ensures var o := Replay(p, n, Written(p, QueueRun(r, Some(retried), provider, model, request)));
            && (o.Ok() <==> r !in p.queue.runs)
            && (o.Ok() ==> o.value.queue == Queue(p.queue.runs[r := NewRun(r, Some(retried), provider, model, request)], false))
  {
    var e := RunEv(RunQueued(r, Some(retried), provider, model, request));
    var batch := Written(p, QueueRun(r, Some(retried), provider, model, request));
    ReplayOne(p, n, e);
    if p.queue.paused {
      assert batch == [e] + [QueueResumed];
      ReplayAppend(p, n, [e], [QueueResumed]);
      ReplayOne(Session.Step(p, n, e).value, n + 1, QueueResumed);
    } else {
      assert batch == [e];
    }
  }

  // ---------------------------------------------------------------- the system

  function View(sys: System, s: Id): Projection
    requires s in sys.logs
  {
    Fold(s, sys.logs[s]).value
  }

  /** What a writer has read: the projection after the first `seen` events. Others may have appended since. */
  function Reading(sys: System, s: Id, seen: nat): Projection
    requires s in sys.logs && seen <= |sys.logs[s]|
  {
    Fold(s, sys.logs[s][..seen]).value
  }

  /** A batch is appended if it is accepted. */
  function Grow(sys: System, s: Id, batch: seq<SemanticEvent>): System
    requires s in sys.logs
  {
    if Accepted(s, sys.logs[s] + batch) then sys.(logs := sys.logs[s := sys.logs[s] + batch]) else sys
  }

  /** The child's session starts with its agent and the context; then come the message that holds the context and the
      run it is given. */
  predicate DoDelegate(sys: System, s: Id, seen: nat, r: Id, c: Id, child: Id, x: Spawn, sys': System) {
    && s in sys.logs && seen <= |sys.logs[s]| && child !in sys.logs && Held(Reading(sys, s, seen), r, c)
    && (forall i :: 0 <= i < |x.opening| ==> x.opening[i].MessageEv? || (x.opening[i].RunEv? && x.opening[i].run.RunQueued?))
    && (var spawned := AgentEv(AgentSpawned(x.link.instanceId, Some(x.agent), Some(x.link), None));
        var captured := AgentEv(AgentContextCaptured(x.link.instanceId, x.references));
        var log := [SessionEv(SessionCreated(x.title)), spawned, captured] + x.opening;
        var more := Grow(sys, s, [spawned]);
        && Accepted(child, log)
        && sys' == System(more.logs[child := log], more.links[child := Child(s, r, c, x.link.instanceId, x.link.childRun)]))
  }

  /** The child is told first, and the parent only if that was accepted. */
  predicate DoDeliver(sys: System, child: Id, seenChild: nat, seenParent: nat, result: AgentResult, value: Json, sys': System) {
    && child in sys.logs && child in sys.links && sys.links[child].parent in sys.logs && seenChild <= |sys.logs[child]|
    && (var l := sys.links[child];
        var report := Delegation.ChildReport(Reading(sys, child, seenChild), l.instance, result);
        var told := Grow(sys, child, report);
        if !Accepted(child, sys.logs[child] + report) then sys' == sys
        else
          && seenParent <= |told.logs[l.parent]|
          && sys' == Grow(told, l.parent,
               Delegation.Delivery(Reading(told, l.parent, seenParent), l.instance, l.run, l.call, result, value)))
  }

  /** A writer appends what it makes of what it has read. Only a worker starts runs, and it holds the session's lock from
      its reading to the start, so nobody else has started one in between (`SessionLocks.LogsAreNumbered`). */
  predicate DoWrite(sys: System, s: Id, seen: nat, w: Writer, sys': System) {
    && s in sys.logs && seen <= |sys.logs[s]|
    && (w.StartRun? ==> NoneStarted(sys.logs[s][seen..]))
    && sys' == Grow(sys, s, Written(Reading(sys, s, seen), w))
  }

  predicate NoneStarted(log: seq<SemanticEvent>) { forall i :: 0 <= i < |log| ==> !(log[i].RunEv? && log[i].run.RunStarted?) }

  predicate Next(sys: System, step: Step, sys': System) {
    match step
    case Create(s, title) => s !in sys.logs && sys' == sys.(logs := sys.logs[s := [SessionEv(SessionCreated(title))]])
    case Fork(s, parent, at) =>
      && s !in sys.logs && parent in sys.logs && 1 <= at <= |sys.logs[parent]|
      && (var prefix := sys.logs[parent][..at];
          sys' == sys.(logs := sys.logs[s := prefix + ForkEvents(parent, at, Fold(parent, prefix).value)]))
    case Write(s, seen, w) => DoWrite(sys, s, seen, w, sys')
    case Delegate(s, seen, r, c, child, spawn) => DoDelegate(sys, s, seen, r, c, child, spawn, sys')
    case Deliver(child, seenChild, seenParent, result, value) => DoDeliver(sys, child, seenChild, seenParent, result, value, sys')
  }

  /** A turn's report is what is left of its result once the usage is attached. */
  ghost predicate ReportedByTurn(step: Step) {
    step.Write? && step.writer.FinishRun? ==> exists raw, usage :: step.writer.outcome == Reported(raw, usage)
  }

  lemma TurnsReportUsage(step: Step)
    requires step.Write? && step.writer.FinishRun?
    ensures ReportedByTurn(step) <==> !step.writer.outcome.JustCompleted?
  {
    var result := step.writer.outcome;
    assert !result.JustCompleted? ==> result == Reported(result, None);
  }

  // ---------------------------------------------------------------- nothing is managed

  /** Requests and decisions, claims and results, and everything about agents. */
  predicate Managed(e: SemanticEvent) { e.PermissionEv? || e.AgentEv? || (e.ToolEv? && !e.tool.ToolCallEmitted?) }

  predicate Unmanaged(log: seq<SemanticEvent>) { forall i :: 0 <= i < |log| ==> !Managed(log[i]) }

  /** A run that was started is no longer queued, and no log starts a run twice. */
  predicate StartsRun(e: SemanticEvent, r: Id) { e.RunEv? && e.run.RunStarted? && e.run.runId == r }

  predicate StartedOnce(log: seq<SemanticEvent>) {
    forall i, j :: 0 <= i < j < |log| && log[i].RunEv? && log[i].run.RunStarted? ==> !StartsRun(log[j], log[i].run.runId)
  }

  predicate Started(q: Queue, log: seq<SemanticEvent>) {
    forall i :: 0 <= i < |log| && log[i].RunEv? && log[i].run.RunStarted? ==>
      log[i].run.runId in q.runs && q.runs[log[i].run.runId].status != Queued
  }

  /** Nobody was asked, and no call was claimed or answered. */
  predicate Bare(p: Projection) {
    && p.permissions == map[] && p.agents.instances == map[]
    && (forall r, c :: r in p.queue.runs && c in p.queue.runs[r].toolCalls ==>
          p.queue.runs[r].toolCalls[c].result.None? && p.queue.runs[r].toolCalls[c].executionId.None?)
  }

  lemma StepBare(p: Projection, id: EventId, e: SemanticEvent)
    requires Bare(p) && !Managed(e)
    ensures Bare(Session.Step(p, id, e).value)
  {
    if e.RunEv? {
      RunEventMeaning(p.queue, e.run);
      var q := StepRun(p.queue, e.run).value;
      if StepRun(p.queue, e.run).Ok() && !e.run.RunQueued? {
        assert q.runs[e.run.runId].toolCalls == p.queue.runs[e.run.runId].toolCalls;
      }
      hide StepRun;
    }
  }

  lemma {:induction false} ReplayBare(p: Projection, first: EventId, log: seq<SemanticEvent>)
    requires Bare(p) && Unmanaged(log)
    ensures Bare(Replay(p, first, log).value)
    decreases |log|
  {
    if log != [] {
      var n := |log| - 1;
      ReplayBare(p, first, log[..n]);
      hide Session.Step, Bare;
      StepBare(Replay(p, first, log[..n]).value, first + n, log[n]);
    }
  }

  lemma StepStarted(p: Projection, id: EventId, e: SemanticEvent, r: Id)
    requires Session.Step(p, id, e).Ok()
    ensures var q := Session.Step(p, id, e).value.queue;
            && (r in p.queue.runs && p.queue.runs[r].status != Queued ==> r in q.runs && q.runs[r].status != Queued)
            && (StartsRun(e, r) ==> r in q.runs && q.runs[r].status != Queued)
  {
    if e.RunEv? {
      RunEventMeaning(p.queue, e.run);
      hide StepRun;
    }
  }

  lemma {:induction false} FoldStarted(s: Id, log: seq<SemanticEvent>)
    requires Accepted(s, log)
    ensures Started(Fold(s, log).value.queue, log)
    decreases |log|
  {
    if log != [] {
      var n := |log| - 1;
      PrefixAccepted(s, log, n);
      FoldStarted(s, log[..n]);
      var p := Fold(s, log[..n]).value;
      hide Session.Step;
      forall i | 0 <= i < |log| && log[i].RunEv? && log[i].run.RunStarted?
        ensures log[i].run.runId in Fold(s, log).value.queue.runs && Fold(s, log).value.queue.runs[log[i].run.runId].status != Queued
      {
        StepStarted(p, 1 + n, log[n], log[i].run.runId);
        assert i < n ==> log[i] == log[..n][i];
      }
    }
  }

  /** What is true of a log that nothing managed has reached. */
  predicate Untouched(s: Id, log: seq<SemanticEvent>) { Accepted(s, log) && Unmanaged(log) && StartedOnce(log) }

  lemma LogBare(s: Id, log: seq<SemanticEvent>)
    requires Unmanaged(log)
    ensures Bare(Fold(s, log).value)
  {
    ReplayBare(New(s), 1, log);
  }

  /** No run waits with all its results, and no submission, claim or delegation is taken. */
  lemma BareMeaning(p: Projection)
    requires Bare(p)
    ensures ReadyRuns(p.queue.runs) == {} && ReadyActionRun(p.queue).None?
    ensures forall r, c, result :: !Submit(p, r, c, result).Recorded?
    ensures forall r, c :: !NativeClaims.Eligible(p, r, c) && !Held(p, r, c)
    ensures forall q, decision, scope, rule :: ResolveEvents(p, q, decision, scope, rule) == []
  {
    hide OwnsTranscript;
    forall r | r in p.queue.runs && p.queue.runs[r].toolCalls != map[] ensures !AllResults(p.queue.runs[r]) {
      var c :| c in p.queue.runs[r].toolCalls;
      assert p.queue.runs[r].toolCalls[c].result.None?;
    }
    forall r, c ensures DecisionFor(p, r, c).None? {
    }
  }

  /** What the writers can still append: nothing managed, and a start only of a run that is queued. */
  lemma WrittenBare(p: Projection, w: Writer)
    requires Bare(p) && !(w.FinishRun? && w.outcome.JustCompleted?)
    ensures Unmanaged(Written(p, w))
    ensures StartedOnce(Written(p, w))
    ensures forall i :: 0 <= i < |Written(p, w)| && Written(p, w)[i].RunEv? && Written(p, w)[i].run.RunStarted? ==>
              && w.StartRun?
              && Written(p, w)[i].run.runId in p.queue.runs && p.queue.runs[Written(p, w)[i].run.runId].status == Queued
  {
    BareMeaning(p);
    hide Submit, NativeClaims.Eligible, Held, ResolveEvents, LastWith, Bare, AskEvents, ReadyRuns;
  }

  lemma GrowUntouched(s: Id, log: seq<SemanticEvent>, seen: nat, batch: seq<SemanticEvent>)
    requires Untouched(s, log) && seen <= |log| && Accepted(s, log + batch) && Unmanaged(batch) && StartedOnce(batch)
    requires NoneStarted(batch) || NoneStarted(log[seen..])
    requires var q := Fold(s, log[..seen]).value.queue;
             forall i :: 0 <= i < |batch| && batch[i].RunEv? && batch[i].run.RunStarted? ==>
               batch[i].run.runId in q.runs && q.runs[batch[i].run.runId].status == Queued
    ensures Untouched(s, log + batch)
  {
    PrefixAccepted(s, log, seen);
    FoldStarted(s, log[..seen]);
    hide Fold;
    var all := log + batch;
    forall i, j | 0 <= i < j < |all| && all[i].RunEv? && all[i].run.RunStarted?
      ensures !StartsRun(all[j], all[i].run.runId)
    {
      if i >= |log| {
        assert all[i] == batch[i - |log|] && all[j] == batch[j - |log|];
      } else if j >= |log| {
        assert all[j] == batch[j - |log|];
        if i >= seen {
          assert log[seen..][i - seen] == all[i];
        } else {
          assert log[..seen][i] == all[i];
        }
      }
    }
  }

  lemma ForkUntouched(parent: Id, log: seq<SemanticEvent>, at: nat, s: Id)
    requires Untouched(parent, log) && 1 <= at <= |log|
    ensures Untouched(s, log[..at] + ForkEvents(parent, at, Fold(parent, log[..at]).value))
  {
    BranchFolds(parent, log, at, s);
    hide Fold;
  }

  /** No session has been touched, and nothing was delegated. */
  predicate Inv(sys: System) { sys.links == map[] && forall s :: s in sys.logs ==> Untouched(s, sys.logs[s]) }

  lemma CreateUntouched(s: Id, title: Option<string>)
    ensures Untouched(s, [SessionEv(SessionCreated(title))])
  {
    ReplayOne(New(s), 1, SessionEv(SessionCreated(title)));
  }

  lemma PrefixUnmanaged(log: seq<SemanticEvent>, n: nat)
    requires Unmanaged(log) && n <= |log|
    ensures Unmanaged(log[..n])
  {
  }

  lemma WriteUntouched(sys: System, s: Id, seen: nat, w: Writer)
    requires s in sys.logs && seen <= |sys.logs[s]| && Untouched(s, sys.logs[s])
    requires w.StartRun? ==> NoneStarted(sys.logs[s][seen..])
    requires !(w.FinishRun? && w.outcome.JustCompleted?)
    ensures Untouched(s, Grow(sys, s, Written(Reading(sys, s, seen), w)).logs[s])
  {
    hide Fold, Written, Bare;
    PrefixUnmanaged(sys.logs[s], seen);
    LogBare(s, sys.logs[s][..seen]);
    WrittenBare(Reading(sys, s, seen), w);
    var batch := Written(Reading(sys, s, seen), w);
    if Accepted(s, sys.logs[s] + batch) {
      GrowUntouched(s, sys.logs[s], seen, batch);
    }
  }

  lemma StepKeepsInv(sys: System, step: Step, sys': System)
    requires Inv(sys) && Next(sys, step, sys') && ReportedByTurn(step)
    ensures Inv(sys')
  {
    hide Fold, Written, ForkEvents, Bare, Unmanaged, StartedOnce, Managed, Held;
    match step {
      case Create(s, title) => CreateUntouched(s, title);
      case Fork(s, parent, at) => ForkUntouched(parent, sys.logs[parent], at, s);
      case Write(s, seen, w) =>
        if w.FinishRun? {
          TurnsReportUsage(step);
        }
        WriteUntouched(sys, s, seen, w);
      case Delegate(s, seen, r, c, child, spawn) =>
        PrefixUnmanaged(sys.logs[s], seen);
        LogBare(s, sys.logs[s][..seen]);
        BareMeaning(Reading(sys, s, seen));
      case Deliver(child, seenChild, seenParent, result, value) =>
    }
  }

  // ---------------------------------------------------------------- runs of the system

  ghost predicate Trace(states: seq<System>, steps: seq<Step>) {
    && |states| == |steps| + 1
    && states[0] == System(map[], map[])
    && forall i :: 0 <= i < |steps| ==> Next(states[i], steps[i], states[i + 1]) && ReportedByTurn(steps[i])
  }

  lemma {:induction false} TraceKeepsInv(states: seq<System>, steps: seq<Step>, i: nat)
    requires Trace(states, steps) && i <= |steps|
    ensures Inv(states[i])
    decreases i
  {
    if i > 0 {
      TraceKeepsInv(states, steps, i - 1);
      assert Next(states[i - 1], steps[i - 1], states[i - 1 + 1]) && ReportedByTurn(steps[i - 1]);
      hide Next, Inv, ReportedByTurn;
      StepKeepsInv(states[i - 1], steps[i - 1], states[i]);
    }
  }

  /** Main result: in no session of no run of the server is a permission asked for or decided, a tool call claimed or
      answered, or a child delegated; no run is ever ready to be continued, so none is started twice. */
  lemma NothingIsManaged(states: seq<System>, steps: seq<Step>, i: nat, s: Id)
    requires Trace(states, steps) && i <= |steps| && s in states[i].logs
    ensures Accepted(s, states[i].logs[s]) && Unmanaged(states[i].logs[s]) && StartedOnce(states[i].logs[s])
    ensures Bare(View(states[i], s)) && ReadyActionRun(View(states[i], s).queue).None?
    ensures states[i].links == map[]
    ensures forall r, c, result :: !Submit(View(states[i], s), r, c, result).Recorded?
  {
    hide Submit, Bare, Unmanaged, StartedOnce, Fold;
    TraceKeepsInv(states, steps, i);
    LogBare(s, states[i].logs[s]);
    BareMeaning(View(states[i], s));
  }

  // ---------------------------------------------------------------- exactly one thing is missing

  /** If a turn did report a completion without usage, its open calls would be asked about: on a running run with an open
      call, with new request ids, the events are accepted and there is a request for every open call. */
  lemma AskingWouldWork(p: Projection, n: nat, r: Id, asking: Asking)
    requires r in p.queue.runs && p.queue.runs[r].status == RunRunning
    requires forall c :: c in p.queue.runs[r].toolCalls ==> p.queue.runs[r].toolCalls[c].callId == c
    requires var open := Permissions.OpenCalls(p.queue.runs[r].toolCalls);
             open != [] && |open| == |asking.ids| == |asking.found|
    requires Distinct(asking.ids) && forall x :: x in asking.ids ==> x !in p.permissions
    ensures var open := Permissions.OpenCalls(p.queue.runs[r].toolCalls);
            var items := Permissions.Items(open, asking.ids, asking.found, asking.configured, asking.ceiling);
            var head := [RunEv(RunRequiresAction(r, CallIds(open)))] + Permissions.Batch(r, asking.agentId, items);
            && AskEvents(p, r, asking) == head + Closing(p, r, NeedsAction)
            && Replay(p, n, head).Ok()
            && (forall x :: x in asking.ids ==> x in Replay(p, n, head).value.permissions)
  {
    hide Permissions.OpenCalls, Permissions.Items, Permissions.Batch, Permissions.After, Closing;
    var open := Permissions.OpenCalls(p.queue.runs[r].toolCalls);
    var items := Permissions.Items(open, asking.ids, asking.found, asking.configured, asking.ceiling);
    Permissions.ItemsAre(open, asking.ids, asking.found, asking.configured, asking.ceiling);
    var e := RunEv(RunRequiresAction(r, CallIds(open)));
    hide CallIds;
    var q := Session.Step(p, n, e).value;
    ReplayOne(p, n, e);
    assert Session.Step(p, n, e).Ok() && q.permissions == p.permissions && r in q.queue.runs
           && q.queue.runs[r].toolCalls == p.queue.runs[r].toolCalls;
    hide Session.Step;
    Permissions.OpenCallsFit(q, r, asking.ids, asking.found, asking.configured, asking.ceiling);
    Permissions.BatchAccepted(q, n + 1, r, asking.agentId, items);
    Permissions.AfterMeaning(q, r, asking.agentId, items);
    ReplayAppend(p, n, [e], Permissions.Batch(r, asking.agentId, items));
  }

  // ---------------------------------------------------------------- a call left behind

  /** A run is queued and started, and the model calls a tool. */
  function CallingLog(): seq<SemanticEvent> {
    Recovery.ContinuedLog()[..5]
  }

  const CALLED_RUN := Recovery.STARTED_RUN.(toolCalls := map["c" := Recovery.OPEN_CALL])

  function Called(s: Id): Projection { Recovery.Stage(s, Running, 1, 5, CALLED_RUN, false, map[]) }

  lemma CallingFolds(s: Id)
    ensures Fold(s, CallingLog()) == Outcome(Called(s), None)
  {
    var log := Recovery.ContinuedLog();
    var p := Recovery.Stage(s, Running, 1, 3, Recovery.QUEUED_RUN, false, map[]);
    var q := Recovery.Stage(s, Running, 1, 4, Recovery.STARTED_RUN, false, map[]);
    Recovery.FirstStage(s);
    Recovery.OneRun(Recovery.QUEUED_RUN, Recovery.STARTED_RUN);
    Recovery.OneRun(Recovery.STARTED_RUN, CALLED_RUN);
    ReplayOne(p, 4, log[3]);
    ReplayOne(q, 5, log[4]);
    assert map[]["c" := Recovery.OPEN_CALL] == map["c" := Recovery.OPEN_CALL];
    assert CallingLog() == log[..3] + ([log[3]] + [log[4]]);
    hide Session.Step;
    ReplayAppend(p, 4, [log[3]], [log[4]]);
    ReplayAppend(New(s), 1, log[..3], [log[3]] + [log[4]]);
  }

  /** The turn then completes. Its run is closed with the call open, and no client can ever answer it. */
  lemma StrandedCall(s: Id, asking: Asking)
    ensures Accepted(s, CallingLog())
    ensures var p := Fold(s, CallingLog()).value;
            var last := Written(p, FinishRun("r", Reported(JustCompleted, None), asking));
            var o := Fold(s, CallingLog() + last);
            && last == [RunEv(RunCompleted("r", None))] && o.Ok()
            && "r" in o.value.queue.runs && o.value.queue.runs["r"].status == Completed
            && "c" in o.value.queue.runs["r"].toolCalls && o.value.queue.runs["r"].toolCalls["c"].result.None?
            && forall result :: Submit(o.value, "r", "c", result) == NotAwaiting
  {
    CallingFolds(s);
    hide CallingLog, Fold;
    var last := RunEv(RunCompleted("r", None));
    assert Fold(s, CallingLog() + [last]) == Session.Step(Called(s), 6, last) by {
      assert |CallingLog()| == 5 by { CallingLength(); }
      CallingFolds(s);
      Worker.AppendOne(s, CallingLog(), last);
    }
    assert Written(Called(s), FinishRun("r", Reported(JustCompleted, None), asking)) == [last];
    RunEventMeaning(Called(s).queue, last.run);
  }

  lemma CallingLength()
    ensures |CallingLog()| == 5
  {
  }
}
