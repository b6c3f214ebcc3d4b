/** What a projection says, read straight off the log. Each query below scans the events and never replays
    them, and for every accepted log it gives exactly what the projection holds. */
module Ledger {
  import opened Prelude
  import opened Events
  import opened Session
  import opened History

  // ---------------------------------------------------------------- accessors on a projection

  function ClaimOf(q: Queue, runId: Id, callId: Id): Option<Id> {
    if runId in q.runs && callId in q.runs[runId].toolCalls then q.runs[runId].toolCalls[callId].executionId else None
  }

  function ResultOf(q: Queue, runId: Id, callId: Id): Option<Json> {
    if runId in q.runs && callId in q.runs[runId].toolCalls then q.runs[runId].toolCalls[callId].result else None
  }

  function DecisionOf(ps: map<Id, Permission>, requestId: Id): Option<PermissionDecision> {
    if requestId in ps then ps[requestId].decision else None
  }

  function StatusOf(q: Queue, runId: Id): Option<RunStatus> {
    if runId in q.runs then Some(q.runs[runId].status) else None
  }

  function AgentResultOf(a: Agents, agentId: Id): Option<AgentResult> {
    if agentId in a.instances then a.instances[agentId].result else None
  }

  // ---------------------------------------------------------------- queries on a log

  predicate SaysClaim(e: SemanticEvent, runId: Id, callId: Id, x: Id) {
    e == ToolEv(ToolExecutionStarted(runId, callId, x))
  }

  predicate SaysResult(e: SemanticEvent, runId: Id, callId: Id, v: Json) {
    e.ToolEv? && e.tool.ToolResult? && e.tool.runId == runId && e.tool.callId == callId && e.tool.result == v
  }

  predicate SaysDecision(e: SemanticEvent, requestId: Id, d: PermissionDecision) {
    e.PermissionEv? && e.permission.PermissionResolved? && e.permission.requestId == requestId && e.permission.decision == d
  }

  predicate SaysAgentResult(e: SemanticEvent, agentId: Id, r: AgentResult) {
    && e.AgentEv?
    && e.agent.agentId == agentId
    && ((e.agent.AgentFinished? && e.agent.agentResult == Some(r)) || (e.agent.AgentResultDelivered? && e.agent.delivered == r))
  }

  /** The terminal status an event gives a run. */
  function Ending(e: SemanticEvent, runId: Id): Option<RunStatus> {
    if !e.RunEv? || e.run.runId != runId then None
    else match e.run
      case RunCompleted(_, _) => Some(Completed)
      case RunFailed(_, _) => Some(RunFailedStatus)
      case RunCancelled(_, _) => Some(Cancelled)
      case RunInterrupted(_, _) => Some(RunInterruptedStatus)
      case _ => None
  }

  /** The blocks appended to a message, in order. */
  function Transcript(log: seq<SemanticEvent>, messageId: Id): seq<ContentBlock> {
    if log == [] then []
    else
      var n := |log| - 1;
      Transcript(log[..n], messageId) +
      (if log[n].MessageEv? && log[n].message.MessageContentAppended? && log[n].message.messageId == messageId
       then [log[n].message.block] else [])
  }

  predicate ChangesPhase(e: SemanticEvent) {
    e.SessionEv? && !e.session.SessionCreated?
  }

  function PhaseChanges(log: seq<SemanticEvent>): nat {
    if log == [] then 0
    else PhaseChanges(log[..|log| - 1]) + (if ChangesPhase(log[|log| - 1]) then 1 else 0)
  }

  predicate Occurs(log: seq<SemanticEvent>, says: SemanticEvent -> bool) {
    exists i :: 0 <= i < |log| && says(log[i])
  }

  lemma OccursLast(log: seq<SemanticEvent>, says: SemanticEvent -> bool)
    requires log != []
    ensures Occurs(log, says) <==> Occurs(log[..|log| - 1], says) || says(log[|log| - 1])
  {
    var n := |log| - 1;
    if Occurs(log, says) && !says(log[n]) {
      var i :| 0 <= i < |log| && says(log[i]);
      assert log[..n][i] == log[i];
    }
    if Occurs(log[..n], says) {
      var i :| 0 <= i < n && says(log[..n][i]);
      assert says(log[i]);
    }
  }

  // ---------------------------------------------------------------- one step

  lemma ClaimStep(p: Projection, id: EventId, e: SemanticEvent, runId: Id, callId: Id)
    requires Step(p, id, e).Ok()
    ensures var before, after := ClaimOf(p.queue, runId, callId), ClaimOf(Step(p, id, e).value.queue, runId, callId);
            if e.ToolEv? && e.tool.ToolExecutionStarted? && e.tool.runId == runId && e.tool.callId == callId then
              && after == Some(e.tool.executionId)
              && (before.None? || before == after)
            else after == before
  {
    if e.RunEv? {
      RunEventMeaning(p.queue, e.run);
    }
  }

  lemma ResultStep(p: Projection, id: EventId, e: SemanticEvent, runId: Id, callId: Id)
    requires Step(p, id, e).Ok()
    ensures var before, after := ResultOf(p.queue, runId, callId), ResultOf(Step(p, id, e).value.queue, runId, callId);
            if e.ToolEv? && e.tool.ToolResult? && e.tool.runId == runId && e.tool.callId == callId then
              && after == Some(e.tool.result)
              && (before.None? || before == after)
            else after == before
  {
    if e.RunEv? {
      RunEventMeaning(p.queue, e.run);
    }
  }

  lemma StatusStep(p: Projection, id: EventId, e: SemanticEvent, runId: Id)
    requires Step(p, id, e).Ok()
    ensures var before, after := StatusOf(p.queue, runId), StatusOf(Step(p, id, e).value.queue, runId);
            && (Ending(e, runId).Some? ==> after == Ending(e, runId) && before.Some? && !Terminal(before.value))
            && (Ending(e, runId).None? && after.Some? && Terminal(after.value) ==> before == after)
            && (before.Some? && Terminal(before.value) ==> after == before)
  {
    if e.RunEv? {
      RunEventMeaning(p.queue, e.run);
    }
  }

  // ---------------------------------------------------------------- whole logs

  lemma FoldLast(sessionId: Id, log: seq<SemanticEvent>)
    requires Accepted(sessionId, log) && log != []
    ensures var n := |log| - 1;
            && Accepted(sessionId, log[..n])
            && Step(Fold(sessionId, log[..n]).value, n + 1, log[n]) == Fold(sessionId, log)
  {
    var n := |log| - 1;
    assert Fold(sessionId, log) == Step(Fold(sessionId, log[..n]).value, 1 + n, log[n]);
  }

  /** A call is claimed with execution `x` exactly when that claim is in the log. */
  lemma {:induction false} ClaimRecorded(sessionId: Id, log: seq<SemanticEvent>, runId: Id, callId: Id, x: Id)
    requires Accepted(sessionId, log)
    ensures ClaimOf(Fold(sessionId, log).value.queue, runId, callId) == Some(x) <==>
            Occurs(log, e => SaysClaim(e, runId, callId, x))
  {
    if log != [] {
      var n := |log| - 1;
      FoldLast(sessionId, log);
      ClaimRecorded(sessionId, log[..n], runId, callId, x);
      OccursLast(log, e => SaysClaim(e, runId, callId, x));
      ClaimStep(Fold(sessionId, log[..n]).value, n + 1, log[n], runId, callId);
    }
  }

  /** A call has result `v` exactly when the log records it: results are written once. */
  lemma {:induction false} ResultRecorded(sessionId: Id, log: seq<SemanticEvent>, runId: Id, callId: Id, v: Json)
    requires Accepted(sessionId, log)
    ensures ResultOf(Fold(sessionId, log).value.queue, runId, callId) == Some(v) <==>
            Occurs(log, e => SaysResult(e, runId, callId, v))
  {
    if log != [] {
      var n := |log| - 1;
      FoldLast(sessionId, log);
      ResultRecorded(sessionId, log[..n], runId, callId, v);
      OccursLast(log, e => SaysResult(e, runId, callId, v));
      ResultStep(Fold(sessionId, log[..n]).value, n + 1, log[n], runId, callId);
    }
  }

  /** A request is decided `d` exactly when the log records that decision. */
  lemma {:induction false} DecisionRecorded(sessionId: Id, log: seq<SemanticEvent>, requestId: Id, d: PermissionDecision)
    requires Accepted(sessionId, log)
    ensures DecisionOf(Fold(sessionId, log).value.permissions, requestId) == Some(d) <==>
            Occurs(log, e => SaysDecision(e, requestId, d))
  {
    if log != [] {
      var n := |log| - 1;
      FoldLast(sessionId, log);
      DecisionRecorded(sessionId, log[..n], requestId, d);
      OccursLast(log, e => SaysDecision(e, requestId, d));
    }
  }

  /** An agent's result is the one the log reports, by either of the two events that carry one. */
  lemma {:induction false} AgentResultRecorded(sessionId: Id, log: seq<SemanticEvent>, agentId: Id, r: AgentResult)
    requires Accepted(sessionId, log)
    ensures AgentResultOf(Fold(sessionId, log).value.agents, agentId) == Some(r) <==>
            Occurs(log, e => SaysAgentResult(e, agentId, r))
  {
    if log != [] {
      var n := |log| - 1;
      FoldLast(sessionId, log);
      FoldSound(sessionId, log[..n]);
      AgentResultRecorded(sessionId, log[..n], agentId, r);
      AgentResultStep(Fold(sessionId, log[..n]).value, n, log[n], agentId);
      OccursLast(log, e => SaysAgentResult(e, agentId, r));
      hide Step, Fold, Sound;
    }
  }

  /** The result an event reports for an agent. */
  function ReportedResult(e: SemanticEvent, agentId: Id): Option<AgentResult> {
    if !e.AgentEv? || e.agent.agentId != agentId then None
    else if e.agent.AgentFinished? then e.agent.agentResult
    else if e.agent.AgentResultDelivered? then Some(e.agent.delivered)
    else None
  }

  lemma AgentResultStep(p: Projection, n: nat, e: SemanticEvent, agentId: Id)
    requires Sound(p, n) && Step(p, n + 1, e).Ok()
    ensures var before, after := AgentResultOf(p.agents, agentId), AgentResultOf(Step(p, n + 1, e).value.agents, agentId);
            if ReportedResult(e, agentId).Some? then after == ReportedResult(e, agentId) && (before.None? || before == after)
            else after == before
  {
    hide MessagesSound, RunsSound, FactsSound, StepMessages, StepRun, StepTool, StepPermissions;
  }

  /** A run has a terminal status exactly when the log ends it that way, and nothing ends it twice. */
  lemma {:induction false} StatusRecorded(sessionId: Id, log: seq<SemanticEvent>, runId: Id, s: RunStatus)
    requires Accepted(sessionId, log) && Terminal(s)
    ensures StatusOf(Fold(sessionId, log).value.queue, runId) == Some(s) <==>
            Occurs(log, e => Ending(e, runId) == Some(s))
    ensures forall i, j :: 0 <= i < j < |log| ==> Ending(log[i], runId).None? || Ending(log[j], runId).None?
  {
    if log != [] {
      var n := |log| - 1;
      FoldLast(sessionId, log);
      StatusRecorded(sessionId, log[..n], runId, s);
      OccursLast(log, e => Ending(e, runId) == Some(s));
      StatusStep(Fold(sessionId, log[..n]).value, n + 1, log[n], runId);
      forall i, j | 0 <= i < j < |log| ensures Ending(log[i], runId).None? || Ending(log[j], runId).None? {
        if j < n {
          assert log[i] == log[..n][i] && log[j] == log[..n][j];
        } else if Ending(log[i], runId).Some? {
          var t := Ending(log[i], runId).value;
          StatusRecorded(sessionId, log[..n], runId, t);
          assert log[..n][i] == log[i];
          assert Occurs(log[..n], e => Ending(e, runId) == Some(t));
        }
      }
    }
  }

  /** What an accepted event does to a message that is already there. */
  function MessageEffect(m: Message, id: EventId, e: SemanticEvent): Message {
    if !e.MessageEv? || e.message.messageId != m.messageId then m
    else match e.message
      case MessageStarted(_, _, _, _) => m
      case MessageContentAppended(_, block) => m.(blocks := m.blocks + [block], lastEventId := id)
      case MessageCompleted(_) => m.(completed := true, lastEventId := id)
      case MessageInterrupted(_) => m.(interrupted := true, lastEventId := id)
  }

  lemma MessageStep(p: Projection, n: nat, e: SemanticEvent, i: nat)
    requires Sound(p, n) && Step(p, n + 1, e).Ok()
    requires i < |Step(p, n + 1, e).value.messages|
    ensures i < |p.messages| ==> Step(p, n + 1, e).value.messages[i] == MessageEffect(p.messages[i], n + 1, e)
    ensures i >= |p.messages| ==>
              && e.MessageEv? && e.message.MessageStarted?
              && !HasMessage(p.messages, e.message.messageId)
              && Step(p, n + 1, e).value.messages[i]
                 == NewMessage(e.message.messageId, e.message.agentId, e.message.role, e.message.author, n + 1)
  {
  }

  /** The blocks of a message, and the ways it is closed, are what the log says of its id. */
  predicate SaidOf(log: seq<SemanticEvent>, m: Message) {
    && m.blocks == Transcript(log, m.messageId)
    && (m.completed <==> Occurs(log, e => e == MessageEv(MessageCompleted(m.messageId))))
    && (m.interrupted <==> Occurs(log, e => e == MessageEv(MessageInterrupted(m.messageId))))
  }

  lemma SaidNext(log: seq<SemanticEvent>, m: Message, id: EventId)
    requires log != [] && SaidOf(log[..|log| - 1], m)
    ensures SaidOf(log, MessageEffect(m, id, log[|log| - 1]))
  {
    OccursLast(log, e => e == MessageEv(MessageCompleted(m.messageId)));
    OccursLast(log, e => e == MessageEv(MessageInterrupted(m.messageId)));
    hide Occurs;
  }

  /** A message holds exactly the blocks the log appends to it, and is closed the way the log closes it. */
  lemma {:induction false} MessageRecorded(sessionId: Id, log: seq<SemanticEvent>, i: nat)
    requires Accepted(sessionId, log)
    requires i < |Fold(sessionId, log).value.messages|
    ensures SaidOf(log, Fold(sessionId, log).value.messages[i])
  {
    LogNotEmpty(sessionId, log);
    hide Step, Sound, Replay, MessageEffect, SaidOf;
    var n := |log| - 1;
    var p, q := Fold(sessionId, log[..n]).value, Fold(sessionId, log).value;
    FoldLast(sessionId, log);
    FoldSound(sessionId, log[..n]);
    MessageStep(p, n, log[n], i);
    if i < |p.messages| {
      MessageRecorded(sessionId, log[..n], i);
      SaidNext(log, p.messages[i], n + 1);
    } else {
      assert Unknown(p.messages, q.messages[i].messageId);
      UnknownIsSilent(sessionId, log[..n], q.messages[i].messageId);
      StartedSilent(log, q.messages[i]);
    }
  }

  /** A message that was just started, and of which nothing was said before. */
  lemma StartedSilent(log: seq<SemanticEvent>, m: Message)
    requires log != [] && m.blocks == [] && !m.completed && !m.interrupted
    requires log[|log| - 1].MessageEv? && log[|log| - 1].message.MessageStarted?
    requires Transcript(log[..|log| - 1], m.messageId) == []
    requires !Occurs(log[..|log| - 1], e => e == MessageEv(MessageCompleted(m.messageId)))
    requires !Occurs(log[..|log| - 1], e => e == MessageEv(MessageInterrupted(m.messageId)))
    ensures SaidOf(log, m)
  {
    OccursLast(log, e => e == MessageEv(MessageCompleted(m.messageId)));
    OccursLast(log, e => e == MessageEv(MessageInterrupted(m.messageId)));
    hide Occurs;
  }

  lemma LogNotEmpty(sessionId: Id, log: seq<SemanticEvent>)
    requires Fold(sessionId, log).value.messages != []
    ensures log != []
  {
  }

  /** Nothing is said about a message before it is started. */
  lemma {:induction false} UnknownIsSilent(sessionId: Id, log: seq<SemanticEvent>, id: Id)
    requires Accepted(sessionId, log)
    requires Unknown(Fold(sessionId, log).value.messages, id)
    ensures Transcript(log, id) == []
    ensures !Occurs(log, e => e == MessageEv(MessageCompleted(id)))
    ensures !Occurs(log, e => e == MessageEv(MessageInterrupted(id)))
  {
    if log != [] {
      var n := |log| - 1;
      var p, q := Fold(sessionId, log[..n]).value, Fold(sessionId, log).value;
      FoldLast(sessionId, log);
      StillUnknown(p, n, log[n], id);
      hide Step, Fold;
      UnknownIsSilent(sessionId, log[..n], id);
      OccursLast(log, e => e == MessageEv(MessageCompleted(id)));
      OccursLast(log, e => e == MessageEv(MessageInterrupted(id)));
    }
  }

  predicate Unknown(ms: seq<Message>, id: Id) { forall j :: 0 <= j < |ms| ==> ms[j].messageId != id }

  lemma SpokenIsKnown(p: Projection, n: nat, e: SemanticEvent)
    requires Step(p, n + 1, e).Ok() && e.MessageEv?
    ensures !Unknown(Step(p, n + 1, e).value.messages, e.message.messageId)
  {
    var q := Step(p, n + 1, e).value;
    var i := IndexOf(p.messages, e.message.messageId);
    assert q.messages[i].messageId == e.message.messageId;
  }

  /** A message that is unknown after an event was unknown before it, and the event does not speak of it. */
  lemma StillUnknown(p: Projection, n: nat, e: SemanticEvent, id: Id)
    requires Step(p, n + 1, e).Ok() && Unknown(Step(p, n + 1, e).value.messages, id)
    ensures Unknown(p.messages, id)
    ensures e.MessageEv? ==> e.message.messageId != id
  {
    var q := Step(p, n + 1, e).value;
    forall j | 0 <= j < |p.messages| ensures p.messages[j].messageId != id {
      assert q.messages[j].messageId == p.messages[j].messageId;
    }
    if e.MessageEv? {
      SpokenIsKnown(p, n, e);
    }
  }

  /** The revision counts the events that move the phase. */
  lemma {:induction false} RevisionCountsPhaseChanges(sessionId: Id, log: seq<SemanticEvent>)
    requires Accepted(sessionId, log)
    ensures Fold(sessionId, log).value.state.revision == PhaseChanges(log)
    ensures Fold(sessionId, log).value.state.sessionId == sessionId
  {
    if log != [] {
      FoldLast(sessionId, log);
      RevisionCountsPhaseChanges(sessionId, log[..|log| - 1]);
    }
  }
}
