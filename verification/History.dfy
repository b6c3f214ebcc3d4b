/** History is never rewritten: what a later prefix of a log says extends what an earlier one said, and the
    recorded facts can be read off the log directly, without replaying it. */
module History {
  import opened Prelude
  import opened Events
  import opened Session

  // ---------------------------------------------------------------- what every accepted log keeps

  predicate MessagesSound(ms: seq<Message>, n: nat) {
    && (forall i :: 0 <= i < |ms| ==> 1 <= ms[i].firstEventId <= ms[i].lastEventId <= n)
    && (forall i :: 0 <= i < |ms| ==> !(ms[i].completed && ms[i].interrupted))
    && (forall i, j :: 0 <= i < j < |ms| ==> ms[i].messageId != ms[j].messageId)
    && (forall i, j :: 0 <= i < j < |ms| ==> ms[i].firstEventId < ms[j].firstEventId)
  }

  predicate RunsSound(runs: map<Id, Run>) {
    forall r :: r in runs ==> runs[r].runId == r && forall c :: c in runs[r].toolCalls ==> runs[r].toolCalls[c].callId == c
  }

  predicate FactsSound(facts: seq<ContextFact>) {
    forall i, j :: 0 <= i < j < |facts| ==> facts[i].factId != facts[j].factId
  }

  /** The projection of `n` events: identifiers are unique, keys match, no message is both completed and
      interrupted, spawned agents have a phase, and the last id is `n`. */
  predicate Sound(p: Projection, n: nat) {
    && p.state.lastEventId == (if n == 0 then None else Some(n))
    && MessagesSound(p.messages, n)
    && p.agents.instances.Keys <= p.agents.phases.Keys
    && (forall q :: q in p.permissions ==> p.permissions[q].requestId == q)
    && RunsSound(p.queue.runs)
    && FactsSound(p.context.durableFacts)
  }

  lemma StepMessagesSound(ms: seq<Message>, n: nat, e: MessageEvent)
    requires MessagesSound(ms, n) && StepMessages(ms, n + 1, e).Ok()
    ensures MessagesSound(StepMessages(ms, n + 1, e).value, n + 1)
  {
  }

  lemma StepRunSound(q: Queue, e: RunEvent)
    requires RunsSound(q.runs) && StepRun(q, e).Ok()
    ensures RunsSound(StepRun(q, e).value.runs)
  {
    RunEventMeaning(q, e);
  }

  lemma StepToolSound(q: Queue, e: ToolEvent)
    requires RunsSound(q.runs) && StepTool(q, e).Ok()
    ensures RunsSound(StepTool(q, e).value.runs)
  {
  }

  lemma StepSound(p: Projection, n: nat, e: SemanticEvent)
    requires Sound(p, n) && Step(p, n + 1, e).Ok()
    ensures Sound(Step(p, n + 1, e).value, n + 1)
  {
    if e.MessageEv? {
      StepMessagesSound(p.messages, n, e.message);
    } else if e.RunEv? {
      StepRunSound(p.queue, e.run);
    } else if e.ToolEv? {
      StepToolSound(p.queue, e.tool);
    }
  }

  lemma {:induction false} FoldSound(sessionId: Id, log: seq<SemanticEvent>)
    requires Accepted(sessionId, log)
    ensures Sound(Fold(sessionId, log).value, |log|)
  {
    if log != [] {
      var n := |log| - 1;
      FoldSound(sessionId, log[..n]);
      StepSound(Fold(sessionId, log[..n]).value, n, log[n]);
    }
  }

  // ---------------------------------------------------------------- the information order

  predicate MessageBelow(a: Message, b: Message) {
    && b.messageId == a.messageId && b.role == a.role && b.agentId == a.agentId && b.author == a.author
    && b.firstEventId == a.firstEventId
    && a.lastEventId <= b.lastEventId
    && a.blocks <= b.blocks
    && (a.Closed() ==> b == a)
  }

  predicate MessagesBelow(ms: seq<Message>, ns: seq<Message>) {
    && |ms| <= |ns|
    && (forall i :: 0 <= i < |ms| ==> MessageBelow(ms[i], ns[i]))
  }

  predicate CallBelow(a: ToolCall, b: ToolCall) {
    && b.(executionId := None, result := None) == a.(executionId := None, result := None)
    && (a.executionId.Some? ==> b.executionId == a.executionId)
    && (a.result.Some? ==> b.result == a.result)
  }

  predicate CallsBelow(m: map<Id, ToolCall>, n: map<Id, ToolCall>) {
    forall c :: c in m ==> c in n && CallBelow(m[c], n[c])
  }

  predicate StatusBelow(x: RunStatus, y: RunStatus) {
    x == y || (!Terminal(x) && y != Queued)
  }

  /** A finished run keeps its status, attempts and usage; only a late attempt error can still be noted on it. */
  predicate RunBelow(a: Run, b: Run) {
    && b.runId == a.runId && b.retryOf == a.retryOf && b.provider == a.provider && b.model == a.model
    && b.request == a.request && b.queuePriority == a.queuePriority
    && StatusBelow(a.status, b.status)
    && (Terminal(a.status) ==> b.attempts == a.attempts && b.attemptId == a.attemptId && b.usage == a.usage)
    && CallsBelow(a.toolCalls, b.toolCalls)
  }

  predicate RunsBelow(m: map<Id, Run>, n: map<Id, Run>) {
    forall r :: r in m ==> r in n && RunBelow(m[r], n[r])
  }

  predicate PermissionsBelow(m: map<Id, Permission>, n: map<Id, Permission>) {
    forall q :: q in m ==>
      && q in n
      && n[q].(decision := None) == m[q].(decision := None)
      && (m[q].decision.Some? ==> n[q].decision == m[q].decision)
  }

  predicate AgentBelow(a: Agent, b: Agent) {
    && b.(context := [], result := None) == a.(context := [], result := None)
    && (a.context != [] ==> b.context == a.context)
    && (a.result.Some? ==> b.result == a.result)
  }

  predicate AgentsBelow(m: Agents, n: Agents) {
    && m.phases.Keys <= n.phases.Keys
    && (forall a :: a in m.instances ==> a in n.instances && AgentBelow(m.instances[a], n.instances[a]))
  }

  /** `q` says everything `p` says. */
  predicate Below(p: Projection, q: Projection) {
    && q.state.sessionId == p.state.sessionId
    && p.state.revision <= q.state.revision
    && MessagesBelow(p.messages, q.messages)
    && AgentsBelow(p.agents, q.agents)
    && PermissionsBelow(p.permissions, q.permissions)
    && RunsBelow(p.queue.runs, q.queue.runs)
    && p.context.durableFacts <= q.context.durableFacts
  }

  lemma CallsTransitive(a: map<Id, ToolCall>, b: map<Id, ToolCall>, c: map<Id, ToolCall>)
    requires CallsBelow(a, b) && CallsBelow(b, c)
    ensures CallsBelow(a, c)
  {
    forall k | k in a ensures k in c && CallBelow(a[k], c[k]) {
      assert k in b && CallBelow(a[k], b[k]) && CallBelow(b[k], c[k]);
    }
  }

  lemma RunsTransitive(a: map<Id, Run>, b: map<Id, Run>, c: map<Id, Run>)
    requires RunsBelow(a, b) && RunsBelow(b, c)
    ensures RunsBelow(a, c)
  {
    forall r | r in a ensures r in c && RunBelow(a[r], c[r]) {
      assert r in b && RunBelow(a[r], b[r]) && RunBelow(b[r], c[r]);
      CallsTransitive(a[r].toolCalls, b[r].toolCalls, c[r].toolCalls);
    }
  }

  lemma MessagesTransitive(a: seq<Message>, b: seq<Message>, c: seq<Message>)
    requires MessagesBelow(a, b) && MessagesBelow(b, c)
    ensures MessagesBelow(a, c)
  {
    forall i | 0 <= i < |a| ensures MessageBelow(a[i], c[i]) {
      assert MessageBelow(a[i], b[i]) && MessageBelow(b[i], c[i]);
    }
  }

  lemma AgentsTransitive(a: Agents, b: Agents, c: Agents)
    requires AgentsBelow(a, b) && AgentsBelow(b, c)
    ensures AgentsBelow(a, c)
  {
    forall k | k in a.instances ensures k in c.instances && AgentBelow(a.instances[k], c.instances[k]) {
      assert k in b.instances && AgentBelow(a.instances[k], b.instances[k]);
    }
  }

  lemma PermissionsTransitive(a: map<Id, Permission>, b: map<Id, Permission>, c: map<Id, Permission>)
    requires PermissionsBelow(a, b) && PermissionsBelow(b, c)
    ensures PermissionsBelow(a, c)
  {
    forall q | q in a
      ensures q in c && c[q].(decision := None) == a[q].(decision := None)
      ensures a[q].decision.Some? ==> c[q].decision == a[q].decision
    {
      assert q in b;
    }
  }

  lemma BelowTransitive(a: Projection, b: Projection, c: Projection)
    requires Below(a, b) && Below(b, c)
    ensures Below(a, c)
  {
    MessagesTransitive(a.messages, b.messages, c.messages);
    AgentsTransitive(a.agents, b.agents, c.agents);
    PermissionsTransitive(a.permissions, b.permissions, c.permissions);
    RunsTransitive(a.queue.runs, b.queue.runs, c.queue.runs);
  }

  lemma StepMessagesBelow(ms: seq<Message>, n: nat, e: MessageEvent)
    requires MessagesSound(ms, n) && StepMessages(ms, n + 1, e).Ok()
    ensures MessagesBelow(ms, StepMessages(ms, n + 1, e).value)
  {
  }

  lemma StepRunBelow(q: Queue, e: RunEvent)
    requires StepRun(q, e).Ok()
    ensures RunsBelow(q.runs, StepRun(q, e).value.runs)
  {
    RunEventMeaning(q, e);
  }

  lemma StepToolBelow(q: Queue, e: ToolEvent)
    requires StepTool(q, e).Ok()
    ensures RunsBelow(q.runs, StepTool(q, e).value.runs)
  {
  }

  lemma StepAgentsBelow(a: Agents, e: AgentEvent)
    requires a.instances.Keys <= a.phases.Keys && StepAgents(a, e).Ok()
    ensures AgentsBelow(a, StepAgents(a, e).value)
  {
  }

  lemma BelowReflexive(p: Projection)
    ensures MessagesBelow(p.messages, p.messages) && RunsBelow(p.queue.runs, p.queue.runs)
    ensures AgentsBelow(p.agents, p.agents) && PermissionsBelow(p.permissions, p.permissions)
  {
  }

  lemma StepPermissionsBelow(ps: map<Id, Permission>, e: PermissionEvent)
    requires StepPermissions(ps, e).Ok()
    ensures PermissionsBelow(ps, StepPermissions(ps, e).value)
  {
  }

  lemma StepBelow(p: Projection, n: nat, e: SemanticEvent)
    requires Sound(p, n) && Step(p, n + 1, e).Ok()
    ensures Below(p, Step(p, n + 1, e).value)
  {
    hide StepMessages, StepRun, StepTool, StepAgents, StepPermissions, MessagesSound, RunsSound, FactsSound,
      MessagesBelow, RunsBelow, AgentsBelow, PermissionsBelow;
    BelowReflexive(p);
    if e.MessageEv? {
      StepMessagesBelow(p.messages, n, e.message);
    } else if e.RunEv? {
      StepRunBelow(p.queue, e.run);
    } else if e.ToolEv? {
      StepToolBelow(p.queue, e.tool);
    } else if e.AgentEv? {
      StepAgentsBelow(p.agents, e.agent);
    } else if e.PermissionEv? {
      StepPermissionsBelow(p.permissions, e.permission);
    }
  }

  /** Main result: an accepted log never takes back what one of its prefixes said. */
  lemma {:induction false} HistoryNeverRewritten(sessionId: Id, log: seq<SemanticEvent>, n: nat)
    requires Accepted(sessionId, log) && n <= |log|
    ensures Accepted(sessionId, log[..n])
    ensures Below(Fold(sessionId, log[..n]).value, Fold(sessionId, log).value)
    decreases |log|
  {
    if n == |log| {
      assert log[..n] == log;
    } else {
      var m := |log| - 1;
      HistoryNeverRewritten(sessionId, log[..m], n);
      assert log[..m][..n] == log[..n];
      FoldSound(sessionId, log[..m]);
      StepBelow(Fold(sessionId, log[..m]).value, m, log[m]);
      BelowTransitive(Fold(sessionId, log[..n]).value, Fold(sessionId, log[..m]).value, Fold(sessionId, log).value);
    }
  }
}
