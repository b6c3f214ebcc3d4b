/** Permission evaluation: what a run's open tool calls are allowed to do, and the batch that records it
    (`evaluate_tool_permissions` and `resolve_permission` in piqo-server/src/supervisor.rs, the rule lookup in
    piqo-server/src/storage.rs). */
module Permissions {
  import opened Prelude
  import opened Events
  import opened Session

  // ---------------------------------------------------------------- settings and rules

  datatype Setting = SetAllow | SetAsk | SetDeny

  datatype AgentPermissions = AgentPermissions(
    read: Option<Setting>,
    write: Option<Setting>,
    bash: Option<Setting>,
    tools: map<string, Setting>,
    mcp: Option<Setting>)

  function SettingFor(p: AgentPermissions, tool: string): Option<Setting> {
    if tool == "read" then p.read
    else if tool == "write" || tool == "edit" then p.write
    else if tool == "bash" then p.bash
    else if tool in p.tools then Some(p.tools[tool])
    else p.mcp
  }

  /** Each built-in tool has a setting of its own, but for `edit`, which has that of `write`; what is set for other tools by name,
      or for all of them, never touches a built-in one, and a name comes before what is set for all. */
  lemma SettingsAreSeparate(p: AgentPermissions, s: Option<Setting>, tools: map<string, Setting>, tool: string)
    ensures SettingFor(p.(read := s), tool) == if tool == "read" then s else SettingFor(p, tool)
    ensures SettingFor(p.(write := s), tool) == if tool == "write" || tool == "edit" then s else SettingFor(p, tool)
    ensures SettingFor(p.(bash := s), tool) == if tool == "bash" then s else SettingFor(p, tool)
    ensures tool in {"read", "write", "edit", "bash"} ==> SettingFor(p.(tools := tools, mcp := s), tool) == SettingFor(p, tool)
    ensures tool !in {"read", "write", "edit", "bash"} ==>
              SettingFor(p.(tools := tools, mcp := s), tool) == if tool in tools then Some(tools[tool]) else s
  {
  }

  function MostRestrictive(a: Setting, b: Setting): Setting {
    if a == SetDeny || b == SetDeny then SetDeny
    else if a == SetAsk || b == SetAsk then SetAsk
    else SetAllow
  }

  /** A standing approval. */
  datatype Rule = Rule(
    id: Id,
    scope: PermissionScope,
    session: Option<Id>,
    project: Option<Id>,
    agentId: Id,
    toolName: string,
    createdAt: string)

  predicate Applies(r: Rule, session: Id, project: Option<Id>, agentId: Id, tool: string) {
    && r.agentId == agentId && r.toolName == tool
    && match r.scope
       case SessionScope => r.session == Some(session)
       case ProjectScope => project.Some? && r.project == project
       case ConfigurationScope => true
       case Once => false
  }

  function Narrowness(s: PermissionScope): nat {
    match s
    case SessionScope => 3
    case ProjectScope => 2
    case ConfigurationScope => 1
    case Once => 1
  }

  /** `a` is listed before `b`: narrower, or as narrow and newer. */
  predicate Precedes(a: Rule, b: Rule) {
    Narrowness(a.scope) > Narrowness(b.scope) || (a.scope == b.scope && Before(b.createdAt, a.createdAt))
  }

  /** The first row of the sorted query. */
  function MatchingRule(rules: seq<Rule>, session: Id, project: Option<Id>, agentId: Id, tool: string): Option<Rule> {
    if rules == [] then None
    else
      var best := MatchingRule(rules[..|rules| - 1], session, project, agentId, tool);
      var r := rules[|rules| - 1];
      if Applies(r, session, project, agentId, tool) && (best.None? || Precedes(r, best.value)) then Some(r) else best
  }

  /** The rule used is one that applies, and no rule that applies is narrower, or equally narrow and newer; none is
      used only when none applies. */
  lemma {:induction false} MatchingRuleIsNarrowest(rules: seq<Rule>, session: Id, project: Option<Id>, agentId: Id, tool: string)
    ensures var best := MatchingRule(rules, session, project, agentId, tool);
            && (best.Some? ==> best.value in rules && Applies(best.value, session, project, agentId, tool))
            && (forall r :: r in rules && Applies(r, session, project, agentId, tool) ==>
                  best.Some? && !Precedes(r, best.value))
  {
    if rules != [] {
      var n := |rules| - 1;
      MatchingRuleIsNarrowest(rules[..n], session, project, agentId, tool);
      var before := MatchingRule(rules[..n], session, project, agentId, tool);
      var best := MatchingRule(rules, session, project, agentId, tool);
      assert rules == rules[..n] + [rules[n]];
      forall r | r in rules && Applies(r, session, project, agentId, tool) ensures best.Some? && !Precedes(r, best.value) {
        NotBoth(rules[n], rules[n]);
        if best == Some(rules[n]) && before.Some? && Precedes(rules[n], before.value) && Precedes(r, rules[n]) {
          PrecedesTransitive(r, rules[n], before.value, session, project, agentId, tool);
        }
      }
    }
  }

  /** A rule of the session is used before one of the project, and that before one of the configuration; of two of one scope the
      newer. */
  lemma NarrowestFirst(rules: seq<Rule>, session: Id, project: Option<Id>, agentId: Id, tool: string, r: Rule)
    requires r in rules && Applies(r, session, project, agentId, tool)
    ensures var best := MatchingRule(rules, session, project, agentId, tool);
            && best.Some?
            && (r.scope == SessionScope ==> best.value.scope == SessionScope)
            && (r.scope == ProjectScope ==> best.value.scope == SessionScope || best.value.scope == ProjectScope)
            && (r.scope == best.value.scope ==> !Before(best.value.createdAt, r.createdAt))
  {
    MatchingRuleIsNarrowest(rules, session, project, agentId, tool);
    hide MatchingRule, Before;
    var best := MatchingRule(rules, session, project, agentId, tool).value;
    assert best.scope.Once? || best.scope.SessionScope? || best.scope.ProjectScope? || best.scope.ConfigurationScope?;
  }

  lemma NotBoth(a: Rule, b: Rule)
    ensures !(Precedes(a, b) && Precedes(b, a))
  {
    if Before(a.createdAt, b.createdAt) && Before(b.createdAt, a.createdAt) {
      BeforeTransitive(a.createdAt, b.createdAt, a.createdAt);
      BeforeIrreflexive(a.createdAt);
    }
  }

  lemma PrecedesTransitive(a: Rule, b: Rule, c: Rule, session: Id, project: Option<Id>, agentId: Id, tool: string)
    requires Precedes(a, b) && Precedes(b, c)
    requires Applies(a, session, project, agentId, tool) && Applies(b, session, project, agentId, tool) && Applies(c, session, project, agentId, tool)
    ensures Precedes(a, c)
  {
    if a.scope == b.scope && b.scope == c.scope {
      BeforeTransitive(c.createdAt, b.createdAt, a.createdAt);
    }
  }

  // ---------------------------------------------------------------- one call

  /** The agent's own setting, cut down by what the parent delegated. */
  function Effective(configured: Option<Setting>, ceiling: Option<Setting>): Option<Setting> {
    if ceiling.None? then configured
    else Some(MostRestrictive(if configured.Some? then configured.value else SetDeny, ceiling.value))
  }

  /** Rules count only where the parent left the choice open. */
  predicate RulesCount(ceiling: Option<Setting>) { ceiling.None? || ceiling.value == SetAllow }

  datatype Ruling = Ruling(decision: PermissionDecision, source: DecisionSource, ruleId: Option<Id>)

  function SourceOf(scope: PermissionScope): DecisionSource {
    match scope
    case SessionScope => SessionRule
    case ProjectScope => ProjectRule
    case ConfigurationScope => InteractiveConfiguration
    case Once => RequestApproval
  }

  function RulingFor(configured: Option<Setting>, ceiling: Option<Setting>, found: Option<Rule>): Ruling {
    var setting := Effective(configured, ceiling);
    var rule := if RulesCount(ceiling) then found else None;
    if setting == Some(SetDeny) then Ruling(Deny, ConfigurationSource, None)
    else if rule.Some? then Ruling(Allow, SourceOf(rule.value.scope), Some(rule.value.id))
    else if setting == Some(SetAllow) then Ruling(Allow, ConfigurationSource, None)
    else if setting == Some(SetAsk) then Ruling(Ask, ConfigurationSource, None)
    else Ruling(Deny, DefaultSource, None)
  }

  function Rank(d: PermissionDecision): nat { match d case Deny => 0 case Ask => 1 case Allow => 2 }

  function SettingRank(s: Setting): nat { match s case SetDeny => 0 case SetAsk => 1 case SetAllow => 2 }

  /** A configured Deny beats every rule; a parent's explicit setting is never exceeded; under an explicit ceiling an
      agent with no setting of its own is denied; and a call is allowed exactly when no Deny stands and either a rule
      that counts or a configured Allow says so. */
  lemma RulingMeaning(configured: Option<Setting>, ceiling: Option<Setting>, found: Option<Rule>)
    ensures var d := RulingFor(configured, ceiling, found).decision;
            && (configured == Some(SetDeny) ==> d == Deny)
            && (ceiling.Some? ==> Rank(d) <= SettingRank(ceiling.value))
            && (ceiling.Some? && configured.None? ==> d == Deny)
            && (d == Allow <==>
                  && configured != Some(SetDeny)
                  && (ceiling.None? || (ceiling == Some(SetAllow) && configured.Some?))
                  && (found.Some? || configured == Some(SetAllow)))
            && (d == Ask <==>
                  && configured.Some? && configured.value != SetDeny
                  && (if RulesCount(ceiling) then found.None? && configured.value == SetAsk else ceiling.value == SetAsk))
  {
  }

  /** A standing approval is named exactly when it decides: the call is allowed, the approval counts, and it then says where
      it comes from. Otherwise the configuration decided, or nothing was configured. */
  lemma RulingNamesItsReason(configured: Option<Setting>, ceiling: Option<Setting>, found: Option<Rule>)
    ensures var r := RulingFor(configured, ceiling, found);
            && (r.ruleId.Some? <==> r.decision == Allow && found.Some?)
            && (r.ruleId.Some? ==>
                  && r.ruleId == Some(found.value.id)
                  && (r.source == SessionRule <==> found.value.scope == SessionScope)
                  && (r.source == ProjectRule <==> found.value.scope == ProjectScope)
                  && (r.source == InteractiveConfiguration <==> found.value.scope == ConfigurationScope))
            && (r.ruleId.None? ==> r.source == if configured.None? && ceiling.None? then DefaultSource else ConfigurationSource)
  {
    var setting := Effective(configured, ceiling);
    assert setting.Some? ==> setting.value.SetAllow? || setting.value.SetAsk? || setting.value.SetDeny?;
  }

  // ---------------------------------------------------------------- standing approvals

  /** The name a tool's permission goes by. */
  function PermissionName(tool: string): string {
    if tool == "edit" then "write" else tool
  }

  /** The rule an approval with a standing scope leaves behind. It is made under the tool's own name. */
  function StandingRule(id: Id, scope: PermissionScope, session: Id, project: Option<Id>, agentId: Id, tool: string, at: string): Option<Rule> {
    match scope
    case Once => None
    case SessionScope => Some(Rule(id, scope, Some(session), None, agentId, tool, at))
    case ProjectScope => if project.Some? then Some(Rule(id, scope, None, project, agentId, tool, at)) else None
    case ConfigurationScope => Some(Rule(id, scope, None, None, agentId, tool, at))
  }

  /** A standing approval applies to later calls of the same tool by the same agent in the same session exactly when
      the tool is not `edit`: the lookup asks for `write`, and the rule says `edit`. */
  lemma StandingApprovalApplies(id: Id, scope: PermissionScope, session: Id, project: Option<Id>, agentId: Id, tool: string, at: string)
    requires StandingRule(id, scope, session, project, agentId, tool, at).Some?
    ensures Applies(StandingRule(id, scope, session, project, agentId, tool, at).value, session, project, agentId, PermissionName(tool))
            <==> tool != "edit"
  {
    assert "edit"[0] != "write"[0];
  }

  /** Anywhere else it applies to the same agent and tool alone, in its own session, in the sessions of its project, or, for the
      whole configuration, in all. */
  lemma StandingApprovalReaches(id: Id, scope: PermissionScope, session: Id, project: Option<Id>, agentId: Id, tool: string, at: string,
                                otherSession: Id, otherProject: Option<Id>, otherAgent: Id, otherTool: string)
    requires StandingRule(id, scope, session, project, agentId, tool, at).Some?
    ensures Applies(StandingRule(id, scope, session, project, agentId, tool, at).value, otherSession, otherProject, otherAgent, otherTool) <==>
              && otherAgent == agentId && otherTool == tool
              && (scope == SessionScope ==> otherSession == session)
              && (scope == ProjectScope ==> otherProject == project)
  {
  }

  // ---------------------------------------------------------------- the batch

  const DENIED := Text("permission_denied")

  /** What is recorded for one call. */
  function CallEvents(runId: Id, call: ToolCall, requestId: Id, agentId: Id, r: Ruling): seq<SemanticEvent> {
    [PermissionEv(PermissionRequested(requestId, runId, Some(call.callId), agentId, call.toolName, call.arguments))]
    + (if r.decision == Ask then []
       else [PermissionEv(PermissionResolved(requestId, r.decision, Some(r.source), None, r.ruleId))])
    + (if r.decision == Deny then [ToolEv(ToolResult(runId, call.callId, call.agentId, call.toolName, DENIED))] else [])
  }

  /** What the loop knows when it reaches a call: the call, the id made for its request, and the ruling. */
  datatype Item = Item(call: ToolCall, requestId: Id, ruling: Ruling)

  function Batch(runId: Id, agentId: Id, items: seq<Item>): seq<SemanticEvent>
    decreases |items|
  {
    if items == [] then []
    else
      var last := items[|items| - 1];
      Batch(runId, agentId, items[..|items| - 1]) + CallEvents(runId, last.call, last.requestId, agentId, last.ruling)
  }

  predicate SomeAsk(items: seq<Item>) { exists item :: item in items && item.ruling.decision == Ask }

  /** The loop over the run's open calls. `found[i]` is the rule lookup of the i-th. */
  method EvaluateCalls(runId: Id, agentId: Id, calls: seq<ToolCall>, ids: seq<Id>, found: seq<Option<Rule>>,
                       configured: Option<AgentPermissions>, ceiling: Option<AgentPermissions>)
    returns (events: seq<SemanticEvent>, pending: bool)
    requires |ids| == |calls| == |found|
    ensures events == Batch(runId, agentId, Items(calls, ids, found, configured, ceiling))
    ensures pending <==> SomeAsk(Items(calls, ids, found, configured, ceiling))
  {
    hide Items, RulingFor, CallEvents, SettingFor;
    ghost var items := Items(calls, ids, found, configured, ceiling);
    ItemsAre(calls, ids, found, configured, ceiling);
    events, pending := [], false;
    for i := 0 to |calls|
      invariant |items| == |calls| && events == Batch(runId, agentId, items[..i])
      invariant pending <==> SomeAsk(items[..i])
    {
      assert items[..i + 1] == items[..i] + [items[i]];
      assert items[..i + 1][..i] == items[..i];
      ItemAt(calls, ids, found, configured, ceiling, i);
      var own := if configured.Some? then SettingFor(configured.value, calls[i].toolName) else None;
      var limit := if ceiling.Some? then SettingFor(ceiling.value, calls[i].toolName) else None;
      var ruling := RulingFor(own, limit, found[i]);
      pending := pending || ruling.decision == Ask;
      var more := RecordCall(runId, calls[i], ids[i], agentId, ruling);
      events := events + more;
    }
    assert items[..|calls|] == items;
  }

  /** The events pushed for one call. */
  method RecordCall(runId: Id, call: ToolCall, requestId: Id, agentId: Id, ruling: Ruling) returns (events: seq<SemanticEvent>)
    ensures events == CallEvents(runId, call, requestId, agentId, ruling)
  {
    events := [PermissionEv(PermissionRequested(requestId, runId, Some(call.callId), agentId, call.toolName, call.arguments))];
    if ruling.decision != Ask {
      events := events + [PermissionEv(PermissionResolved(requestId, ruling.decision, Some(ruling.source), None, ruling.ruleId))];
      if ruling.decision == Deny {
        events := events + [ToolEv(ToolResult(runId, call.callId, call.agentId, call.toolName, DENIED))];
      }
    }
  }

  lemma ItemAt(calls: seq<ToolCall>, ids: seq<Id>, found: seq<Option<Rule>>,
               configured: Option<AgentPermissions>, ceiling: Option<AgentPermissions>, i: nat)
    requires |ids| == |calls| == |found| && i < |calls|
    ensures |Items(calls, ids, found, configured, ceiling)| == |calls|
    ensures Items(calls, ids, found, configured, ceiling)[i] ==
            Item(calls[i], ids[i],
                 RulingFor(if configured.Some? then SettingFor(configured.value, calls[i].toolName) else None,
                           if ceiling.Some? then SettingFor(ceiling.value, calls[i].toolName) else None, found[i]))
  {
    hide RulingFor, SettingFor;
  }

  function Items(calls: seq<ToolCall>, ids: seq<Id>, found: seq<Option<Rule>>,
                 configured: Option<AgentPermissions>, ceiling: Option<AgentPermissions>): seq<Item>
    requires |ids| == |calls| == |found|
  {
    seq(|calls|, i requires 0 <= i < |calls| =>
      Item(calls[i], ids[i],
           RulingFor(if configured.Some? then SettingFor(configured.value, calls[i].toolName) else None,
                     if ceiling.Some? then SettingFor(ceiling.value, calls[i].toolName) else None, found[i])))
  }

  // ---------------------------------------------------------------- what the batch does

  function Asked(runId: Id, agentId: Id, item: Item): Permission {
    Permission(item.requestId, runId, Some(item.call.callId), agentId, item.call.toolName, item.call.arguments,
               if item.ruling.decision == Ask then None else Some(item.ruling.decision))
  }

  /** The projection after the items, one at a time. */
  function After(p: Projection, runId: Id, agentId: Id, items: seq<Item>): Projection
    requires runId in p.queue.runs
    ensures runId in After(p, runId, agentId, items).queue.runs
    decreases |items|
  {
    if items == [] then p
    else
      var item := items[|items| - 1];
      var q := After(p, runId, agentId, items[..|items| - 1]);
      var asked := q.(permissions := q.permissions[item.requestId := Asked(runId, agentId, item)]);
      if item.ruling.decision == Deny then
        var r := q.queue.runs[runId];
        asked.(queue := SetRun(q.queue, runId, r.(toolCalls := r.toolCalls[item.call.callId := item.call.(result := Some(DENIED))])))
      else asked
  }

  /** The items are open calls of the run, each once, with request ids nobody has used. */
  predicate Fits(p: Projection, runId: Id, items: seq<Item>) {
    && runId in p.queue.runs
    && (forall i :: 0 <= i < |items| ==>
          && items[i].call.callId in p.queue.runs[runId].toolCalls
          && p.queue.runs[runId].toolCalls[items[i].call.callId] == items[i].call
          && items[i].call.result.None?
          && items[i].requestId !in p.permissions)
    && (forall i, j :: 0 <= i < j < |items| ==>
          items[i].requestId != items[j].requestId && items[i].call.callId != items[j].call.callId)
  }

  /** The run's calls without a result, in key order. */
  function OpenCalls(calls: map<Id, ToolCall>): (r: seq<ToolCall>) {
    var keys := KeysInOrder(calls.Keys);
    var open := Filter(keys, (k: Id) => k in calls && calls[k].result.None?);
    FilterKeeps(keys, (k: Id) => k in calls && calls[k].result.None?);
    seq(|open|, i requires 0 <= i < |open| => assert open[i] in open; calls[open[i]])
  }

  /** Each open call once, and nothing else. */
  lemma OpenCallsAre(calls: map<Id, ToolCall>)
    requires forall k :: k in calls ==> calls[k].callId == k
    ensures var open := OpenCalls(calls);
            && (forall i :: 0 <= i < |open| ==> open[i].result.None? && open[i].callId in calls && calls[open[i].callId] == open[i])
            && (forall i, j :: 0 <= i < j < |open| ==> open[i].callId != open[j].callId)
            && (forall k :: k in calls && calls[k].result.None? ==> calls[k] in open)
  {
    hide Filter, KeysInOrder;
    var keys, keep := KeysInOrder(calls.Keys), (k: Id) => k in calls && calls[k].result.None?;
    FilterKeeps(keys, keep);
    FilterApart(keys, keep, (k: Id) => k);
    var ids, open := Filter(keys, keep), OpenCalls(calls);
    assert |open| == |ids| && forall i :: 0 <= i < |ids| ==> ids[i] in ids && open[i] == calls[ids[i]];
    forall k | k in calls && calls[k].result.None? ensures calls[k] in open {
      assert k in ids;
      var i :| 0 <= i < |ids| && ids[i] == k;
      assert open[i] == calls[k];
    }
  }

  /** The calls the loop visits, with new request ids, fit. */
  lemma OpenCallsFit(p: Projection, runId: Id, ids: seq<Id>, found: seq<Option<Rule>>,
                     configured: Option<AgentPermissions>, ceiling: Option<AgentPermissions>)
    requires runId in p.queue.runs
    requires forall c :: c in p.queue.runs[runId].toolCalls ==> p.queue.runs[runId].toolCalls[c].callId == c
    requires |ids| == |found| == |OpenCalls(p.queue.runs[runId].toolCalls)|
    requires Distinct(ids) && forall x :: x in ids ==> x !in p.permissions
    ensures Fits(p, runId, Items(OpenCalls(p.queue.runs[runId].toolCalls), ids, found, configured, ceiling))
  {
    hide OpenCalls, Items;
    var open := OpenCalls(p.queue.runs[runId].toolCalls);
    OpenCallsAre(p.queue.runs[runId].toolCalls);
    ItemsAre(open, ids, found, configured, ceiling);
    FitsByParts(p, runId, open, ids, Items(open, ids, found, configured, ceiling));
  }

  lemma ItemsAre(calls: seq<ToolCall>, ids: seq<Id>, found: seq<Option<Rule>>,
                 configured: Option<AgentPermissions>, ceiling: Option<AgentPermissions>)
    requires |ids| == |calls| == |found|
    ensures var items := Items(calls, ids, found, configured, ceiling);
            |items| == |calls| && forall i :: 0 <= i < |items| ==> items[i].call == calls[i] && items[i].requestId == ids[i]
  {
    hide RulingFor, SettingFor;
  }

  lemma FitsByParts(p: Projection, runId: Id, open: seq<ToolCall>, ids: seq<Id>, items: seq<Item>)
    requires runId in p.queue.runs && |items| == |open| == |ids|
    requires forall i :: 0 <= i < |items| ==> items[i].call == open[i] && items[i].requestId == ids[i]
    requires forall i :: 0 <= i < |open| ==>
               && open[i].result.None? && open[i].callId in p.queue.runs[runId].toolCalls
               && p.queue.runs[runId].toolCalls[open[i].callId] == open[i]
    requires forall i, j :: 0 <= i < j < |open| ==> open[i].callId != open[j].callId
    requires Distinct(ids) && forall x :: x in ids ==> x !in p.permissions
    ensures Fits(p, runId, items)
  {
    assert forall i :: 0 <= i < |ids| ==> ids[i] in ids;
  }

  lemma FitsPrefix(p: Projection, runId: Id, items: seq<Item>)
    requires Fits(p, runId, items) && items != []
    ensures Fits(p, runId, items[..|items| - 1])
  {
  }

  lemma FitsLast(p: Projection, runId: Id, items: seq<Item>)
    requires Fits(p, runId, items) && items != []
    ensures var n := |items| - 1;
            && items[n].requestId !in p.permissions
            && items[n].call.callId in CallsIn(p, runId) && CallsIn(p, runId)[items[n].call.callId] == items[n].call
            && items[n].call.result.None?
            && (forall i :: 0 <= i < n ==> items[..n][i].requestId != items[n].requestId && items[..n][i].call.callId != items[n].call.callId)
  {
  }

  lemma {:induction false} AfterFrame(p: Projection, runId: Id, agentId: Id, items: seq<Item>)
    requires runId in p.queue.runs
    ensures var q := After(p, runId, agentId, items);
            && q.(permissions := p.permissions, queue := p.queue) == p
            && q.queue == SetRun(p.queue, runId, p.queue.runs[runId].(toolCalls := q.queue.runs[runId].toolCalls))
    decreases |items|
  {
    if items == [] {
      assert SetRun(p.queue, runId, p.queue.runs[runId]) == p.queue;
    } else {
      var before := After(p, runId, agentId, items[..|items| - 1]);
      var q := After(p, runId, agentId, items);
      AfterFrame(p, runId, agentId, items[..|items| - 1]);
      assert p.queue.runs[runId := before.queue.runs[runId]][runId := q.queue.runs[runId]] == p.queue.runs[runId := q.queue.runs[runId]];
    }
  }

  /** The requests of the items have been added to `was`. */
  predicate AskedAll(was: map<Id, Permission>, now: map<Id, Permission>, runId: Id, agentId: Id, items: seq<Item>) {
    && (forall x :: x in was ==> x in now && now[x] == was[x])
    && (forall x :: x in now ==> x in was || exists i :: 0 <= i < |items| && items[i].requestId == x)
    && (forall i :: 0 <= i < |items| ==> items[i].requestId in now && now[items[i].requestId] == Asked(runId, agentId, items[i]))
  }

  lemma AskedNext(was: map<Id, Permission>, before: map<Id, Permission>, runId: Id, agentId: Id, items: seq<Item>, last: Item)
    requires AskedAll(was, before, runId, agentId, items)
    requires last.requestId !in was && forall i :: 0 <= i < |items| ==> items[i].requestId != last.requestId
    ensures AskedAll(was, before[last.requestId := Asked(runId, agentId, last)], runId, agentId, items + [last])
  {
    hide Asked;
    var all, now := items + [last], before[last.requestId := Asked(runId, agentId, last)];
    forall x | x in now && x !in was ensures exists i :: 0 <= i < |all| && all[i].requestId == x {
      if x == last.requestId {
        assert all[|items|].requestId == x;
      } else {
        var i :| 0 <= i < |items| && items[i].requestId == x;
        assert all[i].requestId == x;
      }
    }
  }

  lemma {:induction false} AfterAsked(p: Projection, runId: Id, agentId: Id, items: seq<Item>)
    requires Fits(p, runId, items)
    ensures AskedAll(p.permissions, After(p, runId, agentId, items).permissions, runId, agentId, items)
    decreases |items|
  {
    if items != [] {
      hide Asked, AskedAll;
      var n := |items| - 1;
      FitsPrefix(p, runId, items);
      FitsLast(p, runId, items);
      hide Fits;
      AfterAsked(p, runId, agentId, items[..n]);
      AskedNext(p.permissions, After(p, runId, agentId, items[..n]).permissions, runId, agentId, items[..n], items[n]);
      assert items == items[..n] + [items[n]];
    }
  }

  function Ruled(item: Item): ToolCall {
    if item.ruling.decision == Deny then item.call.(result := Some(DENIED)) else item.call
  }

  /** The denied items have their results; every other call is as it was. */
  predicate RefusedAll(was: map<Id, ToolCall>, now: map<Id, ToolCall>, items: seq<Item>) {
    && now.Keys == was.Keys
    && (forall i :: 0 <= i < |items| ==> items[i].call.callId in now && now[items[i].call.callId] == Ruled(items[i]))
    && (forall c :: c in was ==> now[c] == was[c] || exists i :: 0 <= i < |items| && items[i].call.callId == c)
  }

  lemma RefusedNext(was: map<Id, ToolCall>, before: map<Id, ToolCall>, items: seq<Item>, last: Item)
    requires RefusedAll(was, before, items)
    requires last.call.callId in was && was[last.call.callId] == last.call
    requires forall i :: 0 <= i < |items| ==> items[i].call.callId != last.call.callId
    ensures before[last.call.callId] == last.call
    ensures RefusedAll(was, before[last.call.callId := Ruled(last)], items + [last])
  {
    hide Ruled;
    var all, now := items + [last], before[last.call.callId := Ruled(last)];
    forall c | c in was && now[c] != was[c] ensures exists i :: 0 <= i < |all| && all[i].call.callId == c {
      if c == last.call.callId {
        assert all[|items|].call.callId == c;
      } else {
        var i :| 0 <= i < |items| && items[i].call.callId == c;
        assert all[i].call.callId == c;
      }
    }
  }

  function CallsIn(p: Projection, runId: Id): map<Id, ToolCall>
    requires runId in p.queue.runs
  {
    p.queue.runs[runId].toolCalls
  }

  lemma CallsAfter(p: Projection, runId: Id, agentId: Id, items: seq<Item>)
    requires runId in p.queue.runs && items != []
    ensures var last := items[|items| - 1];
            var before := CallsIn(After(p, runId, agentId, items[..|items| - 1]), runId);
            last.call.callId in before && before[last.call.callId] == last.call ==>
              CallsIn(After(p, runId, agentId, items), runId) == before[last.call.callId := Ruled(last)]
  {
  }

  lemma {:induction false} AfterRefused(p: Projection, runId: Id, agentId: Id, items: seq<Item>)
    requires Fits(p, runId, items)
    ensures RefusedAll(CallsIn(p, runId), CallsIn(After(p, runId, agentId, items), runId), items)
    decreases |items|
  {
    if items != [] {
      var n := |items| - 1;
      FitsPrefix(p, runId, items);
      AfterRefused(p, runId, agentId, items[..n]);
      RefusedOneMore(p, runId, agentId, items);
    }
    hide Fits, Ruled;
  }

  lemma RefusedOneMore(p: Projection, runId: Id, agentId: Id, items: seq<Item>)
    requires Fits(p, runId, items) && items != []
    requires RefusedAll(CallsIn(p, runId), CallsIn(After(p, runId, agentId, items[..|items| - 1]), runId), items[..|items| - 1])
    ensures RefusedAll(CallsIn(p, runId), CallsIn(After(p, runId, agentId, items), runId), items)
  {
    hide *;
    FitsRun(p, runId, items);
    FitsLast(p, runId, items);
    var n := |items| - 1;
    var was, before := CallsIn(p, runId), CallsIn(After(p, runId, agentId, items[..n]), runId);
    RefusedNext(was, before, items[..n], items[n]);
    CallsAfter(p, runId, agentId, items);
    CallsKept(p, runId, agentId, items[..n], items[n].call.callId);
    assert items == items[..n] + [items[n]];
  }

  lemma FitsRun(p: Projection, runId: Id, items: seq<Item>)
    requires Fits(p, runId, items)
    ensures runId in p.queue.runs
  {
  }

  lemma CallsKept(p: Projection, runId: Id, agentId: Id, items: seq<Item>, c: Id)
    requires runId in p.queue.runs
    requires RefusedAll(CallsIn(p, runId), CallsIn(After(p, runId, agentId, items), runId), items)
    ensures c in CallsIn(p, runId) ==> c in CallsIn(After(p, runId, agentId, items), runId)
  {
  }

  /** What the items leave alone, and what they do, item by item. */
  lemma AfterMeaning(p: Projection, runId: Id, agentId: Id, items: seq<Item>)
    requires Fits(p, runId, items)
    ensures var q := After(p, runId, agentId, items);
            && q.(permissions := p.permissions, queue := p.queue) == p
            && q.queue == SetRun(p.queue, runId, p.queue.runs[runId].(toolCalls := q.queue.runs[runId].toolCalls))
            && AskedAll(p.permissions, q.permissions, runId, agentId, items)
            && RefusedAll(CallsIn(p, runId), CallsIn(q, runId), items)
  {
    AfterFrame(p, runId, agentId, items);
    AfterAsked(p, runId, agentId, items);
    AfterRefused(p, runId, agentId, items);
  }

  /** The events of one call. */
  lemma CallReplay(p: Projection, n: EventId, runId: Id, agentId: Id, item: Item)
    requires runId in p.queue.runs && item.requestId !in p.permissions
    requires item.call.callId in p.queue.runs[runId].toolCalls && p.queue.runs[runId].toolCalls[item.call.callId] == item.call
    requires item.call.result.None?
    ensures var events := CallEvents(runId, item.call, item.requestId, agentId, item.ruling);
            var o := Replay(p, n, events);
            && o.Ok()
            && o.value.(state := p.state) == After(p, runId, agentId, [item])
            && o.value.state == Stamp(p.state, n + |events| - 1)
  {
    var d := item.ruling.decision;
    var e1 := PermissionEv(PermissionRequested(item.requestId, runId, Some(item.call.callId), agentId, item.call.toolName, item.call.arguments));
    var e2 := PermissionEv(PermissionResolved(item.requestId, d, Some(item.ruling.source), None, item.ruling.ruleId));
    var e3 := ToolEv(ToolResult(runId, item.call.callId, item.call.agentId, item.call.toolName, DENIED));
    ReplayOne(p, n, e1);
    assert [item][..0] == [];
    var p1 := Step(p, n, e1).value;
    if d != Ask {
      ReplayAppend(p, n, [e1], [e2]);
      ReplayOne(p1, n + 1, e2);
      var p2 := Step(p1, n + 1, e2).value;
      assert p2.permissions == p.permissions[item.requestId := Asked(runId, agentId, item)];
      if d == Deny {
        ReplayAppend(p, n, [e1] + [e2], [e3]);
        ReplayOne(p2, n + 2, e3);
      }
    }
  }

  lemma AfterNext(p: Projection, runId: Id, agentId: Id, items: seq<Item>)
    requires items != [] && runId in p.queue.runs
    ensures After(p, runId, agentId, items) == After(After(p, runId, agentId, items[..|items| - 1]), runId, agentId, [items[|items| - 1]])
  {
    assert [items[|items| - 1]][..0] == [];
  }

  /** Main result: the batch is always accepted. It records one request for each open call, decides every one that is
      not left to be asked, gives every denied call its result, and touches nothing else. */
  lemma {:induction false} BatchAccepted(p: Projection, n: EventId, runId: Id, agentId: Id, items: seq<Item>)
    requires Fits(p, runId, items)
    ensures var o := Replay(p, n, Batch(runId, agentId, items));
            o.Ok() && o.value.(state := p.state) == After(p, runId, agentId, items)
            && o.value.state.phase == p.state.phase && o.value.state.revision == p.state.revision
    decreases |items|
  {
    if items != [] {
      var k := |items| - 1;
      var before := Batch(runId, agentId, items[..k]);
      FitsPrefix(p, runId, items);
      BatchAccepted(p, n, runId, agentId, items[..k]);
      AfterMeaning(p, runId, agentId, items[..k]);
      hide Step, Replay, After, Fits;
      var q := Replay(p, n, before).value;
      ItemStillOpen(p, runId, agentId, items);
      CallReplay(q, n + |before|, runId, agentId, items[k]);
      ReplayAppend(p, n, before, CallEvents(runId, items[k].call, items[k].requestId, agentId, items[k].ruling));
      AfterNext(p, runId, agentId, items);
      AfterState(q, p.state, runId, agentId, [items[k]]);
    }
  }

  lemma ItemStillOpen(p: Projection, runId: Id, agentId: Id, items: seq<Item>)
    requires Fits(p, runId, items) && items != []
    ensures var k := |items| - 1;
            var q := After(p, runId, agentId, items[..k]);
            && runId in q.queue.runs && items[k].requestId !in q.permissions
            && items[k].call.callId in q.queue.runs[runId].toolCalls
            && q.queue.runs[runId].toolCalls[items[k].call.callId] == items[k].call
            && items[k].call.result.None?
  {
    FitsPrefix(p, runId, items);
    AfterMeaning(p, runId, agentId, items[..|items| - 1]);
    hide After;
  }

  /** The session state plays no part. */
  lemma AfterState(p: Projection, s: SessionState, runId: Id, agentId: Id, items: seq<Item>)
    requires runId in p.queue.runs
    ensures After(p.(state := s), runId, agentId, items) == After(p, runId, agentId, items).(state := s)
    decreases |items|
  {
    if items != [] {
      AfterState(p, s, runId, agentId, items[..|items| - 1]);
    }
  }
}
