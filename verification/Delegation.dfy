/** Delegation: the table of links from parents to the sessions they spawned, and handing a child's result back
    (`spawn_delegated_child`, `deliver_child_result` in piqo-server/src/supervisor.rs; `create_agent_link` in
    piqo-server/src/storage.rs; migrations/0005_agent_links.sql). */
module Delegation {
  import opened Prelude
  import opened Events
  import opened Session
  import opened Permissions

  /** A row of `agent_links`, keyed by the child session: `agent` is the child's agent, and `ceiling` the permissions
      configured for the agent that delegated. */
  datatype Link = Link(instance: Id, parent: Id, parentCall: Id, depth: nat, agent: Id, ceiling: AgentPermissions)

  /** The sessions with their projects, and the links. */
  datatype Tables = Tables(sessions: map<Id, Option<Id>>, links: map<Id, Link>)

  datatype Step =
    | Create(session: Id, project: Option<Id>)
    | Spawn(parent: Id, call: Id, child: Id, instance: Id, agent: Id, ceiling: AgentPermissions)
    | DeleteProject(deleted: Id)

  function DepthOf(t: Tables, s: Id): nat { if s in t.links then t.links[s].depth else 0 }

  /** Calls and instances are unique over the whole table, not per session. */
  predicate Free(t: Tables, call: Id, instance: Id) {
    forall c :: c in t.links ==> t.links[c].parentCall != call && t.links[c].instance != instance
  }

  predicate CanSpawn(t: Tables, parent: Id, call: Id, instance: Id, maxDepth: nat) {
    parent in t.sessions && DepthOf(t, parent) < maxDepth && Free(t, call, instance)
  }

  /** Spawning creates the child's session, in the parent's project, before it inserts the link; a refused link
      leaves the session behind. */
  function Spawned(t: Tables, parent: Id, call: Id, child: Id, instance: Id, agent: Id, ceiling: AgentPermissions, maxDepth: nat): Tables {
    if parent !in t.sessions || DepthOf(t, parent) >= maxDepth then t
    else
      var created := t.(sessions := t.sessions[child := t.sessions[parent]]);
      if Free(t, call, instance) then
        created.(links := t.links[child := Link(instance, parent, call, DepthOf(t, parent) + 1, agent, ceiling)])
      else created
  }

  function InProject(t: Tables, project: Id): set<Id> { set s | s in t.sessions && t.sessions[s] == Some(project) }

  /** Deleting sessions deletes every link that mentions one of them. */
  function Deleted(t: Tables, project: Id): Tables {
    var gone := InProject(t, project);
    Tables(t.sessions - gone, map c | c in t.links && c !in gone && t.links[c].parent !in gone :: t.links[c])
  }

  predicate Next(t: Tables, step: Step, maxDepth: nat, t': Tables) {
    match step
    case Create(s, project) => s !in t.sessions && t' == t.(sessions := t.sessions[s := project])
    case Spawn(parent, call, child, instance, agent, ceiling) =>
      child !in t.sessions && t' == Spawned(t, parent, call, child, instance, agent, ceiling, maxDepth)
    case DeleteProject(project) => t' == Deleted(t, project)
  }

  /** The parent exists, shares the project, and is one level up. */
  predicate Placed(t: Tables, c: Id, maxDepth: nat)
    requires c in t.links
  {
    && c in t.sessions && t.links[c].parent in t.sessions
    && t.sessions[c] == t.sessions[t.links[c].parent]
    && t.links[c].depth == DepthOf(t, t.links[c].parent) + 1
    && t.links[c].depth <= maxDepth
  }

  /** Calls and instances are used once. */
  predicate UsedOnce(links: map<Id, Link>) {
    forall c, d :: c in links && d in links && c != d ==>
      links[c].parentCall != links[d].parentCall && links[c].instance != links[d].instance
  }

  predicate Forest(t: Tables, maxDepth: nat) {
    && (forall c :: c in t.links ==> Placed(t, c, maxDepth))
    && UsedOnce(t.links)
  }

  lemma LinksAreSessions(t: Tables, maxDepth: nat)
    requires Forest(t, maxDepth)
    ensures forall c :: c in t.links ==> c in t.sessions
  {
    forall c | c in t.links ensures c in t.sessions {
      assert Placed(t, c, maxDepth);
    }
  }

  lemma CreateKeeps(t: Tables, child: Id, project: Option<Id>, maxDepth: nat)
    requires Forest(t, maxDepth) && child !in t.sessions
    ensures Forest(t.(sessions := t.sessions[child := project]), maxDepth)
    ensures child !in t.links
  {
    hide UsedOnce;
    forall c | c in t.links ensures Placed(t.(sessions := t.sessions[child := project]), c, maxDepth) {
      assert Placed(t, c, maxDepth);
    }
    LinksAreSessions(t, maxDepth);
  }

  lemma LinkKeeps(t: Tables, child: Id, link: Link, maxDepth: nat)
    requires Forest(t, maxDepth) && child !in t.links && Free(t, link.parentCall, link.instance)
    requires child in t.sessions && link.parent in t.sessions && link.parent != child && t.sessions[child] == t.sessions[link.parent]
    requires link.depth == DepthOf(t, link.parent) + 1 <= maxDepth
    requires forall c :: c in t.links ==> t.links[c].parent != child
    ensures Forest(t.(links := t.links[child := link]), maxDepth)
  {
    var after := t.(links := t.links[child := link]);
    forall c | c in after.links ensures Placed(after, c, maxDepth) {
      if c != child {
        assert Placed(t, c, maxDepth);
      }
    }
  }

  lemma SpawnKeeps(t: Tables, parent: Id, call: Id, child: Id, instance: Id, agent: Id, ceiling: AgentPermissions, maxDepth: nat)
    requires Forest(t, maxDepth) && child !in t.sessions
    ensures Forest(Spawned(t, parent, call, child, instance, agent, ceiling, maxDepth), maxDepth)
  {
    if parent in t.sessions && DepthOf(t, parent) < maxDepth {
      var created := t.(sessions := t.sessions[child := t.sessions[parent]]);
      CreateKeeps(t, child, t.sessions[parent], maxDepth);
      if Free(t, call, instance) {
        forall c | c in t.links ensures t.links[c].parent != child {
          assert Placed(t, c, maxDepth);
        }
        LinkKeeps(created, child, Link(instance, parent, call, DepthOf(t, parent) + 1, agent, ceiling), maxDepth);
      }
    }
  }

  lemma DeleteKeeps(t: Tables, project: Id, maxDepth: nat)
    requires Forest(t, maxDepth)
    ensures Forest(Deleted(t, project), maxDepth)
  {
    var after := Deleted(t, project);
    forall c | c in after.links ensures Placed(after, c, maxDepth) {
      var parent := t.links[c].parent;
      assert Placed(t, c, maxDepth);
      if parent in t.links {
        assert Placed(t, parent, maxDepth);
      }
    }
  }

  /** Deleting a project deletes its sessions and no other. A link goes exactly when its child does: a family is never torn. */
  lemma DeletedExactly(t: Tables, project: Id, maxDepth: nat)
    requires Forest(t, maxDepth)
    ensures var after := Deleted(t, project);
            && (forall s :: s in t.sessions ==> (s in after.sessions <==> t.sessions[s] != Some(project)))
            && (forall s :: s in after.sessions ==> s in t.sessions && after.sessions[s] == t.sessions[s])
            && (forall c :: c in t.links ==> c in t.sessions && (c in after.links <==> t.sessions[c] != Some(project)))
            && (forall c :: c in after.links ==> c in t.links && after.links[c] == t.links[c])
  {
    LinksAreSessions(t, maxDepth);
    forall c | c in t.links ensures t.links[c].parent in InProject(t, project) <==> c in InProject(t, project) {
      assert Placed(t, c, maxDepth);
    }
  }

  lemma StepKeepsForest(t: Tables, step: Step, maxDepth: nat, t': Tables)
    requires Forest(t, maxDepth) && Next(t, step, maxDepth, t')
    ensures Forest(t', maxDepth)
  {
    match step {
      case Create(s, project) => CreateKeeps(t, s, project, maxDepth);
      case Spawn(parent, call, child, instance, agent, ceiling) => SpawnKeeps(t, parent, call, child, instance, agent, ceiling, maxDepth);
      case DeleteProject(project) => DeleteKeeps(t, project, maxDepth);
    }
  }

  predicate Trace(states: seq<Tables>, steps: seq<Step>, maxDepth: nat) {
    && |states| == |steps| + 1
    && states[0] == Tables(map[], map[])
    && forall i :: 0 <= i < |steps| ==> Next(states[i], steps[i], maxDepth, states[i + 1])
  }

  lemma {:induction false} TraceKeepsForest(states: seq<Tables>, steps: seq<Step>, maxDepth: nat)
    requires Trace(states, steps, maxDepth)
    ensures Forest(states[|steps|], maxDepth)
    decreases |steps|
  {
    if steps != [] {
      hide Next, Forest;
      var n := |steps| - 1;
      assert Trace(states[..n + 1], steps[..n], maxDepth);
      TraceKeepsForest(states[..n + 1], steps[..n], maxDepth);
      StepKeepsForest(states[n], steps[n], maxDepth, states[n + 1]);
    } else {
      EmptyIsForest(maxDepth);
    }
  }

  lemma EmptyIsForest(maxDepth: nat)
    ensures Forest(Tables(map[], map[]), maxDepth)
  {
  }

  /** A path from a session up through parents. */
  predicate Climbs(t: Tables, path: seq<Id>) {
    && path != []
    && forall i :: 0 <= i < |path| - 1 ==> path[i] in t.links && t.links[path[i]].parent == path[i + 1]
  }

  /** Climbing loses one level of depth a step. */
  lemma {:induction false} ClimbingDepth(t: Tables, path: seq<Id>, maxDepth: nat, i: nat)
    requires Forest(t, maxDepth) && Climbs(t, path) && i < |path|
    ensures DepthOf(t, path[i]) + i == DepthOf(t, path[0])
    decreases i
  {
    if i > 0 {
      ClimbingDepth(t, path, maxDepth, i - 1);
      assert Placed(t, path[i - 1], maxDepth);
      assert t.links[path[i - 1]].parent == path[i];
    }
  }

  /** The whole path from a session to its root. */
  function PathToRoot(t: Tables, s: Id, maxDepth: nat): (path: seq<Id>)
    requires Forest(t, maxDepth)
    ensures Climbs(t, path) && path[0] == s && path[|path| - 1] !in t.links
    decreases DepthOf(t, s)
  {
    if s !in t.links then [s] else [s] + PathToRoot(t, t.links[s].parent, maxDepth)
  }

  /** Main result, for every run of the tables: a session has at most one parent, its depth is the length of its path
      to a root and stays within the limit, no session is its own ancestor, and a call has at most one child. */
  lemma DelegationForest(states: seq<Tables>, steps: seq<Step>, maxDepth: nat, s: Id)
    requires Trace(states, steps, maxDepth)
    ensures var t := states[|steps|];
            && Forest(t, maxDepth)
            && |PathToRoot(t, s, maxDepth)| == DepthOf(t, s) + 1
            && DepthOf(t, s) <= maxDepth
            && (forall path :: Climbs(t, path) && |path| > 1 ==> path[0] != path[|path| - 1])
            && (forall c, d :: c in t.links && d in t.links && t.links[c].parentCall == t.links[d].parentCall ==> c == d)
  {
    var t := states[|steps|];
    TraceKeepsForest(states, steps, maxDepth);
    var up := PathToRoot(t, s, maxDepth);
    ClimbingDepth(t, up, maxDepth, |up| - 1);
    forall path | Climbs(t, path) && |path| > 1 ensures path[0] != path[|path| - 1] {
      ClimbingDepth(t, path, maxDepth, |path| - 1);
    }
  }

  /** A delegation gets a child exactly when the depth allows it and neither its call id nor its instance is used by
      any link of any session. */
  lemma SpawnSucceedsExactly(t: Tables, parent: Id, call: Id, child: Id, instance: Id, agent: Id, ceiling: AgentPermissions, maxDepth: nat)
    requires Forest(t, maxDepth) && child !in t.sessions
    ensures child in Spawned(t, parent, call, child, instance, agent, ceiling, maxDepth).links <==> CanSpawn(t, parent, call, instance, maxDepth)
    ensures child in Spawned(t, parent, call, child, instance, agent, ceiling, maxDepth).sessions <==> parent in t.sessions && DepthOf(t, parent) < maxDepth
    ensures CanSpawn(t, parent, call, instance, maxDepth) ==>
              var link := Spawned(t, parent, call, child, instance, agent, ceiling, maxDepth).links[child];
              && link.parent == parent && link.parentCall == call && link.instance == instance
              && link.agent == agent && link.ceiling == ceiling
  {
    LinksAreSessions(t, maxDepth);
  }

  const NO_PERMISSIONS := AgentPermissions(None, None, None, map[], None)

  /** Two sessions whose providers number their calls alike: the second delegation is refused, and the session made for
      its child stays behind without a link. */
  function SameCallSteps(): seq<Step> {
    [ Create("a", None), Create("b", None),
      Spawn("a", "call_0", "child", "i", "helper", NO_PERMISSIONS),
      Spawn("b", "call_0", "orphan", "j", "helper", NO_PERMISSIONS) ]
  }

  function SameCallStates(): seq<Tables> {
    var none: Option<Id> := None;
    var links := map["child" := Link("i", "a", "call_0", 1, "helper", NO_PERMISSIONS)];
    [ Tables(map[], map[]), Tables(map["a" := none], map[]), Tables(map["a" := none, "b" := none], map[]),
      Tables(map["a" := none, "b" := none, "child" := none], links),
      Tables(map["a" := none, "b" := none, "child" := none, "orphan" := none], links) ]
  }

  lemma SecondCallRefused(maxDepth: nat)
    requires maxDepth > 0
    ensures Trace(SameCallStates(), SameCallSteps(), maxDepth)
    ensures var t := SameCallStates()[4]; "child" in t.links && "orphan" in t.sessions && "orphan" !in t.links
    ensures CanSpawn(SameCallStates()[3], "b", "call_1", "j", maxDepth)
  {
    var none: Option<Id> := None;
    assert map[]["a" := none] == map["a" := none];
    assert map["a" := none]["b" := none] == map["a" := none, "b" := none];
    assert Free(SameCallStates()[2], "call_0", "i");
    var t := SameCallStates()[3];
    assert t == SameCallStates()[2].(sessions := SameCallStates()[2].sessions["child" := none], links := map[]["child" := t.links["child"]]);
    assert t.links["child"].parentCall == "call_0" && !Free(t, "call_0", "j");
    assert SameCallStates()[4] == t.(sessions := t.sessions["orphan" := none]);
  }

  // ---------------------------------------------------------------- permissions along a chain

  /** What is delegated on behalf of an agent: its own configuration, whatever its own ceiling. */
  function PermissionsOf(config: map<Id, AgentPermissions>, agent: Id): AgentPermissions {
    if agent in config then config[agent] else NO_PERMISSIONS
  }

  /** The setting an agent is configured with for a tool. */
  function Configured(config: map<Id, AgentPermissions>, agent: Id, tool: string): Option<Setting> {
    SettingFor(PermissionsOf(config, agent), tool)
  }

  /** The agent at a place of a path: the one a delegated session was spawned for, or the agent of the root's run. */
  function AgentAt(t: Tables, path: seq<Id>, root: Id, i: nat): Id
    requires i < |path|
  {
    if path[i] in t.links then t.links[path[i]].agent else root
  }

  /** A path up from a session, at most to its root, each ceiling the configuration of the agent right above. */
  predicate Chain(t: Tables, path: seq<Id>, root: Id, config: map<Id, AgentPermissions>) {
    && Climbs(t, path)
    && forall i :: 0 <= i < |path| - 1 ==> t.links[path[i]].ceiling == PermissionsOf(config, AgentAt(t, path, root, i + 1))
  }

  function SettingAt(t: Tables, path: seq<Id>, root: Id, config: map<Id, AgentPermissions>, tool: string, i: nat): Option<Setting>
    requires i < |path|
  {
    Configured(config, AgentAt(t, path, root, i), tool)
  }

  /** The ruling on a call in a delegated session. */
  function RuledIn(t: Tables, s: Id, config: map<Id, AgentPermissions>, tool: string, found: Option<Rule>): PermissionDecision
    requires s in t.links
  {
    RulingFor(Configured(config, t.links[s].agent, tool), SettingFor(t.links[s].ceiling, tool), found).decision
  }

  /** Some standing approval, or none, lets the first session do more with the tool than the i-th agent is set to. */
  ghost predicate Exceeds(t: Tables, path: seq<Id>, root: Id, config: map<Id, AgentPermissions>, tool: string, i: nat)
    requires i < |path| && path[0] in t.links
  {
    var limit := SettingAt(t, path, root, config, tool, i);
    limit.Some? && exists found :: Rank(RuledIn(t, path[0], config, tool, found)) > SettingRank(limit.value)
  }

  const SOME_RULE := Rule("rule", ConfigurationScope, None, None, "", "", "")

  /** Main result on ceilings: the agent right above is never exceeded. One further up, the root's included, is exceeded
      exactly when its own setting is less than Allow, the child's is not Deny, and the agent right above either has no
      setting, or a more permissive one while the child has some. Only the agent right above limits a child, not what
      limits that agent. */
  lemma ExceedsExactly(t: Tables, path: seq<Id>, root: Id, config: map<Id, AgentPermissions>, tool: string, i: nat)
    requires Chain(t, path, root, config) && 1 <= i < |path|
    ensures var own, near := SettingAt(t, path, root, config, tool, 0), SettingAt(t, path, root, config, tool, 1);
            var far := SettingAt(t, path, root, config, tool, i);
            Exceeds(t, path, root, config, tool, i) <==>
              && far.Some? && far.value != SetAllow && own != Some(SetDeny)
              && (near.None? || (own.Some? && SettingRank(near.value) > SettingRank(far.value)))
    ensures !Exceeds(t, path, root, config, tool, 1)
  {
    var own, near := SettingAt(t, path, root, config, tool, 0), SettingAt(t, path, root, config, tool, 1);
    CeilingIs(t, path, root, config, tool);
    var found := Some(SOME_RULE);
    RulingMeaning(own, near, found);
    assert RuledIn(t, path[0], config, tool, found) == RulingFor(own, near, found).decision;
    forall other ensures RuledIn(t, path[0], config, tool, other) == RulingFor(own, near, other).decision {
    }
    hide RuledIn, Chain, SettingAt;
    forall other: Option<Rule> ensures Rank(RulingFor(own, near, other).decision) <= Rank(RulingFor(own, near, found).decision) {
    }
  }

  lemma CeilingIs(t: Tables, path: seq<Id>, root: Id, config: map<Id, AgentPermissions>, tool: string)
    requires Chain(t, path, root, config) && |path| > 1
    ensures path[0] in t.links
    ensures SettingFor(t.links[path[0]].ceiling, tool) == SettingAt(t, path, root, config, tool, 1)
  {
  }

  /** If nobody on the way down has more than the agent above, nobody above is exceeded. */
  predicate Narrows(t: Tables, path: seq<Id>, root: Id, config: map<Id, AgentPermissions>, tool: string) {
    forall i :: 1 <= i < |path| - 1 ==>
      AtMost(SettingAt(t, path, root, config, tool, i), SettingAt(t, path, root, config, tool, i + 1))
  }

  predicate AtMost(lower: Option<Setting>, upper: Option<Setting>) {
    lower.Some? && upper.Some? && SettingRank(lower.value) <= SettingRank(upper.value)
  }

  lemma {:induction false} NarrowingRanks(t: Tables, path: seq<Id>, root: Id, config: map<Id, AgentPermissions>, tool: string, i: nat)
    requires 1 < i < |path| && Narrows(t, path, root, config, tool)
    ensures AtMost(SettingAt(t, path, root, config, tool, 1), SettingAt(t, path, root, config, tool, i))
    decreases i
  {
    hide SettingAt;
    assert AtMost(SettingAt(t, path, root, config, tool, i - 1), SettingAt(t, path, root, config, tool, i - 1 + 1));
    if i > 2 {
      NarrowingRanks(t, path, root, config, tool, i - 1);
    }
  }

  lemma NarrowingIsSafe(t: Tables, path: seq<Id>, root: Id, config: map<Id, AgentPermissions>, tool: string, i: nat)
    requires Chain(t, path, root, config) && 1 <= i < |path| && Narrows(t, path, root, config, tool)
    ensures path[0] in t.links && !Exceeds(t, path, root, config, tool, i)
  {
    ExceedsExactly(t, path, root, config, tool, i);
    if i > 1 {
      NarrowingRanks(t, path, root, config, tool, i);
    }
    hide Exceeds, SettingAt;
  }

  const NO_BASH := NO_PERMISSIONS.(bash := Some(SetDeny), tools := map["delegate" := SetAllow])
  const BASH := NO_PERMISSIONS.(bash := Some(SetAllow), tools := map["delegate" := SetAllow])

  function BashConfig(): map<Id, AgentPermissions> { map["boss" := NO_BASH, "helper" := BASH, "worker" := BASH] }

  /** A run of the denied `boss` delegates to `helper`, which delegates to `worker`. */
  function BashSteps(): seq<Step> {
    [ Create("s", None),
      Spawn("s", "c1", "s1", "i1", "helper", NO_BASH),
      Spawn("s1", "c2", "s2", "i2", "worker", BASH) ]
  }

  const HELPER_LINK := Link("i1", "s", "c1", 1, "helper", NO_BASH)
  const WORKER_LINK := Link("i2", "s1", "c2", 2, "worker", BASH)

  function BashStates(): seq<Tables> {
    var none: Option<Id> := None;
    [ Tables(map[], map[]), Tables(map["s" := none], map[]),
      Tables(map["s" := none, "s1" := none], map["s1" := HELPER_LINK]),
      Tables(map["s" := none, "s1" := none, "s2" := none], map["s1" := HELPER_LINK, "s2" := WORKER_LINK]) ]
  }

  /** The grandchild may use the shell although the root's agent is denied it, and its parent is held to that. */
  lemma GrandchildExceeds()
    ensures Trace(BashStates(), BashSteps(), 3)
    ensures var t, config := BashStates()[3], BashConfig();
            && Chain(t, ["s2", "s1", "s"], "boss", config)
            && Exceeds(t, ["s2", "s1", "s"], "boss", config, "bash", 2)
            && RuledIn(t, "s2", config, "bash", None) == Allow && RuledIn(t, "s1", config, "bash", None) == Deny
  {
    BashTrace();
    hide Trace, BashSteps;
    var t, config := BashStates()[3], BashConfig();
    assert Climbs(t, ["s2", "s1", "s"]);
    ExceedsExactly(t, ["s2", "s1", "s"], "boss", config, "bash", 2);
  }

  lemma BashTrace()
    ensures Trace(BashStates(), BashSteps(), 3)
  {
    hide Next;
    forall i | 0 <= i < 3 ensures Next(BashStates()[i], BashSteps()[i], 3, BashStates()[i + 1]) {
      BashStep(i);
    }
  }

  lemma BashStep(i: nat)
    requires i < 3
    ensures Next(BashStates()[i], BashSteps()[i], 3, BashStates()[i + 1])
  {
    var none: Option<Id> := None;
    var t, t' := BashStates()[i], BashStates()[i + 1];
    assert t'.sessions == t.sessions[if i == 0 then "s" else if i == 1 then "s1" else "s2" := none];
    if i > 0 {
      assert t'.links == t.links[if i == 1 then "s1" else "s2" := if i == 1 then HELPER_LINK else WORKER_LINK];
    }
  }

  // ---------------------------------------------------------------- handing the result back

  /** What is appended to the parent when the child is done. `value` is the result as JSON. */
  function Delivery(p: Projection, agent: Id, r: Id, c: Id, result: AgentResult, value: Json): seq<SemanticEvent> {
    if agent in p.agents.instances && p.agents.instances[agent].result.Some? then []
    else
      [AgentEv(AgentFinished(agent, Some(result))),
       AgentEv(AgentResultDelivered(agent, r, c, result)),
       ToolEv(ToolResult(r, c, "delegate", "delegate", value))]
      + (if OthersReady(p, r, c) then [QueueResumed] else [])
  }

  predicate OthersReady(p: Projection, r: Id, c: Id) {
    r in p.queue.runs && forall d :: d in p.queue.runs[r].toolCalls ==>
      p.queue.runs[r].toolCalls[d].callId == c || p.queue.runs[r].toolCalls[d].result.Some?
  }

  predicate Receives(p: Projection, r: Id, c: Id, value: Json) {
    && r in p.queue.runs && c in p.queue.runs[r].toolCalls
    && (p.queue.runs[r].toolCalls[c].result.None? || p.queue.runs[r].toolCalls[c].result == Some(value))
  }

  function Answered(run: Run, c: Id, value: Json): Run
    requires c in run.toolCalls
  {
    run.(toolCalls := run.toolCalls[c := run.toolCalls[c].(result := Some(value))])
  }

  function Finished(a: Agents, agent: Id, result: AgentResult): Agents
    requires agent in a.instances
  {
    Agents(a.phases[agent := AgentFinishedPhase], a.instances[agent := a.instances[agent].(result := Some(result))])
  }

  lemma AgentReplay(p: Projection, n: EventId, agent: Id, r: Id, c: Id, result: AgentResult)
    requires agent in p.agents.instances && p.agents.instances[agent].result.None?
    ensures Replay(p, n, [AgentEv(AgentFinished(agent, Some(result))), AgentEv(AgentResultDelivered(agent, r, c, result))])
            == Outcome(p.(state := Stamp(p.state, n + 1), agents := Finished(p.agents, agent, result)), None)
  {
    var e1, e2 := AgentEv(AgentFinished(agent, Some(result))), AgentEv(AgentResultDelivered(agent, r, c, result));
    assert [e1, e2] == [e1] + [e2];
    ReplayOne(p, n, e1);
    ReplayAppend(p, n, [e1], [e2]);
    ReplayOne(Session.Step(p, n, e1).value, n + 1, e2);
  }

  lemma UnknownAgentRefused(p: Projection, n: EventId, agent: Id, r: Id, c: Id, result: AgentResult)
    requires agent !in p.agents.instances
    ensures !Replay(p, n, [AgentEv(AgentFinished(agent, Some(result))), AgentEv(AgentResultDelivered(agent, r, c, result))]).Ok()
  {
    var e1, e2 := AgentEv(AgentFinished(agent, Some(result))), AgentEv(AgentResultDelivered(agent, r, c, result));
    assert [e1, e2] == [e1] + [e2];
    ReplayOne(p, n, e1);
    ReplayAppend(p, n, [e1], [e2]);
  }

  lemma ResultReplay(p: Projection, n: EventId, r: Id, c: Id, value: Json, resume: bool)
    ensures var o := Replay(p, n, [ToolEv(ToolResult(r, c, "delegate", "delegate", value))] + (if resume then [QueueResumed] else []));
            && (o.Ok() <==> Receives(p, r, c, value))
            && (o.Ok() ==> o.value.agents == p.agents && (resume ==> !o.value.queue.paused)
                           && o.value.queue.runs == p.queue.runs[r := Answered(p.queue.runs[r], c, value)])
  {
    var e := ToolEv(ToolResult(r, c, "delegate", "delegate", value));
    ReplayOne(p, n, e);
    if resume {
      ReplayAppend(p, n, [e], [QueueResumed]);
      if Session.Step(p, n, e).Ok() {
        ReplayOne(Session.Step(p, n, e).value, n + 1, QueueResumed);
      }
    } else {
      assert [e] + [] == [e];
    }
  }

  /** Delivering is accepted exactly when the parent spawned the agent and its call still takes this result. The
      parent then holds the result on both the agent and the call, and delivering again appends nothing. */
  lemma DeliveryAccepted(p: Projection, n: EventId, agent: Id, r: Id, c: Id, result: AgentResult, value: Json)
    requires agent in p.agents.instances ==> p.agents.instances[agent].result.None?
    ensures var o := Replay(p, n, Delivery(p, agent, r, c, result, value));
            && (o.Ok() <==> agent in p.agents.instances && Receives(p, r, c, value))
            && (o.Ok() ==>
                  && agent in o.value.agents.instances && o.value.agents.instances[agent].result == Some(result)
                  && o.value.queue.runs == p.queue.runs[r := Answered(p.queue.runs[r], c, value)]
                  && (OthersReady(p, r, c) ==> !o.value.queue.paused)
                  && forall again, other :: Delivery(o.value, agent, r, c, again, other) == [])
  {
    hide Replay, Session.Step, OthersReady, Finished, Stamp;
    var head := [AgentEv(AgentFinished(agent, Some(result))), AgentEv(AgentResultDelivered(agent, r, c, result))];
    var resume := OthersReady(p, r, c);
    var tail := [ToolEv(ToolResult(r, c, "delegate", "delegate", value))] + (if resume then [QueueResumed] else []);
    assert Delivery(p, agent, r, c, result, value) == head + tail;
    ReplayAppend(p, n, head, tail);
    if agent in p.agents.instances {
      AgentReplay(p, n, agent, r, c, result);
      var q := p.(state := Stamp(p.state, n + 1), agents := Finished(p.agents, agent, result));
      ResultReplay(q, n + 2, r, c, value, resume);
      FinishedHolds(p.agents, agent, result);
    } else {
      UnknownAgentRefused(p, n, agent, r, c, result);
    }
  }

  lemma FinishedHolds(a: Agents, agent: Id, result: AgentResult)
    requires agent in a.instances
    ensures agent in Finished(a, agent, result).instances && Finished(a, agent, result).instances[agent].result == Some(result)
  {
  }

  /** The session's own record, written first: the child's agent finishes with the result unless it already has one. */
  function ChildReport(p: Projection, agent: Id, result: AgentResult): seq<SemanticEvent> {
    if agent in p.agents.instances && p.agents.instances[agent].result.Some? then []
    else [AgentEv(AgentFinished(agent, Some(result)))]
  }

  /** The child's record is refused exactly when the child does not know its agent, and the parent is then not told; it
      is written once, and a later result does not change it. */
  lemma ChildReports(p: Projection, n: EventId, agent: Id, result: AgentResult)
    ensures var o := Replay(p, n, ChildReport(p, agent, result));
            && (o.Ok() <==> agent in p.agents.instances)
            && (o.Ok() ==>
                  && agent in o.value.agents.instances
                  && o.value.agents.instances[agent].result ==
                     (if p.agents.instances[agent].result.Some? then p.agents.instances[agent].result else Some(result))
                  && forall other :: ChildReport(o.value, agent, other) == [])
            && o.value.queue == p.queue
  {
    if ChildReport(p, agent, result) == [] {
      ReplayNone(p, n);
    } else {
      ReplayOne(p, n, AgentEv(AgentFinished(agent, Some(result))));
    }
  }

  /** Delivering the last result a waiting run needs makes that run ready, which is when the parent's worker
      is run; no other run becomes active or ready. */
  lemma DeliveryResumes(p: Projection, n: EventId, agent: Id, r: Id, c: Id, result: AgentResult, value: Json)
    requires agent in p.agents.instances && p.agents.instances[agent].result.None? && Receives(p, r, c, value)
    requires p.queue.runs[r].status == RequiresAction
    requires forall d :: d in p.queue.runs[r].toolCalls ==> p.queue.runs[r].toolCalls[d].callId == d
    ensures var o := Replay(p, n, Delivery(p, agent, r, c, result, value));
            && o.Ok() && (OthersReady(p, r, c) <==> r in ReadyRuns(o.value.queue.runs))
            && (forall x :: x in ReadyRuns(o.value.queue.runs) ==> x == r || x in ReadyRuns(p.queue.runs))
            && RunsWith(o.value.queue.runs, RunRunning) == RunsWith(p.queue.runs, RunRunning)
  {
    hide Replay, Delivery, Session.Step;
    DeliveryAccepted(p, n, agent, r, c, result, value);
    var runs := p.queue.runs[r := Answered(p.queue.runs[r], c, value)];
    var calls := runs[r].toolCalls;
    assert c in calls && forall d :: d in calls && d != c ==> calls[d] == p.queue.runs[r].toolCalls[d];
    assert AllResults(runs[r]) <==> OthersReady(p, r, c);
    assert forall x :: x in runs && x != r ==> runs[x] == p.queue.runs[x];
  }
}
