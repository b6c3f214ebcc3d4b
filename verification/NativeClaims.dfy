/** Native tool calls run at most once (piqo-server/src/supervisor.rs, `execute_approved_native_calls`).

    Any number of actors - the worker, and every client that approves a request - look for approved calls
    without a lock. The claim they append to the log decides: an execution starts only after its own claim was
    accepted. Actors may stop or crash anywhere, and a crash loses everything but the log.
    What is proved holds for one session; claims of different sessions are in different logs. */
module NativeClaims {
  import opened Prelude
  import opened Events
  import opened Session
  import opened History
  import opened Ledger

  type ActorId = nat

  /** What an actor is doing: looking for a call of its run, about to claim one, holding a claim, done with the
      execution but not yet reported. */
  datatype Actor =
    | Looking(run: Id)
    | Chosen(run: Id, call: Id)
    | Claimed(run: Id, call: Id, execution: Id)
    | Executed(run: Id, call: Id, execution: Id)

  /** An execution that was started: its side effect happened. */
  datatype Started = Started(run: Id, call: Id, execution: Id)

  datatype System = System(
    log: seq<SemanticEvent>,
    actors: map<ActorId, Actor>,
    issued: set<Id>,
    started: seq<Started>)

  datatype Step =
    | Spawn(actor: ActorId, run: Id)
    | Look(actor: ActorId, call: Id)
    | Claim(actor: ActorId, execution: Id)
    | Execute(actor: ActorId)
    | Report(actor: ActorId, agentId: Id, toolName: string, result: Json)
    | Stop(actor: ActorId)
    | AppendOther(event: SemanticEvent)
    | Crash

  function ClaimEvent(run: Id, call: Id, execution: Id): SemanticEvent {
    ToolEv(ToolExecutionStarted(run, call, execution))
  }

  predicate IsClaim(e: SemanticEvent) { e.ToolEv? && e.tool.ToolExecutionStarted? }

  /** Some request for this call of this run has been allowed. */
  predicate Approved(p: Projection, run: Id, call: Id) {
    exists q :: q in p.permissions && p.permissions[q].runId == run && p.permissions[q].call == Some(call)
                && p.permissions[q].decision == Some(Allow)
  }

  /** The calls an actor may pick. */
  predicate Eligible(p: Projection, run: Id, call: Id) {
    && run in p.queue.runs && call in p.queue.runs[run].toolCalls
    && p.queue.runs[run].toolCalls[call].native
    && p.queue.runs[run].toolCalls[call].result.None?
    && p.queue.runs[run].toolCalls[call].executionId.None?
    && Approved(p, run, call)
  }

  function View(session: Id, s: System): Projection { Fold(session, s.log).value }

  function Set(s: System, a: ActorId, actor: Actor): System { s.(actors := s.actors[a := actor]) }

  ghost predicate DoClaim(session: Id, s: System, a: ActorId, x: Id, s': System) {
    && a in s.actors && s.actors[a].Chosen?
    && x !in s.issued
    && (var Chosen(r, c) := s.actors[a];
        var log := s.log + [ClaimEvent(r, c, x)];
        if Accepted(session, log) then s' == Set(s, a, Claimed(r, c, x)).(log := log, issued := s.issued + {x})
        else s' == s.(actors := s.actors - {a}, issued := s.issued + {x}))
  }

  ghost predicate DoReport(session: Id, s: System, a: ActorId, e: SemanticEvent, s': System) {
    && a in s.actors && s.actors[a].Executed?
    && (if Accepted(session, s.log + [e]) then s' == Set(s, a, Looking(s.actors[a].run)).(log := s.log + [e])
        else s' == s.(actors := s.actors - {a}))
  }

  ghost predicate Next(session: Id, s: System, step: Step, s': System) {
    match step
    case Spawn(a, r) => a !in s.actors && s' == Set(s, a, Looking(r))
    case Look(a, c) =>
      && a in s.actors && s.actors[a].Looking?
      && Eligible(View(session, s), s.actors[a].run, c)
      && s' == Set(s, a, Chosen(s.actors[a].run, c))
    case Claim(a, x) => DoClaim(session, s, a, x, s')
    case Execute(a) =>
      && a in s.actors && s.actors[a].Claimed?
      && (var Claimed(r, c, x) := s.actors[a];
          s' == Set(s, a, Executed(r, c, x)).(started := s.started + [Started(r, c, x)]))
    case Report(a, agentId, toolName, v) =>
      && a in s.actors && s.actors[a].Executed?
      && DoReport(session, s, a, ToolEv(ToolResult(s.actors[a].run, s.actors[a].call, agentId, toolName, v)), s')
    case Stop(a) => a in s.actors && s' == s.(actors := s.actors - {a})
    case AppendOther(e) => !IsClaim(e) && Accepted(session, s.log + [e]) && s' == s.(log := s.log + [e])
    case Crash => s' == s.(actors := map[])
  }

  // ---------------------------------------------------------------- the invariant

  predicate Holds(a: Actor) { a.Claimed? || a.Executed? }

  /** Claims in the log, and executions, use identifiers that were issued. */
  ghost predicate ClaimsIssued(q: Queue, issued: set<Id>) {
    forall r, c :: ClaimOf(q, r, c).Some? ==> ClaimOf(q, r, c).value in issued
  }

  /** Whoever holds a claim, or has started an execution, has it in the log. */
  ghost predicate ClaimsLogged(session: Id, s: System) {
    && (forall a :: a in s.actors && Holds(s.actors[a]) ==>
          ClaimOf(View(session, s).queue, s.actors[a].run, s.actors[a].call) == Some(s.actors[a].execution))
    && (forall i :: 0 <= i < |s.started| ==>
          ClaimOf(View(session, s).queue, s.started[i].run, s.started[i].call) == Some(s.started[i].execution))
  }

  /** An execution identifier belongs to one holder, and is not executed before its holder executes it. */
  ghost predicate OneHolder(s: System) {
    && (forall a, b ::
          (a in s.actors && b in s.actors && Holds(s.actors[a]) && Holds(s.actors[b])
           && s.actors[a].execution == s.actors[b].execution) ==> a == b)
    && (forall a, i :: a in s.actors && s.actors[a].Claimed? && 0 <= i < |s.started| ==>
          s.started[i].execution != s.actors[a].execution)
    && (forall i, j :: 0 <= i < j < |s.started| ==> s.started[i].execution != s.started[j].execution)
    && (forall a :: a in s.actors && Holds(s.actors[a]) ==> s.actors[a].execution in s.issued)
    && (forall i :: 0 <= i < |s.started| ==> s.started[i].execution in s.issued)
  }

  ghost predicate ChosenApproved(session: Id, s: System) {
    forall a :: a in s.actors && s.actors[a].Chosen? ==> Approved(View(session, s), s.actors[a].run, s.actors[a].call)
  }

  /** Every claim in the log follows an Allow for its call. */
  ghost predicate ClaimsFollowAllow(session: Id, log: seq<SemanticEvent>) {
    forall k :: 0 <= k < |log| && IsClaim(log[k]) ==>
      Approved(Fold(session, log[..k]).value, log[k].tool.runId, log[k].tool.callId)
  }

  ghost predicate Inv(session: Id, s: System) {
    && Accepted(session, s.log)
    && ClaimsIssued(View(session, s).queue, s.issued) && ClaimsLogged(session, s) && OneHolder(s) && ChosenApproved(session, s)
    && ClaimsFollowAllow(session, s.log)
  }

  // ---------------------------------------------------------------- growing the log

  /** What an accepted append does to claims, and that it never withdraws an Allow. */
  lemma GrowFacts(session: Id, log: seq<SemanticEvent>, e: SemanticEvent)
    requires Accepted(session, log) && Accepted(session, log + [e])
    ensures var p, q := Fold(session, log).value, Fold(session, log + [e]).value;
            && (forall r, c :: ClaimOf(q.queue, r, c) ==
                  if IsClaim(e) && e.tool.runId == r && e.tool.callId == c then Some(e.tool.executionId) else ClaimOf(p.queue, r, c))
            && (IsClaim(e) ==>
                  || ClaimOf(p.queue, e.tool.runId, e.tool.callId).None?
                  || ClaimOf(p.queue, e.tool.runId, e.tool.callId) == Some(e.tool.executionId))
            && (forall r, c :: Approved(p, r, c) ==> Approved(q, r, c))
  {
    var p, q := Fold(session, log).value, Fold(session, log + [e]).value;
    assert (log + [e])[..|log|] == log;
    FoldLast(session, log + [e]);
    HistoryNeverRewritten(session, log + [e], |log|);
    if IsClaim(e) {
      ClaimStep(p, |log| + 1, e, e.tool.runId, e.tool.callId);
    }
    forall r, c
      ensures ClaimOf(q.queue, r, c) ==
              if IsClaim(e) && e.tool.runId == r && e.tool.callId == c then Some(e.tool.executionId) else ClaimOf(p.queue, r, c)
    {
      ClaimStep(p, |log| + 1, e, r, c);
    }
    hide Session.Step, Fold;
    forall r, c | Approved(p, r, c) ensures Approved(q, r, c) {
      var x :| x in p.permissions && p.permissions[x].runId == r && p.permissions[x].call == Some(c)
               && p.permissions[x].decision == Some(Allow);
      assert x in q.permissions;
      assert q.permissions[x].(decision := None) == p.permissions[x].(decision := None);
    }
  }

  lemma GrowKeepsAllow(session: Id, log: seq<SemanticEvent>, e: SemanticEvent)
    requires ClaimsFollowAllow(session, log)
    requires IsClaim(e) ==> Approved(Fold(session, log).value, e.tool.runId, e.tool.callId)
    ensures ClaimsFollowAllow(session, log + [e])
  {
    hide Fold, Approved;
    forall k | 0 <= k < |log + [e]| && IsClaim((log + [e])[k])
      ensures Approved(Fold(session, (log + [e])[..k]).value, (log + [e])[k].tool.runId, (log + [e])[k].tool.callId)
    {
      assert (log + [e])[..k] == log[..k];
      assert log[..|log|] == log;
    }
  }

  // ---------------------------------------------------------------- every step keeps it

  lemma OtherKeeps(session: Id, s: System, e: SemanticEvent)
    requires Inv(session, s) && !IsClaim(e) && Accepted(session, s.log + [e])
    ensures Inv(session, s.(log := s.log + [e]))
  {
    hide Accepted, Fold, Approved, ClaimOf, ClaimsFollowAllow;
    GrowFacts(session, s.log, e);
    GrowKeepsAllow(session, s.log, e);
  }

  lemma ClaimKeeps(session: Id, s: System, a: ActorId, x: Id, s': System)
    requires Inv(session, s) && DoClaim(session, s, a, x, s')
    ensures Inv(session, s')
  {
    hide Accepted, Fold, Approved, ClaimOf, ClaimsFollowAllow;
    var e := ClaimEvent(s.actors[a].run, s.actors[a].call, x);
    if Accepted(session, s.log + [e]) {
      GrowFacts(session, s.log, e);
      GrowKeepsAllow(session, s.log, e);
    }
  }

  lemma SpawnKeeps(session: Id, s: System, a: ActorId, r: Id)
    requires Inv(session, s) && a !in s.actors
    ensures Inv(session, Set(s, a, Looking(r)))
  {
    hide Accepted, Fold, ClaimOf, ClaimsFollowAllow, Approved, ClaimsIssued;
  }

  lemma LookKeeps(session: Id, s: System, a: ActorId, c: Id)
    requires Inv(session, s) && a in s.actors && s.actors[a].Looking? && Approved(View(session, s), s.actors[a].run, c)
    ensures Inv(session, Set(s, a, Chosen(s.actors[a].run, c)))
  {
    hide Accepted, Fold, ClaimOf, ClaimsFollowAllow, Approved, ClaimsIssued;
  }

  lemma ExecuteKeeps(session: Id, s: System, a: ActorId)
    requires Inv(session, s) && a in s.actors && s.actors[a].Claimed?
    ensures var Claimed(r, c, x) := s.actors[a];
            Inv(session, Set(s, a, Executed(r, c, x)).(started := s.started + [Started(r, c, x)]))
  {
    hide Accepted, Fold, ClaimOf, ClaimsFollowAllow, Approved, ClaimsIssued;
  }

  lemma StopKeeps(session: Id, s: System, left: map<ActorId, Actor>)
    requires Inv(session, s) && forall a :: a in left ==> a in s.actors && left[a] == s.actors[a]
    ensures Inv(session, s.(actors := left))
  {
    hide Accepted, Fold, ClaimOf, ClaimsFollowAllow, Approved, ClaimsIssued;
  }

  lemma ReportKeeps(session: Id, s: System, a: ActorId, e: SemanticEvent, s': System)
    requires Inv(session, s) && DoReport(session, s, a, e, s') && !IsClaim(e)
    ensures Inv(session, s')
  {
    hide Accepted, Fold, Approved, ClaimOf, ClaimsFollowAllow;
    if Accepted(session, s.log + [e]) {
      OtherKeeps(session, s, e);
    }
  }

  lemma EligibleApproved(p: Projection, r: Id, c: Id)
    requires Eligible(p, r, c)
    ensures Approved(p, r, c)
  {
  }

  lemma StepKeepsInv(session: Id, s: System, step: Step, s': System)
    requires Inv(session, s) && Next(session, s, step, s')
    ensures Inv(session, s')
  {
    hide Inv, DoClaim, DoReport, Accepted, Eligible;
    match step {
      case Claim(a, x) => ClaimKeeps(session, s, a, x, s');
      case Report(a, agentId, toolName, v) =>
        ReportKeeps(session, s, a, ToolEv(ToolResult(s.actors[a].run, s.actors[a].call, agentId, toolName, v)), s');
      case AppendOther(e) => OtherKeeps(session, s, e);
      case Spawn(a, r) => SpawnKeeps(session, s, a, r);
      case Look(a, c) =>
        EligibleApproved(View(session, s), s.actors[a].run, c);
        LookKeeps(session, s, a, c);
      case Execute(a) => ExecuteKeeps(session, s, a);
      case Stop(a) => StopKeeps(session, s, s.actors - {a});
      case Crash => StopKeeps(session, s, map[]);
    }
  }

  // ---------------------------------------------------------------- runs of the system

  /** A session whose log, perhaps inherited from a fork, holds only issued claims that follow an Allow. */
  ghost predicate Init(session: Id, s: System) {
    && s.actors == map[] && s.started == []
    && Accepted(session, s.log) && ClaimsIssued(View(session, s).queue, s.issued) && ClaimsFollowAllow(session, s.log)
  }

  ghost predicate Trace(session: Id, states: seq<System>, steps: seq<Step>) {
    && |states| == |steps| + 1
    && Init(session, states[0])
    && forall i :: 0 <= i < |steps| ==> Next(session, states[i], steps[i], states[i + 1])
  }

  lemma {:induction false} TraceKeepsInv(session: Id, states: seq<System>, steps: seq<Step>)
    requires Trace(session, states, steps)
    ensures Inv(session, states[|steps|])
    decreases |steps|
  {
    if steps != [] {
      hide Next, Inv, Init;
      var n := |steps| - 1;
      assert Trace(session, states[..n + 1], steps[..n]) by {
        forall i | 0 <= i < n ensures Next(session, states[..n + 1][i], steps[..n][i], states[..n + 1][i + 1]) {
          assert Next(session, states[i], steps[i], states[i + 1]);
        }
      }
      TraceKeepsInv(session, states[..n + 1], steps[..n]);
      StepKeepsInv(session, states[n], steps[n], states[n + 1]);
    }
  }

  /** The claim of an execution is in the log, after an Allow for its call. */
  ghost predicate ClaimedAfterAllow(session: Id, log: seq<SemanticEvent>, x: Started) {
    exists k :: 0 <= k < |log|
      && log[k] == ClaimEvent(x.run, x.call, x.execution)
      && Approved(Fold(session, log[..k]).value, x.run, x.call)
  }

  /** Main result, for every interleaving, stop and crash: a call's execution starts at most once, and its
      claim is in the log, after an Allow for that very call. */
  lemma AtMostOnce(session: Id, states: seq<System>, steps: seq<Step>)
    requires Trace(session, states, steps)
    ensures var s := states[|steps|];
            && (forall i, j :: 0 <= i < j < |s.started| ==>
                  s.started[i].run != s.started[j].run || s.started[i].call != s.started[j].call)
            && (forall i :: 0 <= i < |s.started| ==> ClaimedAfterAllow(session, s.log, s.started[i]))
  {
    TraceKeepsInv(session, states, steps);
    hide Trace, Inv, ClaimedAfterAllow;
    var s := states[|steps|];
    OneExecution(session, s);
    forall i | 0 <= i < |s.started| ensures ClaimedAfterAllow(session, s.log, s.started[i]) {
      StartedWasClaimed(session, s, i);
    }
  }

  /** A call has one claim, and an execution identifier is started once. */
  lemma OneExecution(session: Id, s: System)
    requires Inv(session, s)
    ensures forall i, j :: 0 <= i < j < |s.started| ==>
              s.started[i].run != s.started[j].run || s.started[i].call != s.started[j].call
  {
    assert ClaimsLogged(session, s) && OneHolder(s);
    hide Fold, Accepted, ClaimOf, Inv, Approved;
  }

  lemma StartedWasClaimed(session: Id, s: System, i: nat)
    requires Inv(session, s) && i < |s.started|
    ensures ClaimedAfterAllow(session, s.log, s.started[i])
  {
    assert ClaimsFollowAllow(session, s.log) && ClaimsLogged(session, s) && Accepted(session, s.log);
    hide Fold, Accepted, ClaimOf, Inv, Approved;
    var Started(r, c, x) := s.started[i];
    ClaimRecorded(session, s.log, r, c, x);
    var k :| 0 <= k < |s.log| && SaysClaim(s.log[k], r, c, x);
    assert IsClaim(s.log[k]);
  }
}
