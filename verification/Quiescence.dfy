/** Interrupting runs in bulk: server shutdown (`interrupt_remaining_runs`) and the cleanup of claimed native
    calls after a restart (`resume_ready_actions_after_restart`), both in piqo-server/src/supervisor.rs.
    Each reads a projection, builds one batch from it, and appends the batch. */
module Quiescence {
  import opened Prelude
  import opened Events
  import opened Session

  /** One interruption per run. */
  function InterruptAll(runs: seq<Id>, reason: string): seq<SemanticEvent> {
    seq(|runs|, i requires 0 <= i < |runs| => RunEv(RunInterrupted(runs[i], reason)))
  }

  function InterruptedRun(r: Run, reason: string): Run {
    r.(status := RunInterruptedStatus, error := Some(reason))
  }

  /** The runs after the batch: the named ones interrupted, every other untouched. */
  function Interrupted(runs: map<Id, Run>, named: seq<Id>, reason: string): map<Id, Run> {
    map r | r in runs :: if r in named then InterruptedRun(runs[r], reason) else runs[r]
  }

  /** A batch of interruptions of distinct open runs is always accepted, however many runs there are, and does
      exactly what it says. */
  lemma {:induction false} InterruptReplay(p: Projection, n: EventId, named: seq<Id>, reason: string)
    requires Distinct(named)
    requires forall i :: 0 <= i < |named| ==> named[i] in p.queue.runs && !Terminal(p.queue.runs[named[i]].status)
    ensures var o := Replay(p, n, InterruptAll(named, reason));
            && o.Ok()
            && o.value.queue == Queue(Interrupted(p.queue.runs, named, reason), p.queue.paused || named != [])
            && o.value.state.phase == p.state.phase && o.value.state.revision == p.state.revision
            && o.value.messages == p.messages && o.value.permissions == p.permissions && o.value.agents == p.agents
    decreases |named|
  {
    hide Step, InterruptedRun;
    if named == [] {
      assert InterruptAll(named, reason) == [];
      assert Interrupted(p.queue.runs, named, reason) == p.queue.runs;
    } else {
      var k := |named| - 1;
      var batch := InterruptAll(named, reason);
      InterruptReplay(p, n, named[..k], reason);
      assert batch[..k] == InterruptAll(named[..k], reason);
      ReplayNext(p, n, batch, k);
      assert batch[..k + 1] == batch;
      var q := Replay(p, n, batch[..k]).value;
      assert q.queue.runs[named[k]] == p.queue.runs[named[k]];
      InterruptOne(q, n + k, named[k], reason);
      assert q.queue.runs[named[k] := InterruptedRun(p.queue.runs[named[k]], reason)] == Interrupted(p.queue.runs, named, reason);
    }
  }

  lemma InterruptOne(q: Projection, id: EventId, r: Id, reason: string)
    requires r in q.queue.runs && !Terminal(q.queue.runs[r].status)
    ensures var o := Step(q, id, RunEv(RunInterrupted(r, reason)));
            o == Outcome(q.(state := Stamp(q.state, id),
                            queue := Queue(q.queue.runs[r := InterruptedRun(q.queue.runs[r], reason)], true)), None)
  {
  }

  // ---------------------------------------------------------------- shutdown

  /** The runs that pass a test, in key order. */
  function RunsThat(runs: map<Id, Run>, test: Run -> bool): (r: seq<Id>)
    ensures Distinct(r)
    ensures forall k :: k in r <==> k in runs && test(runs[k])
  {
    var keys := KeysInOrder(runs.Keys);
    var keep := (k: Id) => k in runs && test(runs[k]);
    FilterKeeps(keys, keep);
    FilterApart(keys, keep, (k: Id) => k);
    Filter(keys, keep)
  }

  function OpenRuns(runs: map<Id, Run>): (r: seq<Id>)
    ensures Distinct(r)
  {
    RunsThat(runs, (r: Run) => !Terminal(r.status))
  }

  lemma InterruptNext(named: seq<Id>, r: Id, reason: string)
    ensures InterruptAll(named + [r], reason) == InterruptAll(named, reason) + [RunEv(RunInterrupted(r, reason))]
  {
  }

  /** The loop over `projection.runs.values()` that collects the interruptions, then the phase change. */
  method ShutdownBatch(p: Projection, reason: string) returns (batch: seq<SemanticEvent>)
    ensures batch == InterruptAll(OpenRuns(p.queue.runs), reason) + PhaseStop(p.state.phase, reason)
  {
    hide InterruptAll, Filter, Terminal;
    batch := [];
    var keys := KeysInOrder(p.queue.runs.Keys);
    ghost var keep := (k: Id) => k in p.queue.runs && !Terminal(p.queue.runs[k].status);
    NothingKept(keep, reason);
    for i := 0 to |keys|
      invariant batch == InterruptAll(Filter(keys[..i], keep), reason)
    {
      assert keys[i] in p.queue.runs.Keys;
      assert keys[..i + 1] == keys[..i] + [keys[i]];
      FilterLast(keys[..i], keys[i], keep);
      ghost var kept := Filter(keys[..i], keep);
      if !Terminal(p.queue.runs[keys[i]].status) {
        assert Filter(keys[..i + 1], keep) == kept + [keys[i]];
        InterruptNext(kept, keys[i], reason);
        batch := batch + [RunEv(RunInterrupted(keys[i], reason))];
      } else {
        assert Filter(keys[..i + 1], keep) == kept;
      }
    }
    assert keys[..|keys|] == keys;
    SameOpenRuns(p.queue.runs, keep);
    if p.state.phase == Running {
      batch := batch + [SessionEv(SessionPhaseChanged(Running, SessionPhase.Interrupted, Some(reason)))];
    }
  }

  lemma NothingKept(keep: Id -> bool, reason: string)
    ensures InterruptAll(Filter([], keep), reason) == []
  {
  }

  lemma SameOpenRuns(runs: map<Id, Run>, keep: Id -> bool)
    requires forall k :: k in runs ==> keep(k) == !Terminal(runs[k].status)
    ensures Filter(KeysInOrder(runs.Keys), keep) == OpenRuns(runs)
  {
    var test := (r: Run) => !Terminal(r.status);
    SameFilter(KeysInOrder(runs.Keys), keep, (k: Id) => k in runs && test(runs[k]));
  }

  function PhaseStop(phase: SessionPhase, reason: string): seq<SemanticEvent> {
    if phase == Running then [SessionEv(SessionPhaseChanged(Running, SessionPhase.Interrupted, Some(reason)))] else []
  }

  /** Main result: the shutdown batch of any projection is accepted. Afterwards every run is over and the
      session is not running; runs that were over are untouched. */
  lemma ShutdownSettles(p: Projection, n: EventId, reason: string)
    ensures var batch := InterruptAll(OpenRuns(p.queue.runs), reason) + PhaseStop(p.state.phase, reason);
            var o := Replay(p, n, batch);
            && o.Ok()
            && o.value.state.phase == (if p.state.phase == Running then SessionPhase.Interrupted else p.state.phase)
            && o.value.queue.runs.Keys == p.queue.runs.Keys
            && (forall r :: r in p.queue.runs ==>
                  o.value.queue.runs[r] == if Terminal(p.queue.runs[r].status) then p.queue.runs[r]
                                           else InterruptedRun(p.queue.runs[r], reason))
            && (batch == [] <==> p.state.phase != Running && forall r :: r in p.queue.runs ==> Terminal(p.queue.runs[r].status))
  {
    hide Step, Replay, OpenRuns, InterruptAll, Terminal;
    var open := OpenRuns(p.queue.runs);
    var batch := InterruptAll(open, reason);
    NoOpenRuns(p.queue.runs, reason);
    OpenIsNotTerminal(p.queue.runs);
    InterruptReplay(p, n, open, reason);
    StopReplay(Replay(p, n, batch).value, n + |batch|, reason);
    ReplayAppend(p, n, batch, PhaseStop(p.state.phase, reason));
  }

  lemma NoOpenRuns(runs: map<Id, Run>, reason: string)
    ensures InterruptAll(OpenRuns(runs), reason) == [] <==> forall r :: r in runs ==> Terminal(runs[r].status)
  {
    var open := OpenRuns(runs);
    if open == [] {
      forall r | r in runs ensures Terminal(runs[r].status) { assert r !in open; }
    } else {
      assert open[0] in open;
    }
  }

  lemma OpenIsNotTerminal(runs: map<Id, Run>)
    ensures forall r :: r in runs ==> (r in OpenRuns(runs) <==> !Terminal(runs[r].status))
    ensures forall i :: 0 <= i < |OpenRuns(runs)| ==> OpenRuns(runs)[i] in runs && !Terminal(runs[OpenRuns(runs)[i]].status)
    ensures Terminal(RunInterruptedStatus)
  {
    assert forall i :: 0 <= i < |OpenRuns(runs)| ==> OpenRuns(runs)[i] in OpenRuns(runs);
  }

  lemma StopReplay(q: Projection, n: EventId, reason: string)
    ensures var o := Replay(q, n, PhaseStop(q.state.phase, reason));
            && o.Ok() && o.value.queue == q.queue
            && o.value.state.phase == if q.state.phase == Running then SessionPhase.Interrupted else q.state.phase
  {
    if q.state.phase == Running {
      ReplayOne(q, n, PhaseStop(q.state.phase, reason)[0]);
      assert PhaseStop(q.state.phase, reason) == [PhaseStop(q.state.phase, reason)[0]];
    } else {
      ReplayNone(q, n);
    }
  }

  // ---------------------------------------------------------------- restart

  /** A run waiting for action that holds a claimed native call without a result: its execution was cut off. */
  predicate CutOff(r: Run) {
    && r.status == RequiresAction
    && exists c :: c in r.toolCalls && r.toolCalls[c].native && r.toolCalls[c].executionId.Some? && r.toolCalls[c].result.None?
  }

  /** The call is the client's, or was never started, or has come back. */
  predicate Settled(c: ToolCall) { !c.native || c.executionId == None || c.result != None }

  function CutOffRuns(runs: map<Id, Run>): seq<Id> { RunsThat(runs, (r: Run) => CutOff(r)) }

  function RestartBatch(p: Projection): seq<SemanticEvent> {
    InterruptAll(CutOffRuns(p.queue.runs), "native_execution_interrupted_by_restart")
  }

  /** The restart batch is accepted, leaves no run waiting on a claimed call that will never report, touches no
      other run, and is empty the second time. */
  lemma RestartSettles(p: Projection, n: EventId)
    ensures var o := Replay(p, n, RestartBatch(p));
            && o.Ok()
            && o.value.queue.runs.Keys == p.queue.runs.Keys
            && (forall r :: r in p.queue.runs ==>
                  && !CutOff(o.value.queue.runs[r])
                  && o.value.queue.runs[r] ==
                     (if CutOff(p.queue.runs[r]) then InterruptedRun(p.queue.runs[r], "native_execution_interrupted_by_restart")
                      else p.queue.runs[r])
                  && (o.value.queue.runs[r].status == RequiresAction ==>
                        forall c :: c in o.value.queue.runs[r].toolCalls ==> Settled(o.value.queue.runs[r].toolCalls[c]))
                  && (o.value.queue.runs[r] != p.queue.runs[r] ==>
                        && p.queue.runs[r].status == RequiresAction
                        && exists c :: c in p.queue.runs[r].toolCalls && !Settled(p.queue.runs[r].toolCalls[c])))
            && RestartBatch(o.value) == []
  {
    hide Step, Replay, InterruptAll, CutOffRuns;
    var named := CutOffRuns(p.queue.runs);
    CutOffNamed(p.queue.runs);
    InterruptReplay(p, n, named, "native_execution_interrupted_by_restart");
    NothingCutOff(Replay(p, n, RestartBatch(p)).value);
  }

  lemma CutOffNamed(runs: map<Id, Run>)
    ensures var named := CutOffRuns(runs);
            && Distinct(named)
            && (forall i :: 0 <= i < |named| ==> named[i] in runs && !Terminal(runs[named[i]].status))
            && (forall r :: r in runs ==> (r in named <==> CutOff(runs[r])))
  {
    var named := CutOffRuns(runs);
    assert forall i :: 0 <= i < |named| ==> named[i] in named;
  }

  lemma NothingCutOff(p: Projection)
    requires forall r :: r in p.queue.runs ==> !CutOff(p.queue.runs[r])
    ensures RestartBatch(p) == []
  {
    hide KeysInOrder, CutOff;
    var named := CutOffRuns(p.queue.runs);
    var none: seq<Id> := [];
    if named != none {
      NotAllOutside(named);
    }
  }

  lemma NotAllOutside<T>(s: seq<T>)
    requires s != []
    ensures exists k :: k in s
  {
    assert s[0] in s;
  }
}
