/** One lock per session, kept in a table that shrinks (piqo-server/src/supervisor.rs).

    A task clones the session's lock out of the table, waits, works, drops the guard, and then removes the
    table entry if nobody else holds a clone. Tasks interleave freely, can be aborted anywhere, and other
    actors append to the logs without the lock. No two tasks are ever inside the same session's section, no log ever
    has two runs running at once, and every log is numbered as module `Turns` asks. */
module SessionLocks {
  import opened Prelude
  import opened Events
  import opened Session
  import opened History
  import opened Ledger
  import opened StoreSpec
  import opened Turns
  import Compaction

  /** The identity of a lock object. It can be used again once nothing refers to the old object. */
  type Handle = nat

  type TaskId = nat

  /** What a task inside goes by: nothing, a queue it read in which no run was active, or the turn it started, with how
      much of the log it has read to build its request, if it has. */
  datatype Work = Nothing | Seen(queue: Queue) | Turning(run: Id, start: nat, read: Option<nat>)

  datatype Place = Waiting | Inside(work: Work) | GuardDropped | Checked

  datatype Task = Task(session: Id, handle: Handle, place: Place)

  datatype System = System(
    table: map<Id, Handle>,
    owner: map<Handle, TaskId>,
    tasks: map<TaskId, Task>,
    logs: map<Id, seq<SemanticEvent>>)

  // ---------------------------------------------------------------- steps

  datatype Step =
    | Enter(task: TaskId, session: Id, unused: Handle)
    | Acquire(task: TaskId)
    | Observe(task: TaskId)
    | StartRun(task: TaskId, start: RunEvent, limit: nat)
    | StartAttempt(task: TaskId, attempt: RunEvent)
    | ReadTranscript(task: TaskId)
    | Compact(task: TaskId, compaction: ContextEvent, inputs: Compaction.Inputs)
    | DropGuard(task: TaskId)
    | CheckEntry(task: TaskId)
    | DropClone(task: TaskId)
    | Abort(task: TaskId)
    | AppendAny(session: Id, event: SemanticEvent)
    | CreateLog(session: Id)
    | ForkLog(parent: Id, at: nat, session: Id)

  /** The tasks holding a clone of a lock. */
  function Clones(tasks: map<TaskId, Task>, h: Handle): set<TaskId> {
    set t | t in tasks && tasks[t].handle == h
  }

  /** `Arc::strong_count`: the clones, and the table's own reference. */
  function StrongCount(s: System, h: Handle): nat {
    |Clones(s.tasks, h)| + (if h in s.table.Values then 1 else 0)
  }

  predicate Live(s: System, h: Handle) {
    h in s.table.Values || exists t :: t in s.tasks && s.tasks[t].handle == h
  }

  function ProjectionFor(s: System, session: Id): Projection {
    if session in s.logs then Fold(session, s.logs[session]).value else New(session)
  }

  function Move(s: System, t: TaskId, place: Place): System
    requires t in s.tasks
  {
    s.(tasks := s.tasks[t := s.tasks[t].(place := place)])
  }

  predicate At(s: System, t: TaskId, place: Place) { t in s.tasks && s.tasks[t].place == place }

  predicate IsInside(s: System, t: TaskId) { t in s.tasks && s.tasks[t].place.Inside? }

  predicate Appends(s: System, session: Id, e: SemanticEvent, s': System) {
    && session in s.logs
    && Accepted(session, s.logs[session] + [e])
    && s' == s.(logs := s.logs[session := s.logs[session] + [e]])
  }

  predicate DoEnter(s: System, t: TaskId, session: Id, unused: Handle, s': System) {
    && t !in s.tasks
    && (if session in s.table then s' == s.(tasks := s.tasks[t := Task(session, s.table[session], Waiting)])
        else
          && !Live(s, unused)
          && s' == s.(table := s.table[session := unused], tasks := s.tasks[t := Task(session, unused, Waiting)]))
  }

  predicate DoAcquire(s: System, t: TaskId, s': System) {
    && At(s, t, Waiting)
    && s.tasks[t].handle !in s.owner
    && s' == Move(s, t, Inside(Nothing)).(owner := s.owner[s.tasks[t].handle := t])
  }

  predicate DoObserve(s: System, t: TaskId, s': System) {
    && IsInside(s, t)
    && s.tasks[t].session in s.logs
    && (var queue := ProjectionFor(s, s.tasks[t].session).queue;
        s' == Move(s, t, Inside(if ActiveRun(queue).None? then Seen(queue) else Nothing)))
  }

  predicate Looked(s: System, t: TaskId) { IsInside(s, t) && s.tasks[t].place.work.Seen? }

  predicate InTurn(s: System, t: TaskId) { IsInside(s, t) && s.tasks[t].place.work.Turning? }

  /** A run is started from what was read: one more attempt, and a waiting run only below the limit. */
  predicate DoStart(s: System, t: TaskId, start: RunEvent, limit: nat, s': System) {
    && Looked(s, t) && start.RunStarted?
    && (var runs := s.tasks[t].place.work.queue.runs;
        && start.runId in runs
        && start.attempt == runs[start.runId].attempts + 1
        && (runs[start.runId].status == RequiresAction ==> runs[start.runId].attempts < limit))
    && Appends(Move(s, t, Inside(Turning(start.runId, start.attempt, None))), s.tasks[t].session, RunEv(start), s')
  }

  /** An attempt within the turn, numbered from its start. */
  predicate DoAttempt(s: System, t: TaskId, e: RunEvent, s': System) {
    && InTurn(s, t) && e.RunAttemptStarted?
    && e.runId == s.tasks[t].place.work.run && e.attempt >= s.tasks[t].place.work.start
    && Appends(s, s.tasks[t].session, RunEv(e), s')
  }

  /** The turn reads the projection its request is built from. */
  predicate DoRead(s: System, t: TaskId, s': System) {
    && InTurn(s, t) && s.tasks[t].session in s.logs
    && s' == Move(s, t, Inside(s.tasks[t].place.work.(read := Some(|s.logs[s.tasks[t].session]|))))
  }

  /** It records the compaction the builder makes of that projection. */
  ghost predicate DoCompact(s: System, t: TaskId, e: ContextEvent, i: Compaction.Inputs, s': System) {
    && InTurn(s, t) && s.tasks[t].place.work.read.Some? && s.tasks[t].session in s.logs
    && (var x, read := s.tasks[t].session, s.tasks[t].place.work.read.value;
        && read <= |s.logs[x]| && e.ContextCompacted? && i.summary.Some? && Compaction.ValidBudget(i.budget)
        && (var p := Fold(x, s.logs[x][..read]).value;
            Compaction.Selected(|Compaction.Compactable(p)|) > 0 && e.artifact == Compaction.ArtifactFor(p, i)))
    && Appends(Move(s, t, Inside(s.tasks[t].place.work.(read := None))), s.tasks[t].session, ContextEv(e), s')
  }

  predicate DoDropGuard(s: System, t: TaskId, s': System) {
    && IsInside(s, t)
    && s' == Move(s, t, GuardDropped).(owner := s.owner - {s.tasks[t].handle})
  }

  predicate DoCheck(s: System, t: TaskId, s': System) {
    && At(s, t, GuardDropped)
    && (var task := s.tasks[t];
        if StrongCount(s, task.handle) == 2 && task.session in s.table && s.table[task.session] == task.handle
        then s' == Move(s, t, Checked).(table := s.table - {task.session})
        else s' == Move(s, t, Checked))
  }

  predicate DoAbort(s: System, t: TaskId, s': System) {
    && t in s.tasks
    && s' == s.(tasks := s.tasks - {t}, owner := if IsInside(s, t) then s.owner - {s.tasks[t].handle} else s.owner)
  }

  predicate DoFork(s: System, parent: Id, at: nat, session: Id, s': System) {
    && session !in s.logs && parent in s.logs && 1 <= at <= |s.logs[parent]|
    && (var prefix := s.logs[parent][..at];
        s' == s.(logs := s.logs[session := prefix + ForkEvents(parent, at, Fold(parent, prefix).value)]))
  }

  predicate StartsSomething(e: SemanticEvent) { e.RunEv? && (e.run.RunStarted? || e.run.RunAttemptStarted?) }

  ghost predicate Next(s: System, step: Step, s': System) {
    match step
    case Enter(t, session, unused) => DoEnter(s, t, session, unused, s')
    case Acquire(t) => DoAcquire(s, t, s')
    case Observe(t) => DoObserve(s, t, s')
    case StartRun(t, start, limit) => DoStart(s, t, start, limit, s')
    case StartAttempt(t, e) => DoAttempt(s, t, e, s')
    case ReadTranscript(t) => DoRead(s, t, s')
    case Compact(t, e, i) => DoCompact(s, t, e, i, s')
    case DropGuard(t) => DoDropGuard(s, t, s')
    case CheckEntry(t) => DoCheck(s, t, s')
    case DropClone(t) => At(s, t, Checked) && s' == s.(tasks := s.tasks - {t})
    case Abort(t) => DoAbort(s, t, s')
    case AppendAny(session, e) => !StartsSomething(e) && !Compaction.IsCompaction(e) && Appends(s, session, e, s')
    case CreateLog(session) =>
      session !in s.logs && s' == s.(logs := s.logs[session := [SessionEv(SessionCreated(None))]])
    case ForkLog(parent, at, session) => DoFork(s, parent, at, session, s')
  }

  // ---------------------------------------------------------------- at most one running run

  function RunningAfter(session: Id, log: seq<SemanticEvent>): set<Id> {
    RunsWith(Fold(session, log).value.queue.runs, RunRunning)
  }

  /** At no point in the log were two runs running. */
  predicate NeverTwo(session: Id, log: seq<SemanticEvent>) {
    && Accepted(session, log)
    && forall n :: 0 <= n <= |log| ==> |RunningAfter(session, log[..n])| <= 1
  }

  lemma StepRunning(p: Projection, id: EventId, e: SemanticEvent)
    requires Session.Step(p, id, e).Ok()
    ensures var before, after := RunsWith(p.queue.runs, RunRunning), RunsWith(Session.Step(p, id, e).value.queue.runs, RunRunning);
            if e.RunEv? && e.run.RunStarted? then after <= before + {e.run.runId} else after <= before
  {
    if e.RunEv? {
      RunEventMeaning(p.queue, e.run);
    }
  }

  lemma GrowsRunning(session: Id, log: seq<SemanticEvent>, e: SemanticEvent)
    requires Accepted(session, log + [e])
    ensures Accepted(session, log)
    ensures if e.RunEv? && e.run.RunStarted? then RunningAfter(session, log + [e]) <= RunningAfter(session, log) + {e.run.runId}
            else RunningAfter(session, log + [e]) <= RunningAfter(session, log)
  {
    assert (log + [e])[..|log|] == log;
    FoldLast(session, log + [e]);
    StepRunning(Fold(session, log).value, |log| + 1, e);
  }

  /** Appending keeps the log free of two running runs, as long as a run is only started when none is running. */
  lemma AppendNeverTwo(session: Id, log: seq<SemanticEvent>, e: SemanticEvent)
    requires NeverTwo(session, log) && Accepted(session, log + [e])
    requires e.RunEv? && e.run.RunStarted? ==> RunningAfter(session, log) == {}
    ensures NeverTwo(session, log + [e])
  {
    GrowsRunning(session, log, e);
    forall n | 0 <= n <= |log + [e]| ensures |RunningAfter(session, (log + [e])[..n])| <= 1 {
      if n <= |log| {
        assert (log + [e])[..n] == log[..n];
      } else {
        assert (log + [e])[..n] == log + [e];
        assert log[..|log|] == log;
        if e.RunEv? && e.run.RunStarted? {
          SubsetCount(RunningAfter(session, log + [e]), {e.run.runId});
        } else {
          SubsetCount(RunningAfter(session, log + [e]), RunningAfter(session, log));
        }
      }
    }
  }

  lemma {:induction false} AppendManyNeverTwo(session: Id, log: seq<SemanticEvent>, more: seq<SemanticEvent>)
    requires NeverTwo(session, log) && Accepted(session, log + more)
    requires forall i :: 0 <= i < |more| ==> !(more[i].RunEv? && more[i].run.RunStarted?)
    ensures NeverTwo(session, log + more)
    decreases |more|
  {
    if more == [] {
      assert log + more == log;
    } else {
      var m := |more| - 1;
      assert log + more == (log + more[..m]) + [more[m]];
      assert (log + more)[..|log| + m] == log + more[..m];
      PrefixAccepted(session, log + more, |log| + m);
      AppendManyNeverTwo(session, log, more[..m]);
      AppendNeverTwo(session, log + more[..m], more[m]);
    }
  }

  lemma PrefixNeverTwo(session: Id, log: seq<SemanticEvent>, at: nat)
    requires NeverTwo(session, log) && at <= |log|
    ensures NeverTwo(session, log[..at])
  {
    PrefixAccepted(session, log, at);
    forall n | 0 <= n <= at ensures |RunningAfter(session, log[..at][..n])| <= 1 {
      assert log[..at][..n] == log[..n];
    }
  }

  lemma RenamedNeverTwo(a: Id, b: Id, log: seq<SemanticEvent>)
    requires NeverTwo(a, log)
    ensures NeverTwo(b, log)
  {
    FoldRenamed(a, b, log);
    forall n | 0 <= n <= |log| ensures |RunningAfter(b, log[..n])| <= 1 {
      FoldRenamed(a, b, log[..n]);
      assert RunningAfter(b, log[..n]) == RunningAfter(a, log[..n]);
    }
  }

  lemma ForkNeverTwo(parent: Id, log: seq<SemanticEvent>, at: nat, session: Id)
    requires NeverTwo(parent, log) && 1 <= at <= |log|
    ensures NeverTwo(session, log[..at] + ForkEvents(parent, at, Fold(parent, log[..at]).value))
  {
    var p := Fold(parent, log[..at]).value;
    PrefixNeverTwo(parent, log, at);
    ForkEventsReplay(parent, at, p);
    ReplayAppend(New(parent), 1, log[..at], ForkEvents(parent, at, p));
    AppendManyNeverTwo(parent, log[..at], ForkEvents(parent, at, p));
    RenamedNeverTwo(parent, session, log[..at] + ForkEvents(parent, at, p));
  }

  // ---------------------------------------------------------------- numbered starts

  lemma {:induction false} PrefixDisciplined(session: Id, log: seq<SemanticEvent>, at: nat, maxTurns: nat)
    requires Disciplined(session, log, maxTurns) && at <= |log|
    ensures Disciplined(session, log[..at], maxTurns)
    decreases |log|
  {
    if at < |log| {
      var n := |log| - 1;
      PrefixDisciplined(session, log[..n], at, maxTurns);
      assert log[..n][..at] == log[..at];
    } else {
      assert log[..at] == log;
    }
  }

  lemma {:induction false} RenamedDisciplined(a: Id, b: Id, log: seq<SemanticEvent>, maxTurns: nat)
    requires Disciplined(a, log, maxTurns)
    ensures Disciplined(b, log, maxTurns)
    decreases |log|
  {
    if log != [] {
      var n := |log| - 1;
      RenamedDisciplined(a, b, log[..n], maxTurns);
      FoldRenamed(a, b, log[..n]);
      hide Fold;
    }
  }

  lemma {:induction false} AppendManyDisciplined(session: Id, log: seq<SemanticEvent>, more: seq<SemanticEvent>, maxTurns: nat)
    requires Disciplined(session, log, maxTurns) && forall i :: 0 <= i < |more| ==> !StartsSomething(more[i])
    ensures Disciplined(session, log + more, maxTurns)
    decreases |more|
  {
    if more == [] {
      assert log + more == log;
    } else {
      var m := |more| - 1;
      AppendManyDisciplined(session, log, more[..m], maxTurns);
      hide Fold, Disciplined;
      assert log + more == (log + more[..m]) + [more[m]];
      LastDisciplined(session, log + more[..m], more[m], maxTurns);
    }
  }

  lemma ForkDisciplined(parent: Id, log: seq<SemanticEvent>, at: nat, session: Id, maxTurns: nat)
    requires Disciplined(parent, log, maxTurns) && 1 <= at <= |log|
    ensures Disciplined(session, log[..at] + ForkEvents(parent, at, Fold(parent, log[..at]).value), maxTurns)
  {
    var more := ForkEvents(parent, at, Fold(parent, log[..at]).value);
    PrefixDisciplined(parent, log, at, maxTurns);
    hide Disciplined, Fold;
    AppendManyDisciplined(parent, log[..at], more, maxTurns);
    RenamedDisciplined(parent, session, log[..at] + more, maxTurns);
  }

  // ---------------------------------------------------------------- the invariant

  /** A task that has not made its final check refers to the lock now in the table. */
  predicate Current(s: System) {
    forall t :: t in s.tasks && !s.tasks[t].place.Checked? ==>
      s.tasks[t].session in s.table && s.table[s.tasks[t].session] == s.tasks[t].handle
  }

  /** A live lock serves one session. */
  predicate OneSession(s: System) {
    && (forall a, b :: a in s.table && b in s.table && s.table[a] == s.table[b] ==> a == b)
    && (forall t, a :: t in s.tasks && a in s.table && s.tasks[t].handle == s.table[a] ==> s.tasks[t].session == a)
  }

  /** A lock is owned by whoever is inside, and by nobody else. */
  ghost predicate Owned(s: System) {
    && (forall t :: IsInside(s, t) ==> s.tasks[t].handle in s.owner && s.owner[s.tasks[t].handle] == t)
    && (forall h :: h in s.owner ==> IsInside(s, s.owner[h]) && s.tasks[s.owner[h]].handle == h)
  }

  /** One running run at most, numbered starts, and compactions the builder made of what was then the last artifact. */
  ghost predicate LogOk(x: Id, log: seq<SemanticEvent>, maxTurns: nat) {
    NeverTwo(x, log) && Disciplined(x, log, maxTurns) && Compaction.AllBuilt(x, log)
  }

  ghost predicate LogsOk(s: System, maxTurns: nat) {
    forall x :: x in s.logs ==> LogOk(x, s.logs[x], maxTurns)
  }

  /** What was read is still so: no run runs, and every run has its attempts, and its status unless it has ended. */
  predicate Still(seen: Queue, now: Queue) {
    && RunsWith(now.runs, RunRunning) == {}
    && (forall r :: r in seen.runs ==>
          && r in now.runs && now.runs[r].attempts == seen.runs[r].attempts
          && (now.runs[r].status == seen.runs[r].status || Terminal(now.runs[r].status)))
  }

  /** What a task goes by: the queue it read is still what it read, and its turn is its run's latest start. */
  predicate WorkOk(session: Id, log: seq<SemanticEvent>, work: Work) {
    match work
    case Nothing => true
    case Seen(queue) => Still(queue, Fold(session, log).value.queue)
    case Turning(r, start, read) => LastStart(log, r) == start && (read.Some? ==> read.value <= |log| && NoneCompacted(log[read.value..]))
  }

  predicate NoneCompacted(log: seq<SemanticEvent>) { forall i :: 0 <= i < |log| ==> !Compaction.IsCompaction(log[i]) }

  ghost predicate WorkStands(s: System) {
    forall t :: IsInside(s, t) && !s.tasks[t].place.work.Nothing? ==>
      s.tasks[t].session in s.logs && WorkOk(s.tasks[t].session, s.logs[s.tasks[t].session], s.tasks[t].place.work)
  }

  ghost predicate Inv(s: System, maxTurns: nat) { Locks(s) && LogsOk(s, maxTurns) && WorkStands(s) }

  /** Two tasks inside the section of one session are one task. */
  lemma Exclusive(s: System, t: TaskId, u: TaskId)
    requires Current(s) && Owned(s)
    requires IsInside(s, t) && IsInside(s, u) && s.tasks[t].session == s.tasks[u].session
    ensures t == u
  {
  }

  ghost predicate Locks(s: System) { Current(s) && OneSession(s) && Owned(s) }

  lemma TwoClones(tasks: map<TaskId, Task>, t: TaskId, u: TaskId)
    requires t in tasks && u in tasks && t != u && tasks[t].handle == tasks[u].handle
    ensures |Clones(tasks, tasks[t].handle)| >= 2
  {
    var clones := Clones(tasks, tasks[t].handle);
    assert clones == {t, u} + (clones - {t, u});
  }

  /** The heart of the protocol: the entry is removed only when no task can still come to need it. */
  lemma CheckKeeps(s: System, t: TaskId, s': System)
    requires Locks(s) && DoCheck(s, t, s')
    ensures Locks(s')
  {
    var task := s.tasks[t];
    if s'.table != s.table {
      assert s.table[task.session] in s.table.Values;
      forall u | u in s.tasks && u != t && !s.tasks[u].place.Checked? ensures s.tasks[u].session != task.session {
        if s.tasks[u].handle == task.handle {
          TwoClones(s.tasks, t, u);
        }
      }
    }
  }

  lemma EnterKeeps(s: System, t: TaskId, session: Id, unused: Handle, s': System)
    requires Locks(s) && DoEnter(s, t, session, unused, s')
    ensures Locks(s')
  {
    if session !in s.table {
      forall a | a in s.table ensures s.table[a] != unused {
        assert s.table[a] in s.table.Values;
      }
      assert forall u :: u in s.tasks ==> s.tasks[u].handle != unused;
    }
  }

  lemma AcquireKeeps(s: System, t: TaskId, s': System)
    requires Locks(s) && DoAcquire(s, t, s')
    ensures Locks(s')
  {
  }

  lemma ObserveKeeps(s: System, t: TaskId, s': System)
    requires Locks(s) && DoObserve(s, t, s')
    ensures Locks(s')
  {
  }

  lemma StartKeeps(s: System, t: TaskId, start: RunEvent, limit: nat, s': System)
    requires Locks(s) && DoStart(s, t, start, limit, s')
    ensures Locks(s')
  {
    OnlyLogs(s, t, start, limit, s');
    hide Locks, Appends, Move;
    WorkKeeps(s, t, Turning(start.runId, start.attempt, None), s');
  }

  /** A task that stays inside, going by something else. */
  lemma WorkKeeps(s: System, t: TaskId, work: Work, s': System)
    requires Locks(s) && IsInside(s, t) && s' == Move(s, t, Inside(work)).(logs := s'.logs)
    ensures Locks(s')
  {
    forall u ensures u in s'.tasks <==> u in s.tasks
             ensures u in s.tasks ==> s'.tasks[u].session == s.tasks[u].session && s'.tasks[u].handle == s.tasks[u].handle
             ensures IsInside(s', u) <==> IsInside(s, u)
             ensures u in s.tasks ==> (s'.tasks[u].place.Checked? <==> s.tasks[u].place.Checked?)
    {
    }
    hide Move, IsInside;
  }

  lemma OnlyLogs(s: System, t: TaskId, start: RunEvent, limit: nat, s': System)
    requires DoStart(s, t, start, limit, s')
    ensures IsInside(s, t) && s' == Move(s, t, Inside(Turning(start.runId, start.attempt, None))).(logs := s'.logs)
  {
  }

  lemma AttemptKeeps(s: System, t: TaskId, e: RunEvent, s': System)
    requires Locks(s) && DoAttempt(s, t, e, s')
    ensures Locks(s')
  {
    LogsApart(s, s');
  }

  lemma ReadKeeps(s: System, t: TaskId, s': System)
    requires Locks(s) && DoRead(s, t, s')
    ensures Locks(s')
  {
    hide Locks, Move;
    WorkKeeps(s, t, s.tasks[t].place.work.(read := Some(|s.logs[s.tasks[t].session]|)), s');
  }

  lemma CompactKeeps(s: System, t: TaskId, e: ContextEvent, i: Compaction.Inputs, s': System)
    requires Locks(s) && DoCompact(s, t, e, i, s')
    ensures Locks(s')
  {
    CompactIs(s, t, e, i, s');
    hide Locks, Move, DoCompact;
    WorkKeeps(s, t, s.tasks[t].place.work.(read := None), s');
  }

  /** What a compaction does: the turn's reading is used up, and one event is appended. */
  lemma CompactIs(s: System, t: TaskId, e: ContextEvent, i: Compaction.Inputs, s': System)
    requires DoCompact(s, t, e, i, s')
    ensures InTurn(s, t) && s.tasks[t].place.work.read.Some? && s.tasks[t].session in s.logs && e.ContextCompacted?
    ensures s' == Move(s, t, Inside(s.tasks[t].place.work.(read := None))).(logs := s'.logs)
    ensures var x := s.tasks[t].session;
            Accepted(x, s.logs[x] + [ContextEv(e)]) && s'.logs == s.logs[x := s.logs[x] + [ContextEv(e)]]
    ensures var x := s.tasks[t].session;
            NoneCompacted(s.logs[x][s.tasks[t].place.work.read.value..]) ==>
              Compaction.BuiltFrom(x, s.logs[x], s.tasks[t].place.work.read.value, i, e)
  {
    hide Fold, Compaction.ArtifactFor, Compaction.Compactable;
    var log, j := s.logs[s.tasks[t].session], s.tasks[t].place.work.read.value;
    if NoneCompacted(log[j..]) {
      forall m | j <= m < |log| ensures !Compaction.IsCompaction(log[m]) {
        assert log[m] == log[j..][m - j];
      }
    }
  }

  lemma DropGuardKeeps(s: System, t: TaskId, s': System)
    requires Locks(s) && DoDropGuard(s, t, s')
    ensures Locks(s')
  {
  }

  lemma AbortKeeps(s: System, t: TaskId, s': System)
    requires Locks(s) && DoAbort(s, t, s')
    ensures Locks(s')
  {
  }

  lemma LogsApart(s: System, s': System)
    requires Locks(s) && s' == s.(logs := s'.logs)
    ensures Locks(s')
  {
  }

  lemma StepKeepsLocks(s: System, step: Step, s': System)
    requires Locks(s) && Next(s, step, s')
    ensures Locks(s')
  {
    hide Locks, DoEnter, DoAcquire, DoObserve, DoStart, DoAttempt, DoRead, DoCompact, DoDropGuard, DoCheck, DoAbort;
    match step {
      case Enter(t, session, unused) => EnterKeeps(s, t, session, unused, s');
      case Acquire(t) => AcquireKeeps(s, t, s');
      case Observe(t) => ObserveKeeps(s, t, s');
      case StartRun(t, start, limit) => StartKeeps(s, t, start, limit, s');
      case StartAttempt(t, e) => AttemptKeeps(s, t, e, s');
      case ReadTranscript(t) => ReadKeeps(s, t, s');
      case Compact(t, e, i) => CompactKeeps(s, t, e, i, s');
      case DropGuard(t) => DropGuardKeeps(s, t, s');
      case CheckEntry(t) => CheckKeeps(s, t, s');
      case DropClone(t) => DropCloneKeeps(s, t, s');
      case Abort(t) => AbortKeeps(s, t, s');
      case AppendAny(session, e) => LogsApart(s, s');
      case CreateLog(session) => LogsApart(s, s');
      case ForkLog(parent, at, session) => LogsApart(s, s');
    }
  }

  lemma DropCloneKeeps(s: System, t: TaskId, s': System)
    requires Locks(s) && At(s, t, Checked) && s' == s.(tasks := s.tasks - {t})
    ensures Locks(s')
  {
  }

  /** Steps that leave the logs alone. */
  predicate TableStep(step: Step) {
    step.Enter? || step.Acquire? || step.DropGuard? || step.CheckEntry? || step.DropClone? || step.Abort?
  }

  lemma TableStepsKeepWork(s: System, step: Step, s': System)
    requires WorkStands(s) && Next(s, step, s') && TableStep(step)
    ensures WorkStands(s')
  {
    hide WorkOk;
    forall t | IsInside(s', t) && !s'.tasks[t].place.work.Nothing?
      ensures s'.tasks[t].session in s'.logs && WorkOk(s'.tasks[t].session, s'.logs[s'.tasks[t].session], s'.tasks[t].place.work)
    {
      assert IsInside(s, t) && s.tasks[t].session == s'.tasks[t].session && s.tasks[t].place == s'.tasks[t].place;
    }
  }

  lemma CreationOk(session: Id, maxTurns: nat)
    ensures LogOk(session, [SessionEv(SessionCreated(None))], maxTurns)
  {
    var log := [SessionEv(SessionCreated(None))];
    ReplayOne(New(session), 1, log[0]);
    assert log[..0] == [];
    forall n | 0 <= n <= 1 ensures |RunningAfter(session, log[..n])| <= 1 {
      assert log[..0] == [] && log[..1] == log;
      assert RunningAfter(session, log[..n]) == {};
    }
  }

  lemma ForkOk(parent: Id, log: seq<SemanticEvent>, at: nat, session: Id, maxTurns: nat)
    requires LogOk(parent, log, maxTurns) && 1 <= at <= |log|
    ensures LogOk(session, log[..at] + ForkEvents(parent, at, Fold(parent, log[..at]).value), maxTurns)
  {
    hide NeverTwo, Disciplined, Compaction.AllBuilt, Fold, ForkEvents;
    var more := ForkEvents(parent, at, Fold(parent, log[..at]).value);
    ForkCompactsNothing(parent, at, Fold(parent, log[..at]).value);
    ForkNeverTwo(parent, log, at, session);
    ForkDisciplined(parent, log, at, session, maxTurns);
    Compaction.AllBuiltPrefix(parent, log, at);
    Compaction.AllBuiltMore(parent, log[..at], more);
    Compaction.AllBuiltRenamed(parent, session, log[..at] + more);
  }

  lemma ForkCompactsNothing(parent: Id, at: nat, p: Projection)
    ensures forall i :: 0 <= i < |ForkEvents(parent, at, p)| ==> !Compaction.IsCompaction(ForkEvents(parent, at, p)[i])
  {
  }

  lemma Elsewhere(s: System, t: TaskId, u: TaskId)
    requires Locks(s) && IsInside(s, t) && IsInside(s, u) && t != u
    ensures s.tasks[t].session != s.tasks[u].session
  {
    if s.tasks[t].session == s.tasks[u].session {
      Exclusive(s, t, u);
    }
  }

  /** A start from what still stands is numbered as it should be, and finds no run running. */
  lemma StartNumbered(session: Id, log: seq<SemanticEvent>, seen: Queue, start: RunEvent, limit: nat, maxTurns: nat)
    requires LogOk(session, log, maxTurns) && limit <= maxTurns
    requires Still(seen, Fold(session, log).value.queue) && Accepted(session, log + [RunEv(start)])
    requires start.RunStarted? && start.runId in seen.runs && start.attempt == seen.runs[start.runId].attempts + 1
    requires seen.runs[start.runId].status == RequiresAction ==> seen.runs[start.runId].attempts < limit
    ensures LogOk(session, log + [RunEv(start)], maxTurns)
    ensures LastStart(log + [RunEv(start)], start.runId) == start.attempt
  {
    hide NeverTwo, Disciplined, Compaction.AllBuilt;
    Compaction.AllBuiltMore(session, log, [RunEv(start)]);
    AppendNeverTwo(session, log, RunEv(start));
    LastDisciplined(session, log, RunEv(start), maxTurns);
    assert (log + [RunEv(start)])[..|log|] == log;
  }

  lemma AttemptNumbered(session: Id, log: seq<SemanticEvent>, e: RunEvent, maxTurns: nat)
    requires LogOk(session, log, maxTurns)
    requires Accepted(session, log + [RunEv(e)]) && e.RunAttemptStarted? && e.attempt >= LastStart(log, e.runId)
    ensures LogOk(session, log + [RunEv(e)], maxTurns)
    ensures LastStart(log + [RunEv(e)], e.runId) == LastStart(log, e.runId)
  {
    hide NeverTwo, Disciplined, Compaction.AllBuilt;
    Compaction.AllBuiltMore(session, log, [RunEv(e)]);
    AppendNeverTwo(session, log, RunEv(e));
    LastDisciplined(session, log, RunEv(e), maxTurns);
    assert (log + [RunEv(e)])[..|log|] == log;
  }

  lemma AnyNumbered(session: Id, log: seq<SemanticEvent>, e: SemanticEvent, maxTurns: nat)
    requires LogOk(session, log, maxTurns)
    requires Accepted(session, log + [e]) && !StartsSomething(e) && !Compaction.IsCompaction(e)
    ensures LogOk(session, log + [e], maxTurns)
  {
    hide NeverTwo, Disciplined, Compaction.AllBuilt;
    AppendNeverTwo(session, log, e);
    LastDisciplined(session, log, e, maxTurns);
    Compaction.AllBuiltMore(session, log, [e]);
  }

  lemma CompactionOk(session: Id, log: seq<SemanticEvent>, j: nat, i: Compaction.Inputs, e: ContextEvent, maxTurns: nat)
    requires LogOk(session, log, maxTurns) && Accepted(session, log + [ContextEv(e)])
    requires Compaction.BuiltFrom(session, log, j, i, e)
    ensures LogOk(session, log + [ContextEv(e)], maxTurns)
  {
    hide NeverTwo, Disciplined, Compaction.AllBuilt, Compaction.BuiltFrom;
    AppendNeverTwo(session, log, ContextEv(e));
    LastDisciplined(session, log, ContextEv(e), maxTurns);
    Compaction.AllBuiltCompacted(session, log, j, i, e);
  }

  /** Nobody without the lock starts anything, and what others do append leaves what was read, and the latest start,
      as they were. */
  lemma AnyKeepsWork(session: Id, log: seq<SemanticEvent>, e: SemanticEvent, work: Work)
    requires Accepted(session, log) && Accepted(session, log + [e]) && !StartsSomething(e) && !Compaction.IsCompaction(e)
    requires WorkOk(session, log, work)
    ensures WorkOk(session, log + [e], work)
  {
    hide Fold, Still;
    assert (log + [e])[..|log|] == log;
    FoldLast(session, log + [e]);
    if work.Seen? {
      StillStep(Fold(session, log).value, |log| + 1, e, work.queue);
    } else if work.Turning? && work.read.Some? {
      NoneMore(log, work.read.value, e);
    }
  }

  lemma NoneMore(log: seq<SemanticEvent>, j: nat, e: SemanticEvent)
    requires j <= |log| && NoneCompacted(log[j..]) && !Compaction.IsCompaction(e)
    ensures NoneCompacted((log + [e])[j..])
  {
    assert (log + [e])[j..] == log[j..] + [e];
  }

  lemma StillStep(p: Projection, id: EventId, e: SemanticEvent, seen: Queue)
    requires Session.Step(p, id, e).Ok() && !StartsSomething(e) && Still(seen, p.queue)
    ensures Still(seen, Session.Step(p, id, e).value.queue)
  {
    var q := Session.Step(p, id, e).value.queue;
    StepRunning(p, id, e);
    forall r | r in p.queue.runs ensures KeptRun(p.queue, q, r) {
      assert r !in RunsWith(p.queue.runs, RunRunning);
      RunKept(p, id, e, r);
    }
    hide Session.Step, StartsSomething, Terminal;
  }

  /** A run that is not running keeps its attempts, and its status unless it ends. */
  predicate KeptRun(was: Queue, now: Queue, r: Id)
    requires r in was.runs
  {
    r in now.runs && now.runs[r].attempts == was.runs[r].attempts
    && (now.runs[r].status == was.runs[r].status || Terminal(now.runs[r].status))
  }

  lemma RunKept(p: Projection, id: EventId, e: SemanticEvent, r: Id)
    requires Session.Step(p, id, e).Ok() && !StartsSomething(e) && r in p.queue.runs && p.queue.runs[r].status != RunRunning
    ensures KeptRun(p.queue, Session.Step(p, id, e).value.queue, r)
  {
    if e.RunEv? {
      RunEventMeaning(p.queue, e.run);
      hide StepRun;
    }
  }

  lemma ReadStands(queue: Queue)
    requires ActiveRun(queue).None?
    ensures Still(queue, queue)
  {
  }

  lemma LogStepsKeepLogs(s: System, step: Step, s': System, maxTurns: nat)
    requires LogsOk(s, maxTurns) && WorkStands(s) && Next(s, step, s') && !TableStep(step)
    requires step.StartRun? ==> step.limit <= maxTurns
    ensures LogsOk(s', maxTurns)
  {
    hide LogOk, Fold, Still, LastStart, ForkEvents, Locks, DoCompact, NoneCompacted;
    match step {
      case StartRun(t, start, limit) =>
        var x := s.tasks[t].session;
        StartNumbered(x, s.logs[x], s.tasks[t].place.work.queue, start, limit, maxTurns);
      case StartAttempt(t, e) =>
        var x := s.tasks[t].session;
        AttemptNumbered(x, s.logs[x], e, maxTurns);
      case AppendAny(session, e) => AnyNumbered(session, s.logs[session], e, maxTurns);
      case Compact(t, e, i) =>
        CompactIs(s, t, e, i, s');
        var x := s.tasks[t].session;
        CompactionOk(x, s.logs[x], s.tasks[t].place.work.read.value, i, e, maxTurns);
      case CreateLog(session) => CreationOk(session, maxTurns);
      case ForkLog(parent, at, session) => ForkOk(parent, s.logs[parent], at, session, maxTurns);
      case _ =>
    }
  }

  /** Only whoever is inside can start a run or an attempt, so what a task goes by stands until it does. */
  lemma LogStepsKeepWork(s: System, step: Step, s': System, maxTurns: nat)
    requires Inv(s, maxTurns) && Next(s, step, s') && !TableStep(step)
    requires step.StartRun? ==> step.limit <= maxTurns
    ensures WorkStands(s')
  {
    hide WorkOk, LogOk, Fold, Still, LastStart, ForkEvents, Locks, DoStart, DoAttempt, DoObserve, DoRead, DoCompact, ProjectionFor;
    forall t | IsInside(s', t) && !s'.tasks[t].place.work.Nothing?
      ensures s'.tasks[t].session in s'.logs && WorkOk(s'.tasks[t].session, s'.logs[s'.tasks[t].session], s'.tasks[t].place.work)
    {
      match step {
        case Observe(u) => ObserveWork(s, u, s', t);
        case StartRun(u, start, limit) => StartWork(s, u, start, limit, s', t, maxTurns);
        case StartAttempt(u, e) => AttemptWork(s, u, e, s', t, maxTurns);
        case ReadTranscript(u) => ReadWork(s, u, s', t);
        case Compact(u, e, i) => CompactWork(s, u, e, i, s', t, maxTurns);
        case AppendAny(session, e) =>
          if s.tasks[t].session == session {
            LogAccepted(s, session, maxTurns);
            AnyKeepsWork(session, s.logs[session], e, s.tasks[t].place.work);
          }
        case _ =>
      }
    }
  }

  lemma ObserveWork(s: System, u: TaskId, s': System, t: TaskId)
    requires WorkStands(s) && DoObserve(s, u, s') && IsInside(s', t) && !s'.tasks[t].place.work.Nothing?
    ensures s'.tasks[t].session in s'.logs && WorkOk(s'.tasks[t].session, s'.logs[s'.tasks[t].session], s'.tasks[t].place.work)
  {
    hide Fold, Still;
    if t == u {
      ReadStands(s'.tasks[t].place.work.queue);
    } else {
      hide WorkOk;
      assert IsInside(s, t);
    }
  }

  lemma LogAccepted(s: System, x: Id, maxTurns: nat)
    requires LogsOk(s, maxTurns) && x in s.logs
    ensures LogOk(x, s.logs[x], maxTurns) && Accepted(x, s.logs[x])
  {
    hide Compaction.AllBuilt, Disciplined, Fold;
  }

  lemma ReadWork(s: System, u: TaskId, s': System, t: TaskId)
    requires WorkStands(s) && DoRead(s, u, s') && IsInside(s', t) && !s'.tasks[t].place.work.Nothing?
    ensures s'.tasks[t].session in s'.logs && WorkOk(s'.tasks[t].session, s'.logs[s'.tasks[t].session], s'.tasks[t].place.work)
  {
    hide Fold, Still, LastStart;
    assert IsInside(s, t);
    if t == u {
      var log := s.logs[s.tasks[t].session];
      assert log[|log|..] == [];
    }
  }

  lemma CompactWork(s: System, u: TaskId, e: ContextEvent, i: Compaction.Inputs, s': System, t: TaskId, maxTurns: nat)
    requires Inv(s, maxTurns) && DoCompact(s, u, e, i, s') && IsInside(s', t) && !s'.tasks[t].place.work.Nothing?
    ensures s'.tasks[t].session in s'.logs && WorkOk(s'.tasks[t].session, s'.logs[s'.tasks[t].session], s'.tasks[t].place.work)
  {
    CompactIs(s, u, e, i, s');
    hide Fold, Still, Locks, LogOk, DoCompact;
    assert IsInside(s, t);
    if t == u {
      var log := s.logs[s.tasks[t].session];
      assert (log + [ContextEv(e)])[..|log|] == log;
    } else {
      hide WorkOk;
      Elsewhere(s, t, u);
    }
  }

  lemma StartWork(s: System, u: TaskId, start: RunEvent, limit: nat, s': System, t: TaskId, maxTurns: nat)
    requires Inv(s, maxTurns) && DoStart(s, u, start, limit, s') && limit <= maxTurns && IsInside(s', t) && !s'.tasks[t].place.work.Nothing?
    ensures s'.tasks[t].session in s'.logs && WorkOk(s'.tasks[t].session, s'.logs[s'.tasks[t].session], s'.tasks[t].place.work)
  {
    hide Fold, Still, LastStart, Locks, LogOk;
    if t == u {
      var x := s.tasks[t].session;
      StartNumbered(x, s.logs[x], s.tasks[t].place.work.queue, start, limit, maxTurns);
    } else {
      hide WorkOk;
      assert IsInside(s, t);
      Elsewhere(s, t, u);
    }
  }

  lemma AttemptWork(s: System, u: TaskId, e: RunEvent, s': System, t: TaskId, maxTurns: nat)
    requires Inv(s, maxTurns) && DoAttempt(s, u, e, s') && IsInside(s', t) && !s'.tasks[t].place.work.Nothing?
    ensures s'.tasks[t].session in s'.logs && WorkOk(s'.tasks[t].session, s'.logs[s'.tasks[t].session], s'.tasks[t].place.work)
  {
    hide Fold, Still, LastStart, Locks, LogOk;
    if t == u {
      var x := s.tasks[t].session;
      AttemptNumbered(x, s.logs[x], e, maxTurns);
      if s.tasks[t].place.work.read.Some? {
        NoneMore(s.logs[x], s.tasks[t].place.work.read.value, RunEv(e));
      }
    } else {
      hide WorkOk;
      Elsewhere(s, t, u);
    }
  }

  /** Every step keeps the invariant. */
  lemma StepKeepsInv(s: System, step: Step, s': System, maxTurns: nat)
    requires Inv(s, maxTurns) && Next(s, step, s')
    requires step.StartRun? ==> step.limit <= maxTurns
    ensures Inv(s', maxTurns)
  {
    hide Locks, WorkStands, LogsOk;
    StepKeepsLocks(s, step, s');
    if TableStep(step) {
      TableStepsKeepWork(s, step, s');
      TableStepsKeepLogs(s, step, s', maxTurns);
    } else {
      LogStepsKeepLogs(s, step, s', maxTurns);
      LogStepsKeepWork(s, step, s', maxTurns);
    }
  }

  lemma TableStepsKeepLogs(s: System, step: Step, s': System, maxTurns: nat)
    requires LogsOk(s, maxTurns) && Next(s, step, s') && TableStep(step)
    ensures LogsOk(s', maxTurns)
  {
    hide LogOk;
    assert s'.logs == s.logs;
  }

  // ---------------------------------------------------------------- runs of the system

  /** A server that just started: no locks, no tasks, and logs as an earlier run of it left them. */
  ghost predicate Init(s: System, maxTurns: nat) {
    s.table == map[] && s.owner == map[] && s.tasks == map[] && LogsOk(s, maxTurns)
  }

  /** The turn limits the tasks read may differ and change, up to `maxTurns`. */
  ghost predicate Trace(states: seq<System>, steps: seq<Step>, maxTurns: nat) {
    && |states| == |steps| + 1
    && Init(states[0], maxTurns)
    && (forall i :: 0 <= i < |steps| ==> Next(states[i], steps[i], states[i + 1]))
    && (forall i :: 0 <= i < |steps| && steps[i].StartRun? ==> steps[i].limit <= maxTurns)
  }

  lemma {:induction false} TraceKeepsInv(states: seq<System>, steps: seq<Step>, maxTurns: nat)
    requires Trace(states, steps, maxTurns)
    ensures Inv(states[|steps|], maxTurns)
    decreases |steps|
  {
    if steps != [] {
      hide Next, Init, Inv;
      var n := |steps| - 1;
      assert Trace(states[..n + 1], steps[..n], maxTurns) by {
        forall i | 0 <= i < n ensures Next(states[..n + 1][i], steps[..n][i], states[..n + 1][i + 1]) {
          assert Next(states[i], steps[i], states[i + 1]);
        }
      }
      TraceKeepsInv(states[..n + 1], steps[..n], maxTurns);
      StepKeepsInv(states[n], steps[n], states[n + 1], maxTurns);
    } else {
      InitInv(states[0], maxTurns);
    }
  }

  lemma InitInv(s: System, maxTurns: nat)
    requires Init(s, maxTurns)
    ensures Inv(s, maxTurns)
  {
    hide LogsOk;
    assert forall t :: !IsInside(s, t);
  }

  /** Main result, for every interleaving, abort and append: one task per session section, every waiting or
      working task on the lock the table holds, no session with two running runs, and no run started more often than
      the turn limit allows. */
  lemma OneWorkerPerSession(states: seq<System>, steps: seq<Step>, maxTurns: nat)
    requires Trace(states, steps, maxTurns)
    ensures var s := states[|steps|];
            && (forall t, u :: IsInside(s, t) && IsInside(s, u) && s.tasks[t].session == s.tasks[u].session ==> t == u)
            && (forall t :: t in s.tasks && !s.tasks[t].place.Checked? ==>
                  s.tasks[t].session in s.table && s.table[s.tasks[t].session] == s.tasks[t].handle)
            && (forall x :: x in s.logs ==> |RunningAfter(x, s.logs[x])| <= 1)
            && (forall x, r :: x in s.logs ==> StartCount(s.logs[x], r) <= 1 || StartCount(s.logs[x], r) <= maxTurns)
  {
    var s := states[|steps|];
    TraceKeepsInv(states, steps, maxTurns);
    forall t, u | IsInside(s, t) && IsInside(s, u) && s.tasks[t].session == s.tasks[u].session ensures t == u {
      Exclusive(s, t, u);
    }
    hide Fold, Disciplined, WorkStands, Trace, Compaction.AllBuilt;
    forall x | x in s.logs ensures |RunningAfter(x, s.logs[x])| <= 1 {
      assert s.logs[x][..|s.logs[x]|] == s.logs[x];
    }
    forall x, r | x in s.logs ensures StartCount(s.logs[x], r) <= 1 || StartCount(s.logs[x], r) <= maxTurns {
      TurnBound(x, s.logs[x], r, maxTurns);
    }
  }

  /** The numbering module `Turns` asks for is what this protocol writes, into every log. */
  lemma LogsAreNumbered(states: seq<System>, steps: seq<Step>, maxTurns: nat, x: Id)
    requires Trace(states, steps, maxTurns) && x in states[|steps|].logs
    ensures Accepted(x, states[|steps|].logs[x]) && Disciplined(x, states[|steps|].logs[x], maxTurns)
  {
    TraceKeepsInv(states, steps, maxTurns);
    hide Trace, Fold, Disciplined, Compaction.AllBuilt;
  }

  /** Every compaction continues the one before it: while a turn has read its transcript nobody else compacts, so what it
      records supersedes the artifact that is then active. */
  lemma CompactionsAreChained(states: seq<System>, steps: seq<Step>, maxTurns: nat, x: Id)
    requires Trace(states, steps, maxTurns) && x in states[|steps|].logs
    ensures var log := states[|steps|].logs[x];
            && Compaction.Chained(x, log) && Compaction.OneChain(log)
            && Compaction.UpToActive(log, Fold(x, log).value.context.activeArtifact)
  {
    TraceKeepsInv(states, steps, maxTurns);
    LogAccepted(states[|steps|], x, maxTurns);
    hide Trace, Fold, Disciplined, WorkStands, NeverTwo;
    Compaction.BuiltIsChained(x, states[|steps|].logs[x]);
  }

  lemma TraceStep(states: seq<System>, steps: seq<Step>, step: Step, s: System, maxTurns: nat)
    requires Trace(states, steps, maxTurns) && |states| == |steps| + 1 && Next(states[|steps|], step, s) && (step.StartRun? ==> step.limit <= maxTurns)
    ensures Trace(states + [s], steps + [step], maxTurns)
  {
    hide Next, Init;
  }

  lemma OneWaits(logs: map<Id, seq<SemanticEvent>>, maxTurns: nat) returns (states: seq<System>, steps: seq<Step>)
    requires forall x :: x in logs ==> LogOk(x, logs[x], maxTurns)
    ensures Trace(states, steps, maxTurns) && |states| == |steps| + 1
    ensures states[|steps|] == System(map["s" := 7], map[7 := 0], map[0 := Task("s", 7, Inside(Nothing)), 1 := Task("s", 7, Waiting)], logs)
  {
    var waiting, inside := Task("s", 7, Waiting), Task("s", 7, Inside(Nothing));
    var free := map["s" := 7];
    states, steps := [System(map[], map[], map[], logs)], [];
    states, steps := Extend(states, steps, Enter(0, "s", 7), System(free, map[], map[0 := waiting], logs), maxTurns);
    states, steps := Extend(states, steps, Enter(1, "s", 7), System(free, map[], map[0 := waiting, 1 := waiting], logs), maxTurns);
    states, steps := Extend(states, steps, Acquire(0), System(free, map[7 := 0], map[0 := inside, 1 := waiting], logs), maxTurns);
  }

  lemma OneFinishes(logs: map<Id, seq<SemanticEvent>>, maxTurns: nat) returns (states: seq<System>, steps: seq<Step>)
    requires forall x :: x in logs ==> LogOk(x, logs[x], maxTurns)
    ensures Trace(states, steps, maxTurns) && |states| == |steps| + 1
    ensures states[|steps|] == System(map["s" := 7], map[7 := 1], map[0 := Task("s", 7, GuardDropped), 1 := Task("s", 7, Inside(Nothing))], logs)
  {
    hide Trace, LogOk, Still, WorkOk;
    var waiting, inside, dropped := Task("s", 7, Waiting), Task("s", 7, Inside(Nothing)), Task("s", 7, GuardDropped);
    var free := map["s" := 7];
    states, steps := OneWaits(logs, maxTurns);
    states, steps := Extend(states, steps, DropGuard(0), System(free, map[], map[0 := dropped, 1 := waiting], logs), maxTurns);
    states, steps := Extend(states, steps, Acquire(1), System(free, map[7 := 1], map[0 := dropped, 1 := inside], logs), maxTurns);
  }

  /** Two tasks use the lock one after the other, and neither has made its final check. */
  lemma BothFinish(logs: map<Id, seq<SemanticEvent>>, maxTurns: nat) returns (states: seq<System>, steps: seq<Step>)
    requires forall x :: x in logs ==> LogOk(x, logs[x], maxTurns)
    ensures Trace(states, steps, maxTurns) && |states| == |steps| + 1
    ensures var dropped := Task("s", 7, GuardDropped);
            states[|steps|] == System(map["s" := 7], map[], map[0 := dropped, 1 := dropped], logs)
  {
    hide Trace, LogOk, Still, WorkOk;
    var dropped := Task("s", 7, GuardDropped);
    var free := map["s" := 7];
    states, steps := OneFinishes(logs, maxTurns);
    states, steps := Extend(states, steps, DropGuard(1), System(free, map[], map[0 := dropped, 1 := dropped], logs), maxTurns);
  }

  lemma Extend(states: seq<System>, steps: seq<Step>, step: Step, s: System, maxTurns: nat) returns (states': seq<System>, steps': seq<Step>)
    requires Trace(states, steps, maxTurns) && |states| == |steps| + 1 && Next(states[|steps|], step, s) && (step.StartRun? ==> step.limit <= maxTurns)
    ensures Trace(states', steps', maxTurns) && |states'| == |steps'| + 1 && states'[|steps'|] == s
  {
    TraceStep(states, steps, step, s, maxTurns);
    states', steps' := states + [s], steps + [step];
  }

  /** The first check sees two clones and the table's reference: too many to remove the entry. So does the second. */
  lemma BothCheck(logs: map<Id, seq<SemanticEvent>>, maxTurns: nat) returns (states: seq<System>, steps: seq<Step>)
    requires forall x :: x in logs ==> LogOk(x, logs[x], maxTurns)
    ensures Trace(states, steps, maxTurns) && |states| == |steps| + 1
    ensures states[|steps|] == System(map["s" := 7], map[], map[0 := Task("s", 7, Checked), 1 := Task("s", 7, Checked)], logs)
  {
    hide Trace, Next;
    var dropped, checked := Task("s", 7, GuardDropped), Task("s", 7, Checked);
    var free, none := map["s" := 7], map[];
    states, steps := BothFinish(logs, maxTurns);
    CheckLeaves(System(free, none, map[0 := dropped, 1 := dropped], logs), 0, 1);
    assert map[0 := dropped, 1 := dropped][0 := checked] == map[0 := checked, 1 := dropped];
    states, steps := Extend(states, steps, CheckEntry(0), System(free, none, map[0 := checked, 1 := dropped], logs), maxTurns);
    CheckLeaves(System(free, none, map[0 := checked, 1 := dropped], logs), 1, 0);
    assert map[0 := checked, 1 := dropped][1 := checked] == map[0 := checked, 1 := checked];
    states, steps := Extend(states, steps, CheckEntry(1), System(free, none, map[0 := checked, 1 := checked], logs), maxTurns);
  }

  lemma CheckLeaves(s: System, t: TaskId, u: TaskId)
    requires s.table == map["s" := 7] && t != u && s.tasks.Keys == {t, u}
    requires s.tasks[t] == Task("s", 7, GuardDropped) && s.tasks[u].handle == 7
    ensures Next(s, CheckEntry(t), s.(tasks := s.tasks[t := Task("s", 7, Checked)]))
  {
    assert s.table["s"] in s.table.Values;
    assert Clones(s.tasks, 7) == {t, u};
  }

  lemma CloneDropped(s: System, t: TaskId)
    requires t in s.tasks && s.tasks[t].place == Checked
    ensures Next(s, DropClone(t), s.(tasks := s.tasks - {t}))
  {
  }

  /** Safety, not tidiness: two tasks that both check before either drops its clone leave the entry behind. */
  lemma EntryCanOutliveItsTasks(logs: map<Id, seq<SemanticEvent>>, maxTurns: nat) returns (states: seq<System>, steps: seq<Step>)
    requires forall x :: x in logs ==> LogOk(x, logs[x], maxTurns)
    ensures Trace(states, steps, maxTurns) && |states| == |steps| + 1 && states[|steps|].tasks == map[] && "s" in states[|steps|].table
  {
    hide Trace, Next;
    var checked := Task("s", 7, Checked);
    var free, none := map["s" := 7], map[];
    states, steps := BothCheck(logs, maxTurns);
    CloneDropped(states[|steps|], 0);
    assert map[0 := checked, 1 := checked] - {0} == map[1 := checked];
    states, steps := Extend(states, steps, DropClone(0), System(free, none, map[1 := checked], logs), maxTurns);
    CloneDropped(states[|steps|], 1);
    assert map[1 := checked] - {1} == map[];
    states, steps := Extend(states, steps, DropClone(1), System(free, none, map[], logs), maxTurns);
  }

  /** The final check removes the entry exactly when the checking task holds the only clone. */
  lemma CheckRemovesExactly(s: System, t: TaskId, s': System)
    requires Locks(s) && DoCheck(s, t, s')
    ensures s.tasks[t].session !in s'.table <==> Clones(s.tasks, s.tasks[t].handle) == {t}
  {
    var h := s.tasks[t].handle;
    assert s.table[s.tasks[t].session] in s.table.Values;
    assert t in Clones(s.tasks, h);
    if |Clones(s.tasks, h)| == 1 {
      forall u | u in Clones(s.tasks, h) ensures u == t {
        if u != t {
          TwoClones(s.tasks, t, u);
        }
      }
    }
  }
}
