/** Admission over all sessions: which runs hold a reservation, and which of them are still open. A reservation is
    given back by run id alone, and a fork copies run ids (piqo-server/src/supervisor.rs, `release_terminal_admission`;
    piqo-server/src/storage.rs, `fork_session`). */
module AdmissionRuns {
  import opened Prelude
  import opened Events
  import opened Session
  import opened StoreSpec
  import opened Admission

  /** The logs, the counters, and the runs queued through admission since the server started, each with the session it
      was queued in. */
  datatype Books = Books(logs: map<Id, seq<SemanticEvent>>, counters: Counters, homes: map<Id, Id>)

  datatype Step =
    | Create(session: Id)
    | Fork(session: Id, parent: Id, at: nat)
    | Submit(session: Id, run: RunEvent, outcome: Submission)
    | Supervised(session: Id, batch: seq<SemanticEvent>)
    | Delete(gone: set<Id>)

  function QueueOf(b: Books, s: Id): Queue
    requires s in b.logs
  {
    Fold(s, b.logs[s]).value.queue
  }

  /** The releases that follow a batch, event by event. */
  function ReleaseAll(c: Counters, batch: seq<SemanticEvent>): Counters
    decreases |batch|
  {
    if batch == [] then c
    else
      var n := |batch| - 1;
      ReleaseFor(ReleaseAll(c, batch[..n]), batch[n])
  }

  function ReleaseFor(c: Counters, e: SemanticEvent): Counters {
    if EndsARun(e) then Released(c, e.run.runId) else c
  }

  predicate DoSubmit(b: Books, limits: Limits, s: Id, run: RunEvent, outcome: Submission, b': Books) {
    && s in b.logs && run.RunQueued? && run.runId !in b.homes && run.runId !in b.counters.runSessions
    && (var taken := Reserved(b.counters, s, run.runId);
        var log := b.logs[s] + [RunEv(run)];
        if !Admits(b.counters, limits, s) || outcome == AppendFails then b' == b
        else if outcome == StepFails then b' == b.(counters := taken)
        else Accepted(s, log) && b' == Books(b.logs[s := log], taken, b.homes[run.runId := s]))
  }

  predicate Next(b: Books, limits: Limits, step: Step, b': Books) {
    match step
    case Create(s) => s !in b.logs && b' == b.(logs := b.logs[s := [SessionEv(SessionCreated(None))]])
    case Fork(s, parent, at) =>
      && s !in b.logs && parent in b.logs && 1 <= at <= |b.logs[parent]|
      && (var prefix := b.logs[parent][..at];
          b' == b.(logs := b.logs[s := prefix + ForkEvents(parent, at, Fold(parent, prefix).value)]))
    case Submit(s, run, outcome) => DoSubmit(b, limits, s, run, outcome, b')
    case Supervised(s, batch) =>
      && s in b.logs && Accepted(s, b.logs[s] + batch)
      && b' == b.(logs := b.logs[s := b.logs[s] + batch], counters := ReleaseAll(b.counters, batch))
    case Delete(gone) =>
      b' == Books(b.logs - gone, b.counters, map r | r in b.homes && b.homes[r] !in gone :: b.homes[r])
  }

  /** A submitted run that has not ended in its own session. */
  predicate Open(b: Books, r: Id) {
    r in b.homes && b.homes[r] in b.logs && !TerminalIn(QueueOf(b, b.homes[r]), r)
  }

  /** Logs fold, runs are where they were submitted, and the counters are straight and within their limits. */
  ghost predicate Sound(b: Books, limits: Limits) {
    && Balanced(b.counters) && WithinLimits(b.counters, limits)
    && (forall s :: s in b.logs ==> Accepted(s, b.logs[s]))
    && (forall r :: r in b.homes ==> Homed(b, r))
    && (forall r :: r in b.homes && r in b.counters.runSessions ==> b.counters.runSessions[r] == b.homes[r])
  }

  predicate Homed(b: Books, r: Id)
    requires r in b.homes
  {
    b.homes[r] in b.logs && r in QueueOf(b, b.homes[r]).runs
  }

  /** Whoever holds a reservation and was queued is still open. */
  predicate NoneKept(b: Books) { forall r :: r in b.homes && r in b.counters.runSessions ==> Open(b, r) }

  /** Whoever was queued and is open holds its reservation. */
  predicate NoneLost(b: Books) { forall r :: r in b.homes && Open(b, r) ==> r in b.counters.runSessions }

  // ---------------------------------------------------------------- batches

  lemma {:induction false} ReleaseAllMeaning(c: Counters, batch: seq<SemanticEvent>, limits: Limits)
    requires Balanced(c) && WithinLimits(c, limits)
    ensures Balanced(ReleaseAll(c, batch)) && WithinLimits(ReleaseAll(c, batch), limits)
    ensures ReleaseAll(c, batch).runSessions == c.runSessions - Ended(batch)
    decreases |batch|
  {
    hide Balanced, WithinLimits, ReleaseFor, EndsARun;
    if batch != [] {
      var n := |batch| - 1;
      ReleaseAllMeaning(c, batch[..n], limits);
      EndedNext(batch, n);
      assert batch[..n + 1] == batch;
      hide Ended;
      ReleaseOne(ReleaseAll(c, batch[..n]), batch[n], limits);
    } else {
      assert c.runSessions - Ended(batch) == c.runSessions;
    }
  }

  lemma ReleaseOne(c: Counters, e: SemanticEvent, limits: Limits)
    requires Balanced(c) && WithinLimits(c, limits)
    ensures Balanced(ReleaseFor(c, e)) && WithinLimits(ReleaseFor(c, e), limits)
    ensures ReleaseFor(c, e).runSessions == c.runSessions - (if EndsARun(e) then {e.run.runId} else {})
  {
    hide Balanced, WithinLimits;
    if EndsARun(e) {
      ReleaseKeeps(c, e.run.runId);
      LimitsKept(c, limits, "", e.run.runId);
    }
  }

  /** A run has ended after a batch exactly when it had before, or the batch ends it; and no run goes away. */
  lemma {:induction false} BatchEnds(p: Projection, n: EventId, batch: seq<SemanticEvent>, r: Id)
    requires Replay(p, n, batch).Ok()
    ensures TerminalIn(Replay(p, n, batch).value.queue, r) <==> TerminalIn(p.queue, r) || r in Ended(batch)
    ensures r in p.queue.runs ==> r in Replay(p, n, batch).value.queue.runs
    decreases |batch|
  {
    hide *;
    if batch == [] {
      NothingEnds(p, n, r);
    } else {
      var k := |batch| - 1;
      var before := batch[..k];
      LastReplayed(p, n, batch);
      BatchEnds(p, n, before, r);
      EndedLast(batch, r);
      OneEnds(Replay(p, n, before).value, n + k, batch[k], r);
    }
  }

  lemma NothingEnds(p: Projection, n: EventId, r: Id)
    ensures Replay(p, n, []) == Outcome(p, None) && r !in Ended([])
  {
  }

  lemma LastReplayed(p: Projection, n: EventId, batch: seq<SemanticEvent>)
    requires batch != [] && Replay(p, n, batch).Ok()
    ensures var k := |batch| - 1;
            Replay(p, n, batch[..k]).Ok() && Session.Step(Replay(p, n, batch[..k]).value, n + k, batch[k]) == Replay(p, n, batch)
  {
    hide Session.Step;
  }

  lemma EndedLast(batch: seq<SemanticEvent>, r: Id)
    requires batch != []
    ensures var k := |batch| - 1;
            r in Ended(batch) <==> r in Ended(batch[..k]) || (EndsARun(batch[k]) && batch[k].run.runId == r)
  {
    var k := |batch| - 1;
    EndedNext(batch, k);
    assert batch[..k + 1] == batch;
    hide Ended, EndsARun;
  }

  lemma OneEnds(q: Projection, id: EventId, e: SemanticEvent, r: Id)
    requires Session.Step(q, id, e).Ok()
    ensures TerminalIn(Session.Step(q, id, e).value.queue, r) <==> TerminalIn(q.queue, r) || (EndsARun(e) && e.run.runId == r)
    ensures r in q.queue.runs ==> r in Session.Step(q, id, e).value.queue.runs
  {
    hide *;
    EndedStep(q, id, e, r);
    if r in q.queue.runs {
      KeepsRuns(q, id, e, r);
    }
  }

  lemma KeepsRuns(p: Projection, id: EventId, e: SemanticEvent, r: Id)
    requires Session.Step(p, id, e).Ok() && r in p.queue.runs
    ensures r in Session.Step(p, id, e).value.queue.runs
  {
    if e.RunEv? {
      RunEventMeaning(p.queue, e.run);
      hide StepRun;
    }
  }

  lemma GrownEnds(s: Id, log: seq<SemanticEvent>, batch: seq<SemanticEvent>, r: Id)
    requires Accepted(s, log) && Accepted(s, log + batch)
    ensures TerminalIn(Fold(s, log + batch).value.queue, r) <==> TerminalIn(Fold(s, log).value.queue, r) || r in Ended(batch)
    ensures r in Fold(s, log).value.queue.runs ==> r in Fold(s, log + batch).value.queue.runs
  {
    ReplayAppend(New(s), 1, log, batch);
    BatchEnds(Fold(s, log).value, 1 + |log|, batch, r);
  }

  // ---------------------------------------------------------------- steps

  lemma CreateKeeps(b: Books, limits: Limits, s: Id, log: seq<SemanticEvent>)
    requires Sound(b, limits) && s !in b.logs && Accepted(s, log)
    ensures var b' := b.(logs := b.logs[s := log]);
            Sound(b', limits) && (forall r :: Open(b', r) <==> Open(b, r))
  {
    hide Fold, Accepted, Balanced, WithinLimits, TerminalIn;
    var b' := b.(logs := b.logs[s := log]);
    forall r ensures Open(b', r) <==> Open(b, r) {
      assert r in b.homes ==> Homed(b, r);
    }
    forall r | r in b'.homes ensures Homed(b', r) {
      assert Homed(b, r);
    }
  }

  lemma DeleteKeeps(b: Books, limits: Limits, gone: set<Id>, b': Books)
    requires Sound(b, limits) && Next(b, limits, Delete(gone), b')
    ensures Sound(b', limits) && (forall r :: Open(b', r) <==> Open(b, r) && b.homes[r] !in gone)
  {
    hide Fold, Accepted, Balanced, WithinLimits, TerminalIn;
    forall r | r in b'.homes ensures Homed(b', r) {
      assert Homed(b, r);
    }
  }

  lemma SubmitKeeps(b: Books, limits: Limits, s: Id, run: RunEvent, outcome: Submission, b': Books)
    requires Sound(b, limits) && DoSubmit(b, limits, s, run, outcome, b')
    ensures Sound(b', limits)
    ensures forall r :: Open(b', r) <==> Open(b, r) || (b'.logs != b.logs && r == run.runId)
    ensures b'.counters.runSessions.Keys - {run.runId} == b.counters.runSessions.Keys - {run.runId}
    ensures b'.logs != b.logs ==> run.runId in b'.counters.runSessions
  {
    hide Fold, Accepted, Balanced, WithinLimits, TerminalIn, Ended, Open;
    if Admits(b.counters, limits, s) && outcome == Queues {
      assert b'.logs[s] == b.logs[s] + [RunEv(run)] && |b'.logs[s]| == |b.logs[s]| + 1;
      QueueKeeps(b, limits, s, run, b');
    } else if b' != b {
      TakeKeeps(b, limits, s, run.runId);
    }
  }

  /** A reservation alone. */
  lemma TakeKeeps(b: Books, limits: Limits, s: Id, r: Id)
    requires Sound(b, limits) && r !in b.homes && r !in b.counters.runSessions && Admits(b.counters, limits, s)
    ensures var b' := b.(counters := Reserved(b.counters, s, r));
            Sound(b', limits) && (forall x :: Open(b', x) <==> Open(b, x))
  {
    hide Fold, Accepted, Balanced, WithinLimits, TerminalIn;
    ReserveKeeps(b.counters, s, r);
    LimitsKept(b.counters, limits, s, r);
  }

  /** The run is queued: a reservation, and then one event. */
  lemma QueueKeeps(b: Books, limits: Limits, s: Id, run: RunEvent, b': Books)
    requires Sound(b, limits) && s in b.logs && run.RunQueued? && Admits(b.counters, limits, s)
    requires run.runId !in b.homes && run.runId !in b.counters.runSessions && Accepted(s, b.logs[s] + [RunEv(run)])
    requires b' == Books(b.logs[s := b.logs[s] + [RunEv(run)]], Reserved(b.counters, s, run.runId), b.homes[run.runId := s])
    ensures Sound(b', limits) && (forall r :: Open(b', r) <==> Open(b, r) || r == run.runId)
  {
    hide Fold, Accepted, Balanced, WithinLimits, TerminalIn, Ended, Homed, Open;
    ReserveKeeps(b.counters, s, run.runId);
    LimitsKept(b.counters, limits, s, run.runId);
    forall r | r in b'.homes ensures Homed(b', r) && (Open(b', r) <==> Open(b, r) || r == run.runId) {
      if r != run.runId {
        QueueElsewhere(b, s, run, b', r);
      } else {
        QueuedHere(b, s, run, b');
      }
    }
    forall r | r !in b'.homes ensures !Open(b', r) && !Open(b, r) {
      NotOpen(b, r);
      NotOpen(b', r);
    }
  }

  lemma NotOpen(b: Books, r: Id)
    requires r !in b.homes
    ensures !Open(b, r)
  {
    hide TerminalIn, Fold;
  }

  lemma QueueElsewhere(b: Books, s: Id, run: RunEvent, b': Books, r: Id)
    requires s in b.logs && run.RunQueued? && Accepted(s, b.logs[s]) && Accepted(s, b.logs[s] + [RunEv(run)])
    requires b'.logs == b.logs[s := b.logs[s] + [RunEv(run)]] && b'.homes == b.homes[run.runId := s]
    requires r != run.runId && r in b.homes && Homed(b, r)
    ensures Homed(b', r) && (Open(b', r) <==> Open(b, r))
  {
    QueuedRun(s, b.logs[s], run);
    GrownEnds(s, b.logs[s], [RunEv(run)], r);
    hide Fold, Accepted, TerminalIn, Ended;
  }

  lemma QueuedHere(b: Books, s: Id, run: RunEvent, b': Books)
    requires s in b.logs && run.RunQueued? && Accepted(s, b.logs[s]) && Accepted(s, b.logs[s] + [RunEv(run)])
    requires b'.logs == b.logs[s := b.logs[s] + [RunEv(run)]] && b'.homes == b.homes[run.runId := s]
    ensures Homed(b', run.runId) && Open(b', run.runId)
  {
    QueuedRun(s, b.logs[s], run);
    hide Fold, Accepted, TerminalIn;
  }

  lemma QueuedRun(s: Id, log: seq<SemanticEvent>, run: RunEvent)
    requires Accepted(s, log) && run.RunQueued? && Accepted(s, log + [RunEv(run)])
    ensures run.runId in Fold(s, log + [RunEv(run)]).value.queue.runs
    ensures !TerminalIn(Fold(s, log + [RunEv(run)]).value.queue, run.runId)
    ensures Ended([RunEv(run)]) == {}
  {
    ReplayOne(Fold(s, log).value, |log| + 1, RunEv(run));
    ReplayAppend(New(s), 1, log, [RunEv(run)]);
    RunEventMeaning(Fold(s, log).value.queue, run);
  }

  /** A supervised batch: it ends runs in its own session, and gives back the reservations of all runs it names. */
  lemma SupervisedMeaning(b: Books, limits: Limits, s: Id, batch: seq<SemanticEvent>, b': Books)
    requires Sound(b, limits) && Next(b, limits, Supervised(s, batch), b')
    ensures Sound(b', limits)
    ensures b'.counters.runSessions == b.counters.runSessions - Ended(batch) && b'.homes == b.homes
    ensures forall r :: Open(b', r) <==> Open(b, r) && !(b.homes[r] == s && r in Ended(batch))
  {
    hide Fold, Accepted, Balanced, WithinLimits, TerminalIn, Ended, ReleaseAll;
    ReleaseAllMeaning(b.counters, batch, limits);
    forall r | r in b.homes ensures Homed(b', r) && (Open(b', r) <==> Open(b, r) && !(b.homes[r] == s && r in Ended(batch))) {
      assert Homed(b, r);
      GrownEnds(s, b.logs[s], batch, r);
    }
  }

  /** The batch ends a copy: a run of another session that is still open there. */
  predicate EndsACopy(b: Books, step: Step) {
    step.Supervised? && exists r :: r in Ended(step.batch) && Open(b, r) && b.homes[r] != step.session
  }

  lemma CreatedFolds(s: Id)
    ensures Accepted(s, [SessionEv(SessionCreated(None))])
  {
    ReplayOne(New(s), 1, SessionEv(SessionCreated(None)));
  }

  lemma StepKeepsSound(b: Books, limits: Limits, step: Step, b': Books)
    requires Sound(b, limits) && Next(b, limits, step, b')
    ensures Sound(b', limits)
  {
    hide Sound, Fold, ForkEvents, ReleaseAll, DoSubmit;
    match step {
      case Create(s) =>
        CreatedFolds(s);
        CreateKeeps(b, limits, s, [SessionEv(SessionCreated(None))]);
      case Fork(s, parent, at) =>
        LogsFold(b, limits, parent);
        BranchFolds(parent, b.logs[parent], at, s);
        CreateKeeps(b, limits, s, b.logs[parent][..at] + ForkEvents(parent, at, Fold(parent, b.logs[parent][..at]).value));
      case Submit(s, run, outcome) => SubmitKeeps(b, limits, s, run, outcome, b');
      case Supervised(s, batch) => SupervisedMeaning(b, limits, s, batch, b');
      case Delete(gone) => DeleteKeeps(b, limits, gone, b');
    }
  }

  lemma LogsFold(b: Books, limits: Limits, s: Id)
    requires Sound(b, limits) && s in b.logs
    ensures Accepted(s, b.logs[s])
  {
    hide Fold, Balanced, WithinLimits;
  }

  /** What a step does to open runs and reservations. */
  lemma StepMoves(b: Books, limits: Limits, step: Step, b': Books)
    requires Sound(b, limits) && Next(b, limits, step, b')
    ensures NoneKept(b) ==> NoneKept(b')
    ensures NoneLost(b) ==> (NoneLost(b') <==> !EndsACopy(b, step))
  {
    hide Sound, Fold, ForkEvents, ReleaseAll, DoSubmit, Open, Ended;
    match step {
      case Create(s) =>
        CreatedFolds(s);
        CreateKeeps(b, limits, s, [SessionEv(SessionCreated(None))]);
      case Fork(s, parent, at) =>
        LogsFold(b, limits, parent);
        BranchFolds(parent, b.logs[parent], at, s);
        CreateKeeps(b, limits, s, b.logs[parent][..at] + ForkEvents(parent, at, Fold(parent, b.logs[parent][..at]).value));
      case Submit(s, run, outcome) => SubmitMoves(b, limits, s, run, outcome, b');
      case Supervised(s, batch) => SupervisedMoves(b, limits, s, batch, b');
      case Delete(gone) =>
        DeleteKeeps(b, limits, gone, b');
        assert forall r :: r in b'.homes <==> r in b.homes && b.homes[r] !in gone;
    }
  }

  lemma SubmitMoves(b: Books, limits: Limits, s: Id, run: RunEvent, outcome: Submission, b': Books)
    requires Sound(b, limits) && DoSubmit(b, limits, s, run, outcome, b')
    ensures NoneKept(b) ==> NoneKept(b')
    ensures NoneLost(b) ==> NoneLost(b')
  {
    hide Sound, Fold, Open, Accepted;
    SubmitKeeps(b, limits, s, run, outcome, b');
    var now, was := b'.counters.runSessions.Keys, b.counters.runSessions.Keys;
    assert forall r :: r != run.runId ==> (r in now <==> r in was) by {
      forall r | r != run.runId ensures r in now <==> r in was {
        assert r in now <==> r in now - {run.runId};
        assert r in was <==> r in was - {run.runId};
      }
    }
    if b'.logs == b.logs {
      assert b'.homes == b.homes by { HomesStay(b, limits, s, run, outcome, b'); }
    } else {
      assert b'.homes == b.homes[run.runId := s];
    }
    forall r | Open(b, r) ensures r in b.homes { OpenHomed(b, r); }
  }

  lemma OpenHomed(b: Books, r: Id)
    requires Open(b, r)
    ensures r in b.homes && b.homes[r] in b.logs
  {
    hide TerminalIn, Fold;
  }

  lemma HomesStay(b: Books, limits: Limits, s: Id, run: RunEvent, outcome: Submission, b': Books)
    requires DoSubmit(b, limits, s, run, outcome, b') && b'.logs == b.logs
    ensures b'.homes == b.homes
  {
    hide Accepted;
    assert |b.logs[s] + [RunEv(run)]| != |b.logs[s]|;
  }

  lemma SupervisedMoves(b: Books, limits: Limits, s: Id, batch: seq<SemanticEvent>, b': Books)
    requires Sound(b, limits) && Next(b, limits, Supervised(s, batch), b')
    ensures NoneKept(b) ==> NoneKept(b')
    ensures NoneLost(b) ==> (NoneLost(b') <==> !EndsACopy(b, Supervised(s, batch)))
  {
    hide Sound, Fold, Open, Ended, Next;
    SupervisedMeaning(b, limits, s, batch, b');
    forall r | Open(b, r) ensures r in b.homes { OpenHomed(b, r); }
    if NoneLost(b) && EndsACopy(b, Supervised(s, batch)) {
      var r :| r in Ended(batch) && Open(b, r) && b.homes[r] != s;
      assert Open(b', r) && r !in b'.counters.runSessions;
    }
  }

  // ---------------------------------------------------------------- runs of the server

  predicate Trace(states: seq<Books>, steps: seq<Step>, limits: Limits) {
    && |states| == |steps| + 1
    && states[0] == Books(map[], Counters(0, map[], map[]), map[])
    && forall i :: 0 <= i < |steps| ==> Next(states[i], limits, steps[i], states[i + 1])
  }

  lemma EmptySound(limits: Limits)
    ensures Sound(Books(map[], Counters(0, map[], map[]), map[]), limits)
  {
    assert forall s :: RunsOf(map[], s) == {};
  }

  lemma TraceStep(states: seq<Books>, steps: seq<Step>, limits: Limits, i: nat)
    requires Trace(states, steps, limits) && i < |steps|
    ensures Next(states[i], limits, steps[i], states[i + 1])
  {
    hide Next;
  }

  /** No supervised batch has ended a copy before `i`. */
  predicate NoCopyEnded(states: seq<Books>, steps: seq<Step>, i: nat)
    requires |states| == |steps| + 1 && i <= |steps|
  {
    forall k :: 0 <= k < i ==> !EndsACopy(states[k], steps[k])
  }

  lemma {:induction false} TraceKeeps(states: seq<Books>, steps: seq<Step>, limits: Limits, i: nat)
    requires Trace(states, steps, limits) && i <= |steps|
    ensures Sound(states[i], limits) && NoneKept(states[i])
    ensures NoCopyEnded(states, steps, i) ==> NoneLost(states[i])
    decreases i
  {
    if i == 0 {
      EmptySound(limits);
    } else {
      hide Next, Sound, NoneKept, NoneLost, EndsACopy;
      TraceKeeps(states, steps, limits, i - 1);
      TraceStep(states, steps, limits, i - 1);
      hide Trace;
      StepKeepsSound(states[i - 1], limits, steps[i - 1], states[i]);
      StepMoves(states[i - 1], limits, steps[i - 1], states[i]);
    }
  }

  function OpenRuns(b: Books): set<Id> { set r | r in b.homes && Open(b, r) }

  function OpenIn(b: Books, s: Id): set<Id> { set r | r in b.homes && Open(b, r) && b.homes[r] == s }

  /** Main result: a run that has ended never keeps its reservation; and as long as no supervised batch has ended a copy of
      a run that is still open where it was queued, every open run holds its own, so that the open runs are within the
      limit, all together and in every session. */
  lemma OpenRunsWithinLimits(states: seq<Books>, steps: seq<Step>, limits: Limits, i: nat)
    requires Trace(states, steps, limits) && i <= |steps|
    ensures NoneKept(states[i])
    ensures NoCopyEnded(states, steps, i) ==>
              && NoneLost(states[i])
              && |OpenRuns(states[i])| <= limits.maxPendingRuns
              && forall s :: |OpenIn(states[i], s)| <= limits.maxPendingRunsPerSession
  {
    TraceKeeps(states, steps, limits, i);
    if NoCopyEnded(states, steps, i) {
      hide Next, Trace, NoCopyEnded, Open, Fold;
      var b := states[i];
      KeysCount(b.counters.runSessions);
      SubsetCount(OpenRuns(b), b.counters.runSessions.Keys);
      forall s ensures |OpenIn(b, s)| <= limits.maxPendingRunsPerSession {
        SubsetCount(OpenIn(b, s), RunsOf(b.counters.runSessions, s));
        assert CountOf(b.counters.sessions, s) <= limits.maxPendingRunsPerSession;
      }
    }
  }

  // ---------------------------------------------------------------- a reservation lost to a fork

  const QUEUED := RunQueued("r", None, "p", "m", Null)
  const CREATED := SessionEv(SessionCreated(None))
  const CANCEL := RunEv(RunCancelled("r", Some("cancelled_by_user")))

  /** A run is queued, its session is forked, and the copy is cancelled. */
  function CopySteps(): seq<Step> {
    [ Create("a"), Submit("a", QUEUED, Queues), Fork("b", "a", 2), Supervised("b", [CANCEL]) ]
  }

  function Forked(): seq<SemanticEvent> { [CREATED, RunEv(QUEUED), SessionEv(SessionForked("a", 2)), QueuePaused] }

  function CopyStates(): seq<Books> {
    var none := Counters(0, map[], map[]);
    var one := Counters(1, map["a" := 1], map["r" := "a"]);
    var log := [CREATED, RunEv(QUEUED)];
    [ Books(map[], none, map[]),
      Books(map["a" := [CREATED]], none, map[]),
      Books(map["a" := log], one, map["r" := "a"]),
      Books(map["a" := log, "b" := Forked()], one, map["r" := "a"]),
      Books(map["a" := log, "b" := Forked() + [CANCEL]], none, map["r" := "a"]) ]
  }

  function TwoEvents(s: Id): Projection {
    Projection(SessionState(s, Created, 0, Some(2)), [], Agents(map[], map[]), map[],
               Queue(map["r" := NewRun("r", None, "p", "m", Null)], false), Context([], None, None, None))
  }

  lemma TwoFold(s: Id)
    ensures Fold(s, [CREATED, RunEv(QUEUED)]) == Outcome(TwoEvents(s), None)
  {
    ReplayOne(New(s), 1, CREATED);
    ReplayOne(Session.Step(New(s), 1, CREATED).value, 2, RunEv(QUEUED));
    ReplayAppend(New(s), 1, [CREATED], [RunEv(QUEUED)]);
    assert [CREATED, RunEv(QUEUED)] == [CREATED] + [RunEv(QUEUED)];
    assert map[]["r" := NewRun("r", None, "p", "m", Null)] == map["r" := NewRun("r", None, "p", "m", Null)];
  }

  lemma ForkedCopy()
    ensures Accepted("a", [CREATED, RunEv(QUEUED)])
    ensures Forked() == [CREATED, RunEv(QUEUED)][..2] + ForkEvents("a", 2, Fold("a", [CREATED, RunEv(QUEUED)][..2]).value)
    ensures Accepted("b", Forked() + [CANCEL])
    ensures Ended([CANCEL]) == {"r"}
  {
    var log := [CREATED, RunEv(QUEUED)];
    assert log[..2] == log;
    TwoFold("a");
    assert RunsWith(TwoEvents("a").queue.runs, RunRunning) == {};
    BranchFolds("a", log, 2, "b");
    var q := Renamed(Branched(TwoEvents("a"), 2), "b");
    assert Forked() == log + ForkEvents("a", 2, TwoEvents("a"));
    ReplayOne(q, 5, CANCEL);
    ReplayAppend(New("b"), 1, Forked(), [CANCEL]);
    assert EndsARun([CANCEL][0]) && [CANCEL][0].run.runId == "r";
  }

  /** The run is still open, and its place is given away. */
  lemma CancelledCopyFreesPlace()
    ensures Trace(CopyStates(), CopySteps(), Limits(1, 1))
    ensures EndsACopy(CopyStates()[3], CopySteps()[3])
    ensures Open(CopyStates()[4], "r") && Admits(CopyStates()[4].counters, Limits(1, 1), "a")
  {
    ForkedCopy();
    TwoFold("a");
    hide Fold, ForkEvents, Forked;
    CopyBooks();
    var s := CopyStates();
    assert Open(s[3], "r") && s[3].homes["r"] != "b" && "r" in Ended([CANCEL]);
    assert Next(s[0], Limits(1, 1), CopySteps()[0], s[1]);
    assert Next(s[1], Limits(1, 1), CopySteps()[1], s[2]);
    assert Next(s[2], Limits(1, 1), CopySteps()[2], s[3]);
    assert Next(s[3], Limits(1, 1), CopySteps()[3], s[4]);
  }

  lemma CopyBooks()
    ensures var s := CopyStates();
            && s[1].logs == s[0].logs["a" := [CREATED]]
            && s[2].logs == s[1].logs["a" := s[1].logs["a"] + [RunEv(QUEUED)]]
            && s[2].counters == Reserved(s[1].counters, "a", "r") && s[2].homes == s[1].homes["r" := "a"]
            && s[3].logs == s[2].logs["b" := Forked()]
            && s[4].logs == s[3].logs["b" := s[3].logs["b"] + [CANCEL]]
            && s[4].counters == ReleaseAll(s[3].counters, [CANCEL])
  {
    hide Forked;
    var s := CopyStates();
    assert s[1].logs["a"] + [RunEv(QUEUED)] == [CREATED, RunEv(QUEUED)];
    assert [CANCEL][..0] == [];
    assert ReleaseAll(s[3].counters, [CANCEL]) == Released(s[3].counters, "r");
    assert map["a" := "a"] - {"a"} == map[];
    assert s[3].counters.runSessions - {"r"} == map[];
    assert s[3].counters.sessions - {"a"} == map[];
  }
}
