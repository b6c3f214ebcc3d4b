/** Restart recovery as a function of the store: what `recover_running_sessions` leaves
    (piqo-server/src/storage.rs), and exactly which sessions it leaves without an active run. */
module Recovery {
  import opened Prelude
  import opened Events
  import opened Session
  import opened StoreSpec
  import Finishing

  /** The sessions whose row says they were running. */
  function RunningSessions(db: Db): set<Id> {
    set s | s in db.sessions && db.sessions[s].phase == Running
  }

  /** What recovery appends to one of them. */
  function RecoveryBatch(q: Queue): seq<SemanticEvent> {
    if ActiveRun(q).Some? then
      [SessionEv(SessionInterrupted("server_restart"))] + [RunEv(RunInterrupted(ActiveRun(q).value, "server_restart"))]
    else [SessionEv(SessionInterrupted("server_restart"))]
  }

  function Closed(q: Queue): Queue {
    if ActiveRun(q).Some? then
      var r := ActiveRun(q).value;
      Queue(q.runs[r := q.runs[r].(status := RunInterruptedStatus, error := Some("server_restart"))], true)
    else q
  }

  /** On a running session the batch is always accepted. It interrupts the session and the first active run. */
  lemma RecoveryReplay(p: Projection, n: EventId)
    requires p.state.phase == Running
    ensures Replay(p, n, RecoveryBatch(p.queue)).Ok()
    ensures Replay(p, n, RecoveryBatch(p.queue)).value.state.phase == Interrupted
    ensures Replay(p, n, RecoveryBatch(p.queue)).value.queue == Closed(p.queue)
  {
    var e1 := SessionEv(SessionInterrupted("server_restart"));
    ReplayOne(p, n, e1);
    if ActiveRun(p.queue).Some? {
      var e2 := RunEv(RunInterrupted(ActiveRun(p.queue).value, "server_restart"));
      ReplayAppend(p, n, [e1], [e2]);
      ReplayOne(Step(p, n, e1).value, n + 1, e2);
    }
  }

  function RecoveredRows(s: Id, rows: seq<RecordedEvent>): seq<RecordedEvent> {
    Grown(s, rows, RecoveryBatch(ProjectionOf(s, rows).queue))
  }

  function RecoveredRow(s: Id, row: Row, rows: seq<RecordedEvent>): Row {
    Summarized(row, ProjectionOf(s, RecoveredRows(s, rows)).state, |RecoveredRows(s, rows)|)
  }

  /** Recover the sessions in `ids`, whatever the order. */
  function RecoverAll(st: StoreState, ids: set<Id>): StoreState
    requires ids <= st.db.sessions.Keys == st.db.events.Keys
  {
    StoreState(
      Db(st.db.projects,
         map s | s in st.db.sessions ::
           if s in ids then RecoveredRow(s, st.db.sessions[s], st.db.events[s]) else st.db.sessions[s],
         map s | s in st.db.events :: if s in ids then RecoveredRows(s, st.db.events[s]) else st.db.events[s]),
      map s | s in st.cache.Keys + ids ::
        if s in ids then ProjectionOf(s, RecoveredRows(s, st.db.events[s])) else st.cache[s])
  }

  /** Recovery cut off: the sessions in `done` are recovered, and `half` was interrupted but its run was not. */
  function RecoverUntil(st: StoreState, done: set<Id>, half: Option<Id>): StoreState
    requires done <= st.db.sessions.Keys == st.db.events.Keys
  {
    if half.None? then RecoverAll(st, done)
    else Append(RecoverAll(st, done), half.value, [SessionEv(SessionInterrupted("server_restart"))])
  }

  function Recover(st: StoreState): StoreState
    requires SessionsOk(st.db)
  {
    RecoverAll(st, RunningSessions(st.db))
  }

  lemma RunningTakes(st: StoreState, s: Id)
    requires SessionsOk(st.db) && s in RunningSessions(st.db)
    ensures CanAppend(st, s, RecoveryBatch(ProjectionOf(s, st.db.events[s]).queue))
  {
    assert SessionOk(s, st.db.sessions[s], st.db.events[s]);
    RecoveryReplay(ProjectionOf(s, st.db.events[s]), |st.db.events[s]| + 1);
  }

  /** Recovering one more session is one more append. */
  lemma RecoverAllNext(st: StoreState, done: set<Id>, s: Id)
    requires SessionsOk(st.db) && done <= RunningSessions(st.db) && s in RunningSessions(st.db) && s !in done
    ensures RecoverAll(st, done).db.events[s] == st.db.events[s]
    ensures CanAppend(RecoverAll(st, done), s, RecoveryBatch(ProjectionOf(s, st.db.events[s]).queue))
    ensures Append(RecoverAll(st, done), s, RecoveryBatch(ProjectionOf(s, st.db.events[s]).queue)) == RecoverAll(st, done + {s})
  {
    RunningTakes(st, s);
    BatchNotEmpty(ProjectionOf(s, st.db.events[s]).queue);
    RecoverAllStep(st, done, s, RecoveryBatch(ProjectionOf(s, st.db.events[s]).queue));
  }

  lemma RecoverAllStep(st: StoreState, done: set<Id>, s: Id, batch: seq<SemanticEvent>)
    requires st.db.sessions.Keys == st.db.events.Keys && done <= st.db.sessions.Keys
    requires s in st.db.sessions && s !in done
    requires batch == RecoveryBatch(ProjectionOf(s, st.db.events[s]).queue) && batch != []
    requires CanAppend(st, s, batch)
    ensures CanAppend(RecoverAll(st, done), s, batch)
    ensures Append(RecoverAll(st, done), s, batch) == RecoverAll(st, done + {s})
  {
    hide ProjectionOf, RecoveryBatch, Takes, Grown, Summarized;
    RecoverAllAt(st, done, s);
    var before, left, right := RecoverAll(st, done), Append(RecoverAll(st, done), s, batch), RecoverAll(st, done + {s});
    assert left == StoreState(Committed(before.db, s, batch), before.cache[s := ProjectionOf(s, RecoveredRows(s, st.db.events[s]))]);
    RecoverAllMore(st, done, s);
    assert left.db.sessions[s] == RecoveredRow(s, st.db.sessions[s], st.db.events[s]);
  }

  lemma RecoverAllAt(st: StoreState, done: set<Id>, s: Id)
    requires st.db.sessions.Keys == st.db.events.Keys && done <= st.db.sessions.Keys
    requires s in st.db.sessions && s !in done
    ensures s in RecoverAll(st, done).db.sessions && RecoverAll(st, done).db.sessions[s] == st.db.sessions[s]
    ensures s in RecoverAll(st, done).db.events && RecoverAll(st, done).db.events[s] == st.db.events[s]
  {
    hide ProjectionOf, RecoveredRow, RecoveredRows;
  }

  /** One more session changes one entry of each table. */
  lemma RecoverAllMore(st: StoreState, done: set<Id>, s: Id)
    requires st.db.sessions.Keys == st.db.events.Keys && done <= st.db.sessions.Keys && s in st.db.sessions
    ensures var before := RecoverAll(st, done);
            var rows := RecoveredRows(s, st.db.events[s]);
            RecoverAll(st, done + {s}) ==
            StoreState(WithSession(before.db, s, RecoveredRow(s, st.db.sessions[s], st.db.events[s]), rows),
                       before.cache[s := ProjectionOf(s, rows)])
  {
    hide ProjectionOf, RecoveredRow, RecoveredRows;
    var before, after := RecoverAll(st, done), RecoverAll(st, done + {s});
    var rows := RecoveredRows(s, st.db.events[s]);
    assert after.db.sessions == before.db.sessions[s := RecoveredRow(s, st.db.sessions[s], st.db.events[s])];
    assert after.db.events == before.db.events[s := rows];
    assert after.cache == before.cache[s := ProjectionOf(s, rows)];
  }

  lemma BatchNotEmpty(q: Queue)
    ensures RecoveryBatch(q) != []
  {
  }

  /** The session after recovery: its log grew by the batch, and its projection is closed. */
  lemma RecoveredSession(st: StoreState, s: Id)
    requires Coherent(st) && s in st.db.sessions
    ensures var q := ProjectionOf(s, st.db.events[s]).queue;
            var after := ProjectionOf(s, Recover(st).db.events[s]);
            if st.db.sessions[s].phase == Running then after.state.phase == Interrupted && after.queue == Closed(q)
            else after == ProjectionOf(s, st.db.events[s])
  {
    if s in RunningSessions(st.db) {
      RunningTakes(st, s);
      assert SessionOk(s, st.db.sessions[s], st.db.events[s]);
      var p := ProjectionOf(s, st.db.events[s]);
      BatchNotEmpty(p.queue);
      TakesGrown(s, st.db.events[s], RecoveryBatch(p.queue));
      RecoveryReplay(p, |st.db.events[s]| + 1);
    }
  }

  lemma RowPhase(st: StoreState, s: Id)
    requires SessionsOk(st.db) && s in st.db.sessions
    ensures st.db.sessions[s].phase == ProjectionOf(s, st.db.events[s]).state.phase
  {
    hide ProjectionOf, Readable;
    assert SessionOk(s, st.db.sessions[s], st.db.events[s]);
  }

  lemma ClosedActivity(q: Queue)
    ensures var running := RunsWith(q.runs, RunRunning);
            ActiveRun(Closed(q)).None? <==> running == {} || |running| == 1
  {
    var before, after := RunsWith(q.runs, RunRunning), RunsWith(Closed(q).runs, RunRunning);
    if ActiveRun(q).Some? {
      assert after == before - {ActiveRun(q).value};
      assert |after| == |before| - 1;
      assert |after| == 0 <==> after == {};
    }
  }

  /** Main result: after recovery a session has no active run exactly when it had none, or it had one and its
      phase was Running. A run that was continued while the session stayed Interrupted is not recovered. */
  lemma RecoveredActivity(st: StoreState, s: Id)
    requires Coherent(st) && s in st.db.sessions
    ensures var running := RunsWith(ProjectionOf(s, st.db.events[s]).queue.runs, RunRunning);
            ActiveRun(ProjectionOf(s, Recover(st).db.events[s]).queue).None? <==>
            running == {} || (st.db.sessions[s].phase == Running && |running| == 1)
  {
    RecoveredSession(st, s);
    ClosedActivity(ProjectionOf(s, st.db.events[s]).queue);
    hide ProjectionOf, Closed;
  }

  lemma RecoverNothing(st: StoreState)
    requires st.db.sessions.Keys == st.db.events.Keys
    ensures RecoverAll(st, {}) == st
  {
    hide ProjectionOf, RecoveredRow, RecoveredRows;
    assert RecoverAll(st, {}).db.sessions == st.db.sessions;
    assert RecoverAll(st, {}).db.events == st.db.events;
    assert RecoverAll(st, {}).cache == st.cache;
  }

  lemma NextCoherent(st: StoreState, done: set<Id>, s: Id)
    requires Coherent(st) && done <= RunningSessions(st.db) && s in RunningSessions(st.db) && s !in done
    requires Coherent(RecoverAll(st, done))
    ensures Coherent(RecoverAll(st, done + {s}))
  {
    RecoverAllNext(st, done, s);
    AppendCoherent(RecoverAll(st, done), s, RecoveryBatch(ProjectionOf(s, st.db.events[s]).queue));
    hide *;
  }

  lemma {:induction false} RecoverAllCoherent(st: StoreState, ids: set<Id>)
    requires Coherent(st) && ids <= RunningSessions(st.db)
    ensures Coherent(RecoverAll(st, ids))
    decreases ids
  {
    hide RecoverAll, SessionOk, CacheOk, ReferencesOk;
    if ids == {} {
      RecoverNothing(st);
    } else {
      var s :| s in ids;
      RecoverAllCoherent(st, ids - {s});
      NextCoherent(st, ids - {s}, s);
      assert ids - {s} + {s} == ids;
    }
  }

  /** After recovery no session is running, the store is coherent, and recovering again changes nothing. */
  lemma RecoverySettles(st: StoreState)
    requires Coherent(st)
    ensures Coherent(Recover(st))
    ensures RunningSessions(Recover(st).db) == {}
    ensures Recover(Recover(st)) == Recover(st)
  {
    RecoverAllCoherent(st, RunningSessions(st.db));
    forall s | s in st.db.sessions ensures Recover(st).db.sessions[s].phase != Running {
      RecoveredSession(st, s);
      RowPhase(st, s);
      RowPhase(Recover(st), s);
    }
    RecoverNothing(Recover(st));
  }

  lemma RecoveryTakes(s: Id, rows: seq<RecordedEvent>)
    requires Readable(s, rows) && ProjectionOf(s, rows).state.phase == Running
    ensures var q := ProjectionOf(s, rows).queue;
            var e1 := [SessionEv(SessionInterrupted("server_restart"))];
            && Takes(s, rows, e1)
            && ProjectionOf(s, Grown(s, rows, e1)).queue == q
            && ProjectionOf(s, Grown(s, rows, e1)).state.phase == Interrupted
            && (ActiveRun(q).Some? ==> Takes(s, Grown(s, rows, e1), [RunEv(RunInterrupted(ActiveRun(q).value, "server_restart"))]))
  {
    var p := ProjectionOf(s, rows);
    var e1 := SessionEv(SessionInterrupted("server_restart"));
    ReplayOne(p, |rows| + 1, e1);
    TakesGrown(s, rows, [e1]);
    if ActiveRun(p.queue).Some? {
      ReplayOne(Step(p, |rows| + 1, e1).value, |rows| + 2, RunEv(RunInterrupted(ActiveRun(p.queue).value, "server_restart")));
    }
  }

  // ---------------------------------------------------------------- recovery cut off

  /** A session that was interrupted and not closed keeps its active run; its phase is no longer Running, so nothing looks
      at it again. */
  lemma HalfRecovered(st: StoreState, done: set<Id>, s: Id)
    requires Coherent(st) && done <= RunningSessions(st.db) && s in RunningSessions(st.db) && s !in done
    ensures var cut := RecoverUntil(st, done, Some(s));
            && Coherent(cut) && s in cut.db.sessions && s in cut.db.events
            && cut.db.sessions[s].phase == Interrupted
            && ProjectionOf(s, cut.db.events[s]).queue == ProjectionOf(s, st.db.events[s]).queue
  {
    hide RecoverAll, Takes, ProjectionOf, Grown, RecoveryBatch, Readable, CacheOk, ReferencesOk;
    RowPhase(st, s);
    assert SessionOk(s, st.db.sessions[s], st.db.events[s]);
    RecoverAllAt(st, done, s);
    RecoveryTakes(s, st.db.events[s]);
    RecoverAllCoherent(st, done);
    HalfAppended(RecoverAll(st, done), s, st.db.events[s], [SessionEv(SessionInterrupted("server_restart"))]);
  }

  lemma HalfAppended(st: StoreState, s: Id, rows: seq<RecordedEvent>, batch: seq<SemanticEvent>)
    requires Coherent(st) && s in st.db.sessions && s in st.db.events && st.db.events[s] == rows && batch != []
    requires Takes(s, rows, batch)
    ensures var cut := Append(st, s, batch);
            && Coherent(cut) && s in cut.db.sessions && s in cut.db.events && cut.db.events[s] == Grown(s, rows, batch)
            && cut.db.sessions[s].phase == ProjectionOf(s, Grown(s, rows, batch)).state.phase
  {
    AppendCoherent(st, s, batch);
    hide Coherent, ProjectionOf, Takes, Grown;
  }

  lemma KeysOf(st: StoreState)
    requires Coherent(st)
    ensures SessionsOk(st.db) && st.db.sessions.Keys == st.db.events.Keys
  {
  }

  lemma CutElsewhere(st: StoreState, done: set<Id>, half: Option<Id>, x: Id)
    requires Coherent(st) && done <= RunningSessions(st.db) && x in st.db.sessions && half != Some(x)
    ensures var cut := RecoverUntil(st, done, half);
            && x in cut.db.sessions && x in cut.db.events
            && cut.db.events[x] == (if x in done then RecoveredRows(x, st.db.events[x]) else st.db.events[x])
            && (x !in done ==> cut.db.sessions[x] == st.db.sessions[x])
  {
    hide RecoveredRows, RecoveredRow, ProjectionOf, Takes, Grown, SessionOk;
  }

  /** Main result for a recovery that is cut off and a later one that is not: a session then has no active run exactly
      when it had none, or it had one, its phase was Running, and it is not the session at which the first recovery was
      cut off. */
  lemma CutOffActivity(st: StoreState, done: set<Id>, half: Option<Id>, s: Id)
    requires Coherent(st) && done <= RunningSessions(st.db) && s in st.db.sessions
    requires half.Some? ==> half.value in RunningSessions(st.db) - done
    ensures var running := RunsWith(ProjectionOf(s, st.db.events[s]).queue.runs, RunRunning);
            var cut := RecoverUntil(st, done, half);
            && SessionsOk(cut.db) && s in Recover(cut).db.events
            && (ActiveRun(ProjectionOf(s, Recover(cut).db.events[s]).queue).None? <==>
                running == {} || (st.db.sessions[s].phase == Running && |running| == 1 && half != Some(s)))
  {
    var cut := RecoverUntil(st, done, half);
    CutCoherent(st, done, half);
    KeysOf(cut);
    RowPhase(st, s);
    if half == Some(s) {
      HalfRecovered(st, done, s);
      hide Coherent, RecoverAll, ProjectionOf, RecoverUntil, SessionsOk;
      StaysAsItIs(cut, s);
    } else {
      CutElsewhere(st, done, half, s);
      if s in done {
        DoneIsClosed(st, cut, s);
      } else {
        hide Coherent, RecoverAll, ProjectionOf, RecoverUntil, SessionsOk;
        RecoveredActivity(cut, s);
      }
    }
  }

  lemma CutCoherent(st: StoreState, done: set<Id>, half: Option<Id>)
    requires Coherent(st) && done <= RunningSessions(st.db)
    requires half.Some? ==> half.value in RunningSessions(st.db) - done
    ensures st.db.sessions.Keys == st.db.events.Keys && Coherent(RecoverUntil(st, done, half))
  {
    KeysOf(st);
    hide Coherent, RecoverAll, Append;
    if half.Some? {
      HalfRecovered(st, done, half.value);
    } else {
      RecoverAllCoherent(st, done);
    }
  }

  lemma StaysAsItIs(st: StoreState, s: Id)
    requires Coherent(st) && s in st.db.sessions && st.db.sessions[s].phase != Running
    ensures SessionsOk(st.db) && s in st.db.events && s in Recover(st).db.events && Recover(st).db.events[s] == st.db.events[s]
  {
    hide RecoveredRows, RecoveredRow, ProjectionOf, SessionOk;
  }

  lemma DoneIsClosed(st: StoreState, cut: StoreState, s: Id)
    requires Coherent(st) && s in RunningSessions(st.db) && Coherent(cut) && s in cut.db.sessions && s in cut.db.events
    requires cut.db.events[s] == RecoveredRows(s, st.db.events[s])
    ensures SessionsOk(cut.db) && s in Recover(cut).db.events
    ensures ActiveRun(ProjectionOf(s, Recover(cut).db.events[s]).queue).None? <==>
            var running := RunsWith(ProjectionOf(s, st.db.events[s]).queue.runs, RunRunning);
            running == {} || |running| == 1
  {
    RecoveredSession(st, s);
    ClosedActivity(ProjectionOf(s, st.db.events[s]).queue);
    RecoveredAt(st, s);
    RowPhase(cut, s);
    KeysOf(cut);
    hide ProjectionOf, Closed, RecoverAll, Coherent, SessionsOk, RecoveredRows;
    StaysAsItIs(cut, s);
  }

  lemma RecoveredAt(st: StoreState, s: Id)
    requires Coherent(st) && s in RunningSessions(st.db)
    ensures s in Recover(st).db.events && Recover(st).db.events[s] == RecoveredRows(s, st.db.events[s])
  {
    hide ProjectionOf, RecoveredRow, RecoveredRows;
  }

  /** The worker's continuation of a ready run never touches the phase. */
  lemma ContinuationKeepsPhase(p: Projection, n: EventId, r: Id, attemptId: Id)
    requires ReadyActionRun(p.queue) == Some(r) && ActiveRun(p.queue).None?
    ensures var o := Replay(p, n, [QueueResumed, RunEv(RunStarted(r, attemptId, p.queue.runs[r].attempts + 1))]);
            o.Ok() && o.value.state.phase == p.state.phase && ActiveRun(o.value.queue) == Some(r)
  {
    var e := RunEv(RunStarted(r, attemptId, p.queue.runs[r].attempts + 1));
    var q := Step(p, n, QueueResumed).value;
    assert [QueueResumed, e] == [QueueResumed] + [e];
    ReplayOne(p, n, QueueResumed);
    ReplayAppend(p, n, [QueueResumed], [e]);
    ReplayOne(q, n + 1, e);
    var runs := Step(q, n + 1, e).value.queue.runs;
    assert RunsWith(runs, RunRunning) == {r};
  }

  // ---------------------------------------------------------------- two logs recovery does not look at

  /** The server stops after a run has started, and the recovery that follows is cut off after its first append. */
  function HalfLog(): seq<SemanticEvent> {
    [ SessionEv(SessionCreated(None)),
      RunEv(RunQueued("r", None, "p", "m", Null)),
      SessionEv(SessionPhaseChanged(Created, Running, Some("run_started"))),
      RunEv(RunStarted("r", "a", 1)),
      SessionEv(SessionInterrupted("server_restart")) ]
  }

  /** A run is resumed after its tool call while the session stays Interrupted, and the server stops. */
  function ContinuedLog(): seq<SemanticEvent> {
    [ SessionEv(SessionCreated(None)),
      RunEv(RunQueued("r", None, "p", "m", Null)),
      SessionEv(SessionPhaseChanged(Created, Running, Some("run_started"))),
      RunEv(RunStarted("r", "a", 1)),
      ToolEv(ToolCallEmitted("r", "c", "m1", "assistant", "lookup", Null, "", false)),
      RunEv(RunRequiresAction("r", ["c"])),
      PermissionEv(PermissionRequested("q", "r", Some("c"), "assistant", "lookup", Null)),
      PermissionEv(PermissionResolved("q", Allow, Some(ConfigurationSource), None, None)),
      SessionEv(SessionPhaseChanged(Running, Interrupted, Some("requires_action"))),
      ToolEv(ToolResult("r", "c", "assistant", "lookup", Null)),
      QueueResumed,
      RunEv(RunStarted("r", "b", 2)) ]
  }

  lemma ReplayThree(p: Projection, n: EventId, e: seq<SemanticEvent>)
    requires |e| == 3
    requires Step(p, n, e[0]).Ok() && Step(Step(p, n, e[0]).value, n + 1, e[1]).Ok()
    ensures Replay(p, n, e) == Step(Step(Step(p, n, e[0]).value, n + 1, e[1]).value, n + 2, e[2])
  {
    hide Step;
    assert e == ([e[0]] + [e[1]]) + [e[2]];
    ReplayOne(p, n, e[0]);
    ReplayAppend(p, n, [e[0]], [e[1]]);
    ReplayOne(Step(p, n, e[0]).value, n + 1, e[1]);
    ReplayAppend(p, n, [e[0]] + [e[1]], [e[2]]);
    ReplayOne(Step(Step(p, n, e[0]).value, n + 1, e[1]).value, n + 2, e[2]);
  }

  /** The projection of a session with one run, waiting for nothing else. */
  function Stage(s: Id, phase: SessionPhase, revision: nat, last: nat, run: Run, paused: bool, ps: map<Id, Permission>): Projection {
    Projection(SessionState(s, phase, revision, Some(last)), [], Agents(map[], map[]), ps,
               Queue(map["r" := run], paused), Context([], None, None, None))
  }

  const QUEUED_RUN := NewRun("r", None, "p", "m", Null)
  const OPEN_CALL := ToolCall("c", "m1", "assistant", "lookup", Null, "", false, None, None)
  const STARTED_RUN := QUEUED_RUN.(status := RunRunning, attemptId := Some("a"), attempts := 1)
  const WAITING_RUN := STARTED_RUN.(status := RequiresAction, toolCalls := map["c" := OPEN_CALL])
  const READY_RUN := WAITING_RUN.(toolCalls := map["c" := OPEN_CALL.(result := Some(Null))])
  const ASKED := Permission("q", "r", Some("c"), "assistant", "lookup", Null, None)

  function Allowed(): map<Id, Permission> { map["q" := ASKED.(decision := Some(Allow))] }

  lemma OneRun(a: Run, b: Run)
    ensures map["r" := a]["r" := b] == map["r" := b]
  {
  }

  lemma FirstStage(s: Id)
    ensures Replay(New(s), 1, ContinuedLog()[..3]) == Outcome(Stage(s, Running, 1, 3, QUEUED_RUN, false, map[]), None)
  {
    ReplayThree(New(s), 1, ContinuedLog()[..3]);
  }

  lemma SecondStage(s: Id)
    ensures Replay(Stage(s, Running, 1, 3, QUEUED_RUN, false, map[]), 4, ContinuedLog()[3..6])
            == Outcome(Stage(s, Running, 1, 6, WAITING_RUN, true, map[]), None)
  {
    var emitted := STARTED_RUN.(toolCalls := map["c" := OPEN_CALL]);
    OneRun(QUEUED_RUN, STARTED_RUN);
    OneRun(STARTED_RUN, emitted);
    OneRun(emitted, WAITING_RUN);
    assert STARTED_RUN.toolCalls["c" := OPEN_CALL] == map["c" := OPEN_CALL];
    ReplayThree(Stage(s, Running, 1, 3, QUEUED_RUN, false, map[]), 4, ContinuedLog()[3..6]);
  }

  lemma ThirdStage(s: Id)
    ensures Replay(Stage(s, Running, 1, 6, WAITING_RUN, true, map[]), 7, ContinuedLog()[6..9])
            == Outcome(Stage(s, Interrupted, 2, 9, WAITING_RUN, true, Allowed()), None)
  {
    assert map["q" := ASKED]["q" := ASKED.(decision := Some(Allow))] == Allowed();
    ReplayThree(Stage(s, Running, 1, 6, WAITING_RUN, true, map[]), 7, ContinuedLog()[6..9]);
  }

  /** The client may give its result then: the checks pass, and what is appended is what the log goes on with. */
  lemma ClientMaySubmit(s: Id)
    ensures Finishing.Submit(Stage(s, Interrupted, 2, 9, WAITING_RUN, true, Allowed()), "r", "c", Null)
            == Finishing.Recorded(ContinuedLog()[9..11], true)
  {
    var p := Stage(s, Interrupted, 2, 9, WAITING_RUN, true, Allowed());
    var matching := set x | x in p.permissions && p.permissions[x].runId == "r" && p.permissions[x].call == Some("c");
    assert matching == {"q"};
    assert Finishing.DecisionFor(p, "r", "c") == Some(Allow);
    assert ContinuedLog()[9..11] == [ContinuedLog()[9]] + [ContinuedLog()[10]];
  }

  lemma FourthStage(s: Id)
    ensures Replay(Stage(s, Interrupted, 2, 9, WAITING_RUN, true, Allowed()), 10, ContinuedLog()[9..10])
            == Outcome(Stage(s, Interrupted, 2, 10, READY_RUN, true, Allowed()), None)
  {
    OneRun(WAITING_RUN, READY_RUN);
    assert WAITING_RUN.toolCalls["c" := OPEN_CALL.(result := Some(Null))] == READY_RUN.toolCalls;
    assert ContinuedLog()[9..10] == [ContinuedLog()[9]];
    ReplayOne(Stage(s, Interrupted, 2, 9, WAITING_RUN, true, Allowed()), 10, ContinuedLog()[9]);
  }

  lemma LastStage(s: Id)
    ensures var o := Replay(Stage(s, Interrupted, 2, 10, READY_RUN, true, Allowed()), 11, ContinuedLog()[10..]);
            o.Ok() && o.value.state.phase == Interrupted && ActiveRun(o.value.queue) == Some("r")
  {
    var p := Stage(s, Interrupted, 2, 10, READY_RUN, true, Allowed());
    assert RunsWith(p.queue.runs, RunRunning) == {};
    assert READY_RUN.toolCalls.Keys == {"c"} && READY_RUN.toolCalls["c"].result.Some?;
    assert AllResults(READY_RUN);
    assert ReadyRuns(p.queue.runs) == {"r"};
    assert ContinuedLog()[10..] == [QueueResumed, RunEv(RunStarted("r", "b", 2))];
    ContinuationKeepsPhase(p, 11, "r", "b");
  }

  /** That log is accepted, and leaves an active run in a session recovery does not look at. */
  lemma ContinuedRunSurvivesRecovery(s: Id)
    ensures var o := Fold(s, ContinuedLog());
            o.Ok() && o.value.state.phase == Interrupted && ActiveRun(o.value.queue) == Some("r")
  {
    FirstStage(s);
    SecondStage(s);
    ThirdStage(s);
    FourthStage(s);
    LastStage(s);
    assert |ContinuedLog()| == 12;
    hide ContinuedLog, Stage, Step;
    FiveParts(s, ContinuedLog());
  }

  lemma FiveParts(s: Id, log: seq<SemanticEvent>)
    requires |log| == 12 && Replay(New(s), 1, log[..3]).Ok()
    requires var a := Replay(New(s), 1, log[..3]).value;
             && Replay(a, 4, log[3..6]).Ok()
             && (var b := Replay(a, 4, log[3..6]).value;
                 && Replay(b, 7, log[6..9]).Ok()
                 && (var c := Replay(b, 7, log[6..9]).value; Replay(c, 10, log[9..10]).Ok()))
    ensures var a := Replay(New(s), 1, log[..3]).value;
            var b := Replay(a, 4, log[3..6]).value;
            var c := Replay(b, 7, log[6..9]).value;
            Fold(s, log) == Replay(Replay(c, 10, log[9..10]).value, 11, log[10..])
  {
    hide Step;
    ReplayAppend(New(s), 1, log[..3], log[3..6]);
    ReplayAppend(New(s), 1, log[..3] + log[3..6], log[6..9]);
    ReplayAppend(New(s), 1, log[..3] + log[3..6] + log[6..9], log[9..10]);
    ReplayAppend(New(s), 1, log[..3] + log[3..6] + log[6..9] + log[9..10], log[10..]);
    assert log == log[..3] + log[3..6] + log[6..9] + log[9..10] + log[10..];
  }

  lemma HalfEnds(s: Id)
    ensures var o := Replay(Stage(s, Running, 1, 3, QUEUED_RUN, false, map[]), 4, HalfLog()[3..]);
            o.Ok() && o.value.state.phase == Interrupted && ActiveRun(o.value.queue) == Some("r")
  {
    var log := HalfLog();
    var p, q := Stage(s, Running, 1, 3, QUEUED_RUN, false, map[]), Stage(s, Running, 1, 4, STARTED_RUN, false, map[]);
    OneRun(QUEUED_RUN, STARTED_RUN);
    ReplayOne(p, 4, log[3]);
    ReplayOne(q, 5, log[4]);
    ReplayAppend(p, 4, [log[3]], [log[4]]);
    assert log[3..] == [log[3]] + [log[4]];
    assert RunsWith(map["r" := STARTED_RUN], RunRunning) == {"r"};
  }

  /** The shorter log is accepted too, with the same outcome. */
  lemma HalfRecoveredRunSurvives(s: Id)
    ensures var o := Fold(s, HalfLog());
            o.Ok() && o.value.state.phase == Interrupted && ActiveRun(o.value.queue) == Some("r")
  {
    var log := HalfLog();
    FirstStage(s);
    HalfEnds(s);
    assert log[..3] == ContinuedLog()[..3];
    assert log == log[..3] + log[3..];
    hide Stage, HalfLog, ContinuedLog, Step;
    ReplayAppend(New(s), 1, log[..3], log[3..]);
  }
}
