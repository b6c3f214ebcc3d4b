/** Appending whatever the projection cache holds. A caller dropped between the commit and the cache update leaves a
    projection behind that misses a batch (piqo-server/src/storage.rs, `append_events`); this module says what the
    operations do then. */
module StaleCache {
  import opened Prelude
  import opened Events
  import opened Session
  import opened StoreSpec
  import Quiescence

  /** What the tables keep even then: ids 1, 2, 3, ... in every log, and each row's last id the number of its events;
      and every event row names its session. */
  predicate TablesNumbered(db: Db) {
    && db.sessions.Keys == db.events.Keys
    && (forall s :: s in db.sessions ==> Contiguous(db.events[s]) && db.events[s] != [] && db.sessions[s].lastEventId == |db.events[s]|)
    && (forall s :: s in db.sessions ==> Owned(s, db.events[s]))
  }

  predicate Numbered(st: StoreState) { TablesNumbered(st.db) }

  /** The projection a batch is validated against: the cached one, or the fold of the rows if they fold. */
  function BaseOf(st: StoreState, s: Id): Option<Projection> {
    if s in st.cache then Some(st.cache[s])
    else if s in st.db.events && Readable(s, st.db.events[s]) then Some(ProjectionOf(s, st.db.events[s]))
    else None
  }

  predicate CanWrite(st: StoreState, s: Id, batch: seq<SemanticEvent>) {
    && s in st.db.sessions && s in st.db.events && BaseOf(st, s).Some?
    && Replay(BaseOf(st, s).value, |st.db.events[s]| + 1, batch).Ok()
  }

  /** Rows, summary and, unless the caller is dropped, the cached projection. */
  function Write(st: StoreState, s: Id, batch: seq<SemanticEvent>, dropped: bool): StoreState {
    if batch == [] || !CanWrite(st, s, batch) then st
    else
      var after := Replay(BaseOf(st, s).value, |st.db.events[s]| + 1, batch).value;
      var rows := Grown(s, st.db.events[s], batch);
      StoreState(WithSession(st.db, s, Summarized(st.db.sessions[s], after.state, |rows|), rows),
                 if dropped then st.cache else st.cache[s := after])
  }

  lemma CoherentIsNumbered(st: StoreState)
    requires Coherent(st)
    ensures Numbered(st)
  {
    forall s | s in st.db.sessions
      ensures Contiguous(st.db.events[s]) && st.db.events[s] != [] && st.db.sessions[s].lastEventId == |st.db.events[s]|
    {
      assert SessionOk(s, st.db.sessions[s], st.db.events[s]);
    }
    hide ProjectionOf;
  }

  /** In a coherent store the base is the fold. */
  lemma BaseIsFold(st: StoreState, s: Id)
    requires Coherent(st) && s in st.db.sessions
    ensures s in st.db.events && Readable(s, st.db.events[s]) && BaseOf(st, s) == Some(ProjectionOf(s, st.db.events[s]))
  {
    assert SessionOk(s, st.db.sessions[s], st.db.events[s]);
    hide ProjectionOf;
  }

  /** In a coherent store this is the append of module `StoreSpec`. */
  lemma WriteIsAppend(st: StoreState, s: Id, batch: seq<SemanticEvent>)
    requires Coherent(st)
    ensures CanWrite(st, s, batch) <==> CanAppend(st, s, batch)
    ensures Write(st, s, batch, false) == Append(st, s, batch)
    ensures Write(st, s, batch, true) == AppendUncached(st, s, batch)
  {
    if s in st.db.sessions {
      BaseIsFold(st, s);
      hide BaseOf, Coherent;
      TakesGrown(s, st.db.events[s], batch);
    }
  }

  lemma GrownContiguous(s: Id, rows: seq<RecordedEvent>, batch: seq<SemanticEvent>)
    requires Contiguous(rows)
    ensures Contiguous(Grown(s, rows, batch)) && (Owned(s, rows) ==> Owned(s, Grown(s, rows, batch))) && |Grown(s, rows, batch)| == |rows| + |batch|
    ensures rows <= Grown(s, rows, batch)
  {
  }

  lemma WriteNumbered(st: StoreState, s: Id, batch: seq<SemanticEvent>, dropped: bool)
    requires Numbered(st)
    ensures Numbered(Write(st, s, batch, dropped))
  {
    if batch != [] && CanWrite(st, s, batch) {
      GrownContiguous(s, st.db.events[s], batch);
      hide CanWrite, BaseOf, Grown, Contiguous;
    }
  }

  // ---------------------------------------------------------------- after a dropped caller

  /** The state of the session when a batch `a` was committed without the cache update and a batch `b` is appended. */
  predicate Stale(st: StoreState, s: Id, a: seq<SemanticEvent>, b: seq<SemanticEvent>) {
    && Coherent(st) && s in st.cache && a != [] && b != []
    && CanAppend(st, s, a) && CanWrite(AppendUncached(st, s, a), s, b)
  }

  /** What the two writes leave: one session's rows, row and cached projection are new. */
  lemma StaleShape(st: StoreState, s: Id, a: seq<SemanticEvent>, b: seq<SemanticEvent>)
    requires Stale(st, s, a, b)
    ensures var after := Write(AppendUncached(st, s, a), s, b, false);
            && s in after.db.sessions && s in after.db.events && s in after.cache
            && after.db.events[s] == Grown(s, st.db.events[s], a + b)
            && after.db.events[s] != [] && Contiguous(after.db.events[s])
            && after.db == WithSession(st.db, s, after.db.sessions[s], after.db.events[s])
            && after.db.sessions[s] == Summarized(after.db.sessions[s], after.cache[s].state, |after.db.events[s]|)
            && after.cache == st.cache[s := after.cache[s]]
  {
    hide ProjectionOf, Grown, Replay, Takes, SessionOk, CacheOk, ReferencesOk, BaseOf, Contiguous, Owned;
    GrownTwice(s, st.db.events[s], a, b);
    CoherentIsNumbered(st);
    GrownContiguous(s, st.db.events[s], a + b);
  }

  /** The second batch is checked against, and summarised from, a projection that misses the first. Both are in the log.
      Every session is still readable and its row right if and only if the log folds and the fold has the phase and
      revision the stale projection arrived at; and the cache is right again if and only if the whole fold is the
      projection it arrived at. */
  lemma StaleAppend(st: StoreState, s: Id, a: seq<SemanticEvent>, b: seq<SemanticEvent>)
    requires Stale(st, s, a, b)
    ensures var after := Write(AppendUncached(st, s, a), s, b, false);
            && s in after.db.events && s in after.cache
            && after.db.events[s] == Grown(s, st.db.events[s], a + b)
            && (SessionsOk(after.db) <==>
                  && Accepted(s, Strip(after.db.events[s]))
                  && ProjectionOf(s, after.db.events[s]).state.phase == after.cache[s].state.phase
                  && ProjectionOf(s, after.db.events[s]).state.revision == after.cache[s].state.revision)
            && (CacheOk(after) <==> ProjectionOf(s, after.db.events[s]) == after.cache[s])
  {
    StaleShape(st, s, a, b);
    hide ProjectionOf, Grown, Write, AppendUncached, SessionOk, Accepted, CanWrite, CacheOk, SessionsOk;
    var after := Write(AppendUncached(st, s, a), s, b, false);
    var row, rows := after.db.sessions[s], after.db.events[s];
    OneSessionChanged(st.db, s, row, rows);
    SummaryRight(s, row, rows, after.cache[s].state);
    OneCacheChanged(st, s, row, rows, after.cache[s]);
    assert after == StoreState(WithSession(st.db, s, row, rows), st.cache[s := after.cache[s]]);
  }

  lemma OneCacheChanged(st: StoreState, s: Id, row: Row, rows: seq<RecordedEvent>, p: Projection)
    requires CacheOk(st)
    ensures CacheOk(StoreState(WithSession(st.db, s, row, rows), st.cache[s := p])) <==> ProjectionOf(s, rows) == p
  {
    hide ProjectionOf;
    var after := StoreState(WithSession(st.db, s, row, rows), st.cache[s := p]);
    forall x | x in after.cache && x != s ensures x in after.db.events && after.cache[x] == ProjectionOf(x, after.db.events[x]) {
      assert after.cache[x] == st.cache[x] && after.db.events[x] == st.db.events[x];
    }
    assert s in after.cache && after.db.events[s] == rows;
  }

  lemma OneSessionChanged(db: Db, s: Id, row: Row, rows: seq<RecordedEvent>)
    requires SessionsOk(db)
    ensures SessionsOk(WithSession(db, s, row, rows)) <==> SessionOk(s, row, rows)
  {
    hide SessionOk;
    var after := WithSession(db, s, row, rows);
    forall x | x in after.sessions && x != s ensures SessionOk(x, after.sessions[x], after.events[x]) {
      assert SessionOk(x, db.sessions[x], db.events[x]);
    }
    assert SessionsOk(after) ==> SessionOk(s, after.sessions[s], after.events[s]);
  }

  lemma SummaryRight(s: Id, row: Row, rows: seq<RecordedEvent>, state: SessionState)
    requires rows != [] && Contiguous(rows) && row == Summarized(row, state, |rows|)
    ensures SessionOk(s, row, rows) <==>
              && Accepted(s, Strip(rows))
              && ProjectionOf(s, rows).state.phase == state.phase && ProjectionOf(s, rows).state.revision == state.revision
  {
    hide ProjectionOf, Accepted;
  }

  /** A session whose run is queued, read once, so that its projection is cached. */
  function QueuedOnce(s: Id): StoreState {
    Append(CreateSession(StoreState(Db({}, map[], map[]), map[]), s, None, None), s, [RunEv(RunQueued("r", None, "p", "m", Null))])
  }

  /** What cancelling the queued run appends. */
  const CANCEL := [RunEv(RunCancelled("r", Some("cancelled_by_user")))]

  /** What the worker appends before it starts the run. */
  const RUNNING := [SessionEv(SessionPhaseChanged(Created, Running, Some("run_started")))]

  const QUEUED := NewRun("r", None, "p", "m", Null)

  lemma EmptyStore()
    ensures Coherent(StoreState(Db({}, map[], map[]), map[]))
  {
  }

  function OneQueued(s: Id): Projection {
    Projection(SessionState(s, Created, 0, Some(2)), [], Agents(map[], map[]), map[], Queue(map["r" := QUEUED], false), Context([], None, None, None))
  }

  lemma QueuedOnceState(s: Id)
    ensures var st := QueuedOnce(s);
            && Coherent(st) && s in st.cache && s in st.db.sessions && s in st.db.events && |st.db.events[s]| == 2
            && st.cache[s] == ProjectionOf(s, st.db.events[s]) == OneQueued(s)
  {
    var empty := StoreState(Db({}, map[], map[]), map[]);
    var made := CreateSession(empty, s, None, None);
    var e1, e2 := SessionEv(SessionCreated(None)), RunEv(RunQueued("r", None, "p", "m", Null));
    EmptyStore();
    CreateSessionCoherent(empty, s, None, None);
    AppendCoherent(made, s, [e2]);
    assert Strip(made.db.events[s]) == [e1];
    ReplayOne(New(s), 1, e1);
    var p := Step(New(s), 1, e1).value;
    ReplayOne(p, 2, e2);
    assert map[]["r" := QUEUED] == map["r" := QUEUED];
    TakesGrown(s, made.db.events[s], [e2]);
    hide Coherent;
  }

  lemma CancelledTwice(s: Id)
    ensures Replay(OneQueued(s), 3, CANCEL).Ok()
    ensures var o := Replay(OneQueued(s), 4, CANCEL);
            o.Ok() && o.value.state.phase == Created && o.value.state.revision == 0
            && "r" in o.value.queue.runs && o.value.queue.runs["r"].status == Cancelled
    ensures !Replay(OneQueued(s), 3, CANCEL + CANCEL).Ok()
  {
    var e := CANCEL[0];
    ReplayOne(OneQueued(s), 3, e);
    ReplayOne(OneQueued(s), 4, e);
    ReplayAppend(OneQueued(s), 3, CANCEL, CANCEL);
    ReplayOne(Step(OneQueued(s), 3, e).value, 4, e);
  }

  /** The concrete failure: a client that cancels a queued run goes away during the commit, so that the run is still queued
      in the cache, and cancels it again. Both cancellations are accepted and in the log, which no longer folds; the row
      counts them; and opening the database again is refused. */
  lemma DroppedCancelBreaksLog(s: Id)
    ensures var st := QueuedOnce(s);
            var dropped := AppendUncached(st, s, CANCEL);
            var after := Write(dropped, s, CANCEL, false);
            && Coherent(st) && CanAppend(st, s, CANCEL) && !Coherent(dropped) && CanWrite(dropped, s, CANCEL)
            && s in after.db.sessions && s in after.db.events && s in after.cache
            && after.db.events[s] == Grown(s, st.db.events[s], CANCEL + CANCEL) && !Accepted(s, Strip(after.db.events[s]))
            && after.db.sessions[s].phase == Created && after.db.sessions[s].lastEventId == 4
            && "r" in after.cache[s].queue.runs && after.cache[s].queue.runs["r"].status == Cancelled
            && !SessionsOk(after.db)
  {
    var st := QueuedOnce(s);
    QueuedOnceState(s);
    CancelledTwice(s);
    hide Replay, Step, QueuedOnce, OneQueued, Accepted;
    AbandonedCommit(st, s, CANCEL);
    BaseIsFold(st, s);
    StaleAppend(st, s, CANCEL, CANCEL);
    StaleShape(st, s, CANCEL, CANCEL);
    StaleBase(st, s, CANCEL, CANCEL);
    TakesGrown(s, st.db.events[s], CANCEL + CANCEL);
  }

  /** The cached projection after the second batch: it misses the first, except that events are numbered past it. */
  lemma StaleBase(st: StoreState, s: Id, a: seq<SemanticEvent>, b: seq<SemanticEvent>)
    requires Stale(st, s, a, b)
    ensures var after := Write(AppendUncached(st, s, a), s, b, false);
            && s in after.cache && s in st.db.events
            && Replay(st.cache[s], |st.db.events[s]| + |a| + 1, b).Ok()
            && after.cache[s] == Replay(st.cache[s], |st.db.events[s]| + |a| + 1, b).value
            && |after.db.events[s]| == |st.db.events[s]| + |a| + |b|
  {
    hide ProjectionOf, Replay, Takes, SessionOk, CacheOk, ReferencesOk;
    assert |Grown(s, st.db.events[s], a)| == |st.db.events[s]| + |a|;
  }

  /** What the shutdown appends to a session whose projection it reads. */
  function ShutdownEvents(p: Projection): seq<SemanticEvent> {
    Quiescence.InterruptAll(Quiescence.OpenRuns(p.queue.runs), "server_shutdown") + Quiescence.PhaseStop(p.state.phase, "server_shutdown")
  }

  lemma ShutdownOfQueued(s: Id)
    ensures ShutdownEvents(OneQueued(s)) == [RunEv(RunInterrupted("r", "server_shutdown"))]
  {
    var open := Quiescence.OpenRuns(OneQueued(s).queue.runs);
    Quiescence.OpenIsNotTerminal(OneQueued(s).queue.runs);
    assert "r" in open && forall i :: 0 <= i < |open| ==> open[i] == "r";
    assert |open| == 1 by {
      var last := |open| - 1;
      assert open[0] == open[last];
    }
    assert open == ["r"];
  }

  lemma RunningThenStopped(s: Id)
    ensures Replay(OneQueued(s), 3, RUNNING).Ok()
    ensures var o := Replay(OneQueued(s), 4, [RunEv(RunInterrupted("r", "server_shutdown"))]);
            o.Ok() && o.value.state.phase == Created
    ensures var o := Replay(OneQueued(s), 3, RUNNING + [RunEv(RunInterrupted("r", "server_shutdown"))]);
            o.Ok() && o.value.state.phase == Running
  {
    var e := RunEv(RunInterrupted("r", "server_shutdown"));
    ReplayOne(OneQueued(s), 3, RUNNING[0]);
    ReplayOne(OneQueued(s), 4, e);
    ReplayAppend(OneQueued(s), 3, RUNNING, [e]);
    ReplayOne(Step(OneQueued(s), 3, RUNNING[0]).value, 4, e);
  }

  /** The other one: the worker is aborted at shutdown during the commit of its phase change, and the shutdown, which reads
      the phase before it, closes the run and leaves the phase alone. The log folds, to Running; the row says Created; and
      opening the database again is refused. */
  lemma DroppedPhaseBreaksRow(s: Id)
    ensures s in QueuedOnce(s).cache && s in AppendUncached(QueuedOnce(s), s, RUNNING).cache
    ensures var st := QueuedOnce(s);
            var dropped := AppendUncached(st, s, RUNNING);
            var after := Write(dropped, s, ShutdownEvents(dropped.cache[s]), false);
            && Coherent(st) && CanAppend(st, s, RUNNING) && CanWrite(dropped, s, ShutdownEvents(dropped.cache[s]))
            && s in after.db.sessions && s in after.db.events && Readable(s, after.db.events[s])
            && ProjectionOf(s, after.db.events[s]).state.phase == Running && after.db.sessions[s].phase == Created
            && !SessionsOk(after.db)
  {
    var st := QueuedOnce(s);
    QueuedOnceState(s);
    RunningThenStopped(s);
    ShutdownOfQueued(s);
    hide Replay, Step, QueuedOnce, OneQueued, Accepted, ShutdownEvents;
    var b := [RunEv(RunInterrupted("r", "server_shutdown"))];
    BaseIsFold(st, s);
    StaleAppend(st, s, RUNNING, b);
    StaleShape(st, s, RUNNING, b);
    StaleBase(st, s, RUNNING, b);
    TakesGrown(s, st.db.events[s], RUNNING + b);
  }

  // ---------------------------------------------------------------- the other operations

  /** A cache miss reads the log and, if it folds, remembers its projection. */
  function Remember(st: StoreState, s: Id): StoreState {
    if s in st.db.sessions && BaseOf(st, s).Some? then st.(cache := st.cache[s := BaseOf(st, s).value]) else st
  }

  predicate CanBranch(st: StoreState, parent: Id, at: EventId) {
    CanFork(st, parent, at) && Readable(parent, st.db.events[parent][..at])
  }

  function Branch(st: StoreState, parent: Id, at: EventId, id: Id, title: Option<string>): StoreState {
    if CanBranch(st, parent, at) then ForkSession(st, parent, at, id, title) else st
  }

  lemma RememberIsRead(st: StoreState, s: Id)
    requires Coherent(st)
    ensures Remember(st, s) == ReadProjection(st, s)
  {
    if s in st.db.sessions {
      BaseIsFold(st, s);
      hide ProjectionOf, Readable;
      assert s in st.cache ==> st.cache[s := st.cache[s]] == st.cache;
    } else {
      hide ProjectionOf, Readable;
    }
  }

  lemma ReadablePrefix(s: Id, rows: seq<RecordedEvent>, at: EventId)
    requires Readable(s, rows) && 1 <= at <= |rows|
    ensures Readable(s, rows[..at])
  {
    StripTake(rows, at);
    PrefixAccepted(s, Strip(rows), at);
  }

  lemma BranchIsFork(st: StoreState, parent: Id, at: EventId, id: Id, title: Option<string>)
    requires Coherent(st)
    ensures CanBranch(st, parent, at) <==> CanFork(st, parent, at)
    ensures Branch(st, parent, at, id, title) == ForkSession(st, parent, at, id, title)
  {
    hide Coherent, BranchRows, ProjectionOf;
    if CanFork(st, parent, at) {
      BaseIsFold(st, parent);
      ReadablePrefix(parent, st.db.events[parent], at);
    }
  }

  lemma RememberNumbered(st: StoreState, s: Id)
    requires Numbered(st)
    ensures Numbered(Remember(st, s))
  {
    hide BaseOf, Contiguous;
  }

  lemma CreateNumbered(st: StoreState, id: Id, title: Option<string>, project: Option<Id>)
    requires Numbered(st) && id !in st.db.sessions
    ensures Numbered(CreateSession(st, id, title, project))
  {
  }

  lemma DeleteNumbered(st: StoreState, project: Id)
    requires Numbered(st)
    ensures Numbered(DeleteProject(st, project))
  {
    hide Contiguous;
  }

  /** Deleting a project; a caller dropped after the DELETE evicts nothing. */
  function Remove(st: StoreState, project: Id, dropped: bool): StoreState {
    if dropped then st.(db := DeleteProject(st, project).db) else DeleteProject(st, project)
  }

  lemma RemoveNumbered(st: StoreState, project: Id, dropped: bool)
    requires Numbered(st)
    ensures Numbered(Remove(st, project, dropped))
  {
    DeleteNumbered(st, project);
    hide DeleteProject, TablesNumbered;
  }

  /** Some session of the project has a cached projection. */
  predicate CachedIn(st: StoreState, project: Id) { exists s :: s in SessionsOf(st.db, project) && s in st.cache }

  /** The eviction is missed exactly when there is something to evict: a projection then outlives its session. */
  lemma RemoveCoherent(st: StoreState, project: Id, dropped: bool)
    requires Coherent(st)
    ensures Coherent(Remove(st, project, dropped)) <==> !(dropped && project in st.db.projects && CachedIn(st, project))
  {
    hide SessionsOk, ReferencesOk;
    DeleteProjectCoherent(st, project);
    if dropped && project in st.db.projects {
      var gone := SessionsOf(st.db, project);
      if CachedIn(st, project) {
        var s :| s in gone && s in st.cache;
        assert s !in Remove(st, project, dropped).db.events;
      } else {
        assert st.cache - gone == st.cache;
      }
    }
  }

  /** The projection that is left behind can still be read, and nothing is appended to it. */
  lemma DeletedIsReadable(st: StoreState, project: Id, s: Id, batch: seq<SemanticEvent>)
    requires project in st.db.projects && s in SessionsOf(st.db, project) && s in st.cache
    ensures var after := Remove(st, project, true);
            s !in after.db.sessions && BaseOf(after, s) == Some(st.cache[s]) && !CanWrite(after, s, batch)
  {
  }

  lemma BranchNumbered(st: StoreState, parent: Id, at: EventId, id: Id, title: Option<string>)
    requires Numbered(st) && id !in st.db.sessions
    ensures Numbered(Branch(st, parent, at, id, title))
  {
    if CanBranch(st, parent, at) {
      BranchRead(st, parent, at, id);
      hide Contiguous, ProjectionOf, BranchRows, Readable, CanFork;
    }
  }

  /** The branch of a prefix that folds. */
  lemma BranchRead(st: StoreState, parent: Id, at: EventId, id: Id)
    requires CanBranch(st, parent, at)
    ensures var p := ProjectionOf(parent, st.db.events[parent][..at]);
            && Readable(id, BranchRows(st, parent, at, id))
            && BranchRows(st, parent, at, id) == Copied(st.db.events[parent][..at], id) + Recorded(id, at, ForkEvents(parent, at, p))
            && ProjectionOf(id, BranchRows(st, parent, at, id)) == Renamed(Branched(p, at), id)
            && Contiguous(BranchRows(st, parent, at, id)) && BranchRows(st, parent, at, id) != []
            && Owned(id, BranchRows(st, parent, at, id))
  {
    var prefix := st.db.events[parent][..at];
    BranchMeaning(parent, prefix, at, id);
    assert prefix[..at] == prefix;
    hide Fold, Branched, ForkEvents;
  }
}
