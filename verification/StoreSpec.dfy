/** The durable store as a value: tables, projection cache, and what each operation does to them
    (piqo-server/src/storage.rs). Class `SqliteStore` is proved against these functions. */
module StoreSpec {
  import opened Prelude
  import opened Events
  import opened Session
  import opened History

  /** A row of `sessions`: the cached summary of the log. */
  datatype Row = Row(
    title: Option<string>,
    project: Option<Id>,
    parent: Option<Id>,
    forkedAt: Option<EventId>,
    phase: SessionPhase,
    revision: nat,
    lastEventId: EventId)

  /** The tables. `events[s]` are the event rows of session `s` in `event_id` order. */
  datatype Db = Db(projects: set<Id>, sessions: map<Id, Row>, events: map<Id, seq<RecordedEvent>>)

  datatype StoreState = StoreState(db: Db, cache: map<Id, Projection>)

  datatype StoreError =
    | SessionNotFound(id: Id)
    | ProjectNotFound(id: Id)
    | EventNotFound(id: Id, eventId: EventId)
    | CorruptSession(id: Id)
    | RefusedEvent(error: ProjectionError)
    | DatabaseFailure

  datatype Result<+T> = Success(value: T) | Failure(error: StoreError)

  // ---------------------------------------------------------------- logs

  function Strip(rows: seq<RecordedEvent>): seq<SemanticEvent> {
    seq(|rows|, i requires 0 <= i < |rows| => rows[i].event)
  }

  /** The rows written for a batch that follows event `last`. */
  function Recorded(sessionId: Id, last: EventId, batch: seq<SemanticEvent>): seq<RecordedEvent> {
    seq(|batch|, i requires 0 <= i < |batch| => RecordedEvent(last + 1 + i, sessionId, SCHEMA_VERSION, batch[i]))
  }

  /** Ids are 1, 2, 3, ... and every row has the current schema. */
  predicate Contiguous(rows: seq<RecordedEvent>) {
    forall i :: 0 <= i < |rows| ==> rows[i].id == i + 1 && rows[i].schemaVersion == SCHEMA_VERSION
  }

  /** Every row names the session it is recorded for. */
  predicate Owned(sessionId: Id, rows: seq<RecordedEvent>) { forall i :: 0 <= i < |rows| ==> rows[i].sessionId == sessionId }

  /** The rows `project` accepts. */
  predicate Readable(sessionId: Id, rows: seq<RecordedEvent>) {
    rows != [] && Contiguous(rows) && Accepted(sessionId, Strip(rows))
  }

  function ProjectionOf(sessionId: Id, rows: seq<RecordedEvent>): Projection {
    Fold(sessionId, Strip(rows)).value
  }

  function Summarized(row: Row, state: SessionState, last: EventId): Row {
    row.(phase := state.phase, revision := state.revision, lastEventId := last)
  }

  /** A session whose log folds and whose row says what the fold says. */
  predicate SessionOk(sessionId: Id, row: Row, rows: seq<RecordedEvent>) {
    && Readable(sessionId, rows)
    && row == Summarized(row, ProjectionOf(sessionId, rows).state, |rows|)
  }

  predicate SessionsOk(db: Db) {
    && db.sessions.Keys == db.events.Keys
    && (forall s :: s in db.sessions ==> SessionOk(s, db.sessions[s], db.events[s]))
  }

  predicate CacheOk(st: StoreState) {
    forall s :: s in st.cache ==> s in st.db.events && st.cache[s] == ProjectionOf(s, st.db.events[s])
  }

  /** Projects exist, a fork lives in its parent's project, and every event row names its session. */
  predicate ReferencesOk(db: Db) {
    && (forall s :: s in db.events ==> Owned(s, db.events[s]))
    && (forall s :: s in db.sessions && db.sessions[s].project.Some? ==> db.sessions[s].project.value in db.projects)
    && (forall s :: s in db.sessions && db.sessions[s].parent.Some? ==>
          && db.sessions[s].parent.value in db.sessions
          && db.sessions[db.sessions[s].parent.value].project == db.sessions[s].project)
  }

  predicate Coherent(st: StoreState) { SessionsOk(st.db) && CacheOk(st) && ReferencesOk(st.db) }

  lemma StripConcat(a: seq<RecordedEvent>, b: seq<RecordedEvent>)
    ensures Strip(a + b) == Strip(a) + Strip(b)
  {
  }

  lemma StripRecorded(sessionId: Id, last: EventId, batch: seq<SemanticEvent>)
    ensures Strip(Recorded(sessionId, last, batch)) == batch
  {
  }

  lemma StripTake(rows: seq<RecordedEvent>, n: nat)
    requires n <= |rows|
    ensures Strip(rows[..n]) == Strip(rows)[..n]
  {
  }

  // ---------------------------------------------------------------- appending

  /** The session after an accepted batch. */
  function Grown(sessionId: Id, rows: seq<RecordedEvent>, batch: seq<SemanticEvent>): seq<RecordedEvent> {
    rows + Recorded(sessionId, |rows|, batch)
  }

  /** A batch is taken when it replays on the current projection. */
  predicate Takes(sessionId: Id, rows: seq<RecordedEvent>, batch: seq<SemanticEvent>) {
    Replay(ProjectionOf(sessionId, rows), |rows| + 1, batch).Ok()
  }

  /** A batch is taken exactly when the longer log is one that folds. */
  lemma TakesGrown(sessionId: Id, rows: seq<RecordedEvent>, batch: seq<SemanticEvent>)
    requires Readable(sessionId, rows)
    ensures Takes(sessionId, rows, batch) <==> Readable(sessionId, Grown(sessionId, rows, batch))
    ensures Takes(sessionId, rows, batch) ==>
              ProjectionOf(sessionId, Grown(sessionId, rows, batch)) == Replay(ProjectionOf(sessionId, rows), |rows| + 1, batch).value
  {
    StripConcat(rows, Recorded(sessionId, |rows|, batch));
    StripRecorded(sessionId, |rows|, batch);
    ReplayAppend(New(sessionId), 1, Strip(rows), batch);
  }

  function WithSession(db: Db, s: Id, row: Row, rows: seq<RecordedEvent>): Db {
    db.(sessions := db.sessions[s := row], events := db.events[s := rows])
  }

  /** The tables after a batch is committed. */
  function Committed(db: Db, s: Id, batch: seq<SemanticEvent>): Db
    requires s in db.sessions && s in db.events
  {
    var rows := Grown(s, db.events[s], batch);
    WithSession(db, s, Summarized(db.sessions[s], ProjectionOf(s, rows).state, |rows|), rows)
  }

  predicate CanAppend(st: StoreState, s: Id, batch: seq<SemanticEvent>) {
    s in st.db.sessions && s in st.db.events && Takes(s, st.db.events[s], batch)
  }

  function Append(st: StoreState, s: Id, batch: seq<SemanticEvent>): StoreState {
    if batch == [] || !CanAppend(st, s, batch) then st
    else
      var db := Committed(st.db, s, batch);
      StoreState(db, st.cache[s := ProjectionOf(s, db.events[s])])
  }

  lemma CommittedOk(db: Db, s: Id, batch: seq<SemanticEvent>)
    requires s in db.sessions && s in db.events && SessionOk(s, db.sessions[s], db.events[s])
    requires Takes(s, db.events[s], batch)
    ensures SessionOk(s, Committed(db, s, batch).sessions[s], Committed(db, s, batch).events[s])
  {
    TakesGrown(s, db.events[s], batch);
  }

  lemma WithSessionOk(db: Db, s: Id, row: Row, rows: seq<RecordedEvent>)
    requires SessionsOk(db) && SessionOk(s, row, rows)
    ensures SessionsOk(WithSession(db, s, row, rows))
  {
  }

  lemma GrownOwned(s: Id, rows: seq<RecordedEvent>, batch: seq<SemanticEvent>)
    requires Owned(s, rows)
    ensures Owned(s, Grown(s, rows, batch))
  {
  }

  lemma SummarizedReferences(db: Db, s: Id, state: SessionState, last: EventId, rows: seq<RecordedEvent>)
    requires ReferencesOk(db) && s in db.sessions && Owned(s, rows)
    ensures ReferencesOk(WithSession(db, s, Summarized(db.sessions[s], state, last), rows))
  {
  }

  lemma CommittedCoherent(db: Db, s: Id, batch: seq<SemanticEvent>)
    requires SessionsOk(db) && ReferencesOk(db)
    requires s in db.sessions && Takes(s, db.events[s], batch)
    ensures SessionsOk(Committed(db, s, batch)) && ReferencesOk(Committed(db, s, batch))
  {
    CommittedOk(db, s, batch);
    var rows := Grown(s, db.events[s], batch);
    WithSessionOk(db, s, Summarized(db.sessions[s], ProjectionOf(s, rows).state, |rows|), rows);
    GrownOwned(s, db.events[s], batch);
    SummarizedReferences(db, s, ProjectionOf(s, rows).state, |rows|, rows);
  }

  lemma AppendCoherent(st: StoreState, s: Id, batch: seq<SemanticEvent>)
    requires Coherent(st)
    ensures Coherent(Append(st, s, batch))
  {
    if batch != [] && CanAppend(st, s, batch) {
      CommittedCoherent(st.db, s, batch);
    }
  }

  lemma GrownTwice(s: Id, rows: seq<RecordedEvent>, a: seq<SemanticEvent>, b: seq<SemanticEvent>)
    ensures Grown(s, Grown(s, rows, a), b) == Grown(s, rows, a + b)
  {
  }

  lemma TakesTwice(s: Id, rows: seq<RecordedEvent>, a: seq<SemanticEvent>, b: seq<SemanticEvent>)
    requires Readable(s, rows) && Takes(s, rows, a) && Takes(s, Grown(s, rows, a), b)
    ensures Takes(s, rows, a + b)
  {
    TakesGrown(s, rows, a);
    ReplayAppend(ProjectionOf(s, rows), |rows| + 1, a, b);
  }

  lemma CommittedTwice(db: Db, s: Id, a: seq<SemanticEvent>, b: seq<SemanticEvent>)
    requires s in db.sessions && s in db.events
    ensures Committed(Committed(db, s, a), s, b) == Committed(db, s, a + b)
  {
    hide ProjectionOf, Grown;
    GrownTwice(s, db.events[s], a, b);
    var left, right := Committed(Committed(db, s, a), s, b), Committed(db, s, a + b);
    assert left.sessions[s] == right.sessions[s];
  }

  /** Appending two batches one after the other is appending them at once. */
  lemma AppendTwice(st: StoreState, s: Id, a: seq<SemanticEvent>, b: seq<SemanticEvent>)
    requires SessionsOk(st.db) && a != [] && b != []
    requires CanAppend(st, s, a) && CanAppend(Append(st, s, a), s, b)
    ensures CanAppend(st, s, a + b)
    ensures Append(Append(st, s, a), s, b) == Append(st, s, a + b)
  {
    hide ProjectionOf, Readable, Takes, Grown;
    assert SessionOk(s, st.db.sessions[s], st.db.events[s]);
    TakesTwice(s, st.db.events[s], a, b);
    CommittedTwice(st.db, s, a, b);
  }

  /** A commit whose caller is dropped before it refreshes the cache. */
  function AppendUncached(st: StoreState, s: Id, batch: seq<SemanticEvent>): StoreState {
    if batch == [] || !CanAppend(st, s, batch) then st else st.(db := Committed(st.db, s, batch))
  }

  /** The projection moves with every batch, because its last id does. */
  lemma ProjectionMoves(s: Id, rows: seq<RecordedEvent>, batch: seq<SemanticEvent>)
    requires Readable(s, rows) && Takes(s, rows, batch) && batch != []
    ensures ProjectionOf(s, Grown(s, rows, batch)) != ProjectionOf(s, rows)
  {
    TakesGrown(s, rows, batch);
    FoldSound(s, Strip(rows));
    FoldSound(s, Strip(Grown(s, rows, batch)));
  }

  /** Such a commit leaves the store coherent exactly when the session was not cached. */
  lemma AbandonedCommit(st: StoreState, s: Id, batch: seq<SemanticEvent>)
    requires Coherent(st) && batch != [] && CanAppend(st, s, batch)
    ensures Coherent(AppendUncached(st, s, batch)) <==> s !in st.cache
  {
    hide ProjectionOf, Readable, Takes;
    CommittedCoherent(st.db, s, batch);
    assert SessionOk(s, st.db.sessions[s], st.db.events[s]);
    ProjectionMoves(s, st.db.events[s], batch);
    var after := AppendUncached(st, s, batch);
    if s in st.cache {
      assert after.cache[s] != ProjectionOf(s, after.db.events[s]);
    }
  }

  // ---------------------------------------------------------------- creating and deleting

  function NewRow(title: Option<string>, project: Option<Id>): Row {
    Row(title, project, None, None, Created, 0, 1)
  }

  function CreationLog(id: Id, title: Option<string>): seq<RecordedEvent> {
    [RecordedEvent(1, id, SCHEMA_VERSION, SessionEv(SessionCreated(title)))]
  }

  lemma CreationOk(id: Id, title: Option<string>, project: Option<Id>)
    ensures SessionOk(id, NewRow(title, project), CreationLog(id, title)) && Owned(id, CreationLog(id, title))
  {
    assert Strip(CreationLog(id, title)) == [SessionEv(SessionCreated(title))];
    ReplayOne(New(id), 1, SessionEv(SessionCreated(title)));
  }

  function CreateSession(st: StoreState, id: Id, title: Option<string>, project: Option<Id>): StoreState {
    if project.Some? && project.value !in st.db.projects then st
    else
      st.(db := WithSession(st.db, id, NewRow(title, project), CreationLog(id, title)))
  }

  lemma CreateSessionCoherent(st: StoreState, id: Id, title: Option<string>, project: Option<Id>)
    requires Coherent(st) && id !in st.db.sessions
    ensures Coherent(CreateSession(st, id, title, project))
  {
    CreationOk(id, title, project);
    hide SessionOk, Coherent;
    if project.None? || project.value in st.db.projects {
      AddSessionCoherent(st, id, NewRow(title, project), CreationLog(id, title));
    }
  }

  /** A new session whose log folds, in a project that exists and in the project of its parent, keeps the store
      coherent. */
  lemma AddSessionCoherent(st: StoreState, id: Id, row: Row, rows: seq<RecordedEvent>)
    requires Coherent(st) && id !in st.db.sessions && SessionOk(id, row, rows) && Owned(id, rows)
    requires row.project.Some? ==> row.project.value in st.db.projects
    requires row.parent.Some? ==> row.parent.value in st.db.sessions && st.db.sessions[row.parent.value].project == row.project
    ensures Coherent(st.(db := WithSession(st.db, id, row, rows)))
  {
    hide SessionOk, ProjectionOf;
    WithSessionOk(st.db, id, row, rows);
    AddReferences(st.db, id, row, rows);
    AddCache(st, id, row, rows);
  }

  lemma AddReferences(db: Db, id: Id, row: Row, rows: seq<RecordedEvent>)
    requires ReferencesOk(db) && id !in db.sessions && Owned(id, rows)
    requires row.project.Some? ==> row.project.value in db.projects
    requires row.parent.Some? ==> row.parent.value in db.sessions && db.sessions[row.parent.value].project == row.project
    ensures ReferencesOk(WithSession(db, id, row, rows))
  {
  }

  lemma AddCache(st: StoreState, id: Id, row: Row, rows: seq<RecordedEvent>)
    requires CacheOk(st) && id !in st.db.events
    ensures CacheOk(st.(db := WithSession(st.db, id, row, rows)))
  {
    hide ProjectionOf;
  }

  function SessionsOf(db: Db, project: Id): set<Id> {
    set s | s in db.sessions && db.sessions[s].project == Some(project)
  }

  /** Deleting a project deletes its sessions and their events, and evicts their projections. */
  function DeleteProject(st: StoreState, project: Id): StoreState {
    if project !in st.db.projects then st
    else
      var gone := SessionsOf(st.db, project);
      StoreState(Db(st.db.projects - {project}, st.db.sessions - gone, st.db.events - gone), st.cache - gone)
  }

  /** No surviving fork loses its parent: the whole family is in the project. */
  lemma DeleteProjectCoherent(st: StoreState, project: Id)
    requires Coherent(st)
    ensures Coherent(DeleteProject(st, project))
    ensures project in st.db.projects ==>
              forall s :: s in DeleteProject(st, project).cache ==> s in DeleteProject(st, project).db.sessions
  {
    hide SessionOk, Owned, ProjectionOf;
    if project in st.db.projects {
      var after := DeleteProject(st, project);
      forall s | s in after.db.sessions && after.db.sessions[s].parent.Some?
        ensures after.db.sessions[s].parent.value in after.db.sessions
      {
        assert st.db.sessions[st.db.sessions[s].parent.value].project == st.db.sessions[s].project;
      }
    }
  }

  /** A cache miss reads the log and remembers its projection. */
  function ReadProjection(st: StoreState, s: Id): StoreState {
    if s in st.cache || s !in st.db.sessions || s !in st.db.events then st
    else st.(cache := st.cache[s := ProjectionOf(s, st.db.events[s])])
  }

  lemma ReadProjectionCoherent(st: StoreState, s: Id)
    requires Coherent(st)
    ensures Coherent(ReadProjection(st, s))
  {
  }

  // ---------------------------------------------------------------- forking

  /** The events that open a branch: the fork marker, the interruption of the run that was active, a pause. */
  function ForkEvents(parent: Id, at: EventId, p: Projection): seq<SemanticEvent> {
    [SessionEv(SessionForked(parent, at))]
    + (if ActiveRun(p.queue).Some? then [RunEv(RunInterrupted(ActiveRun(p.queue).value, "forked_branch"))] else [])
    + [QueuePaused]
  }

  /** Event rows copied under another session id. */
  function Copied(rows: seq<RecordedEvent>, id: Id): seq<RecordedEvent> {
    seq(|rows|, i requires 0 <= i < |rows| => rows[i].(sessionId := id))
  }

  function BranchRows(st: StoreState, parent: Id, at: EventId, id: Id): seq<RecordedEvent>
    requires parent in st.db.events && at <= |st.db.events[parent]|
  {
    var prefix := st.db.events[parent][..at];
    Copied(prefix, id) + Recorded(id, at, ForkEvents(parent, at, ProjectionOf(parent, prefix)))
  }

  predicate CanFork(st: StoreState, parent: Id, at: EventId) {
    parent in st.db.sessions && parent in st.db.events && 1 <= at <= |st.db.events[parent]|
  }

  function ForkSession(st: StoreState, parent: Id, at: EventId, id: Id, title: Option<string>): StoreState {
    if !CanFork(st, parent, at) then st
    else
      var rows := BranchRows(st, parent, at, id);
      var row := Row(title, st.db.sessions[parent].project, Some(parent), Some(at), Created, 0, 0);
      st.(db := WithSession(st.db, id, Summarized(row, ProjectionOf(id, rows).state, |rows|), rows))
  }

  function Renamed(p: Projection, id: Id): Projection { p.(state := p.state.(sessionId := id)) }

  lemma StepRenamed(p: Projection, id: Id, n: EventId, e: SemanticEvent)
    ensures Step(Renamed(p, id), n, e) == Outcome(Renamed(Step(p, n, e).value, id), Step(p, n, e).error)
  {
  }

  /** The session id is carried along and never looked at. */
  lemma {:induction false} FoldRenamed(a: Id, b: Id, log: seq<SemanticEvent>)
    ensures Fold(b, log) == Outcome(Renamed(Fold(a, log).value, b), Fold(a, log).error)
  {
    if log != [] {
      var n := |log| - 1;
      FoldRenamed(a, b, log[..n]);
      StepRenamed(Fold(a, log[..n]).value, b, 1 + n, log[n]);
    }
  }

  /** The projection of a branch right after its fork events. */
  function Branched(p: Projection, at: EventId): Projection {
    var interrupted :=
      if ActiveRun(p.queue).Some? then
        var r := ActiveRun(p.queue).value;
        p.queue.runs[r := p.queue.runs[r].(status := RunInterruptedStatus, error := Some("forked_branch"))]
      else p.queue.runs;
    p.(state := SessionState(p.state.sessionId, Interrupted, p.state.revision + 1, Some(at + (if ActiveRun(p.queue).Some? then 3 else 2))),
       queue := Queue(interrupted, true))
  }

  /** The fork events are accepted on every projection. */
  lemma ForkEventsReplay(parent: Id, at: EventId, p: Projection)
    ensures Replay(p, at + 1, ForkEvents(parent, at, p)) == Outcome(Branched(p, at), None)
  {
    var e1 := SessionEv(SessionForked(parent, at));
    var p1 := Step(p, at + 1, e1).value;
    ReplayOne(p, at + 1, e1);
    if ActiveRun(p.queue).Some? {
      var e2 := RunEv(RunInterrupted(ActiveRun(p.queue).value, "forked_branch"));
      var p2 := Step(p1, at + 2, e2).value;
      ReplayAppend(p, at + 1, [e1], [e2]);
      ReplayOne(p1, at + 2, e2);
      ReplayAppend(p, at + 1, [e1] + [e2], [QueuePaused]);
      ReplayOne(p2, at + 3, QueuePaused);
      assert ForkEvents(parent, at, p) == [e1] + [e2] + [QueuePaused];
    } else {
      ReplayAppend(p, at + 1, [e1], [QueuePaused]);
      ReplayOne(p1, at + 2, QueuePaused);
      assert ForkEvents(parent, at, p) == [e1] + [QueuePaused];
    }
  }

  /** What a fork is: the parent's prefix, then the fork events, folding without error to the parent's
      projection at the fork point, interrupted, paused and renamed. */
  lemma ForkMeaning(st: StoreState, parent: Id, at: EventId, id: Id)
    requires SessionsOk(st.db) && CanFork(st, parent, at)
    ensures Readable(id, BranchRows(st, parent, at, id)) && Owned(id, BranchRows(st, parent, at, id))
    ensures Strip(BranchRows(st, parent, at, id))[..at] == Strip(st.db.events[parent])[..at]
    ensures |BranchRows(st, parent, at, id)| > at && BranchRows(st, parent, at, id)[at].event == SessionEv(SessionForked(parent, at))
    ensures ProjectionOf(id, BranchRows(st, parent, at, id)) == Renamed(Branched(ProjectionOf(parent, st.db.events[parent][..at]), at), id)
  {
    assert SessionOk(parent, st.db.sessions[parent], st.db.events[parent]);
    BranchMeaning(parent, st.db.events[parent], at, id);
  }

  lemma BranchMeaning(parent: Id, rows: seq<RecordedEvent>, at: EventId, id: Id)
    requires Readable(parent, rows) && 1 <= at <= |rows|
    ensures var p := ProjectionOf(parent, rows[..at]);
            var branch := Copied(rows[..at], id) + Recorded(id, at, ForkEvents(parent, at, p));
            && Readable(id, branch) && Owned(id, branch)
            && Strip(branch)[..at] == Strip(rows)[..at]
            && |branch| > at && branch[at].event == SessionEv(SessionForked(parent, at))
            && ProjectionOf(id, branch) == Renamed(Branched(p, at), id)
  {
    var p := ProjectionOf(parent, rows[..at]);
    var copy, extra := Copied(rows[..at], id), Recorded(id, at, ForkEvents(parent, at, p));
    StripTake(rows, at);
    assert Strip(copy) == Strip(rows)[..at];
    StripConcat(copy, extra);
    StripRecorded(id, at, ForkEvents(parent, at, p));
    BranchFolds(parent, Strip(rows), at, id);
  }

  lemma BranchFolds(parent: Id, log: seq<SemanticEvent>, at: EventId, id: Id)
    requires Accepted(parent, log) && 1 <= at <= |log|
    ensures var p := Fold(parent, log[..at]).value;
            Fold(id, log[..at] + ForkEvents(parent, at, p)) == Outcome(Renamed(Branched(p, at), id), None)
  {
    var p := Fold(parent, log[..at]).value;
    PrefixAccepted(parent, log, at);
    ForkEventsReplay(parent, at, p);
    ReplayAppend(New(parent), 1, log[..at], ForkEvents(parent, at, p));
    FoldRenamed(parent, id, log[..at] + ForkEvents(parent, at, p));
  }

  /** A branch has no active run exactly when its prefix had at most one. */
  lemma BranchActivity(p: Projection, at: EventId)
    ensures ActiveRun(Branched(p, at).queue).None? <==> |RunsWith(p.queue.runs, RunRunning)| <= 1
  {
    var before, after := RunsWith(p.queue.runs, RunRunning), RunsWith(Branched(p, at).queue.runs, RunRunning);
    if ActiveRun(p.queue).Some? {
      var r := ActiveRun(p.queue).value;
      assert after == before - {r};
      assert |after| == |before| - 1;
    } else {
      assert after == before == {};
    }
  }

  lemma ForkCoherent(st: StoreState, parent: Id, at: EventId, id: Id, title: Option<string>)
    requires Coherent(st) && id !in st.db.sessions
    ensures Coherent(ForkSession(st, parent, at, id, title))
  {
    hide ProjectionOf, Readable, BranchRows;
    if CanFork(st, parent, at) {
      ForkMeaning(st, parent, at, id);
      ParentProject(st, parent);
      hide Coherent, CanFork;
      var rows := BranchRows(st, parent, at, id);
      var row := Row(title, st.db.sessions[parent].project, Some(parent), Some(at), Created, 0, 0);
      AddSessionCoherent(st, id, Summarized(row, ProjectionOf(id, rows).state, |rows|), rows);
    }
  }

  lemma ParentProject(st: StoreState, parent: Id)
    requires Coherent(st) && parent in st.db.sessions
    ensures st.db.sessions[parent].project.Some? ==> st.db.sessions[parent].project.value in st.db.projects
  {
    hide SessionOk;
  }
}
