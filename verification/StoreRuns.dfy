/** Every run of the store: appends whose caller goes away and restarts that are cut off included, no log that survives
    is ever rewritten, and the store says what its logs say exactly until a commit misses a cached projection. */
module StoreRuns {
  import opened Prelude
  import opened Events
  import opened Session
  import opened StoreSpec
  import opened StaleCache
  import opened Recovery
  import opened History

  datatype Op =
    | AddProject(project: Id)
    | CreateOp(id: Id, title: Option<string>, owner: Option<Id>)
    | AppendOp(session: Id, batch: seq<SemanticEvent>)
    | DroppedOp(session: Id, batch: seq<SemanticEvent>)
    | ReadOp(session: Id)
    | ForkOp(parent: Id, at: EventId, id: Id, title: Option<string>)
    | RestartOp(done: set<Id>, half: Option<Id>)
    | DeleteOp(project: Id)
    | DroppedDeleteOp(project: Id)

  /** New sessions get new identifiers. */
  predicate Allowed(st: StoreState, op: Op) {
    op.CreateOp? || op.ForkOp? ==> op.id !in st.db.sessions
  }

  const EMPTY := StoreState(Db({}, map[], map[]), map[])

  /** The database is opened again: nothing is cached, every row is checked against its log, and recovery gets through
      the sessions in `done` and the first append of `half`. A database that fails the check is not opened; its tables
      are as they were. */
  function Restarted(db: Db, done: set<Id>, half: Option<Id>): StoreState {
    var cold := StoreState(db, map[]);
    var recovered := done * RunningSessions(db);
    if !SessionsOk(db) then cold
    else RecoverUntil(cold, recovered, if half.Some? && half.value in RunningSessions(db) - recovered then half else None)
  }

  function Do(st: StoreState, op: Op): StoreState {
    match op
    case AddProject(project) => st.(db := st.db.(projects := st.db.projects + {project}))
    case CreateOp(id, title, owner) => CreateSession(st, id, title, owner)
    case AppendOp(s, batch) => Write(st, s, batch, false)
    case DroppedOp(s, batch) => Write(st, s, batch, true)
    case ReadOp(s) => Remember(st, s)
    case ForkOp(parent, at, id, title) => Branch(st, parent, at, id, title)
    case RestartOp(done, half) => Restarted(st.db, done, half)
    case DeleteOp(project) => Remove(st, project, false)
    case DroppedDeleteOp(project) => Remove(st, project, true)
  }

  /** A commit whose caller is dropped before it refreshes a projection that is cached, or a deletion whose caller is
      dropped before it evicts one. */
  predicate Missed(st: StoreState, op: Op) {
    || (op.DroppedOp? && op.batch != [] && op.session in st.cache && CanWrite(st, op.session, op.batch))
    || (op.DroppedDeleteOp? && op.project in st.db.projects && CachedIn(st, op.project))
  }

  // ---------------------------------------------------------------- what always holds

  /** Logs are numbered 1, 2, 3, ..., rows count them, and projects and parents exist. */
  predicate Sound(st: StoreState) { Numbered(st) && ReferencesOk(st.db) }

  lemma WriteReferences(st: StoreState, s: Id, batch: seq<SemanticEvent>, dropped: bool)
    requires Sound(st)
    ensures Sound(Write(st, s, batch, dropped))
  {
    hide BaseOf, Grown, Numbered, Replay;
    WriteNumbered(st, s, batch, dropped);
    if batch != [] && CanWrite(st, s, batch) {
      var after := Replay(BaseOf(st, s).value, |st.db.events[s]| + 1, batch).value;
      var rows := Grown(s, st.db.events[s], batch);
      GrownOwned(s, st.db.events[s], batch);
      SummarizedReferences(st.db, s, after.state, |rows|, rows);
      hide ReferencesOk;
    }
  }

  lemma CreateReferences(st: StoreState, id: Id, title: Option<string>, project: Option<Id>)
    requires Sound(st) && id !in st.db.sessions
    ensures Sound(CreateSession(st, id, title, project))
  {
    CreateNumbered(st, id, title, project);
    hide Numbered;
    if project.None? || project.value in st.db.projects {
      AddReferences(st.db, id, NewRow(title, project), CreationLog(id, title));
    }
  }

  lemma DeleteReferences(st: StoreState, project: Id, dropped: bool)
    requires Sound(st)
    ensures Sound(Remove(st, project, dropped))
  {
    RemoveNumbered(st, project, dropped);
    hide Numbered;
    var after := Remove(st, project, dropped);
    forall s | s in after.db.sessions && after.db.sessions[s].parent.Some?
      ensures after.db.sessions[s].parent.value in after.db.sessions
    {
      assert st.db.sessions[st.db.sessions[s].parent.value].project == st.db.sessions[s].project;
    }
  }

  lemma BranchReferences(st: StoreState, parent: Id, at: EventId, id: Id, title: Option<string>)
    requires Sound(st) && id !in st.db.sessions
    ensures Sound(Branch(st, parent, at, id, title))
  {
    BranchNumbered(st, parent, at, id, title);
    hide Numbered, BranchRows, ProjectionOf, Readable;
    if CanBranch(st, parent, at) {
      var rows := BranchRows(st, parent, at, id);
      var row := Row(title, st.db.sessions[parent].project, Some(parent), Some(at), Created, 0, 0);
      AddReferences(st.db, id, Summarized(row, ProjectionOf(id, rows).state, |rows|), rows);
    }
  }

  /** A database that passes the check comes up coherent, wherever its recovery is cut off. */
  lemma RestartCoherent(db: Db, done: set<Id>, half: Option<Id>)
    requires SessionsOk(db) && ReferencesOk(db)
    ensures Coherent(Restarted(db, done, half))
  {
    hide SessionsOk, ReferencesOk, RecoverAll, Append;
    var cold := StoreState(db, map[]);
    NothingCached(db);
    var recovered := done * RunningSessions(db);
    KeysOf(cold);
    RecoverAllCoherent(cold, recovered);
    if half.Some? && half.value in RunningSessions(db) - recovered {
      HalfRecovered(cold, recovered, half.value);
    }
  }

  lemma NothingCached(db: Db)
    requires SessionsOk(db) && ReferencesOk(db)
    ensures Coherent(StoreState(db, map[]))
  {
    hide SessionsOk, ReferencesOk;
  }

  lemma RestartSound(db: Db, done: set<Id>, half: Option<Id>)
    requires TablesNumbered(db) && ReferencesOk(db)
    ensures Sound(Restarted(db, done, half))
  {
    hide ReferencesOk, RecoverUntil, TablesNumbered, SessionsOk;
    if SessionsOk(db) {
      RestartCoherent(db, done, half);
      CoherentIsNumbered(Restarted(db, done, half));
    } else {
      assert Restarted(db, done, half) == StoreState(db, map[]);
    }
  }

  lemma DoSound(st: StoreState, op: Op)
    requires Sound(st) && Allowed(st, op)
    ensures Sound(Do(st, op))
  {
    match op {
      case AddProject(project) =>
      case CreateOp(id, title, owner) => CreateReferences(st, id, title, owner);
      case AppendOp(s, batch) => WriteReferences(st, s, batch, false);
      case DroppedOp(s, batch) => WriteReferences(st, s, batch, true);
      case ReadOp(s) => RememberNumbered(st, s);
      case ForkOp(parent, at, id, title) => BranchReferences(st, parent, at, id, title);
      case RestartOp(done, half) => RestartSound(st.db, done, half);
      case DeleteOp(project) => DeleteReferences(st, project, false);
      case DroppedDeleteOp(project) => DeleteReferences(st, project, true);
    }
  }

  // ---------------------------------------------------------------- coherence, exactly

  lemma AddProjectCoherent(st: StoreState, project: Id)
    requires Coherent(st)
    ensures Coherent(st.(db := st.db.(projects := st.db.projects + {project})))
  {
    hide Readable, ProjectionOf;
  }

  lemma WriteCoherent(st: StoreState, s: Id, batch: seq<SemanticEvent>, dropped: bool)
    requires Coherent(st)
    ensures Coherent(Write(st, s, batch, dropped)) <==>
            !(dropped && batch != [] && s in st.cache && CanWrite(st, s, batch))
  {
    hide Coherent, BaseOf, Takes;
    WriteIsAppend(st, s, batch);
    AppendCoherent(st, s, batch);
    if batch != [] && CanAppend(st, s, batch) {
      AbandonedCommit(st, s, batch);
    } else {
      assert AppendUncached(st, s, batch) == st;
    }
  }

  lemma KnownParts(st: StoreState)
    requires Coherent(st)
    ensures SessionsOk(st.db) && ReferencesOk(st.db)
  {
  }

  /** One operation on a coherent store: it stays coherent exactly when no commit and no deletion misses a
      cached projection. */
  lemma DoCoherent(st: StoreState, op: Op)
    requires Coherent(st) && Allowed(st, op)
    ensures Coherent(Do(st, op)) <==> !Missed(st, op)
  {
    hide Coherent, SessionsOk, ReferencesOk, CanWrite, CreateSession, Write, Remember, Branch, Restarted, Remove, CachedIn;
    match op {
      case AddProject(project) => AddProjectCoherent(st, project);
      case CreateOp(id, title, owner) => CreateSessionCoherent(st, id, title, owner);
      case AppendOp(s, batch) => WriteCoherent(st, s, batch, false);
      case DroppedOp(s, batch) => WriteCoherent(st, s, batch, true);
      case ReadOp(s) =>
        RememberIsRead(st, s);
        ReadProjectionCoherent(st, s);
      case ForkOp(parent, at, id, title) =>
        BranchIsFork(st, parent, at, id, title);
        ForkCoherent(st, parent, at, id, title);
      case RestartOp(done, half) =>
        KnownParts(st);
        RestartCoherent(st.db, done, half);
      case DeleteOp(project) => RemoveCoherent(st, project, false);
      case DroppedDeleteOp(project) => RemoveCoherent(st, project, true);
    }
  }

  /** A restart from whatever the store had come to: it is coherent again exactly when every row still says what its log
      says. */
  lemma RestartHeals(st: StoreState, done: set<Id>, half: Option<Id>)
    requires Sound(st)
    ensures Coherent(Do(st, RestartOp(done, half))) <==> SessionsOk(st.db)
  {
    hide SessionsOk, ReferencesOk, RecoverUntil, Numbered;
    if SessionsOk(st.db) {
      RestartCoherent(st.db, done, half);
    } else {
      assert Do(st, RestartOp(done, half)) == StoreState(st.db, map[]);
    }
  }

  /** A missed commit or deletion alone is healed by a restart: only the cache is wrong after it. */
  lemma MissedIsHealed(st: StoreState, op: Op, done: set<Id>, half: Option<Id>)
    requires Coherent(st) && Missed(st, op)
    ensures !Coherent(Do(st, op)) && Coherent(Do(Do(st, op), RestartOp(done, half)))
  {
    hide SessionsOk, CacheOk, ReferencesOk, Restarted, CanWrite, Write, Committed, Takes, DeleteProject, CachedIn;
    DoCoherent(st, op);
    if op.DroppedOp? {
      WriteIsAppend(st, op.session, op.batch);
      CommittedCoherent(st.db, op.session, op.batch);
      assert Do(st, op).db == Committed(st.db, op.session, op.batch);
    } else {
      DeleteProjectCoherent(st, op.project);
      assert Do(st, op).db == DeleteProject(st, op.project).db;
    }
    RestartCoherent(Do(st, op).db, done, half);
  }

  // ---------------------------------------------------------------- logs grow

  /** The log a session keeps. */
  predicate LogGrows(was: map<Id, seq<RecordedEvent>>, now: map<Id, seq<RecordedEvent>>) {
    forall s :: s in was && s in now ==> was[s] <= now[s]
  }

  lemma RestartGrows(db: Db, done: set<Id>, half: Option<Id>)
    ensures LogGrows(db.events, Restarted(db, done, half).db.events)
    ensures Restarted(db, done, half).db.events.Keys == db.events.Keys
  {
    hide Readable, ProjectionOf, SessionOk, Takes, RecoveredRow;
    if SessionsOk(db) {
      var recovered := done * RunningSessions(db);
      var all := RecoverAll(StoreState(db, map[]), recovered);
      forall s | s in db.events ensures s in all.db.events && db.events[s] <= all.db.events[s] {
        GrownMore(s, db.events[s], RecoveryBatch(ProjectionOf(s, db.events[s]).queue));
      }
      if half.Some? && half.value in RunningSessions(db) - recovered {
        GrownMore(half.value, all.db.events[half.value], [SessionEv(SessionInterrupted("server_restart"))]);
      }
    }
  }

  lemma GrownMore(s: Id, rows: seq<RecordedEvent>, batch: seq<SemanticEvent>)
    ensures rows <= Grown(s, rows, batch)
  {
  }

  /** Every operation extends the logs that survive it, whatever state the store is in. */
  lemma DoGrows(st: StoreState, op: Op)
    requires Allowed(st, op) && st.db.sessions.Keys == st.db.events.Keys
    ensures LogGrows(st.db.events, Do(st, op).db.events)
    ensures !op.DeleteOp? && !op.DroppedDeleteOp? ==> st.db.events.Keys <= Do(st, op).db.events.Keys
    ensures Do(st, op).db.events.Keys <= st.db.events.Keys + (if op.CreateOp? || op.ForkOp? then {op.id} else {})
  {
    if op.RestartOp? {
      RestartGrows(st.db, op.done, op.half);
      hide *;
      hide Restarted;
    } else {
      hide Readable, ProjectionOf, SessionOk, Takes, BranchRows, Restarted;
    }
  }

  // ---------------------------------------------------------------- runs

  /** The states a run goes through. */
  predicate Run(states: seq<StoreState>, ops: seq<Op>) {
    && |states| == |ops| + 1
    && states[0] == EMPTY
    && forall i :: 0 <= i < |ops| ==> Allowed(states[i], ops[i]) && states[i + 1] == Do(states[i], ops[i])
  }

  lemma RunStep(states: seq<StoreState>, ops: seq<Op>, i: nat)
    requires Run(states, ops) && i < |ops|
    ensures Allowed(states[i], ops[i]) && states[i + 1] == Do(states[i], ops[i])
  {
    hide Do, Allowed;
  }

  lemma EmptyCoherent()
    ensures Coherent(EMPTY)
  {
  }

  lemma {:induction false} RunSound(states: seq<StoreState>, ops: seq<Op>, i: nat)
    requires Run(states, ops) && i <= |ops|
    ensures Sound(states[i])
    decreases i
  {
    if i > 0 {
      RunSound(states, ops, i - 1);
      RunStep(states, ops, i - 1);
      hide Sound, Do, Run;
      DoSound(states[i - 1], ops[i - 1]);
    }
  }

  /** At `k` the run starts, or the database was opened and passed the check. */
  predicate Opened(states: seq<StoreState>, ops: seq<Op>, k: nat)
    requires |states| == |ops| + 1 && k <= |ops|
  {
    k == 0 || (ops[k - 1].RestartOp? && SessionsOk(states[k - 1].db))
  }

  /** Nothing missed a cached projection between `k` and `j`. */
  predicate NoneMissed(states: seq<StoreState>, ops: seq<Op>, k: nat, j: nat)
    requires |states| == |ops| + 1 && j <= |ops|
  {
    forall i :: k <= i < j ==> !Missed(states[i], ops[i])
  }

  lemma {:induction false} RunCoherent(states: seq<StoreState>, ops: seq<Op>, k: nat, j: nat)
    requires Run(states, ops) && k <= j <= |ops| && Opened(states, ops, k) && NoneMissed(states, ops, k, j)
    ensures Coherent(states[j])
    decreases j
  {
    hide Coherent, Do, SessionsOk, Missed, Allowed;
    if j == k {
      OpenedCoherent(states, ops, k);
    } else {
      RunCoherent(states, ops, k, j - 1);
      RunStep(states, ops, j - 1);
      hide Opened, Run;
      DoCoherent(states[j - 1], ops[j - 1]);
    }
  }

  lemma OpenedCoherent(states: seq<StoreState>, ops: seq<Op>, k: nat)
    requires Run(states, ops) && k <= |ops| && Opened(states, ops, k)
    ensures Coherent(states[k])
  {
    hide Coherent, SessionsOk, Restarted, Sound, Allowed;
    if k == 0 {
      EmptyCoherent();
    } else {
      RunSound(states, ops, k - 1);
      RunStep(states, ops, k - 1);
      hide Run;
      RestartHeals(states[k - 1], ops[k - 1].done, ops[k - 1].half);
    }
  }

  /** A session identifier, once deleted, may be used again, so logs are compared while the session is there. */
  predicate StaysAround(states: seq<StoreState>, s: Id, i: nat, j: nat)
    requires j < |states|
  {
    forall k :: i <= k <= j ==> s in states[k].db.events
  }

  lemma {:induction false} RunGrows(states: seq<StoreState>, ops: seq<Op>, s: Id, i: nat, j: nat)
    requires Run(states, ops) && i <= j <= |ops| && StaysAround(states, s, i, j)
    ensures states[i].db.events[s] <= states[j].db.events[s]
    decreases j
  {
    hide Do, Sound, Allowed, EMPTY;
    if i < j {
      RunStep(states, ops, j - 1);
      RunSound(states, ops, j - 1);
      RunGrows(states, ops, s, i, j - 1);
      hide Run;
      OneStepGrows(states[j - 1], ops[j - 1], s);
      PrefixTransitive(states[i].db.events[s], states[j - 1].db.events[s], states[j].db.events[s]);
    }
  }

  lemma OneStepGrows(st: StoreState, op: Op, s: Id)
    requires Sound(st) && Allowed(st, op) && s in st.db.events && s in Do(st, op).db.events
    ensures st.db.events[s] <= Do(st, op).db.events[s]
  {
    hide Do, Allowed, Contiguous;
    DoGrows(st, op);
  }

  lemma PrefixTransitive<T>(a: seq<T>, b: seq<T>, c: seq<T>)
    requires a <= b <= c
    ensures a <= c
  {
  }

  /** A log that folds, and any nonempty part of it from the start: the shorter one folds, to less. */
  lemma GrownFolds(s: Id, a: seq<RecordedEvent>, b: seq<RecordedEvent>)
    requires Readable(s, b) && a != [] && a <= b
    ensures Readable(s, a) && Below(ProjectionOf(s, a), ProjectionOf(s, b))
  {
    StripTake(b, |a|);
    assert b[..|a|] == a;
    ReadablePrefix(s, b, |a|);
    HistoryNeverRewritten(s, Strip(b), |a|);
  }

  /** Main result, after any sequence of operations: ids are 1..n; as long as a session stays around its log only grows,
      and if the later log folds so did the earlier one and its projection only gained; and as long as nothing has
      missed a cached projection since the database was last opened, every log folds, and every row and every cached
      projection is that fold. */
  lemma StoreRefinesFold(states: seq<StoreState>, ops: seq<Op>, s: Id, i: nat, k: nat, j: nat)
    requires Run(states, ops) && i <= j <= |ops| && k <= j
    ensures Sound(states[j])
    ensures Opened(states, ops, k) && NoneMissed(states, ops, k, j) ==> Coherent(states[j])
    ensures StaysAround(states, s, i, j) ==> states[i].db.events[s] <= states[j].db.events[s]
    ensures StaysAround(states, s, i, j) && Readable(s, states[j].db.events[s]) ==>
              && Readable(s, states[i].db.events[s])
              && Below(ProjectionOf(s, states[i].db.events[s]), ProjectionOf(s, states[j].db.events[s]))
  {
    hide Do, Below, ProjectionOf, Allowed, Coherent, Readable, Contiguous;
    RunSound(states, ops, i);
    RunSound(states, ops, j);
    if Opened(states, ops, k) && NoneMissed(states, ops, k, j) {
      RunCoherent(states, ops, k, j);
    }
    if StaysAround(states, s, i, j) {
      RunGrows(states, ops, s, i, j);
      if Readable(s, states[j].db.events[s]) {
        assert s in states[i].db.sessions;
        GrownFolds(s, states[i].db.events[s], states[j].db.events[s]);
      }
    }
  }

  /** A run can always go on with an allowed operation. */
  lemma RunExtends(states: seq<StoreState>, ops: seq<Op>, op: Op)
    requires Run(states, ops) && Allowed(states[|ops|], op)
    ensures Run(states + [Do(states[|ops|], op)], ops + [op])
  {
    hide Do, Allowed;
  }
}
