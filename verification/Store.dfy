/** The store with its tables and its projection cache, updated in place (piqo-server/src/storage.rs).

    A transaction works on copies of the tables and writes them back at commit. Every method is proved to
    move the store as the function of module `StoreSpec` with the same name says, and to keep it coherent. */
module Store {
  import opened Prelude
  import opened Events
  import opened Session
  import opened SessionRecord
  import opened StoreSpec
  import opened Recovery
  import opened StaleCache
  import EventLogs
  import History

  /** How far a call gets: to its end, to a database failure at an event of the batch, or until its caller is
      dropped around the commit (a timeout drops the future it waits on). */
  datatype Stop = RunsThrough | FailsAt(event: nat) | DroppedBeforeCommit | DroppedAfterCommit

  datatype AppendResult = Appended(recorded: seq<RecordedEvent>) | Rejected(error: StoreError) | Dropped

  /** Fold event rows, checking that ids are contiguous and the schema is known. */
  method Project(sessionId: Id, rows: seq<RecordedEvent>) returns (r: Result<Projection>)
    ensures r.Success? <==> Readable(sessionId, rows)
    ensures r.Success? ==> r.value == ProjectionOf(sessionId, rows)
    ensures r.Failure? ==>
              || r.error == CorruptSession(sessionId)
              || exists k :: 0 < k <= |rows| && Fold(sessionId, Strip(rows)[..k]).error.Some?
                             && r.error == RefusedEvent(Fold(sessionId, Strip(rows)[..k]).error.value)
  {
    hide Step, Replay;
    var state := new SessionProjection(sessionId);
    ReplayNone(New(sessionId), 1);
    for i := 0 to |rows|
      invariant Contiguous(rows[..i])
      invariant Fold(sessionId, Strip(rows)[..i]) == Outcome(state.View(), None)
    {
      if rows[i].id != i + 1 || rows[i].schemaVersion != SCHEMA_VERSION {
        return Failure(CorruptSession(sessionId));
      }
      ReplayNext(New(sessionId), 1, Strip(rows), i);
      var error := state.Apply(rows[i].id, rows[i].event);
      if error.Some? {
        if Readable(sessionId, rows) {
          PrefixAccepted(sessionId, Strip(rows), i + 1);
        }
        return Failure(RefusedEvent(error.value));
      }
    }
    if rows == [] {
      return Failure(CorruptSession(sessionId));
    }
    assert Strip(rows)[..|rows|] == Strip(rows);
    return Success(state.View());
  }

  /** What is handed back for a batch, row by row: the next ids, the session's own id, the current schema and the events. */
  predicate IsRecord(recorded: seq<RecordedEvent>, sessionId: Id, last: EventId, batch: seq<SemanticEvent>) {
    && |recorded| == |batch|
    && forall i :: 0 <= i < |recorded| ==>
         && recorded[i].id == last + 1 + i && recorded[i].sessionId == sessionId
         && recorded[i].schemaVersion == SCHEMA_VERSION && recorded[i].event == batch[i]
  }

  lemma IsRecorded(sessionId: Id, last: EventId, batch: seq<SemanticEvent>)
    ensures IsRecord(Recorded(sessionId, last, batch), sessionId, last, batch)
  {
  }

  /** The loop of the append transaction: apply, insert and update event by event, on copies of the session's
      row and events. */
  method ApplyBatch(sessionId: Id, row: Row, rows: seq<RecordedEvent>, base: Projection, batch: seq<SemanticEvent>, stop: Stop)
    returns (r: Result<seq<RecordedEvent>>, txRow: Row, txEvents: seq<RecordedEvent>, after: Projection)
    requires row.lastEventId == |rows|
    ensures r.Success? <==> Replay(base, |rows| + 1, batch).Ok() && !(stop.FailsAt? && stop.event < |batch|)
    ensures r.Success? ==> r.value == Recorded(sessionId, |rows|, batch)
    ensures r.Success? ==> IsRecord(r.value, sessionId, |rows|, batch)
    ensures r.Success? ==> txEvents == Grown(sessionId, rows, batch)
    ensures r.Success? ==> txRow == if batch == [] then row else Summarized(row, after.state, |txEvents|)
    ensures r.Success? ==> after == Replay(base, |rows| + 1, batch).value
    ensures r.Failure? && r.error != DatabaseFailure ==>
              exists k :: 0 < k <= |batch| && Replay(base, |rows| + 1, batch[..k]).error.Some?
                && r.error == RefusedEvent(Replay(base, |rows| + 1, batch[..k]).error.value)
  {
    hide Step, Replay;
    var projection := new SessionProjection.From(base);
    txRow, txEvents, after := row, rows, base;
    var recorded: seq<RecordedEvent> := [];
    ReplayNone(base, |rows| + 1);
    for i := 0 to |batch|
      invariant Replay(base, |rows| + 1, batch[..i]) == Outcome(projection.View(), None)
      invariant recorded == Recorded(sessionId, |rows|, batch[..i])
      invariant txEvents == rows + recorded
      invariant txRow == if i == 0 then row else Summarized(row, projection.View().state, |rows| + i)
      invariant !(stop.FailsAt? && stop.event < i)
    {
      ReplayNext(base, |rows| + 1, batch, i);
      var eventId := txRow.lastEventId + 1;
      txRow := txRow.(lastEventId := eventId);
      var error := projection.Apply(eventId, batch[i]);
      if error.Some? {
        TakesPrefix(base, |rows| + 1, batch, i + 1);
        return Failure(RefusedEvent(error.value)), txRow, txEvents, after;
      }
      if stop == FailsAt(i) {
        return Failure(DatabaseFailure), txRow, txEvents, after;
      }
      var inserted := RecordedEvent(eventId, sessionId, SCHEMA_VERSION, batch[i]);
      txEvents := txEvents + [inserted];
      txRow := txRow.(phase := projection.state.phase, revision := projection.state.revision);
      recorded := recorded + [inserted];
    }
    assert batch[..|batch|] == batch;
    IsRecorded(sessionId, |rows|, batch);
    return Success(recorded), txRow, txEvents, projection.View();
  }

  /** Copy the parent's rows and write the fork events after them, keeping the row's summary up to date. */
  method WriteBranch(parent: Id, at: EventId, rows: seq<RecordedEvent>, id: Id, parentState: Projection)
    returns (log: seq<RecordedEvent>, state: SessionState)
    ensures log == Copied(rows, id) + Recorded(id, at, ForkEvents(parent, at, parentState))
    ensures Owned(id, log)
    ensures state == Branched(parentState, at).state
  {
    hide Step, Replay, Branched, ActiveRun;
    var branch := new SessionProjection.From(parentState);
    var run := ActiveRun(branch.View().queue);
    var branchEvents := [SessionEv(SessionForked(parent, at))];
    if run.Some? {
      branchEvents := branchEvents + [RunEv(RunInterrupted(run.value, "forked_branch"))];
    }
    branchEvents := branchEvents + [QueuePaused];
    assert branchEvents == ForkEvents(parent, at, parentState);
    ForkEventsReplay(parent, at, parentState);
    ReplayNone(parentState, at + 1);
    log := Copied(rows, id);
    var nextId := at + 1;
    for i := 0 to |branchEvents|
      invariant nextId == at + 1 + i
      invariant Replay(parentState, at + 1, branchEvents[..i]) == Outcome(branch.View(), None)
      invariant log == Copied(rows, id) + Recorded(id, at, branchEvents[..i])
    {
      ReplayNext(parentState, at + 1, branchEvents, i);
      TakesPrefix(parentState, at + 1, branchEvents, i + 1);
      var error := branch.Apply(nextId, branchEvents[i]);
      log := log + [RecordedEvent(nextId, id, SCHEMA_VERSION, branchEvents[i])];
      nextId := nextId + 1;
    }
    assert branchEvents[..|branchEvents|] == branchEvents;
    state := branch.state;
  }

  class SqliteStore {
    var projects: set<Id>
    var sessions: map<Id, Row>
    var events: map<Id, seq<RecordedEvent>>
    var projectionCache: map<Id, Projection>

    function State(): StoreState
      reads this
    {
      StoreState(Db(projects, sessions, events), projectionCache)
    }

    predicate Valid()
      reads this
    {
      Coherent(State())
    }

    /** What every operation keeps, even when a dropped caller has left the cache behind. */
    predicate Usable()
      reads this
    {
      Numbered(State())
    }

    constructor ()
      ensures State() == StoreState(Db({}, map[], map[]), map[])
      ensures Valid() && Usable()
    {
      projects, sessions, events, projectionCache := {}, map[], map[], map[];
    }

    method CreateProject(id: Id)
      requires Usable()
      modifies this
      ensures State() == old(State()).(db := old(State()).db.(projects := old(projects) + {id}))
      ensures Usable() && (old(Valid()) ==> Valid())
    {
      hide Readable, ProjectionOf, Contiguous;
      projects := projects + {id};
    }

    /** `id` is a fresh identifier. */
    method NewSession(id: Id, title: Option<string>, project: Option<Id>) returns (r: Result<Row>)
      requires Usable() && id !in sessions
      modifies this
      ensures State() == CreateSession(old(State()), id, title, project)
      ensures r.Success? <==> project.None? || project.value in old(projects)
      ensures r.Success? ==> id in sessions && sessions[id] == r.value && r.value.title == title && r.value.project == project
      ensures r.Success? ==> r.value.parent == None && r.value.forkedAt == None && r.value.phase == Created
      ensures r.Success? ==> id in events && Strip(events[id]) == [SessionEv(SessionCreated(title))]
      ensures Usable() && (old(Valid()) ==> Valid())
    {
      hide Coherent, Numbered;
      CreateNumbered(State(), id, title, project);
      if Coherent(State()) {
        CreateSessionCoherent(State(), id, title, project);
      }
      if project.Some? && project.value !in projects {
        return Failure(ProjectNotFound(project.value));
      }
      var row := Row(title, project, None, None, Created, 0, 1);
      sessions := sessions[id := row];
      events := events[id := [RecordedEvent(1, id, SCHEMA_VERSION, SessionEv(SessionCreated(title)))]];
      return Success(row);
    }

    method Projected(sessionId: Id) returns (r: Result<Projection>)
      requires Usable()
      modifies this
      ensures State() == Remember(old(State()), sessionId)
      ensures r.Success? <==> BaseOf(old(State()), sessionId).Some?
      ensures r.Success? ==> r.value == BaseOf(old(State()), sessionId).value
      ensures old(Valid()) ==> (r.Success? <==> sessionId in old(sessions))
      ensures old(Valid()) && r.Success? ==> r.value == ProjectionOf(sessionId, old(events)[sessionId])
      ensures Usable() && (old(Valid()) ==> Valid())
    {
      RememberNumbered(State(), sessionId);
      ReadFacts(State(), sessionId);
      hide Coherent, Readable, ProjectionOf, Contiguous;
      if sessionId in projectionCache {
        assert projectionCache[sessionId := projectionCache[sessionId]] == projectionCache;
        return Success(projectionCache[sessionId]);
      }
      if sessionId !in sessions {
        return Failure(SessionNotFound(sessionId));
      }
      r := Project(sessionId, events[sessionId]);
      if r.Success? {
        projectionCache := projectionCache[sessionId := r.value];
      }
    }

    /** The projection a batch is validated against: the cached one, or the fold of the rows. */
    method BaseProjection(sessionId: Id) returns (r: Result<Projection>)
      requires Usable()
      ensures r.Success? <==> BaseOf(State(), sessionId).Some?
      ensures r.Success? ==> r.value == BaseOf(State(), sessionId).value
    {
      hide Readable, ProjectionOf, Contiguous;
      if sessionId in projectionCache {
        return Success(projectionCache[sessionId]);
      }
      if sessionId !in sessions {
        // No rows are found, and an empty log is corrupt.
        return Failure(CorruptSession(sessionId));
      }
      r := Project(sessionId, events[sessionId]);
    }

    /** Append a batch, whatever the cache holds. It is written whole or not at all. In a coherent store only a caller
        dropped between the commit and the cache update can leave the cache behind, and does so exactly when the
        session was cached. */
    method AppendEvents(sessionId: Id, batch: seq<SemanticEvent>, stop: Stop) returns (r: AppendResult)
      requires Usable()
      modifies this
      ensures r.Appended? <==>
                || batch == []
                || (CanWrite(old(State()), sessionId, batch) && (stop.RunsThrough? || (stop.FailsAt? && stop.event >= |batch|)))
      ensures r.Appended? ==> State() == Write(old(State()), sessionId, batch, false)
      ensures r.Appended? && batch != [] ==> r.recorded == Recorded(sessionId, |old(events)[sessionId]|, batch)
      ensures r.Appended? ==> IsRecord(r.recorded, sessionId, if batch == [] then 0 else |old(events)[sessionId]|, batch)
      ensures r.Appended? ==> forall i :: 0 <= i < |r.recorded| ==> r.recorded[i].sessionId == sessionId
      ensures r.Rejected? ==> State() == old(State())
      ensures r.Dropped? ==> State() == if stop.DroppedAfterCommit? then Write(old(State()), sessionId, batch, true) else old(State())
      ensures r.Dropped? ==> batch != [] && CanWrite(old(State()), sessionId, batch) && (stop.DroppedBeforeCommit? || stop.DroppedAfterCommit?)
      ensures Usable()
      ensures old(Valid()) ==> (Valid() <==> !(r.Dropped? && stop.DroppedAfterCommit? && sessionId in old(projectionCache)))
    {
      hide Coherent, Numbered, Write, CanWrite, WithSession, Recorded, BaseOf;
      WriteFacts(State(), sessionId, batch);
      if batch == [] {
        return Appended([]);
      }
      var written, txRow, txEvents, projection := Transact(sessionId, batch, stop);
      if written.Failure? {
        return Rejected(written.error);
      }
      if stop.DroppedBeforeCommit? {
        return Dropped;
      }
      sessions, events := sessions[sessionId := txRow], events[sessionId := txEvents];
      if stop.DroppedAfterCommit? {
        return Dropped;
      }
      projectionCache := projectionCache[sessionId := projection];
      return Appended(written.value);
    }

    /** The transaction before its commit: what the session's row, rows and projection become. */
    method Transact(sessionId: Id, batch: seq<SemanticEvent>, stop: Stop)
      returns (r: Result<seq<RecordedEvent>>, txRow: Row, txEvents: seq<RecordedEvent>, projection: Projection)
      requires Usable() && batch != []
      ensures r.Success? <==> CanWrite(State(), sessionId, batch) && !(stop.FailsAt? && stop.event < |batch|)
      ensures r.Success? ==> sessionId in events && r.value == Recorded(sessionId, |events[sessionId]|, batch)
      ensures r.Success? ==> IsRecord(r.value, sessionId, |events[sessionId]|, batch)
      ensures r.Success? ==>
                var db := Db(projects, sessions[sessionId := txRow], events[sessionId := txEvents]);
                && Write(State(), sessionId, batch, true) == StoreState(db, projectionCache)
                && Write(State(), sessionId, batch, false) == StoreState(db, projectionCache[sessionId := projection])
    {
      hide Coherent, Numbered, ProjectionOf, Grown, Summarized, Contiguous, BaseOf, Readable, Replay, Write, CanWrite, Recorded;
      WriteFacts(State(), sessionId, batch);
      var nothing := New(sessionId);
      var base := BaseProjection(sessionId);
      if base.Failure? || sessionId !in sessions {
        return Failure(if base.Failure? then base.error else SessionNotFound(sessionId)), NewRow(None, None), [], nothing;
      }
      r, txRow, txEvents, projection := ApplyBatch(sessionId, sessions[sessionId], events[sessionId], base.value, batch, stop);
    }

    /** Deleting the project row cascades to its sessions and their events. A caller dropped after the DELETE evicts no
        projection, and leaves a coherent store incoherent exactly when there was one to evict. */
    method RemoveProject(project: Id, dropped: bool) returns (r: Result<()>)
      requires Usable()
      modifies this
      ensures State() == Remove(old(State()), project, dropped)
      ensures r.Success? <==> project in old(projects)
      ensures Usable()
      ensures old(Valid()) ==> (Valid() <==> !(dropped && project in old(projects) && CachedIn(old(State()), project)))
      ensures r.Success? ==> forall s :: s in sessions ==> sessions[s].project != Some(project)
      ensures forall s :: s in old(sessions) && old(sessions)[s].project != Some(project) ==>
                && s in sessions && sessions[s] == old(sessions)[s]
                && (s in old(events) ==> s in events && events[s] == old(events)[s])
                && (s in old(projectionCache) ==> s in projectionCache && projectionCache[s] == old(projectionCache)[s])
      ensures r.Success? && !dropped && old(Valid()) ==> forall s :: s in projectionCache ==> s in sessions
    {
      RemoveLeaves(State(), project, dropped);
      RemoveNumbered(State(), project, dropped);
      if Coherent(State()) {
        RemoveCoherent(State(), project, dropped);
        CachedAreSessions(State());
      }
      hide Coherent, Contiguous, CachedIn, Owned, Numbered;
      if project !in projects {
        return Failure(ProjectNotFound(project));
      }
      var gone := set s | s in sessions && sessions[s].project == Some(project);
      projects := projects - {project};
      sessions := sessions - gone;
      events := events - gone;
      if !dropped {
        projectionCache := projectionCache - gone;
      }
      return Success(());
    }

    /** Interrupt every session that was running when the server stopped. The database takes `limit` appends and then
        fails, which aborts the start: sessions `done` are recovered, `half` has only its first event. */
    method RecoverRunningSessions(limit: nat) returns (finished: bool, ghost done: set<Id>, ghost half: Option<Id>)
      requires Valid()
      modifies this
      ensures done <= RunningSessions(old(State()).db)
      ensures half.Some? ==> half.value in RunningSessions(old(State()).db) - done
      ensures State() == RecoverUntil(old(State()), done, half)
      ensures finished ==> half.None? && done == RunningSessions(old(State()).db) && State() == Recover(old(State()))
      ensures limit >= 2 * |RunningSessions(old(State()).db)| ==> finished
      ensures Valid()
      ensures finished ==> RunningSessions(State().db) == {}
    {
      hide Coherent, RecoverAll, ProjectionOf, SessionsOk, Append, CacheOk, ReferencesOk, Takes, Grown, TablesNumbered, Recover, RunningSessions;
      ghost var before := State();
      RecoverFacts(before);
      var ids := RunningIds();
      done, half := {}, None;
      var used := 0;
      ghost var total := |ids|;
      while ids != {}
        invariant ids + done == RunningSessions(before.db) && done <= ids + done && ids !! done && half.None?
        invariant Valid()
        invariant State() == RecoverAll(before, done)
        invariant used <= 2 * |done| && |done| + |ids| == total == |RunningSessions(before.db)|
        decreases ids
      {
        var s :| s in ids;
        assert s in ids + done && done <= ids + done;
        var appends, ok := RecoverOneSession(s, before, done, limit - if used < limit then used else limit);
        if !ok {
          finished := false;
          if appends == 1 {
            half := Some(s);
          }
          return;
        }
        MovedOver(ids, done, s);
        used := used + appends;
        ids, done := ids - {s}, done + {s};
      }
      assert done == {} + done;
      finished := true;
    }

    /** The query for the sessions whose row says they were running. */
    method RunningIds() returns (ids: set<Id>)
      ensures ids == RunningSessions(State().db)
    {
      ids := set s | s in sessions && sessions[s].phase == Running;
    }

    method RecoverOneSession(s: Id, ghost before: StoreState, ghost done: set<Id>, limit: nat) returns (appends: nat, ok: bool)
      requires Valid() && Coherent(before) && RecoveredUpTo(before, done, None, State())
      requires done <= RunningSessions(before.db) && s in RunningSessions(before.db) && s !in done
      modifies this
      ensures appends <= 2 && appends <= limit && (!ok ==> appends < 2) && (limit >= 2 ==> ok)
      ensures Valid()
      ensures RecoveredUpTo(before, if ok then done + {s} else done, if !ok && appends == 1 then Some(s) else None, State())
    {
      hide Coherent, RecoverAll, ProjectionOf, Takes, Grown, Append, CanAppend, SessionsOk, ReadProjection, Write, CanWrite, Remember, BaseOf;
      ghost var start := State();
      RecoveryParts(before, done, s);
      var interrupted := [SessionEv(SessionInterrupted("server_restart"))];
      CoherentIsNumbered(State());
      WriteIsAppend(State(), s, interrupted);
      var first := AppendEvents(s, interrupted, if limit > 0 then RunsThrough else FailsAt(0));
      if first.Rejected? {
        return 0, false;
      }
      CoherentIsNumbered(State());
      RememberIsRead(State(), s);
      var p := Projected(s);
      if p.Success? && ActiveRun(p.value.queue).Some? {
        var ended := [RunEv(RunInterrupted(ActiveRun(p.value.queue).value, "server_restart"))];
        CoherentIsNumbered(State());
        WriteIsAppend(State(), s, ended);
        var second := AppendEvents(s, ended, if limit > 1 then RunsThrough else FailsAt(0));
        if second.Rejected? {
          return 1, false;
        }
        return 2, true;
      }
      return 1, true;
    }

    /** Branch a session at an event; `id` is a fresh identifier. */
    method Fork(parent: Id, at: EventId, id: Id, title: Option<string>) returns (r: Result<Row>)
      requires Usable() && id !in sessions
      modifies this
      ensures State() == Branch(old(State()), parent, at, id, title)
      ensures r.Success? <==> CanBranch(old(State()), parent, at)
      ensures r.Success? ==> id in sessions && sessions[id] == r.value && r.value.title == title && parent in old(sessions)
      ensures r.Success? ==> r.value.project == old(sessions)[parent].project && r.value.parent == Some(parent) && r.value.forkedAt == Some(at)
      ensures Usable() && (old(Valid()) ==> Valid())
      ensures forall s :: s in old(sessions) ==> s in sessions && s in events && sessions[s] == old(sessions)[s] && events[s] == old(events)[s]
    {
      hide Coherent, Numbered, ProjectionOf, BranchRows, ForkEvents, Readable, Contiguous, Branched, CanBranch, Branch, Copied, Recorded, RowsUpTo;
      ForkKeeps(State(), parent, at, id, title);
      if parent !in sessions {
        NoParent(State(), parent, at, id, title);
        return Failure(SessionNotFound(parent));
      }
      ForkFacts(State(), parent, at, id, title);
      var rows := RowsUpTo(events[parent], at);
      if rows == [] || rows[|rows| - 1].id != at {
        return Failure(EventNotFound(parent, at));
      }
      var parentState := Project(parent, rows);
      if parentState.Failure? {
        return Failure(parentState.error);
      }
      var log, state := WriteBranch(parent, at, rows, id, parentState.value);
      var row := Row(title, sessions[parent].project, Some(parent), Some(at), state.phase, state.revision, |log|);
      sessions := sessions[id := row];
      events := events[id := log];
      return Success(row);
    }

    /** The check made when the database is opened: every row agrees with the fold of its log. */
    method ValidateAll() returns (ok: bool)
      requires sessions.Keys == events.Keys
      ensures ok <==> SessionsOk(State().db)
    {
      var ids := sessions.Keys;
      while ids != {}
        invariant ids <= sessions.Keys
        invariant forall s :: s in sessions && s !in ids ==> SessionOk(s, sessions[s], events[s])
        decreases ids
      {
        var s :| s in ids;
        var p := Project(s, events[s]);
        if p.Failure? {
          return false;
        }
        var row := sessions[s];
        LastIdIsLength(s, events[s]);
        if p.value.state.phase != row.phase || p.value.state.revision != row.revision
           || (if p.value.state.lastEventId.Some? then p.value.state.lastEventId.value else 0) != row.lastEventId {
          return false;
        }
        ids := ids - {s};
      }
      return true;
    }
  }

  /** The rows with an id up to `at`, in order. */
  function RowsUpTo(rows: seq<RecordedEvent>, at: EventId): seq<RecordedEvent> { Filter(rows, (e: RecordedEvent) => e.id <= at) }

  lemma UpToIsPrefix(rows: seq<RecordedEvent>, at: EventId)
    requires Contiguous(rows)
    ensures RowsUpTo(rows, at) == rows[..if at <= |rows| then at else |rows|]
  {
    EventLogs.FilterCuts(rows, at);
  }

  lemma LastIdIsLength(s: Id, rows: seq<RecordedEvent>)
    requires Readable(s, rows)
    ensures ProjectionOf(s, rows).state.lastEventId == Some(|rows|)
  {
    History.FoldSound(s, Strip(rows));
  }

  /** Whatever is not of the project stays as it is. */
  lemma RemoveLeaves(st: StoreState, project: Id, dropped: bool)
    ensures var after := Remove(st, project, dropped);
            forall s :: s in st.db.sessions && st.db.sessions[s].project != Some(project) ==>
              && s in after.db.sessions && after.db.sessions[s] == st.db.sessions[s]
              && (s in st.db.events ==> s in after.db.events && after.db.events[s] == st.db.events[s])
              && (s in st.cache ==> s in after.cache && after.cache[s] == st.cache[s])
  {
  }

  lemma CachedAreSessions(st: StoreState)
    requires Coherent(st)
    ensures st.cache.Keys <= st.db.sessions.Keys
  {
    hide SessionOk, ProjectionOf;
  }

  lemma MovedOver(ids: set<Id>, done: set<Id>, s: Id)
    requires s in ids && ids !! done
    ensures (ids - {s}) + (done + {s}) == ids + done && (ids - {s}) !! (done + {s})
    ensures |ids - {s}| == |ids| - 1 && |done + {s}| == |done| + 1
  {
  }

  lemma ForkKeeps(st: StoreState, parent: Id, at: EventId, id: Id, title: Option<string>)
    requires Numbered(st) && id !in st.db.sessions
    ensures Numbered(Branch(st, parent, at, id, title))
    ensures Coherent(st) ==> Coherent(Branch(st, parent, at, id, title))
    ensures st.db.sessions.Keys == st.db.events.Keys
  {
    BranchNumbered(st, parent, at, id, title);
    if Coherent(st) {
      ForkCoherent(st, parent, at, id, title);
      BranchIsFork(st, parent, at, id, title);
    }
    hide *;
  }

  lemma NoParent(st: StoreState, parent: Id, at: EventId, id: Id, title: Option<string>)
    requires parent !in st.db.sessions
    ensures !CanBranch(st, parent, at) && Branch(st, parent, at, id, title) == st
  {
  }

  lemma ForkFacts(st: StoreState, parent: Id, at: EventId, id: Id, title: Option<string>)
    requires Numbered(st) && parent in st.db.sessions
    ensures parent in st.db.events && Contiguous(st.db.events[parent])
    ensures RowsUpTo(st.db.events[parent], at) == st.db.events[parent][..if at <= |st.db.events[parent]| then at else |st.db.events[parent]|]
    ensures var rows := st.db.events[parent];
            (CanBranch(st, parent, at) <==> 1 <= at <= |rows| && Readable(parent, rows[..at]))
    ensures !CanBranch(st, parent, at) ==> Branch(st, parent, at, id, title) == st
    ensures var upTo := RowsUpTo(st.db.events[parent], at);
            upTo == [] || upTo[|upTo| - 1].id != at <==> !(1 <= at <= |st.db.events[parent]|)
    ensures CanBranch(st, parent, at) ==>
              var prefix := st.db.events[parent][..at];
              var p := ProjectionOf(parent, prefix);
              var log, state := Copied(prefix, id) + Recorded(id, at, ForkEvents(parent, at, p)), Branched(p, at).state;
              var row := Row(title, st.db.sessions[parent].project, Some(parent), Some(at), state.phase, state.revision, |log|);
              Branch(st, parent, at, id, title) == st.(db := WithSession(st.db, id, row, log))
  {
    UpToIsPrefix(st.db.events[parent], at);
    if CanBranch(st, parent, at) {
      BranchRead(st, parent, at, id);
    }
    hide Branched, Fold, ForkEvents, Contiguous, RowsUpTo;
  }

  /** A batch that replays has only prefixes that replay. */
  lemma TakesPrefix(p: Projection, first: EventId, batch: seq<SemanticEvent>, k: nat)
    requires k <= |batch|
    ensures Replay(p, first, batch).Ok() ==> Replay(p, first, batch[..k]).Ok()
  {
    assert batch == batch[..k] + batch[k..];
    ReplayAppend(p, first, batch[..k], batch[k..]);
  }

  /** What an append needs to know about the store. */
  lemma WriteFacts(st: StoreState, s: Id, batch: seq<SemanticEvent>)
    requires Numbered(st)
    ensures st.db.sessions.Keys == st.db.events.Keys && (s in st.db.sessions ==> st.db.sessions[s].lastEventId == |st.db.events[s]|)
    ensures Numbered(Write(st, s, batch, false)) && Numbered(Write(st, s, batch, true))
    ensures Write(st, s, [], false) == st
    ensures CanWrite(st, s, batch) <==>
              && s in st.db.sessions && BaseOf(st, s).Some?
              && Replay(BaseOf(st, s).value, |st.db.events[s]| + 1, batch).Ok()
    ensures CanWrite(st, s, batch) && batch != [] ==>
              var after := Replay(BaseOf(st, s).value, |st.db.events[s]| + 1, batch).value;
              var rows := Grown(s, st.db.events[s], batch);
              var db := WithSession(st.db, s, Summarized(st.db.sessions[s], after.state, |rows|), rows);
              Write(st, s, batch, true) == StoreState(db, st.cache) && Write(st, s, batch, false) == StoreState(db, st.cache[s := after])
    ensures Coherent(st) ==> Coherent(Write(st, s, batch, false))
    ensures Coherent(st) && batch != [] && CanWrite(st, s, batch) ==> (Coherent(Write(st, s, batch, true)) <==> s !in st.cache)
  {
    WriteNumbered(st, s, batch, false);
    WriteNumbered(st, s, batch, true);
    if Coherent(st) {
      WriteIsAppend(st, s, batch);
      AppendCoherent(st, s, batch);
      if batch != [] && CanAppend(st, s, batch) {
        AbandonedCommit(st, s, batch);
      }
    }
    hide Write, CanWrite, Coherent, CanAppend, Contiguous;
  }

  /** What a read needs to know about the store. */
  lemma ReadFacts(st: StoreState, s: Id)
    requires Numbered(st)
    ensures Coherent(st) ==> Coherent(Remember(st, s))
    ensures Coherent(st) && s in st.db.sessions ==> s in st.db.events && BaseOf(st, s) == Some(ProjectionOf(s, st.db.events[s]))
  {
    if Coherent(st) {
      ReadProjectionCoherent(st, s);
      RememberIsRead(st, s);
      if s in st.db.sessions {
        BaseIsFold(st, s);
      }
    }
    hide *;
  }

  lemma RecoverFacts(st: StoreState)
    requires Coherent(st)
    ensures st.db.sessions.Keys == st.db.events.Keys && SessionsOk(st.db)
    ensures RecoverAll(st, {}) == st
    ensures Recover(st) == RecoverAll(st, RunningSessions(st.db))
    ensures Coherent(Recover(st)) && RunningSessions(Recover(st).db) == {}
    ensures RunningSessions(st.db) <= st.db.sessions.Keys
  {
    RecoverNothing(st);
    RecoverySettles(st);
    hide ProjectionOf, RecoverAll, Coherent, Readable;
  }

  /** Recovery has come this far. */
  ghost predicate RecoveredUpTo(before: StoreState, done: set<Id>, half: Option<Id>, st: StoreState) {
    done <= before.db.sessions.Keys == before.db.events.Keys && st == RecoverUntil(before, done, half)
  }

  /** Interrupting the session, and then its active run if `q` has one, are two appends that are both accepted and
      together lead to `next`. */
  ghost predicate TwoAppends(st: StoreState, s: Id, q: Queue, next: StoreState) {
    var e1 := [SessionEv(SessionInterrupted("server_restart"))];
    var one := Append(st, s, e1);
    && SessionsOk(st.db) && CanAppend(st, s, e1)
    && s in one.cache && s in one.db.events && s in one.db.sessions
    && ReadProjection(one, s) == one
    && ProjectionOf(s, one.db.events[s]).queue == q
    && (if ActiveRun(q).Some? then
          var e2 := [RunEv(RunInterrupted(ActiveRun(q).value, "server_restart"))];
          CanAppend(one, s, e2) && Append(one, s, e2) == next
        else one == next)
  }

  lemma RecoveryParts(before: StoreState, done: set<Id>, s: Id)
    requires Coherent(before) && done <= RunningSessions(before.db) && s in RunningSessions(before.db) && s !in done
    requires Coherent(RecoverAll(before, done))
    ensures TwoAppends(RecoverAll(before, done), s, ProjectionOf(s, before.db.events[s]).queue, RecoverAll(before, done + {s}))
  {
    hide RecoverAll, Takes, Grown, ProjectionOf, CacheOk, ReferencesOk, SessionOk, Append, RecoveryBatch, Readable, TwoAppends;
    RecoverAllNext(before, done, s);
    RowPhase(before, s);
    SessionRows(before, s);
    SessionsHold(RecoverAll(before, done));
    RecoveryTakes(s, before.db.events[s]);
    var rows := before.db.events[s];
    TwoAppendsHold(RecoverAll(before, done), s, rows, ProjectionOf(s, rows).queue, RecoverAll(before, done + {s}));
  }

  lemma SessionsHold(st: StoreState)
    requires Coherent(st)
    ensures SessionsOk(st.db)
  {
  }

  lemma TwoAppendsHold(st: StoreState, s: Id, rows: seq<RecordedEvent>, q: Queue, next: StoreState)
    requires SessionsOk(st.db) && s in st.db.sessions && s in st.db.events && st.db.events[s] == rows
    requires var e1 := [SessionEv(SessionInterrupted("server_restart"))];
             && Takes(s, rows, e1) && ProjectionOf(s, Grown(s, rows, e1)).queue == q
             && (ActiveRun(q).Some? ==> Takes(s, Grown(s, rows, e1), [RunEv(RunInterrupted(ActiveRun(q).value, "server_restart"))]))
    requires Append(st, s, RecoveryBatch(q)) == next
    ensures TwoAppends(st, s, q, next)
  {
    hide ProjectionOf, Takes, Grown, SessionOk;
    if ActiveRun(q).Some? {
      AppendTwice(st, s, [SessionEv(SessionInterrupted("server_restart"))],
                  [RunEv(RunInterrupted(ActiveRun(q).value, "server_restart"))]);
    }
  }

  lemma SessionRows(st: StoreState, s: Id)
    requires Coherent(st) && s in st.db.sessions
    ensures s in st.db.events && Readable(s, st.db.events[s])
  {
    assert SessionOk(s, st.db.sessions[s], st.db.events[s]);
  }
}
