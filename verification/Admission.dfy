/** Admission control: how many runs may be pending, overall and per session
    (`AdmissionController` in piqo-server/src/supervisor.rs). */
module Admission {
  import opened Prelude
  import opened Events
  import opened Session
  import opened Ledger

  datatype Limits = Limits(maxPendingRuns: nat, maxPendingRunsPerSession: nat)

  /** The counters and the table of reserved runs. */
  datatype Counters = Counters(pending: nat, sessions: map<Id, nat>, runSessions: map<Id, Id>)

  function CountOf(sessions: map<Id, nat>, s: Id): nat { if s in sessions then sessions[s] else 0 }

  function RunsOf(runSessions: map<Id, Id>, s: Id): set<Id> {
    set r | r in runSessions && runSessions[r] == s
  }

  /** The counters say what the table says, and there are no idle entries. */
  ghost predicate Balanced(c: Counters) {
    && c.pending == |c.runSessions|
    && (forall s :: CountOf(c.sessions, s) == |RunsOf(c.runSessions, s)|)
    && (forall s :: s in c.sessions ==> c.sessions[s] > 0)
  }

  ghost predicate WithinLimits(c: Counters, limits: Limits) {
    c.pending <= limits.maxPendingRuns && forall s :: CountOf(c.sessions, s) <= limits.maxPendingRunsPerSession
  }

  predicate Admits(c: Counters, limits: Limits, session: Id) {
    c.pending < limits.maxPendingRuns && CountOf(c.sessions, session) < limits.maxPendingRunsPerSession
  }

  function Reserved(c: Counters, session: Id, run: Id): Counters {
    Counters(c.pending + 1, c.sessions[session := CountOf(c.sessions, session) + 1], c.runSessions[run := session])
  }

  /** Subtraction saturates, and a session whose count reaches zero is forgotten. */
  function Released(c: Counters, run: Id): Counters {
    if run !in c.runSessions then c
    else
      var s := c.runSessions[run];
      Counters(Minus(c.pending, 1),
               if s !in c.sessions then c.sessions
               else if Minus(c.sessions[s], 1) == 0 then c.sessions - {s}
               else c.sessions[s := Minus(c.sessions[s], 1)],
               c.runSessions - {run})
  }

  lemma ReservedRuns(runs: map<Id, Id>, session: Id, run: Id, s: Id)
    ensures RunsOf(runs[run := session], s) ==
            if s == session then RunsOf(runs, s) + {run} else RunsOf(runs, s) - {run}
  {
  }

  lemma ReleasedRuns(runs: map<Id, Id>, run: Id, s: Id)
    requires run in runs
    ensures RunsOf(runs - {run}, s) == RunsOf(runs, s) - {run}
    ensures run in RunsOf(runs, s) <==> s == runs[run]
  {
  }

  lemma ReserveKeeps(c: Counters, session: Id, run: Id)
    requires Balanced(c) && run !in c.runSessions
    ensures Balanced(Reserved(c, session, run))
  {
    var after := Reserved(c, session, run);
    forall s ensures CountOf(after.sessions, s) == |RunsOf(after.runSessions, s)| {
      ReservedRuns(c.runSessions, session, run, s);
      assert run !in RunsOf(c.runSessions, s);
      if s == session {
        assert |RunsOf(c.runSessions, s) + {run}| == |RunsOf(c.runSessions, s)| + 1;
      } else {
        assert RunsOf(c.runSessions, s) - {run} == RunsOf(c.runSessions, s);
      }
    }
    KeysCount(c.runSessions);
    KeysCount(after.runSessions);
    assert after.runSessions.Keys == c.runSessions.Keys + {run};
  }

  /** Reserving keeps the books straight exactly when the run has no reservation yet. */
  lemma ReserveBalancedExactly(c: Counters, session: Id, run: Id)
    requires Balanced(c)
    ensures Balanced(Reserved(c, session, run)) <==> run !in c.runSessions
  {
    if run in c.runSessions {
      KeysCount(c.runSessions);
      KeysCount(Reserved(c, session, run).runSessions);
      assert Reserved(c, session, run).runSessions.Keys == c.runSessions.Keys;
    } else {
      ReserveKeeps(c, session, run);
    }
  }

  /** Releasing keeps the books straight, never saturates, and a second release does nothing. */
  lemma ReleaseKeeps(c: Counters, run: Id)
    requires Balanced(c)
    ensures Balanced(Released(c, run))
    ensures run in c.runSessions ==> c.pending > 0 && CountOf(c.sessions, c.runSessions[run]) > 0
    ensures Released(Released(c, run), run) == Released(c, run)
    ensures run in c.runSessions ==> Released(c, run).pending == c.pending - 1
  {
    if run in c.runSessions {
      var after := Released(c, run);
      KeysCount(c.runSessions);
      KeysCount(after.runSessions);
      assert after.runSessions.Keys == c.runSessions.Keys - {run};
      hide RunsOf;
      forall s ensures CountOf(after.sessions, s) == |RunsOf(after.runSessions, s)| {
        ReleasedCount(c, run, s);
      }
      ReleasedCount(c, run, c.runSessions[run]);
    }
  }

  /** The count of one session goes down with its set of runs. */
  lemma ReleasedCount(c: Counters, run: Id, s: Id)
    requires Balanced(c) && run in c.runSessions
    ensures CountOf(Released(c, run).sessions, s) == |RunsOf(Released(c, run).runSessions, s)|
    ensures s == c.runSessions[run] ==> CountOf(c.sessions, s) > 0
  {
    var runs := RunsOf(c.runSessions, s);
    assert CountOf(c.sessions, s) == |runs|;
    ReleasedRuns(c.runSessions, run, s);
    hide RunsOf, Balanced;
    if s == c.runSessions[run] {
      assert |runs - {run}| == |runs| - 1;
    } else {
      assert runs - {run} == runs;
    }
  }

  /** Releasing gives back exactly what reserving took. */
  lemma ReleaseUndoesReserve(c: Counters, session: Id, run: Id)
    requires Balanced(c) && run !in c.runSessions
    ensures Released(Reserved(c, session, run), run) == c
  {
    var r := Reserved(c, session, run);
    assert r.runSessions - {run} == c.runSessions;
    if session in c.sessions {
      assert r.sessions[session := c.sessions[session]] == c.sessions;
    } else {
      assert r.sessions - {session} == c.sessions;
    }
  }

  function Total(sessions: map<Id, nat>): nat
    decreases |sessions|
  {
    if sessions == map[] then 0
    else
      var s := First(sessions.Keys);
      KeysCount(sessions);
      KeysCount(sessions - {s});
      assert sessions.Keys == (sessions - {s}).Keys + {s};
      sessions[s] + Total(sessions - {s})
  }

  /** The per-session counts add up to the pending count. */
  lemma {:induction false} CountsAddUp(c: Counters)
    requires Balanced(c)
    ensures Total(c.sessions) == c.pending
    decreases |c.sessions|
  {
    KeysCount(c.runSessions);
    if c.sessions == map[] {
      if c.runSessions != map[] {
        SomeSession(c);
      }
    } else {
      var s := First(c.sessions.Keys);
      var gone := RunsOf(c.runSessions, s);
      KeysCount(c.runSessions - gone);
      KeysCount(c.sessions);
      KeysCount(c.sessions - {s});
      assert c.sessions.Keys == (c.sessions - {s}).Keys + {s};
      assert c.runSessions.Keys == (c.runSessions - gone).Keys + gone;
      RestBalanced(c, s);
      CountsAddUp(Counters(|c.runSessions - gone|, c.sessions - {s}, c.runSessions - gone));
    }
  }

  lemma SomeSession(c: Counters)
    requires Balanced(c) && c.runSessions != map[]
    ensures c.sessions != map[]
  {
    var r :| r in c.runSessions;
    assert r in RunsOf(c.runSessions, c.runSessions[r]);
    assert CountOf(c.sessions, c.runSessions[r]) == |RunsOf(c.runSessions, c.runSessions[r])|;
  }

  lemma RestBalanced(c: Counters, s: Id)
    requires Balanced(c) && s in c.sessions
    ensures var gone := RunsOf(c.runSessions, s);
            Balanced(Counters(|c.runSessions - gone|, c.sessions - {s}, c.runSessions - gone))
  {
    var gone := RunsOf(c.runSessions, s);
    forall x ensures CountOf(c.sessions - {s}, x) == |RunsOf(c.runSessions - gone, x)| {
      assert RunsOf(c.runSessions - gone, x) == if x == s then {} else RunsOf(c.runSessions, x);
    }
  }

  /** The runs a batch of events ends. */
  function Ended(events: seq<SemanticEvent>): set<Id> {
    set i | 0 <= i < |events| && EndsARun(events[i]) :: events[i].run.runId
  }

  predicate EndsARun(e: SemanticEvent) {
    e.RunEv? && Ending(e, e.run.runId).Some?
  }

  /** How far submitting a run gets: a step between the reservation and the append fails, the append fails, or the
      run is queued. */
  datatype Submission = StepFails | AppendFails | Queues

  lemma LimitsKept(c: Counters, limits: Limits, session: Id, run: Id)
    requires WithinLimits(c, limits)
    ensures Admits(c, limits, session) ==> WithinLimits(Reserved(c, session, run), limits)
    ensures WithinLimits(Released(c, run), limits)
  {
    var after, less := Reserved(c, session, run), Released(c, run);
    if Admits(c, limits, session) {
      forall s ensures CountOf(after.sessions, s) <= limits.maxPendingRunsPerSession {
        assert s != session ==> CountOf(after.sessions, s) == CountOf(c.sessions, s);
      }
    }
    forall s ensures CountOf(less.sessions, s) <= limits.maxPendingRunsPerSession {
      assert CountOf(less.sessions, s) <= CountOf(c.sessions, s);
    }
  }

  lemma CountsAreRuns(c: Counters, session: Id)
    requires Balanced(c)
    ensures c.pending == |c.runSessions| && CountOf(c.sessions, session) == |RunsOf(c.runSessions, session)|
  {
  }

  class AdmissionController {
    const limits: Limits
    var pending: nat
    var sessions: map<Id, nat>
    var runSessions: map<Id, Id>

    function View(): Counters
      reads this
    {
      Counters(pending, sessions, runSessions)
    }

    ghost predicate Valid()
      reads this
    {
      Balanced(View()) && WithinLimits(View(), limits)
    }

    constructor (l: Limits)
      ensures Valid() && limits == l && runSessions == map[]
    {
      limits := l;
      pending, sessions, runSessions := 0, map[], map[];
      new;
      assert forall s :: RunsOf(map[], s) == {};
    }

    /** `run` is a fresh identifier. */
    method Reserve(session: Id, run: Id) returns (ok: bool)
      requires Valid() && run !in runSessions
      modifies this
      ensures Valid()
      ensures ok <==> Admits(old(View()), limits, session)
      ensures ok <==> |old(runSessions)| < limits.maxPendingRuns && |RunsOf(old(runSessions), session)| < limits.maxPendingRunsPerSession
      ensures View() == if ok then Reserved(old(View()), session, run) else old(View())
    {
      CountsAreRuns(View(), session);
      ReserveKeeps(View(), session, run);
      LimitsKept(View(), limits, session, run);
      hide Balanced, WithinLimits;
      var sessionPending := if session in sessions then sessions[session] else 0;
      if pending >= limits.maxPendingRuns || sessionPending >= limits.maxPendingRunsPerSession {
        return false;
      }
      pending := pending + 1;
      sessions := sessions[session := sessionPending + 1];
      runSessions := runSessions[run := session];
      return true;
    }

    method Release(run: Id)
      requires Valid()
      modifies this
      ensures Valid()
      ensures View() == Released(old(View()), run)
      ensures runSessions == old(runSessions) - {run}
    {
      ReleaseKeeps(View(), run);
      LimitsKept(View(), limits, "", run);
      hide Balanced, WithinLimits;
      if run !in runSessions {
        return;
      }
      var session := runSessions[run];
      runSessions := runSessions - {run};
      pending := Minus(pending, 1);
      if session in sessions {
        var value := Minus(sessions[session], 1);
        sessions := if value == 0 then sessions - {session} else sessions[session := value];
      }
    }

    /** The loop of `append_many`: every run a committed batch ends is released, and no other. */
    method ReleaseEnded(recorded: seq<SemanticEvent>)
      requires Valid()
      modifies this
      ensures Valid()
      ensures runSessions == old(runSessions) - Ended(recorded)
    {
      hide Balanced, WithinLimits, Released;
      for i := 0 to |recorded|
        invariant Valid()
        invariant runSessions == old(runSessions) - Ended(recorded[..i])
      {
        EndedNext(recorded, i);
        if EndsARun(recorded[i]) {
          Release(recorded[i].run.runId);
        }
      }
      assert recorded[..|recorded|] == recorded;
    }

    /** Reserve, then append. A failed append gives the reservation back; a failure in between does not. */
    method Submit(session: Id, run: Id, outcome: Submission) returns (queued: bool)
      requires Valid() && run !in runSessions
      modifies this
      ensures Valid()
      ensures queued <==> Admits(old(View()), limits, session) && outcome == Queues
      ensures !queued && outcome != StepFails ==> View() == old(View())
      ensures run in runSessions <==> Admits(old(View()), limits, session) && outcome != AppendFails
    {
      var admitted := Reserve(session, run);
      if !admitted || outcome == StepFails {
        return false;
      }
      if outcome == AppendFails {
        ReleaseUndoesReserve(old(View()), session, run);
        Release(run);
        return false;
      }
      return true;
    }
  }

  lemma EndedNext(events: seq<SemanticEvent>, i: nat)
    requires i < |events|
    ensures Ended(events[..i + 1]) == Ended(events[..i]) + (if EndsARun(events[i]) then {events[i].run.runId} else {})
  {
    assert events[..i + 1] == events[..i] + [events[i]];
    forall x | x in Ended(events[..i + 1])
      ensures x in Ended(events[..i]) || (EndsARun(events[i]) && x == events[i].run.runId)
    {
      var j :| 0 <= j < i + 1 && EndsARun(events[..i + 1][j]) && x == events[..i + 1][j].run.runId;
      if j < i { assert events[..i][j] == events[j]; }
    }
    forall x | x in Ended(events[..i]) ensures x in Ended(events[..i + 1]) {
      var j :| 0 <= j < i && EndsARun(events[..i][j]) && x == events[..i][j].run.runId;
      assert events[..i + 1][j] == events[j];
    }
    if EndsARun(events[i]) {
      assert events[..i + 1][i] == events[i];
    }
  }

  /** After a log is appended through the supervisor, no run that has ended holds a reservation: the runs released
      are exactly the runs the projection calls terminal. */
  lemma {:induction false} EndedAreTerminal(sessionId: Id, log: seq<SemanticEvent>)
    requires Accepted(sessionId, log)
    ensures forall r :: r in Ended(log) <==>
                        r in Fold(sessionId, log).value.queue.runs && Terminal(Fold(sessionId, log).value.queue.runs[r].status)
  {
    if log != [] {
      var n := |log| - 1;
      var p := Fold(sessionId, log[..n]).value;
      EndedAreTerminal(sessionId, log[..n]);
      FoldLast(sessionId, log);
      assert log[..n + 1] == log;
      EndedNext(log, n);
      hide Fold, Step;
      forall r ensures r in Ended(log) <==> TerminalIn(Fold(sessionId, log).value.queue, r) {
        assert r in Ended(log[..n]) <==> TerminalIn(p.queue, r);
        EndedStep(p, n + 1, log[n], r);
      }
    }
  }

  predicate TerminalIn(q: Queue, r: Id) { r in q.runs && Terminal(q.runs[r].status) }

  lemma EndedStep(p: Projection, id: EventId, e: SemanticEvent, r: Id)
    requires Step(p, id, e).Ok()
    ensures TerminalIn(Step(p, id, e).value.queue, r) <==> TerminalIn(p.queue, r) || (EndsARun(e) && e.run.runId == r)
  {
    if e.RunEv? {
      RunEventMeaning(p.queue, e.run);
    }
  }
}
