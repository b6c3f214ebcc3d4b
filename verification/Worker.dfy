/** The session worker: one turn after another until there is nothing to do (`process_session` and
    `execute_approved_native_calls` in piqo-server/src/supervisor.rs). Both loops end, and they stop only where the
    source says they should. */
module Worker {
  import opened Prelude
  import opened Events
  import opened Session
  import opened Ledger
  import opened Turns
  import SessionLocks
  import NativeClaims

  // ---------------------------------------------------------------- the next queued run

  /** The first of the keys with the lowest priority. */
  function Best(keys: seq<Id>, runs: map<Id, Run>): (r: Id)
    requires keys != [] && forall k :: k in keys ==> k in runs
    requires forall i, j :: 0 <= i < j < |keys| ==> Before(keys[i], keys[j])
    ensures r in keys
    ensures forall k :: k in keys && k != r ==>
              runs[r].queuePriority < runs[k].queuePriority || (runs[r].queuePriority == runs[k].queuePriority && Before(r, k))
    decreases |keys|
  {
    if |keys| == 1 then keys[0]
    else
      var n := |keys| - 1;
      var before := Best(keys[..n], runs);
      assert forall k :: k in keys ==> k in keys[..n] || k == keys[n];
      if runs[keys[n]].queuePriority < runs[before].queuePriority then keys[n] else before
  }

  /** Retries come first, then runs in the order of their ids. */
  function NextQueued(q: Queue): (r: Option<Id>)
    ensures r.None? <==> RunsWith(q.runs, Queued) == {}
    ensures r.Some? ==> r.value in q.runs && q.runs[r.value].status == Queued
    ensures r.Some? ==> forall k :: k in RunsWith(q.runs, Queued) && k != r.value ==>
              || q.runs[r.value].queuePriority < q.runs[k].queuePriority
              || (q.runs[r.value].queuePriority == q.runs[k].queuePriority && Before(r.value, k))
  {
    var queued := RunsWith(q.runs, Queued);
    if queued == {} then None
    else
      var keys := KeysInOrder(queued);
      assert keys != [] by { var k :| k in queued; assert k in keys; }
      Some(Best(keys, q.runs))
  }

  // ---------------------------------------------------------------- appends

  /** One more event on an accepted log. */
  lemma AppendOne(session: Id, log: seq<SemanticEvent>, e: SemanticEvent)
    requires Accepted(session, log) && Step(Fold(session, log).value, |log| + 1, e).Ok()
    ensures Accepted(session, log + [e])
    ensures Fold(session, log + [e]).value == Step(Fold(session, log).value, |log| + 1, e).value
  {
    ReplayOne(Fold(session, log).value, |log| + 1, e);
    ReplayAppend(New(session), 1, log, [e]);
  }

  predicate IsQuiet(p: Projection, e: SemanticEvent) {
    || e == QueueResumed
    || (e.SessionEv? && e.session.SessionPhaseChanged? && e.session.from == p.state.phase && p.state.phase in AllowedSources(e.session.to))
  }

  predicate Well(session: Id, log: seq<SemanticEvent>, maxTurns: nat) {
    Accepted(session, log) && Disciplined(session, log, maxTurns)
  }

  function At(session: Id, log: seq<SemanticEvent>): Projection { Fold(session, log).value }

  lemma QuietAppend(session: Id, log: seq<SemanticEvent>, e: SemanticEvent, maxTurns: nat)
    requires Well(session, log, maxTurns) && IsQuiet(At(session, log), e)
    ensures Well(session, log + [e], maxTurns)
    ensures At(session, log + [e]).queue.runs == At(session, log).queue.runs
    ensures e != QueueResumed ==> At(session, log + [e]).state.phase == e.session.to
    ensures ChancesOf(session, log + [e], maxTurns) <= ChancesOf(session, log, maxTurns)
  {
    AppendOne(session, log, e);
    LastDisciplined(session, log, e, maxTurns);
    ChancesShrink(session, log, e, "", maxTurns);
  }

  lemma StartAppend(session: Id, log: seq<SemanticEvent>, r: Id, attemptId: Id, maxTurns: nat)
    requires Well(session, log, maxTurns) && r in At(session, log).queue.runs
    requires var run := At(session, log).queue.runs[r];
             run.status == Queued || (run.status == RequiresAction && run.attempts < maxTurns)
    ensures var e := RunEv(RunStarted(r, attemptId, At(session, log).queue.runs[r].attempts + 1));
            && Well(session, log + [e], maxTurns)
            && LastStart(log + [e], r) == e.run.attempt
            && ChancesOf(session, log + [e], maxTurns) < ChancesOf(session, log, maxTurns)
  {
    hide Disciplined, LastStart, Replay;
    var e := RunEv(RunStarted(r, attemptId, At(session, log).queue.runs[r].attempts + 1));
    RunEventMeaning(At(session, log).queue, e.run);
    AppendOne(session, log, e);
    LastDisciplined(session, log, e, maxTurns);
    ChancesShrink(session, log, e, r, maxTurns);
    StartIsLast(log, e, r);
  }

  lemma StartIsLast(log: seq<SemanticEvent>, e: SemanticEvent, r: Id)
    requires Starts(e, r)
    ensures LastStart(log + [e], r) == e.run.attempt
  {
  }

  lemma FailAppend(session: Id, log: seq<SemanticEvent>, r: Id, error: string, maxTurns: nat)
    requires Well(session, log, maxTurns) && r in At(session, log).queue.runs
    ensures var e := RunEv(RunFailed(r, error));
            Accepted(session, log + [e]) <==> !Terminal(At(session, log).queue.runs[r].status)
    ensures var e := RunEv(RunFailed(r, error));
            Accepted(session, log + [e]) ==>
            && Well(session, log + [e], maxTurns)
            && ChancesOf(session, log + [e], maxTurns) < ChancesOf(session, log, maxTurns)
  {
    var e := RunEv(RunFailed(r, error));
    RunEventMeaning(At(session, log).queue, e.run);
    ReplayOne(Fold(session, log).value, |log| + 1, e);
    ReplayAppend(New(session), 1, log, [e]);
    hide Fold, Replay, StepRun;
    if Accepted(session, log + [e]) {
      LastDisciplined(session, log, e, maxTurns);
      ChancesShrink(session, log, e, r, maxTurns);
    }
  }

  // ---------------------------------------------------------------- the worker loop

  predicate Submits(e: SemanticEvent) { e.RunEv? && e.run.RunQueued? }

  function Submissions(log: seq<SemanticEvent>): nat {
    if log == [] then 0 else Submissions(log[..|log| - 1]) + (if Submits(log[|log| - 1]) then 1 else 0)
  }

  /** How many submissions are still to come, when there are `most` in all. */
  function Room(log: seq<SemanticEvent>, most: nat): nat { Minus(most, Submissions(log)) }

  /** There is no more to do than before, or somebody has used up a submission. */
  predicate NoMore(session: Id, log: seq<SemanticEvent>, after: seq<SemanticEvent>, maxTurns: nat, most: nat) {
    || Room(after, most) < Room(log, most)
    || (Room(after, most) == Room(log, most) && ChancesOf(session, after, maxTurns) <= ChancesOf(session, log, maxTurns))
  }

  /** There is less to do than before, or somebody has used up a submission. */
  predicate Less(session: Id, log: seq<SemanticEvent>, after: seq<SemanticEvent>, maxTurns: nat, most: nat) {
    || Room(after, most) < Room(log, most)
    || (Room(after, most) == Room(log, most) && ChancesOf(session, after, maxTurns) < ChancesOf(session, log, maxTurns))
  }

  lemma Then(session: Id, a: seq<SemanticEvent>, b: seq<SemanticEvent>, c: seq<SemanticEvent>, maxTurns: nat, most: nat)
    requires NoMore(session, a, b, maxTurns, most) && NoMore(session, b, c, maxTurns, most)
    ensures NoMore(session, a, c, maxTurns, most)
    ensures Less(session, a, b, maxTurns, most) || Less(session, b, c, maxTurns, most) ==> Less(session, a, c, maxTurns, most)
  {
    hide ChancesOf, Room;
  }

  lemma OneMoreEvent(log: seq<SemanticEvent>, e: SemanticEvent)
    ensures Submissions(log + [e]) == Submissions(log) + (if Submits(e) then 1 else 0)
  {
    assert (log + [e])[..|log|] == log;
  }

  /** An event that is no submission leaves no more to do when it leaves no more turns. */
  lemma OwnEvent(session: Id, log: seq<SemanticEvent>, e: SemanticEvent, maxTurns: nat, most: nat)
    requires !Submits(e) && ChancesOf(session, log + [e], maxTurns) <= ChancesOf(session, log, maxTurns)
    ensures NoMore(session, log, log + [e], maxTurns, most)
    ensures ChancesOf(session, log + [e], maxTurns) < ChancesOf(session, log, maxTurns) ==> Less(session, log, log + [e], maxTurns, most)
  {
    OneMoreEvent(log, e);
    hide ChancesOf;
  }

  /** Any event that is accepted and numbered, as long as there is room for a submission. */
  lemma AnyEvent(session: Id, log: seq<SemanticEvent>, e: SemanticEvent, maxTurns: nat, most: nat)
    requires Accepted(session, log + [e]) && Disciplined(session, log + [e], maxTurns)
    requires Submits(e) ==> Submissions(log) < most
    ensures NoMore(session, log, log + [e], maxTurns, most)
  {
    hide Disciplined, Fold;
    OneMoreEvent(log, e);
    if !Submits(e) {
      ChancesShrink(session, log, e, "", maxTurns);
    }
    hide ChancesOf;
  }

  lemma Nothing(session: Id, log: seq<SemanticEvent>, maxTurns: nat, most: nat)
    ensures NoMore(session, log, log, maxTurns, most)
  {
  }

  predicate IsStart(e: SemanticEvent) { e.RunEv? && e.run.RunStarted? }

  /** From position `n` on the log starts no run but these. */
  predicate OnlyStarts(log: seq<SemanticEvent>, n: nat, runs: set<Id>) {
    forall k :: n <= k < |log| && IsStart(log[k]) ==> log[k].run.runId in runs
  }

  /** What may be appended while a turn runs, by the turn or by anybody else. */
  predicate DuringTurn(e: SemanticEvent, r: Id, start: nat) {
    && (e.RunEv? ==> !e.run.RunStarted?)
    && (e.RunEv? && e.run.RunAttemptStarted? ==> e.run.runId == r && e.run.attempt >= start)
  }

  /** Run the turn: whatever of `events` fits is appended. */
  method ExecuteTurn(session: Id, log: seq<SemanticEvent>, r: Id, events: seq<SemanticEvent>, maxTurns: nat, most: nat)
    returns (after: seq<SemanticEvent>)
    requires Well(session, log, maxTurns)
    ensures Well(session, after, maxTurns) && log <= after && OnlyStarts(after, |log|, {})
    ensures NoMore(session, log, after, maxTurns, most)
  {
    hide Fold, Disciplined, ChancesOf, Numbered, NoMore, Less;
    after := log;
    Nothing(session, log, maxTurns, most);
    var start := LastStart(log, r);
    for i := 0 to |events|
      invariant Well(session, after, maxTurns) && log <= after && OnlyStarts(after, |log|, {})
      invariant LastStart(after, r) == start
      invariant NoMore(session, log, after, maxTurns, most)
    {
      var e := events[i];
      if DuringTurn(e, r, start) && Accepted(session, after + [e]) && (Submits(e) ==> Submissions(after) < most) {
        TurnEvent(session, after, e, r, maxTurns);
        AnyEvent(session, after, e, maxTurns, most);
        Then(session, log, after, after + [e], maxTurns, most);
        after := after + [e];
      }
    }
  }

  lemma TurnEvent(session: Id, log: seq<SemanticEvent>, e: SemanticEvent, r: Id, maxTurns: nat)
    requires Well(session, log, maxTurns) && DuringTurn(e, r, LastStart(log, r))
    ensures Disciplined(session, log + [e], maxTurns)
    ensures LastStart(log + [e], r) == LastStart(log, r)
  {
    LastDisciplined(session, log, e, maxTurns);
    assert (log + [e])[..|log|] == log;
  }

  /** What others append between a read and an append of the worker: anything but starts and attempts. */
  predicate FromOthers(e: SemanticEvent) { e.RunEv? ==> !e.run.RunStarted? && !e.run.RunAttemptStarted? }

  lemma OtherAppend(session: Id, log: seq<SemanticEvent>, seen: Queue, e: SemanticEvent, maxTurns: nat)
    requires Well(session, log, maxTurns) && SessionLocks.Still(seen, At(session, log).queue)
    requires FromOthers(e) && Accepted(session, log + [e])
    ensures Well(session, log + [e], maxTurns) && SessionLocks.Still(seen, At(session, log + [e]).queue)
  {
    hide Fold, Disciplined, SessionLocks.Still;
    LastDisciplined(session, log, e, maxTurns);
    assert (log + [e])[..|log|] == log;
    FoldLast(session, log + [e]);
    SessionLocks.StillStep(Fold(session, log).value, |log| + 1, e, seen);
  }

  /** Whatever of `events` fits is appended by others; what the worker read stands. */
  method OthersAppend(session: Id, log: seq<SemanticEvent>, ghost seen: Queue, events: seq<SemanticEvent>, maxTurns: nat, most: nat)
    returns (after: seq<SemanticEvent>)
    requires Well(session, log, maxTurns) && SessionLocks.Still(seen, At(session, log).queue)
    ensures Well(session, after, maxTurns) && SessionLocks.Still(seen, At(session, after).queue) && log <= after
    ensures NoMore(session, log, after, maxTurns, most) && OnlyStarts(after, |log|, {})
    ensures events == [] ==> after == log
  {
    hide Fold, Disciplined, ChancesOf, Accepted, SessionLocks.Still, NoMore, Less;
    after := log;
    Nothing(session, log, maxTurns, most);
    for i := 0 to |events|
      invariant Well(session, after, maxTurns) && SessionLocks.Still(seen, At(session, after).queue) && log <= after
      invariant OnlyStarts(after, |log|, {})
      invariant NoMore(session, log, after, maxTurns, most)
      invariant events == [] ==> after == log
    {
      var e := events[i];
      if FromOthers(e) && Accepted(session, after + [e]) && (Submits(e) ==> Submissions(after) < most) {
        OtherAppend(session, after, seen, e, maxTurns);
        AnyEvent(session, after, e, maxTurns, most);
        Then(session, log, after, after + [e], maxTurns, most);
        after := after + [e];
      }
    }
  }

  /** What the n-th turn is given: what others append after the worker's read and again before its start, an attempt id,
      and the events that happen during the turn. */
  datatype Turn = Turn(before: seq<SemanticEvent>, between: seq<SemanticEvent>, attemptId: Id, events: seq<SemanticEvent>)

  /** The worker goes on, or it ends: told to stop, with nothing left to do, or with an append that was refused. */
  datatype Ending = GoesOn | Stopped | NothingLeft | Refused

  /** Nothing the worker could start, seen from what it read. */
  predicate NothingToStart(p: Projection) {
    ActiveRun(p.queue).Some? || (ReadyActionRun(p.queue).None? && (p.queue.paused || NextQueued(p.queue).None?))
  }

  /** Nothing the worker could do is left. */
  predicate Idle(p: Projection) {
    || ActiveRun(p.queue).Some?
    || (ReadyActionRun(p.queue).None? && (p.queue.paused || (NextQueued(p.queue).None? && p.state.phase != Running)))
  }

  /** The run to start in a queue: none is active; a run that is ready goes first, the first of them in key order, if it
      may take another turn; otherwise, if the queue is open, the queued run with the least priority number, and among
      those the least id. */
  predicate Chosen(q: Queue, r: Id, maxTurns: nat) {
    && r in q.runs && (forall x :: x in q.runs ==> q.runs[x].status != RunRunning)
    && if ReadyRuns(q.runs) != {} then
         r in ReadyRuns(q.runs) && q.runs[r].attempts < maxTurns && (forall x :: x in ReadyRuns(q.runs) && x != r ==> Before(r, x))
       else
         && !q.paused && q.runs[r].status == Queued
         && forall x :: x in q.runs && x != r && q.runs[x].status == Queued ==>
              || q.runs[r].queuePriority < q.runs[x].queuePriority
              || (q.runs[r].queuePriority == q.runs[x].queuePriority && Before(r, x))
  }

  lemma ReadyIsChosen(q: Queue, maxTurns: nat)
    requires ActiveRun(q).None? && ReadyActionRun(q).Some? && q.runs[ReadyActionRun(q).value].attempts < maxTurns
    ensures Chosen(q, ReadyActionRun(q).value, maxTurns)
  {
    NoneActive(q);
  }

  lemma NextIsChosen(q: Queue, maxTurns: nat)
    requires ActiveRun(q).None? && ReadyActionRun(q).None? && !q.paused && NextQueued(q).Some?
    ensures Chosen(q, NextQueued(q).value, maxTurns)
  {
    NoneActive(q);
    hide NextQueued;
    assert forall x :: x in q.runs && q.runs[x].status == Queued ==> x in RunsWith(q.runs, Queued);
  }

  lemma NoneActive(q: Queue)
    requires ActiveRun(q).None?
    ensures forall x :: x in q.runs ==> q.runs[x].status != RunRunning
  {
    forall x | x in q.runs ensures q.runs[x].status != RunRunning {
      assert x !in RunsWith(q.runs, RunRunning);
    }
  }

  const EXCEEDED := "maximum model turns exceeded"

  /** What one iteration appends on its own, seen from what it read. */
  function Opening(p: Projection, attemptId: Id, maxTurns: nat): seq<SemanticEvent> {
    if ActiveRun(p.queue).Some? then []
    else if ReadyActionRun(p.queue).Some? then
      var r := ReadyActionRun(p.queue).value;
      if p.queue.runs[r].attempts >= maxTurns then [RunEv(RunFailed(r, EXCEEDED))]
      else [QueueResumed] + [RunEv(RunStarted(r, attemptId, p.queue.runs[r].attempts + 1))]
    else if p.queue.paused then []
    else if NextQueued(p.queue).None? then
      if p.state.phase == Running then [SessionEv(SessionPhaseChanged(Running, Finished, Some("queue_empty")))] else []
    else
      var r := NextQueued(p.queue).value;
      (if p.state.phase == Running then [] else [SessionEv(SessionPhaseChanged(p.state.phase, Running, Some("run_started")))])
      + [RunEv(RunStarted(r, attemptId, p.queue.runs[r].attempts + 1))]
  }

  /** At most one run is the one to start. */
  lemma ChosenIsOne(q: Queue, a: Id, b: Id, maxTurns: nat)
    requires Chosen(q, a, maxTurns) && Chosen(q, b, maxTurns)
    ensures a == b
  {
    if a != b && Before(a, b) && Before(b, a) {
      BeforeTransitive(a, b, a);
      BeforeIrreflexive(a);
    }
  }

  /** A ready run that may take no more turns: the first of the ready ones fails. */
  predicate Overspent(q: Queue, r: Id, maxTurns: nat) {
    && r in ReadyRuns(q.runs) && q.runs[r].attempts >= maxTurns
    && (forall x :: x in q.runs ==> q.runs[x].status != RunRunning)
    && forall x :: x in ReadyRuns(q.runs) && x != r ==> Before(r, x)
  }

  lemma OverspentIsFirst(q: Queue, r: Id, maxTurns: nat)
    requires Overspent(q, r, maxTurns)
    ensures ActiveRun(q).None? && ReadyActionRun(q) == Some(r)
  {
    assert RunsWith(q.runs, RunRunning) == {};
    FirstUnique(ReadyRuns(q.runs), r, First(ReadyRuns(q.runs)));
  }

  lemma FirstIsOverspent(q: Queue, maxTurns: nat)
    requires ActiveRun(q).None? && ReadyActionRun(q).Some? && q.runs[ReadyActionRun(q).value].attempts >= maxTurns
    ensures Overspent(q, ReadyActionRun(q).value, maxTurns)
  {
    NoneActive(q);
  }

  /** Which run to start, as the source looks for it. */
  lemma ChosenIs(q: Queue, r: Id, maxTurns: nat)
    requires Chosen(q, r, maxTurns)
    ensures ActiveRun(q).None?
    ensures if ReadyActionRun(q).Some? then ReadyActionRun(q) == Some(r) && q.runs[r].attempts < maxTurns
            else !q.paused && NextQueued(q) == Some(r)
  {
    assert RunsWith(q.runs, RunRunning) == {};
    if ReadyActionRun(q).Some? {
      FirstUnique(ReadyRuns(q.runs), r, First(ReadyRuns(q.runs)));
    } else {
      assert r in RunsWith(q.runs, Queued);
      NextIsChosen(q, maxTurns);
      ChosenIsOne(q, r, NextQueued(q).value, maxTurns);
    }
  }

  /** The iteration starts exactly the run to start, with the next number, and fails exactly the overspent one. */
  lemma OpeningStarts(p: Projection, attemptId: Id, maxTurns: nat, e: RunEvent)
    requires e.RunStarted? || e.RunFailed?
    ensures RunEv(e) in Opening(p, attemptId, maxTurns) <==>
            if e.RunStarted? then
              Chosen(p.queue, e.runId, maxTurns) && e.attemptId == attemptId && e.attempt == p.queue.runs[e.runId].attempts + 1
            else Overspent(p.queue, e.runId, maxTurns) && e.error == EXCEEDED
  {
    var q, o := p.queue, Opening(p, attemptId, maxTurns);
    if e.RunStarted? && Chosen(q, e.runId, maxTurns) {
      ChosenIs(q, e.runId, maxTurns);
    }
    if e.RunFailed? && Overspent(q, e.runId, maxTurns) {
      OverspentIsFirst(q, e.runId, maxTurns);
    }
    if RunEv(e) in o {
      hide Chosen, Overspent, ReadyRuns, RunsWith, NextQueued, ActiveRun, ReadyActionRun;
      if ReadyActionRun(q).Some? {
        if q.runs[ReadyActionRun(q).value].attempts < maxTurns {
          ReadyIsChosen(q, maxTurns);
        } else {
          FirstIsOverspent(q, maxTurns);
        }
      } else {
        NextIsChosen(q, maxTurns);
      }
    }
  }

  /** Starting a run as the iteration does: it is then running, with one more attempt. */
  predicate IsStarted(p: Projection, o: Outcome<Projection>, r: Id, attemptId: Id) {
    && o.Ok() && r in p.queue.runs && r in o.value.queue.runs && !o.value.queue.paused
    && o.value.queue.runs[r] == p.queue.runs[r].(status := RunRunning, attemptId := Some(attemptId), attempts := p.queue.runs[r].attempts + 1)
    && o.value.state.phase == if p.queue.runs[r].status == Queued then Running else p.state.phase
  }

  /** The iteration is accepted. The run it starts is then running with one more attempt, and the session Running if the run
      was queued. With no run left that is not over, and an open queue, the session is no longer Running. */
  lemma OpeningReplays(p: Projection, n: EventId, attemptId: Id, maxTurns: nat)
    ensures var o := Replay(p, n, Opening(p, attemptId, maxTurns));
            && o.Ok()
            && (forall r :: Chosen(p.queue, r, maxTurns) ==> IsStarted(p, o, r, attemptId))
            && (!p.queue.paused && (forall x :: x in p.queue.runs ==> Terminal(p.queue.runs[x].status)) ==> o.value.state.phase != Running)
  {
    var q, o := p.queue, Opening(p, attemptId, maxTurns);
    forall r | Chosen(q, r, maxTurns) ensures IsStarted(p, Replay(p, n, o), r, attemptId) {
      ChosenIs(q, r, maxTurns);
      StartReplays(p, n, r, attemptId, maxTurns);
    }
    if ActiveRun(q).Some? {
      ReplayNone(p, n);
    } else if ReadyActionRun(q).Some? {
      if q.runs[ReadyActionRun(q).value].attempts < maxTurns {
        ReadyIsChosen(q, maxTurns);
      } else {
        ReplayOne(p, n, o[0]);
      }
    } else if q.paused {
      ReplayNone(p, n);
    } else if NextQueued(q).None? {
      if p.state.phase == Running {
        ReplayOne(p, n, o[0]);
      } else {
        ReplayNone(p, n);
      }
    } else {
      NextIsChosen(q, maxTurns);
    }
    hide Chosen, IsStarted, NextQueued, ReadyRuns;
  }

  lemma StartReplays(p: Projection, n: EventId, r: Id, attemptId: Id, maxTurns: nat)
    requires Chosen(p.queue, r, maxTurns) && ActiveRun(p.queue).None?
    requires if ReadyActionRun(p.queue).Some? then ReadyActionRun(p.queue) == Some(r) && p.queue.runs[r].attempts < maxTurns
             else !p.queue.paused && NextQueued(p.queue) == Some(r)
    ensures IsStarted(p, Replay(p, n, Opening(p, attemptId, maxTurns)), r, attemptId)
  {
    hide First, NextQueued, ActiveRun, ReadyActionRun, Step, Opening, ReadyRuns, Replay;
    OpeningIs(p, r, attemptId, maxTurns);
    var start := RunEv(RunStarted(r, attemptId, p.queue.runs[r].attempts + 1));
    var first := if p.queue.runs[r].status == RequiresAction then QueueResumed else Moving(p);
    if Opening(p, attemptId, maxTurns) == [start] {
      ReplayOne(p, n, start);
      StartEffect(p, n, r, attemptId);
    } else {
      QuietEffect(p, n, first);
      var q := Step(p, n, first).value;
      ReplayOne(p, n, first);
      ReplayAppend(p, n, [first], [start]);
      ReplayOne(q, n + 1, start);
      StartEffect(q, n + 1, r, attemptId);
    }
  }

  function Moving(p: Projection): SemanticEvent { SessionEv(SessionPhaseChanged(p.state.phase, Running, Some("run_started"))) }

  lemma OpeningIs(p: Projection, r: Id, attemptId: Id, maxTurns: nat)
    requires Chosen(p.queue, r, maxTurns) && ActiveRun(p.queue).None?
    requires if ReadyActionRun(p.queue).Some? then ReadyActionRun(p.queue) == Some(r) && p.queue.runs[r].attempts < maxTurns
             else !p.queue.paused && NextQueued(p.queue) == Some(r)
    ensures p.queue.runs[r].status == Queued || p.queue.runs[r].status == RequiresAction
    ensures var start := [RunEv(RunStarted(r, attemptId, p.queue.runs[r].attempts + 1))];
            Opening(p, attemptId, maxTurns) ==
            if p.queue.runs[r].status == RequiresAction then [QueueResumed] + start
            else if p.state.phase == Running then start
            else [Moving(p)] + start
  {
    hide First, NextQueued, ActiveRun, ReadyActionRun;
  }

  lemma StartEffect(p: Projection, n: EventId, r: Id, attemptId: Id)
    requires r in p.queue.runs && (p.queue.runs[r].status == Queued || p.queue.runs[r].status == RequiresAction)
    ensures var run := p.queue.runs[r];
            var o := Step(p, n, RunEv(RunStarted(r, attemptId, run.attempts + 1)));
            && o.Ok() && o.value.state.phase == p.state.phase && !o.value.queue.paused
            && o.value.queue.runs == p.queue.runs[r := run.(status := RunRunning, attemptId := Some(attemptId), attempts := run.attempts + 1)]
  {
  }

  lemma QuietEffect(p: Projection, n: EventId, e: SemanticEvent)
    requires e == QueueResumed || (p.state.phase != Running && e == SessionEv(SessionPhaseChanged(p.state.phase, Running, Some("run_started"))))
    ensures Step(p, n, e).Ok() && Step(p, n, e).value.queue.runs == p.queue.runs
    ensures Step(p, n, e).value.state.phase == if e == QueueResumed then p.state.phase else Running
  {
  }

  lemma PhaseAppend(session: Id, log: seq<SemanticEvent>, from: SessionPhase, to: SessionPhase, reason: string, maxTurns: nat)
    requires Well(session, log, maxTurns)
    ensures var e := SessionEv(SessionPhaseChanged(from, to, Some(reason)));
            Accepted(session, log + [e]) <==> IsQuiet(At(session, log), e)
  {
    var e := SessionEv(SessionPhaseChanged(from, to, Some(reason)));
    ReplayOne(Fold(session, log).value, |log| + 1, e);
    ReplayAppend(New(session), 1, log, [e]);
  }

  lemma QuietStands(session: Id, log: seq<SemanticEvent>, e: SemanticEvent, seen: Queue, maxTurns: nat)
    requires Well(session, log, maxTurns) && IsQuiet(At(session, log), e) && SessionLocks.Still(seen, At(session, log).queue)
    ensures SessionLocks.Still(seen, At(session, log + [e]).queue)
  {
    QuietAppend(session, log, e, maxTurns);
    hide Fold;
  }

  /** The loop ends for every sequence of turns and every number of submissions made meanwhile, whatever else others
      append, because each iteration uses up a submission or a turn some run had left. Every run it starts is the one
      to be started in something it read; the numbering is kept; and the loop ends only when told to, when an append is
      refused, or when there was nothing to start in what it last read, `log[..read]`. If nobody else appends, nothing is
      refused, and in the end nothing is left to do. */
  method ProcessSession(session: Id, start: seq<SemanticEvent>, maxTurns: nat, submissions: nat, turns: nat -> Turn, shutdown: nat -> bool)
    returns (log: seq<SemanticEvent>, ending: Ending, ghost read: nat)
    requires Well(session, start, maxTurns)
    ensures Well(session, log, maxTurns) && start <= log && !ending.GoesOn?
    ensures |start| <= read <= |log| && (ending == NothingLeft ==> NothingToStart(At(session, log[..read])))
    ensures (forall n :: Alone(turns(n))) ==> ending != Refused && (ending == NothingLeft ==> Idle(At(session, log)))
    ensures ChosenFrom(session, log, |start|, maxTurns)
  {
    hide Fold, Disciplined, ChancesOf, Accepted, NextQueued, ActiveRun, ReadyActionRun, Room, Chosen, Opening, ChosenFrom;
    NoneChosenYet(session, start, maxTurns);
    var most := Submissions(start) + submissions;
    log, ending, read := start, GoesOn, |start|;
    var n := 0;
    while ending.GoesOn?
      invariant Well(session, log, maxTurns) && start <= log
      invariant !ending.GoesOn? ==> |start| <= read <= |log| && (ending == NothingLeft ==> NothingToStart(At(session, log[..read])))
      invariant (forall n :: Alone(turns(n))) ==> ending != Refused && (ending == NothingLeft ==> Idle(At(session, log)))
      invariant ChosenFrom(session, log, |start|, maxTurns)
      decreases ending.GoesOn?, Room(log, most), ChancesOf(session, log, maxTurns)
    {
      read := |log|;
      ghost var was := log;
      if shutdown(n) {
        ending := Stopped;
      } else {
        log, ending := Round(session, log, turns(n), maxTurns, most);
        MoreChosen(session, was, log, |start|, maxTurns);
      }
      assert log[..read] == was;
      n := n + 1;
    }
  }

  /** Every start from position `n` on was the one to make in the projection after some prefix that reaches `n`. */
  predicate ChosenFrom(session: Id, log: seq<SemanticEvent>, n: nat, maxTurns: nat) {
    forall k :: n <= k < |log| && IsStart(log[k]) ==>
      exists j :: n <= j <= k && Chosen(At(session, log[..j]).queue, log[k].run.runId, maxTurns)
  }

  /** Every start from position |log| on is the one to make after `log`. */
  predicate ChosenAfter(session: Id, log: seq<SemanticEvent>, after: seq<SemanticEvent>, maxTurns: nat) {
    forall k :: |log| <= k < |after| && IsStart(after[k]) ==> Chosen(At(session, log).queue, after[k].run.runId, maxTurns)
  }

  lemma NoneChosenYet(session: Id, log: seq<SemanticEvent>, maxTurns: nat)
    ensures ChosenFrom(session, log, |log|, maxTurns)
  {
  }

  lemma MoreChosen(session: Id, log: seq<SemanticEvent>, after: seq<SemanticEvent>, n: nat, maxTurns: nat)
    requires n <= |log| && log <= after && ChosenFrom(session, log, n, maxTurns) && ChosenAfter(session, log, after, maxTurns)
    ensures ChosenFrom(session, after, n, maxTurns)
  {
    hide Fold, Chosen;
    forall k | n <= k < |after| && IsStart(after[k])
      ensures exists j :: n <= j <= k && Chosen(At(session, after[..j]).queue, after[k].run.runId, maxTurns)
    {
      if k < |log| {
        var j :| n <= j <= k && Chosen(At(session, log[..j]).queue, log[k].run.runId, maxTurns);
        assert after[..j] == log[..j];
      } else {
        assert after[..|log|] == log;
      }
    }
  }

  /** Nobody else appends between the worker's read and its start. */
  predicate Alone(turn: Turn) { turn.before == [] && turn.between == [] }

  /** One iteration. */
  method Round(session: Id, start: seq<SemanticEvent>, turn: Turn, maxTurns: nat, most: nat) returns (log: seq<SemanticEvent>, ending: Ending)
    requires Well(session, start, maxTurns)
    ensures Well(session, log, maxTurns) && start <= log
    ensures ending.GoesOn? ==> Less(session, start, log, maxTurns, most)
    ensures ending == NothingLeft ==> NothingToStart(At(session, start))
    ensures Alone(turn) ==> ending != Refused && (ending == NothingLeft ==> Idle(At(session, log)))
    ensures ChosenAfter(session, start, log, maxTurns)
    ensures Alone(turn) ==> start + Opening(At(session, start), turn.attemptId, maxTurns) <= log
    ensures Alone(turn) && ending == NothingLeft ==> log == start + Opening(At(session, start), turn.attemptId, maxTurns)
  {
    hide Fold, Disciplined, ChancesOf, Accepted, NextQueued, SessionLocks.Still, NoMore, Less, Chosen;
    log := start;
    var p := At(session, log);
    if ActiveRun(p.queue).Some? {
      return log, NothingLeft;
    }
    SessionLocks.ReadStands(p.queue);
    var ready := ReadyActionRun(p.queue);
    var ok := true;
    if ready.Some? {
      log, ok := ContinueReady(session, log, p, ready.value, turn, maxTurns, most);
      if p.queue.runs[ready.value].attempts < maxTurns {
        ReadyIsChosen(p.queue, maxTurns);
      }
    } else if p.queue.paused {
      return log, NothingLeft;
    } else if NextQueued(p.queue).None? {
      if p.state.phase == Running {
        log := OthersAppend(session, log, p.queue, turn.before, maxTurns, most);
        log, ok := ChangePhase(session, log, p.queue, Running, Finished, "queue_empty", maxTurns, most);
      }
      if At(session, log).queue.runs == p.queue.runs {
        NoQueuedLeft(session, start, log);
      }
      return log, if ok then NothingLeft else Refused;
    } else {
      log, ok := StartQueued(session, log, p, turn, maxTurns, most);
      NextIsChosen(p.queue, maxTurns);
    }
    return log, if ok then GoesOn else Refused;
  }

  /** The branch that continues a ready run, or fails it when it may take no more turns. */
  method ContinueReady(session: Id, start: seq<SemanticEvent>, p: Projection, r: Id, turn: Turn, maxTurns: nat, most: nat)
    returns (log: seq<SemanticEvent>, ok: bool)
    requires Well(session, start, maxTurns) && p == At(session, start) && SessionLocks.Still(p.queue, p.queue)
    requires r in ReadyRuns(p.queue.runs)
    ensures Well(session, log, maxTurns) && start <= log
    ensures ok ==> Less(session, start, log, maxTurns, most)
    ensures Alone(turn) ==> ok
    ensures OnlyStarts(log, |start|, if p.queue.runs[r].attempts < maxTurns then {r} else {})
    ensures Alone(turn) ==>
              start + (if p.queue.runs[r].attempts >= maxTurns then [RunEv(RunFailed(r, EXCEEDED))]
                       else [QueueResumed] + [RunEv(RunStarted(r, turn.attemptId, p.queue.runs[r].attempts + 1))]) <= log
  {
    hide Fold, Disciplined, ChancesOf, Accepted, SessionLocks.Still, NoMore, Less;
    log := OthersAppend(session, start, p.queue, turn.before, maxTurns, most);
    ghost var before := log;
    if p.queue.runs[r].attempts >= maxTurns {
      log, ok := FailRun(session, log, p.queue, r, maxTurns, most);
    } else {
      QuietStands(session, log, QueueResumed, p.queue, maxTurns);
      QuietAppend(session, log, QueueResumed, maxTurns);
      OwnEvent(session, log, QueueResumed, maxTurns, most);
      Then(session, start, log, log + [QueueResumed], maxTurns, most);
      log := log + [QueueResumed];
      before := log;
      log, ok := TakeTurn(session, log, p.queue, r, turn, maxTurns, most);
    }
    if ok {
      LessIsNoMore(session, before, log, maxTurns, most);
      Then(session, start, before, log, maxTurns, most);
    }
  }

  lemma LessIsNoMore(session: Id, log: seq<SemanticEvent>, after: seq<SemanticEvent>, maxTurns: nat, most: nat)
    requires Less(session, log, after, maxTurns, most)
    ensures NoMore(session, log, after, maxTurns, most)
  {
    hide ChancesOf, Room;
  }

  /** The branch that starts the next queued run, moving the session to Running first. */
  method StartQueued(session: Id, start: seq<SemanticEvent>, p: Projection, turn: Turn, maxTurns: nat, most: nat)
    returns (log: seq<SemanticEvent>, ok: bool)
    requires Well(session, start, maxTurns) && p == At(session, start) && SessionLocks.Still(p.queue, p.queue)
    requires NextQueued(p.queue).Some?
    ensures Well(session, log, maxTurns) && start <= log
    ensures ok ==> Less(session, start, log, maxTurns, most)
    ensures Alone(turn) ==> ok
    ensures OnlyStarts(log, |start|, {NextQueued(p.queue).value})
    ensures Alone(turn) ==>
              var r := NextQueued(p.queue).value;
              start + (if p.state.phase == Running then [] else [SessionEv(SessionPhaseChanged(p.state.phase, Running, Some("run_started")))])
              + [RunEv(RunStarted(r, turn.attemptId, p.queue.runs[r].attempts + 1))] <= log
  {
    hide Fold, Disciplined, ChancesOf, Accepted, SessionLocks.Still, NoMore, Less, NextQueued;
    NextIsQueued(p.queue);
    log := OthersAppend(session, start, p.queue, turn.before, maxTurns, most);
    ok := true;
    if p.state.phase != Running {
      ghost var read := log;
      log, ok := ChangePhase(session, log, p.queue, p.state.phase, Running, "run_started", maxTurns, most);
      Then(session, start, read, log, maxTurns, most);
    }
    if ok {
      ghost var before := log;
      log, ok := TakeTurn(session, log, p.queue, NextQueued(p.queue).value, turn, maxTurns, most);
      if ok {
        LessIsNoMore(session, before, log, maxTurns, most);
        Then(session, start, before, log, maxTurns, most);
      }
    }
  }

  lemma NextIsQueued(q: Queue)
    requires NextQueued(q).Some?
    ensures NextQueued(q).value in q.runs && q.runs[NextQueued(q).value].status == Queued
  {
  }

  lemma NoQueuedLeft(session: Id, log: seq<SemanticEvent>, more: seq<SemanticEvent>)
    requires At(session, more).queue.runs == At(session, log).queue.runs
    ensures NextQueued(At(session, more).queue).None? <==> NextQueued(At(session, log).queue).None?
    ensures ReadyActionRun(At(session, more).queue).None? <==> ReadyActionRun(At(session, log).queue).None?
  {
    hide Fold;
  }

  /** A waiting run that may take no more turns fails. */
  method FailRun(session: Id, log: seq<SemanticEvent>, ghost seen: Queue, r: Id, maxTurns: nat, most: nat)
    returns (after: seq<SemanticEvent>, ok: bool)
    requires Well(session, log, maxTurns) && SessionLocks.Still(seen, At(session, log).queue)
    requires r in seen.runs && seen.runs[r].status == RequiresAction
    ensures Well(session, after, maxTurns) && log <= after
    ensures ok ==> Less(session, log, after, maxTurns, most)
    ensures At(session, log).queue.runs == seen.runs ==> ok
    ensures after == if ok then log + [RunEv(RunFailed(r, EXCEEDED))] else log
  {
    hide Fold, Disciplined, ChancesOf;
    var e := RunEv(RunFailed(r, EXCEEDED));
    FailAppend(session, log, r, EXCEEDED, maxTurns);
    ok := Accepted(session, log + [e]);
    if ok {
      OwnEvent(session, log, e, maxTurns, most);
    }
    after := if ok then log + [e] else log;
  }

  /** A phase change is refused exactly when the phase is no longer what was read. */
  method ChangePhase(session: Id, log: seq<SemanticEvent>, ghost seen: Queue, from: SessionPhase, to: SessionPhase, reason: string, maxTurns: nat, most: nat)
    returns (after: seq<SemanticEvent>, ok: bool)
    requires Well(session, log, maxTurns) && SessionLocks.Still(seen, At(session, log).queue) && from in AllowedSources(to)
    ensures Well(session, after, maxTurns) && SessionLocks.Still(seen, At(session, after).queue) && log <= after
    ensures NoMore(session, log, after, maxTurns, most)
    ensures ok <==> At(session, log).state.phase == from
    ensures At(session, after).queue.runs == At(session, log).queue.runs
    ensures ok ==> At(session, after).state.phase == to
    ensures after == if ok then log + [SessionEv(SessionPhaseChanged(from, to, Some(reason)))] else log
  {
    hide Fold, Disciplined, ChancesOf, SessionLocks.Still;
    var e := SessionEv(SessionPhaseChanged(from, to, Some(reason)));
    PhaseAppend(session, log, from, to, reason, maxTurns);
    ok := Accepted(session, log + [e]);
    if ok {
      QuietStands(session, log, e, seen, maxTurns);
      QuietAppend(session, log, e, maxTurns);
      OwnEvent(session, log, e, maxTurns, most);
    } else {
      Nothing(session, log, maxTurns, most);
    }
    after := if ok then log + [e] else log;
  }

  /** A start from what was read, if it is still accepted, is the start the numbering asks for. */
  lemma StartIsNext(session: Id, log: seq<SemanticEvent>, seen: Queue, r: Id, attemptId: Id, maxTurns: nat)
    requires Well(session, log, maxTurns) && SessionLocks.Still(seen, At(session, log).queue) && r in seen.runs
    requires seen.runs[r].status == Queued || (seen.runs[r].status == RequiresAction && seen.runs[r].attempts < maxTurns)
    ensures r in At(session, log).queue.runs
    ensures var run, e := At(session, log).queue.runs[r], RunEv(RunStarted(r, attemptId, seen.runs[r].attempts + 1));
            && run.attempts == seen.runs[r].attempts
            && (Accepted(session, log + [e]) <==> run.status == seen.runs[r].status)
  {
    var e := RunEv(RunStarted(r, attemptId, seen.runs[r].attempts + 1));
    ReplayOne(Fold(session, log).value, |log| + 1, e);
    ReplayAppend(New(session), 1, log, [e]);
    RunEventMeaning(At(session, log).queue, e.run);
    hide Fold, Replay, StepRun, RunsWith, Disciplined;
  }

  /** Start a run as it was read, if it can still be started, and execute its turn. */
  method TakeTurn(session: Id, log: seq<SemanticEvent>, seen: Queue, r: Id, turn: Turn, maxTurns: nat, most: nat)
    returns (after: seq<SemanticEvent>, ok: bool)
    requires Well(session, log, maxTurns) && SessionLocks.Still(seen, At(session, log).queue) && r in seen.runs
    requires seen.runs[r].status == Queued || (seen.runs[r].status == RequiresAction && seen.runs[r].attempts < maxTurns)
    ensures Well(session, after, maxTurns) && log <= after
    ensures ok ==> Less(session, log, after, maxTurns, most)
    ensures turn.between == [] && At(session, log).queue.runs == seen.runs ==> ok
    ensures OnlyStarts(after, |log|, {r})
    ensures turn.between == [] && ok ==> log + [RunEv(RunStarted(r, turn.attemptId, seen.runs[r].attempts + 1))] <= after
  {
    hide Fold, Disciplined, ChancesOf, Accepted, SessionLocks.Still, NoMore, Less;
    after := OthersAppend(session, log, seen, turn.between, maxTurns, most);
    StartIsNext(session, after, seen, r, turn.attemptId, maxTurns);
    var e := RunEv(RunStarted(r, turn.attemptId, seen.runs[r].attempts + 1));
    ok := Accepted(session, after + [e]);
    if ok {
      StartAppend(session, after, r, turn.attemptId, maxTurns);
      OwnEvent(session, after, e, maxTurns, most);
      Then(session, log, after, after + [e], maxTurns, most);
      ghost var started := after + [e];
      after := ExecuteTurn(session, after + [e], r, turn.events, maxTurns, most);
      Then(session, log, started, after, maxTurns, most);
    }
  }

  // ---------------------------------------------------------------- the native-call loop

  /** The calls the loop looks for: native, approved, neither claimed nor answered. */
  function Eligible(p: Projection, r: Id): set<Id>
    requires r in p.queue.runs
  {
    var calls := p.queue.runs[r].toolCalls;
    set c | c in calls && NativeClaims.Eligible(p, r, c)
  }

  /** The log after a claim on an eligible call and its result, if the execution reports one (a delegated child
      reports later). */
  function ClaimAndReport(r: Id, call: ToolCall, execution: Id, result: Option<Json>): seq<SemanticEvent> {
    [ToolEv(ToolExecutionStarted(r, call.callId, execution))]
    + (if result.Some? then [ToolEv(ToolResult(r, call.callId, call.agentId, call.toolName, result.value))] else [])
  }

  lemma ClaimReplay(p: Projection, n: EventId, r: Id, c: Id, execution: Id, result: Option<Json>)
    requires r in p.queue.runs && c in Eligible(p, r) && p.queue.runs[r].toolCalls[c].callId == c
    ensures var o := Replay(p, n, ClaimAndReport(r, p.queue.runs[r].toolCalls[c], execution, result));
            && o.Ok()
            && o.value.permissions == p.permissions && o.value.queue.paused == p.queue.paused
            && o.value.queue.runs ==
               p.queue.runs[r := p.queue.runs[r].(toolCalls :=
                 p.queue.runs[r].toolCalls[c := p.queue.runs[r].toolCalls[c].(executionId := Some(execution), result := result)])]
  {
    var call := p.queue.runs[r].toolCalls[c];
    var e1 := ToolEv(ToolExecutionStarted(r, c, execution));
    ReplayOne(p, n, e1);
    if result.Some? {
      var e2 := ToolEv(ToolResult(r, c, call.agentId, call.toolName, result.value));
      ReplayAppend(p, n, [e1], [e2]);
      var q := Step(p, n, e1).value;
      ReplayOne(q, n + 1, e2);
      var claimed := call.(executionId := Some(execution));
      var done := claimed.(result := result);
      assert q.queue.runs[r].toolCalls == p.queue.runs[r].toolCalls[c := claimed];
      assert p.queue.runs[r].toolCalls[c := claimed][c := done] == p.queue.runs[r].toolCalls[c := done];
      var run := p.queue.runs[r].(toolCalls := p.queue.runs[r].toolCalls[c := done]);
      assert p.queue.runs[r := q.queue.runs[r]][r := run] == p.queue.runs[r := run];
    }
  }

  predicate CallIds(p: Projection, r: Id) {
    r in p.queue.runs && forall c :: c in p.queue.runs[r].toolCalls ==> p.queue.runs[r].toolCalls[c].callId == c
  }

  /** Claiming uses the call up, and makes no other call eligible. */
  lemma ClaimUsesUp(p: Projection, n: EventId, r: Id, c: Id, execution: Id, result: Option<Json>)
    requires CallIds(p, r) && c in Eligible(p, r)
    ensures var o := Replay(p, n, ClaimAndReport(r, p.queue.runs[r].toolCalls[c], execution, result));
            && o.Ok() && CallIds(o.value, r) && r in o.value.queue.runs
            && Eligible(o.value, r) == Eligible(p, r) - {c}
            && o.value.queue.runs[r].toolCalls.Keys == p.queue.runs[r].toolCalls.Keys
            && o.value.queue.runs[r].toolCalls[c] == p.queue.runs[r].toolCalls[c].(executionId := Some(execution), result := result)
            && (forall d :: d in p.queue.runs[r].toolCalls && d != c ==>
                  d in o.value.queue.runs[r].toolCalls && o.value.queue.runs[r].toolCalls[d] == p.queue.runs[r].toolCalls[d])
  {
    ClaimReplay(p, n, r, c, execution, result);
    hide Replay, ClaimAndReport;
    var q := Replay(p, n, ClaimAndReport(r, p.queue.runs[r].toolCalls[c], execution, result)).value;
    forall d ensures NativeClaims.Approved(q, r, d) == NativeClaims.Approved(p, r, d) {
      assert q.permissions == p.permissions;
    }
  }

  /** Exactly the calls in `done` were executed, each carries its execution and the result that gave, and is otherwise as before. */
  predicate Executed(was: map<Id, ToolCall>, now: map<Id, ToolCall>, done: set<Id>, executions: Id -> Id, results: Id -> Option<Json>) {
    && now.Keys == was.Keys && done <= was.Keys
    && (forall c :: c in done ==> now[c] == was[c].(executionId := Some(executions(c)), result := results(c)))
    && (forall c :: c in was && c !in done ==> now[c] == was[c])
  }

  lemma ExecutedNone(calls: map<Id, ToolCall>, executions: Id -> Id, results: Id -> Option<Json>)
    ensures Executed(calls, calls, {}, executions, results)
  {
  }

  lemma ExecutedNext(was: map<Id, ToolCall>, before: map<Id, ToolCall>, now: map<Id, ToolCall>, done: set<Id>, c: Id, executions: Id -> Id,
                    results: Id -> Option<Json>)
    requires Executed(was, before, done, executions, results) && c in before && c !in done && now.Keys == before.Keys
    requires now[c] == before[c].(executionId := Some(executions(c)), result := results(c))
    requires forall d :: d in before && d != c ==> now[d] == before[d]
    ensures Executed(was, now, done + {c}, executions, results)
  {
  }

  /** One iteration. */
  lemma ExecuteStep(p: Projection, n: EventId, events: seq<SemanticEvent>, q: Projection, r: Id, c: Id, executions: Id -> Id, results: Id -> Option<Json>)
    requires Replay(p, n, events) == Outcome(q, None)
    requires r in p.queue.runs && r in q.queue.runs && CallIds(p, r) && CallIds(q, r)
    requires c in Eligible(q, r) && Eligible(q, r) <= Eligible(p, r) && c in q.queue.runs[r].toolCalls
    requires Executed(p.queue.runs[r].toolCalls, q.queue.runs[r].toolCalls, Eligible(p, r) - Eligible(q, r), executions, results)
    ensures var more := ClaimAndReport(r, q.queue.runs[r].toolCalls[c], executions(c), results(c));
            var after := Replay(q, n + |events|, more).value;
            && Replay(p, n, events + more) == Outcome(after, None)
            && CallIds(after, r) && r in after.queue.runs
            && Eligible(after, r) == Eligible(q, r) - {c}
            && Executed(p.queue.runs[r].toolCalls, after.queue.runs[r].toolCalls, Eligible(p, r) - Eligible(after, r), executions, results)
  {
    hide Replay, Eligible, ClaimAndReport, Executed, CallIds, Step;
    ClaimUsesUp(q, n + |events|, r, c, executions(c), results(c));
    var more := ClaimAndReport(r, q.queue.runs[r].toolCalls[c], executions(c), results(c));
    var after := Replay(q, n + |events|, more).value;
    ReplayAppend(p, n, events, more);
    ExecutedNext(p.queue.runs[r].toolCalls, q.queue.runs[r].toolCalls, after.queue.runs[r].toolCalls,
                 Eligible(p, r) - Eligible(q, r), c, executions, results);
    OneLess(Eligible(p, r), Eligible(q, r), c);
  }

  lemma OneLess(all: set<Id>, left: set<Id>, c: Id)
    requires left <= all && c in left
    ensures all - (left - {c}) == all - left + {c}
  {
  }

  /** The loop ends with no eligible call left. Exactly the calls that were eligible have been claimed, each carries
      its execution and what that gave, and the queue is resumed exactly when the run then has everything it waited for. */
  method ExecuteApproved(p: Projection, n: EventId, r: Id, executions: Id -> Id, results: Id -> Option<Json>)
    returns (events: seq<SemanticEvent>, resumed: bool)
    requires CallIds(p, r)
    ensures var o := Replay(p, n, events);
            && o.Ok() && r in o.value.queue.runs
            && Eligible(o.value, r) == {}
            && Executed(p.queue.runs[r].toolCalls, o.value.queue.runs[r].toolCalls, Eligible(p, r), executions, results)
            && (resumed <==> o.value.queue.runs[r].status == RequiresAction && AllResults(o.value.queue.runs[r]))
            && (resumed ==> !o.value.queue.paused)
  {
    hide Replay, Step, Eligible, ClaimAndReport, Executed, AllResults, CallIds;
    EligibleAreCalls(p, r);
    events := [];
    ExecutedNone(p.queue.runs[r].toolCalls, executions, results);
    var q := p;
    ReplayNone(p, n);
    assert Eligible(p, r) - Eligible(p, r) == {};
    while Eligible(q, r) != {}
      invariant Replay(p, n, events) == Outcome(q, None) && CallIds(q, r) && r in q.queue.runs
      invariant Eligible(q, r) <= Eligible(p, r)
      invariant Executed(p.queue.runs[r].toolCalls, q.queue.runs[r].toolCalls, Eligible(p, r) - Eligible(q, r), executions, results)
      decreases Eligible(q, r)
    {
      EligibleAreCalls(q, r);
      var c := First(Eligible(q, r));
      ExecuteStep(p, n, events, q, r, c, executions, results);
      var more := ClaimAndReport(r, q.queue.runs[r].toolCalls[c], executions(c), results(c));
      q := Replay(q, n + |events|, more).value;
      events := events + more;
    }
    assert Eligible(p, r) - Eligible(q, r) == Eligible(p, r);
    resumed := q.queue.runs[r].status == RequiresAction && AllResults(q.queue.runs[r]);
    if resumed {
      ReplayAppend(p, n, events, [QueueResumed]);
      ResumeReplay(q, n + |events|, r);
      events := events + [QueueResumed];
    }
  }

  lemma EligibleAreCalls(p: Projection, r: Id)
    requires CallIds(p, r)
    ensures r in p.queue.runs && forall c :: c in Eligible(p, r) ==> c in p.queue.runs[r].toolCalls
  {
  }

  lemma ResumeReplay(p: Projection, n: EventId, r: Id)
    requires CallIds(p, r)
    ensures var o := Replay(p, n, [QueueResumed]);
            && o.Ok() && o.value.queue == Queue(p.queue.runs, false) && o.value.permissions == p.permissions
            && Eligible(o.value, r) == Eligible(p, r)
  {
    ReplayOne(p, n, QueueResumed);
    assert Step(p, n, QueueResumed).value.permissions == p.permissions;
  }
}
