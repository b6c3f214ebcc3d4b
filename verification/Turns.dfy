/** How often a run can start. The worker numbers each start from the attempts it read, and gives a run that waits
    for action another turn only below the limit (`process_session` and `execute_run` in
    piqo-server/src/supervisor.rs). */
module Turns {
  import opened Prelude
  import opened Events
  import opened Session
  import opened Ledger

  predicate Starts(e: SemanticEvent, r: Id) { e.RunEv? && e.run.RunStarted? && e.run.runId == r }

  function StartCount(log: seq<SemanticEvent>, r: Id): nat
    decreases |log|
  {
    if log == [] then 0
    else StartCount(log[..|log| - 1], r) + (if Starts(log[|log| - 1], r) then 1 else 0)
  }

  /** The number the run's latest start carries, or 0. */
  function LastStart(log: seq<SemanticEvent>, r: Id): nat
    decreases |log|
  {
    if log == [] then 0
    else if Starts(log[|log| - 1], r) then log[|log| - 1].run.attempt
    else LastStart(log[..|log| - 1], r)
  }

  function MostStarts(maxTurns: nat): nat { if maxTurns > 1 then maxTurns else 1 }

  /** The numbering the supervisor follows: a start counts one more than the attempts read, a waiting run is started
      only below the limit, and an attempt within a turn is numbered from the turn's start. */
  predicate Numbered(q: Queue, lastStart: nat, e: SemanticEvent, maxTurns: nat) {
    && (e.RunEv? && e.run.RunStarted? && e.run.runId in q.runs ==>
          && e.run.attempt == q.runs[e.run.runId].attempts + 1
          && (q.runs[e.run.runId].status == RequiresAction ==> q.runs[e.run.runId].attempts < maxTurns))
    && (e.RunEv? && e.run.RunAttemptStarted? ==> e.run.attempt >= lastStart)
  }

  function RunOf(e: SemanticEvent): Id { if e.RunEv? then e.run.runId else "" }

  predicate Disciplined(sessionId: Id, log: seq<SemanticEvent>, maxTurns: nat)
    decreases |log|
  {
    log == [] ||
    var n := |log| - 1;
    && Disciplined(sessionId, log[..n], maxTurns)
    && Numbered(Fold(sessionId, log[..n]).value.queue, LastStart(log[..n], RunOf(log[n])), log[n], maxTurns)
  }

  /** The facts about one run that every step keeps. */
  predicate Counted(q: Queue, r: Id, starts: nat, lastStart: nat, maxTurns: nat) {
    && starts <= lastStart <= MostStarts(maxTurns)
    && (if r in q.runs then lastStart <= q.runs[r].attempts && (q.runs[r].status == Queued ==> q.runs[r].attempts == 0)
        else lastStart == 0)
  }

  lemma CountedStep(p: Projection, id: EventId, e: SemanticEvent, r: Id, starts: nat, lastStart: nat, maxTurns: nat)
    requires Step(p, id, e).Ok() && Counted(p.queue, r, starts, lastStart, maxTurns)
    requires RunOf(e) == r ==> Numbered(p.queue, lastStart, e, maxTurns)
    ensures Counted(Step(p, id, e).value.queue, r,
                    starts + (if Starts(e, r) then 1 else 0),
                    if Starts(e, r) then e.run.attempt else lastStart, maxTurns)
  {
    if e.RunEv? {
      RunEventMeaning(p.queue, e.run);
    }
  }

  lemma {:induction false} LogCounted(sessionId: Id, log: seq<SemanticEvent>, r: Id, maxTurns: nat)
    requires Accepted(sessionId, log) && Disciplined(sessionId, log, maxTurns)
    ensures Counted(Fold(sessionId, log).value.queue, r, StartCount(log, r), LastStart(log, r), maxTurns)
    decreases |log|
  {
    if log != [] {
      var n := |log| - 1;
      FoldLast(sessionId, log);
      LogCounted(sessionId, log[..n], r, maxTurns);
      hide Step, Fold, Counted, Numbered;
      CountedStep(Fold(sessionId, log[..n]).value, n + 1, log[n], r, StartCount(log[..n], r), LastStart(log[..n], r), maxTurns);
    }
  }

  /** Main result: in a log the supervisor wrote, a run never starts more often than it has attempts on record, nor
      more often than the turn limit allows (once, if the limit is 0). */
  lemma TurnBound(sessionId: Id, log: seq<SemanticEvent>, r: Id, maxTurns: nat)
    requires Accepted(sessionId, log) && Disciplined(sessionId, log, maxTurns)
    ensures StartCount(log, r) <= 1 || StartCount(log, r) <= maxTurns
    ensures r in Fold(sessionId, log).value.queue.runs ==> StartCount(log, r) <= Fold(sessionId, log).value.queue.runs[r].attempts
    ensures r !in Fold(sessionId, log).value.queue.runs ==> StartCount(log, r) == 0
  {
    LogCounted(sessionId, log, r, maxTurns);
  }

  // ---------------------------------------------------------------- the turns that are left

  predicate OpenRun(q: Queue, r: Id) { r in q.runs && !Terminal(q.runs[r].status) }

  /** The turns open runs can still take. */
  function Chances(q: Queue, log: seq<SemanticEvent>, maxTurns: nat): set<(Id, nat)> {
    set r, i | r in q.runs.Keys && 0 <= i < MostStarts(maxTurns) + 1 && OpenRun(q, r) && LastStart(log, r) <= i :: (r, i)
  }

  function ChancesOf(sessionId: Id, log: seq<SemanticEvent>, maxTurns: nat): set<(Id, nat)> {
    Chances(Fold(sessionId, log).value.queue, log, maxTurns)
  }

  lemma OpenStep(p: Projection, id: EventId, e: SemanticEvent, r: Id)
    requires Step(p, id, e).Ok()
    ensures OpenRun(Step(p, id, e).value.queue, r) ==> OpenRun(p.queue, r) || (e.RunEv? && e.run.RunQueued? && e.run.runId == r)
    ensures Ending(e, r).Some? ==> OpenRun(p.queue, r) && !OpenRun(Step(p, id, e).value.queue, r)
    ensures Starts(e, r) ==> OpenRun(p.queue, r)
  {
    if e.RunEv? {
      RunEventMeaning(p.queue, e.run);
    }
  }

  /** Without new submissions the turns that are left never grow; a start or an end takes some away. */
  lemma ChancesShrink(sessionId: Id, log: seq<SemanticEvent>, e: SemanticEvent, r: Id, maxTurns: nat)
    requires Accepted(sessionId, log + [e]) && Disciplined(sessionId, log + [e], maxTurns)
    requires !(e.RunEv? && e.run.RunQueued?)
    ensures ChancesOf(sessionId, log + [e], maxTurns) <= ChancesOf(sessionId, log, maxTurns)
    ensures Starts(e, r) || Ending(e, r).Some? ==> ChancesOf(sessionId, log + [e], maxTurns) < ChancesOf(sessionId, log, maxTurns)
  {
    var more := log + [e];
    assert more[..|log|] == log;
    FoldLast(sessionId, more);
    var p, q := Fold(sessionId, log).value, Fold(sessionId, more).value;
    LogCounted(sessionId, log, r, maxTurns);
    hide Step, Fold, Disciplined;
    forall x ensures LastStart(log, x) <= LastStart(more, x) || !OpenRun(q.queue, x)
             ensures OpenRun(q.queue, x) ==> OpenRun(p.queue, x)
    {
      OpenStep(p, |log| + 1, e, x);
      if Starts(e, x) {
        LogCounted(sessionId, log, x, maxTurns);
        LastDisciplined(sessionId, log, e, maxTurns);
      }
    }
    OpenStep(p, |log| + 1, e, r);
    LastDisciplined(sessionId, log, e, maxTurns);
    LogCounted(sessionId, more, r, maxTurns);
    ChancesCompare(p.queue, log, q.queue, more, r, maxTurns);
  }

  lemma LastDisciplined(sessionId: Id, log: seq<SemanticEvent>, e: SemanticEvent, maxTurns: nat)
    ensures Disciplined(sessionId, log + [e], maxTurns) <==>
              && Disciplined(sessionId, log, maxTurns)
              && Numbered(Fold(sessionId, log).value.queue, LastStart(log, RunOf(e)), e, maxTurns)
  {
    assert (log + [e])[..|log|] == log;
  }

  lemma ChancesCompare(p: Queue, log: seq<SemanticEvent>, q: Queue, more: seq<SemanticEvent>, r: Id, maxTurns: nat)
    requires forall x :: OpenRun(q, x) ==> OpenRun(p, x) && LastStart(log, x) <= LastStart(more, x)
    ensures Chances(q, more, maxTurns) <= Chances(p, log, maxTurns)
    ensures OpenRun(p, r) && LastStart(log, r) <= MostStarts(maxTurns) && (OpenRun(q, r) ==> LastStart(log, r) < LastStart(more, r)) ==>
              Chances(q, more, maxTurns) < Chances(p, log, maxTurns)
  {
    hide LastStart;
    if OpenRun(p, r) && LastStart(log, r) <= MostStarts(maxTurns) && (OpenRun(q, r) ==> LastStart(log, r) < LastStart(more, r)) {
      assert (r, LastStart(log, r)) in Chances(p, log, maxTurns);
      assert (r, LastStart(log, r)) !in Chances(q, more, maxTurns);
    }
  }
}
