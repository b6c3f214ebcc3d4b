/** The in-memory event log (piqo-core/src/event_log.rs). */
module EventLogs {
  import opened Prelude
  import opened Events

  predicate Numbered(events: seq<RecordedEvent>) { forall i :: 0 <= i < |events| ==> events[i].id == i + 1 }

  /** Filtering numbered events by id cuts them in two. */
  lemma FilterCuts(events: seq<RecordedEvent>, at: EventId)
    requires Numbered(events)
    ensures var k := if at < |events| then at else |events|;
            && Filter(events, (e: RecordedEvent) => e.id <= at) == events[..k]
            && Filter(events, (e: RecordedEvent) => e.id > at) == events[k..]
  {
    hide Filter;
    FilterSplits(events, at, (e: RecordedEvent) => e.id <= at, (e: RecordedEvent) => e.id > at);
  }

  /** A test for the ids up to `at`, and one for the others. */
  lemma {:induction false} FilterSplits(events: seq<RecordedEvent>, at: EventId, upTo: RecordedEvent -> bool, beyond: RecordedEvent -> bool)
    requires forall i :: 0 <= i < |events| ==> (upTo(events[i]) <==> i < at) && (beyond(events[i]) <==> i >= at)
    ensures var k := if at < |events| then at else |events|;
            Filter(events, upTo) == events[..k] && Filter(events, beyond) == events[k..]
    decreases |events|
  {
    if events != [] {
      var n := |events| - 1;
      FilterSplits(events[..n], at, upTo, beyond);
      SlicesGrow(events, at);
    }
  }

  lemma SlicesGrow(events: seq<RecordedEvent>, at: nat)
    requires events != []
    ensures var n := |events| - 1;
            if at <= n then
              events[..n][..at] == events[..at] && events[..n][at..] + [events[n]] == events[at..]
            else
              events[..n] + [events[n]] == events && events[|events|..] == [] && events[..n][n..] == []
  {
  }

  class EventLog {
    var events: seq<RecordedEvent>

    predicate Valid()
      reads this
    {
      Numbered(events)
    }

    constructor ()
      ensures Valid() && events == []
    {
      events := [];
    }

    function LastId(): (r: Option<EventId>)
      requires Valid()
      reads this
      ensures r == if events == [] then None else Some(|events|)
    {
      if events == [] then None else Some(events[|events| - 1].id)
    }

    method AppendForSession(sessionId: Id, event: SemanticEvent) returns (id: EventId)
      requires Valid()
      modifies this
      ensures Valid() && id == |old(events)| + 1
      ensures events == old(events) + [RecordedEvent(id, sessionId, 1, event)]
    {
      id := if LastId().Some? then LastId().value + 1 else 1;
      events := events + [RecordedEvent(id, sessionId, 1, event)];
    }

    method Append(event: SemanticEvent) returns (id: EventId)
      requires Valid()
      modifies this
      ensures Valid() && id == |old(events)| + 1
      ensures events == old(events) + [RecordedEvent(id, "", 1, event)]
    {
      id := AppendForSession("", event);
    }

    function ReplayFrom(after: EventId): seq<RecordedEvent>
      reads this
    {
      Filter(events, (e: RecordedEvent) => e.id > after)
    }

    /** A branch with the history through an event that exists. What was cut off is what a replay from there gives:
        the branch and the replay make up the log. */
    method ForkAt(at: EventId) returns (fork: EventLog?)
      requires Valid()
      ensures fork == null <==> !(1 <= at <= |events|)
      ensures fork != null ==> fresh(fork) && fork.Valid() && |fork.events| == at && fork.events + ReplayFrom(at) == events
    {
      FilterCuts(events, at);
      if !(exists e :: e in events && e.id == at) {
        if 1 <= at <= |events| {
          HasId(events, at);
        }
        return null;
      }
      var branch := new EventLog();
      branch.events := Filter(events, (e: RecordedEvent) => e.id <= at);
      return branch;
    }
  }

  lemma HasId(events: seq<RecordedEvent>, at: EventId)
    requires Numbered(events) && 1 <= at <= |events|
    ensures exists e :: e in events && e.id == at
  {
    assert events[at - 1] in events;
  }

  /** Forking at an event and replaying from it rebuilds the log, at every event. */
  lemma ForkThenReplay(events: seq<RecordedEvent>, at: EventId)
    requires Numbered(events)
    ensures Filter(events, (e: RecordedEvent) => e.id <= at) + Filter(events, (e: RecordedEvent) => e.id > at) == events
  {
    FilterCuts(events, at);
  }
}
