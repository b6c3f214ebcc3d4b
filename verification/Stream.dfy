/** Replay, then live: one client follows one session's events (`stream_events` in piqo-server/src/lib.rs, the
    publishing side in piqo-server/src/supervisor.rs).

    Committing an event and publishing it are two steps, and anything can happen in between. The channel keeps
    the last `capacity` publications; a receiver that falls further behind is told so and re-reads the log. The
    client may lose its connection at any time and comes back with the last event it processed. */
module Stream {
  import opened Prelude
  import opened Events

  /** The ids lo + 1, ..., hi: what reading the log after `lo` returns when it ends at `hi`. */
  function Ids(lo: EventId, hi: EventId): (ids: seq<EventId>)
    ensures |ids| == if lo < hi then hi - lo else 0
    ensures forall i :: 0 <= i < |ids| ==> ids[i] == lo + 1 + i
  {
    if lo < hi then seq(hi - lo, i => lo + 1 + i) else []
  }

  predicate Increasing(ids: seq<EventId>) { forall i, j :: 0 <= i < j < |ids| ==> ids[i] < ids[j] }

  // ---------------------------------------------------------------- the connection

  /** What the connection is doing: about to read the log, sending rows it has read, waiting on the channel, or
      told that it missed publications. */
  datatype Mode = Opening | Sending(rows: seq<EventId>) | Live | Behind

  /** `next` is the position in the channel of the next publication this receiver takes. */
  datatype Connection = Connection(lastId: EventId, next: nat, mode: Mode)

  datatype Received = Nothing | Event(id: EventId) | Lagged

  /** What `recv` returns, and where it leaves the receiver. */
  function Recv(sent: seq<EventId>, capacity: nat, next: nat): (r: (Received, nat))
    ensures next <= |sent| ==> next <= r.1 <= |sent|
  {
    if next >= |sent| then (Nothing, next)
    else if next + capacity < |sent| then (Lagged, |sent| - capacity)
    else (Event(sent[next]), next + 1)
  }

  /** The ids a loop yields when it skips every id that is not above the last one. */
  function Fresh(ids: seq<EventId>, last: EventId): (r: seq<EventId>)
    decreases |ids|
  {
    if ids == [] then []
    else
      var n := |ids| - 1;
      var before := Fresh(ids[..n], last);
      if ids[n] > LastOf(before, last) then before + [ids[n]] else before
  }

  function LastOf(ids: seq<EventId>, last: EventId): EventId {
    if ids == [] then last else ids[|ids| - 1]
  }

  lemma {:induction false} FreshIncreases(ids: seq<EventId>, last: EventId)
    ensures Increasing(Fresh(ids, last))
    ensures forall i :: 0 <= i < |Fresh(ids, last)| ==> Fresh(ids, last)[i] > last && Fresh(ids, last)[i] in ids
    ensures forall x :: x in ids ==> x <= LastOf(Fresh(ids, last), last)
  {
    if ids != [] {
      var n := |ids| - 1;
      FreshIncreases(ids[..n], last);
      FreshLast(ids[..n], ids[n], last);
      assert ids == ids[..n] + [ids[n]];
      hide Fresh;
    }
  }

  /** The two loops of the stream: rows read from the log, and messages taken from the channel. */
  class EventStream {
    var lastId: EventId
    var next: nat
    var sent: seq<EventId>

    constructor (after: EventId, position: nat)
      ensures lastId == after && next == position && sent == []
    {
      lastId, next, sent := after, position, [];
    }

    method SendRows(rows: seq<EventId>)
      modifies this
      ensures next == old(next)
      ensures sent == old(sent) + Fresh(rows, old(lastId))
      ensures lastId == LastOf(Fresh(rows, old(lastId)), old(lastId))
    {
      for i := 0 to |rows|
        invariant next == old(next)
        invariant sent == old(sent) + Fresh(rows[..i], old(lastId))
        invariant lastId == LastOf(Fresh(rows[..i], old(lastId)), old(lastId))
      {
        assert rows[..i + 1][..i] == rows[..i];
        if rows[i] > lastId {
          lastId := rows[i];
          sent := sent + [rows[i]];
        }
      }
      assert rows[..|rows|] == rows;
    }

    /** Take one message. A receiver that has fallen behind reads the log again, up to `reach`. */
    method Take(channel: seq<EventId>, capacity: nat, reach: EventId)
      requires next < |channel| && capacity > 0
      modifies this
      ensures next == Recv(channel, capacity, old(next)).1 && old(next) < next <= |channel|
      ensures var ids := if Recv(channel, capacity, old(next)).0.Lagged? then Ids(old(lastId), reach) else [channel[old(next)]];
              sent == old(sent) + Fresh(ids, old(lastId)) && lastId == LastOf(Fresh(ids, old(lastId)), old(lastId))
    {
      var (message, after) := Recv(channel, capacity, next);
      if message.Lagged? {
        SendRows(Ids(lastId, reach));
      } else {
        assert [channel[next]][..0] == [];
        if message.id > lastId {
          lastId := message.id;
          sent := sent + [message.id];
        }
      }
      next := after;
    }

    /** Take messages until the channel is empty. Re-reads find the log reaching up to `reach`. */
    method Drain(channel: seq<EventId>, capacity: nat, reach: EventId)
      requires next <= |channel| && capacity > 0
      modifies this
      ensures next == |channel|
      ensures old(sent) <= sent
      ensures var added := sent[|old(sent)|..];
              && Increasing(added)
              && (forall i :: 0 <= i < |added| ==> old(lastId) < added[i])
              && (forall i :: 0 <= i < |added| ==> added[i] in channel || added[i] <= reach)
              && lastId == LastOf(added, old(lastId))
              && (|channel| <= old(next) + capacity ==> added == Fresh(channel[old(next)..], old(lastId)))
    {
      hide Fresh, Increasing, Ids, LastOf;
      ghost var taken: seq<EventId> := [];
      NothingTaken(lastId);
      assert channel[next..next] == [];
      while next < |channel|
        invariant old(next) <= next <= |channel|
        invariant sent == old(sent) + taken && lastId == LastOf(taken, old(lastId))
        invariant Increasing(taken)
        invariant forall i :: 0 <= i < |taken| ==> old(lastId) < taken[i]
        invariant forall i :: 0 <= i < |taken| ==> taken[i] in channel || taken[i] <= reach
        invariant |channel| <= old(next) + capacity ==> taken == Fresh(channel[old(next)..next], old(lastId))
        decreases |channel| - next
      {
        ghost var n, last := next, lastId;
        Take(channel, capacity, reach);
        ghost var ids := if Recv(channel, capacity, n).0.Lagged? then Ids(last, reach) else [channel[n]];
        if |channel| <= old(next) + capacity {
          assert channel[old(next)..n] + [channel[n]] == channel[old(next)..n + 1];
          FreshLast(channel[old(next)..n], channel[n], old(lastId));
          FreshOne(channel[n], last);
        }
        TakenIds(channel, n, capacity, last, reach);
        AppendIncreasing(taken, Fresh(ids, last), old(lastId));
        taken := taken + Fresh(ids, last);
      }
      assert channel[old(next)..next] == channel[old(next)..];
      assert sent[|old(sent)|..] == taken;
    }
  }

  lemma NothingTaken(last: EventId)
    ensures Fresh([], last) == [] && Increasing([]) && LastOf([], last) == last
  {
  }

  /** What one message brings. */
  lemma TakenIds(channel: seq<EventId>, n: nat, capacity: nat, last: EventId, reach: EventId)
    requires n < |channel|
    ensures var ids := if Recv(channel, capacity, n).0.Lagged? then Ids(last, reach) else [channel[n]];
            && Increasing(Fresh(ids, last))
            && (forall i :: 0 <= i < |Fresh(ids, last)| ==>
                  last < Fresh(ids, last)[i] && (Fresh(ids, last)[i] in channel || Fresh(ids, last)[i] <= reach))
  {
    FreshIncreases(if Recv(channel, capacity, n).0.Lagged? then Ids(last, reach) else [channel[n]], last);
  }

  lemma FreshOne(x: EventId, last: EventId)
    ensures Fresh([x], last) == if x > last then [x] else []
  {
    assert [x][..0] == [];
  }

  lemma AppendIncreasing(a: seq<EventId>, b: seq<EventId>, last: EventId)
    requires Increasing(a) && Increasing(b)
    requires forall i :: 0 <= i < |b| ==> b[i] > LastOf(a, last)
    requires forall i :: 0 <= i < |a| ==> a[i] > last
    ensures Increasing(a + b)
    ensures forall i :: 0 <= i < |a + b| ==> (a + b)[i] > last
    ensures LastOf(a + b, last) == LastOf(b, LastOf(a, last))
  {
  }

  /** The ids after `base`, with none left out. */
  predicate Consecutive(ids: seq<EventId>, base: EventId) {
    forall i :: 0 <= i < |ids| ==> ids[i] == base + 1 + i
  }

  lemma ConsecutiveHolds(ids: seq<EventId>, base: EventId, x: EventId)
    requires Consecutive(ids, base) && base < x <= base + |ids|
    ensures x in ids
  {
    assert ids[x - base - 1] == x;
  }

  lemma NextConsecutive(ids: seq<EventId>, base: EventId, x: EventId)
    requires Consecutive(ids, base) && x !in ids && x > base
    ensures x > base + |ids|
    ensures Consecutive(ids + [x], base) <==> x == base + |ids| + 1
    ensures LastOf(ids, base) == base + |ids|
  {
    if x <= base + |ids| {
      ConsecutiveHolds(ids, base, x);
    }
    assert (ids + [x])[|ids|] == x;
  }

  lemma FreshLast(ids: seq<EventId>, x: EventId, last: EventId)
    ensures var before := Fresh(ids, last);
            Fresh(ids + [x], last) == if x > LastOf(before, last) then before + [x] else before
  {
    assert (ids + [x])[..|ids|] == ids;
  }

  lemma ConsecutivePrefix(ids: seq<EventId>, x: EventId, base: EventId)
    requires Consecutive(ids + [x], base)
    ensures Consecutive(ids, base)
  {
    assert forall i :: 0 <= i < |ids| ==> ids[i] == (ids + [x])[i];
  }

  lemma UnbrokenNext(before: seq<EventId>, x: EventId, base: EventId)
    requires Consecutive(Fresh(before, base), base) <==> Consecutive(before, base)
    requires Consecutive(before, base) ==> Fresh(before, base) == before
    requires x !in before && x > base
    ensures Consecutive(Fresh(before + [x], base), base) <==> Consecutive(before + [x], base)
    ensures Consecutive(before + [x], base) ==> Fresh(before + [x], base) == before + [x]
  {
    hide Fresh, Consecutive;
    FreshLast(before, x, base);
    if Consecutive(before, base) {
      NextConsecutive(before, base, x);
    } else {
      if Consecutive(before + [x], base) {
        ConsecutivePrefix(before, x, base);
      }
      if Consecutive(Fresh(before, base) + [x], base) {
        ConsecutivePrefix(Fresh(before, base), x, base);
      }
    }
  }

  /** A connection that never lags, opened before the first publication, delivers every event exactly when events
      are published in the order they were committed. */
  lemma {:induction false} UnbrokenExactlyInOrder(published: seq<EventId>, base: EventId)
    requires forall i :: 0 <= i < |published| ==> published[i] > base
    requires forall i, j :: 0 <= i < j < |published| ==> published[i] != published[j]
    ensures Consecutive(Fresh(published, base), base) <==> Consecutive(published, base)
    ensures Consecutive(published, base) ==> Fresh(published, base) == published
  {
    if published != [] {
      var n := |published| - 1;
      assert published == published[..n] + [published[n]];
      UnbrokenExactlyInOrder(published[..n], base);
      UnbrokenNext(published[..n], published[n], base);
    }
  }

  // ---------------------------------------------------------------- the whole system

  /** One session's log and channel, and one client that started at `cursor`. `base` is how long the log was
      when the server started; the events up to there were never published by it. */
  datatype System = System(
    base: EventId,
    committed: EventId,
    published: seq<EventId>,
    capacity: nat,
    cursor: EventId,
    connection: Option<Connection>,
    wire: seq<EventId>,
    processed: seq<EventId>)

  datatype Step =
    | Commit(events: nat)
    | Publish(id: EventId)
    | Restart
    | Connect
    | ReadLog
    | SendRow
    | Receive
    | Process
    | Disconnect

  /** The connection's next move, with the ids it yields. */
  function Yield(c: Connection, id: EventId): (Connection, seq<EventId>) {
    if id > c.lastId then (c.(lastId := id), [id]) else (c, [])
  }

  predicate Moves(s: System, moved: (Connection, seq<EventId>), s': System) {
    s' == s.(connection := Some(moved.0), wire := s.wire + moved.1)
  }

  predicate DoSend(s: System, s': System) {
    && s.connection.Some? && s.connection.value.mode.Sending?
    && (var c := s.connection.value;
        if c.mode.rows == [] then Moves(s, (c.(mode := Live), []), s')
        else Moves(s, Yield(c.(mode := Sending(c.mode.rows[1..])), c.mode.rows[0]), s'))
  }

  predicate DoReceive(s: System, s': System) {
    && s.connection.Some? && s.connection.value.mode.Live?
    && (var c := s.connection.value;
        var (message, next) := Recv(s.published, s.capacity, c.next);
        match message
        case Nothing => s' == s
        case Event(id) => Moves(s, Yield(c.(next := next), id), s')
        case Lagged => Moves(s, (c.(next := next, mode := Behind), []), s'))
  }

  predicate Next(s: System, step: Step, s': System) {
    match step
    case Commit(n) => s' == s.(committed := s.committed + n)
    case Publish(id) => s.base < id <= s.committed && id !in s.published && s' == s.(published := s.published + [id])
    case Restart => s' == s.(base := s.committed, published := [], connection := None, wire := [])
    case Connect =>
      && s.connection.None?
      && s' == s.(connection := Some(Connection(LastOf(s.processed, s.cursor), |s.published|, Opening)), wire := [])
    case ReadLog =>
      && s.connection.Some? && (s.connection.value.mode.Opening? || s.connection.value.mode.Behind?)
      && (var c := s.connection.value;
          Moves(s, (c.(mode := Sending(Ids(c.lastId, s.committed))), []), s'))
    case SendRow => DoSend(s, s')
    case Receive => DoReceive(s, s')
    case Process => s.wire != [] && s' == s.(wire := s.wire[1..], processed := s.processed + [s.wire[0]])
    case Disconnect => s' == s.(connection := None, wire := [])
  }

  /** Everything yielded to the client so far, and not lost. */
  function Delivered(s: System): seq<EventId> { s.processed + s.wire }

  // ---------------------------------------------------------------- always

  /** Increasing ids, above the cursor and committed. */
  predicate Ascending(ids: seq<EventId>, cursor: EventId, committed: EventId) {
    Increasing(ids) && forall i :: 0 <= i < |ids| ==> cursor < ids[i] <= committed
  }

  predicate Published(ids: seq<EventId>, base: EventId, committed: EventId) {
    forall i :: 0 <= i < |ids| ==> base < ids[i] <= committed
  }

  /** Rows being sent go on from the last id, without a gap. */
  predicate RowsFollow(rows: seq<EventId>, last: EventId, committed: EventId) {
    Consecutive(rows, last) && (rows != [] ==> last + |rows| <= committed)
  }

  predicate ConnectionSound(s: System, c: Connection) {
    && c.lastId == LastOf(Delivered(s), s.cursor)
    && c.next <= |s.published|
    && (c.mode.Sending? ==> RowsFollow(c.mode.rows, c.lastId, s.committed))
  }

  predicate Sound(s: System) {
    && s.base <= s.committed && s.capacity > 0
    && Published(s.published, s.base, s.committed)
    && Ascending(Delivered(s), s.cursor, s.committed)
    && (s.connection.None? ==> s.wire == [])
    && (s.connection.Some? ==> ConnectionSound(s, s.connection.value))
  }

  lemma AscendingMore(ids: seq<EventId>, cursor: EventId, committed: EventId, id: EventId)
    requires Ascending(ids, cursor, committed) && LastOf(ids, cursor) < id <= committed
    ensures Ascending(ids + [id], cursor, committed)
    ensures LastOf(ids + [id], cursor) == id
  {
    forall i | 0 <= i < |ids| ensures ids[i] < id {
      assert ids[i] <= ids[|ids| - 1];
    }
  }

  lemma AscendingLess(ids: seq<EventId>, cursor: EventId, committed: EventId, n: nat, later: EventId)
    requires Ascending(ids, cursor, committed) && n <= |ids| && committed <= later
    ensures Ascending(ids[..n], cursor, later)
  {
  }

  lemma PublishedMore(ids: seq<EventId>, base: EventId, committed: EventId, later: EventId)
    requires Published(ids, base, committed) && committed <= later
    ensures Published(ids, base, later)
  {
  }

  lemma RowsNext(rows: seq<EventId>, last: EventId, committed: EventId)
    requires RowsFollow(rows, last, committed) && rows != []
    ensures rows[0] == last + 1 && rows[0] <= committed
    ensures RowsFollow(rows[1..], rows[0], committed)
  {
  }

  lemma RowsRead(last: EventId, committed: EventId)
    ensures RowsFollow(Ids(last, committed), last, committed)
    ensures committed <= last + |Ids(last, committed)|
  {
  }

  lemma YieldSound(s: System, c: Connection, id: EventId, s': System)
    requires Sound(s) && s.connection.Some? && c.lastId == s.connection.value.lastId && c.next <= |s.published|
    requires id <= s.committed && Moves(s, Yield(c, id), s')
    requires c.mode.Sending? ==> id > c.lastId && RowsFollow(c.mode.rows, id, s.committed)
    ensures Sound(s')
  {
    hide Ascending, Published, RowsFollow, LastOf;
    if id > c.lastId {
      AscendingMore(Delivered(s), s.cursor, s.committed, id);
      assert Delivered(s') == Delivered(s) + [id];
    } else {
      assert Delivered(s') == Delivered(s);
    }
  }

  lemma SendSound(s: System, s': System)
    requires Sound(s) && DoSend(s, s')
    ensures Sound(s')
  {
    hide Ascending, Published, RowsFollow, LastOf;
    var c := s.connection.value;
    if c.mode.rows == [] {
      assert Delivered(s') == Delivered(s);
    } else {
      RowsNext(c.mode.rows, c.lastId, s.committed);
      YieldSound(s, c.(mode := Sending(c.mode.rows[1..])), c.mode.rows[0], s');
    }
  }

  lemma ReceiveSound(s: System, s': System)
    requires Sound(s) && DoReceive(s, s')
    ensures Sound(s')
  {
    hide Ascending, LastOf;
    var c := s.connection.value;
    var (message, next) := Recv(s.published, s.capacity, c.next);
    if message.Event? {
      YieldSound(s, c.(next := next), message.id, s');
    } else {
      assert Delivered(s') == Delivered(s);
    }
  }

  lemma StepSound(s: System, step: Step, s': System)
    requires Sound(s) && Next(s, step, s')
    ensures Sound(s')
  {
    hide Ascending, RowsFollow, LastOf, DoSend, DoReceive, Ids;
    match step {
      case Commit(n) => CommitSound(s, n);
      case Publish(id) =>
      case Restart => ShorterIsSound(s, s');
      case Connect => assert Delivered(s') == Delivered(s) == s.processed;
      case ReadLog =>
        RowsRead(s.connection.value.lastId, s.committed);
        assert Delivered(s') == Delivered(s);
      case SendRow => SendSound(s, s');
      case Receive => ReceiveSound(s, s');
      case Process => assert Delivered(s') == Delivered(s);
      case Disconnect => ShorterIsSound(s, s');
    }
  }

  lemma CommitSound(s: System, n: nat)
    requires Sound(s)
    ensures Sound(s.(committed := s.committed + n))
  {
    AscendingLess(Delivered(s), s.cursor, s.committed, |Delivered(s)|, s.committed + n);
    assert Delivered(s)[..|Delivered(s)|] == Delivered(s);
    PublishedMore(s.published, s.base, s.committed, s.committed + n);
    hide Ascending, Published, LastOf;
  }

  lemma ShorterIsSound(s: System, s': System)
    requires Sound(s) && s'.processed == s.processed && s'.wire == [] && s'.connection.None?
    requires s'.committed == s.committed && s'.cursor == s.cursor && s'.capacity == s.capacity
    requires (s'.base == s.base && s'.published == s.published) || (s'.base == s.committed && s'.published == [])
    ensures Sound(s')
  {
    AscendingLess(Delivered(s), s.cursor, s.committed, |s.processed|, s.committed);
    assert Delivered(s') == Delivered(s)[..|s.processed|];
    hide Ascending;
  }

  // ---------------------------------------------------------------- when publication follows commit order

  /** The step publishes, if at all, the next event nobody has published. */
  predicate InOrder(s: System, step: Step) {
    step.Publish? ==> step.id == s.base + |s.published| + 1
  }

  /** The next publication the connection will take is at most one past what it has sent or read. */
  predicate NothingSkipped(s: System, c: Connection) {
    match c.mode
    case Opening => true
    case Behind => true
    case Live => s.base + c.next <= c.lastId
    case Sending(rows) => s.base + c.next <= c.lastId + |rows|
  }

  predicate Unbroken(s: System) {
    && Consecutive(s.published, s.base)
    && s.base + |s.published| <= s.committed
    && Consecutive(Delivered(s), s.cursor)
    && (s.connection.Some? ==> NothingSkipped(s, s.connection.value))
  }

  lemma ConsecutiveMore(ids: seq<EventId>, base: EventId, id: EventId)
    requires Consecutive(ids, base) && LastOf(ids, base) < id <= LastOf(ids, base) + 1
    ensures Consecutive(ids + [id], base)
  {
  }

  lemma ConsecutiveLess(ids: seq<EventId>, base: EventId, n: nat)
    requires Consecutive(ids, base) && n <= |ids|
    ensures Consecutive(ids[..n], base)
    ensures forall i :: 0 <= i < |ids| ==> ids[i] == base + 1 + i
  {
  }

  lemma ConsecutiveNext(ids: seq<EventId>, base: EventId)
    requires Consecutive(ids, base)
    ensures Consecutive(ids + [base + |ids| + 1], base)
  {
  }

  lemma YieldUnbroken(s: System, c: Connection, id: EventId, s': System)
    requires Sound(s) && Unbroken(s) && s.connection.Some? && c.lastId == s.connection.value.lastId
    requires Moves(s, Yield(c, id), s')
    requires id <= c.lastId + 1
    requires NothingSkipped(s, if id > c.lastId then c.(lastId := id) else c)
    ensures Unbroken(s')
  {
    hide Consecutive, Ascending, Published, RowsFollow, LastOf;
    if id > c.lastId {
      ConsecutiveMore(Delivered(s), s.cursor, id);
      assert Delivered(s') == Delivered(s) + [id];
    } else {
      assert Delivered(s') == Delivered(s);
    }
  }

  lemma SendUnbroken(s: System, s': System)
    requires Sound(s) && Unbroken(s) && DoSend(s, s')
    ensures Unbroken(s')
  {
    hide Consecutive, Ascending, Published, LastOf, RowsFollow;
    var c := s.connection.value;
    if c.mode.rows == [] {
      assert Delivered(s') == Delivered(s);
    } else {
      RowsNext(c.mode.rows, c.lastId, s.committed);
      YieldUnbroken(s, c.(mode := Sending(c.mode.rows[1..])), c.mode.rows[0], s');
    }
  }

  lemma ReceiveUnbroken(s: System, s': System)
    requires Sound(s) && Unbroken(s) && DoReceive(s, s')
    ensures Unbroken(s')
  {
    ConsecutiveLess(s.published, s.base, |s.published|);
    hide Consecutive, Ascending, Published, LastOf, RowsFollow;
    var c := s.connection.value;
    var (message, next) := Recv(s.published, s.capacity, c.next);
    if message.Event? {
      YieldUnbroken(s, c.(next := next), message.id, s');
    } else {
      assert Delivered(s') == Delivered(s);
    }
  }

  lemma StepUnbroken(s: System, step: Step, s': System)
    requires Sound(s) && Unbroken(s) && Next(s, step, s') && InOrder(s, step)
    ensures Unbroken(s')
  {
    hide DoSend, DoReceive, Recv, Consecutive, Ascending, Published, LastOf, RowsFollow, Ids;
    match step {
      case Commit(n) =>
      case Publish(id) => ConsecutiveNext(s.published, s.base);
      case Restart =>
        ConsecutiveLess(Delivered(s), s.cursor, |s.processed|);
        ConsecutiveNone(s'.base);
        assert Delivered(s') == Delivered(s)[..|s.processed|];
      case Connect => assert Delivered(s') == Delivered(s);
      case ReadLog =>
        RowsRead(s.connection.value.lastId, s.committed);
        assert Delivered(s') == Delivered(s);
      case SendRow => SendUnbroken(s, s');
      case Receive => ReceiveUnbroken(s, s');
      case Process => assert Delivered(s') == Delivered(s);
      case Disconnect =>
        ConsecutiveLess(Delivered(s), s.cursor, |s.processed|);
        assert Delivered(s') == Delivered(s)[..|s.processed|];
    }
  }

  lemma ConsecutiveNone(base: EventId)
    ensures Consecutive([], base)
  {
  }

  // ---------------------------------------------------------------- runs

  predicate Start(s: System) {
    && s.base == s.committed && s.published == [] && s.capacity > 0
    && s.connection.None? && s.wire == [] && s.processed == []
  }

  predicate Trace(states: seq<System>, steps: seq<Step>) {
    && |states| == |steps| + 1
    && Start(states[0])
    && forall i :: 0 <= i < |steps| ==> Next(states[i], steps[i], states[i + 1])
  }

  predicate PublishesInOrder(states: seq<System>, steps: seq<Step>)
    requires |states| == |steps| + 1
  {
    forall i :: 0 <= i < |steps| ==> InOrder(states[i], steps[i])
  }

  lemma TracePrefix(states: seq<System>, steps: seq<Step>)
    requires Trace(states, steps) && steps != []
    ensures Trace(states[..|steps|], steps[..|steps| - 1])
    ensures PublishesInOrder(states, steps) ==> PublishesInOrder(states[..|steps|], steps[..|steps| - 1])
  {
    hide Next, InOrder;
    var n := |steps| - 1;
    forall i | 0 <= i < n
      ensures Next(states[..n + 1][i], steps[..n][i], states[..n + 1][i + 1])
      ensures PublishesInOrder(states, steps) ==> InOrder(states[..n + 1][i], steps[..n][i])
    {
      assert Next(states[i], steps[i], states[i + 1]);
    }
  }

  lemma {:induction false} TraceSound(states: seq<System>, steps: seq<Step>)
    requires Trace(states, steps)
    ensures Sound(states[|steps|])
    ensures PublishesInOrder(states, steps) ==> Unbroken(states[|steps|])
    decreases |steps|
  {
    if steps != [] {
      hide Next, InOrder, Sound, Unbroken;
      var n := |steps| - 1;
      TracePrefix(states, steps);
      TraceSound(states[..n + 1], steps[..n]);
      StepSound(states[n], steps[n], states[n + 1]);
      if PublishesInOrder(states, steps) {
        StepUnbroken(states[n], steps[n], states[n + 1]);
      }
    }
  }

  /** Main result. Whatever the interleaving, the client processes committed events, above its cursor, in
      increasing order, none twice. If events are published in commit order it processes, over any number of
      connections, an unbroken slice of the log; and a connection that is waiting on an empty channel with
      everything published has delivered the whole log after the cursor. */
  lemma StreamExactness(states: seq<System>, steps: seq<Step>)
    requires Trace(states, steps)
    ensures var s := states[|steps|];
            && Increasing(s.processed)
            && (forall i :: 0 <= i < |s.processed| ==> s.cursor < s.processed[i] <= s.committed)
            && (PublishesInOrder(states, steps) ==>
                  && s.processed == Ids(s.cursor, s.cursor + |s.processed|)
                  && (CaughtUp(s) && s.cursor <= s.committed ==> Delivered(s) == Ids(s.cursor, s.committed)))
  {
    TraceSound(states, steps);
    var s := states[|steps|];
    AscendingLess(Delivered(s), s.cursor, s.committed, |s.processed|, s.committed);
    assert s.processed == Delivered(s)[..|s.processed|];
    if PublishesInOrder(states, steps) {
      ConsecutiveLess(Delivered(s), s.cursor, |s.processed|);
    }
    hide Next, Trace, PublishesInOrder;
  }

  /** The connection waits on an empty channel, and every event committed since the start was published. */
  predicate CaughtUp(s: System) {
    && s.connection.Some? && s.connection.value.mode.Live?
    && s.connection.value.next == |s.published|
    && s.base + |s.published| == s.committed
  }

  // ---------------------------------------------------------------- when publication does not

  /** One more step at the end of a run. */
  lemma Extend(states: seq<System>, steps: seq<Step>, step: Step, s: System) returns (states': seq<System>, steps': seq<Step>)
    requires |states| == |steps| + 1 && Trace(states, steps) && Next(states[|steps|], step, s)
    ensures states' == states + [s] && steps' == steps + [step] && Trace(states', steps')
  {
    hide Next;
    states', steps' := states + [s], steps + [step];
    forall i | 0 <= i < |steps'| ensures Next(states'[i], steps'[i], states'[i + 1]) {
      if i < |steps| {
        assert Next(states[i], steps[i], states[i + 1]);
      }
    }
  }

  /** A client connected before anything was published has taken each publication as it came. */
  function Following(base: EventId, committed: EventId, published: seq<EventId>): System {
    var delivered := Fresh(published, base);
    System(base, committed, published, 1, base, Some(Connection(LastOf(delivered, base), |published|, Live)), delivered, [])
  }

  lemma FollowStart(base: EventId, committed: EventId) returns (states: seq<System>, steps: seq<Step>)
    requires base <= committed
    ensures |states| == |steps| + 1 && Trace(states, steps) && states[|steps|] == Following(base, committed, [])
  {
    hide Trace;
    var s := System(base, base, [], 1, base, None, [], []);
    states, steps := [s], [];
    Alone(s);
    states, steps := Extend(states, steps, Connect, s.(connection := Some(Connection(base, 0, Opening))));
    states, steps := Extend(states, steps, ReadLog, s.(connection := Some(Connection(base, 0, Sending([])))));
    states, steps := Extend(states, steps, SendRow, s.(connection := Some(Connection(base, 0, Live))));
    states, steps := Extend(states, steps, Commit(committed - base), s.(connection := Some(Connection(base, 0, Live)), committed := committed));
  }

  lemma Alone(s: System)
    requires Start(s)
    ensures Trace([s], [])
  {
  }

  lemma FollowSteps(base: EventId, committed: EventId, published: seq<EventId>, id: EventId)
    requires base < id <= committed && id !in published
    ensures var s := Following(base, committed, published);
            var t := s.(published := published + [id]);
            && Next(s, Publish(id), t)
            && Next(t, Receive, Following(base, committed, published + [id]))
  {
    FreshLast(published, id, base);
    hide Fresh;
    var delivered := Fresh(published, base);
    assert delivered + [] == delivered;
  }

  /** Whatever order events are published in, there is a run in which the client takes them in that order. It gets
      every event exactly when the order is the order of commitment. */
  lemma {:induction false} PublishedInAnyOrder(base: EventId, committed: EventId, published: seq<EventId>)
    returns (states: seq<System>, steps: seq<Step>)
    requires base <= committed && forall i :: 0 <= i < |published| ==> base < published[i] <= committed
    requires forall i, j :: 0 <= i < j < |published| ==> published[i] != published[j]
    ensures |states| == |steps| + 1 && Trace(states, steps) && states[|steps|] == Following(base, committed, published)
    ensures Consecutive(Delivered(states[|steps|]), base) <==> Consecutive(published, base)
    decreases |published|
  {
    hide Trace, Following, Next;
    if published == [] {
      states, steps := FollowStart(base, committed);
    } else {
      var n := |published| - 1;
      states, steps := PublishedInAnyOrder(base, committed, published[..n]);
      FollowSteps(base, committed, published[..n], published[n]);
      assert published == published[..n] + [published[n]];
      states, steps := Extend(states, steps, Publish(published[n]), Following(base, committed, published[..n]).(published := published));
      states, steps := Extend(states, steps, Receive, Following(base, committed, published));
    }
    UnbrokenExactlyInOrder(published, base);
    FollowingDelivered(base, committed, published);
  }

  lemma FollowingDelivered(base: EventId, committed: EventId, published: seq<EventId>)
    ensures Delivered(Following(base, committed, published)) == Fresh(published, base)
  {
    assert [] + Fresh(published, base) == Fresh(published, base);
  }

  lemma {:induction false} ProcessedGrows(states: seq<System>, steps: seq<Step>, i: nat, j: nat)
    requires |states| == |steps| + 1 && Trace(states, steps) && i <= j <= |steps|
    ensures states[i].processed <= states[j].processed
    decreases j
  {
    if i < j {
      ProcessedGrows(states, steps, i, j - 1);
      assert Next(states[j - 1], steps[j - 1], states[j]);
    }
  }

  /** A run that is in state `s` after i steps, and goes on to step j. */
  ghost predicate ContinuesFrom(states: seq<System>, steps: seq<Step>, i: nat, j: nat, s: System) {
    |states| == |steps| + 1 && Trace(states, steps) && i <= j <= |steps| && states[i] == s
  }

  /** The concrete failure: two events are committed, the second is published first, and the client processes it. Both
      are published and the connection is caught up, but the first event was not delivered - and never will be, however
      the run goes on. */
  lemma MissedEvent() returns (states: seq<System>, steps: seq<Step>)
    ensures |states| == |steps| + 1 && Trace(states, steps)
    ensures var s := states[|steps|];
            CaughtUp(s) && s.committed == 2 && s.published == [2, 1] && s.cursor == 0 && Delivered(s) == s.processed == [2]
    ensures forall more: seq<System>, after: seq<Step>, j: nat :: ContinuesFrom(more, after, |steps|, j, states[|steps|]) ==> 1 !in more[j].processed
  {
    states, steps := PublishedInAnyOrder(0, 2, [2, 1]);
    MissedState();
    hide Trace, Following;
    var s := states[|steps|];
    var t := s.(wire := [], processed := [2]);
    states, steps := Extend(states, steps, Process, t);
    forall more: seq<System>, after: seq<Step>, j: nat | ContinuesFrom(more, after, |steps|, j, t) ensures 1 !in more[j].processed
    {
      LostForGood(more, after, |steps|, j, 1);
    }
  }

  lemma MissedState()
    ensures Following(0, 2, [2, 1]) == System(0, 2, [2, 1], 1, 0, Some(Connection(2, 2, Live)), [2], [])
  {
    FreshLast([], 2, 0);
    FreshLast([2], 1, 0);
    assert [] + [2] == [2] && [2] + [1] == [2, 1];
  }

  lemma TracePart(states: seq<System>, steps: seq<Step>, j: nat)
    requires |states| == |steps| + 1 && Trace(states, steps) && j <= |steps|
    ensures Trace(states[..j + 1], steps[..j])
  {
    hide Next;
    forall i | 0 <= i < j ensures Next(states[..j + 1][i], steps[..j][i], states[..j + 1][i + 1]) {
      assert Next(states[i], steps[i], states[i + 1]);
    }
  }

  // ---------------------------------------------------------------- exactly what is lost

  /** The connection takes from the channel an event above `x`, which was not published before it and is above
      everything the connection has delivered or read. */
  predicate Overtakes(s: System, step: Step, x: EventId) {
    && step.Receive? && s.connection.Some? && s.connection.value.mode.Live?
    && (var c := s.connection.value;
        var message := Recv(s.published, s.capacity, c.next).0;
        c.next <= |s.published| && message.Event? && c.lastId < x < message.id && x !in s.published[..c.next])
  }

  /** What the connection has taken from the channel is no more than it has sent, or read and is about to send. */
  predicate Taken(s: System) {
    s.connection.Some? ==>
      var c := s.connection.value;
      c.next <= |s.published| && UpTo(s.published[..c.next], Reach(c))
  }

  /** The largest id the connection will have sent when its rows are sent; nothing is said before it reads. */
  function Reach(c: Connection): Option<EventId> {
    match c.mode
    case Live => Some(c.lastId)
    case Sending(rows) => Some(c.lastId + |rows|)
    case Opening => None
    case Behind => None
  }

  predicate UpTo(ids: seq<EventId>, reach: Option<EventId>) {
    reach.Some? ==> forall i :: 0 <= i < |ids| ==> ids[i] <= reach.value
  }

  lemma StepTaken(s: System, step: Step, s': System)
    requires Sound(s) && Taken(s) && Next(s, step, s')
    ensures Taken(s')
  {
    hide Ascending, LastOf, Ids;
    match step {
      case Publish(id) =>
        if s.connection.Some? {
          assert (s.published + [id])[..s.connection.value.next] == s.published[..s.connection.value.next];
        }
      case ReadLog => RowsRead(s.connection.value.lastId, s.committed);
      case SendRow =>
        var c := s.connection.value;
        if c.mode.rows != [] {
          RowsNext(c.mode.rows, c.lastId, s.committed);
        }
      case Receive =>
        var c := s.connection.value;
        var (message, next) := Recv(s.published, s.capacity, c.next);
        if message.Event? {
          assert s.published[..next] == s.published[..c.next] + [message.id];
        }
      case _ =>
    }
  }

  /** What a step does to what is delivered: nothing, one id more, or a connection lost with what was on the wire. */
  lemma StepDelivers(s: System, step: Step, s': System)
    requires Sound(s) && Taken(s) && Next(s, step, s')
    ensures || Delivered(s') <= Delivered(s)
            || (exists y :: Delivered(s') == Delivered(s) + [y])
    ensures forall x, y :: Delivered(s') == Delivered(s) + [y] ==> (LastOf(Delivered(s), s.cursor) < x < y <==> Overtakes(s, step, x))
    ensures forall x :: Overtakes(s, step, x) ==> exists y :: Delivered(s') == Delivered(s) + [y]
    ensures s'.cursor == s.cursor
  {
    hide Ascending, Published, Ids, Consecutive;
    match step {
      case SendRow =>
        var c := s.connection.value;
        if c.mode.rows != [] {
          RowsNext(c.mode.rows, c.lastId, s.committed);
          assert Delivered(s') == Delivered(s) + [c.mode.rows[0]];
        } else {
          assert Delivered(s') == Delivered(s);
        }
        OneMore(Delivered(s), Delivered(s'));
      case Receive => ReceiveDelivers(s, s');
      case Restart => SameOrLess(s, s');
      case Connect => SameOrLess(s, s');
      case Disconnect => SameOrLess(s, s');
      case _ => SameOrLess(s, s');
    }
  }

  lemma OneMore(a: seq<EventId>, b: seq<EventId>)
    ensures forall x, y :: b == a + [x] && b == a + [y] ==> x == y
  {
    forall x, y | b == a + [x] && b == a + [y] ensures x == y {
      assert b[|a|] == x && b[|a|] == y;
    }
  }

  lemma SameOrLess(s: System, s': System)
    requires s'.processed + s'.wire <= s.processed + s.wire
    ensures Delivered(s') <= Delivered(s) && forall y :: Delivered(s') != Delivered(s) + [y]
  {
    forall y ensures Delivered(s') != Delivered(s) + [y] {
      assert |Delivered(s')| <= |Delivered(s)|;
    }
  }

  lemma ReceiveDelivers(s: System, s': System)
    requires Sound(s) && Taken(s) && DoReceive(s, s')
    ensures Delivered(s') <= Delivered(s) || exists y :: Delivered(s') == Delivered(s) + [y]
    ensures forall x, y :: Delivered(s') == Delivered(s) + [y] ==> (LastOf(Delivered(s), s.cursor) < x < y <==> Overtakes(s, Receive, x))
    ensures forall x :: Overtakes(s, Receive, x) ==> exists y :: Delivered(s') == Delivered(s) + [y]
  {
    hide Ascending, Published;
    var c := s.connection.value;
    var message := Recv(s.published, s.capacity, c.next).0;
    if message.Event? && message.id > c.lastId {
      assert Delivered(s') == Delivered(s) + [message.id];
      OneMore(Delivered(s), Delivered(s'));
      assert forall x :: x > c.lastId ==> x !in s.published[..c.next];
    } else {
      assert Delivered(s') == Delivered(s);
      SameOrLess(s, s');
    }
  }

  /** From step i + 1 to step j more than the first k delivered ids are there: nothing has cut the next one off. */
  predicate Survives(states: seq<System>, i: nat, j: nat, k: nat)
    requires i <= j < |states|
  {
    forall m :: i < m <= j ==> |Delivered(states[m])| > k
  }

  /** `x` is passed over at step i, by an id that is still delivered at step j. */
  predicate OvertakenAt(states: seq<System>, steps: seq<Step>, i: nat, j: nat, x: EventId)
    requires i < j < |states| && j <= |steps|
  {
    Overtakes(states[i], steps[i], x) && Survives(states, i, j, |Delivered(states[i])|)
  }

  /** An id above the cursor that is not delivered although a larger one is. */
  predicate Skipped(s: System, x: EventId) {
    x !in Delivered(s) && LastOf(Delivered(s), s.cursor) > x
  }

  lemma {:induction false} TraceTaken(states: seq<System>, steps: seq<Step>, i: nat)
    requires |states| == |steps| + 1 && Trace(states, steps) && i <= |steps|
    ensures Sound(states[i]) && Taken(states[i]) && states[i].cursor == states[0].cursor
    decreases i
  {
    if i > 0 {
      TraceTaken(states, steps, i - 1);
      TraceNext(states, steps, i - 1);
      hide Next, Sound, Taken, Trace;
      StepSound(states[i - 1], steps[i - 1], states[i]);
      StepTaken(states[i - 1], steps[i - 1], states[i]);
      StepDelivers(states[i - 1], steps[i - 1], states[i]);
    } else {
      TracePart(states, steps, 0);
      TraceSound(states[..1], steps[..0]);
    }
  }

  lemma TraceNext(states: seq<System>, steps: seq<Step>, i: nat)
    requires |states| == |steps| + 1 && Trace(states, steps) && i < |steps|
    ensures Next(states[i], steps[i], states[i + 1])
  {
    hide Next;
  }

  /** The step that delivered the k-th id. */
  predicate OriginAt(states: seq<System>, i: nat, j: nat, k: nat)
    requires i < j < |states| && k < |Delivered(states[j])|
  {
    && Delivered(states[i]) == Delivered(states[j])[..k]
    && Delivered(states[i + 1]) == Delivered(states[j])[..k] + [Delivered(states[j])[k]]
    && Survives(states, i, j, k)
  }

  lemma TraceDelivers(states: seq<System>, steps: seq<Step>, i: nat)
    requires |states| == |steps| + 1 && Trace(states, steps) && i < |steps|
    ensures Delivered(states[i + 1]) <= Delivered(states[i]) || exists y :: Delivered(states[i + 1]) == Delivered(states[i]) + [y]
    ensures Delivered(states[0]) == []
  {
    TraceTaken(states, steps, i);
    TraceNext(states, steps, i);
    StartsEmpty(states, steps);
    hide *;
    StepDelivers(states[i], steps[i], states[i + 1]);
  }

  lemma StartsEmpty(states: seq<System>, steps: seq<Step>)
    requires |states| == |steps| + 1 && Trace(states, steps)
    ensures Delivered(states[0]) == []
  {
    hide Next;
  }

  /** Every id delivered was delivered at some step, and has been there since. */
  lemma {:induction false} Origin(states: seq<System>, steps: seq<Step>, j: nat, k: nat) returns (i: nat)
    requires |states| == |steps| + 1 && Trace(states, steps) && j <= |steps| && k < |Delivered(states[j])|
    ensures i < j && OriginAt(states, i, j, k)
    decreases j
  {
    hide Trace, Delivered;
    StartsEmpty(states, steps);
    i := j - 1;
    TraceDelivers(states, steps, j - 1);
    var before, now := Delivered(states[j - 1]), Delivered(states[j]);
    if k < |before| {
      assert now[..k] == before[..k] && now[k] == before[k];
      i := Origin(states, steps, j - 1, k);
    } else {
      assert now[..k] == before;
    }
  }

  /** What survives is not changed. */
  lemma {:induction false} Kept(states: seq<System>, steps: seq<Step>, i: nat, j: nat, k: nat)
    requires |states| == |steps| + 1 && Trace(states, steps) && i < j <= |steps|
    requires Survives(states, i, j, k) && |Delivered(states[i + 1])| == k + 1
    ensures |Delivered(states[j])| > k && Delivered(states[j])[..k + 1] == Delivered(states[i + 1])
    decreases j
  {
    hide Trace, Delivered;
    if j > i + 1 {
      Kept(states, steps, i, j - 1, k);
      TraceDelivers(states, steps, j - 1);
      var before, now := Delivered(states[j - 1]), Delivered(states[j]);
      assert |now| > k && now[..k + 1] == before[..k + 1];
    }
  }

  lemma {:induction false} FirstAbove(ids: seq<EventId>, x: EventId) returns (k: nat)
    requires exists i :: 0 <= i < |ids| && ids[i] > x
    ensures k < |ids| && ids[k] > x && forall i :: 0 <= i < k ==> ids[i] <= x
  {
    k := 0;
    while ids[k] <= x
      invariant k < |ids| && forall i :: 0 <= i < k ==> ids[i] <= x
      decreases |ids| - k
    {
      k := k + 1;
    }
  }

  /** Main result on what is lost, for every run, whatever lags, re-reads and reconnects: an id above the cursor has been
      passed over exactly when at some step the connection took a larger one that was published before it, while it was
      above all the connection had delivered or read; and that larger one is still delivered. */
  lemma LostExactly(states: seq<System>, steps: seq<Step>, j: nat, x: EventId)
    requires |states| == |steps| + 1 && Trace(states, steps) && j <= |steps| && x > states[j].cursor
    ensures Skipped(states[j], x) <==> exists i :: 0 <= i < j && OvertakenAt(states, steps, i, j, x)
  {
    if Skipped(states[j], x) {
      var i := LostSomewhere(states, steps, j, x);
    }
    if i :| 0 <= i < j && OvertakenAt(states, steps, i, j, x) {
      OvertakenIsLost(states, steps, i, j, x);
    }
  }

  lemma LostSomewhere(states: seq<System>, steps: seq<Step>, j: nat, x: EventId) returns (i: nat)
    requires |states| == |steps| + 1 && Trace(states, steps) && j <= |steps| && x > states[j].cursor && Skipped(states[j], x)
    ensures i < j && OvertakenAt(states, steps, i, j, x)
  {
    var ids := Delivered(states[j]);
    assert ids[|ids| - 1] > x;
    var k := FirstAbove(ids, x);
    i := Origin(states, steps, j, k);
    TraceTaken(states, steps, i);
    TraceTaken(states, steps, j);
    TraceNext(states, steps, i);
    hide Next, Sound, Taken, Trace, Overtakes, Survives, Delivered;
    StepDelivers(states[i], steps[i], states[i + 1]);
    if k > 0 {
      assert ids[..k][k - 1] == ids[k - 1] && ids[k - 1] in ids;
    }
  }

  lemma OvertakenIsLost(states: seq<System>, steps: seq<Step>, i: nat, j: nat, x: EventId)
    requires |states| == |steps| + 1 && Trace(states, steps) && i < j <= |steps| && OvertakenAt(states, steps, i, j, x)
    ensures Skipped(states[j], x)
  {
    TraceTaken(states, steps, i);
    TraceTaken(states, steps, j);
    TraceNext(states, steps, i);
    StepDelivers(states[i], steps[i], states[i + 1]);
    var k := |Delivered(states[i])|;
    Kept(states, steps, i, j, k);
    var ids := Delivered(states[j]);
    assert Ascending(ids, states[j].cursor, states[j].committed);
    hide Next, Taken, Trace, Overtakes, Survives, Delivered, Sound;
    var y := ids[k];
    assert ids[..k + 1][k] == y && ids[..k + 1] == Delivered(states[i]) + [y];
    BetweenNeighbours(ids, k, x, states[i].cursor);
  }

  lemma BetweenNeighbours(ids: seq<EventId>, k: nat, x: EventId, cursor: EventId)
    requires Increasing(ids) && k < |ids| && LastOf(ids[..k], cursor) < x < ids[k]
    ensures x !in ids && LastOf(ids, cursor) > x
  {
    assert forall i :: 0 <= i < k ==> ids[i] <= ids[k - 1];
  }

  // ---------------------------------------------------------------- lost for good, or still to come

  /** An id is lost for good as soon as the client has processed a larger one. */
  lemma LostForGood(states: seq<System>, steps: seq<Step>, i: nat, j: nat, x: EventId)
    requires |states| == |steps| + 1 && Trace(states, steps) && i <= j <= |steps|
    requires x !in states[i].processed && states[i].processed != [] && LastOf(states[i].processed, 0) > x
    ensures x !in states[j].processed
  {
    ProcessedGrows(states, steps, i, j);
    TraceTaken(states, steps, j);
    hide Trace;
    var before, ids := states[i].processed, states[j].processed;
    AscendingLess(Delivered(states[j]), states[j].cursor, states[j].committed, |ids|, states[j].committed);
    assert ids == Delivered(states[j])[..|ids|];
    var k := |before| - 1;
    assert ids[..|before|] == before && ids[k] == before[k];
    assert forall m :: k < m < |ids| ==> ids[k] < ids[m];
    assert forall m :: 0 <= m <= k ==> ids[m] == before[m];
  }

  /** As long as it has not, and the event is committed, the run can go on so that the client processes it: the client
      connects again and reads the log. */
  lemma StillToCome(states: seq<System>, steps: seq<Step>, x: EventId) returns (more: seq<System>, after: seq<Step>)
    requires |states| == |steps| + 1 && Trace(states, steps)
    requires LastOf(states[|steps|].processed, states[|steps|].cursor) < x <= states[|steps|].committed
    ensures states <= more && steps <= after && |more| == |after| + 1 && Trace(more, after)
    ensures x in more[|after|].processed
  {
    hide Trace, LastOf;
    var s := states[|steps|];
    var last := LastOf(s.processed, s.cursor);
    var closed := s.(connection := None, wire := []);
    more, after := Extend(states, steps, Disconnect, closed);
    var c := Connection(last, |s.published|, Opening);
    more, after := Extend(more, after, Connect, closed.(connection := Some(c)));
    more, after := Extend(more, after, ReadLog, closed.(connection := Some(c.(mode := Sending(Ids(last, s.committed))))));
    more, after := SendUpTo(more, after, last, x);
  }

  /** A connection that has read the log sends it, and the client processes what it gets, one by one. */
  lemma {:induction false} SendUpTo(states: seq<System>, steps: seq<Step>, last: EventId, x: EventId)
    returns (more: seq<System>, after: seq<Step>)
    requires |states| == |steps| + 1 && Trace(states, steps)
    requires var s := states[|steps|];
             && s.connection.Some? && s.connection.value.lastId == last && s.wire == []
             && s.connection.value.mode == Sending(Ids(last, s.committed)) && last < x <= s.committed
    ensures states <= more && steps <= after && |more| == |after| + 1 && Trace(more, after)
    ensures x in more[|after|].processed
    decreases x - last
  {
    hide Trace;
    var s := states[|steps|];
    var c := s.connection.value.(lastId := last + 1, mode := Sending(Ids(last + 1, s.committed)));
    assert Ids(last, s.committed)[0] == last + 1 && Ids(last, s.committed)[1..] == Ids(last + 1, s.committed);
    assert [] + [last + 1] == [last + 1];
    more, after := Extend(states, steps, SendRow, s.(connection := Some(c), wire := [last + 1]));
    more, after := Extend(more, after, Process, s.(connection := Some(c), wire := [], processed := s.processed + [last + 1]));
    if x > last + 1 {
      more, after := SendUpTo(more, after, last + 1, x);
    }
  }
}
