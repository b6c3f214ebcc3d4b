/** The hub between publishers and streams: one broadcast channel per session that has receivers
    (`EventHub` in piqo-server/src/supervisor.rs). Channels come and go with their receivers; a receiver is
    dropped without telling the hub, which sweeps up at its next call. */
module Hub {
  import opened Prelude
  import opened Events

  type ReceiverId = nat

  /** What was sent on a channel, and where each receiver that is still held stands in it. */
  datatype Channel = Channel(sent: seq<RecordedEvent>, receivers: map<ReceiverId, nat>)

  /** Channels with a receiver. */
  function Used(channels: map<Id, Channel>): map<Id, Channel> {
    map s | s in channels && channels[s].receivers != map[] :: channels[s]
  }

  /** A receiver that was promised everything published for its session from a given point on. */
  datatype Promise = Promise(session: Id, unread: seq<RecordedEvent>)

  /** A channel serves the receivers it lists. */
  ghost predicate Serves(s: Id, channel: Channel, promised: map<ReceiverId, Promise>) {
    forall r :: r in channel.receivers ==>
      && r in promised && promised[r].session == s
      && channel.receivers[r] <= |channel.sent|
      && promised[r].unread == channel.sent[channel.receivers[r]..]
  }

  ghost predicate Listed(r: ReceiverId, session: Id, channels: map<Id, Channel>) {
    session in channels && r in channels[session].receivers
  }

  /** Every promised receiver is listed by the channel of its session, and by no other; what the channel still
      holds for it is what it was promised. */
  ghost predicate HubOk(channels: map<Id, Channel>, promised: map<ReceiverId, Promise>) {
    && (forall r :: r in promised ==> Listed(r, promised[r].session, channels))
    && (forall s :: s in channels ==> Serves(s, channels[s], promised))
  }

  lemma UsedOk(channels: map<Id, Channel>, promised: map<ReceiverId, Promise>)
    requires HubOk(channels, promised)
    ensures HubOk(Used(channels), promised)
  {
    forall r | r in promised ensures Listed(r, promised[r].session, Used(channels)) {
      assert Listed(r, promised[r].session, channels);
    }
  }

  /** One channel and the promises of its session change together. */
  lemma ReplaceOk(channels: map<Id, Channel>, promised: map<ReceiverId, Promise>, s: Id, channel: Channel, after: map<ReceiverId, Promise>)
    requires HubOk(channels, promised)
    requires Serves(s, channel, after)
    requires forall r :: r in after && after[r].session == s ==> r in channel.receivers
    requires forall r :: r in after && after[r].session != s ==> r in promised && after[r] == promised[r]
    requires forall r :: r in promised && promised[r].session != s ==> r in after && after[r] == promised[r]
    ensures HubOk(channels[s := channel], after)
  {
    var now := channels[s := channel];
    forall r | r in after ensures Listed(r, after[r].session, now) {
      if after[r].session != s {
        assert Listed(r, promised[r].session, channels);
      }
    }
    forall x | x in now ensures Serves(x, now[x], after) {
      if x != s {
        assert Serves(x, channels[x], promised);
      }
    }
  }

  lemma ListedOnce(channels: map<Id, Channel>, promised: map<ReceiverId, Promise>, r: ReceiverId)
    requires HubOk(channels, promised) && r in promised
    ensures promised[r].session in channels && r in channels[promised[r].session].receivers
    ensures forall s :: s in channels && r in channels[s].receivers ==> s == promised[r].session
    ensures Serves(promised[r].session, channels[promised[r].session], promised)
  {
    assert Listed(r, promised[r].session, channels);
  }

  lemma NewReceiver(channels: map<Id, Channel>, promised: map<ReceiverId, Promise>, s: Id, r: ReceiverId)
    requires HubOk(channels, promised) && r !in promised
    ensures var channel := if s in channels then channels[s] else Channel([], map[]);
            HubOk(channels[s := channel.(receivers := channel.receivers[r := |channel.sent|])], promised[r := Promise(s, [])])
  {
    var channel := if s in channels then channels[s] else Channel([], map[]);
    var now, after := channel.(receivers := channel.receivers[r := |channel.sent|]), promised[r := Promise(s, [])];
    forall x | x in after && after[x].session == s ensures x in now.receivers {
      if x != r { assert Listed(x, s, channels); }
    }
    assert s in channels ==> Serves(s, channels[s], promised);
    ReplaceOk(channels, promised, s, now, after);
  }

  function Informed(promised: map<ReceiverId, Promise>, e: RecordedEvent): map<ReceiverId, Promise> {
    map r | r in promised ::
      if promised[r].session == e.sessionId then Promise(e.sessionId, promised[r].unread + [e]) else promised[r]
  }

  lemma SentOk(channels: map<Id, Channel>, promised: map<ReceiverId, Promise>, e: RecordedEvent)
    requires HubOk(channels, promised) && e.sessionId in channels
    ensures var channel := channels[e.sessionId];
            HubOk(channels[e.sessionId := channel.(sent := channel.sent + [e])], Informed(promised, e))
  {
    var s := e.sessionId;
    assert Serves(s, channels[s], promised);
    PromisedListed(channels, promised, s);
    ServesSent(channels[s], promised, e);
    hide HubOk, Serves;
    ReplaceOk(channels, promised, s, channels[s].(sent := channels[s].sent + [e]), Informed(promised, e));
  }

  lemma ServesSent(channel: Channel, promised: map<ReceiverId, Promise>, e: RecordedEvent)
    requires Serves(e.sessionId, channel, promised)
    ensures Serves(e.sessionId, channel.(sent := channel.sent + [e]), Informed(promised, e))
  {
  }

  lemma UnheardOk(channels: map<Id, Channel>, promised: map<ReceiverId, Promise>, e: RecordedEvent)
    requires HubOk(channels, promised)
    requires e.sessionId in channels ==> channels[e.sessionId].receivers == map[]
    ensures HubOk(channels - {e.sessionId}, Informed(promised, e)) && Informed(promised, e) == promised
  {
    forall r | r in promised ensures promised[r].session != e.sessionId {
      assert Listed(r, promised[r].session, channels);
    }
    CutOk(channels, promised, e.sessionId);
    assert Without(promised, e.sessionId) == promised;
  }

  function Without(promised: map<ReceiverId, Promise>, s: Id): map<ReceiverId, Promise> {
    map r | r in promised && promised[r].session != s :: promised[r]
  }

  lemma CutOk(channels: map<Id, Channel>, promised: map<ReceiverId, Promise>, s: Id)
    requires HubOk(channels, promised)
    ensures HubOk(channels - {s}, Without(promised, s))
  {
    forall r | r in Without(promised, s) ensures Listed(r, promised[r].session, channels - {s}) {
      assert Listed(r, promised[r].session, channels);
    }
    forall x | x in channels - {s} ensures Serves(x, channels[x], Without(promised, s)) {
      assert Serves(x, channels[x], promised);
    }
  }

  lemma DroppedOk(channels: map<Id, Channel>, promised: map<ReceiverId, Promise>, r: ReceiverId)
    requires HubOk(channels, promised) && r in promised && promised[r].session in channels
    ensures var s := promised[r].session;
            HubOk(channels[s := channels[s].(receivers := channels[s].receivers - {r})], promised - {r})
  {
    var s := promised[r].session;
    assert Serves(s, channels[s], promised);
    forall x | x in promised - {r} && promised[x].session == s ensures x in channels[s].receivers - {r} {
      assert Listed(x, s, channels);
    }
    ReplaceOk(channels, promised, s, channels[s].(receivers := channels[s].receivers - {r}), promised - {r});
  }

  /** A receiver moves on by `k` events. */
  lemma AdvancedOk(channels: map<Id, Channel>, promised: map<ReceiverId, Promise>, r: ReceiverId, k: nat)
    requires HubOk(channels, promised) && r in promised && k <= |promised[r].unread|
    ensures var s := promised[r].session;
            && s in channels && r in channels[s].receivers
            && promised[r].unread == channels[s].sent[channels[s].receivers[r]..]
            && HubOk(channels[s := channels[s].(receivers := channels[s].receivers[r := channels[s].receivers[r] + k])],
                     promised[r := Promise(s, promised[r].unread[k..])])
  {
    hide HubOk, Serves;
    ListedOnce(channels, promised, r);
    var s := promised[r].session;
    var channel := channels[s];
    assert channel.receivers[r] <= |channel.sent| && promised[r].unread == channel.sent[channel.receivers[r]..] by {
      ServedFrom(s, channel, promised, r);
    }
    var after := promised[r := Promise(s, promised[r].unread[k..])];
    PromisedListed(channels, promised, s);
    ServesAdvanced(s, channel, promised, r, k);
    ReplaceOk(channels, promised, s, channel.(receivers := channel.receivers[r := channel.receivers[r] + k]), after);
  }

  lemma ServedFrom(s: Id, channel: Channel, promised: map<ReceiverId, Promise>, r: ReceiverId)
    requires Serves(s, channel, promised) && r in channel.receivers
    ensures r in promised && channel.receivers[r] <= |channel.sent| && promised[r].unread == channel.sent[channel.receivers[r]..]
  {
  }

  lemma PromisedListed(channels: map<Id, Channel>, promised: map<ReceiverId, Promise>, s: Id)
    requires HubOk(channels, promised) && s in channels
    ensures forall x :: x in promised && promised[x].session == s ==> x in channels[s].receivers
  {
    forall x | x in promised && promised[x].session == s ensures x in channels[s].receivers {
      assert Listed(x, promised[x].session, channels);
    }
  }

  lemma ServesAdvanced(s: Id, channel: Channel, promised: map<ReceiverId, Promise>, r: ReceiverId, k: nat)
    requires Serves(s, channel, promised) && r in channel.receivers && k <= |promised[r].unread|
    ensures Serves(s, channel.(receivers := channel.receivers[r := channel.receivers[r] + k]),
                   promised[r := Promise(s, promised[r].unread[k..])])
    ensures promised[r].unread == channel.sent[channel.receivers[r]..]
  {
    assert channel.sent[channel.receivers[r]..][k..] == channel.sent[channel.receivers[r] + k..];
  }

  // ---------------------------------------------------------------- receiving

  /** What a receive gives: the next event, the number of events that were overwritten, nothing yet, or the end. */
  datatype Taken = Received(event: RecordedEvent) | Lagged(missed: nat) | Empty | Closed

  /** How many events a receive moves on by. A channel keeps the last `capacity` events. */
  function Advance(unread: nat, capacity: nat): (k: nat)
    requires capacity > 0
    ensures k <= unread
  {
    if unread == 0 then 0 else if unread > capacity then unread - capacity else 1
  }

  function Receive(unread: seq<RecordedEvent>, capacity: nat, open: bool): Taken
    requires capacity > 0
  {
    if unread == [] then if open then Empty else Closed
    else if |unread| > capacity then Lagged(|unread| - capacity)
    else Received(unread[0])
  }

  /** Everything a receiver gets if nothing more is published. */
  function ReceiveAll(unread: seq<RecordedEvent>, capacity: nat, open: bool): seq<Taken>
    requires capacity > 0
    decreases |unread|
  {
    [Receive(unread, capacity, open)]
    + (if unread == [] then [] else ReceiveAll(unread[Advance(|unread|, capacity)..], capacity, open))
  }

  function AsReceived(events: seq<RecordedEvent>): seq<Taken> { seq(|events|, i requires 0 <= i < |events| => Received(events[i])) }

  /** Only the oldest events are missed, the receiver is told how many before it gets the next, and it gets all the
      others in order; also after the hub has closed the channel. */
  lemma {:induction false} OnlyOldestMissed(unread: seq<RecordedEvent>, capacity: nat, open: bool)
    requires capacity > 0
    ensures var missed := if |unread| > capacity then |unread| - capacity else 0;
            ReceiveAll(unread, capacity, open) ==
            (if missed > 0 then [Lagged(missed)] else []) + AsReceived(unread[missed..]) + [if open then Empty else Closed]
    decreases |unread|
  {
    if |unread| > capacity {
      OnlyOldestMissed(unread[|unread| - capacity..], capacity, open);
    } else if unread != [] {
      OnlyOldestMissed(unread[1..], capacity, open);
      assert AsReceived(unread) == [Received(unread[0])] + AsReceived(unread[1..]);
    }
  }

  class EventHub {
    const capacity: nat
    var channels: map<Id, Channel>

    /** What receivers that were cut off by the hub can still read. */
    var orphans: map<ReceiverId, seq<RecordedEvent>>

    /** The receivers that are held by a stream and not cut off by the hub, with what they have still to read
        if they read it all. The hub never looks at this. */
    ghost var promised: map<ReceiverId, Promise>

    ghost predicate Valid()
      reads this
    {
      HubOk(channels, promised) && promised.Keys !! orphans.Keys && capacity > 0
    }

    constructor (c: nat)
      requires c > 0
      ensures Valid() && promised == map[] && orphans == map[] && capacity == c
    {
      capacity := c;
      channels, promised, orphans := map[], map[], map[];
    }

    /** A receiver sees what is published after it subscribed, and nothing before. `receiver` is a fresh name. */
    method Subscribe(session: Id, receiver: ReceiverId)
      requires Valid() && receiver !in promised && receiver !in orphans
      modifies this`channels, this`promised
      ensures Valid()
      ensures promised == old(promised)[receiver := Promise(session, [])]
    {
      hide HubOk;
      UsedOk(channels, promised);
      channels := Used(channels);
      NewReceiver(channels, promised, session, receiver);
      var channel := if session in channels then channels[session] else Channel([], map[]);
      channels := channels[session := channel.(receivers := channel.receivers[receiver := |channel.sent|])];
      promised := promised[receiver := Promise(session, [])];
    }

    /** Every live receiver of the event's session gets it, and no other does. */
    method Publish(event: RecordedEvent)
      requires Valid()
      modifies this`channels, this`promised
      ensures Valid()
      ensures promised.Keys == old(promised).Keys
      ensures forall r :: r in promised ==>
                promised[r] == if old(promised)[r].session == event.sessionId
                               then Promise(event.sessionId, old(promised)[r].unread + [event]) else old(promised)[r]
      ensures forall s :: s in channels ==> channels[s].receivers != map[]
    {
      hide HubOk;
      var s := event.sessionId;
      if s in channels && channels[s].receivers != map[] {
        SentOk(channels, promised, event);
        channels := channels[s := channels[s].(sent := channels[s].sent + [event])];
      } else {
        UnheardOk(channels, promised, event);
        channels := channels - {s};
      }
      promised := Informed(promised, event);
      UsedOk(channels, promised);
      channels := Used(channels);
    }

    /** A receiver takes its next message, or learns how many it has missed. */
    method Take(receiver: ReceiverId) returns (got: Taken)
      requires Valid() && (receiver in promised || receiver in orphans)
      modifies this
      ensures Valid()
      ensures receiver in old(promised) ==>
                var unread := old(promised)[receiver].unread;
                && got == Receive(unread, capacity, true)
                && promised == old(promised)[receiver := old(promised)[receiver].(unread := unread[Advance(|unread|, capacity)..])]
                && orphans == old(orphans)
      ensures receiver !in old(promised) ==>
                var unread := old(orphans)[receiver];
                && got == Receive(unread, capacity, false)
                && orphans == old(orphans)[receiver := unread[Advance(|unread|, capacity)..]]
                && promised == old(promised)
    {
      hide HubOk;
      if receiver in orphans {
        var unread := orphans[receiver];
        orphans := orphans[receiver := unread[Advance(|unread|, capacity)..]];
        return Receive(unread, capacity, false);
      }
      ListedOnce(channels, promised, receiver);
      ghost var k := Advance(|promised[receiver].unread|, capacity);
      AdvancedOk(channels, promised, receiver, k);
      var s :| s in channels && receiver in channels[s].receivers;
      var channel := channels[s];
      var unread := channel.sent[channel.receivers[receiver]..];
      got := Receive(unread, capacity, true);
      channels := channels[s := channel.(receivers := channel.receivers[receiver := channel.receivers[receiver] + Advance(|unread|, capacity)])];
      promised := promised[receiver := Promise(s, promised[receiver].unread[k..])];
    }

    /** A stream ends and drops its receiver; the channel stays until the next sweep. */
    method Drop(receiver: ReceiverId)
      requires Valid() && (receiver in promised || receiver in orphans)
      modifies this
      ensures Valid()
      ensures promised == old(promised) - {receiver} && orphans == old(orphans) - {receiver}
    {
      hide HubOk;
      if receiver in orphans {
        orphans := orphans - {receiver};
        assert promised - {receiver} == promised;
        return;
      }
      ListedOnce(channels, promised, receiver);
      DroppedOk(channels, promised, receiver);
      var s :| s in channels && receiver in channels[s].receivers;
      channels := channels[s := channels[s].(receivers := channels[s].receivers - {receiver})];
      promised := promised - {receiver};
      assert orphans - {receiver} == orphans;
    }

    method RemoveIfUnused(session: Id)
      requires Valid()
      modifies this`channels
      ensures Valid()
      ensures session in channels <==> session in old(channels) && exists r :: r in promised && promised[r].session == session
    {
      if session in channels {
        assert Serves(session, channels[session], promised);
        if channels[session].receivers == map[] {
          forall r | r in promised ensures promised[r].session != session {
            ListedOnce(channels, promised, r);
          }
          CutOk(channels, promised, session);
          assert Without(promised, session) == promised;
          channels := channels - {session};
        } else {
          var r :| r in channels[session].receivers;
          assert r in promised;
        }
      }
    }

    /** Deleting a project closes its sessions: exactly their receivers are cut off, and keep what they have not read. */
    method CloseSessions(sessions: seq<Id>)
      requires Valid()
      modifies this
      ensures Valid()
      ensures forall s :: s in sessions ==> s !in channels
      ensures promised == Outside(old(promised), set s | s in sessions)
      ensures orphans == old(orphans) + LeftIn(old(promised), set s | s in sessions)
    {
      hide HubOk, Outside, LeftIn, Without;
      ghost var gone: set<Id> := {};
      NoneGone(promised, orphans);
      for i := 0 to |sessions|
        invariant Valid() && gone == set s | s in sessions[..i]
        invariant forall s :: s in sessions[..i] ==> s !in channels
        invariant promised == Outside(old(promised), gone) && orphans == old(orphans) + LeftIn(old(promised), gone)
      {
        OneMoreGone(old(promised), gone, sessions[i]);
        assert sessions[..i + 1] == sessions[..i] + [sessions[i]];
        CloseSession(sessions[i]);
        gone := gone + {sessions[i]};
      }
      assert sessions[..|sessions|] == sessions;
    }

    /** The channel goes, and its receivers keep what they have not read. */
    method CloseSession(session: Id)
      requires Valid()
      modifies this
      ensures Valid()
      ensures channels == old(channels) - {session}
      ensures promised == Without(old(promised), session)
      ensures orphans == old(orphans) + LeftIn(old(promised), {session})
    {
      hide HubOk;
      CutOk(channels, promised, session);
      if session in channels {
        BufferedIs(channels, promised, session);
        orphans := orphans + Buffered(channels[session]);
      } else {
        NobodyListed(channels, promised, session);
      }
      channels := channels - {session};
      promised := Without(promised, session);
    }
  }

  /** The promises to receivers of other sessions. */
  function Outside(promised: map<ReceiverId, Promise>, gone: set<Id>): map<ReceiverId, Promise> {
    map r | r in promised && promised[r].session !in gone :: promised[r]
  }

  /** What the receivers of these sessions have not read. */
  function LeftIn(promised: map<ReceiverId, Promise>, gone: set<Id>): map<ReceiverId, seq<RecordedEvent>> {
    map r | r in promised && promised[r].session in gone :: promised[r].unread
  }

  lemma NoneGone(promised: map<ReceiverId, Promise>, orphans: map<ReceiverId, seq<RecordedEvent>>)
    ensures Outside(promised, {}) == promised && orphans + LeftIn(promised, {}) == orphans
  {
  }

  lemma OneMoreGone(promised: map<ReceiverId, Promise>, gone: set<Id>, s: Id)
    ensures Without(Outside(promised, gone), s) == Outside(promised, gone + {s})
    ensures LeftIn(promised, gone) + LeftIn(Outside(promised, gone), {s}) == LeftIn(promised, gone + {s})
  {
  }

  /** What the receivers of a channel have not read. */
  function Buffered(channel: Channel): map<ReceiverId, seq<RecordedEvent>> {
    map r | r in channel.receivers :: if channel.receivers[r] <= |channel.sent| then channel.sent[channel.receivers[r]..] else []
  }

  lemma BufferedIs(channels: map<Id, Channel>, promised: map<ReceiverId, Promise>, s: Id)
    requires HubOk(channels, promised) && s in channels
    ensures Buffered(channels[s]) == LeftIn(promised, {s})
  {
    assert Serves(s, channels[s], promised);
    forall r | r in promised && promised[r].session == s ensures r in channels[s].receivers {
      assert Listed(r, s, channels);
    }
  }

  lemma NobodyListed(channels: map<Id, Channel>, promised: map<ReceiverId, Promise>, s: Id)
    requires HubOk(channels, promised) && s !in channels
    ensures forall r :: r in promised ==> promised[r].session != s
  {
    forall r | r in promised ensures promised[r].session != s {
      assert Listed(r, promised[r].session, channels);
    }
  }
}
