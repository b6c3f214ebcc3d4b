/** Context compaction: when the request would not fit, older messages give way to a summary
    (`build_compacted_body` in piqo-server/src/supervisor.rs, the ratios in piqo-server/src/config.rs, the estimate
    in piqo-core/src/context.rs). Ratios are reals. */
module Compaction {
  import opened Prelude
  import opened Events
  import opened Session
  import opened History
  import opened Ledger
  import opened RequestBody
  import StoreSpec

  // ---------------------------------------------------------------- the estimate

  const MAX := 0xFFFF_FFFF_FFFF_FFFF

  function Capped(n: nat): nat { if n > MAX then MAX else n }

  /** Additions and multiplications saturate at 64 bits. */
  function EstimateTokens(bytes: nat, items: nat, tools: nat): nat {
    Capped(Capped(Capped(bytes) + 2) / 3 + Capped(Capped(items + tools) * 8))
  }

  /** The estimate never shrinks as a request grows, stays within 64 bits, and is the plain formula until a term
      saturates. */
  lemma EstimateMeaning(bytes: nat, items: nat, tools: nat, bytes': nat, items': nat, tools': nat)
    requires bytes <= bytes' && items <= items' && tools <= tools'
    ensures EstimateTokens(bytes, items, tools) <= EstimateTokens(bytes', items', tools') <= MAX
    ensures bytes + 2 <= MAX && (items + tools) * 8 <= MAX && (bytes + 2) / 3 + (items + tools) * 8 <= MAX ==>
              EstimateTokens(bytes, items, tools) == (bytes + 2) / 3 + (items + tools) * 8
  {
  }

  // ---------------------------------------------------------------- budget

  datatype Budget = Budget(window: nat, reserve: nat, triggerRatio: real, targetRatio: real)

  /** What configuration loading and `context_budget` let through. */
  predicate ValidBudget(b: Budget) {
    b.reserve < b.window && 0.0 < b.targetRatio < b.triggerRatio < 1.0
  }

  function InputBudget(b: Budget): nat
    requires b.reserve <= b.window
  {
    b.window - b.reserve
  }

  function Ceil(x: real): int { if x.Floor as real == x then x.Floor else x.Floor + 1 }

  function Trigger(b: Budget): int
    requires b.reserve <= b.window
  {
    Ceil(InputBudget(b) as real * b.triggerRatio)
  }

  function Target(b: Budget): int
    requires b.reserve <= b.window
  {
    (InputBudget(b) as real * b.targetRatio).Floor
  }

  /** The trigger is the least integer at or above its share of the budget, the target the greatest at or below its own. */
  lemma ThresholdsAreExact(b: Budget, n: int)
    requires b.reserve <= b.window
    ensures Trigger(b) <= n <==> InputBudget(b) as real * b.triggerRatio <= n as real
    ensures n <= Target(b) <==> n as real <= InputBudget(b) as real * b.targetRatio
  {
  }

  lemma TriggerWithinBudget(b: Budget)
    requires ValidBudget(b)
    ensures 0 < Trigger(b) <= InputBudget(b)
  {
    var n := InputBudget(b) as real;
    var x := n * b.triggerRatio;
    assert 0.0 < x < n by { Scaled(n, b.triggerRatio); }
  }

  lemma Scaled(n: real, ratio: real)
    requires 0.0 < n && 0.0 < ratio < 1.0
    ensures 0.0 < n * ratio < n
  {
  }

  // ---------------------------------------------------------------- what is compacted

  function EndOf(c: Context): Option<EventId> {
    if c.activeArtifact.Some? then Some(c.activeArtifact.value.sourceEnd) else None
  }

  /** Closed messages the active artifact does not cover. */
  function Compactable(p: Projection): seq<Message> { Visible(ClosedMessages(p.messages), EndOf(p.context)) }

  const KEEP := 4

  /** How many of them are summarised: all but the last four. */
  function Selected(n: nat): nat { Minus(n, KEEP) }

  /** The new artifact's range. */
  function NewStart(p: Projection): EventId
    requires Selected(|Compactable(p)|) > 0
  {
    if p.context.activeArtifact.Some? then p.context.activeArtifact.value.sourceStart else Compactable(p)[0].firstEventId
  }

  function NewEnd(p: Projection): EventId
    requires Selected(|Compactable(p)|) > 0
  {
    Compactable(p)[Selected(|Compactable(p)|) - 1].lastEventId
  }

  lemma {:induction false} VisibleAreAfter(closed: seq<Message>, end: Option<EventId>)
    ensures forall m :: m in Visible(closed, end) ==> m in closed && After(m, end)
  {
    FilterKeeps(closed, (m: Message) => After(m, end));
  }

  /** A new artifact starts where the chain starts and ends strictly later. */
  lemma RangeAdvances(p: Projection)
    requires Selected(|Compactable(p)|) > 0
    ensures p.context.activeArtifact.Some? ==>
              && NewStart(p) == p.context.activeArtifact.value.sourceStart
              && NewEnd(p) > p.context.activeArtifact.value.sourceEnd
  {
    VisibleAreAfter(ClosedMessages(p.messages), EndOf(p.context));
    var k := Selected(|Compactable(p)|) - 1;
    assert Compactable(p)[k] in Compactable(p);
  }

  /** The first artifact starts where the earliest closed message starts. */
  lemma ChainStartsAtFirst(p: Projection, n: nat)
    requires MessagesSound(p.messages, n) && p.context.activeArtifact.None? && Selected(|Compactable(p)|) > 0
    ensures exists m :: m in p.messages && m.Closed() && m.firstEventId == NewStart(p)
    ensures forall m :: m in p.messages && m.Closed() ==> NewStart(p) <= m.firstEventId
  {
    var closed := ClosedMessages(p.messages);
    FilterAll(closed, (x: Message) => After(x, None));
    FilterByFirst(p.messages, (m: Message) => m.Closed());
    FilterKeeps(p.messages, (m: Message) => m.Closed());
    assert closed[0] in closed;
    hide Filter;
    forall m | m in p.messages && m.Closed() ensures NewStart(p) <= m.firstEventId {
      var i :| 0 <= i < |closed| && closed[i] == m;
    }
  }

  /** What the next request shows: the closed messages after the new end. */
  function Remaining(p: Projection): seq<Message>
    requires Selected(|Compactable(p)|) > 0
  {
    Visible(ClosedMessages(p.messages), Some(NewEnd(p)))
  }

  lemma {:induction false} VisibleTwice(ms: seq<Message>, a: Option<EventId>, b: EventId)
    requires a.Some? ==> a.value <= b
    ensures Visible(ms, Some(b)) == Visible(Visible(ms, a), Some(b))
    decreases |ms|
  {
    if ms != [] {
      var n := |ms| - 1;
      VisibleTwice(ms[..n], a, b);
      VisibleLast(ms[..n], ms[n], a);
      VisibleLast(ms[..n], ms[n], Some(b));
      assert ms == ms[..n] + [ms[n]];
      if After(ms[n], a) {
        VisibleLast(Visible(ms[..n], a), ms[n], Some(b));
      } else {
        assert Visible(ms, a) == Visible(ms[..n], a);
      }
    }
  }

  /** The messages split at the new end. */
  ghost predicate SplitAt(ms: seq<Message>, k: nat, end: EventId) {
    && k <= |ms|
    && (forall i :: 0 <= i < k ==> ms[i].lastEventId <= end)
    && (forall i :: k <= i < |ms| ==> ms[i].lastEventId > end)
  }

  lemma {:induction false} VisibleCount(ms: seq<Message>, end: EventId, k: nat)
    requires SplitAt(ms, k, end)
    ensures Visible(ms, Some(end)) == ms[k..]
    decreases |ms|
  {
    if ms == [] {
    } else {
      var n := |ms| - 1;
      VisibleLast(ms[..n], ms[n], Some(end));
      assert ms == ms[..n] + [ms[n]];
      if k == |ms| {
        VisibleCount(ms[..n], end, n);
      } else {
        VisibleCount(ms[..n], end, k);
        assert ms[k..] == ms[..n][k..] + [ms[n]];
      }
    }
  }

  /** Nothing gets lost - the request that follows shows exactly the last four - if and only if the messages that are
      summarised were closed no later than the last of them, and the last four after it. */
  lemma RemainingExactly(p: Projection)
    requires Selected(|Compactable(p)|) > 0
    ensures var k := Selected(|Compactable(p)|);
            Remaining(p) == Compactable(p)[k..] && (forall m :: m in Compactable(p)[..k] ==> m !in Remaining(p))
            <==> SplitAt(Compactable(p), k, NewEnd(p))
  {
    var ms, k, end := Compactable(p), Selected(|Compactable(p)|), NewEnd(p);
    RangeAdvances(p);
    VisibleTwice(ClosedMessages(p.messages), EndOf(p.context), end);
    VisibleAreAfter(ms, Some(end));
    hide Compactable, Visible, Filter;
    if SplitAt(ms, k, end) {
      VisibleCount(ms, end, k);
      forall m | m in ms[..k] ensures m !in Visible(ms, Some(end)) {
        assert m.lastEventId <= end;
      }
    }
    if Visible(ms, Some(end)) == ms[k..] && forall m :: m in ms[..k] ==> m !in Visible(ms, Some(end)) {
      forall i | k <= i < |ms| ensures ms[i].lastEventId > end {
        assert ms[k..][i - k] == ms[i];
        assert ms[i] in Visible(ms, Some(end));
      }
      forall i | 0 <= i < k ensures ms[i].lastEventId <= end {
        assert ms[..k][i] == ms[i];
        if After(ms[i], Some(end)) {
          LaterIsVisible(ms, end, i);
        }
      }
    }
  }

  lemma LaterIsVisible(ms: seq<Message>, end: EventId, i: nat)
    requires i < |ms| && ms[i].lastEventId > end
    ensures ms[i] in Visible(ms, Some(end))
  {
    FilterKeeps(ms, (m: Message) => After(m, Some(end)));
    assert ms[i] in ms;
  }

  /** When messages close in order nothing gets lost: each closed message is covered by the chain, up to the new end,
      or still shown, and the last four are always shown. */
  lemma InOrderNothingLost(p: Projection)
    requires ClosedInOrder(ClosedMessages(p.messages)) && Selected(|Compactable(p)|) > 0
    ensures Remaining(p) == Compactable(p)[|Compactable(p)| - KEEP..] && |Remaining(p)| == KEEP
    ensures forall m :: m in ClosedMessages(p.messages) ==> (m.lastEventId <= NewEnd(p) <==> m !in Remaining(p))
    ensures forall m :: m in ClosedMessages(p.messages) ==>
              (EndOf(p.context).Some? && m.lastEventId <= EndOf(p.context).value) || m in Compactable(p)
  {
    hide Compactable, NewEnd;
    var closed, ms := ClosedMessages(p.messages), Compactable(p);
    CompactableInOrder(p);
    RemainingExactly(p);
    RemainingAre(p);
  }

  lemma CompactableInOrder(p: Projection)
    requires ClosedInOrder(ClosedMessages(p.messages)) && Selected(|Compactable(p)|) > 0
    ensures SplitAt(Compactable(p), Selected(|Compactable(p)|), NewEnd(p))
  {
    hide ClosedMessages, Visible, ClosedInOrder;
    var closed, ms := ClosedMessages(p.messages), Compactable(p);
    VisibleIsTail(closed, EndOf(p.context));
    TailInOrder(closed, |closed| - |ms|);
    InOrderSplits(ms, Selected(|ms|));
  }

  lemma TailInOrder(closed: seq<Message>, n: nat)
    requires ClosedInOrder(closed) && n <= |closed|
    ensures ClosedInOrder(closed[n..])
  {
  }

  lemma InOrderSplits(ms: seq<Message>, k: nat)
    requires ClosedInOrder(ms) && 0 < k <= |ms|
    ensures SplitAt(ms, k, ms[k - 1].lastEventId)
  {
  }

  lemma RemainingAre(p: Projection)
    requires Selected(|Compactable(p)|) > 0
    ensures forall m :: m in ClosedMessages(p.messages) ==> (m.lastEventId <= NewEnd(p) <==> m !in Remaining(p))
    ensures forall m :: m in ClosedMessages(p.messages) ==>
              (EndOf(p.context).Some? && m.lastEventId <= EndOf(p.context).value) || m in Compactable(p)
  {
    var closed := ClosedMessages(p.messages);
    FilterKeeps(closed, (m: Message) => After(m, Some(NewEnd(p))));
    FilterKeeps(closed, (m: Message) => After(m, EndOf(p.context)));
    hide Filter, ClosedMessages, NewEnd;
  }

  // ---------------------------------------------------------------- a log that loses messages

  function Opened(id: Id, role: MessageRole): SemanticEvent {
    MessageEv(MessageStarted(id, if role == AssistantRole then "assistant" else "", role,
                             if role == AssistantRole then AgentAuthor("assistant") else UserAuthor))
  }

  function Said(id: Id, role: MessageRole): seq<SemanticEvent> { [Opened(id, role), MessageEv(MessageCompleted(id))] }

  function Told(id: Id, role: MessageRole, first: EventId): Message {
    NewMessage(id, if role == AssistantRole then "assistant" else "", role,
               if role == AssistantRole then AgentAuthor("assistant") else UserAuthor, first)
  }

  /** An assistant message is left open by a crash; two exchanges follow, and then it is interrupted. */
  function LateLog(): seq<SemanticEvent> {
    [SessionEv(SessionCreated(None)), Opened("a", AssistantRole)]
    + Said("b", UserRole) + Said("c", AssistantRole) + Said("d", UserRole) + Said("e", AssistantRole)
    + [MessageEv(MessageInterrupted("a"))]
  }

  /** A session in which nothing but messages has happened. */
  function Talk(s: Id, last: EventId, ms: seq<Message>): Projection {
    Projection(SessionState(s, Created, 0, Some(last)), ms, Agents(map[], map[]), map[], Queue(map[], false), Context([], None, None, None))
  }

  lemma SaidReplay(s: Id, last: EventId, ms: seq<Message>, id: Id, role: MessageRole)
    requires forall m :: m in ms ==> m.messageId != id
    ensures Replay(Talk(s, last, ms), last + 1, Said(id, role)) ==
            Outcome(Talk(s, last + 2, ms + [Told(id, role, last + 1).(completed := true, lastEventId := last + 2)]), None)
  {
    var p, e := Talk(s, last, ms), Said(id, role);
    assert e == [e[0]] + [e[1]];
    ReplayOne(p, last + 1, e[0]);
    ReplayAppend(p, last + 1, [e[0]], [e[1]]);
    var told := Told(id, role, last + 1);
    var q := Talk(s, last + 1, ms + [told]);
    NewIndex(ms, told);
    assert Step(p, last + 1, e[0]) == Outcome(q, None);
    ReplayOne(q, last + 2, e[1]);
    assert (ms + [told])[|ms| := told.(completed := true, lastEventId := last + 2)] == ms + [told.(completed := true, lastEventId := last + 2)];
  }

  lemma NewIndex(ms: seq<Message>, m: Message)
    requires forall x :: x in ms ==> x.messageId != m.messageId
    ensures IndexOf(ms, m.messageId) == |ms| && IndexOf(ms + [m], m.messageId) == |ms|
  {
    assert forall j :: 0 <= j < |ms| ==> ms[j] in ms && (ms + [m])[j] == ms[j];
    assert (ms + [m])[|ms|] == m;
  }

  function LateMessages(): seq<Message> {
    [ Told("a", AssistantRole, 2).(interrupted := true, lastEventId := 11),
      Told("b", UserRole, 3).(completed := true, lastEventId := 4),
      Told("c", AssistantRole, 5).(completed := true, lastEventId := 6),
      Told("d", UserRole, 7).(completed := true, lastEventId := 8),
      Told("e", AssistantRole, 9).(completed := true, lastEventId := 10) ]
  }

  lemma LateStart(s: Id)
    ensures Replay(New(s), 1, [SessionEv(SessionCreated(None)), Opened("a", AssistantRole)]) ==
            Outcome(Talk(s, 2, [Told("a", AssistantRole, 2)]), None)
  {
    var e1, e2 := SessionEv(SessionCreated(None)), Opened("a", AssistantRole);
    assert [e1, e2] == [e1] + [e2];
    ReplayOne(New(s), 1, e1);
    ReplayAppend(New(s), 1, [e1], [e2]);
    assert Step(New(s), 1, e1) == Outcome(Talk(s, 1, []), None);
    ReplayOne(Talk(s, 1, []), 2, e2);
    NewIndex([], Told("a", AssistantRole, 2));
    assert [] + [Told("a", AssistantRole, 2)] == [Told("a", AssistantRole, 2)];
  }

  lemma LateExchange(s: Id, last: EventId, ms: seq<Message>, u: Id, a: Id)
    requires u != a && forall m :: m in ms ==> m.messageId != u && m.messageId != a
    ensures Replay(Talk(s, last, ms), last + 1, Said(u, UserRole) + Said(a, AssistantRole)) ==
            Outcome(Talk(s, last + 4, ms + [Told(u, UserRole, last + 1).(completed := true, lastEventId := last + 2),
                                            Told(a, AssistantRole, last + 3).(completed := true, lastEventId := last + 4)]), None)
  {
    var said := Told(u, UserRole, last + 1).(completed := true, lastEventId := last + 2);
    var answered := Told(a, AssistantRole, last + 3).(completed := true, lastEventId := last + 4);
    SaidReplay(s, last, ms, u, UserRole);
    SaidReplay(s, last + 2, ms + [said], a, AssistantRole);
    ReplayAppend(Talk(s, last, ms), last + 1, Said(u, UserRole), Said(a, AssistantRole));
    assert ms + [said] + [answered] == ms + [said, answered];
    hide Replay, Step;
  }

  lemma LateEnd(s: Id, ms: seq<Message>)
    requires ms != [] && ms[0] == Told("a", AssistantRole, 2)
    ensures Replay(Talk(s, 10, ms), 11, [MessageEv(MessageInterrupted("a"))]) ==
            Outcome(Talk(s, 11, ms[0 := ms[0].(interrupted := true, lastEventId := 11)]), None)
  {
    ReplayOne(Talk(s, 10, ms), 11, MessageEv(MessageInterrupted("a")));
    assert IndexOf(ms, "a") == 0;
  }

  lemma LateFold(s: Id)
    ensures Fold(s, LateLog()) == Outcome(Talk(s, 11, LateMessages()), None)
  {
    hide Replay, Step, Said, Talk, Told;
    var start := [SessionEv(SessionCreated(None)), Opened("a", AssistantRole)];
    var one, two := Said("b", UserRole) + Said("c", AssistantRole), Said("d", UserRole) + Said("e", AssistantRole);
    var end := [MessageEv(MessageInterrupted("a"))];
    LateIds();
    LateStart(s);
    LateExchange(s, 2, LateOpen()[..1], "b", "c");
    LateExchange(s, 6, LateOpen()[..3], "d", "e");
    LateEnd(s, LateOpen());
    ReplayAppend(New(s), 1, start, one);
    ReplayAppend(New(s), 1, start + one, two);
    ReplayAppend(New(s), 1, start + one + two, end);
    assert LateLog() == start + one + two + end;
  }

  /** The messages before the last event. */
  function LateOpen(): seq<Message> { LateMessages()[0 := Told("a", AssistantRole, 2)] }

  lemma LateIds()
    ensures |LateOpen()| == 5 && LateOpen()[0] == Told("a", AssistantRole, 2)
    ensures forall m :: m in LateOpen()[..1] ==> m.messageId != "b" && m.messageId != "c"
    ensures forall m :: m in LateOpen()[..3] ==> m.messageId != "d" && m.messageId != "e"
    ensures LateOpen()[..1] == [Told("a", AssistantRole, 2)]
    ensures LateOpen()[..3] == LateOpen()[..1] + [Told("b", UserRole, 3).(completed := true, lastEventId := 4),
                                                  Told("c", AssistantRole, 5).(completed := true, lastEventId := 6)]
    ensures LateOpen() == LateOpen()[..3] + [Told("d", UserRole, 7).(completed := true, lastEventId := 8),
                                             Told("e", AssistantRole, 9).(completed := true, lastEventId := 10)]
    ensures LateOpen()[0 := LateOpen()[0].(interrupted := true, lastEventId := 11)] == LateMessages()
    ensures |Said("b", UserRole)| == |Said("c", AssistantRole)| == |Said("d", UserRole)| == |Said("e", AssistantRole)| == 2
  {
  }

  /** That log is accepted. Compacting its projection summarises the first message only, and then shows none of the
      other four. */
  lemma LateCloseLosesMessages(s: Id)
    ensures Accepted(s, LateLog())
    ensures var p := Fold(s, LateLog()).value;
            && Compactable(p) == LateMessages()
            && Selected(|Compactable(p)|) == 1
            && Remaining(p) == []
  {
    LateFold(s);
    LateVisible();
    hide Fold, LateMessages, Told, Visible, ClosedMessages, LateLog;
  }

  lemma LateVisible()
    ensures var ms := LateMessages();
            && ClosedMessages(ms) == ms && Visible(ms, None) == ms && Visible(ms, Some(11)) == []
            && |ms| == 5 && ms[0].lastEventId == 11
  {
    LateTimes();
    hide LateMessages, Told;
    var ms := LateMessages();
    FilterAll(ms, (m: Message) => m.Closed());
    FilterAll(ms, (m: Message) => After(m, None));
    VisibleCount(ms, 11, 5);
    assert ms[5..] == [];
  }

  lemma LateTimes()
    ensures |LateMessages()| == 5 && LateMessages()[0].lastEventId == 11
    ensures forall i :: 0 <= i < 5 ==> LateMessages()[i].Closed() && LateMessages()[i].lastEventId <= 11
  {
  }

  // ---------------------------------------------------------------- what an artifact says of the calls it covers

  /** The message that emitted the call is there and lies in the range. */
  predicate CallCovered(ms: seq<Message>, call: ToolCall, end: EventId) {
    var i := IndexOf(ms, call.assistantMessageId);
    i < |ms| && ms[i].lastEventId <= end
  }

  function CorrelationAt(q: Queue, x: Place): ToolCorrelation
    requires IsCall(q, x)
  {
    ToolCorrelation(CallAt(q, x).callId, CallAt(q, x).toolName, q.runs[x.run].runId)
  }

  function Correlations(p: Projection, end: EventId): seq<ToolCorrelation> {
    var keep := (x: Place) => IsCall(p.queue, x) && CallCovered(p.messages, CallAt(p.queue, x), end);
    var covered := Filter(PlacesOf(p.queue), keep);
    FilterKeeps(PlacesOf(p.queue), keep);
    seq(|covered|, i requires 0 <= i < |covered| => assert covered[i] in covered; CorrelationAt(p.queue, covered[i]))
  }

  lemma {:induction false} FilterInOrder(places: seq<Place>, keep: Place -> bool)
    requires InOrder(places)
    ensures InOrder(Filter(places, keep))
    decreases |places|
  {
    hide Ahead;
    if places != [] {
      var n := |places| - 1;
      FilterInOrder(places[..n], keep);
      FilterKeeps(places[..n], keep);
      var before := Filter(places[..n], keep);
      forall a | a in before ensures Ahead(a, places[n]) {
        assert a in places[..n];
      }
      hide InOrder, Filter;
      NoneInOrder();
      if keep(places[n]) {
        OneInOrder(places[n]);
        InOrderConcat(before, [places[n]]);
      }
      assert places[..n] + [places[n]] == places;
      FilterLast(places[..n], places[n], keep);
    }
  }

  lemma OneInOrder(x: Place)
    ensures InOrder([x])
  {
  }

  /** A call is either shown in the requests made with the artifact or among its correlations, never both; these come in key
      order of run and then call, each once. */
  lemma CorrelationsAreTheRest(p: Projection, end: EventId)
    ensures exists places :: IsRest(p, end, Correlations(p, end), places)
  {
    hide Ahead, CallCovered, CallVisible, PlacesOf;
    var keep := (x: Place) => IsCall(p.queue, x) && CallCovered(p.messages, CallAt(p.queue, x), end);
    var places := Filter(PlacesOf(p.queue), keep);
    CallsAreListed(p.queue);
    FilterInOrder(PlacesOf(p.queue), keep);
    FilterKeeps(PlacesOf(p.queue), keep);
    forall c ensures CallCovered(p.messages, c, end) <==> !CallVisible(p.messages, c, Some(end)) {
      CoveredOrVisible(p.messages, c, end);
    }
    assert IsRest(p, end, Correlations(p, end), places);
  }

  ghost predicate IsRest(p: Projection, end: EventId, list: seq<ToolCorrelation>, places: seq<Place>) {
    && InOrder(places) && |places| == |list|
    && (forall x :: x in places <==> IsCall(p.queue, x) && !CallVisible(p.messages, CallAt(p.queue, x), Some(end)))
    && (forall i :: 0 <= i < |places| && IsCall(p.queue, places[i]) ==>
          && list[i].callId == CallAt(p.queue, places[i]).callId && list[i].toolName == CallAt(p.queue, places[i]).toolName
          && list[i].runId == p.queue.runs[places[i].run].runId)
  }

  lemma CoveredOrVisible(ms: seq<Message>, c: ToolCall, end: EventId)
    ensures CallCovered(ms, c, end) <==> !CallVisible(ms, c, Some(end))
  {
  }

  // ---------------------------------------------------------------- the decision

  datatype Built =
    | Bypassed
    | Fits
    | Compacted(artifact: ContextArtifact)
    | OverBudget
    | SummaryFailed

  /** What the caller asked for and what the environment answers. `estimate` is the token estimate of the body built
      with a given active artifact. */
  datatype Inputs = Inputs(
    runId: Id,
    callerOwnsTranscript: bool,
    budget: Budget,
    strategy: CompactionStrategy,
    artifactId: Id,
    summary: Option<string>,
    estimate: Option<ContextArtifact> -> nat)

  function ArtifactFor(p: Projection, i: Inputs): ContextArtifact
    requires Selected(|Compactable(p)|) > 0 && i.summary.Some? && ValidBudget(i.budget)
  {
    ContextArtifact(i.artifactId,
                    if p.context.activeArtifact.Some? then Some(p.context.activeArtifact.value.artifactId) else None,
                    i.strategy, NewStart(p), NewEnd(p), i.budget.window, i.budget.reserve,
                    i.estimate(p.context.activeArtifact),
                    Target(i.budget),
                    i.summary.value, Correlations(p, NewEnd(p)))
  }

  /** The artifact the body that is sent was built with. */
  function ArtifactSent(p: Projection, b: Built): Option<ContextArtifact> {
    if b.Compacted? then Some(b.artifact) else p.context.activeArtifact
  }

  predicate Sends(b: Built) { b.Bypassed? || b.Fits? || b.Compacted? }

  /** The steps of `build_compacted_body`. Outside the bypass a body that is sent fits into the window less the reserve.
      A compaction is recorded exactly when its body is sent, and what is recorded is the artifact it was built with. */
  method BuildCompactedBody(p: Projection, i: Inputs) returns (b: Built, events: seq<SemanticEvent>)
    requires ValidBudget(i.budget)
    ensures b.Bypassed? <==> i.callerOwnsTranscript
    ensures Sends(b) && !b.Bypassed? ==> i.estimate(ArtifactSent(p, b)) <= InputBudget(i.budget)
    ensures b.Fits? <==>
              !i.callerOwnsTranscript && i.estimate(p.context.activeArtifact) as real < InputBudget(i.budget) as real * i.budget.triggerRatio
    ensures var wanted := !i.callerOwnsTranscript && !b.Fits? && |Compactable(p)| > KEEP;
            && (b.SummaryFailed? <==> wanted && i.summary.None?)
            && (b.Compacted? <==> wanted && i.summary.Some? && i.estimate(Some(ArtifactFor(p, i))) <= InputBudget(i.budget))
            && (b.Compacted? ==> b.artifact == ArtifactFor(p, i))
            && (ContextEv(ContextCompactionStarted(i.runId, i.artifactId, i.strategy,
                                                   if wanted then NewStart(p) else 0, if wanted then NewEnd(p) else 0)) in events
                <==> wanted)
    ensures forall code :: ContextEv(ContextCompactionFailed(i.runId, i.artifactId, code)) in events <==>
              || (b.OverBudget? && code == "context_budget_exceeded")
              || (b.SummaryFailed? && code == "context_compaction_failed")
    ensures forall e :: e in events ==> e.ContextEv?
    ensures forall a :: ContextEv(ContextCompacted(i.runId, a)) in events <==> b == Compacted(a)
    ensures forall e :: e in events ==> Continues(p.context, e)
  {
    events := [];
    if i.callerOwnsTranscript {
      events := [ContextEv(ContextCompactionBypassed(i.runId, "caller_owned_transcript"))];
      return Bypassed, events;
    }
    var estimate := i.estimate(p.context.activeArtifact);
    ThresholdsAreExact(i.budget, estimate);
    TriggerWithinBudget(i.budget);
    if estimate < Trigger(i.budget) {
      return Fits, events;
    }
    var compactable := Compactable(p);
    var keep := Selected(|compactable|);
    if keep == 0 {
      events := [ContextEv(ContextCompactionFailed(i.runId, i.artifactId, "context_budget_exceeded"))];
      return OverBudget, events;
    }
    events := events + [ContextEv(ContextCompactionStarted(i.runId, i.artifactId, i.strategy, NewStart(p), NewEnd(p)))];
    if i.summary.None? {
      events := events + [ContextEv(ContextCompactionFailed(i.runId, i.artifactId, "context_compaction_failed"))];
      return SummaryFailed, events;
    }
    BuiltContinues(p, i);
    var artifact := ArtifactFor(p, i);
    if i.estimate(Some(artifact)) > InputBudget(i.budget) {
      events := events + [ContextEv(ContextCompactionFailed(i.runId, i.artifactId, "context_budget_exceeded"))];
      return OverBudget, events;
    }
    events := events + [ContextEv(ContextCompacted(i.runId, artifact))];
    return Compacted(artifact), events;
  }

  // ---------------------------------------------------------------- the chain

  /** A compaction continues the active artifact: same start, later end, and it says what it supersedes. */
  predicate Continues(c: Context, e: SemanticEvent) {
    e.ContextEv? && e.context.ContextCompacted? ==>
      var a := e.context.artifact;
      if c.activeArtifact.None? then a.supersedes.None?
      else
        && a.supersedes == Some(c.activeArtifact.value.artifactId)
        && a.sourceStart == c.activeArtifact.value.sourceStart
        && a.sourceEnd > c.activeArtifact.value.sourceEnd
  }

  /** What the builder records continues the chain, whatever the summary was. */
  lemma BuiltContinues(p: Projection, i: Inputs)
    requires Selected(|Compactable(p)|) > 0 && i.summary.Some? && ValidBudget(i.budget)
    ensures Continues(p.context, ContextEv(ContextCompacted(i.runId, ArtifactFor(p, i))))
  {
    RangeAdvances(p);
  }

  predicate Chained(sessionId: Id, log: seq<SemanticEvent>)
    decreases |log|
  {
    log == [] ||
    (Chained(sessionId, log[..|log| - 1]) && Continues(Fold(sessionId, log[..|log| - 1]).value.context, log[|log| - 1]))
  }

  predicate IsCompaction(e: SemanticEvent) { e.ContextEv? && e.context.ContextCompacted? }

  lemma ActiveStep(p: Projection, id: EventId, e: SemanticEvent)
    requires Step(p, id, e).Ok()
    ensures Step(p, id, e).value.context.activeArtifact ==
            if IsCompaction(e) then Some(e.context.artifact) else p.context.activeArtifact
  {
  }

  /** Every compaction so far has the active artifact's start, and ends no later. */
  predicate UpToActive(log: seq<SemanticEvent>, active: Option<ContextArtifact>) {
    forall j :: 0 <= j < |log| && IsCompaction(log[j]) ==>
      && active.Some?
      && active.value.sourceStart == log[j].context.artifact.sourceStart
      && log[j].context.artifact.sourceEnd <= active.value.sourceEnd
  }

  /** Any two compactions share their start, and the later one ends strictly later. */
  predicate OneChain(log: seq<SemanticEvent>) {
    forall j, k :: 0 <= j < k < |log| && IsCompaction(log[j]) && IsCompaction(log[k]) ==>
      && log[j].context.artifact.sourceStart == log[k].context.artifact.sourceStart
      && log[j].context.artifact.sourceEnd < log[k].context.artifact.sourceEnd
  }

  lemma ChainNext(log: seq<SemanticEvent>, c: Context, e: SemanticEvent)
    requires UpToActive(log, c.activeArtifact) && OneChain(log) && Continues(c, e)
    ensures UpToActive(log + [e], if IsCompaction(e) then Some(e.context.artifact) else c.activeArtifact)
    ensures OneChain(log + [e])
  {
    assert forall j :: 0 <= j < |log| ==> (log + [e])[j] == log[j];
  }

  /** Over a whole log: every two compactions share their start, the later one ends strictly later, and the active
      artifact is the last of them. */
  lemma {:induction false} CompactionChain(sessionId: Id, log: seq<SemanticEvent>)
    requires Accepted(sessionId, log) && Chained(sessionId, log)
    ensures UpToActive(log, Fold(sessionId, log).value.context.activeArtifact)
    ensures OneChain(log)
    decreases |log|
  {
    hide Fold, Step, UpToActive, OneChain, Continues;
    if log == [] {
      NoChain(Fold(sessionId, []).value.context.activeArtifact);
    } else {
      var n := |log| - 1;
      FoldLast(sessionId, log);
      CompactionChain(sessionId, log[..n]);
      ActiveStep(Fold(sessionId, log[..n]).value, n + 1, log[n]);
      assert log == log[..n] + [log[n]];
      ChainNext(log[..n], Fold(sessionId, log[..n]).value.context, log[n]);
    }
  }

  lemma NoChain(active: Option<ContextArtifact>)
    ensures UpToActive([], active) && OneChain([])
  {
  }

  /** The k-th event records what the builder made of a projection read earlier, with no compaction since: the session's
      lock keeps other builders out. */
  ghost predicate BuiltAt(sessionId: Id, log: seq<SemanticEvent>, k: nat, j: nat, i: Inputs)
    requires k < |log| && IsCompaction(log[k])
  {
    && j <= k && (forall m :: j <= m < k ==> !IsCompaction(log[m]))
    && i.summary.Some? && ValidBudget(i.budget)
    && (var p := Fold(sessionId, log[..j]).value;
        Selected(|Compactable(p)|) > 0 && log[k].context.artifact == ArtifactFor(p, i))
  }

  ghost predicate AllBuilt(sessionId: Id, log: seq<SemanticEvent>) {
    forall k :: 0 <= k < |log| && IsCompaction(log[k]) ==> exists j: nat, i :: BuiltAt(sessionId, log, k, j, i)
  }

  lemma {:induction false} ActiveKept(sessionId: Id, log: seq<SemanticEvent>, j: nat)
    requires Accepted(sessionId, log) && j <= |log| && forall m :: j <= m < |log| ==> !IsCompaction(log[m])
    ensures Fold(sessionId, log).value.context.activeArtifact == Fold(sessionId, log[..j]).value.context.activeArtifact
    decreases |log|
  {
    if j == |log| {
      assert log[..j] == log;
    } else {
      var n := |log| - 1;
      FoldLast(sessionId, log);
      ActiveKept(sessionId, log[..n], j);
      assert log[..n][..j] == log[..j];
      ActiveStep(Fold(sessionId, log[..n]).value, n + 1, log[n]);
    }
  }

  lemma BuiltPrefix(sessionId: Id, log: seq<SemanticEvent>)
    requires AllBuilt(sessionId, log) && log != []
    ensures AllBuilt(sessionId, log[..|log| - 1])
  {
    hide Fold, ArtifactFor, Compactable;
    var less := log[..|log| - 1];
    forall k | 0 <= k < |less| && IsCompaction(less[k]) ensures exists j: nat, i :: BuiltAt(sessionId, less, k, j, i) {
      var j: nat, i :| BuiltAt(sessionId, log, k, j, i);
      assert less[..j] == log[..j];
      assert BuiltAt(sessionId, less, k, j, i);
    }
  }

  lemma BuiltEventContinues(sessionId: Id, log: seq<SemanticEvent>, j: nat, i: Inputs)
    requires log != [] && Accepted(sessionId, log[..|log| - 1]) && IsCompaction(log[|log| - 1])
    requires BuiltAt(sessionId, log, |log| - 1, j, i)
    ensures Continues(Fold(sessionId, log[..|log| - 1]).value.context, log[|log| - 1])
  {
    var n := |log| - 1;
    var p := Fold(sessionId, log[..j]).value;
    ActiveKept(sessionId, log[..n], j);
    assert log[..n][..j] == log[..j];
    BuiltContinues(p, i);
    hide Fold, ArtifactFor, Compactable;
  }

  /** Main result: in a log whose compactions come from the builder, compactions form one chain. */
  lemma {:induction false} BuiltIsChained(sessionId: Id, log: seq<SemanticEvent>)
    requires Accepted(sessionId, log) && AllBuilt(sessionId, log)
    ensures Chained(sessionId, log)
    ensures OneChain(log) && UpToActive(log, Fold(sessionId, log).value.context.activeArtifact)
    decreases |log|
  {
    if log != [] {
      var n := |log| - 1;
      PrefixAccepted(sessionId, log, n);
      BuiltPrefix(sessionId, log);
      BuiltIsChained(sessionId, log[..n]);
      if IsCompaction(log[n]) {
        var j: nat, i :| BuiltAt(sessionId, log, n, j, i);
        BuiltEventContinues(sessionId, log, j, i);
      }
    }
    CompactionChain(sessionId, log);
  }

  // ---------------------------------------------------------------- logs that grow and fork

  lemma BuiltStays(sessionId: Id, log: seq<SemanticEvent>, more: seq<SemanticEvent>, k: nat, j: nat, i: Inputs)
    requires k < |log| && IsCompaction(log[k]) && BuiltAt(sessionId, log, k, j, i)
    ensures IsCompaction((log + more)[k]) && BuiltAt(sessionId, log + more, k, j, i)
  {
    hide Fold, ArtifactFor, Compactable;
    assert (log + more)[..j] == log[..j];
  }

  /** Other events change nothing. */
  lemma AllBuiltMore(sessionId: Id, log: seq<SemanticEvent>, more: seq<SemanticEvent>)
    requires AllBuilt(sessionId, log) && forall i :: 0 <= i < |more| ==> !IsCompaction(more[i])
    ensures AllBuilt(sessionId, log + more)
  {
    hide BuiltAt;
    forall k | |log| <= k < |log + more| ensures !IsCompaction((log + more)[k]) {
      assert (log + more)[k] == more[k - |log|];
    }
    forall k | 0 <= k < |log + more| && IsCompaction((log + more)[k]) ensures exists j: nat, i :: BuiltAt(sessionId, log + more, k, j, i) {
      var j: nat, i :| BuiltAt(sessionId, log, k, j, i);
      BuiltStays(sessionId, log, more, k, j, i);
    }
  }

  /** What the builder makes of a projection read after `j` events, with no compaction since. */
  ghost predicate BuiltFrom(sessionId: Id, log: seq<SemanticEvent>, j: nat, i: Inputs, e: ContextEvent) {
    && j <= |log| && (forall m :: j <= m < |log| ==> !IsCompaction(log[m]))
    && e.ContextCompacted? && i.summary.Some? && ValidBudget(i.budget)
    && (var p := Fold(sessionId, log[..j]).value;
        Selected(|Compactable(p)|) > 0 && e.artifact == ArtifactFor(p, i))
  }

  lemma AllBuiltCompacted(sessionId: Id, log: seq<SemanticEvent>, j: nat, i: Inputs, e: ContextEvent)
    requires AllBuilt(sessionId, log) && BuiltFrom(sessionId, log, j, i, e)
    ensures AllBuilt(sessionId, log + [ContextEv(e)])
  {
    hide Fold, ArtifactFor, Compactable, BuiltAt, BuiltFrom;
    var more := log + [ContextEv(e)];
    NewIsBuilt(sessionId, log, j, i, e);
    forall k | 0 <= k < |more| && IsCompaction(more[k]) ensures exists j: nat, i :: BuiltAt(sessionId, more, k, j, i) {
      if k < |log| {
        var j': nat, i' :| BuiltAt(sessionId, log, k, j', i');
        BuiltStays(sessionId, log, [ContextEv(e)], k, j', i');
      }
    }
  }

  lemma NewIsBuilt(sessionId: Id, log: seq<SemanticEvent>, j: nat, i: Inputs, e: ContextEvent)
    requires BuiltFrom(sessionId, log, j, i, e)
    ensures BuiltAt(sessionId, log + [ContextEv(e)], |log|, j, i)
  {
    hide Fold, ArtifactFor, Compactable;
    assert (log + [ContextEv(e)])[..j] == log[..j];
  }

  lemma AllBuiltPrefix(sessionId: Id, log: seq<SemanticEvent>, n: nat)
    requires AllBuilt(sessionId, log) && n <= |log|
    ensures AllBuilt(sessionId, log[..n])
  {
    hide Fold, ArtifactFor, Compactable;
    var less := log[..n];
    forall k | 0 <= k < |less| && IsCompaction(less[k]) ensures exists j: nat, i :: BuiltAt(sessionId, less, k, j, i) {
      var j: nat, i :| BuiltAt(sessionId, log, k, j, i);
      assert less[..j] == log[..j];
      assert BuiltAt(sessionId, less, k, j, i);
    }
  }

  /** A copy of the log under another id has the same messages and the same artifact at every point. */
  lemma AllBuiltRenamed(a: Id, b: Id, log: seq<SemanticEvent>)
    requires AllBuilt(a, log)
    ensures AllBuilt(b, log)
  {
    hide Fold;
    forall k | 0 <= k < |log| && IsCompaction(log[k]) ensures exists j: nat, i :: BuiltAt(b, log, k, j, i) {
      var j: nat, i :| BuiltAt(a, log, k, j, i);
      StoreSpec.FoldRenamed(a, b, log[..j]);
      SameArtifact(Fold(a, log[..j]).value, Fold(b, log[..j]).value, i);
      assert BuiltAt(b, log, k, j, i);
    }
  }

  lemma SameArtifact(p: Projection, q: Projection, i: Inputs)
    requires p.messages == q.messages && p.context == q.context && p.queue == q.queue
    requires Selected(|Compactable(p)|) > 0 && i.summary.Some? && ValidBudget(i.budget)
    ensures Selected(|Compactable(q)|) > 0 && ArtifactFor(p, i) == ArtifactFor(q, i)
  {
  }
}
