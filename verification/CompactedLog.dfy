/** A conversation long enough to be compacted, as the worker writes it, and the requests built from it. The transcript
    places tool calls by counting all closed messages; once an artifact covers some, calls land on the wrong entry, and
    later past the end (`build_body` in piqo-server/src/supervisor.rs). */
module CompactedLog {
  import opened Prelude
  import opened Events
  import opened Session
  import opened RequestBody
  import opened Compaction

  // ---------------------------------------------------------------- the events

  /** Identifiers told apart by their length. */
  function Name(i: nat): (s: Id)
    ensures |s| == i + 1
  {
    seq(i + 1, k => 'x')
  }

  const RUNS := 5

  /** Five runs are queued, and the worker sets out. */
  function Head(): seq<SemanticEvent> {
    [SessionEv(SessionCreated(None))] + Queueing(RUNS) + [SessionEv(SessionPhaseChanged(Created, Running, Some("run_started")))]
  }

  function Queueing(n: nat): seq<SemanticEvent> {
    seq(n, t requires 0 <= t < n => RunEv(RunQueued(Name(t), None, "p", "m", Null)))
  }

  /** A run starts, and its input becomes the user's message. */
  function Asked(t: nat): seq<SemanticEvent> {
    [ RunEv(RunStarted(Name(t), "attempt", 1)), Opened(Name(2 * t), UserRole),
      MessageEv(MessageContentAppended(Name(2 * t), TextBlock("question"))), MessageEv(MessageCompleted(Name(2 * t))) ]
  }

  /** The model answers, every second time with a tool call, and the run completes. */
  function Answered(t: nat): seq<SemanticEvent> {
    [ Opened(Name(2 * t + 1), AssistantRole), Content(t),
      MessageEv(MessageCompleted(Name(2 * t + 1))), RunEv(RunCompleted(Name(t), None)) ]
  }

  predicate CallsTool(t: nat) { t % 2 == 1 }

  function Content(t: nat): SemanticEvent {
    if CallsTool(t) then ToolEv(ToolCallEmitted(Name(t), Name(t), Name(2 * t + 1), "assistant", "lookup", Null, "", false))
    else MessageEv(MessageContentAppended(Name(2 * t + 1), TextBlock("answer")))
  }

  /** The log until `k` messages are closed. */
  function LogTo(k: nat): seq<SemanticEvent> {
    if k == 0 then Head() else LogTo(k - 1) + TurnEvents(k - 1)
  }

  /** What closes the next message after `k`. */
  function TurnEvents(k: nat): seq<SemanticEvent> { if k % 2 == 0 then Asked(k / 2) else Answered(k / 2) }

  // ---------------------------------------------------------------- what they fold to

  /** The compaction, two events, comes after seven messages. */
  function Shift(i: nat): nat { if i < 7 then 0 else 2 }

  function MessageAt(i: nat): Message {
    var start := 7 + 8 * (i / 2) + Shift(i);
    if i % 2 == 0 then
      Told(Name(i), UserRole, start + 2).(blocks := [TextBlock("question")], completed := true, lastEventId := start + 4)
    else
      Told(Name(i), AssistantRole, start + 5).(blocks := if CallsTool(i / 2) then [] else [TextBlock("answer")],
                                               completed := true, lastEventId := start + 7)
  }

  function Messages(k: nat): (ms: seq<Message>)
    ensures |ms| == k
  {
    seq(k, i requires 0 <= i < k => MessageAt(i))
  }

  /** The id of the last event when `k` messages are closed; an answer is followed by the end of its run. */
  function LastAt(k: nat): nat { if k == 0 then 7 else MessageAt(k - 1).lastEventId + (if k % 2 == 0 then 1 else 0) }

  function CallAt(t: nat): ToolCall { ToolCall(Name(t), Name(2 * t + 1), "assistant", "lookup", Null, "", false, None, None) }

  /** Run t when `k` messages are closed. */
  function RunAt(t: nat, k: nat): Run {
    var queued := NewRun(Name(t), None, "p", "m", Null);
    if k <= 2 * t then queued
    else
      var going := queued.(status := RunRunning, attemptId := Some("attempt"), attempts := 1);
      if k == 2 * t + 1 then going
      else going.(status := Completed, toolCalls := if CallsTool(t) then map[Name(t) := CallAt(t)] else map[])
  }

  function RunIds(n: nat): set<Id> { set t | 0 <= t < n :: Name(t) }

  function Runs(n: nat, k: nat): map<Id, Run> { map r | r in RunIds(n) :: RunAt(|r| - 1, k) }

  function Chat(s: Id, last: EventId, ms: seq<Message>, runs: map<Id, Run>, artifact: Option<ContextArtifact>): Projection {
    Projection(SessionState(s, Running, 1, Some(last)), ms, Agents(map[], map[]), map[], Queue(runs, false), Context([], artifact, None, None))
  }

  // ---------------------------------------------------------------- replaying it

  lemma FoldOn(s: Id, log: seq<SemanticEvent>, p: Projection, batch: seq<SemanticEvent>, q: Projection)
    requires Fold(s, log) == Outcome(p, None) && Replay(p, |log| + 1, batch) == Outcome(q, None)
    ensures Fold(s, log + batch) == Outcome(q, None)
  {
    ReplayAppend(New(s), 1, log, batch);
  }

  /** Four events, with the projections between them. */
  lemma ReplayFour(n: EventId, e: seq<SemanticEvent>, p: seq<Projection>)
    requires |e| == 4 && |p| == 5
    requires forall i :: 0 <= i < 4 ==> Step(p[i], n + i, e[i]) == Outcome(p[i + 1], None)
    ensures Replay(p[0], n, e) == Outcome(p[4], None)
  {
    hide Step;
    assert e == [e[0]] + [e[1]] + [e[2]] + [e[3]];
    ReplayOne(p[0], n, e[0]);
    ReplayOne(p[1], n + 1, e[1]);
    ReplayOne(p[2], n + 2, e[2]);
    ReplayOne(p[3], n + 3, e[3]);
    ReplayAppend(p[0], n, [e[0]], [e[1]]);
    ReplayAppend(p[0], n, [e[0]] + [e[1]], [e[2]]);
    ReplayAppend(p[0], n, [e[0]] + [e[1]] + [e[2]], [e[3]]);
  }

  // One event of a conversation.

  lemma StartStep(s: Id, last: nat, ms: seq<Message>, runs: map<Id, Run>, a: Option<ContextArtifact>, r: Id)
    requires r in runs && runs[r].status == Queued
    ensures Step(Chat(s, last, ms, runs, a), last + 1, RunEv(RunStarted(r, "attempt", 1))) ==
            Outcome(Chat(s, last + 1, ms, runs[r := runs[r].(status := RunRunning, attemptId := Some("attempt"), attempts := 1)], a), None)
  {
  }

  lemma OpenStep(s: Id, last: nat, ms: seq<Message>, runs: map<Id, Run>, a: Option<ContextArtifact>, id: Id, role: MessageRole)
    requires IndexOf(ms, id) == |ms|
    ensures Step(Chat(s, last, ms, runs, a), last + 1, Opened(id, role)) ==
            Outcome(Chat(s, last + 1, ms + [Told(id, role, last + 1)], runs, a), None)
  {
  }

  lemma BlockStep(s: Id, last: nat, ms: seq<Message>, m: Message, runs: map<Id, Run>, a: Option<ContextArtifact>, block: ContentBlock)
    requires IndexOf(ms + [m], m.messageId) == |ms| && !m.Closed()
    ensures Step(Chat(s, last, ms + [m], runs, a), last + 1, MessageEv(MessageContentAppended(m.messageId, block))) ==
            Outcome(Chat(s, last + 1, ms + [m.(blocks := m.blocks + [block], lastEventId := last + 1)], runs, a), None)
  {
    LastBlock(last + 1, ms, m, block);
    hide StepMessages;
  }

  lemma LastBlock(id: EventId, ms: seq<Message>, m: Message, block: ContentBlock)
    requires IndexOf(ms + [m], m.messageId) == |ms| && !m.Closed()
    ensures StepMessages(ms + [m], id, MessageContentAppended(m.messageId, block)) ==
            Outcome(ms + [m.(blocks := m.blocks + [block], lastEventId := id)], None)
  {
    hide IndexOf;
    LastReplaced(ms, m, m.(blocks := m.blocks + [block], lastEventId := id));
  }

  lemma LastClosed(id: EventId, ms: seq<Message>, m: Message)
    requires IndexOf(ms + [m], m.messageId) == |ms| && !m.Closed()
    ensures StepMessages(ms + [m], id, MessageCompleted(m.messageId)) ==
            Outcome(ms + [m.(completed := true, lastEventId := id)], None)
  {
    hide IndexOf;
    LastReplaced(ms, m, m.(completed := true, lastEventId := id));
  }

  lemma CloseStep(s: Id, last: nat, ms: seq<Message>, m: Message, runs: map<Id, Run>, a: Option<ContextArtifact>)
    requires IndexOf(ms + [m], m.messageId) == |ms| && !m.Closed()
    ensures Step(Chat(s, last, ms + [m], runs, a), last + 1, MessageEv(MessageCompleted(m.messageId))) ==
            Outcome(Chat(s, last + 1, ms + [m.(completed := true, lastEventId := last + 1)], runs, a), None)
  {
    LastClosed(last + 1, ms, m);
    hide StepMessages;
  }

  lemma LastReplaced(ms: seq<Message>, m: Message, x: Message)
    ensures (ms + [m])[|ms|] == m && (ms + [m])[|ms| := x] == ms + [x]
  {
  }

  lemma CallStep(s: Id, last: nat, ms: seq<Message>, runs: map<Id, Run>, a: Option<ContextArtifact>, t: nat)
    requires Name(t) in runs && runs[Name(t)].toolCalls == map[] && CallsTool(t)
    ensures Step(Chat(s, last, ms, runs, a), last + 1, Content(t)) ==
            Outcome(Chat(s, last + 1, ms, runs[Name(t) := runs[Name(t)].(toolCalls := map[Name(t) := CallAt(t)])], a), None)
  {
    assert map[][Name(t) := CallAt(t)] == map[Name(t) := CallAt(t)];
  }

  lemma EndStep(s: Id, last: nat, ms: seq<Message>, runs: map<Id, Run>, a: Option<ContextArtifact>, r: Id)
    requires r in runs && runs[r].status == RunRunning && runs[r].error.None?
    ensures Step(Chat(s, last, ms, runs, a), last + 1, RunEv(RunCompleted(r, None))) ==
            Outcome(Chat(s, last + 1, ms, runs[r := runs[r].(status := Completed, usage := None)], a), None)
  {
    RunEventMeaning(Queue(runs, false), RunCompleted(r, None));
  }

  /** A new message at the end of the list. */
  lemma AtTheEnd(k: nat, m: Message)
    requires m.messageId == Name(k)
    ensures IndexOf(Messages(k), Name(k)) == k && IndexOf(Messages(k) + [m], Name(k)) == k
    ensures Messages(k) + [MessageAt(k)] == Messages(k + 1)
  {
    hide MessageAt;
    forall x | x in Messages(k) ensures x.messageId != m.messageId {
      var i :| 0 <= i < k && x == MessageAt(i);
      NameOf(i);
      assert |x.messageId| == i + 1;
    }
    NewIndex(Messages(k), m);
  }

  lemma NameOf(i: nat)
    ensures MessageAt(i).messageId == Name(i)
  {
  }

  /** The run whose turn it is moves, and no other. */
  lemma RunMoves(n: nat, t: nat, k: nat)
    requires t < n && k / 2 == t
    ensures Name(t) in Runs(n, k) && Runs(n, k)[Name(t)] == RunAt(t, k)
    ensures Runs(n, k)[Name(t) := RunAt(t, k + 1)] == Runs(n, k + 1)
  {
    hide RunAt;
    assert Name(t) in RunIds(n);
    forall r | r in RunIds(n) && r != Name(t) ensures RunAt(|r| - 1, k) == RunAt(|r| - 1, k + 1) {
      Standing(r, n, t, k);
    }
    OneMoves(Runs(n, k), Name(t), RunAt(t, k + 1), Runs(n, k + 1));
  }

  lemma OneMoves(runs: map<Id, Run>, r: Id, run: Run, after: map<Id, Run>)
    requires r in runs && after.Keys == runs.Keys && after[r] == run && forall x :: x in runs && x != r ==> after[x] == runs[x]
    ensures runs[r := run] == after
  {
  }

  lemma Standing(r: Id, n: nat, t: nat, k: nat)
    requires r in RunIds(n) && r != Name(t) && k / 2 == t
    ensures RunAt(|r| - 1, k) == RunAt(|r| - 1, k + 1)
  {
    var x :| 0 <= x < n && r == Name(x);
  }

  /** What run t is before it starts, while it runs, and when it has completed. */
  lemma RunIs(t: nat)
    ensures var queued := NewRun(Name(t), None, "p", "m", Null);
            var going := queued.(status := RunRunning, attemptId := Some("attempt"), attempts := 1);
            && RunAt(t, 2 * t) == queued && RunAt(t, 2 * t + 1) == going
            && RunAt(t, 2 * t + 2) == going.(status := Completed, toolCalls := if CallsTool(t) then map[Name(t) := CallAt(t)] else map[])
  {
  }

  lemma AskedIs(t: nat, first: EventId)
    requires MessageAt(2 * t).firstEventId == first
    ensures MessageAt(2 * t) ==
            Told(Name(2 * t), UserRole, first).(blocks := [TextBlock("question")], completed := true, lastEventId := first + 2)
  {
  }

  lemma AnsweredIs(t: nat, first: EventId)
    requires MessageAt(2 * t + 1).firstEventId == first
    ensures MessageAt(2 * t + 1) ==
            Told(Name(2 * t + 1), AssistantRole, first).(blocks := if CallsTool(t) then [] else [TextBlock("answer")],
                                                         completed := true, lastEventId := first + 2)
  {
    assert (2 * t + 1) / 2 == t;
  }

  /** A user's turn: the run starts and its message is closed. */
  lemma AskedReplay(s: Id, t: nat, last: nat, a: Option<ContextArtifact>)
    requires t < RUNS && MessageAt(2 * t).firstEventId == last + 2
    ensures Replay(Chat(s, last, Messages(2 * t), Runs(RUNS, 2 * t), a), last + 1, Asked(t)) ==
            Outcome(Chat(s, last + 4, Messages(2 * t + 1), Runs(RUNS, 2 * t + 1), a), None)
  {
    hide Step, Chat, Runs, Messages, MessageAt, RunAt, Name, Replay, Opened;
    var id, ms, before, runs := Name(2 * t), Messages(2 * t), Runs(RUNS, 2 * t), Runs(RUNS, 2 * t + 1);
    var told := Told(id, UserRole, last + 2);
    var asked := told.(blocks := [TextBlock("question")], lastEventId := last + 3);
    RunMoves(RUNS, t, 2 * t);
    RunIs(t);
    AskedIs(t, last + 2);
    AtTheEnd(2 * t, told);
    AtTheEnd(2 * t, asked);
    StartStep(s, last, ms, before, a, Name(t));
    OpenStep(s, last + 1, ms, runs, a, id, UserRole);
    BlockStep(s, last + 2, ms, told, runs, a, TextBlock("question"));
    CloseStep(s, last + 3, ms, asked, runs, a);
    assert [] + [TextBlock("question")] == [TextBlock("question")];
    ReplayFour(last + 1, Asked(t),
      [ Chat(s, last, ms, before, a), Chat(s, last + 1, ms, runs, a), Chat(s, last + 2, ms + [told], runs, a),
        Chat(s, last + 3, ms + [asked], runs, a), Chat(s, last + 4, Messages(2 * t + 1), runs, a) ]);
  }

  /** The assistant's: its message is closed and the run completes. */
  lemma AnsweredReplay(s: Id, t: nat, last: nat, a: Option<ContextArtifact>)
    requires t < RUNS && MessageAt(2 * t + 1).firstEventId == last + 1
    ensures Replay(Chat(s, last, Messages(2 * t + 1), Runs(RUNS, 2 * t + 1), a), last + 1, Answered(t)) ==
            Outcome(Chat(s, last + 4, Messages(2 * t + 2), Runs(RUNS, 2 * t + 2), a), None)
  {
    if CallsTool(t) {
      CalledReplay(s, t, last, a);
    } else {
      ToldReplay(s, t, last, a);
    }
  }

  lemma CalledReplay(s: Id, t: nat, last: nat, a: Option<ContextArtifact>)
    requires t < RUNS && MessageAt(2 * t + 1).firstEventId == last + 1 && CallsTool(t)
    ensures Replay(Chat(s, last, Messages(2 * t + 1), Runs(RUNS, 2 * t + 1), a), last + 1, Answered(t)) ==
            Outcome(Chat(s, last + 4, Messages(2 * t + 2), Runs(RUNS, 2 * t + 2), a), None)
  {
    hide Step, Chat, Runs, Messages, MessageAt, RunAt, Name, Replay, Opened, Content;
    var id, ms, before := Name(2 * t + 1), Messages(2 * t + 1), Runs(RUNS, 2 * t + 1);
    var told := Told(id, AssistantRole, last + 1);
    RunMoves(RUNS, t, 2 * t + 1);
    RunIs(t);
    AnsweredIs(t, last + 1);
    AtTheEnd(2 * t + 1, told);
    var runs := before[Name(t) := RunAt(t, 2 * t + 1).(toolCalls := map[Name(t) := CallAt(t)])];
    OpenStep(s, last, ms, before, a, id, AssistantRole);
    CallStep(s, last + 1, ms + [told], before, a, t);
    CloseStep(s, last + 2, ms, told, runs, a);
    EndStep(s, last + 3, Messages(2 * t + 2), runs, a, Name(t));
    assert runs[Name(t) := RunAt(t, 2 * t + 2)] == before[Name(t) := RunAt(t, 2 * t + 2)];
    ReplayFour(last + 1, Answered(t),
      [ Chat(s, last, ms, before, a), Chat(s, last + 1, ms + [told], before, a), Chat(s, last + 2, ms + [told], runs, a),
        Chat(s, last + 3, Messages(2 * t + 2), runs, a), Chat(s, last + 4, Messages(2 * t + 2), Runs(RUNS, 2 * t + 2), a) ]);
  }

  lemma ToldReplay(s: Id, t: nat, last: nat, a: Option<ContextArtifact>)
    requires t < RUNS && MessageAt(2 * t + 1).firstEventId == last + 1 && !CallsTool(t)
    ensures Replay(Chat(s, last, Messages(2 * t + 1), Runs(RUNS, 2 * t + 1), a), last + 1, Answered(t)) ==
            Outcome(Chat(s, last + 4, Messages(2 * t + 2), Runs(RUNS, 2 * t + 2), a), None)
  {
    hide Step, Chat, Runs, Messages, MessageAt, RunAt, Name, Replay, Opened;
    var id, ms, before := Name(2 * t + 1), Messages(2 * t + 1), Runs(RUNS, 2 * t + 1);
    var told := Told(id, AssistantRole, last + 1);
    var answered := told.(blocks := [TextBlock("answer")], lastEventId := last + 2);
    RunMoves(RUNS, t, 2 * t + 1);
    RunIs(t);
    AnsweredIs(t, last + 1);
    AtTheEnd(2 * t + 1, told);
    AtTheEnd(2 * t + 1, answered);
    OpenStep(s, last, ms, before, a, id, AssistantRole);
    BlockStep(s, last + 1, ms, told, before, a, TextBlock("answer"));
    CloseStep(s, last + 2, ms, answered, before, a);
    EndStep(s, last + 3, Messages(2 * t + 2), before, a, Name(t));
    assert [] + [TextBlock("answer")] == [TextBlock("answer")];
    ReplayFour(last + 1, Answered(t),
      [ Chat(s, last, ms, before, a), Chat(s, last + 1, ms + [told], before, a), Chat(s, last + 2, ms + [answered], before, a),
        Chat(s, last + 3, Messages(2 * t + 2), before, a), Chat(s, last + 4, Messages(2 * t + 2), Runs(RUNS, 2 * t + 2), a) ]);
  }

  // ---------------------------------------------------------------- the log folds

  /** Before the worker sets out. */
  function Waiting(s: Id, n: nat): Projection {
    Projection(SessionState(s, Created, 0, Some(n + 1)), [], Agents(map[], map[]), map[], Queue(Runs(n, 0), false), Context([], None, None, None))
  }

  lemma OneMoreQueued(n: nat)
    ensures Name(n) !in Runs(n, 0)
    ensures Runs(n, 0)[Name(n) := NewRun(Name(n), None, "p", "m", Null)] == Runs(n + 1, 0)
  {
    forall r | r in RunIds(n) ensures r != Name(n) {
      var x :| 0 <= x < n && r == Name(x);
      assert |r| == x + 1;
    }
    assert RunIds(n + 1) == RunIds(n) + {Name(n)};
    hide RunIds;
  }

  lemma {:induction false} QueueingFolds(s: Id, n: nat)
    ensures Fold(s, [SessionEv(SessionCreated(None))] + Queueing(n)) == Outcome(Waiting(s, n), None)
  {
    hide Fold, Step, Waiting, Name;
    var created := [SessionEv(SessionCreated(None))];
    if n == 0 {
      CreatedFolds(s);
      assert created + Queueing(0) == created;
    } else {
      QueueingFolds(s, n - 1);
      QueueStep(s, n - 1);
      var e := RunEv(RunQueued(Name(n - 1), None, "p", "m", Null));
      ReplayOne(Waiting(s, n - 1), n + 1, e);
      assert created + Queueing(n) == (created + Queueing(n - 1)) + [e];
      FoldOn(s, created + Queueing(n - 1), Waiting(s, n - 1), [e], Waiting(s, n));
    }
  }

  lemma CreatedFolds(s: Id)
    ensures Fold(s, [SessionEv(SessionCreated(None))]) == Outcome(Waiting(s, 0), None)
  {
    ReplayOne(New(s), 1, SessionEv(SessionCreated(None)));
    assert Runs(0, 0) == map[];
  }

  lemma QueueStep(s: Id, n: nat)
    ensures Step(Waiting(s, n), n + 2, RunEv(RunQueued(Name(n), None, "p", "m", Null))) == Outcome(Waiting(s, n + 1), None)
  {
    OneMoreQueued(n);
    hide Runs, Name;
  }

  lemma HeadFolds(s: Id)
    ensures Fold(s, Head()) == Outcome(Chat(s, 7, Messages(0), Runs(RUNS, 0), None), None)
    ensures |Head()| == 7
  {
    QueueingFolds(s, RUNS);
    var e := SessionEv(SessionPhaseChanged(Created, Running, Some("run_started")));
    ReplayOne(Waiting(s, RUNS), 7, e);
    hide Fold, Runs;
    FoldOn(s, [SessionEv(SessionCreated(None))] + Queueing(RUNS), Waiting(s, RUNS), [e], Chat(s, 7, Messages(0), Runs(RUNS, 0), None));
  }

  /** When `k` messages are closed, before the compaction. */
  function Stage(s: Id, k: nat): Projection { Chat(s, LastAt(k), Messages(k), Runs(RUNS, k), None) }

  lemma Times(k: nat)
    requires k < 9
    ensures MessageAt(k).firstEventId == LastAt(k) + (if k == 7 then 2 else 0) + (if k % 2 == 0 then 2 else 1)
    ensures LastAt(k + 1) == LastAt(k) + (if k == 7 then 2 else 0) + 4
    ensures LastAt(7) == 35 && LastAt(0) == 7
  {
  }

  lemma NextStage(s: Id, k: nat)
    requires k < 7
    ensures Replay(Stage(s, k), LastAt(k) + 1, TurnEvents(k)) == Outcome(Stage(s, k + 1), None)
  {
    hide Replay, Chat, Runs, Messages, MessageAt, LastAt;
    Times(k);
    TurnReplays(s, k, LastAt(k), None);
  }

  lemma {:induction false} FoldTo(s: Id, k: nat)
    requires k <= 7
    ensures Fold(s, LogTo(k)) == Outcome(Stage(s, k), None) && |LogTo(k)| == LastAt(k)
  {
    hide Fold, Chat, Head, LastAt, TurnEvents, Messages, Runs;
    Times(if k == 0 then 0 else k - 1);
    if k == 0 {
      HeadFolds(s);
    } else {
      hide Stage;
      FoldTo(s, k - 1);
      NextStage(s, k - 1);
      TurnLength(k - 1);
      FoldOn(s, LogTo(k - 1), Stage(s, k - 1), TurnEvents(k - 1), Stage(s, k));
    }
  }

  lemma TurnLength(k: nat)
    ensures |TurnEvents(k)| == 4
  {
  }

  lemma TurnReplays(s: Id, k: nat, last: nat, a: Option<ContextArtifact>)
    requires k < 2 * RUNS && MessageAt(k).firstEventId == last + (if k % 2 == 0 then 2 else 1)
    ensures Replay(Chat(s, last, Messages(k), Runs(RUNS, k), a), last + 1, TurnEvents(k)) ==
            Outcome(Chat(s, last + 4, Messages(k + 1), Runs(RUNS, k + 1), a), None)
  {
    hide Replay, Chat, Runs, Messages, MessageAt, Asked, Answered;
    if k % 2 == 0 {
      AskedReplay(s, k / 2, last, a);
    } else {
      AnsweredReplay(s, k / 2, last, a);
    }
  }

  // ---------------------------------------------------------------- the compaction

  /** Messages are closed, in order, and told apart. */
  lemma MessageFacts(i: nat, j: nat)
    requires i < j
    ensures MessageAt(i).Closed() && MessageAt(i).lastEventId < MessageAt(j).lastEventId
    ensures MessageAt(i).messageId != MessageAt(j).messageId
  {
    assert |Name(i)| != |Name(j)|;
  }

  lemma AllClosed(k: nat)
    ensures ClosedMessages(Messages(k)) == Messages(k) && ClosedInOrder(Messages(k)) && UniqueIds(Messages(k))
  {
    hide MessageAt;
    forall i, j: nat | 0 <= i < j
      ensures MessageAt(i).Closed() && MessageAt(i).lastEventId < MessageAt(j).lastEventId
      ensures MessageAt(i).messageId != MessageAt(j).messageId
    {
      MessageFacts(i, j);
    }
    forall i: nat ensures MessageAt(i).Closed() {
      MessageFacts(i, i + 1);
    }
    FilterAll(Messages(k), (m: Message) => m.Closed());
  }

  /** Seven messages are closed, the last the input of the fourth run: three of them are summarised. */
  lemma FullCompacts(s: Id)
    ensures Compactable(Stage(s, 7)) == Messages(7) && Selected(|Compactable(Stage(s, 7))|) == 3
    ensures NewEnd(Stage(s, 7)) == 19
  {
    hide Visible, ClosedMessages, Messages, MessageAt, Stage, EndOf;
    AllClosed(7);
    NoneCovered(Messages(7));
    StageParts(s, 7);
    ThirdMessage();
  }

  lemma NoneCovered(ms: seq<Message>)
    ensures Visible(ms, None) == ms
  {
    FilterAll(ms, (x: Message) => After(x, None));
  }

  lemma StageParts(s: Id, k: nat)
    ensures Stage(s, k).messages == Messages(k) && Stage(s, k).context.activeArtifact.None? && EndOf(Stage(s, k).context).None?
  {
  }

  lemma ThirdMessage()
    ensures Messages(7)[2].lastEventId == 19
  {
    assert Messages(7)[2] == MessageAt(2);
  }

  predicate CanSummarise(i: Inputs) { i.summary.Some? && ValidBudget(i.budget) }

  /** What the builder records, with any budget and summary. */
  function Artifact(s: Id, i: Inputs): (a: ContextArtifact)
    requires CanSummarise(i)
    ensures a.sourceEnd == 19
  {
    FullCompacts(s);
    ArtifactFor(Stage(s, 7), i)
  }

  function Compacting(s: Id, i: Inputs): (e: seq<SemanticEvent>)
    requires CanSummarise(i)
    ensures |e| == 2 && e[1] == ContextEv(ContextCompacted(i.runId, Artifact(s, i)))
  {
    var a := Artifact(s, i);
    [ ContextEv(ContextCompactionStarted(i.runId, i.artifactId, i.strategy, a.sourceStart, a.sourceEnd)),
      ContextEv(ContextCompacted(i.runId, a)) ]
  }

  /** When `k` messages are closed, after it. */
  function Later(s: Id, i: Inputs, k: nat, last: nat): Projection
    requires CanSummarise(i)
  {
    Chat(s, last, Messages(k), Runs(RUNS, k), Some(Artifact(s, i)))
  }

  lemma CompactionReplays(s: Id, i: Inputs)
    requires CanSummarise(i)
    ensures Replay(Stage(s, 7), 36, Compacting(s, i)) == Outcome(Later(s, i, 7, 37), None)
  {
    hide Messages, Runs, Artifact, LastAt;
    Times(7);
    var e := Compacting(s, i);
    assert e == [e[0]] + [e[1]];
    ReplayOne(Stage(s, 7), 36, e[0]);
    ReplayOne(Stage(s, 7).(state := SessionState(s, Running, 1, Some(36))), 37, e[1]);
    ReplayAppend(Stage(s, 7), 36, [e[0]], [e[1]]);
  }

  function CompactedOnce(s: Id, i: Inputs): seq<SemanticEvent>
    requires CanSummarise(i)
  {
    LogTo(7) + Compacting(s, i)
  }

  lemma CompactedFolds(s: Id, i: Inputs)
    requires CanSummarise(i)
    ensures |LogTo(7)| == 35 && Fold(s, LogTo(7)) == Outcome(Stage(s, 7), None)
    ensures Fold(s, CompactedOnce(s, i)) == Outcome(Later(s, i, 7, 37), None)
  {
    hide Fold, LogTo, Compacting, Stage, Later, LastAt;
    Times(7);
    FoldTo(s, 7);
    CompactionReplays(s, i);
    FoldOn(s, LogTo(7), Stage(s, 7), Compacting(s, i), Later(s, i, 7, 37));
  }

  /** The compaction is the builder's, from the projection after 35 events. */
  lemma CompactedIsBuilt(s: Id, i: Inputs)
    requires CanSummarise(i)
    ensures |CompactedOnce(s, i)| == 37 && IsCompaction(CompactedOnce(s, i)[36]) && BuiltAt(s, CompactedOnce(s, i), 36, 35, i)
  {
    CompactedFolds(s, i);
    FullCompacts(s);
    hide Fold, LogTo, Stage, Later, ArtifactFor, Compactable;
    var log := CompactedOnce(s, i);
    assert log[..35] == LogTo(7) && log[35] == Compacting(s, i)[0] && log[36] == Compacting(s, i)[1];
  }

  /** The fourth run is answered, with a call, and the fifth is asked. */
  function GoesOn(s: Id, i: Inputs): seq<SemanticEvent>
    requires CanSummarise(i)
  {
    CompactedOnce(s, i) + TurnEvents(7) + TurnEvents(8)
  }

  lemma GoesOnFolds(s: Id, i: Inputs)
    requires CanSummarise(i)
    ensures Fold(s, GoesOn(s, i)) == Outcome(Later(s, i, 9, 45), None)
  {
    hide Fold, Chat, Messages, Runs, TurnEvents, CompactedOnce, MessageAt, LastAt;
    CompactedFolds(s, i);
    CompactedIsBuilt(s, i);
    Times(7);
    Times(8);
    TurnLength(7);
    TurnReplays(s, 7, 37, Some(Artifact(s, i)));
    TurnReplays(s, 8, 41, Some(Artifact(s, i)));
    hide Later;
    FoldOn(s, CompactedOnce(s, i), Later(s, i, 7, 37), TurnEvents(7), Later(s, i, 8, 41));
    FoldOn(s, CompactedOnce(s, i) + TurnEvents(7), Later(s, i, 8, 41), TurnEvents(8), Later(s, i, 9, 45));
  }

  // ---------------------------------------------------------------- the calls

  /** The calls of the projection when `k` messages are closed. */
  function CallsAt(k: nat): seq<ToolCall> { CallsOf(Queue(Runs(RUNS, k), false)) }

  lemma RunByName(t: nat, k: nat)
    requires t < RUNS
    ensures Name(t) in Runs(RUNS, k) && Runs(RUNS, k)[Name(t)] == RunAt(t, k)
    ensures RunAt(t, k).toolCalls == if CallsTool(t) && k >= 2 * t + 2 then map[Name(t) := CallAt(t)] else map[]
  {
    assert Name(t) in RunIds(RUNS);
  }

  lemma NameOfRun(r: Id, k: nat) returns (t: nat)
    requires r in Runs(RUNS, k)
    ensures t < RUNS && r == Name(t)
  {
    t :| t < RUNS && r == Name(t);
  }

  /** A call is there when its run has completed, and names the run's answer. */
  lemma CallsBelong(k: nat, c: ToolCall) returns (t: nat)
    requires c in CallsAt(k)
    ensures t < RUNS && CallsTool(t) && k >= 2 * t + 2 && c == CallAt(t)
  {
    hide *;
    var r, d := CallOwner(k, c);
    t := NameOfRun(r, k);
    RunByName(t, k);
  }

  lemma CallOwner(k: nat, c: ToolCall) returns (r: Id, d: Id)
    requires c in CallsAt(k)
    ensures r in Runs(RUNS, k) && d in Runs(RUNS, k)[r].toolCalls && Runs(RUNS, k)[r].toolCalls[d] == c
  {
    hide CallsOf, Runs;
    CallsAre(Queue(Runs(RUNS, k), false));
    r, d :| r in Runs(RUNS, k) && d in Runs(RUNS, k)[r].toolCalls && Runs(RUNS, k)[r].toolCalls[d] == c;
  }

  lemma CallIsThere(k: nat, t: nat)
    requires t < RUNS && CallsTool(t) && k >= 2 * t + 2
    ensures CallAt(t) in CallsAt(k)
  {
    CallsAre(Queue(Runs(RUNS, k), false));
    hide CallsOf, Runs, RunAt;
    RunByName(t, k);
    assert Runs(RUNS, k)[Name(t)].toolCalls[Name(t)] == CallAt(t);
  }

  lemma FoundAt(k: nat, j: nat)
    requires j < k
    ensures IndexOf(Messages(k), Name(j)) == j && Messages(k)[j] == MessageAt(j) && MessageAt(j).messageId == Name(j)
  {
    NameOf(j);
    PlaceOf(k, j);
    AllClosed(k);
    hide Messages, MessageAt, ClosedMessages, Name;
    assert Messages(k)[j].messageId == Name(j);
  }

  lemma PlaceOf(k: nat, j: nat)
    requires j < k
    ensures Messages(k)[j] == MessageAt(j)
  {
  }

  /** A closed message carries calls exactly when it answers with one and the artifact does not cover it. */
  lemma Carried(k: nat, j: nat, end: EventId)
    requires j < k <= 2 * RUNS
    ensures Carries(Messages(k), CallsAt(k), Some(end), MessageAt(j)) <==>
            j % 2 == 1 && CallsTool(j / 2) && MessageAt(j).lastEventId > end
  {
    if Carries(Messages(k), CallsAt(k), Some(end), MessageAt(j)) {
      CarriedBy(k, j, end);
    }
    if j % 2 == 1 && CallsTool(j / 2) && MessageAt(j).lastEventId > end {
      CarriesIt(k, j, end);
    }
  }

  lemma CarriedBy(k: nat, j: nat, end: EventId)
    requires j < k <= 2 * RUNS && Carries(Messages(k), CallsAt(k), Some(end), MessageAt(j))
    ensures j % 2 == 1 && CallsTool(j / 2) && MessageAt(j).lastEventId > end
  {
    hide MessageAt, Messages, CallsAt, Name, IndexOf;
    var ms, calls := Messages(k), CallsAt(k);
    FoundAt(k, j);
    var keep := (c: ToolCall) => CallVisible(ms, c, Some(end)) && c.assistantMessageId == MessageAt(j).messageId;
    FilterKeeps(calls, keep);
    SameTest(ms, calls, end, MessageAt(j), keep);
    var c := Filter(calls, keep)[0];
    assert c in Filter(calls, keep);
    hide Filter, EmittedBy;
    CallMakesAnswer(k, j, c);
    assert IndexOf(ms, c.assistantMessageId) == j;
  }

  lemma CallMakesAnswer(k: nat, j: nat, c: ToolCall)
    requires c in CallsAt(k) && c.assistantMessageId == Name(j)
    ensures j % 2 == 1 && CallsTool(j / 2)
  {
    hide CallsAt;
    var t := CallsBelong(k, c);
    hide Name;
    assert |Name(2 * t + 1)| == |Name(j)|;
    assert j == 2 * t + 1;
  }

  lemma CarriesIt(k: nat, j: nat, end: EventId)
    requires j < k <= 2 * RUNS && j % 2 == 1 && CallsTool(j / 2) && MessageAt(j).lastEventId > end
    ensures Carries(Messages(k), CallsAt(k), Some(end), MessageAt(j))
  {
    assert MessageAt(j).role == AssistantRole;
    hide MessageAt, Messages, CallsAt, Filter, EmittedBy, Name, IndexOf;
    var ms, calls := Messages(k), CallsAt(k);
    FoundAt(k, j);
    var keep := (c: ToolCall) => CallVisible(ms, c, Some(end)) && c.assistantMessageId == MessageAt(j).messageId;
    FilterKeeps(calls, keep);
    SameTest(ms, calls, end, MessageAt(j), keep);
    CallIsThere(k, j / 2);
    assert 2 * (j / 2) + 1 == j;
    assert CallAt(j / 2) in Filter(calls, keep);
  }

  lemma SameTest(ms: seq<Message>, calls: seq<ToolCall>, end: EventId, m: Message, keep: ToolCall -> bool)
    requires forall c :: keep(c) <==> CallVisible(ms, c, Some(end)) && c.assistantMessageId == m.messageId
    ensures EmittedBy(ms, calls, Some(end), m) == Filter(calls, keep)
  {
    SameFilter(calls, c => CallVisible(ms, c, Some(end)) && c.assistantMessageId == m.messageId, keep);
  }

  // ---------------------------------------------------------------- the requests

  /** The transcript of a Chat request without instructions, before calls are placed. */
  function EntriesOf(p: Projection): seq<Entry> {
    Entries(false, p.messages, EndOf(p.context))
  }

  function OffsetOf(p: Projection): nat { Minus(|EntriesOf(p)|, |ClosedMessages(p.messages)|) }

  /** Closed message i carries calls. */
  predicate CarriesCalls(p: Projection, i: nat) {
    var closed := ClosedMessages(p.messages);
    i < |closed| && Carries(p.messages, CallsOf(p.queue), EndOf(p.context), closed[i])
  }

  /** An index runs past the end, and the request is never built. */
  predicate Aborts(p: Projection) {
    exists i: nat :: i < |ClosedMessages(p.messages)| && CarriesCalls(p, i) && OffsetOf(p) + i >= |EntriesOf(p)|
  }

  /** The transcript with the calls placed, as `AttachCalls` computes it when nothing aborts. */
  function TranscriptOf(p: Projection): seq<Entry> {
    Placed(EntriesOf(p), p.messages, ClosedMessages(p.messages), CallsOf(p.queue), EndOf(p.context), OffsetOf(p))
  }

  /** The request's transcript when three of `k` closed messages are summarised and every second answer has a call. */
  ghost predicate Shaped(p: Projection, k: nat) {
    && |ClosedMessages(p.messages)| == k >= 3
    && EntriesOf(p) == [Entry(Summary, [])] + Plain(ClosedMessages(p.messages)[3..]) && OffsetOf(p) == 0
    && forall j: nat :: CarriesCalls(p, j) <==> j < k && j % 4 == 3
  }

  lemma LaterShows(k: nat)
    requires 3 <= k
    ensures ClosedMessages(Messages(k)) == Messages(k) && Visible(Messages(k), Some(19)) == Messages(k)[3..]
  {
    AllClosed(k);
    hide MessageAt, ClosedMessages;
    forall j | 0 <= j < k ensures Messages(k)[j] == MessageAt(j) && (MessageAt(j).lastEventId > 19 <==> j >= 3) {
      PastTheArtifact(j);
    }
    VisibleCount(Messages(k), 19, 3);
  }

  lemma PastTheArtifact(j: nat)
    ensures MessageAt(j).lastEventId > 19 <==> j >= 3
    ensures j % 2 == 1 && CallsTool(j / 2) <==> j % 4 == 3
  {
  }

  lemma LaterCarries(s: Id, i: Inputs, k: nat, last: nat, j: nat)
    requires CanSummarise(i) && 3 <= k <= 9
    ensures CarriesCalls(Later(s, i, k, last), j) <==> j < k && j % 4 == 3
  {
    hide Carries, MessageAt, Messages, Runs, CallsOf, ClosedMessages, CallsTool, Artifact, IndexOf;
    LaterShows(k);
    if j < k {
      FoundAt(k, j);
      Carried(k, j, 19);
      PastTheArtifact(j);
    }
  }

  lemma LaterEntries(s: Id, i: Inputs, k: nat, last: nat)
    requires CanSummarise(i) && 3 <= k <= 9
    ensures var p := Later(s, i, k, last);
            && |ClosedMessages(p.messages)| == k && OffsetOf(p) == 0
            && EntriesOf(p) == [Entry(Summary, [])] + Plain(ClosedMessages(p.messages)[3..])
  {
    hide Visible, ClosedMessages, Runs, MessageAt, Artifact;
    LaterShows(k);
  }

  lemma LaterShaped(s: Id, i: Inputs, k: nat, last: nat)
    requires CanSummarise(i) && 3 <= k <= 9
    ensures Shaped(Later(s, i, k, last), k)
  {
    hide Later, ClosedMessages, CarriesCalls, EntriesOf, OffsetOf;
    LaterEntries(s, i, k, last);
    forall j: nat ensures CarriesCalls(Later(s, i, k, last), j) <==> j < k && j % 4 == 3 {
      LaterCarries(s, i, k, last, j);
    }
  }

  /** The calls of the fourth closed message, an answer, are missing from its entry and stand on the entry of the sixth. */
  ghost predicate FourthOnSixth(p: Projection) {
    var closed := ClosedMessages(p.messages);
    && |closed| == 7 && |TranscriptOf(p)| == 5 && !Aborts(p)
    && closed[3].role == AssistantRole
    && (var emitted := EmittedBy(p.messages, CallsOf(p.queue), EndOf(p.context), closed[3]);
        && emitted != []
        && TranscriptOf(p)[1] == Entry(FromMessage(closed[3]), [])
        && TranscriptOf(p)[3] == Entry(FromMessage(closed[5]), emitted))
    && !Aligned(TranscriptOf(p), p.messages, CallsOf(p.queue), EndOf(p.context))
  }

  lemma SevenMisplaced(p: Projection)
    requires Shaped(p, 7)
    ensures FourthOnSixth(p)
  {
    hide EntriesOf, OffsetOf, CallsOf, EmittedBy, ClosedMessages, EndOf;
    assert CarriesCalls(p, 3) && !CarriesCalls(p, 1) && forall j: nat :: CarriesCalls(p, j) ==> j == 3;
    var closed := ClosedMessages(p.messages);
    assert closed[3..][0] == closed[3] && closed[3..][2] == closed[5];
    assert EntriesOf(p)[1] == Plain(closed[3..])[0] && EntriesOf(p)[3] == Plain(closed[3..])[2];
  }

  /** The concrete failure, in the request the compaction was made for. Three messages are summarised, and the calls of
      the first answer that is shown are put on the other one. */
  lemma MisplacedCalls(s: Id, i: Inputs)
    requires CanSummarise(i)
    ensures |CompactedOnce(s, i)| == 37 && IsCompaction(CompactedOnce(s, i)[36]) && BuiltAt(s, CompactedOnce(s, i), 36, 35, i)
    ensures Accepted(s, CompactedOnce(s, i)) && FourthOnSixth(Fold(s, CompactedOnce(s, i)).value)
  {
    hide Fold, CompactedOnce, Later, FourthOnSixth, Shaped, BuiltAt;
    CompactedFolds(s, i);
    CompactedIsBuilt(s, i);
    LaterShaped(s, i, 7, 37);
    SevenMisplaced(Later(s, i, 7, 37));
  }

  lemma NinePastTheEnd(p: Projection)
    requires Shaped(p, 9)
    ensures |ClosedMessages(p.messages)| == 9 && CarriesCalls(p, 7) && OffsetOf(p) + 7 == |EntriesOf(p)| && Aborts(p)
  {
    hide EntriesOf, OffsetOf, CarriesCalls, ClosedMessages;
    assert CarriesCalls(p, 7);
  }

  /** The next failure, one answer with a call and one question later: the index of that answer lies past the end. */
  lemma CallsPastTheEnd(s: Id, i: Inputs)
    requires CanSummarise(i)
    ensures CompactedOnce(s, i) <= GoesOn(s, i) && Accepted(s, GoesOn(s, i))
    ensures var p := Fold(s, GoesOn(s, i)).value;
            |ClosedMessages(p.messages)| == 9 && CarriesCalls(p, 7) && OffsetOf(p) + 7 == |EntriesOf(p)| && Aborts(p)
  {
    hide Fold, CompactedOnce, Later, EntriesOf, OffsetOf, CarriesCalls, ClosedMessages, Shaped, Aborts;
    GoesOnFolds(s, i);
    LaterShaped(s, i, 9, 45);
    NinePastTheEnd(Later(s, i, 9, 45));
  }
}
