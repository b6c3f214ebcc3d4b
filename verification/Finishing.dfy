/** Closing a run after its turn, and taking a client's tool result (`finish_run`, `interrupt_message` and
    `submit_tool_result` in piqo-server/src/supervisor.rs). */
module Finishing {
  import opened Prelude
  import opened Events
  import opened Session
  import opened History
  import RequestBody

  /** How a turn ended. */
  datatype ExecutionResult =
    | JustCompleted
    | CompletedWithUsage(usage: Option<Json>)
    | WasFailed(error: string)
    | WasCancelled
    | WasInterrupted
    | NeedsAction

  /** What a turn reports at its end: the usage goes with a completion. */
  function Reported(result: ExecutionResult, usage: Option<Json>): ExecutionResult {
    if result.JustCompleted? then CompletedWithUsage(usage) else result
  }

  predicate OpenAssistant(m: Message) { m.role == AssistantRole && !m.completed && !m.interrupted }

  predicate UncompletedAssistant(m: Message) { m.role == AssistantRole && !m.completed }

  /** The position of the last message that satisfies a test, or the number of messages. */
  function LastWith(ms: seq<Message>, test: Message -> bool): (i: nat)
    ensures i <= |ms|
    ensures i < |ms| ==> test(ms[i]) && forall j :: i < j < |ms| ==> !test(ms[j])
    ensures i == |ms| ==> forall j :: 0 <= j < |ms| ==> !test(ms[j])
    decreases |ms|
  {
    if ms == [] then 0
    else
      var n := |ms| - 1;
      if test(ms[n]) then n
      else
        var i := LastWith(ms[..n], test);
        if i == n then n + 1 else i
  }

  function InterruptMessage(ms: seq<Message>): seq<SemanticEvent> {
    var i := LastWith(ms, OpenAssistant);
    if i < |ms| then [MessageEv(MessageInterrupted(ms[i].messageId))] else []
  }

  /** The message is looked for among those not completed; one that was interrupted can be found. */
  function CompleteMessage(ms: seq<Message>, test: Message -> bool): seq<SemanticEvent> {
    var i := LastWith(ms, test);
    if i < |ms| then [MessageEv(MessageCompleted(ms[i].messageId))] else []
  }

  /** The events that close the run and its message. */
  function Closing(p: Projection, r: Id, result: ExecutionResult): seq<SemanticEvent> {
    match result
    case JustCompleted => []
    case CompletedWithUsage(usage) => CompleteMessage(p.messages, UncompletedAssistant) + [RunEv(RunCompleted(r, usage))]
    case WasFailed(error) => InterruptMessage(p.messages) + [RunEv(RunFailed(r, error))]
    case WasCancelled => InterruptMessage(p.messages) + [RunEv(RunCancelled(r, Some("cancelled_by_user")))]
    case WasInterrupted => InterruptMessage(p.messages) + [RunEv(RunInterrupted(r, "server_shutdown"))]
    case NeedsAction => CompleteMessage(p.messages, OpenAssistant)
  }

  /** The phase change that follows, always written as one from Running. */
  function PhaseMove(result: ExecutionResult): seq<SemanticEvent> {
    match result
    case JustCompleted => []
    case CompletedWithUsage(_) => []
    case WasFailed(_) => [SessionEv(SessionPhaseChanged(Running, Failed, Some("run_failed")))]
    case WasCancelled => [SessionEv(SessionPhaseChanged(Running, Interrupted, Some("run_cancelled")))]
    case WasInterrupted => [SessionEv(SessionPhaseChanged(Running, Interrupted, Some("server_shutdown")))]
    case NeedsAction => [SessionEv(SessionPhaseChanged(Running, Interrupted, Some("requires_action")))]
  }

  predicate InStatus(p: Projection, r: Id, result: ExecutionResult) {
    && r in p.queue.runs
    && p.queue.runs[r].status == (if result.NeedsAction? then RequiresAction else RunRunning)
  }

  /** What a turn's end makes of its run: status, error and usage, and nothing else. */
  function EndedRun(run: Run, result: ExecutionResult): Run {
    match result
    case JustCompleted => run
    case CompletedWithUsage(usage) => run.(status := Completed, error := None, usage := usage)
    case WasFailed(error) => run.(status := RunFailedStatus, error := Some(error))
    case WasCancelled => run.(status := Cancelled, error := None)
    case WasInterrupted => run.(status := RunInterruptedStatus, error := Some("server_shutdown"))
    case NeedsAction => run
  }

  predicate WasCompletion(result: ExecutionResult) { result.CompletedWithUsage? || result.JustCompleted? }

  /** The phase a session is left in. */
  function EndPhase(phase: SessionPhase, result: ExecutionResult): SessionPhase {
    if WasCompletion(result) then phase else if result.WasFailed? then Failed else Interrupted
  }

  /** The last assistant message that is open - for a completion: not completed - is completed or interrupted; no other
      message changes. */
  predicate EndsMessage(before: seq<Message>, after: seq<Message>, result: ExecutionResult, id: EventId) {
    var i := LastWith(before, if result.CompletedWithUsage? then UncompletedAssistant else OpenAssistant);
    && |after| == |before|
    && (forall j :: 0 <= j < |before| && j != i ==> after[j] == before[j])
    && (i < |before| ==>
          after[i] ==
          if result.CompletedWithUsage? || result.NeedsAction? then before[i].(completed := true, lastEventId := id)
          else before[i].(interrupted := true, lastEventId := id))
  }

  lemma FirstIndex(ms: seq<Message>, n: nat, i: nat)
    requires MessagesSound(ms, n) && i < |ms|
    ensures IndexOf(ms, ms[i].messageId) == i
  {
  }

  lemma MessageReplay(p: Projection, n: nat, i: nat, e: MessageEvent)
    requires MessagesSound(p.messages, n) && i < |p.messages|
    requires (e.MessageCompleted? || e.MessageInterrupted?) && e.messageId == p.messages[i].messageId
    ensures var o := Replay(p, n + 1, [MessageEv(e)]);
            && (o.Ok() <==> !p.messages[i].Closed())
            && (o.Ok() ==> o.value.queue == p.queue && o.value.state.phase == p.state.phase)
            && (o.Ok() ==>
                  o.value.messages ==
                  p.messages[i := if e.MessageCompleted? then p.messages[i].(completed := true, lastEventId := n + 1)
                                  else p.messages[i].(interrupted := true, lastEventId := n + 1)])
  {
    ReplayOne(p, n + 1, MessageEv(e));
    FirstIndex(p.messages, n, i);
  }

  predicate NoOpenAssistant(ms: seq<Message>) { forall i :: 0 <= i < |ms| ==> !OpenAssistant(ms[i]) }

  /** At most one assistant message is open, as the supervisor keeps it: it opens one per turn and closes it. */
  predicate OneOpenAssistant(ms: seq<Message>) {
    forall i, j :: 0 <= i < |ms| && 0 <= j < |ms| && OpenAssistant(ms[i]) && OpenAssistant(ms[j]) ==> i == j
  }

  /** What the message event of a turn's end does. */
  predicate ClosesMessage(p: Projection, n: nat, o: Outcome<Projection>, result: ExecutionResult) {
    && o.Ok() && o.value.queue == p.queue && o.value.state.phase == p.state.phase
    && EndsMessage(p.messages, o.value.messages, result, n + 1)
    && (OneOpenAssistant(p.messages) ==> NoOpenAssistant(o.value.messages))
  }

  lemma InterruptCloses(p: Projection, n: nat, result: ExecutionResult)
    requires MessagesSound(p.messages, n) && !WasCompletion(result) && !result.NeedsAction?
    ensures ClosesMessage(p, n, Replay(p, n + 1, InterruptMessage(p.messages)), result)
  {
    var i := LastWith(p.messages, OpenAssistant);
    if i < |p.messages| {
      MessageReplay(p, n, i, MessageInterrupted(p.messages[i].messageId));
    } else {
      ReplayNone(p, n + 1);
    }
    hide Replay, MessagesSound, LastWith;
  }

  lemma CompleteCloses(p: Projection, n: nat, result: ExecutionResult)
    requires MessagesSound(p.messages, n) && (result.CompletedWithUsage? || result.NeedsAction?)
    ensures var test := if result.CompletedWithUsage? then UncompletedAssistant else OpenAssistant;
            var i := LastWith(p.messages, test);
            var o := Replay(p, n + 1, CompleteMessage(p.messages, test));
            && (o.Ok() <==> i == |p.messages| || !p.messages[i].interrupted)
            && (o.Ok() ==> ClosesMessage(p, n, o, result))
  {
    var i := LastWith(p.messages, if result.CompletedWithUsage? then UncompletedAssistant else OpenAssistant);
    if i < |p.messages| {
      MessageReplay(p, n, i, MessageCompleted(p.messages[i].messageId));
    } else {
      ReplayNone(p, n + 1);
    }
    hide Replay, MessagesSound, LastWith;
  }

  lemma EndReplay(q: Projection, n: nat, r: Id, e: RunEvent)
    requires r in q.queue.runs && q.queue.runs[r].status == RunRunning && e.runId == r
    requires e.RunCompleted? || e.RunFailed? || e.RunCancelled? || e.RunInterrupted?
    ensures var o := Replay(q, n, [RunEv(e)]);
            && o.Ok() && r in o.value.queue.runs
            && o.value.queue.runs == q.queue.runs[r := RunEffect(q.queue.runs[r], e)]
            && o.value.state.phase == q.state.phase && o.value.messages == q.messages
  {
    ReplayOne(q, n, RunEv(e));
    RunEventMeaning(q.queue, e);
  }

  /** When the last assistant message that is not completed was interrupted, the completion is refused. */
  predicate CanComplete(ms: seq<Message>) {
    var i := LastWith(ms, UncompletedAssistant);
    i < |ms| ==> !ms[i].interrupted
  }

  /** Main result: closing a run is accepted - except for a completion that finds an interrupted message - gives the
      run the status, error and usage of the result, touches no other run, and closes the message it finds, so that no
      assistant message is open where one was. A completion without usage would leave the run and its message as they are;
      module `Writers` shows that no turn reports one. */
  lemma ClosingAccepted(p: Projection, n: nat, r: Id, result: ExecutionResult)
    requires MessagesSound(p.messages, n) && InStatus(p, r, result)
    ensures var o := Replay(p, n + 1, Closing(p, r, result));
            && (o.Ok() <==> (result.CompletedWithUsage? ==> CanComplete(p.messages)))
            && (o.Ok() ==>
                  && o.value.queue.runs == p.queue.runs[r := EndedRun(p.queue.runs[r], result)]
                  && o.value.state.phase == p.state.phase
                  && (if result.JustCompleted? then o.value.messages == p.messages
                      else
                        && EndsMessage(p.messages, o.value.messages, result, n + 1)
                        && (OneOpenAssistant(p.messages) ==> NoOpenAssistant(o.value.messages))))
  {
    hide Replay, Step, LastWith, MessagesSound, EndsMessage, OneOpenAssistant, NoOpenAssistant;
    var i := LastWith(p.messages, UncompletedAssistant);
    if result.JustCompleted? {
      ReplayNone(p, n + 1);
    } else if result.NeedsAction? {
      CompleteCloses(p, n, result);
    } else {
      var first, e;
      match result {
        case CompletedWithUsage(usage) =>
          CompleteCloses(p, n, result);
          first, e := CompleteMessage(p.messages, UncompletedAssistant), RunCompleted(r, usage);
        case WasFailed(error) =>
          InterruptCloses(p, n, result);
          first, e := InterruptMessage(p.messages), RunFailed(r, error);
        case WasCancelled =>
          InterruptCloses(p, n, result);
          first, e := InterruptMessage(p.messages), RunCancelled(r, Some("cancelled_by_user"));
        case WasInterrupted =>
          InterruptCloses(p, n, result);
          first, e := InterruptMessage(p.messages), RunInterrupted(r, "server_shutdown");
        case NeedsAction =>
        case JustCompleted =>
      }
      ReplayAppend(p, n + 1, first, [RunEv(e)]);
      if Replay(p, n + 1, first).Ok() {
        EndReplay(Replay(p, n + 1, first).value, n + 1 + |first|, r, e);
      }
    }
  }

  lemma PhaseMoveReplay(q: Projection, n: nat, result: ExecutionResult)
    ensures var o := Replay(q, n, PhaseMove(result));
            && (o.Ok() <==> WasCompletion(result) || q.state.phase == Running)
            && (o.Ok() ==>
                  && o.value.state.phase == EndPhase(q.state.phase, result)
                  && o.value.queue == q.queue && o.value.messages == q.messages)
  {
    if WasCompletion(result) {
      ReplayNone(q, n);
    } else {
      var e := PhaseMove(result)[0];
      ReplayOne(q, n, e);
      assert PhaseMove(result) == [e];
    }
  }

  /** Finishing on a log: it goes through exactly when a completion finds no interrupted message and, if there is a phase
      change, the session's phase is Running. The session is then left in the phase of the result, the run as the result
      says, every other run as it was, and the message it found closed. */
  lemma FinishMeaning(session: Id, log: seq<SemanticEvent>, r: Id, result: ExecutionResult)
    requires Accepted(session, log) && InStatus(Fold(session, log).value, r, result)
    ensures var p := Fold(session, log).value;
            var o := Fold(session, log + (Closing(p, r, result) + PhaseMove(result)));
            && (o.Ok() <==> if WasCompletion(result) then result.CompletedWithUsage? ==> CanComplete(p.messages) else p.state.phase == Running)
            && (o.Ok() ==>
                  && o.value.state.phase == EndPhase(p.state.phase, result)
                  && o.value.queue.runs == p.queue.runs[r := EndedRun(p.queue.runs[r], result)]
                  && (if result.JustCompleted? then o.value.messages == p.messages
                      else
                        && EndsMessage(p.messages, o.value.messages, result, |log| + 1)
                        && (OneOpenAssistant(p.messages) ==> NoOpenAssistant(o.value.messages))))
  {
    hide Replay, Step, LastWith, Closing, PhaseMove, MessagesSound, EndsMessage, OneOpenAssistant, NoOpenAssistant, CanComplete;
    MessagesAreSound(session, log);
    var p := Fold(session, log).value;
    ClosingAccepted(p, |log|, r, result);
    var closing := Closing(p, r, result);
    ReplayAppend(p, |log| + 1, closing, PhaseMove(result));
    PhaseMoveReplay(Replay(p, |log| + 1, closing).value, |log| + 1 + |closing|, result);
    ReplayAppend(New(session), 1, log, closing + PhaseMove(result));
  }

  lemma MessagesAreSound(session: Id, log: seq<SemanticEvent>)
    requires Accepted(session, log)
    ensures MessagesSound(Fold(session, log).value.messages, |log|)
  {
    FoldSound(session, log);
  }

  /** A run that was continued while the session stayed Interrupted is closed all the same, but the phase change after it is
      refused, and what would follow - handing a child's result to its parent - does not happen. */
  lemma FinishAccepted(p: Projection, n: nat, r: Id, result: ExecutionResult)
    requires MessagesSound(p.messages, n) && InStatus(p, r, result) && !WasCompletion(result)
    ensures Replay(p, n + 1, Closing(p, r, result) + PhaseMove(result)).Ok() <==> p.state.phase == Running
    ensures Replay(p, n + 1, Closing(p, r, result)).Ok()
  {
    hide Replay, Step, LastWith, Closing, PhaseMove, EndsMessage, OneOpenAssistant, NoOpenAssistant, MessagesSound;
    ClosingAccepted(p, n, r, result);
    var closing := Closing(p, r, result);
    ReplayAppend(p, n + 1, closing, PhaseMove(result));
    PhaseMoveReplay(Replay(p, n + 1, closing).value, n + 1 + |closing|, result);
  }

  // ---------------------------------------------------------------- tool results from clients

  datatype SubmitResult =
    | Recorded(events: seq<SemanticEvent>, resumed: bool)
    | AlreadyRecorded
    | RunUnknown
    | NotAwaiting
    | TranscriptOwned
    | CallElsewhere
    | CallUnknown
    | CallManaged
    | NotApproved
    | ResultConflict

  /** The decision of the first request for a call, in key order. */
  function DecisionFor(p: Projection, r: Id, c: Id): Option<PermissionDecision> {
    var matching := set x | x in p.permissions && p.permissions[x].runId == r && p.permissions[x].call == Some(c);
    if matching == {} then None else p.permissions[First(matching)].decision
  }

  function OwnsTranscript(request: Json): bool {
    request.Object? && "body" in request.fields && request.fields["body"].Object?
    && ("messages" in request.fields["body"].fields || "input" in request.fields["body"].fields)
  }

  /** A run owns its transcript exactly when its request fills the place where one protocol or the other puts the transcript. */
  lemma OwnedIsKept(request: Json)
    ensures OwnsTranscript(request) <==>
              && request.Object? && "body" in request.fields && request.fields["body"].Object?
              && exists protocol :: RequestBody.TranscriptKey(protocol) in request.fields["body"].fields
  {
    assert RequestBody.TranscriptKey(RequestBody.ChatCompletions) == "messages";
    assert RequestBody.TranscriptKey(RequestBody.Responses) == "input";
  }

  function Submit(p: Projection, r: Id, c: Id, result: Json): SubmitResult {
    if r !in p.queue.runs then RunUnknown
    else
      var run := p.queue.runs[r];
      if run.status != RequiresAction then NotAwaiting
      else if OwnsTranscript(run.request) then TranscriptOwned
      else if c !in run.toolCalls then
        if exists x :: x in p.queue.runs && c in p.queue.runs[x].toolCalls then CallElsewhere else CallUnknown
      else if run.toolCalls[c].native then CallManaged
      else if DecisionFor(p, r, c) != Some(Allow) then NotApproved
      else if run.toolCalls[c].result.Some? then
        if run.toolCalls[c].result == Some(result) then AlreadyRecorded else ResultConflict
      else
        var ready := forall d :: d in run.toolCalls ==> run.toolCalls[d].callId == c || run.toolCalls[d].result.Some?;
        var call := run.toolCalls[c];
        Recorded([ToolEv(ToolResult(r, c, call.agentId, call.toolName, result))] + (if ready then [QueueResumed] else []), ready)
  }

  ghost predicate IsRequestFor(p: Projection, r: Id, c: Id, x: Id) {
    x in p.permissions && p.permissions[x].runId == r && p.permissions[x].call == Some(c)
  }

  /** The first request for a call, in key order, was allowed. */
  ghost predicate FirstAllowed(p: Projection, r: Id, c: Id) {
    exists x :: IsRequestFor(p, r, c, x) && p.permissions[x].decision == Some(Allow)
                && forall y :: IsRequestFor(p, r, c, y) && y != x ==> Before(x, y)
  }

  /** A client may give the call a result: its run waits and does not own its transcript, and the call is the client's and
      was allowed. */
  ghost predicate MayReport(p: Projection, r: Id, c: Id) {
    && r in p.queue.runs && p.queue.runs[r].status == RequiresAction && !OwnsTranscript(p.queue.runs[r].request)
    && c in p.queue.runs[r].toolCalls && !p.queue.runs[r].toolCalls[c].native
    && FirstAllowed(p, r, c)
  }

  lemma DecisionIsFirst(p: Projection, r: Id, c: Id)
    ensures DecisionFor(p, r, c) == Some(Allow) <==> FirstAllowed(p, r, c)
  {
    var matching := set x | x in p.permissions && p.permissions[x].runId == r && p.permissions[x].call == Some(c);
    if FirstAllowed(p, r, c) {
      var x :| IsRequestFor(p, r, c, x) && p.permissions[x].decision == Some(Allow)
               && forall y :: IsRequestFor(p, r, c, y) && y != x ==> Before(x, y);
      assert x in matching;
      FirstUnique(matching, x, First(matching));
    }
    if matching != {} {
      assert IsRequestFor(p, r, c, First(matching));
    }
  }

  /** Exactly which results are recorded, known already, or contradict what is known. */
  lemma SubmitExactly(p: Projection, r: Id, c: Id, result: Json)
    ensures var s := Submit(p, r, c, result);
            && (s.Recorded? <==> MayReport(p, r, c) && p.queue.runs[r].toolCalls[c].result == None)
            && (s.AlreadyRecorded? <==> MayReport(p, r, c) && p.queue.runs[r].toolCalls[c].result == Some(result))
            && (s.ResultConflict? <==> MayReport(p, r, c) && p.queue.runs[r].toolCalls[c].result !in {None, Some(result)})
  {
    hide DecisionFor, FirstAllowed, OwnsTranscript;
    DecisionIsFirst(p, r, c);
  }

  /** A submission that passes the checks is always accepted. The run is then ready to continue, and the queue is
      open, exactly when every call has its result; submitting the same result again records nothing. */
  lemma SubmissionMeaning(p: Projection, n: nat, r: Id, c: Id, result: Json)
    requires r in p.queue.runs ==> forall d :: d in p.queue.runs[r].toolCalls ==> p.queue.runs[r].toolCalls[d].callId == d
    ensures var s := Submit(p, r, c, result);
            s.Recorded? ==>
              var o := Replay(p, n, s.events);
              && o.Ok() && r in o.value.queue.runs
              && o.value.queue.runs == p.queue.runs[r := p.queue.runs[r].(toolCalls :=
                   p.queue.runs[r].toolCalls[c := p.queue.runs[r].toolCalls[c].(result := Some(result))])]
              && (s.resumed <==> r in ReadyRuns(o.value.queue.runs))
              && (s.resumed ==> !o.value.queue.paused)
              && Submit(o.value, r, c, result) == AlreadyRecorded
  {
    var s := Submit(p, r, c, result);
    if s.Recorded? {
      ResultReplayed(p, n, r, c, result, s);
      hide Replay, OwnsTranscript;
      var q := Replay(p, n, s.events).value;
      var calls, was := q.queue.runs[r].toolCalls, p.queue.runs[r].toolCalls;
      assert c in calls && forall d :: d in calls && d != c ==> calls[d] == was[d];
    }
  }

  lemma ResultReplayed(p: Projection, n: nat, r: Id, c: Id, result: Json, s: SubmitResult)
    requires s == Submit(p, r, c, result) && s.Recorded?
    ensures var o := Replay(p, n, s.events);
            && o.Ok() && o.value.permissions == p.permissions
            && o.value.queue == Queue(p.queue.runs[r := p.queue.runs[r].(toolCalls :=
                 p.queue.runs[r].toolCalls[c := p.queue.runs[r].toolCalls[c].(result := Some(result))])],
                 p.queue.paused && !s.resumed)
            && DecisionFor(o.value, r, c) == DecisionFor(p, r, c)
  {
    hide DecisionFor, OwnsTranscript;
    var e := s.events[0];
    ReplayOne(p, n, e);
    var q := Step(p, n, e).value;
    if s.resumed {
      ReplayAppend(p, n, [e], [QueueResumed]);
      ReplayOne(q, n + 1, QueueResumed);
      assert s.events == [e] + [QueueResumed];
    } else {
      assert s.events == [e];
    }
    SameDecision(p, Replay(p, n, s.events).value, r, c);
  }

  lemma SameDecision(p: Projection, q: Projection, r: Id, c: Id)
    requires q.permissions == p.permissions
    ensures DecisionFor(q, r, c) == DecisionFor(p, r, c)
  {
  }

  /** A turn that completes closes its run even when calls it emitted have no result; such a call can then never be
      given one by a client. */
  lemma CompletionStrandsOpenCalls(p: Projection, n: nat, r: Id, usage: Option<Json>, c: Id, result: Json)
    requires MessagesSound(p.messages, n) && InStatus(p, r, CompletedWithUsage(usage)) && CanComplete(p.messages)
    requires c in p.queue.runs[r].toolCalls && p.queue.runs[r].toolCalls[c].result.None?
    ensures var o := Replay(p, n + 1, Closing(p, r, CompletedWithUsage(usage)));
            && o.Ok() && r in o.value.queue.runs
            && o.value.queue.runs[r].status == Completed
            && c in o.value.queue.runs[r].toolCalls && o.value.queue.runs[r].toolCalls[c].result.None?
            && Submit(o.value, r, c, result) == NotAwaiting
  {
    ClosingAccepted(p, n, r, CompletedWithUsage(usage));
    hide Replay, Closing, CanComplete;
  }
}
