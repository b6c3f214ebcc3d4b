/** Where every field of a projection comes from (piqo-core/src/session.rs). Each part of a projection is what the
    log said of it last: a run's request what its submission said, its attempt what the last start said, a call's
    arguments what its emission said. Nothing is replayed to read it off. */
module Origins {
  import opened Prelude
  import opened Events
  import opened Session
  import opened Ledger

  // ---------------------------------------------------------------- what was said last

  /** What an event with an id says of some part of a projection, if it says anything. */
  type Speech<T> = (EventId, SemanticEvent) -> Option<T>

  function LastOf<T>(log: seq<SemanticEvent>, says: Speech<T>, start: T): T
    decreases |log|
  {
    if log == [] then start
    else
      var n := |log| - 1;
      if says(n + 1, log[n]).Some? then says(n + 1, log[n]).value else LastOf(log[..n], says, start)
  }

  /** The last thing said is `value`; or nothing was said, and it is what was there at the start. */
  ghost predicate SaidLast<T(!new)>(log: seq<SemanticEvent>, says: Speech<T>, start: T, value: T) {
    || (value == start && NothingSaid(log, says))
    || exists k :: 0 <= k < |log| && IsLast(log, says, k) && says(k + 1, log[k]) == Some(value)
  }

  ghost predicate NothingSaid<T(!new)>(log: seq<SemanticEvent>, says: Speech<T>) {
    forall k :: 0 <= k < |log| ==> says(k + 1, log[k]).None?
  }

  ghost predicate IsLast<T(!new)>(log: seq<SemanticEvent>, says: Speech<T>, k: int) {
    0 <= k < |log| && says(k + 1, log[k]).Some? && forall j :: k < j < |log| ==> says(j + 1, log[j]).None?
  }

  /** Whatever is accepted, the part becomes what the event says, and stays as it is when the event says nothing. */
  ghost predicate Follows<T(!new)>(part: Projection -> T, says: Speech<T>) {
    forall p, n, e :: Step(p, n, e).Ok() ==>
      part(Step(p, n, e).value) == (if says(n, e).Some? then says(n, e).value else part(p))
  }

  lemma {:induction false} LastIsSaid<T(!new)>(log: seq<SemanticEvent>, says: Speech<T>, start: T)
    ensures SaidLast(log, says, start, LastOf(log, says, start))
    decreases |log|
  {
    hide NothingSaid, IsLast;
    if log == [] {
      NoneSaid(says);
    } else {
      var n := |log| - 1;
      var less := log[..n];
      var value := LastOf(log, says, start);
      if says(n + 1, log[n]).Some? {
        EndIsLast(log, says);
      } else {
        LastIsSaid(less, says, start);
        if NothingSaid(less, says) && value == start {
          StillNothing(log, says);
        } else {
          var k :| 0 <= k < |less| && IsLast(less, says, k) && says(k + 1, less[k]) == Some(value);
          StillLast(log, says, k);
        }
      }
    }
  }

  lemma NoneSaid<T(!new)>(says: Speech<T>)
    ensures NothingSaid([], says)
  {
  }

  lemma EndIsLast<T(!new)>(log: seq<SemanticEvent>, says: Speech<T>)
    requires log != [] && says(|log|, log[|log| - 1]).Some?
    ensures IsLast(log, says, |log| - 1)
  {
  }

  lemma StillNothing<T(!new)>(log: seq<SemanticEvent>, says: Speech<T>)
    requires log != [] && says(|log|, log[|log| - 1]).None? && NothingSaid(log[..|log| - 1], says)
    ensures NothingSaid(log, says)
  {
    var n := |log| - 1;
    forall k | 0 <= k < |log| ensures says(k + 1, log[k]).None? {
      if k < n {
        assert log[..n][k] == log[k];
      }
    }
  }

  lemma StillLast<T(!new)>(log: seq<SemanticEvent>, says: Speech<T>, k: int)
    requires log != [] && says(|log|, log[|log| - 1]).None? && IsLast(log[..|log| - 1], says, k)
    ensures 0 <= k < |log| - 1 && IsLast(log, says, k) && log[..|log| - 1][k] == log[k]
  {
    var n := |log| - 1;
    forall j | k < j < |log| ensures says(j + 1, log[j]).None? {
      if j < n {
        assert log[..n][j] == log[j];
      }
    }
  }

  /** A part that follows what is said is, after any accepted log, what was said last. */
  lemma {:induction false} FollowsLog<T(!new)>(session: Id, log: seq<SemanticEvent>, part: Projection -> T, says: Speech<T>)
    requires Accepted(session, log) && Follows(part, says)
    ensures part(Fold(session, log).value) == LastOf(log, says, part(New(session)))
    decreases |log|
  {
    hide Step, Replay;
    if log == [] {
      ReplayNone(New(session), 1);
    } else {
      FoldLast(session, log);
      FollowsLog(session, log[..|log| - 1], part, says);
    }
  }

  /** A part that is said once and for all: what speaks of it is only accepted while it is missing. */
  ghost predicate SaidWhenMissing<T(!new)>(part: Projection -> Option<T>, says: Speech<Option<T>>) {
    forall p, n, e :: Step(p, n, e).Ok() && says(n, e).Some? ==> part(p).None? && says(n, e).value.Some?
  }

  lemma SaidOnce<T(!new)>(session: Id, log: seq<SemanticEvent>, part: Projection -> Option<T>, says: Speech<Option<T>>, j: nat, k: nat)
    requires Accepted(session, log) && Follows(part, says) && SaidWhenMissing(part, says) && part(New(session)).None?
    requires j < k < |log| && says(j + 1, log[j]).Some?
    ensures says(k + 1, log[k]).None?
  {
    hide Step, Replay;
    if says(k + 1, log[k]).Some? {
      PrefixAccepted(session, log, k);
      FollowsLog(session, log[..k], part, says);
      LastIsSaid(log[..k], says, None);
      MissingBefore(session, log, part, says, k);
      assert log[..k][j] == log[j];
      var m :| 0 <= m < k && IsLast(log[..k], says, m) && says(m + 1, log[..k][m]) == Some(None);
      MissingBefore(session, log, part, says, m);
    }
  }

  lemma MissingBefore<T(!new)>(session: Id, log: seq<SemanticEvent>, part: Projection -> Option<T>, says: Speech<Option<T>>, k: nat)
    requires Accepted(session, log) && SaidWhenMissing(part, says) && k < |log| && says(k + 1, log[k]).Some?
    ensures part(Fold(session, log[..k]).value).None? && says(k + 1, log[k]).value.Some?
  {
    hide Step, Replay;
    PrefixAccepted(session, log, k + 1);
    FoldLast(session, log[..k + 1]);
    assert log[..k + 1][..k] == log[..k];
  }

  // ---------------------------------------------------------------- runs

  /** What an accepted event does to a run. */
  lemma RunAfter(p: Projection, n: EventId, e: SemanticEvent, r: Id)
    requires Step(p, n, e).Ok()
    ensures var was, now := p.queue.runs, Step(p, n, e).value.queue.runs;
            if !e.RunEv? || e.run.runId != r then
              (r in was <==> r in now) && (r in was ==> now[r] == was[r].(toolCalls := now[r].toolCalls))
            else if e.run.RunQueued? then
              r !in was && r in now && now[r] == NewRun(r, e.run.retryOf, e.run.provider, e.run.model, e.run.request)
            else r in was && r in now && now[r] == RunEffect(was[r], e.run)
  {
    if e.RunEv? {
      RunEventMeaning(p.queue, e.run);
      hide StepRun;
    }
  }

  /** What a submission says of its run. A retry comes before every fresh run. */
  datatype Submission = Submission(retryOf: Option<Id>, provider: string, model: string, request: Json, queuePriority: int)

  function SubmissionOf(p: Projection, r: Id): Option<Submission> {
    if r !in p.queue.runs then None
    else
      var run := p.queue.runs[r];
      Some(Submission(run.retryOf, run.provider, run.model, run.request, run.queuePriority))
  }

  function SaysSubmission(r: Id): Speech<Option<Submission>> {
    (n: EventId, e: SemanticEvent) =>
      if e.RunEv? && e.run.RunQueued? && e.run.runId == r then
        Some(Some(Submission(e.run.retryOf, e.run.provider, e.run.model, e.run.request, if e.run.retryOf.Some? then -1 else 0)))
      else None
  }

  /** A run's submission is the one event of the log that queued it. */
  lemma SubmissionRecorded(session: Id, log: seq<SemanticEvent>, r: Id)
    requires Accepted(session, log)
    ensures SubmissionOf(Fold(session, log).value, r) == LastOf(log, SaysSubmission(r), None)
    ensures forall j, k :: 0 <= j < k < |log| && SaysSubmission(r)(j + 1, log[j]).Some? ==> SaysSubmission(r)(k + 1, log[k]).None?
  {
    hide Step, Replay, LastOf;
    var part, says := (p: Projection) => SubmissionOf(p, r), SaysSubmission(r);
    forall p, n, e | Step(p, n, e).Ok()
      ensures part(Step(p, n, e).value) == (if says(n, e).Some? then says(n, e).value else part(p))
      ensures says(n, e).Some? ==> part(p).None?
    {
      RunAfter(p, n, e, r);
    }
    FollowsLog(session, log, part, says);
    forall j, k | 0 <= j < k < |log| && SaysSubmission(r)(j + 1, log[j]).Some? ensures SaysSubmission(r)(k + 1, log[k]).None? {
      SaidOnce(session, log, part, says, j, k);
    }
  }

  /** Whatever was submitted, a retry has a lower priority number than a fresh run, and retries among themselves the same. */
  lemma RetriesFirst(session: Id, log: seq<SemanticEvent>, a: Id, b: Id)
    requires Accepted(session, log)
    requires a in Fold(session, log).value.queue.runs && b in Fold(session, log).value.queue.runs
    ensures var x, y := Fold(session, log).value.queue.runs[a], Fold(session, log).value.queue.runs[b];
            && (x.retryOf.Some? && y.retryOf.None? ==> x.queuePriority < y.queuePriority)
            && (x.retryOf.Some? == y.retryOf.Some? ==> x.queuePriority == y.queuePriority)
  {
    hide Fold, LastOf;
    SubmissionRecorded(session, log, a);
    SubmissionRecorded(session, log, b);
    LastIsSaid(log, SaysSubmission(a), None);
    LastIsSaid(log, SaysSubmission(b), None);
  }

  /** What the last start says, of the run itself or of an attempt. */
  function AttemptOf(p: Projection, r: Id): Option<(Option<Id>, nat)> {
    if r in p.queue.runs then Some((p.queue.runs[r].attemptId, p.queue.runs[r].attempts)) else None
  }

  function SaysAttempt(r: Id): Speech<Option<(Option<Id>, nat)>> {
    (n: EventId, e: SemanticEvent) =>
      if !e.RunEv? || e.run.runId != r then None
      else match e.run
        case RunQueued(_, _, _, _, _) => Some(Some((None, 0)))
        case RunStarted(_, attemptId, attempt) => Some(Some((Some(attemptId), attempt)))
        case RunAttemptStarted(_, attemptId, attempt) => Some(Some((Some(attemptId), attempt)))
        case _ => None
  }

  lemma AttemptRecorded(session: Id, log: seq<SemanticEvent>, r: Id)
    requires Accepted(session, log)
    ensures AttemptOf(Fold(session, log).value, r) == LastOf(log, SaysAttempt(r), None)
  {
    hide Step, Replay, LastOf;
    var part, says := (p: Projection) => AttemptOf(p, r), SaysAttempt(r);
    forall p, n, e | Step(p, n, e).Ok() ensures part(Step(p, n, e).value) == (if says(n, e).Some? then says(n, e).value else part(p)) {
      RunAfter(p, n, e, r);
    }
    FollowsLog(session, log, part, says);
  }

  /** Every status a run is in, not only the terminal ones. */
  function SaysStatus(r: Id): Speech<Option<RunStatus>> {
    (n: EventId, e: SemanticEvent) =>
      if !e.RunEv? || e.run.runId != r then None
      else match e.run
        case RunQueued(_, _, _, _, _) => Some(Some(Queued))
        case RunStarted(_, _, _) => Some(Some(RunRunning))
        case RunRequiresAction(_, _) => Some(Some(RequiresAction))
        case RunCompleted(_, _) => Some(Some(Completed))
        case RunFailed(_, _) => Some(Some(RunFailedStatus))
        case RunCancelled(_, _) => Some(Some(Cancelled))
        case RunInterrupted(_, _) => Some(Some(RunInterruptedStatus))
        case _ => None
  }

  lemma EveryStatusRecorded(session: Id, log: seq<SemanticEvent>, r: Id)
    requires Accepted(session, log)
    ensures StatusOf(Fold(session, log).value.queue, r) == LastOf(log, SaysStatus(r), None)
  {
    hide Step, Replay, LastOf;
    var part, says := (p: Projection) => StatusOf(p.queue, r), SaysStatus(r);
    forall p, n, e | Step(p, n, e).Ok() ensures part(Step(p, n, e).value) == (if says(n, e).Some? then says(n, e).value else part(p)) {
      RunAfter(p, n, e, r);
    }
    FollowsLog(session, log, part, says);
  }

  /** A run's error: that of the last failed attempt, failure or interruption, which a completion or a cancellation clears. */
  function ErrorOf(p: Projection, r: Id): Option<Option<string>> {
    if r in p.queue.runs then Some(p.queue.runs[r].error) else None
  }

  function SaysError(r: Id): Speech<Option<Option<string>>> {
    (n: EventId, e: SemanticEvent) =>
      if !e.RunEv? || e.run.runId != r then None
      else match e.run
        case RunAttemptFailed(_, _, error, _) => Some(Some(Some(error)))
        case RunFailed(_, error) => Some(Some(Some(error)))
        case RunInterrupted(_, reason) => Some(Some(Some(reason)))
        case RunQueued(_, _, _, _, _) => Some(Some(None))
        case RunCompleted(_, _) => Some(Some(None))
        case RunCancelled(_, _) => Some(Some(None))
        case _ => None
  }

  lemma ErrorRecorded(session: Id, log: seq<SemanticEvent>, r: Id)
    requires Accepted(session, log)
    ensures ErrorOf(Fold(session, log).value, r) == LastOf(log, SaysError(r), None)
  {
    hide Step, Replay, LastOf;
    var part, says := (p: Projection) => ErrorOf(p, r), SaysError(r);
    forall p, n, e | Step(p, n, e).Ok() ensures part(Step(p, n, e).value) == (if says(n, e).Some? then says(n, e).value else part(p)) {
      RunAfter(p, n, e, r);
    }
    FollowsLog(session, log, part, says);
  }

  function UsageOf(p: Projection, r: Id): Option<Option<Json>> {
    if r in p.queue.runs then Some(p.queue.runs[r].usage) else None
  }

  function SaysUsage(r: Id): Speech<Option<Option<Json>>> {
    (n: EventId, e: SemanticEvent) =>
      if !e.RunEv? || e.run.runId != r then None
      else match e.run
        case RunCompleted(_, usage) => Some(Some(usage))
        case RunQueued(_, _, _, _, _) => Some(Some(None))
        case _ => None
  }

  lemma UsageRecorded(session: Id, log: seq<SemanticEvent>, r: Id)
    requires Accepted(session, log)
    ensures UsageOf(Fold(session, log).value, r) == LastOf(log, SaysUsage(r), None)
  {
    hide Step, Replay, LastOf;
    var part, says := (p: Projection) => UsageOf(p, r), SaysUsage(r);
    forall p, n, e | Step(p, n, e).Ok() ensures part(Step(p, n, e).value) == (if says(n, e).Some? then says(n, e).value else part(p)) {
      RunAfter(p, n, e, r);
    }
    FollowsLog(session, log, part, says);
  }

  /** The queue is paused or open as the last event said that pauses or opens it. */
  function SaysPaused(): Speech<bool> {
    (n: EventId, e: SemanticEvent) =>
      match e
      case QueuePaused => Some(true)
      case QueueResumed => Some(false)
      case SessionEv(s) => if s.SessionForked? then Some(true) else None
      case RunEv(r) =>
        if r.RunStarted? then Some(false)
        else if r.RunFailed? || r.RunCancelled? || r.RunInterrupted? || r.RunRequiresAction? then Some(true)
        else None
      case _ => None
  }

  lemma PauseRecorded(session: Id, log: seq<SemanticEvent>)
    requires Accepted(session, log)
    ensures Fold(session, log).value.queue.paused == LastOf(log, SaysPaused(), false)
  {
    hide Replay, LastOf, StepMessages, StepState, StepAgents, StepPermissions;
    var part, says := (p: Projection) => p.queue.paused, SaysPaused();
    forall p, n, e | Step(p, n, e).Ok() ensures part(Step(p, n, e).value) == (if says(n, e).Some? then says(n, e).value else part(p)) {
      if e.RunEv? {
        RunEventMeaning(p.queue, e.run);
      }
    }
    FollowsLog(session, log, part, says);
  }

  // ---------------------------------------------------------------- the session's phase

  function SaysPhase(): Speech<SessionPhase> {
    (n: EventId, e: SemanticEvent) =>
      if !e.SessionEv? then None
      else match e.session
        case SessionCreated(_) => None
        case SessionPhaseChanged(_, to, _) => Some(to)
        case SessionInterrupted(_) => Some(Interrupted)
        case SessionForked(_, _) => Some(Interrupted)
  }

  lemma PhaseRecorded(session: Id, log: seq<SemanticEvent>)
    requires Accepted(session, log)
    ensures Fold(session, log).value.state.phase == LastOf(log, SaysPhase(), Created)
  {
    hide Replay, LastOf, StepRun, StepTool, StepMessages, StepAgents, StepPermissions;
    FollowsLog(session, log, (p: Projection) => p.state.phase, SaysPhase());
  }

  // ---------------------------------------------------------------- tool calls

  /** What its emission says of a call. */
  datatype Emission = Emission(messageId: Id, agentId: Id, toolName: string, arguments: Json, rawArguments: string, native: bool)

  function EmissionOf(p: Projection, r: Id, c: Id): Option<Emission> {
    if r !in p.queue.runs || c !in p.queue.runs[r].toolCalls then None
    else
      var call := p.queue.runs[r].toolCalls[c];
      Some(Emission(call.assistantMessageId, call.agentId, call.toolName, call.arguments, call.rawArguments, call.native))
  }

  function SaysEmission(r: Id, c: Id): Speech<Option<Emission>> {
    (n: EventId, e: SemanticEvent) =>
      if e.ToolEv? && e.tool.ToolCallEmitted? && e.tool.runId == r && e.tool.callId == c then
        Some(Some(Emission(e.tool.assistantMessageId, e.tool.agentId, e.tool.toolName, e.tool.arguments, e.tool.rawArguments, e.tool.native)))
      else None
  }

  /** A call is what the one event that emitted it said. */
  lemma EmissionRecorded(session: Id, log: seq<SemanticEvent>, r: Id, c: Id)
    requires Accepted(session, log)
    ensures EmissionOf(Fold(session, log).value, r, c) == LastOf(log, SaysEmission(r, c), None)
    ensures forall j, k :: 0 <= j < k < |log| && SaysEmission(r, c)(j + 1, log[j]).Some? ==> SaysEmission(r, c)(k + 1, log[k]).None?
  {
    hide Step, Replay, LastOf;
    var part, says := (p: Projection) => EmissionOf(p, r, c), SaysEmission(r, c);
    forall p, n, e | Step(p, n, e).Ok()
      ensures part(Step(p, n, e).value) == (if says(n, e).Some? then says(n, e).value else part(p))
      ensures says(n, e).Some? ==> part(p).None?
    {
      EmissionStep(p, n, e, r, c);
    }
    FollowsLog(session, log, part, says);
    forall j, k | 0 <= j < k < |log| && SaysEmission(r, c)(j + 1, log[j]).Some? ensures SaysEmission(r, c)(k + 1, log[k]).None? {
      SaidOnce(session, log, part, says, j, k);
    }
  }

  lemma EmissionStep(p: Projection, n: EventId, e: SemanticEvent, r: Id, c: Id)
    requires Step(p, n, e).Ok()
    ensures EmissionOf(Step(p, n, e).value, r, c) == (if SaysEmission(r, c)(n, e).Some? then SaysEmission(r, c)(n, e).value else EmissionOf(p, r, c))
    ensures SaysEmission(r, c)(n, e).Some? ==> EmissionOf(p, r, c).None?
  {
    hide StepMessages, StepAgents, StepState, StepPermissions;
    if e.RunEv? {
      RunAfter(p, n, e, r);
      CallsStay(p, n, e.run, r);
      hide Step;
    } else {
      hide StepRun;
    }
  }

  lemma CallsStay(p: Projection, n: EventId, e: RunEvent, r: Id)
    requires Step(p, n, RunEv(e)).Ok()
    ensures var was, now := p.queue.runs, Step(p, n, RunEv(e)).value.queue.runs;
            r in now ==> now[r].toolCalls == if r in was then was[r].toolCalls else map[]
  {
    RunEventMeaning(p.queue, e);
    hide StepRun;
  }

  // ---------------------------------------------------------------- permissions

  function RequestOf(p: Projection, x: Id): Option<Permission> {
    if x in p.permissions then Some(p.permissions[x].(decision := None)) else None
  }

  function SaysRequest(x: Id): Speech<Option<Permission>> {
    (n: EventId, e: SemanticEvent) =>
      if e.PermissionEv? && e.permission.PermissionRequested? && e.permission.requestId == x then
        Some(Some(Permission(x, e.permission.runId, e.permission.call, e.permission.agentId, e.permission.toolName, e.permission.arguments, None)))
      else None
  }

  lemma RequestRecorded(session: Id, log: seq<SemanticEvent>, x: Id)
    requires Accepted(session, log)
    ensures RequestOf(Fold(session, log).value, x) == LastOf(log, SaysRequest(x), None)
    ensures forall j, k :: 0 <= j < k < |log| && SaysRequest(x)(j + 1, log[j]).Some? ==> SaysRequest(x)(k + 1, log[k]).None?
  {
    hide Replay, LastOf, StepRun, StepTool, StepMessages, StepState, StepAgents;
    var part, says := (p: Projection) => RequestOf(p, x), SaysRequest(x);
    FollowsLog(session, log, part, says);
    forall j, k | 0 <= j < k < |log| && SaysRequest(x)(j + 1, log[j]).Some? ensures SaysRequest(x)(k + 1, log[k]).None? {
      SaidOnce(session, log, part, says, j, k);
    }
  }

  // ---------------------------------------------------------------- messages

  /** What its start says of a message: whose it is, and when it began. */
  datatype Opening = Opening(role: MessageRole, agentId: Option<Id>, author: MessageAuthor, firstEventId: EventId)

  function OpeningOf(p: Projection, m: Id): Option<Opening> {
    var i := IndexOf(p.messages, m);
    if i == |p.messages| then None
    else Some(Opening(p.messages[i].role, p.messages[i].agentId, p.messages[i].author, p.messages[i].firstEventId))
  }

  /** An author that is named stands. Where the system is named, the message is the user's, or that of the agent or tool named
      with it, as its role has it. */
  function AuthorSaid(e: MessageEvent): MessageAuthor
    requires e.MessageStarted?
  {
    match e.author
    case UserAuthor => UserAuthor
    case AgentAuthor(id) => AgentAuthor(id)
    case ToolAuthor(id) => ToolAuthor(id)
    case SystemAuthor =>
      match e.role
      case SystemRole => SystemAuthor
      case UserRole => UserAuthor
      case AssistantRole => if e.agentId == "" then SystemAuthor else AgentAuthor(e.agentId)
      case ToolRole => if e.agentId == "" then SystemAuthor else ToolAuthor(e.agentId)
  }

  function SaysOpening(m: Id): Speech<Option<Opening>> {
    (n: EventId, e: SemanticEvent) =>
      if e.MessageEv? && e.message.MessageStarted? && e.message.messageId == m then
        Some(Some(Opening(e.message.role, if e.message.agentId == "" then None else Some(e.message.agentId),
                          AuthorSaid(e.message), n)))
      else None
  }

  lemma {:induction false} IndexSet(ms: seq<Message>, i: nat, m: Message, id: Id)
    requires i < |ms| && m.messageId == ms[i].messageId
    ensures IndexOf(ms[i := m], id) == IndexOf(ms, id)
    decreases |ms|
  {
    if i > 0 {
      IndexSet(ms[1..], i - 1, m, id);
      assert ms[i := m][1..] == ms[1..][i - 1 := m];
    }
  }

  lemma {:induction false} IndexAdd(ms: seq<Message>, m: Message, id: Id)
    ensures IndexOf(ms + [m], id) ==
            if IndexOf(ms, id) < |ms| then IndexOf(ms, id) else if m.messageId == id then |ms| else |ms| + 1
    decreases |ms|
  {
    if ms != [] {
      IndexAdd(ms[1..], m, id);
      assert (ms + [m])[1..] == ms[1..] + [m];
    }
  }

  /** How an accepted message event finds the messages, and leaves them. */
  lemma MessagesAfter(ms: seq<Message>, n: EventId, e: MessageEvent, id: Id)
    requires StepMessages(ms, n, e).Ok()
    ensures var after := StepMessages(ms, n, e).value;
            var i, j := IndexOf(ms, id), IndexOf(after, id);
            && (e.MessageStarted? && e.messageId == id ==>
                  i == |ms| && j < |after| && after[j] == NewMessage(id, e.agentId, e.role, e.author, n))
            && (!(e.MessageStarted? && e.messageId == id) ==> (i == |ms| <==> j == |after|))
            && (i < |ms| ==> j == i && j < |after| && after[j] == MessageEffect(ms[i], n, MessageEv(e)))
            && (e.messageId == id && !e.MessageStarted? ==> i < |ms|)
  {
    var k := IndexOf(ms, e.messageId);
    if e.MessageStarted? {
      IndexAdd(ms, NewMessage(e.messageId, e.agentId, e.role, e.author, n), id);
    } else {
      IndexSet(ms, k, MessageEffect(ms[k], n, MessageEv(e)), id);
    }
  }

  lemma OpeningRecorded(session: Id, log: seq<SemanticEvent>, m: Id)
    requires Accepted(session, log)
    ensures OpeningOf(Fold(session, log).value, m) == LastOf(log, SaysOpening(m), None)
    ensures forall j, k :: 0 <= j < k < |log| && SaysOpening(m)(j + 1, log[j]).Some? ==> SaysOpening(m)(k + 1, log[k]).None?
  {
    hide Step, Replay, LastOf;
    var part, says := (p: Projection) => OpeningOf(p, m), SaysOpening(m);
    forall p, n, e | Step(p, n, e).Ok()
      ensures part(Step(p, n, e).value) == (if says(n, e).Some? then says(n, e).value else part(p))
      ensures says(n, e).Some? ==> part(p).None?
    {
      OpeningStep(p, n, e, m);
    }
    FollowsLog(session, log, part, says);
    forall j, k | 0 <= j < k < |log| && SaysOpening(m)(j + 1, log[j]).Some? ensures SaysOpening(m)(k + 1, log[k]).None? {
      SaidOnce(session, log, part, says, j, k);
    }
  }

  lemma OpeningStep(p: Projection, n: EventId, e: SemanticEvent, m: Id)
    requires Step(p, n, e).Ok()
    ensures OpeningOf(Step(p, n, e).value, m) == (if SaysOpening(m)(n, e).Some? then SaysOpening(m)(n, e).value else OpeningOf(p, m))
    ensures SaysOpening(m)(n, e).Some? ==> OpeningOf(p, m).None?
  {
    if e.MessageEv? {
      MessagesAfter(p.messages, n, e.message, m);
      hide StepMessages, IndexOf;
    }
  }

  /** The id of the last event that touched a message. */
  function TouchedOf(p: Projection, m: Id): Option<EventId> {
    var i := IndexOf(p.messages, m);
    if i == |p.messages| then None else Some(p.messages[i].lastEventId)
  }

  function SaysTouched(m: Id): Speech<Option<EventId>> {
    (n: EventId, e: SemanticEvent) =>
      if e.MessageEv? && e.message.messageId == m then Some(Some(n)) else None
  }

  lemma TouchRecorded(session: Id, log: seq<SemanticEvent>, m: Id)
    requires Accepted(session, log)
    ensures TouchedOf(Fold(session, log).value, m) == LastOf(log, SaysTouched(m), None)
  {
    hide Step, Replay, LastOf;
    var part, says := (p: Projection) => TouchedOf(p, m), SaysTouched(m);
    forall p, n, e | Step(p, n, e).Ok() ensures part(Step(p, n, e).value) == (if says(n, e).Some? then says(n, e).value else part(p)) {
      TouchedStep(p, n, e, m);
    }
    FollowsLog(session, log, part, says);
  }

  lemma TouchedStep(p: Projection, n: EventId, e: SemanticEvent, m: Id)
    requires Step(p, n, e).Ok()
    ensures TouchedOf(Step(p, n, e).value, m) == (if SaysTouched(m)(n, e).Some? then SaysTouched(m)(n, e).value else TouchedOf(p, m))
  {
    if e.MessageEv? {
      MessagesAfter(p.messages, n, e.message, m);
      hide StepMessages, IndexOf;
    }
  }

  // ---------------------------------------------------------------- agents

  /** What its spawning says of an agent. */
  datatype Spawning = Spawning(parentId: Option<Id>, link: Option<AgentLink>, configRevision: Option<nat>)

  function SpawningOf(p: Projection, a: Id): Option<Spawning> {
    if a in p.agents.instances then
      Some(Spawning(p.agents.instances[a].parentId, p.agents.instances[a].link, p.agents.instances[a].configRevision))
    else None
  }

  function SaysSpawning(a: Id): Speech<Option<Spawning>> {
    (n: EventId, e: SemanticEvent) =>
      if e.AgentEv? && e.agent.AgentSpawned? && e.agent.agentId == a then
        Some(Some(Spawning(e.agent.parentId, e.agent.link, e.agent.configRevision)))
      else None
  }

  lemma SpawningRecorded(session: Id, log: seq<SemanticEvent>, a: Id)
    requires Accepted(session, log)
    ensures SpawningOf(Fold(session, log).value, a) == LastOf(log, SaysSpawning(a), None)
  {
    hide Replay, LastOf, StepRun, StepTool, StepMessages, StepState, StepPermissions;
    FollowsLog(session, log, (p: Projection) => SpawningOf(p, a), SaysSpawning(a));
  }

  function PhaseOf(p: Projection, a: Id): Option<AgentPhase> {
    if a in p.agents.phases then Some(p.agents.phases[a]) else None
  }

  function SaysAgentPhase(a: Id): Speech<Option<AgentPhase>> {
    (n: EventId, e: SemanticEvent) =>
      if !e.AgentEv? || e.agent.agentId != a then None
      else match e.agent
        case AgentSpawned(_, _, _, _) => Some(Some(AgentCreated))
        case AgentPhaseChanged(_, phase) => Some(Some(phase))
        case AgentFinished(_, _) => Some(Some(AgentFinishedPhase))
        case _ => None
  }

  lemma AgentPhaseRecorded(session: Id, log: seq<SemanticEvent>, a: Id)
    requires Accepted(session, log)
    ensures PhaseOf(Fold(session, log).value, a) == LastOf(log, SaysAgentPhase(a), None)
  {
    hide Replay, LastOf, StepRun, StepTool, StepMessages, StepState, StepPermissions;
    FollowsLog(session, log, (p: Projection) => PhaseOf(p, a), SaysAgentPhase(a));
  }

  function CapturedOf(p: Projection, a: Id): Option<seq<ContextRef>> {
    if a in p.agents.instances then Some(p.agents.instances[a].context) else None
  }

  function SaysCaptured(a: Id): Speech<Option<seq<ContextRef>>> {
    (n: EventId, e: SemanticEvent) =>
      if !e.AgentEv? || e.agent.agentId != a then None
      else match e.agent
        case AgentSpawned(_, _, _, _) => Some(Some([]))
        case AgentContextCaptured(_, references) => Some(Some(references))
        case _ => None
  }

  lemma CaptureRecorded(session: Id, log: seq<SemanticEvent>, a: Id)
    requires Accepted(session, log)
    ensures CapturedOf(Fold(session, log).value, a) == LastOf(log, SaysCaptured(a), None)
  {
    hide Replay, LastOf, StepRun, StepTool, StepMessages, StepState, StepPermissions;
    FollowsLog(session, log, (p: Projection) => CapturedOf(p, a), SaysCaptured(a));
  }

  // ---------------------------------------------------------------- context

  /** The artifact of the last compaction. */
  function SaysArtifact(): Speech<Option<ContextArtifact>> {
    (n: EventId, e: SemanticEvent) =>
      if e.ContextEv? && e.context.ContextCompacted? then Some(Some(e.context.artifact)) else None
  }

  /** The code of the last failure since the last compaction, and the reason of the last bypass since. */
  function SaysFailure(): Speech<Option<string>> {
    (n: EventId, e: SemanticEvent) =>
      if !e.ContextEv? then None
      else if e.context.ContextCompacted? then Some(None)
      else if e.context.ContextCompactionFailed? then Some(Some(e.context.code))
      else None
  }

  function SaysBypass(): Speech<Option<string>> {
    (n: EventId, e: SemanticEvent) =>
      if !e.ContextEv? then None
      else if e.context.ContextCompacted? then Some(None)
      else if e.context.ContextCompactionBypassed? then Some(Some(e.context.reason))
      else None
  }

  lemma ArtifactRecorded(session: Id, log: seq<SemanticEvent>)
    requires Accepted(session, log)
    ensures Fold(session, log).value.context.activeArtifact == LastOf(log, SaysArtifact(), None)
  {
    hide Replay, LastOf, StepRun, StepTool, StepMessages, StepAgents, StepState, StepPermissions;
    FollowsLog(session, log, (p: Projection) => p.context.activeArtifact, SaysArtifact());
  }

  lemma FailureRecorded(session: Id, log: seq<SemanticEvent>)
    requires Accepted(session, log)
    ensures Fold(session, log).value.context.lastFailure == LastOf(log, SaysFailure(), None)
  {
    hide Replay, LastOf, StepRun, StepTool, StepMessages, StepAgents, StepState, StepPermissions;
    FollowsLog(session, log, (p: Projection) => p.context.lastFailure, SaysFailure());
  }

  lemma BypassRecorded(session: Id, log: seq<SemanticEvent>)
    requires Accepted(session, log)
    ensures Fold(session, log).value.context.lastBypassReason == LastOf(log, SaysBypass(), None)
  {
    hide Replay, LastOf, StepRun, StepTool, StepMessages, StepAgents, StepState, StepPermissions;
    FollowsLog(session, log, (p: Projection) => p.context.lastBypassReason, SaysBypass());
  }

  predicate SaysFact(e: SemanticEvent, id: Id) { e.ContextEv? && e.context.ContextFactRecorded? && e.context.fact.factId == id }

  predicate FirstFact(log: seq<SemanticEvent>, k: int, fact: ContextFact) {
    0 <= k < |log| && log[k] == ContextEv(ContextFactRecorded(fact)) && forall j :: 0 <= j < k ==> !SaysFact(log[j], fact.factId)
  }

  lemma FirstFactNext(log: seq<SemanticEvent>, fact: ContextFact)
    requires log != []
    ensures var less, e := log[..|log| - 1], log[|log| - 1];
            && (Occurs(log, x => SaysFact(x, fact.factId)) <==> Occurs(less, x => SaysFact(x, fact.factId)) || SaysFact(e, fact.factId))
            && ((exists k :: FirstFact(log, k, fact)) <==>
                || (exists k :: FirstFact(less, k, fact))
                || (e == ContextEv(ContextFactRecorded(fact)) && !Occurs(less, x => SaysFact(x, fact.factId))))
  {
    var n := |log| - 1;
    var less := log[..n];
    OccursLast(log, x => SaysFact(x, fact.factId));
    if k :| FirstFact(less, k, fact) {
      assert FirstFact(log, k, fact);
    }
    if k :| FirstFact(log, k, fact) {
      if k < n {
        assert FirstFact(less, k, fact);
      }
    }
    if log[n] == ContextEv(ContextFactRecorded(fact)) && !Occurs(less, x => SaysFact(x, fact.factId)) {
      forall j | 0 <= j < n ensures !SaysFact(log[j], fact.factId) {
        assert less[j] == log[j];
      }
      assert FirstFact(log, n, fact);
    }
  }

  lemma FactStep(p: Projection, n: EventId, e: SemanticEvent, fact: ContextFact)
    requires Step(p, n, e).Ok()
    ensures var was, now := p.context.durableFacts, Step(p, n, e).value.context.durableFacts;
            && (HasFact(now, fact.factId) <==> HasFact(was, fact.factId) || SaysFact(e, fact.factId))
            && (fact in now <==> fact in was || (e == ContextEv(ContextFactRecorded(fact)) && !HasFact(was, fact.factId)))
  {
    hide StepRun, StepTool, StepMessages, StepAgents, StepState, StepPermissions;
    var was, now := p.context.durableFacts, Step(p, n, e).value.context.durableFacts;
    if e.ContextEv? && e.context.ContextFactRecorded? && !HasFact(was, e.context.fact.factId) {
      assert now == was + [e.context.fact];
      assert now[|was|] == e.context.fact;
      assert forall i :: 0 <= i < |was| ==> now[i] == was[i];
    }
  }

  /** A durable fact is the first one recorded under its id. */
  lemma {:induction false} FactRecorded(session: Id, log: seq<SemanticEvent>, fact: ContextFact)
    requires Accepted(session, log)
    ensures fact in Fold(session, log).value.context.durableFacts <==> exists k :: FirstFact(log, k, fact)
    ensures HasFact(Fold(session, log).value.context.durableFacts, fact.factId) <==> Occurs(log, e => SaysFact(e, fact.factId))
    decreases |log|
  {
    hide Step, HasFact, FirstFact, Occurs, SaysFact;
    if log == [] {
      NoFacts(session, fact);
    } else {
      var n := |log| - 1;
      FoldLast(session, log);
      FactRecorded(session, log[..n], fact);
      FactStep(Fold(session, log[..n]).value, n + 1, log[n], fact);
      FirstFactNext(log, fact);
    }
  }

  lemma NoFacts(session: Id, fact: ContextFact)
    ensures Fold(session, []).value.context.durableFacts == [] && !HasFact([], fact.factId)
    ensures !(exists k :: FirstFact([], k, fact)) && !Occurs([], e => SaysFact(e, fact.factId))
  {
  }
}
