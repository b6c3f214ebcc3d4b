/** What a parent is told of a delegated run (`deliver_child_result` and `truncate_utf8` in
    piqo-server/src/supervisor.rs): how the run ended, and the text of the last answer, cut to the bytes the
    parent allows without cutting a character. */
module ChildResult {
  import opened Prelude
  import opened Events
  import opened Session
  import opened History
  import opened Ledger
  import opened Finishing

  // ---------------------------------------------------------------- cutting text

  /** The bytes a character takes in UTF-8. */
  function Width(c: char): nat {
    var n := c as int;
    if n < 0x80 then 1 else if n < 0x800 then 2 else if n < 0x1_0000 then 3 else 4
  }

  function Size(text: string): nat
    decreases |text|
  {
    if text == "" then 0 else Size(text[..|text| - 1]) + Width(text[|text| - 1])
  }

  lemma {:induction false} SizeGrows(text: string, i: nat, j: nat)
    requires i <= j <= |text|
    ensures Size(text[..i]) + (j - i) <= Size(text[..j])
    decreases j
  {
    if i < j {
      assert text[..j][..j - 1] == text[..j - 1];
      SizeGrows(text, i, j - 1);
    }
  }

  /** How many characters end at a byte, if one does. */
  function CharsTo(text: string, bytes: nat): (k: Option<nat>)
    ensures k.Some? ==> k.value <= |text| && Size(text[..k.value]) == bytes
    ensures k.None? ==> forall i :: 0 <= i <= |text| ==> Size(text[..i]) != bytes
    decreases |text|
  {
    assert text[..|text|] == text;
    if Size(text) == bytes then Some(|text|)
    else if text == "" then None
    else
      var less := text[..|text| - 1];
      assert forall i :: 0 <= i < |text| ==> less[..i] == text[..i];
      CharsTo(less, bytes)
  }

  /** The longest text that fits: a beginning of the whole, no longer than allowed, and any longer beginning is too long. */
  predicate LongestThatFits(text: string, max: nat, cut: string) {
    cut <= text && Size(cut) <= max && forall k :: |cut| < k <= |text| ==> Size(text[..k]) > max
  }

  /** The cut steps back byte by byte until it stands between two characters. */
  method Truncate(text: string, max: nat) returns (cut: string, truncated: bool)
    ensures truncated <==> Size(text) > max
    ensures !truncated ==> cut == text
    ensures LongestThatFits(text, max, cut)
  {
    assert text[..|text|] == text;
    if Size(text) <= max {
      return text, false;
    }
    var end := max;
    while CharsTo(text, end).None?
      invariant 0 <= end <= max
      invariant forall k :: 0 <= k <= |text| && Size(text[..k]) <= max ==> Size(text[..k]) <= end
      decreases end
    {
      assert Size(text[..0]) == 0;
      end := end - 1;
    }
    var k := CharsTo(text, end).value;
    forall j | k < j <= |text| ensures Size(text[..j]) > max {
      SizeGrows(text, k, j);
    }
    return text[..k], true;
  }

  /** The cut as a function. */
  function Fitting(text: string, max: nat): (cut: string)
    ensures LongestThatFits(text, max, cut)
    decreases |text|
  {
    if Size(text) <= max then text
    else
      var less := text[..|text| - 1];
      var cut := Fitting(less, max);
      assert forall k :: 0 <= k < |text| ==> less[..k] == text[..k];
      assert text[..|text|] == text;
      cut
  }

  lemma FittingIsOnly(text: string, max: nat, cut: string)
    requires LongestThatFits(text, max, cut)
    ensures cut == Fitting(text, max)
  {
    var other := Fitting(text, max);
    assert cut == text[..|cut|] && other == text[..|other|];
  }

  // ---------------------------------------------------------------- the text

  function TextOf(blocks: seq<ContentBlock>): string
    decreases |blocks|
  {
    if blocks == [] then ""
    else
      var n := |blocks| - 1;
      TextOf(blocks[..n]) + (if blocks[n].TextBlock? then blocks[n].text else "")
  }

  predicate FromAssistant(m: Message) { m.role == AssistantRole }

  /** The text of the last message of the assistant, whether it was completed or not. */
  function LastAnswer(ms: seq<Message>): string {
    var i := LastWith(ms, FromAssistant);
    if i < |ms| then TextOf(ms[i].blocks) else ""
  }

  /** The text the log appends to a message. */
  function Said(log: seq<SemanticEvent>, id: Id): string
    decreases |log|
  {
    if log == [] then ""
    else
      var n := |log| - 1;
      Said(log[..n], id) +
      (if log[n].MessageEv? && log[n].message.MessageContentAppended? && log[n].message.messageId == id && log[n].message.block.TextBlock?
       then log[n].message.block.text else "")
  }

  lemma TextOfLast(blocks: seq<ContentBlock>, b: ContentBlock)
    ensures TextOf(blocks + [b]) == TextOf(blocks) + (if b.TextBlock? then b.text else "")
  {
    assert (blocks + [b])[..|blocks|] == blocks;
  }

  lemma {:induction false} TranscriptText(log: seq<SemanticEvent>, id: Id)
    ensures TextOf(Transcript(log, id)) == Said(log, id)
    decreases |log|
  {
    if log != [] {
      var n := |log| - 1;
      TranscriptText(log[..n], id);
      if log[n].MessageEv? && log[n].message.MessageContentAppended? && log[n].message.messageId == id {
        TextOfLast(Transcript(log[..n], id), log[n].message.block);
      } else {
        assert Transcript(log, id) == Transcript(log[..n], id);
      }
    }
  }

  // ---------------------------------------------------------------- the result

  function StatusFor(status: RunStatus): Option<TerminalStatus> {
    match status
    case Completed => Some(CompletedResult)
    case RunFailedStatus => Some(FailedResult)
    case Cancelled => Some(CancelledResult)
    case RunInterruptedStatus => Some(InterruptedResult)
    case _ => None
  }

  function ErrorFor(status: TerminalStatus): Option<string> {
    match status
    case CompletedResult => None
    case FailedResult => Some("child_failed")
    case CancelledResult => Some("child_cancelled")
    case InterruptedResult => Some("child_interrupted")
  }

  /** What is handed over for the run a link names, once that is over. */
  method ResultFor(child: Projection, link: AgentLink) returns (result: Option<AgentResult>)
    ensures result == Handed(child, link)
  {
    if link.childRun !in child.queue.runs || StatusFor(child.queue.runs[link.childRun].status).None? {
      return None;
    }
    var status := StatusFor(child.queue.runs[link.childRun].status).value;
    var text := LastAnswer(child.messages);
    var output, truncated := Truncate(text, link.budget.maxResultBytes);
    FittingIsOnly(text, link.budget.maxResultBytes, output);
    return Some(AgentResult(link.instanceId, link.profileId, link.childSession, link.childRun, status,
                            if status == CompletedResult then Some(Text(output)) else None, truncated, None, ErrorFor(status)));
  }

  function Handed(child: Projection, link: AgentLink): Option<AgentResult> {
    if link.childRun !in child.queue.runs || StatusFor(child.queue.runs[link.childRun].status).None? then None
    else
      var status := StatusFor(child.queue.runs[link.childRun].status).value;
      var text := LastAnswer(child.messages);
      var max := link.budget.maxResultBytes;
      Some(AgentResult(link.instanceId, link.profileId, link.childSession, link.childRun, status,
                       if status == CompletedResult then Some(Text(Fitting(text, max))) else None, Size(text) > max, None, ErrorFor(status)))
  }

  /** Main result: a result is handed over exactly when the log has ended the child's run, and says how; for a completed
      run alone it holds text, the longest beginning within the bytes allowed of what the log appended to the
      assistant's last message. */
  lemma HandedMeaning(session: Id, log: seq<SemanticEvent>, link: AgentLink)
    requires Accepted(session, log)
    ensures var p := Fold(session, log).value;
            var r := Handed(p, link);
            && (r.Some? <==> Ended(log, link.childRun, Completed) || Ended(log, link.childRun, RunFailedStatus)
                             || Ended(log, link.childRun, Cancelled) || Ended(log, link.childRun, RunInterruptedStatus))
            && (r.Some? ==>
                  && (r.value.status == CompletedResult <==> Ended(log, link.childRun, Completed))
                  && (r.value.status == FailedResult <==> Ended(log, link.childRun, RunFailedStatus))
                  && (r.value.status == CancelledResult <==> Ended(log, link.childRun, Cancelled))
                  && r.value.instanceId == link.instanceId && r.value.childRun == link.childRun
                  && (r.value.output.Some? <==> r.value.status == CompletedResult)
                  && (r.value.error.Some? <==> r.value.status != CompletedResult))
            && (r.Some? && r.value.output.Some? ==>
                  var i := LastWith(p.messages, FromAssistant);
                  var text := if i < |p.messages| then Said(log, p.messages[i].messageId) else "";
                  && r.value.output.value.Text? && LongestThatFits(text, link.budget.maxResultBytes, r.value.output.value.text)
                  && (r.value.outputTruncated <==> r.value.output.value.text != text))
  {
    hide Fold, Ended, LastWith, Size, TextOf, LastAnswer, Said;
    var p := Fold(session, log).value;
    EndedIs(session, log, link.childRun, Completed);
    EndedIs(session, log, link.childRun, RunFailedStatus);
    EndedIs(session, log, link.childRun, Cancelled);
    EndedIs(session, log, link.childRun, RunInterruptedStatus);
    AnswerIsSaid(session, log);
    var text := LastAnswer(p.messages);
    assert text[..|text|] == text;
  }

  predicate Ended(log: seq<SemanticEvent>, r: Id, status: RunStatus) {
    exists k :: 0 <= k < |log| && Ending(log[k], r) == Some(status)
  }

  lemma EndedIs(session: Id, log: seq<SemanticEvent>, r: Id, status: RunStatus)
    requires Accepted(session, log) && Terminal(status)
    ensures StatusOf(Fold(session, log).value.queue, r) == Some(status) <==> Ended(log, r, status)
  {
    StatusRecorded(session, log, r, status);
    hide Fold;
  }

  lemma AnswerIsSaid(session: Id, log: seq<SemanticEvent>)
    requires Accepted(session, log)
    ensures var ms := Fold(session, log).value.messages;
            var i := LastWith(ms, FromAssistant);
            LastAnswer(ms) == if i < |ms| then Said(log, ms[i].messageId) else ""
  {
    hide Fold, LastWith, TextOf;
    var ms := Fold(session, log).value.messages;
    var i := LastWith(ms, FromAssistant);
    if i < |ms| {
      MessageRecorded(session, log, i);
      TranscriptText(log, ms[i].messageId);
    }
  }

  /** What a turn of the child comes to is what its parent is told: nothing while it waits for an action, and otherwise the
      way the turn ended. */
  lemma TurnIsHanded(session: Id, log: seq<SemanticEvent>, link: AgentLink, result: ExecutionResult)
    requires Accepted(session, log) && InStatus(Fold(session, log).value, link.childRun, result) && !result.JustCompleted?
    ensures var o := Fold(session, log + (Closing(Fold(session, log).value, link.childRun, result) + PhaseMove(result)));
            o.Ok() ==>
              match result
              case NeedsAction => Handed(o.value, link) == None
              case CompletedWithUsage(_) => Handed(o.value, link).Some? && Handed(o.value, link).value.status == CompletedResult
              case WasFailed(_) => Handed(o.value, link).Some? && Handed(o.value, link).value.status == FailedResult
              case WasCancelled => Handed(o.value, link).Some? && Handed(o.value, link).value.status == CancelledResult
              case WasInterrupted => Handed(o.value, link).Some? && Handed(o.value, link).value.status == InterruptedResult
              case JustCompleted => true
  {
    hide Fold, Closing, PhaseMove, LastAnswer, Fitting, Size, EndsMessage, OneOpenAssistant, NoOpenAssistant, CanComplete;
    FinishMeaning(session, log, link.childRun, result);
  }
}
