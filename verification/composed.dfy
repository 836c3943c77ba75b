/**
 * The socket hook and the chat page together: every frame goes through the
 * hook's routing (hooks/use-websocket.ts:49-71) before the page's callbacks,
 * `handleWebSocketMessage` and `handleWebSocketError`, see it
 * (app/page.tsx:359-362).
 *
 * The error callback is split where it awaits its request: the request for
 * the bound message is issued at once (app/page.tsx:328-339), and the page is
 * only updated and reset when the request has completed (340-356). The hook
 * does not wait for it, so the page's message callback handles the same frame
 * in between.
 */
module Composed {
  import opened Wrappers
  import opened Text
  import opened Fence
  import opened Messages
  import opened Protocol
  import opened DecoderSpec
  import opened DecoderProperties
  import opened Transport

  /** The body of the request the error callback sends. */
  function FailureFields(error: string): map<Field, Value> {
    map[StatusField := Text(StatusName(Error)), ErrorMessageField := Text(error), ContentField := Text(FailureContent)]
  }

  /** The first part of the error callback: with a message bound, its request; otherwise it returns at once. */
  function ErrorRequest(s: Session, error: string): (r: Option<PatchRequest>)
    ensures r.Some? <==> s.acc.Bound()
    ensures r.Some? ==> r.value.id == s.acc.activeId.value
    ensures r.Some? ==> StatusField in r.value.fields && r.value.fields[StatusField] == Text("error")
  {
    if s.acc.Bound() then Some(PatchRequest(s.acc.activeId.value, FailureFields(error))) else None
  }

  /**
   * The rest of the error callback, once its request has completed: the
   * messages with the id bound at that moment are failed, and every ref is
   * reset.
   */
  function ErrorSettle(s: Session, error: string): (r: Session)
    ensures r.acc == Idle && |r.messages| == |s.messages|
    ensures s.acc.activeId.None? ==> r.messages == s.messages
  {
    Session(Idle, match s.acc.activeId
                  case Some(id) => UpdateWhere(s.messages, id, ReportedFailure(error))
                  case None => s.messages)
  }

  /** The request of an outcome, as a trace of at most one request. */
  function Requests(sent: Option<PatchRequest>): seq<PatchRequest> {
    if sent.Some? then [sent.value] else []
  }

  /**
   * One frame through the hook and then the page. The exact "DONE" stops at
   * the hook; a failure report is first given to the error callback, whose
   * second part runs after the message callback has handled the frame.
   */
  function Receive(s: Session, frame: string, parse: Parser): (r: Trace)
    ensures frame == DoneToken ==> r == Trace(s, [])
    ensures !s.acc.Bound() ==> r == Trace(s, [])
    ensures |r.next.messages| == |s.messages|
  {
    var route := Route(frame);
    if route == [] then Trace(s, [])
    else
      var o := Step(s, frame, parse);
      if |route| == 2 && s.acc.Bound() then
        Trace(ErrorSettle(o.next, frame), [ErrorRequest(s, frame).value] + Requests(o.sent))
      else
        Trace(o.next, Requests(o.sent))
  }

  /** With nothing in between, the two parts of the error callback make up `FailReported`. */
  lemma ErrorCallbackSplit(s: Session, error: string)
    requires s.acc.Bound()
    ensures FailReported(s, error) == Outcome(ErrorSettle(s, error), ErrorRequest(s, error))
  {
    var id := s.acc.activeId.value;
    assert FailReported(s, error) == Edited(s, id, Idle, ReportedFailure(error), Some(FailureFields(error)));
  }

  // ---------------------------------------------------------------------------
  // Which texts a frame can hold

  /** A frame that trims to a short token holds none of the hook's notices. */
  lemma NoNoticesAround(m: string, token: string)
    requires Trim(m) == token
    requires '最' !in token && 'S' !in token && '查' !in token && '异' !in token
    ensures !Contains(m, FinalSqlMarker) && !Contains(m, SuccessNotice) && !ReportsFailure(m)
  {
    PaddingChars(m);
    assert '最' !in m;
    assert 'S' !in m;
    assert '查' !in m;
    assert '异' !in m;
    HeadAbsent(m, FinalSqlMarker);
    HeadAbsent(m, SuccessNotice);
    HeadAbsent(m, FailedNotice);
    HeadAbsent(m, ExceptionNotice);
  }

  /** A failure report never ends the turn on the page: it cannot trim to `FLAG_DONE`. */
  lemma FailureIsNotSessionEnd(m: string, parse: Parser)
    requires ReportsFailure(m)
    ensures Classify(m, parse) != SessionEnd
  {
    if Classify(m, parse) == SessionEnd {
      assert Trim(m) == FlagDoneToken;
      NoNoticesAround(m, FlagDoneToken);
      assert false;
    }
  }

  /** Only the session-end branch unbinds the message. */
  lemma StepKeepsBinding(s: Session, m: string, parse: Parser)
    requires s.acc.Bound() && Classify(m, parse) != SessionEnd
    ensures Step(s, m, parse).next.acc.activeId == s.acc.activeId
  {
    var id := s.acc.activeId.value;
    var frame := Classify(m, parse);
    assert Step(s, m, parse) == Dispatch(s, id, frame);
    match frame
    case Thinking =>
    case Executing =>
    case StreamEnd =>
      match FindSqlBlock(s.acc.prose) {
        case Some(b) => FinishOverBlock(s, id, b);
        case None =>
          if s.acc.prose == "" {
            FinishOverNothing(s, id);
          } else {
            FinishOverProse(s, id);
          }
      }
    case FinalSql(sql) =>
    case QueryResult(parsed) =>
      if parsed.Some? {
        ResultTakesBlockFromProse(s.acc);
      }
    case FenceToggle =>
    case Chunk(text) =>
  }

  // ---------------------------------------------------------------------------
  // What the composition does

  /**
   * Of the frames that trim to `DONE`, the page finishes the answer for all
   * but the exact text "DONE", which the hook keeps to itself: the answer is
   * then left as it is, still processing on the page.
   */
  lemma StreamEndThroughHook(s: Session, m: string, parse: Parser)
    requires s.acc.Bound() && Trim(m) == DoneToken
    ensures var r := Receive(s, m, parse);
            var f := FinishAnswer(s, s.acc.activeId.value);
            && (m == DoneToken ==> r == Trace(s, []))
            && (m != DoneToken ==> f.sent.Some? && r == Trace(f.next, [f.sent.value]))
  {
    if m != DoneToken {
      NoNoticesAround(m, DoneToken);
      assert |Route(m)| == 1;
      DoneFrameClassified(m, parse);
      DoneCompletes(s, m, parse);
      assert Step(s, m, parse) == FinishAnswer(s, s.acc.activeId.value);
    }
  }

  /** "DONE" followed by a line break does reach the page and finishes the answer. */
  lemma PaddedDoneFinishes(s: Session, parse: Parser)
    requires s.acc.Bound()
    ensures Receive(s, "DONE\n", parse).next == FinishAnswer(s, s.acc.activeId.value).next
  {
    assert "DONE\n" == [] + DoneToken + "\n";
    TrimPadded([], DoneToken, "\n");
    StreamEndThroughHook(s, "DONE\n", parse);
  }

  /**
   * A failure report ends the turn whatever else the frame is: the error
   * request goes out first, the bound message ends failed with the fixed
   * failure text and the report as its error, every other message is left
   * alone, and the page is unbound.
   */
  lemma FailureReportEndsTurn(s: Session, m: string, parse: Parser)
    requires s.acc.Bound() && |Route(m)| == 2
    ensures var r := Receive(s, m, parse);
            && r.next.acc == Idle
            && |r.sent| >= 1 && r.sent[0] == PatchRequest(s.acc.activeId.value, FailureFields(m))
            && (forall i :: 0 <= i < |s.messages| ==> r.next.messages[i].id == s.messages[i].id)
            && (forall i :: IsActive(s, i) ==>
                  && r.next.messages[i].status == Some(Error)
                  && r.next.messages[i].content == FailureContent
                  && r.next.messages[i].errorMessage == Some(m))
            && (forall i :: 0 <= i < |s.messages| && !IsActive(s, i) ==> r.next.messages[i] == s.messages[i])
  {
    var id := s.acc.activeId.value;
    FailureIsNotSessionEnd(m, parse);
    StepKeepsBinding(s, m, parse);
    var o := Step(s, m, parse);
    assert Receive(s, m, parse) == Trace(ErrorSettle(o.next, m), [ErrorRequest(s, m).value] + Requests(o.sent));
    SettleAfterBranch(s, id, o, m);
  }

  /**
   * Settling the error callback after a branch confined to the bound message
   * fails exactly the messages with that id and leaves the others as they
   * were before the branch.
   */
  lemma SettleAfterBranch(s: Session, id: string, o: Outcome, error: string)
    requires Confined(s, id, o) && o.next.acc.activeId == Some(id)
    ensures var r := ErrorSettle(o.next, error);
            && r.acc == Idle
            && (forall i :: 0 <= i < |s.messages| ==> r.messages[i].id == s.messages[i].id)
            && (forall i :: 0 <= i < |s.messages| && s.messages[i].id == id ==>
                  && r.messages[i].status == Some(Error)
                  && r.messages[i].content == FailureContent
                  && r.messages[i].errorMessage == Some(error))
            && (forall i :: 0 <= i < |s.messages| && s.messages[i].id != id ==> r.messages[i] == s.messages[i])
  {
    var settled := UpdateWhere(o.next.messages, id, ReportedFailure(error));
    assert ErrorSettle(o.next, error).messages == settled;
    forall i | 0 <= i < |s.messages|
      ensures settled[i].id == s.messages[i].id
      ensures s.messages[i].id == id ==> settled[i] == Apply(o.next.messages[i], ReportedFailure(error))
      ensures s.messages[i].id != id ==> settled[i] == s.messages[i]
    {
    }
  }

  /**
   * A failure report outside a fence that the page takes as a chunk leaves
   * exactly what `FailReported` leaves: the text appended to the answer is
   * overwritten by the failure text.
   */
  lemma FailureChunkIsReportedFailure(s: Session, m: string, parse: Parser)
    requires s.acc.Bound() && |Route(m)| == 2
    requires Classify(m, parse) == Chunk(m) && !s.acc.inFence
    ensures var f := FailReported(s, m);
            Receive(s, m, parse) == Trace(f.next, [f.sent.value])
  {
    var id := s.acc.activeId.value;
    var shown := Trim(s.acc.prose + m);
    var o := Step(s, m, parse);
    assert o == Edited(s, id, s.acc.(prose := s.acc.prose + m), ShowContent(shown), None) by {
      assert o == AppendChunk(s, id, m);
    }
    assert FailReported(s, m) == Edited(s, id, Idle, ReportedFailure(m), Some(FailureFields(m)));
    FailureOverwritesContent(s.messages, id, shown, m);
  }

  /** Failing a message after showing new content leaves what failing it alone leaves. */
  lemma FailureOverwritesContent(msgs: seq<Message>, id: string, content: string, error: string)
    ensures UpdateWhere(UpdateWhere(msgs, id, ShowContent(content)), id, ReportedFailure(error))
            == UpdateWhere(msgs, id, ReportedFailure(error))
  {
    var shown := UpdateWhere(msgs, id, ShowContent(content));
    forall i | 0 <= i < |msgs|
      ensures UpdateWhere(shown, id, ReportedFailure(error))[i] == UpdateWhere(msgs, id, ReportedFailure(error))[i]
    {
      if msgs[i].id == id {
        assert shown[i] == msgs[i].(content := content);
      }
    }
  }
}
