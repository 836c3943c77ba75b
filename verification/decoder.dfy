/**
 * The decoder as the chat page runs it: the four refs (app/page.tsx:37-40)
 * and the `messages` list are fields updated in place, one frame at a time.
 * Each method is proved to do exactly what `DecoderSpec` says, so every
 * property proved there holds of the running decoder.
 */
module Decoder {
  import opened Wrappers
  import opened Text
  import opened Fence
  import opened Messages
  import opened Protocol
  import opened DecoderSpec

  class AnswerDecoder {
    var activeId: Option<string>   // currentMessageIdRef
    var prose: string              // aiAnswerRef
    var sql: string                // sqlCodeBlockRef
    var inFence: bool              // inSqlCodeBlock
    var messages: seq<Message>

    function State(): Session
      reads this
    {
      Session(Accumulator(activeId, prose, sql, inFence), messages)
    }

    /** The page before any conversation is loaded: no message bound, empty buffers, no messages. */
    constructor ()
      ensures State() == Session(Idle, [])
    {
      activeId := None;
      prose := "";
      sql := "";
      inFence := false;
      messages := [];
    }

    /** `handleWebSocketMessage` (app/page.tsx:42-325): the first branch whose test the frame passes handles it. */
    method HandleMessage(message: string, parse: Parser) returns (sent: Option<PatchRequest>)
      modifies this
      ensures State() == Step(old(State()), message, parse).next
      ensures sent == Step(old(State()), message, parse).sent
    {
      if activeId.None? || activeId.value == "" {
        return None;
      }
      var id := activeId.value;
      ghost var s0 := State();
      var trimmed := Trim(message);
      if Contains(message, QueryNotice) || Contains(message, ModelNotice) {
        assert Step(s0, message, parse) == Edited(s0, id, s0.acc, MarkProcessing, None);
        MarkThinking(id);
        return None;
      }
      if Contains(message, ExecutingNotice) {
        return None;
      }
      if trimmed == DoneToken {
        assert Step(s0, message, parse) == FinishAnswer(s0, id);
        sent := CompleteAnswer(id);
        return;
      }
      if Contains(message, FinalSqlMarker) {
        var extracted := Trim(ReplaceFirst(message, FinalSqlMarker, ""));
        assert Step(s0, message, parse) == AnnounceSql(s0, id, extracted);
        sent := TakeFinalSql(id, extracted);
        return;
      }
      sent := HandleRemaining(id, message, parse);
    }

    /**
     * The second half of the chain (app/page.tsx:185-324): a bound message and
     * a frame that none of the thinking, executing, stream-end or final-SQL
     * tests caught; a query result is handled here, anything else further on.
     */
    method HandleRemaining(id: string, message: string, parse: Parser) returns (sent: Option<PatchRequest>)
      requires activeId == Some(id) && id != ""
      requires !IsThinking(message) && !Contains(message, ExecutingNotice)
      requires Trim(message) != DoneToken && !Contains(message, FinalSqlMarker)
      modifies this
      ensures State() == Step(old(State()), message, parse).next
      ensures sent == Step(old(State()), message, parse).sent
    {
      ghost var s0 := State();
      var trimmed := Trim(message);
      if StartsWith(trimmed, "{") && Contains(message, ResultMarker) {
        var parsed := parse(message);
        if parsed.None? {
          return None;
        }
        assert Step(s0, message, parse) == ApplyResult(s0, id, parsed.value);
        sent := TakeResult(id, parsed.value);
        return;
      }
      sent := HandleControl(id, message, parse);
    }

    /**
     * The last tests of the chain (app/page.tsx:256-324): a bound message and a
     * frame that is not a query result either.
     */
    method HandleControl(id: string, message: string, parse: Parser) returns (sent: Option<PatchRequest>)
      requires activeId == Some(id) && id != ""
      requires !IsThinking(message) && !Contains(message, ExecutingNotice)
      requires Trim(message) != DoneToken && !Contains(message, FinalSqlMarker)
      requires !(StartsWith(Trim(message), "{") && Contains(message, ResultMarker))
      modifies this
      ensures State() == Step(old(State()), message, parse).next
      ensures sent == Step(old(State()), message, parse).sent
    {
      ghost var s0 := State();
      var trimmed := Trim(message);
      if trimmed == FlagDoneToken {
        assert Step(s0, message, parse) == Edited(s0, id, Idle, CloseIfProcessing, None);
        EndSession(id);
        return None;
      }
      if StartsWith(trimmed, Tick) {
        assert Step(s0, message, parse) == Outcome(s0.(acc := ToggleFence(s0.acc)), None);
        FlipFence();
        return None;
      }
      assert Classify(message, parse) == Chunk(message);
      assert Step(s0, message, parse) == AppendChunk(s0, id, message);
      TakeChunk(id, message);
      return None;
    }

    /** The thinking branch (app/page.tsx:49-61): the bound message is shown as processing again. */
    method MarkThinking(id: string)
      modifies this
      ensures State() == Edited(old(State()), id, old(State()).acc, MarkProcessing, None).next
    {
      messages := UpdateWhere(messages, id, MarkProcessing);
    }

    /** The final-SQL branch (app/page.tsx:154-182). */
    method TakeFinalSql(id: string, extracted: string) returns (sent: Option<PatchRequest>)
      modifies this
      ensures State() == AnnounceSql(old(State()), id, extracted).next
      ensures sent == AnnounceSql(old(State()), id, extracted).sent
    {
      sql, messages := extracted, UpdateWhere(messages, id, Announce(extracted));
      sent := Some(PatchRequest(id, map[SqlQueryField := Text(extracted)]));
    }

    /** The `FLAG_DONE` branch (app/page.tsx:257-279): the turn ends and every ref is reset. */
    method EndSession(id: string)
      modifies this
      ensures State() == Edited(old(State()), id, Idle, CloseIfProcessing, None).next
    {
      messages, activeId, prose, sql, inFence := UpdateWhere(messages, id, CloseIfProcessing), None, "", "", false;
    }

    /** The fence branch (app/page.tsx:282-292). */
    method FlipFence()
      modifies this
      ensures State() == old(State()).(acc := ToggleFence(old(State()).acc))
    {
      if !inFence {
        inFence, sql := true, "";
      } else {
        inFence := false;
      }
    }

    /** The stream-end branch (app/page.tsx:71-152). */
    method CompleteAnswer(id: string) returns (sent: Option<PatchRequest>)
      modifies this
      ensures State() == FinishAnswer(old(State()), id).next
      ensures sent == FinishAnswer(old(State()), id).sent
    {
      var finalAnswer := prose;
      var found := FindSqlBlock(finalAnswer);
      if found.Some? {
        var extracted := BlockSql(finalAnswer, found.value);
        finalAnswer := Trim(WithoutBlock(finalAnswer, found.value));
        sql, messages := extracted, UpdateWhere(messages, id, FinishWithBlock(finalAnswer, extracted));
        sent := Some(PatchRequest(id, map[ContentField := Text(finalAnswer), SqlQueryField := Text(extracted),
                                          StatusField := Text(StatusName(Completed))]));
      } else if finalAnswer != "" {
        messages := UpdateWhere(messages, id, FinishWithProse(finalAnswer));
        sent := Some(PatchRequest(id, map[ContentField := Text(finalAnswer), StatusField := Text(StatusName(Completed))]));
      } else {
        messages := UpdateWhere(messages, id, FinishBare(sql));
        sent := Some(PatchRequest(id, map[StatusField := Text(StatusName(Completed)),
                                          SqlQueryField := if sql != "" then Text(sql) else Null]));
      }
    }

    /** Takes a fenced block still left in the answer text out of it (app/page.tsx:189-199). */
    method ExtractPendingBlock()
      modifies this
      ensures State() == old(State()).(acc := ExtractBeforeResult(old(State()).acc))
    {
      var answer, code := prose, sql;
      if answer != "" {
        var found := FindSqlBlock(answer);
        if found.Some? {
          code := BlockSql(answer, found.value);
          answer := Trim(WithoutBlock(answer, found.value));
        }
      }
      prose, sql := answer, code;
    }

    /** The query-result branch once the frame parsed (app/page.tsx:189-254). */
    method TakeResult(id: string, rec: ResultRecord) returns (sent: Option<PatchRequest>)
      modifies this
      ensures State() == ApplyResult(old(State()), id, rec).next
      ensures sent == ApplyResult(old(State()), id, rec).sent
    {
      ExtractPendingBlock();
      if rec.status == Some("success") {
        if rec.sql.Some? && rec.sql.value != "" {
          sql := rec.sql.value;
        }
        messages := UpdateWhere(messages, id, Succeed(prose, rec.result, rec.sql, sql));
        var stored := match Or(rec.sql, Or(Some(sql), None))
                      case Some(q) => Text(q)
                      case None => Null;
        sent := Some(PatchRequest(id, map[StatusField := Text(StatusName(Completed)), ContentField := Text(prose),
                                          SqlQueryField := stored]
                                      + OptionalEntry(QueryResultField,
                                                      if rec.result.Some? then Some(Payload(rec.result.value)) else None)));
      } else if rec.status == Some("error") {
        sent := Some(PatchRequest(id, map[StatusField := Text(StatusName(Error)), ContentField := Text(prose)]
                                      + OptionalEntry(ErrorMessageField,
                                                      if rec.error.Some? then Some(Text(rec.error.value)) else None)));
        messages := UpdateWhere(messages, id, Fail(prose, rec.error));
      } else {
        sent := None;
      }
    }

    /** The streamed-chunk branch (app/page.tsx:295-324). */
    method TakeChunk(id: string, text: string)
      modifies this
      ensures State() == AppendChunk(old(State()), id, text).next
    {
      if inFence {
        if sql == "" && LowerIsSql(Trim(text)) {
          return;
        }
        sql := sql + text;
        messages := UpdateWhere(messages, id, ShowSql(Trim(sql)));
      } else {
        prose := prose + text;
        messages := UpdateWhere(messages, id, ShowContent(Trim(prose)));
      }
    }

    /** `handleWebSocketError` (app/page.tsx:327-357), called by the hook for a failure report. */
    method HandleError(error: string) returns (sent: Option<PatchRequest>)
      modifies this
      ensures State() == FailReported(old(State()), error).next
      ensures sent == FailReported(old(State()), error).sent
    {
      if activeId.None? || activeId.value == "" {
        return None;
      }
      var id := activeId.value;
      sent := Some(PatchRequest(id, map[StatusField := Text(StatusName(Error)), ErrorMessageField := Text(error),
                                        ContentField := Text(FailureContent)]));
      messages := UpdateWhere(messages, id, ReportedFailure(error));
      activeId := None;
      prose := "";
      sql := "";
      inFence := false;
    }

    /**
     * The start of a turn once the server created both messages
     * (app/page.tsx:482-508); returns the new conversation title, if any.
     */
    method StartTurn(content: string, user: Message, assistant: Message) returns (title: Option<string>)
      modifies this
      ensures (State(), title) == BeginTurn(old(State()), content, user, assistant)
    {
      var first := |messages| == 0;
      ghost var before := messages;
      messages := messages + [user];
      messages := messages + [assistant];
      assert messages == before + [user, assistant];
      activeId := Some(assistant.id);
      prose := "";
      sql := "";
      inFence := false;
      if first {
        title := Some(Title(content));
      } else {
        title := None;
      }
    }
  }
}
