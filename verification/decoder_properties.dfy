/**
 * What the streaming answer decoder promises, frame kind by frame kind
 * (app/page.tsx:42-357), stated about `DecoderSpec.Step` and proved from it.
 */
module DecoderProperties {
  import opened Wrappers
  import opened Text
  import opened Fence
  import opened Messages
  import opened Protocol
  import opened DecoderSpec

  /** Index `i` holds a message with the bound id. */
  predicate IsActive(s: Session, i: int) {
    0 <= i < |s.messages| && s.acc.Bound() && s.messages[i].id == s.acc.activeId.value
  }

  // ---------------------------------------------------------------------------
  // Which branch a frame takes

  /** A text whose first character does not occur in `m` does not occur in `m`. */
  lemma HeadAbsent(m: string, pat: string)
    requires pat != [] && pat[0] !in m
    ensures !Contains(m, pat)
  {
    forall i: nat | i + |pat| <= |m| ensures !OccursAt(m, pat, i) {
      assert m[i..i + |pat|][0] == m[i];
    }
    ContainsSpec(m, pat);
  }

  /** Every character of a text is white space or a character of its trimmed form. */
  lemma PaddingChars(m: string)
    ensures forall k :: 0 <= k < |m| ==> IsSpace(m[k]) || m[k] in Trim(m)
  {
    TrimIsSlice(m);
    var lo := |m| - |TrimStart(m)|;
    var r := Trim(m);
    var head := m[..lo];
    var tail := m[lo + |r|..];
    forall k | 0 <= k < |m| ensures IsSpace(m[k]) || m[k] in r {
      if k < lo {
        assert head[k] == m[k] && IsSpace(head[k]);
      } else if k < lo + |r| {
        assert r[k - lo] == m[k];
      } else {
        assert tail[k - lo - |r|] == m[k] && IsSpace(tail[k - lo - |r|]);
      }
    }
  }

  /** The notices and the final-SQL marker cannot hide in a frame that trims to a short token. */
  lemma NoMarkersAround(m: string, token: string)
    requires Trim(m) == token && '正' !in token && '最' !in token
    ensures !IsThinking(m) && !Contains(m, ExecutingNotice) && !Contains(m, FinalSqlMarker)
  {
    PaddingChars(m);
    assert '正' !in m;
    assert '最' !in m;
    HeadAbsent(m, QueryNotice);
    HeadAbsent(m, ModelNotice);
    HeadAbsent(m, ExecutingNotice);
    HeadAbsent(m, FinalSqlMarker);
  }

  /** A frame whose trimmed form is `DONE` always takes the stream-end branch (app/page.tsx:71). */
  lemma DoneFrameClassified(m: string, parse: Parser)
    requires Trim(m) == DoneToken
    ensures Classify(m, parse) == StreamEnd
  {
    NoMarkersAround(m, DoneToken);
  }

  /** A frame whose trimmed form is `FLAG_DONE` always takes the session-end branch (app/page.tsx:262). */
  lemma FlagDoneFrameClassified(m: string, parse: Parser)
    requires Trim(m) == FlagDoneToken
    ensures Classify(m, parse) == SessionEnd
  {
    NoMarkersAround(m, FlagDoneToken);
  }

  /**
   * A frame whose trimmed form opens with three backticks is a fence toggle
   * unless it carries a notice or the final-SQL marker, which come first
   * (app/page.tsx:282).
   */
  lemma FenceFrameClassified(m: string, parse: Parser)
    requires StartsWith(Trim(m), Tick)
    requires !IsThinking(m) && !Contains(m, ExecutingNotice) && !Contains(m, FinalSqlMarker)
    ensures Classify(m, parse) == FenceToggle
  {
    var t := Trim(m);
    assert t[0] == '`';
  }

  /** The frames that reach the final-SQL test and match it. */
  predicate IsFinalSqlFrame(m: string) {
    !IsThinking(m) && !Contains(m, ExecutingNotice) && Trim(m) != DoneToken && Contains(m, FinalSqlMarker)
  }

  lemma FinalSqlFrameClassified(m: string, parse: Parser)
    requires IsFinalSqlFrame(m)
    ensures Classify(m, parse) == FinalSql(Trim(ReplaceFirst(m, FinalSqlMarker, "")))
  {
  }

  /** The frames that reach the query-result test and match it. */
  predicate IsResultFrame(m: string) {
    && !IsThinking(m) && !Contains(m, ExecutingNotice) && Trim(m) != DoneToken
    && !Contains(m, FinalSqlMarker) && StartsWith(Trim(m), "{") && Contains(m, ResultMarker)
  }

  lemma ResultFrameClassified(m: string, parse: Parser)
    requires IsResultFrame(m)
    ensures Classify(m, parse) == QueryResult(parse(m))
  {
  }

  // ---------------------------------------------------------------------------
  // The branches, on the message with id `id`

  /** The stream-end branch over prose holding a fenced block. */
  lemma FinishOverBlock(s: Session, id: string, b: Block)
    requires FindSqlBlock(s.acc.prose) == Some(b)
    ensures var r := FinishAnswer(s, id);
            var sql := BlockSql(s.acc.prose, b);
            var answer := Trim(WithoutBlock(s.acc.prose, b));
            && r.next.acc == s.acc.(sql := sql)
            && r.sent == Some(PatchRequest(id, map[ContentField := Text(answer), SqlQueryField := Text(sql),
                                                  StatusField := Text("completed")]))
            && forall i :: 0 <= i < |s.messages| && s.messages[i].id == id ==>
                 r.next.messages[i] == s.messages[i].(content := answer, sqlQuery := Some(sql),
                                                      status := Some(Completed))
  {
    var sql := BlockSql(s.acc.prose, b);
    var answer := Trim(WithoutBlock(s.acc.prose, b));
    var fields := map[ContentField := Text(answer), SqlQueryField := Text(sql),
                      StatusField := Text(StatusName(Completed))];
    var r := Edited(s, id, s.acc.(sql := sql), FinishWithBlock(answer, sql), Some(fields));
    assert FinishAnswer(s, id) == r;
    forall i | 0 <= i < |s.messages| && s.messages[i].id == id
      ensures r.next.messages[i] == s.messages[i].(content := answer, sqlQuery := Some(sql),
                                                   status := Some(Completed))
    {
      assert r.next.messages[i] == Apply(s.messages[i], FinishWithBlock(answer, sql));
    }
  }

  /** The stream-end branch over non-empty prose without a fenced block. */
  lemma FinishOverProse(s: Session, id: string)
    requires s.acc.prose != "" && FindSqlBlock(s.acc.prose).None?
    ensures var r := FinishAnswer(s, id);
            && r.next.acc == s.acc
            && r.sent == Some(PatchRequest(id, map[ContentField := Text(s.acc.prose),
                                                  StatusField := Text("completed")]))
            && forall i :: 0 <= i < |s.messages| && s.messages[i].id == id ==>
                 r.next.messages[i] == s.messages[i].(content := s.acc.prose, status := Some(Completed))
  {
  }

  /** The stream-end branch with no prose. */
  lemma FinishOverNothing(s: Session, id: string)
    requires s.acc.prose == ""
    ensures var r := FinishAnswer(s, id);
            && r.next.acc == s.acc
            && r.sent == Some(PatchRequest(id, map[StatusField := Text("completed"),
                                                  SqlQueryField := if s.acc.sql != "" then Text(s.acc.sql) else Null]))
            && forall i :: 0 <= i < |s.messages| && s.messages[i].id == id ==>
                 r.next.messages[i] == s.messages[i].(status := Some(Completed),
                                                      sqlQuery := if s.acc.sql != "" then Some(s.acc.sql)
                                                                  else s.messages[i].sqlQuery)
  {
    assert FindSqlBlock(s.acc.prose).None?;
  }

  /** The result branch on a successful result. */
  lemma ApplySuccess(s: Session, id: string, rec: ResultRecord)
    requires rec.status == Some("success")
    ensures var r := ApplyResult(s, id, rec);
            var acc := ExtractBeforeResult(s.acc);
            var buffered := if rec.sql.Some? && rec.sql.value != "" then rec.sql.value else acc.sql;
            && r.next.acc == acc.(sql := buffered)
            && r.sent.Some? && r.sent.value.id == id
            && r.sent.value.fields == map[StatusField := Text("completed"), ContentField := Text(acc.prose),
                                          SqlQueryField := if buffered != "" then Text(buffered) else Null]
                                      + (if rec.result.Some? then map[QueryResultField := Payload(rec.result.value)]
                                         else map[])
            && forall i :: 0 <= i < |s.messages| && s.messages[i].id == id ==>
                 r.next.messages[i] == s.messages[i].(
                   status := Some(Completed), content := acc.prose, queryResult := rec.result,
                   sqlQuery := if buffered != "" then Some(buffered) else s.messages[i].sqlQuery)
  {
    var acc := ExtractBeforeResult(s.acc);
    assert ApplyResult(s, id, rec) == ApplyResultTo(s, id, acc, rec);
    SuccessAccumulator(s, id, acc, rec);
    SuccessRequest(s, id, acc, rec);
    SuccessMessages(s, id, acc, rec);
  }

  lemma SuccessAccumulator(s: Session, id: string, acc: Accumulator, rec: ResultRecord)
    requires rec.status == Some("success")
    ensures var buffered := if rec.sql.Some? && rec.sql.value != "" then rec.sql.value else acc.sql;
            ApplyResultTo(s, id, acc, rec).next.acc == acc.(sql := buffered)
  {
  }

  lemma SuccessRequest(s: Session, id: string, acc: Accumulator, rec: ResultRecord)
    requires rec.status == Some("success")
    ensures var buffered := if rec.sql.Some? && rec.sql.value != "" then rec.sql.value else acc.sql;
            var r := ApplyResultTo(s, id, acc, rec);
            && r.sent.Some? && r.sent.value.id == id
            && r.sent.value.fields == map[StatusField := Text("completed"), ContentField := Text(acc.prose),
                                          SqlQueryField := if buffered != "" then Text(buffered) else Null]
                                      + (if rec.result.Some? then map[QueryResultField := Payload(rec.result.value)]
                                         else map[])
  {
  }

  lemma SuccessMessages(s: Session, id: string, acc: Accumulator, rec: ResultRecord)
    requires rec.status == Some("success")
    ensures var buffered := if rec.sql.Some? && rec.sql.value != "" then rec.sql.value else acc.sql;
            var r := ApplyResultTo(s, id, acc, rec);
            forall i :: 0 <= i < |s.messages| && s.messages[i].id == id ==>
              r.next.messages[i] == s.messages[i].(
                status := Some(Completed), content := acc.prose, queryResult := rec.result,
                sqlQuery := if buffered != "" then Some(buffered) else s.messages[i].sqlQuery)
  {
  }

  /** The result branch on a failed result. */
  lemma ApplyFailure(s: Session, id: string, rec: ResultRecord)
    requires rec.status == Some("error")
    ensures var r := ApplyResult(s, id, rec);
            var acc := ExtractBeforeResult(s.acc);
            && r.next.acc == acc
            && r.sent.Some? && r.sent.value.id == id
            && r.sent.value.fields == map[StatusField := Text("error"), ContentField := Text(acc.prose)]
                                      + (if rec.error.Some? then map[ErrorMessageField := Text(rec.error.value)]
                                         else map[])
            && forall i :: 0 <= i < |s.messages| && s.messages[i].id == id ==>
                 r.next.messages[i] == s.messages[i].(status := Some(Error), content := acc.prose,
                                                      errorMessage := rec.error)
  {
    var acc := ExtractBeforeResult(s.acc);
    assert ApplyResult(s, id, rec) == ApplyResultTo(s, id, acc, rec);
    FailureRequest(s, id, acc, rec);
    FailureMessages(s, id, acc, rec);
  }

  lemma FailureRequest(s: Session, id: string, acc: Accumulator, rec: ResultRecord)
    requires rec.status == Some("error")
    ensures var r := ApplyResultTo(s, id, acc, rec);
            && r.next.acc == acc
            && r.sent.Some? && r.sent.value.id == id
            && r.sent.value.fields == map[StatusField := Text("error"), ContentField := Text(acc.prose)]
                                      + (if rec.error.Some? then map[ErrorMessageField := Text(rec.error.value)]
                                         else map[])
  {
  }

  lemma FailureMessages(s: Session, id: string, acc: Accumulator, rec: ResultRecord)
    requires rec.status == Some("error")
    ensures var r := ApplyResultTo(s, id, acc, rec);
            forall i :: 0 <= i < |s.messages| && s.messages[i].id == id ==>
              r.next.messages[i] == s.messages[i].(status := Some(Error), content := acc.prose,
                                                   errorMessage := rec.error)
  {
  }

  // ---------------------------------------------------------------------------
  // Frames that only touch status, or nothing

  /**
   * A thinking notice sets the active message to processing, whatever its
   * status was, even completed or error; no buffer, flag or other field
   * changes and nothing is sent (app/page.tsx:49-61).
   */
  lemma ThinkingFrame(s: Session, m: string, parse: Parser)
    requires s.acc.Bound() && IsThinking(m)
    ensures var r := Step(s, m, parse);
            && r.next.acc == s.acc && r.sent.None?
            && forall i :: IsActive(s, i) ==> r.next.messages[i] == s.messages[i].(status := Some(Processing))
  {
    assert Classify(m, parse) == Thinking;
  }

  /** An "executing" notice changes nothing at all (app/page.tsx:64-67). */
  lemma ExecutingFrame(s: Session, m: string, parse: Parser)
    requires !IsThinking(m) && Contains(m, ExecutingNotice)
    ensures Step(s, m, parse) == Outcome(s, None)
  {
    assert Classify(m, parse) == Executing;
  }

  // ---------------------------------------------------------------------------
  // The end of the streamed answer

  /**
   * `DONE` over prose holding a fenced block: the SQL is the block's trimmed
   * inner text, kept in the SQL buffer too, and the content is the prose with
   * that first block cut out, trimmed (app/page.tsx:71-110).
   */
  lemma DoneWithBlock(s: Session, m: string, parse: Parser, b: Block)
    requires s.acc.Bound() && Trim(m) == DoneToken && FindSqlBlock(s.acc.prose) == Some(b)
    ensures var r := Step(s, m, parse);
            var sql := BlockSql(s.acc.prose, b);
            var answer := Trim(WithoutBlock(s.acc.prose, b));
            && r.next.acc == s.acc.(sql := sql)
            && r.sent == Some(PatchRequest(s.acc.activeId.value,
                                map[ContentField := Text(answer), SqlQueryField := Text(sql),
                                    StatusField := Text("completed")]))
            && forall i :: IsActive(s, i) ==>
                 r.next.messages[i] == s.messages[i].(content := answer, sqlQuery := Some(sql),
                                                      status := Some(Completed))
  {
    DoneFrameClassified(m, parse);
    assert Step(s, m, parse) == FinishAnswer(s, s.acc.activeId.value);
    FinishOverBlock(s, s.acc.activeId.value, b);
  }

  /**
   * `DONE` over prose laid out as text, a fence, an optional `sql` tag, a
   * padded body, a fence and more text: the message's SQL is exactly that
   * body and its content the two texts joined and trimmed.
   */
  lemma DoneOnLaidOutAnswer(s: Session, m: string, parse: Parser, before: string, tag: string,
                            w1: string, body: string, w2: string, after: string)
    requires s.acc.Bound() && Trim(m) == DoneToken
    requires s.acc.prose == Laid(before, tag, w1, body, w2, after)
    requires '`' !in before && '`' !in body
    requires tag == [] || LowerIsSql(tag)
    requires AllSpace(w1) && AllSpace(w2) && IsTrimmed(body)
    requires tag == [] ==> !SqlTagAt(w1 + (body + (w2 + (Tick + after))), 0)
    ensures var r := Step(s, m, parse);
            && r.next.acc.sql == body
            && forall i :: IsActive(s, i) ==>
                 r.next.messages[i].sqlQuery == Some(body) && r.next.messages[i].content == Trim(before + after)
  {
    BlockRoundTrip(before, tag, w1, body, w2, after);
    DoneWithBlock(s, m, parse, FindSqlBlock(s.acc.prose).value);
  }

  /**
   * `DONE` over non-empty prose with no fenced block: the prose, untrimmed,
   * becomes the content and the SQL is left as it was, in memory and in the
   * request (app/page.tsx:111-127).
   */
  lemma DoneWithProse(s: Session, m: string, parse: Parser)
    requires s.acc.Bound() && Trim(m) == DoneToken
    requires s.acc.prose != "" && FindSqlBlock(s.acc.prose).None?
    ensures var r := Step(s, m, parse);
            && r.next.acc == s.acc
            && r.sent == Some(PatchRequest(s.acc.activeId.value,
                                map[ContentField := Text(s.acc.prose), StatusField := Text("completed")]))
            && forall i :: IsActive(s, i) ==>
                 r.next.messages[i] == s.messages[i].(content := s.acc.prose, status := Some(Completed))
  {
    DoneFrameClassified(m, parse);
    assert Step(s, m, parse) == FinishAnswer(s, s.acc.activeId.value);
    FinishOverProse(s, s.acc.activeId.value);
  }

  /**
   * `DONE` with no prose: the SQL buffer, when not empty, becomes the
   * message's SQL, otherwise the message keeps its own; the request carries
   * the buffer or `null` (app/page.tsx:128-150).
   */
  lemma DoneWithoutProse(s: Session, m: string, parse: Parser)
    requires s.acc.Bound() && Trim(m) == DoneToken && s.acc.prose == ""
    ensures var r := Step(s, m, parse);
            && r.next.acc == s.acc
            && r.sent == Some(PatchRequest(s.acc.activeId.value,
                                map[StatusField := Text("completed"),
                                    SqlQueryField := if s.acc.sql != "" then Text(s.acc.sql) else Null]))
            && forall i :: IsActive(s, i) ==>
                 r.next.messages[i] == s.messages[i].(status := Some(Completed),
                                                      sqlQuery := if s.acc.sql != "" then Some(s.acc.sql)
                                                                  else s.messages[i].sqlQuery)
  {
    DoneFrameClassified(m, parse);
    assert Step(s, m, parse) == FinishAnswer(s, s.acc.activeId.value);
    FinishOverNothing(s, s.acc.activeId.value);
  }

  /** Whatever the buffers hold, `DONE` completes the active message and the request says so. */
  lemma DoneCompletes(s: Session, m: string, parse: Parser)
    requires s.acc.Bound() && Trim(m) == DoneToken
    ensures var r := Step(s, m, parse);
            && r.sent.Some? && r.sent.value.fields[StatusField] == Text("completed")
            && r.next.acc.activeId == s.acc.activeId && r.next.acc.prose == s.acc.prose
            && r.next.acc.inFence == s.acc.inFence
            && forall i :: IsActive(s, i) ==> r.next.messages[i].status == Some(Completed)
  {
    match FindSqlBlock(s.acc.prose)
    case Some(b) => DoneWithBlock(s, m, parse, b);
    case None =>
      if s.acc.prose == "" {
        DoneWithoutProse(s, m, parse);
      } else {
        DoneWithProse(s, m, parse);
      }
  }

  /**
   * With no prose and an empty SQL buffer, a message that already shows SQL
   * keeps it on the page while the request stores `null` in its place.
   */
  lemma DoneWithoutProseDropsStoredSql(s: Session, m: string, parse: Parser, i: int)
    requires s.acc.Bound() && Trim(m) == DoneToken && s.acc.prose == "" && s.acc.sql == ""
    requires IsActive(s, i) && s.messages[i].sqlQuery.Some?
    ensures var r := Step(s, m, parse);
            && r.next.messages[i].sqlQuery == s.messages[i].sqlQuery
            && r.sent.Some? && r.sent.value.fields[SqlQueryField] == Null
  {
    DoneWithoutProse(s, m, parse);
  }

  // ---------------------------------------------------------------------------
  // The final-SQL line

  /**
   * A final-SQL line: the SQL is the frame with the marker removed, trimmed;
   * it goes into the buffer and the message, the message is marked completed
   * in memory, and the request carries the SQL alone (app/page.tsx:155-179).
   */
  lemma FinalSqlFrame(s: Session, m: string, parse: Parser)
    requires s.acc.Bound() && IsFinalSqlFrame(m)
    ensures var r := Step(s, m, parse);
            var sql := Trim(ReplaceFirst(m, FinalSqlMarker, ""));
            && r.next.acc == s.acc.(sql := sql)
            && r.sent == Some(PatchRequest(s.acc.activeId.value, map[SqlQueryField := Text(sql)]))
            && forall i :: IsActive(s, i) ==>
                 r.next.messages[i] == s.messages[i].(sqlQuery := Some(sql), status := Some(Completed))
  {
    var id := s.acc.activeId.value;
    var sql := Trim(ReplaceFirst(m, FinalSqlMarker, ""));
    FinalSqlFrameClassified(m, parse);
    assert Step(s, m, parse) == AnnounceSql(s, id, sql);
    AnnounceEffect(s, id, sql);
  }

  /** The final-SQL branch on the message with id `id`. */
  lemma AnnounceEffect(s: Session, id: string, sql: string)
    ensures var r := AnnounceSql(s, id, sql);
            && r.next.acc == s.acc.(sql := sql)
            && r.sent == Some(PatchRequest(id, map[SqlQueryField := Text(sql)]))
            && forall i :: 0 <= i < |s.messages| && s.messages[i].id == id ==>
                 r.next.messages[i] == s.messages[i].(sqlQuery := Some(sql), status := Some(Completed))
  {
    var r := AnnounceSql(s, id, sql);
    forall i | 0 <= i < |s.messages| && s.messages[i].id == id
      ensures r.next.messages[i] == s.messages[i].(sqlQuery := Some(sql), status := Some(Completed))
    {
      assert r.next.messages[i] == Apply(s.messages[i], Announce(sql));
    }
  }

  /** The SQL a final-SQL line carries is the text around the marker, joined and trimmed. */
  lemma FinalSqlExtraction(before: string, after: string)
    requires FinalSqlMarker[0] !in before
    ensures Trim(ReplaceFirst(before + FinalSqlMarker + after, FinalSqlMarker, "")) == Trim(before + after)
  {
    var m := before + FinalSqlMarker + after;
    var k := |before|;
    MarkerFirstAt(before, after);
    assert m[..k] == before;
    assert m[k + |FinalSqlMarker|..] == after;
    assert ReplaceFirst(m, FinalSqlMarker, "") == before + "" + after == before + after;
  }

  /** The marker's first occurrence in a line is right after a prefix that cannot hold it. */
  lemma MarkerFirstAt(before: string, after: string)
    requires FinalSqlMarker[0] !in before
    ensures IndexOf(before + FinalSqlMarker + after, FinalSqlMarker, 0) == Some(|before|)
  {
    var m := before + FinalSqlMarker + after;
    var k := |before|;
    assert OccursAt(m, FinalSqlMarker, k) by {
      assert m[k..k + |FinalSqlMarker|] == FinalSqlMarker;
    }
    forall j: nat | j < k ensures !OccursAt(m, FinalSqlMarker, j) {
      assert m[j] == before[j];
      if j + |FinalSqlMarker| <= |m| {
        assert m[j..j + |FinalSqlMarker|][0] == m[j];
      }
    }
    IndexOfSpec(m, FinalSqlMarker, 0);
  }

  // ---------------------------------------------------------------------------
  // The query-result frame

  /** A result frame `JSON.parse` rejects changes nothing and sends nothing (app/page.tsx:256-258). */
  lemma ResultUnparsable(s: Session, m: string, parse: Parser)
    requires IsResultFrame(m) && parse(m).None?
    ensures Step(s, m, parse) == Outcome(s, None)
  {
    ResultFrameClassified(m, parse);
  }

  /**
   * Before a result is applied, a fenced block still in non-empty prose is
   * moved out: its trimmed inner text becomes the SQL buffer and the prose
   * loses the block and is trimmed; prose without a block is kept
   * (app/page.tsx:190-200).
   */
  lemma ResultTakesBlockFromProse(acc: Accumulator)
    ensures var e := ExtractBeforeResult(acc);
            && e.activeId == acc.activeId && e.inFence == acc.inFence
            && (FindSqlBlock(acc.prose).None? ==> e == acc)
            && (FindSqlBlock(acc.prose).Some? ==>
                  var b := FindSqlBlock(acc.prose).value;
                  e.sql == BlockSql(acc.prose, b) && e.prose == Trim(WithoutBlock(acc.prose, b)))
  {
    if FindSqlBlock(acc.prose).Some? {
      assert acc.prose != "";
    }
  }

  /**
   * A successful result completes the active message with the result
   * payload, the (extracted) prose as content and, as SQL, the result's own
   * SQL, else the SQL buffer, else what the message had; the request stores
   * `null` instead of the last, and has a `queryResult` key only when the
   * result carries one (app/page.tsx:202-230).
   */
  lemma ResultSuccess(s: Session, m: string, parse: Parser, rec: ResultRecord)
    requires s.acc.Bound() && IsResultFrame(m) && parse(m) == Some(rec) && rec.status == Some("success")
    ensures var r := Step(s, m, parse);
            var acc := ExtractBeforeResult(s.acc);
            var buffered := if rec.sql.Some? && rec.sql.value != "" then rec.sql.value else acc.sql;
            && r.next.acc == acc.(sql := buffered)
            && r.sent.Some? && r.sent.value.id == s.acc.activeId.value
            && r.sent.value.fields == map[StatusField := Text("completed"), ContentField := Text(acc.prose),
                                          SqlQueryField := if buffered != "" then Text(buffered) else Null]
                                      + (if rec.result.Some? then map[QueryResultField := Payload(rec.result.value)]
                                         else map[])
            && forall i :: IsActive(s, i) ==>
                 r.next.messages[i] == s.messages[i].(
                   status := Some(Completed), content := acc.prose, queryResult := rec.result,
                   sqlQuery := if buffered != "" then Some(buffered) else s.messages[i].sqlQuery)
  {
    var id := s.acc.activeId.value;
    ResultFrameClassified(m, parse);
    var r := ApplyResult(s, id, rec);
    assert Step(s, m, parse) == r;
    ApplySuccess(s, id, rec);
  }

  /**
   * A failed result marks the active message as an error with the result's
   * error text and the (extracted) prose as content; the request says the
   * same (app/page.tsx:231-253).
   */
  lemma ResultError(s: Session, m: string, parse: Parser, rec: ResultRecord)
    requires s.acc.Bound() && IsResultFrame(m) && parse(m) == Some(rec) && rec.status == Some("error")
    ensures var r := Step(s, m, parse);
            var acc := ExtractBeforeResult(s.acc);
            && r.next.acc == acc
            && r.sent.Some? && r.sent.value.id == s.acc.activeId.value
            && r.sent.value.fields == map[StatusField := Text("error"), ContentField := Text(acc.prose)]
                                      + (if rec.error.Some? then map[ErrorMessageField := Text(rec.error.value)]
                                         else map[])
            && forall i :: IsActive(s, i) ==>
                 r.next.messages[i] == s.messages[i].(status := Some(Error), content := acc.prose,
                                                      errorMessage := rec.error)
  {
    var id := s.acc.activeId.value;
    ResultFrameClassified(m, parse);
    var r := ApplyResult(s, id, rec);
    assert Step(s, m, parse) == r;
    ApplyFailure(s, id, rec);
  }

  /** A result with any other status only moves a block out of the prose (app/page.tsx:189-200). */
  lemma ResultOtherStatus(s: Session, m: string, parse: Parser, rec: ResultRecord)
    requires s.acc.Bound() && IsResultFrame(m) && parse(m) == Some(rec)
    requires rec.status != Some("success") && rec.status != Some("error")
    ensures var r := Step(s, m, parse);
            && r.next == Session(ExtractBeforeResult(s.acc), s.messages) && r.sent.None?
            && r.next.acc.activeId == s.acc.activeId && r.next.acc.inFence == s.acc.inFence
  {
    ResultFrameClassified(m, parse);
    assert Step(s, m, parse) == ApplyResult(s, s.acc.activeId.value, rec);
    ResultTakesBlockFromProse(s.acc);
  }

  /**
   * A successful result applied twice is applied once, as long as the prose
   * it leaves holds no second fenced block.
   */
  lemma ResultSuccessIdempotent(s: Session, m: string, parse: Parser, rec: ResultRecord)
    requires s.acc.Bound() && IsResultFrame(m) && parse(m) == Some(rec) && rec.status == Some("success")
    requires FindSqlBlock(Step(s, m, parse).next.acc.prose).None?
    ensures var r1 := Step(s, m, parse);
            var r2 := Step(r1.next, m, parse);
            r2.next == r1.next && r2.sent == r1.sent
  {
    var id := s.acc.activeId.value;
    ResultFrameClassified(m, parse);
    var r1 := ApplyResult(s, id, rec);
    assert Step(s, m, parse) == r1;
    ApplySuccess(s, id, rec);
    ResultTakesBlockFromProse(s.acc);
    assert r1.next.acc.activeId == s.acc.activeId;
    var r2 := ApplyResult(r1.next, id, rec);
    assert Step(r1.next, m, parse) == r2;
    ApplySuccess(r1.next, id, rec);
    ResultTakesBlockFromProse(r1.next.acc);
    assert r2.next.acc == r1.next.acc;
    forall i | 0 <= i < |s.messages| ensures r2.next.messages[i] == r1.next.messages[i] {
    }
  }

  // ---------------------------------------------------------------------------
  // The end of the session

  /**
   * `FLAG_DONE` turns a processing message into a completed one and leaves any
   * other status alone, sends nothing, and resets the accumulator to empty
   * with no message bound (app/page.tsx:262-278).
   */
  lemma FlagDoneFrame(s: Session, m: string, parse: Parser)
    requires s.acc.Bound() && Trim(m) == FlagDoneToken
    ensures var r := Step(s, m, parse);
            && r.next.acc == Accumulator(None, "", "", false) && r.sent.None?
            && forall i :: IsActive(s, i) ==>
                 r.next.messages[i] == s.messages[i].(status := if s.messages[i].status == Some(Processing)
                                                                then Some(Completed)
                                                                else s.messages[i].status)
  {
    FlagDoneFrameClassified(m, parse);
    assert Step(s, m, parse) == Edited(s, s.acc.activeId.value, Idle, CloseIfProcessing, None);
  }

  /** With no message bound, a whole run of frames changes nothing and sends nothing. */
  lemma {:induction false} IgnoredWhileUnbound(s: Session, frames: seq<string>, parse: Parser)
    requires !s.acc.Bound()
    ensures Run(s, frames, parse) == Trace(s, [])
    decreases |frames|
  {
    if frames != [] {
      IgnoredWhileUnbound(s, frames[1..], parse);
    }
  }

  /** After `FLAG_DONE`, every frame is ignored until the next turn binds a message. */
  lemma NothingAfterSessionEnd(s: Session, m: string, parse: Parser, frames: seq<string>)
    requires s.acc.Bound() && Trim(m) == FlagDoneToken
    ensures var r := Step(s, m, parse);
            Run(r.next, frames, parse) == Trace(r.next, [])
  {
    FlagDoneFrame(s, m, parse);
    IgnoredWhileUnbound(Step(s, m, parse).next, frames, parse);
  }

  /** After the error callback has handled a failure report, every frame is ignored until the next turn binds a message. */
  lemma NothingAfterFailureReport(s: Session, error: string, parse: Parser, frames: seq<string>)
    ensures var r := FailReported(s, error);
            Run(r.next, frames, parse) == Trace(r.next, [])
  {
    IgnoredWhileUnbound(FailReported(s, error).next, frames, parse);
  }

  // ---------------------------------------------------------------------------
  // Fences and chunks

  /**
   * A fence frame flips the inside-fence flag: opening empties the SQL
   * buffer, closing keeps it; prose, id and messages are untouched and nothing
   * is sent (app/page.tsx:282-292).
   */
  lemma FenceFrame(s: Session, m: string, parse: Parser)
    requires s.acc.Bound() && StartsWith(Trim(m), Tick)
    requires !IsThinking(m) && !Contains(m, ExecutingNotice) && !Contains(m, FinalSqlMarker)
    ensures var r := Step(s, m, parse);
            && r.sent.None? && r.next.messages == s.messages
            && r.next.acc.inFence == !s.acc.inFence
            && r.next.acc.activeId == s.acc.activeId && r.next.acc.prose == s.acc.prose
            && r.next.acc.sql == (if s.acc.inFence then s.acc.sql else "")
  {
    FenceFrameClassified(m, parse);
  }

  /** Inside a fence, a bare `sql` tag (any case, any padding) arriving while the SQL buffer is empty is skipped. */
  lemma ChunkSkipsTag(s: Session, m: string, parse: Parser)
    requires s.acc.Bound() && Classify(m, parse) == Chunk(m)
    requires s.acc.inFence && s.acc.sql == "" && LowerIsSql(Trim(m))
    ensures Step(s, m, parse) == Outcome(s, None)
  {
    assert Step(s, m, parse) == AppendChunk(s, s.acc.activeId.value, m);
  }

  /**
   * Any other chunk inside a fence is appended to the SQL buffer, which the
   * message shows trimmed; nothing is sent (app/page.tsx:295-312).
   */
  lemma ChunkInsideFence(s: Session, m: string, parse: Parser)
    requires s.acc.Bound() && Classify(m, parse) == Chunk(m)
    requires s.acc.inFence && !(s.acc.sql == "" && LowerIsSql(Trim(m)))
    ensures var r := Step(s, m, parse);
            && r.sent.None? && r.next.acc == s.acc.(sql := s.acc.sql + m)
            && forall i :: IsActive(s, i) ==>
                 r.next.messages[i] == s.messages[i].(sqlQuery := Some(Trim(s.acc.sql + m)))
  {
    assert Step(s, m, parse) == AppendChunk(s, s.acc.activeId.value, m);
  }

  /**
   * A chunk outside a fence is appended to the prose, which the message shows
   * trimmed as its content; nothing is sent (app/page.tsx:313-324).
   */
  lemma ChunkOutsideFence(s: Session, m: string, parse: Parser)
    requires s.acc.Bound() && Classify(m, parse) == Chunk(m) && !s.acc.inFence
    ensures var r := Step(s, m, parse);
            && r.sent.None? && r.next.acc == s.acc.(prose := s.acc.prose + m)
            && forall i :: IsActive(s, i) ==>
                 r.next.messages[i] == s.messages[i].(content := Trim(s.acc.prose + m))
  {
    assert Step(s, m, parse) == AppendChunk(s, s.acc.activeId.value, m);
  }

  /** A frame of three backticks alone is a fence toggle (app/page.tsx:282). */
  lemma TickFrameClassified(parse: Parser)
    ensures Classify(Tick, parse) == FenceToggle
  {
    TrimPadded("", Tick, "");
    assert "" + Tick + "" == Tick;
    NoMarkersAround(Tick, Tick);
    FenceFrameClassified(Tick, parse);
  }

  /** A frame that trims to a bare `sql` tag, in any case, reaches the chunk branch (app/page.tsx:295). */
  lemma SqlTagClassified(m: string, parse: Parser)
    requires LowerIsSql(Trim(m))
    ensures Classify(m, parse) == Chunk(m)
  {
    var t := Trim(m);
    assert '正' !in t && '最' !in t;
    NoMarkersAround(m, t);
    assert t[0] != '{' && t[0] != '`';
  }

  /** A fence frame opens a fence: the SQL buffer is emptied and nothing else changes (app/page.tsx:282-286). */
  lemma OpenFence(s: Session, m: string, parse: Parser)
    requires s.acc.Bound() && !s.acc.inFence && Classify(m, parse) == FenceToggle
    ensures Step(s, m, parse) == Outcome(s.(acc := s.acc.(inFence := true, sql := "")), None)
  {
  }

  /** A fence frame closes an open fence, keeping the SQL buffer (app/page.tsx:287-291). */
  lemma CloseFence(s: Session, m: string, parse: Parser)
    requires s.acc.Bound() && s.acc.inFence && Classify(m, parse) == FenceToggle
    ensures Step(s, m, parse) == Outcome(s.(acc := s.acc.(inFence := false)), None)
  {
  }

  /** The body, arriving in a fence whose buffer is empty, becomes the buffer and the active message's SQL. */
  lemma BodyIntoEmptyFence(s: Session, body: string, parse: Parser)
    requires s.acc.Bound() && s.acc.inFence && s.acc.sql == ""
    requires Classify(body, parse) == Chunk(body) && !LowerIsSql(Trim(body))
    ensures var r := Step(s, body, parse);
            && r.sent.None? && r.next.acc == s.acc.(sql := body)
            && |r.next.messages| == |s.messages|
            && (forall i :: IsActive(s, i) ==> r.next.messages[i] == s.messages[i].(sqlQuery := Some(Trim(body))))
            && (forall i :: 0 <= i < |s.messages| && !IsActive(s, i) ==> r.next.messages[i] == s.messages[i])
  {
    ChunkInsideFence(s, body, parse);
    assert "" + body == body;
  }

  /**
   * A code block streamed frame by frame (an opening fence, a bare `sql`
   * tag, the body, a closing fence; a fence frame is typically three
   * backticks, see `TickFrameClassified`) leaves exactly the body in the SQL
   * buffer, outside the fence, and the active message shows the body
   * trimmed as its SQL; the prose and id are kept and nothing is sent
   * (app/page.tsx:282-312).
   */
  lemma FencedBlockRoundTrip(s: Session, open: string, tag: string, body: string, close: string, parse: Parser)
    requires s.acc.Bound() && !s.acc.inFence
    requires Classify(open, parse) == FenceToggle && Classify(close, parse) == FenceToggle
    requires LowerIsSql(Trim(tag))
    requires Classify(body, parse) == Chunk(body) && !LowerIsSql(Trim(body))
    ensures var t := Run(s, [open, tag, body, close], parse);
            && t.sent == []
            && t.next.acc == s.acc.(sql := body)
            && |t.next.messages| == |s.messages|
            && (forall i :: IsActive(s, i) ==> t.next.messages[i] == s.messages[i].(sqlQuery := Some(Trim(body))))
            && (forall i :: 0 <= i < |s.messages| && !IsActive(s, i) ==> t.next.messages[i] == s.messages[i])
  {
    var s1 := s.(acc := s.acc.(inFence := true, sql := ""));
    OpenFence(s, open, parse);
    SqlTagClassified(tag, parse);
    ChunkSkipsTag(s1, tag, parse);
    BodyIntoEmptyFence(s1, body, parse);
    var s3 := Step(s1, body, parse).next;
    var s4 := s3.(acc := s3.acc.(inFence := false));
    CloseFence(s3, close, parse);
    QuietRun(s, [open, tag, body, close], [s1, s1, s3, s4], parse);
  }

  /** Frames that each send nothing, moving the session through `states`, end the run in the last state. */
  lemma {:induction false} QuietRun(s: Session, frames: seq<string>, states: seq<Session>, parse: Parser)
    requires |frames| == |states| > 0
    requires Step(s, frames[0], parse) == Outcome(states[0], None)
    requires forall k :: 0 < k < |frames| ==> Step(states[k - 1], frames[k], parse) == Outcome(states[k], None)
    ensures Run(s, frames, parse) == Trace(states[|states| - 1], [])
    decreases |frames|
  {
    if |frames| == 1 {
      assert frames[1..] == [];
    } else {
      QuietRun(states[0], frames[1..], states[1..], parse);
    }
  }

  /** The block `SELECT 1`, streamed with its `sql` tag, ends as the SQL shown for the active message. */
  lemma SelectOneRoundTrip(s: Session, parse: Parser)
    requires s.acc.Bound() && !s.acc.inFence
    ensures var t := Run(s, [Tick, "sql", "SELECT 1", Tick], parse);
            && t.next.acc.sql == "SELECT 1"
            && |t.next.messages| == |s.messages|
            && forall i :: IsActive(s, i) ==> t.next.messages[i].sqlQuery == Some("SELECT 1")
  {
    TickFrameClassified(parse);
    SelectOneIsBody(parse);
    SqlTagTrimmed();
    FencedBlockRoundTrip(s, Tick, "sql", "SELECT 1", Tick, parse);
  }

  /** `SELECT 1` is a chunk, is its own trimmed form, and is not a bare `sql` tag. */
  lemma SelectOneIsBody(parse: Parser)
    ensures Classify("SELECT 1", parse) == Chunk("SELECT 1")
    ensures Trim("SELECT 1") == "SELECT 1" && !LowerIsSql(Trim("SELECT 1"))
  {
    var body := "SELECT 1";
    TrimPadded("", body, "");
    assert "" + body + "" == body;
    NoMarkersAround(body, body);
  }

  /** `sql` is its own trimmed form. */
  lemma SqlTagTrimmed()
    ensures LowerIsSql(Trim("sql"))
  {
    TrimPadded("", "sql", "");
    assert "" + "sql" + "" == "sql";
  }
}
