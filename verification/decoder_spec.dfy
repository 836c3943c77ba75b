/**
 * The streaming answer decoder of the chat page, as pure functions over an
 * explicit session: `handleWebSocketMessage` (app/page.tsx:42-325), the
 * error callback `handleWebSocketError` (327-357), which the socket hook calls
 * only for a frame reporting a failure, and the start of a
 * turn (470-508). Each frame is classified by an ordered, first-match-wins
 * chain and then updates the accumulator (the four refs at 37-40), only
 * messages whose id is the active one, and at most one PATCH request.
 */
module DecoderSpec {
  import opened Wrappers
  import opened Text
  import opened Fence
  import opened Messages
  import opened Protocol

  /**
   * The fields of a parsed `query_result` frame the page reads. A field is
   * `None` when it is missing (`undefined`).
   */
  datatype ResultRecord = ResultRecord(
    status: Option<string>, sql: Option<string>, result: Option<Json>, error: Option<string>)

  /** `JSON.parse`, as an oracle: `None` where it would throw. */
  type Parser = string -> Option<ResultRecord>

  /** The branch of the handler a frame takes. */
  datatype Frame =
    | Thinking
    | Executing
    | StreamEnd
    | FinalSql(sql: string)
    | QueryResult(parsed: Option<ResultRecord>)
    | SessionEnd
    | FenceToggle
    | Chunk(text: string)

  predicate IsThinking(message: string) {
    Contains(message, QueryNotice) || Contains(message, ModelNotice)
  }

  /** The ordered, first-match-wins chain of app/page.tsx:49-292; a frame no test catches is a chunk. */
  function Classify(message: string, parse: Parser): Frame {
    var trimmed := Trim(message);
    if IsThinking(message) then Thinking
    else if Contains(message, ExecutingNotice) then Executing
    else if trimmed == DoneToken then StreamEnd
    else if Contains(message, FinalSqlMarker) then FinalSql(Trim(ReplaceFirst(message, FinalSqlMarker, "")))
    else if StartsWith(trimmed, "{") && Contains(message, ResultMarker) then QueryResult(parse(message))
    else if trimmed == FlagDoneToken then SessionEnd
    else if StartsWith(trimmed, Tick) then FenceToggle
    else Chunk(message)
  }

  /** The four refs of app/page.tsx:37-40. */
  datatype Accumulator = Accumulator(activeId: Option<string>, prose: string, sql: string, inFence: bool) {
    /** A message is bound: the id is present and, read as a JavaScript truth value, not empty. */
    predicate Bound() {
      activeId.Some? && activeId.value != ""
    }
  }

  /** The accumulator with no message bound and empty buffers. */
  const Idle := Accumulator(None, "", "", false)

  /** The decoder's whole state: its accumulator and the page's `messages` list. */
  datatype Session = Session(acc: Accumulator, messages: seq<Message>)

  /** What one frame does: the next session and the PATCH request it sends, if any. */
  datatype Outcome = Outcome(next: Session, sent: Option<PatchRequest>)

  /** The in-memory update each branch applies to the active message. */
  datatype Edit =
    | MarkProcessing                                           // 54-60
    | FinishWithBlock(content: string, sql: string)            // 89-100
    | FinishWithProse(content: string)                         // 112-118
    | FinishBare(sql: string)                                  // 130-140
    | Announce(sql: string)                                    // 160-170
    | Succeed(content: string, result: Option<Json>, reported: Option<string>, buffered: string)  // 207-219
    | Fail(content: string, error: Option<string>)             // 242-253
    | CloseIfProcessing                                        // 266-272
    | ShowSql(sql: string)                                     // 306-312
    | ShowContent(content: string)                             // 317-323
    | ReportedFailure(reason: string)                          // 340-351

  /** An edit never changes which message it is applied to, nor its role. */
  function Apply(m: Message, e: Edit): (r: Message)
    ensures r.id == m.id && r.role == m.role
  {
    match e
    case MarkProcessing => m.(status := Some(Processing))
    case FinishWithBlock(content, sql) => m.(content := content, sqlQuery := Some(sql), status := Some(Completed))
    case FinishWithProse(content) => m.(content := content, status := Some(Completed))
    case FinishBare(sql) => m.(status := Some(Completed), sqlQuery := Or(Some(sql), m.sqlQuery))
    case Announce(sql) => m.(sqlQuery := Some(sql), status := Some(Completed))
    case Succeed(content, result, reported, buffered) =>
      m.(status := Some(Completed), content := content, queryResult := result,
         sqlQuery := Or(reported, Or(Some(buffered), m.sqlQuery)))
    case Fail(content, error) => m.(status := Some(Error), content := content, errorMessage := error)
    case CloseIfProcessing => m.(status := if m.status == Some(Processing) then Some(Completed) else m.status)
    case ShowSql(sql) => m.(sqlQuery := Some(sql))
    case ShowContent(content) => m.(content := content)
    case ReportedFailure(reason) => m.(status := Some(Error), errorMessage := Some(reason), content := FailureContent)
  }

  /** `prev.map(msg => msg.id === id ? edit(msg) : msg)`: every message with that id is edited, no other. */
  function UpdateWhere(msgs: seq<Message>, id: string, e: Edit): (r: seq<Message>)
    ensures |r| == |msgs|
    ensures forall i :: 0 <= i < |msgs| ==> r[i] == if msgs[i].id == id then Apply(msgs[i], e) else msgs[i]
  {
    if msgs == [] then []
    else [if msgs[0].id == id then Apply(msgs[0], e) else msgs[0]] + UpdateWhere(msgs[1..], id, e)
  }

  /**
   * What a branch may do to the page: only messages with id `id` change, none
   * is added, removed or renamed, and a request, if one is sent, is for `id`.
   */
  predicate Confined(s: Session, id: string, r: Outcome) {
    && |r.next.messages| == |s.messages|
    && (forall i :: 0 <= i < |s.messages| ==> r.next.messages[i].id == s.messages[i].id)
    && (forall i :: 0 <= i < |s.messages| && s.messages[i].id != id ==> r.next.messages[i] == s.messages[i])
    && (r.sent.Some? ==> r.sent.value.id == id)
  }

  /** A branch's outcome: the new accumulator, `edit` applied to the active message, and what is sent. */
  function Edited(s: Session, id: string, acc: Accumulator, edit: Edit, fields: Option<map<Field, Value>>): (r: Outcome)
    ensures Confined(s, id, r)
  {
    Outcome(Session(acc, UpdateWhere(s.messages, id, edit)),
            if fields.Some? then Some(PatchRequest(id, fields.value)) else None)
  }

  /** The stream-end branch (app/page.tsx:71-152). */
  function FinishAnswer(s: Session, id: string): (r: Outcome)
    ensures Confined(s, id, r)
  {
    var prose := s.acc.prose;
    match FindSqlBlock(prose)
    case Some(b) =>
      var sql := BlockSql(prose, b);
      var answer := Trim(WithoutBlock(prose, b));
      Edited(s, id, s.acc.(sql := sql), FinishWithBlock(answer, sql),
             Some(map[ContentField := Text(answer), SqlQueryField := Text(sql),
                      StatusField := Text(StatusName(Completed))]))
    case None =>
      if prose != "" then
        Edited(s, id, s.acc, FinishWithProse(prose),
               Some(map[ContentField := Text(prose), StatusField := Text(StatusName(Completed))]))
      else
        Edited(s, id, s.acc, FinishBare(s.acc.sql),
               Some(map[StatusField := Text(StatusName(Completed)),
                        SqlQueryField := if s.acc.sql != "" then Text(s.acc.sql) else Null]))
  }

  /** The final-SQL branch (app/page.tsx:155-179). */
  function AnnounceSql(s: Session, id: string, sql: string): (r: Outcome)
    ensures Confined(s, id, r)
  {
    Edited(s, id, s.acc.(sql := sql), Announce(sql), Some(map[SqlQueryField := Text(sql)]))
  }

  /** A fenced block still in the prose is moved out before a result is applied (app/page.tsx:190-200). */
  function ExtractBeforeResult(acc: Accumulator): Accumulator {
    if acc.prose != "" then
      match FindSqlBlock(acc.prose)
      case Some(b) => acc.(sql := BlockSql(acc.prose, b), prose := Trim(WithoutBlock(acc.prose, b)))
      case None => acc
    else acc
  }

  /** The `query_result` branch once `JSON.parse` succeeded (app/page.tsx:189-254). */
  function ApplyResult(s: Session, id: string, rec: ResultRecord): (r: Outcome)
    ensures Confined(s, id, r)
  {
    ApplyResultTo(s, id, ExtractBeforeResult(s.acc), rec)
  }

  /** The same branch once a block has been moved out of the prose, leaving the accumulator `acc`. */
  function ApplyResultTo(s: Session, id: string, acc: Accumulator, rec: ResultRecord): (r: Outcome)
    ensures Confined(s, id, r)
  {
    if rec.status == Some("success") then
      var acc' := if rec.sql.Some? && rec.sql.value != "" then acc.(sql := rec.sql.value) else acc;
      var sqlValue := match Or(rec.sql, Or(Some(acc'.sql), None))
                      case Some(q) => Text(q)
                      case None => Null;
      Edited(s, id, acc', Succeed(acc'.prose, rec.result, rec.sql, acc'.sql),
             Some(map[StatusField := Text(StatusName(Completed)), ContentField := Text(acc'.prose),
                      SqlQueryField := sqlValue]
                  + OptionalEntry(QueryResultField, if rec.result.Some? then Some(Payload(rec.result.value)) else None)))
    else if rec.status == Some("error") then
      Edited(s, id, acc, Fail(acc.prose, rec.error),
             Some(map[StatusField := Text(StatusName(Error)), ContentField := Text(acc.prose)]
                  + OptionalEntry(ErrorMessageField, if rec.error.Some? then Some(Text(rec.error.value)) else None)))
    else
      Outcome(Session(acc, s.messages), None)
  }

  /** The fence-toggle branch (app/page.tsx:282-292). */
  function ToggleFence(acc: Accumulator): Accumulator {
    if !acc.inFence then acc.(inFence := true, sql := "") else acc.(inFence := false)
  }

  /** The streamed-chunk branch (app/page.tsx:295-324). */
  function AppendChunk(s: Session, id: string, text: string): (r: Outcome)
    ensures Confined(s, id, r)
  {
    if s.acc.inFence then
      if s.acc.sql == "" && LowerIsSql(Trim(text)) then Outcome(s, None)
      else
        var sql := s.acc.sql + text;
        Edited(s, id, s.acc.(sql := sql), ShowSql(Trim(sql)), None)
    else
      var prose := s.acc.prose + text;
      Edited(s, id, s.acc.(prose := prose), ShowContent(Trim(prose)), None)
  }

  /**
   * `handleWebSocketMessage` on one frame. A frame that arrives with no
   * message bound is ignored; otherwise only messages with the active id
   * change, and a request, if one is sent, is for that id.
   */
  function Step(s: Session, message: string, parse: Parser): (r: Outcome)
    ensures !s.acc.Bound() ==> r == Outcome(s, None)
    ensures s.acc.Bound() ==> Confined(s, s.acc.activeId.value, r)
  {
    if !s.acc.Bound() then Outcome(s, None)
    else Dispatch(s, s.acc.activeId.value, Classify(message, parse))
  }

  /** The branch a classified frame takes, on the message with id `id`. */
  function Dispatch(s: Session, id: string, frame: Frame): (r: Outcome)
    ensures Confined(s, id, r)
  {
    match frame
    case Thinking => Edited(s, id, s.acc, MarkProcessing, None)
    case Executing => Outcome(s, None)
    case StreamEnd => FinishAnswer(s, id)
    case FinalSql(sql) => AnnounceSql(s, id, sql)
    case QueryResult(parsed) =>
      if parsed.None? then Outcome(s, None) else ApplyResult(s, id, parsed.value)
    case SessionEnd => Edited(s, id, Idle, CloseIfProcessing, None)
    case FenceToggle => Outcome(s.(acc := ToggleFence(s.acc)), None)
    case Chunk(text) => AppendChunk(s, id, text)
  }

  /**
   * `handleWebSocketError`: with a message bound, it is marked failed with the
   * fixed failure text, the request says the same, and the accumulator is
   * reset and unbound; with none bound, nothing happens. The socket hook
   * calls it only for a frame that reports a failure
   * (hooks/use-websocket.ts:64-66), never when the connection fails or
   * closes.
   */
  function FailReported(s: Session, error: string): (r: Outcome)
    ensures !s.acc.Bound() ==> r == Outcome(s, None)
    ensures s.acc.Bound() ==> r.next.acc == Idle
    ensures s.acc.Bound() ==>
              r.sent == Some(PatchRequest(s.acc.activeId.value,
                              map[StatusField := Text("error"), ErrorMessageField := Text(error),
                                  ContentField := Text(FailureContent)]))
    ensures |r.next.messages| == |s.messages|
    ensures forall i :: 0 <= i < |s.messages| ==>
              r.next.messages[i] == if s.acc.Bound() && Some(s.messages[i].id) == s.acc.activeId
                                    then s.messages[i].(status := Some(Error), errorMessage := Some(error),
                                                        content := FailureContent)
                                    else s.messages[i]
  {
    if !s.acc.Bound() then Outcome(s, None)
    else
      var id := s.acc.activeId.value;
      Edited(s, id, Idle, ReportedFailure(error),
             Some(map[StatusField := Text(StatusName(Error)), ErrorMessageField := Text(error),
                      ContentField := Text(FailureContent)]))
  }

  /** The conversation title made from the first question (app/page.tsx:508): at most 30 characters, then "...". */
  function Title(content: string): (t: string)
    ensures |content| <= 30 ==> t == content
    ensures |content| > 30 ==> |t| == 33 && t[..30] == content[..30] && t[30..] == "..."
  {
    content[..if |content| < 30 then |content| else 30] + (if |content| > 30 then "..." else "")
  }

  /**
   * The start of a turn (app/page.tsx:482-508): the user message and the
   * assistant placeholder the server created are appended, the placeholder is
   * bound and the buffers are emptied; a title is produced only for the first
   * question of a conversation.
   */
  function BeginTurn(s: Session, content: string, user: Message, assistant: Message): (r: (Session, Option<string>))
    ensures r.0.acc == Accumulator(Some(assistant.id), "", "", false)
    ensures r.0.messages == s.messages + [user, assistant]
    ensures r.1.Some? <==> s.messages == []
    ensures r.1.Some? ==> r.1.value == Title(content)
  {
    (Session(Accumulator(Some(assistant.id), "", "", false), s.messages + [user, assistant]),
     if |s.messages| == 0 then Some(Title(content)) else None)
  }

  /** The frames of a turn fed to the handler one at a time, in order, with the requests they send. */
  datatype Trace = Trace(next: Session, sent: seq<PatchRequest>)

  function Run(s: Session, frames: seq<string>, parse: Parser): Trace
    decreases |frames|
  {
    if frames == [] then Trace(s, [])
    else
      var o := Step(s, frames[0], parse);
      var t := Run(o.next, frames[1..], parse);
      Trace(t.next, (if o.sent.Some? then [o.sent.value] else []) + t.sent)
  }
}
