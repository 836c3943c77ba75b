/**
 * The fixed texts of the frame protocol between the text-to-SQL service and
 * the chat page: the markers the page and its socket hook look for, and the
 * content the page writes when a turn fails.
 */
module Protocol {
  /** Status notices that only mark the answer as being worked on (app/page.tsx:50-51). */
  const QueryNotice := "正在处理查询请求"
  const ModelNotice := "正在调用text2sql模型"
  /** The notice that SQL is being executed (app/page.tsx:65). */
  const ExecutingNotice := "正在执行SQL查询"
  /** The end of the streamed answer (app/page.tsx:71, hooks/use-websocket.ts:53). */
  const DoneToken := "DONE"
  /** The prefix of the frame that carries the final SQL (app/page.tsx:155, hooks/use-websocket.ts:59). */
  const FinalSqlMarker := "最终SQL语句:"
  /** The key that marks a JSON frame as a query result (app/page.tsx:183). */
  const ResultMarker := "query_result"
  /** The end of the whole turn (app/page.tsx:262). */
  const FlagDoneToken := "FLAG_DONE"
  /** The notices of a successful and of a failed query (hooks/use-websocket.ts:62, 64). */
  const SuccessNotice := "SQL查询成功"
  const FailedNotice := "查询失败"
  const ExceptionNotice := "异常"
  /** The content an answer is given when the turn fails (app/page.tsx:336). */
  const FailureContent := "连接或处理过程中发生错误。"
}
