/**
 * The chat page's message record, the JSON payloads it carries, and the
 * partial update (patch) it sends to `/api/messages/<id>` (app/page.tsx:18-29).
 */
module Messages {
  import opened Wrappers

  /** The `status` strings the page writes: "processing", "completed", "error". */
  datatype Status = Processing | Completed | Error

  function StatusName(st: Status): string {
    match st
    case Processing => "processing"
    case Completed => "completed"
    case Error => "error"
  }

  /** A JSON value, as `JSON.parse` produces it. */
  datatype Json =
    | JNull
    | JBool(b: bool)
    | JNumber(n: real)
    | JString(text: string)
    | JArray(items: seq<Json>)
    | JObject(members: map<string, Json>)

  /**
   * A chat message as the page holds it in memory. Optional fields are `None`
   * when the value is `null` or `undefined`.
   */
  datatype Message = Message(
    id: string,
    role: string,
    content: string,
    sqlQuery: Option<string>,
    queryResult: Option<Json>,
    status: Option<Status>,
    errorMessage: Option<string>)

  /** The keys of the JSON body of a PATCH request on one message. */
  datatype Field = ContentField | SqlQueryField | QueryResultField | StatusField | ErrorMessageField

  /** A value in that body: a string, `null`, or a JSON payload. */
  datatype Value = Text(text: string) | Null | Payload(json: Json)

  /**
   * One PATCH request the page would send: the message id and the keys of its
   * body. A key whose value is `undefined` is left out, as `JSON.stringify` does.
   */
  datatype PatchRequest = PatchRequest(id: string, fields: map<Field, Value>)

  /** A present optional value as a body entry; an absent one contributes no key. */
  function OptionalEntry(f: Field, v: Option<Value>): map<Field, Value> {
    if v.Some? then map[f := v.value] else map[]
  }

  /** JavaScript's `a || b` on two possibly-missing strings: the empty string is falsy. */
  function Or(a: Option<string>, b: Option<string>): Option<string> {
    if a.Some? && a.value != "" then a else b
  }
}
