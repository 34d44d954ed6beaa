/** What a handler sends back: a status code with a JSON body, or, for a
    handler wrapped in catchAsync, the error it forwards to `next`. */
module Http {
  import opened Js

  datatype Body =
    | ErrorBody(error: string)                              // { error }
    | ErrorDetailsBody(error: string, details: string)      // { error, details }
    | RecordBody(record: Fields)                            // a record
    | ListBody(records: seq<Fields>)                        // [record, ...]
    | DataBody(data: seq<Fields>)                           // { data: [...] }
    | MessageBody(message: string)                          // { message }
    | MessageRecordBody(message: string, key: string, record: Fields)  // { message, [key]: record }
    | SessionBody(userId: Option<Value>, email: Option<Value>, token: string)  // { userId, email, token }
    | StatusBody(status: string, message: string)           // { status, message }
    | DebugBody(status: string, err: Error, message: string)  // { status, error, message, stack }

  datatype Reply =
    | Reply(code: int, body: Body)
    | Next(err: Error)

  /** `res.status(code).json({ error: message })` */
  function Fail(code: int, message: string): (r: Reply)
    ensures r.Reply? && r.code == code && r.body == ErrorBody(message)
  {
    Reply(code, ErrorBody(message))
  }

  /** The message of the running server's last error handler. */
  const SERVER_ERROR := "Something went wrong!"

  /** What the running server sends for a handler's reply. The
      error-classifying middleware of errorHandler.js is not installed, so
      a forwarded error reaches server.js's own last handler, which answers
      500 `{ error: "Something went wrong!" }` whatever the error. */
  function Delivered(reply: Reply): (r: Reply)
    ensures r.Reply?
    ensures reply.Reply? ==> r == reply
    ensures reply.Next? ==> r.code == 500 && r.body == ErrorBody(SERVER_ERROR)
  {
    if reply.Next? then Fail(500, SERVER_ERROR) else reply
  }
}
