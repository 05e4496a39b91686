/** What every controller handler produces: the reply, the one audit record
    it hands to `logRequest`, the console levels it writes after it, and the
    argument it passed to its service, if it called one. */
module Http {
  import opened Js
  import opened Logging

  /** An awaited service call either returns a value or throws an Error
      carrying a message. */
  datatype Outcome<T> = Returned(value: T) | Threw(message: string)

  /** A JSON response body: the service's result, or `{ error: ... }`. */
  datatype Body<T> = Json(value: T) | ErrorJson(error: string)

  datatype Reply<T> = Reply(status: nat, body: Body<T>)

  /** The arguments of one `logRequest` call, apart from the duration. */
  datatype AuditCall = AuditCall(route: string, httpMethod: string, statusCode: nat,
                                 errorMessage: Option<string>)

  datatype Handled<A, T> = Handled(serviceCall: Option<A>, reply: Reply<T>,
                                   audit: AuditCall, levels: seq<Level>)

  /** The body a client sees on every 500 reply. */
  const InternalError := "Internal server error"

  predicate IsSuccess(status: nat)
  {
    200 <= status < 300
  }

  /** The invariant every handler path keeps: the audit status is the
      reply's status; the audit carries an error message exactly on non-2xx
      replies, and the reply body is an error exactly then; a 4xx reply shows
      the client the audited message, a 500 reply the generic text; success
      is reported at info level, a 4xx at warn, and a 500 by two error lines
      (`logger.error` and `console.error`). */
  predicate Consistent<A, T>(h: Handled<A, T>)
  {
    && h.audit.statusCode == h.reply.status
    && (h.audit.errorMessage.Some? <==> !IsSuccess(h.reply.status))
    && (h.reply.body.ErrorJson? <==> !IsSuccess(h.reply.status))
    && (400 <= h.reply.status < 500 ==> h.audit.errorMessage == Some(h.reply.body.error))
    && (h.reply.status == 500 ==> h.reply.body == ErrorJson(InternalError))
    && (IsSuccess(h.reply.status) || 400 <= h.reply.status < 500 || h.reply.status == 500)
    && h.levels == (if IsSuccess(h.reply.status) then [Level.Info]
                    else if h.reply.status == 500 then [Level.Error, Level.Error]
                    else [Level.Warn])
  }

  /** A 2xx path: `logRequest` without a message, then `logger.info`. */
  function Succeeded<A, T>(call: Option<A>, route: string, httpMethod: string,
                           status: nat, value: T): (h: Handled<A, T>)
    requires IsSuccess(status)
    ensures Consistent(h) && h.serviceCall == call
    ensures h.reply == Reply(status, Json(value))
    ensures h.audit == AuditCall(route, httpMethod, status, None)
  {
    Handled(call, Reply(status, Json(value)), AuditCall(route, httpMethod, status, None), [Level.Info])
  }

  /** A 4xx path: `logRequest` with the message, `logger.warn`, and the
      message as the error body. */
  function Rejected<A, T>(call: Option<A>, route: string, httpMethod: string,
                          status: nat, message: string): (h: Handled<A, T>)
    requires 400 <= status < 500
    ensures Consistent(h) && h.serviceCall == call
    ensures h.reply == Reply(status, ErrorJson(message))
    ensures h.audit == AuditCall(route, httpMethod, status, Some(message))
  {
    Handled(call, Reply(status, ErrorJson(message)),
            AuditCall(route, httpMethod, status, Some(message)), [Level.Warn])
  }

  /** The catch-all path: `logRequest` with the exception's message,
      `logger.error`, `console.error`, and the generic 500 body. */
  function Failed<A, T>(call: Option<A>, route: string, httpMethod: string,
                        message: string): (h: Handled<A, T>)
    ensures Consistent(h) && h.serviceCall == call
    ensures h.reply == Reply(500, ErrorJson(InternalError))
    ensures h.audit == AuditCall(route, httpMethod, 500, Some(message))
  {
    Handled(call, Reply(500, ErrorJson(InternalError)),
            AuditCall(route, httpMethod, 500, Some(message)), [Level.Error, Level.Error])
  }

  /** The rows `logRequest` adds for this audit call. */
  function Audited(a: AuditCall, durationMs: nat, sinkAccepts: bool): seq<RequestLog>
  {
    if sinkAccepts then [Row(a.route, a.httpMethod, a.statusCode, durationMs, a.errorMessage)] else []
  }

  /** The console levels `logRequest` writes. */
  function SinkLevels(sinkAccepts: bool): seq<Level>
  {
    if sinkAccepts then [] else [Level.Error]
  }

  /** The stored row of a consistent path reports the reply's status, stores
      a message only for a non-2xx reply, and stores one on every non-2xx
      reply whose audit message is non-empty. */
  lemma StoredRowMatchesReply<A, T>(h: Handled<A, T>, durationMs: nat)
    requires Consistent(h)
    ensures Audited(h.audit, durationMs, true)[0].statusCode == h.reply.status
    ensures Audited(h.audit, durationMs, true)[0].errorMessage.Some? ==> !IsSuccess(h.reply.status)
    ensures !IsSuccess(h.reply.status) && h.audit.errorMessage != Some("")
            ==> Audited(h.audit, durationMs, true)[0].errorMessage == h.audit.errorMessage
  {
  }

  /** The state change of one handler invocation: the counter went up by one
      at entry, the entry line was written at info level, then the path's
      audit call reached `logRequest` and the path's console lines followed. */
  twostate predicate Served<A, T>(logger: Logger, h: Handled<A, T>, durationMs: nat, sinkAccepts: bool)
    reads logger
  {
    && logger.requestCount == old(logger.requestCount) + 1
    && logger.requestLogs == old(logger.requestLogs) + Audited(h.audit, durationMs, sinkAccepts)
    && logger.console == old(logger.console) + [Level.Info] + SinkLevels(sinkAccepts) + h.levels
  }

  /** What every handler does once its path is decided: one `logRequest`,
      then the path's console lines, then the reply is sent. */
  method Complete<A, T>(logger: Logger, h: Handled<A, T>, durationMs: nat, sinkAccepts: bool)
    returns (reply: Reply<T>)
    requires Consistent(h)
    modifies logger`requestLogs, logger`console
    ensures reply == h.reply
    ensures logger.requestLogs == old(logger.requestLogs) + Audited(h.audit, durationMs, sinkAccepts)
    ensures logger.console == old(logger.console) + SinkLevels(sinkAccepts) + h.levels
  {
    logger.LogRequest(h.audit.route, h.audit.httpMethod, h.audit.statusCode, durationMs,
                      h.audit.errorMessage, sinkAccepts);
    if IsSuccess(h.reply.status) {
      logger.Info();
    } else if h.reply.status == 500 {
      logger.Error();
      logger.ConsoleError();
    } else {
      logger.Warn();
    }
    reply := h.reply;
  }
}
