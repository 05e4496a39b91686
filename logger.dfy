/** The process-wide logger: a request counter, the `request_logs` audit
    table it appends to, and the console it writes leveled lines to. */
module Logging {
  import opened Js

  /** The level of a console line; the message, timestamp and serialised
      context of the line are not modelled. */
  datatype Level = Info | Warn | Error

  /** One row of the `request_logs` table. */
  datatype RequestLog = RequestLog(route: string, httpMethod: string, statusCode: nat,
                                   durationMs: nat, errorMessage: Option<string>)

  /** `errorMessage || null`: an absent or empty message is stored as NULL. */
  function NullIfEmpty(message: Option<string>): (r: Option<string>)
    ensures r.Some? <==> message.Some? && message.value != ""
    ensures r.Some? ==> r == message
  {
    if Truthy(message) then message else None
  }

  /** The row `logRequest` inserts for these arguments. */
  function Row(route: string, httpMethod: string, statusCode: nat, durationMs: nat,
               errorMessage: Option<string>): RequestLog
  {
    RequestLog(route, httpMethod, statusCode, durationMs, NullIfEmpty(errorMessage))
  }

  class Logger {
    /** The private `requestCount` field. */
    var requestCount: nat
    /** The rows this logger has inserted into `request_logs`, oldest first;
        rows already in the table when it was created are not modelled. */
    var requestLogs: seq<RequestLog>
    /** The levels of the lines this logger and its handlers have written to
        the console, oldest first. */
    var console: seq<Level>

    constructor ()
      ensures requestCount == 0 && requestLogs == [] && console == []
    {
      requestCount := 0;
      requestLogs := [];
      console := [];
    }

    /** `++this.requestCount`: one more than before, and the new value is returned. */
    method IncrementRequestCount() returns (n: nat)
      modifies this`requestCount
      ensures requestCount == old(requestCount) + 1
      ensures n == requestCount
    {
      requestCount := requestCount + 1;
      n := requestCount;
    }

    method GetRequestCount() returns (n: nat)
      ensures n == requestCount
    {
      n := requestCount;
    }

    /** `info`, `warn` and `error` write one console line and touch nothing else. */
    method Info()
      modifies this`console
      ensures console == old(console) + [Level.Info]
    {
      console := console + [Level.Info];
    }

    method Warn()
      modifies this`console
      ensures console == old(console) + [Level.Warn]
    {
      console := console + [Level.Warn];
    }

    method Error()
      modifies this`console
      ensures console == old(console) + [Level.Error]
    {
      console := console + [Level.Error];
    }

    /** A handler's own `console.error` of a caught exception: one more
        error-level line, written beside the logger's. */
    method ConsoleError()
      modifies this`console
      ensures console == old(console) + [Level.Error]
    {
      console := console + [Level.Error];
    }

    /** `k` successive `incrementRequestCount` calls: the values returned
        are the next `k` counts, so they strictly increase and no two of
        them are equal. */
    method IncrementTimes(k: nat) returns (vals: seq<nat>)
      modifies this`requestCount
      ensures requestCount == old(requestCount) + k
      ensures |vals| == k
      ensures forall j :: 0 <= j < k ==> vals[j] == old(requestCount) + j + 1
      ensures forall a, b :: 0 <= a < b < k ==> vals[a] < vals[b]
    {
      vals := [];
      var i := 0;
      while i < k
        invariant 0 <= i <= k
        invariant |vals| == i
        invariant requestCount == old(requestCount) + i
        invariant forall j :: 0 <= j < i ==> vals[j] == old(requestCount) + j + 1
      {
        var n := IncrementRequestCount();
        vals := vals + [n];
        i := i + 1;
      }
    }

    /** Inserts one row into `request_logs`. `sinkAccepts` is whether the
        INSERT succeeds; when it fails the error is caught, reported on the
        console at error level, and nothing is stored or propagated. */
    method LogRequest(route: string, httpMethod: string, statusCode: nat, durationMs: nat,
                      errorMessage: Option<string>, sinkAccepts: bool)
      modifies this`requestLogs, this`console
      ensures requestLogs == old(requestLogs) +
        (if sinkAccepts then [Row(route, httpMethod, statusCode, durationMs, errorMessage)] else [])
      ensures console == old(console) + (if sinkAccepts then [] else [Level.Error])
    {
      if sinkAccepts {
        requestLogs := requestLogs + [Row(route, httpMethod, statusCode, durationMs, errorMessage)];
      } else {
        console := console + [Level.Error];
      }
    }
  }

  /** A fresh logger counts from zero: `k` increments return 1, 2, ..., k,
      strictly increasing, and the count then reads `k`. */
  method FreshCounterRun(k: nat) returns (vals: seq<nat>, current: nat)
    ensures |vals| == k && current == k
    ensures k > 0 ==> vals[0] == 1
    ensures forall j :: 0 <= j < k ==> vals[j] == j + 1
    ensures forall a, b :: 0 <= a < b < k ==> vals[a] < vals[b]
  {
    var logger := new Logger();
    vals := logger.IncrementTimes(k);
    current := logger.GetRequestCount();
  }
}
