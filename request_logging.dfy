/**
 * `LoggingMiddleware` (apps/core/middleware.py): it tags each request with
 * an id, echoes the id in an X-Request-ID response header under a
 * DEBUG-dependent rule, and logs every response and every uncaught
 * exception at a level chosen by status.
 *
 * The random id, the clock readings and the DEBUG setting are parameters;
 * what the middleware would log is returned as a `LogCall`.
 */
module RequestLogging {
  import opened Values
  import opened LogLevels

  /** The authenticated or anonymous user attached to a request. */
  datatype RequestUser = RequestUser(isAuthenticated: bool, email: string)

  /** An incoming request and the attributes the middleware adds to it. */
  class HttpRequest {
    var meta: map<string, string>
    var httpMethod: string
    var path: string
    var user: Option<RequestUser>     // None: the request has no `user` attribute
    var requestId: Option<string>     // None: `request_id` was never assigned
    var startTime: Option<real>       // None: `start_time` was never assigned

    constructor (meta: map<string, string>, httpMethod: string, path: string, user: Option<RequestUser>)
      ensures this.meta == meta && this.httpMethod == httpMethod && this.path == path && this.user == user
      ensures requestId == None && startTime == None
    {
      this.meta := meta;
      this.httpMethod := httpMethod;
      this.path := path;
      this.user := user;
      requestId := None;
      startTime := None;
    }
  }

  /** A response: its status and its headers. */
  class HttpResponse {
    var status: int
    var headers: map<string, string>

    constructor (status: int, headers: map<string, string>)
      ensures this.status == status && this.headers == headers
    {
      this.status := status;
      this.headers := headers;
    }
  }

  /** The `extra` record of a request log line. */
  datatype LogContext = LogContext(user: string, ip: string, requestId: string, httpMethod: string,
                                   path: string, statusCode: int, duration: real)

  /** One logger call: its level, its context and, for exceptions, its message. */
  datatype LogCall = LogCall(level: Level, context: LogContext, message: Option<string>)

  const RequestIdMeta: string := "HTTP_X_REQUEST_ID"
  const RequestIdHeader: string := "X-Request-ID"

  /** `request.META.get("HTTP_X_REQUEST_ID", uuid4().hex)`: the incoming id, else the fresh one. */
  function ChooseRequestId(meta: map<string, string>, freshHex: string): (id: string)
    ensures RequestIdMeta in meta ==> id == meta[RequestIdMeta]
    ensures RequestIdMeta !in meta ==> id == freshHex
  {
    if RequestIdMeta in meta then meta[RequestIdMeta] else freshHex
  }

  /** `getattr(request, "request_id", "none")`. */
  function RequestIdLabel(requestId: Option<string>): (s: string)
    ensures requestId.Some? ==> s == requestId.value
    ensures requestId.None? ==> s == "none"
  {
    if requestId.Some? then requestId.value else "none"
  }

  /** The user label: the email of an authenticated user, "anonymous" otherwise. */
  function UserLabel(user: Option<RequestUser>): (s: string)
    ensures user.Some? && user.value.isAuthenticated ==> s == user.value.email
    ensures user.None? || !user.value.isAuthenticated ==> s == "anonymous"
  {
    if user.Some? && user.value.isAuthenticated then user.value.email else "anonymous"
  }

  /** Whether the response gets the X-Request-ID header: always in DEBUG, else only from 400 up. */
  predicate AddsRequestIdHeader(debug: bool, status: int)
  {
    debug || status >= 400
  }

  /** The level of a response log line: error from 500, warning from 400, info below. */
  function LevelForStatus(status: int): (l: Level)
    ensures status >= 500 <==> l == Error
    ensures 400 <= status < 500 <==> l == Warning
    ensures status < 400 <==> l == Info
  {
    if status >= 500 then Error else if status >= 400 then Warning else Info
  }

  /** The level never falls as the status rises. */
  lemma LevelMonotone(s1: int, s2: int)
    requires s1 <= s2
    ensures LevelNo(LevelForStatus(s1)) <= LevelNo(LevelForStatus(s2))
  {
  }

  /**
   * Under a filter capped at `logging.WARNING` the response log line of a
   * request survives exactly when its status is below 400.
   */
  lemma ResponseLogBelowWarningCap(status: int)
    ensures LevelNo(LevelForStatus(status)) < LevelNo(Warning) <==> status < 400
  {
  }

  /** `time.time() - getattr(request, "start_time", time.time())`, in milliseconds. */
  function DurationMs(startTime: Option<real>, now: real, nowDefault: real): real
  {
    (now - (if startTime.Some? then startTime.value else nowDefault)) * 1000.0
  }

  /** The log context of a request that ended with `status`. */
  function ContextFor(meta: map<string, string>, httpMethod: string, path: string, user: Option<RequestUser>,
                      requestId: Option<string>, status: int, duration: real): (c: LogContext)
    ensures c.user == UserLabel(user) && c.requestId == RequestIdLabel(requestId) && c.statusCode == status
    ensures c.ip == (if "REMOTE_ADDR" in meta then meta["REMOTE_ADDR"] else "")
  {
    LogContext(UserLabel(user), if "REMOTE_ADDR" in meta then meta["REMOTE_ADDR"] else "",
               RequestIdLabel(requestId), httpMethod, path, status, duration)
  }

  /**
   * `process_request`: it assigns the request id and the start time and
   * never answers on its own.
   */
  method ProcessRequest(request: HttpRequest, freshHex: string, now: real) returns (shortCircuit: Option<HttpResponse>)
    modifies request
    ensures shortCircuit == None
    ensures request.requestId == Some(ChooseRequestId(old(request.meta), freshHex))
    ensures request.startTime == Some(now)
    ensures request.meta == old(request.meta) && request.httpMethod == old(request.httpMethod)
    ensures request.path == old(request.path) && request.user == old(request.user)
  {
    var requestId := if RequestIdMeta in request.meta then request.meta[RequestIdMeta] else freshHex;
    request.requestId := Some(requestId);
    request.startTime := Some(now);
    shortCircuit := None;
  }

  /**
   * `process_response`: the same response comes back, with at most the
   * X-Request-ID header added (under `AddsRequestIdHeader`, holding the
   * request's id or "none"), and one log call at `LevelForStatus`.
   */
  method ProcessResponse(request: HttpRequest, response: HttpResponse, debug: bool, now: real, nowDefault: real)
    returns (r: HttpResponse, log: LogCall)
    modifies response
    ensures r == response && response.status == old(response.status)
    ensures AddsRequestIdHeader(debug, response.status) ==>
      response.headers == old(response.headers)[RequestIdHeader := RequestIdLabel(request.requestId)]
    ensures !AddsRequestIdHeader(debug, response.status) ==> response.headers == old(response.headers)
    ensures log.level == LevelForStatus(response.status) && log.message == None
    ensures log.context == ContextFor(request.meta, request.httpMethod, request.path, request.user, request.requestId,
                                      response.status, DurationMs(request.startTime, now, nowDefault))
  {
    var msDuration := (now - (if request.startTime.Some? then request.startTime.value else nowDefault)) * 1000.0;
    var user := "anonymous";
    if request.user.Some? && request.user.value.isAuthenticated {
      user := request.user.value.email;
    }
    var logContext := LogContext(user, if "REMOTE_ADDR" in request.meta then request.meta["REMOTE_ADDR"] else "",
                                 RequestIdLabel(request.requestId), request.httpMethod, request.path,
                                 response.status, msDuration);
    if debug {
      response.headers := response.headers[RequestIdHeader := RequestIdLabel(request.requestId)];
    } else {
      if response.status >= 400 {
        response.headers := response.headers[RequestIdHeader := RequestIdLabel(request.requestId)];
      }
    }
    var level: Level;
    if response.status >= 500 {
      level := Error;
    } else if response.status >= 400 {
      level := Warning;
    } else {
      level := Info;
    }
    log := LogCall(level, logContext, None);
    r := response;
  }

  /**
   * `process_exception`: one error-level log call reporting status 500, and
   * None, so the exception goes on to the next handler.
   */
  method ProcessException(request: HttpRequest, exceptionType: string, exceptionText: string, now: real, nowDefault: real)
    returns (r: Option<HttpResponse>, log: LogCall)
    ensures r == None
    ensures log.level == Error && log.context.statusCode == 500
    ensures log.message == Some("UNCATCHED EXCEPTION: " + exceptionType + " - " + exceptionText)
    ensures log.context == ContextFor(request.meta, request.httpMethod, request.path, request.user, request.requestId,
                                      500, DurationMs(request.startTime, now, nowDefault))
  {
    var msDuration := (now - (if request.startTime.Some? then request.startTime.value else nowDefault)) * 1000.0;
    var logContext := LogContext(UserLabel(request.user),
                                 if "REMOTE_ADDR" in request.meta then request.meta["REMOTE_ADDR"] else "",
                                 RequestIdLabel(request.requestId), request.httpMethod, request.path, 500, msDuration);
    log := LogCall(Error, logContext, Some("UNCATCHED EXCEPTION: " + exceptionType + " - " + exceptionText));
    r := None;
  }
}
