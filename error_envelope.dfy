/**
 * The JSON error envelope of `app_exception_handler` (apps/core/utils.py):
 * it takes the response DRF's default handler produced (or none), picks
 * a status and a message, adds details by the kind of the exception, and
 * records what `_log_error_safely` would log.
 *
 * `str()` of a value that is not a string is the parameter `show`; of a
 * string it is the string itself.
 */
module ErrorEnvelope {
  import opened Values
  import opened LogLevels

  /** A Django `ValidationError` as the simplifier inspects it. */
  datatype ValidationShape =
    | FieldErrors(fields: seq<(string, seq<string>)>)   // it has `message_dict`
    | MessageList(messages: seq<string>)                 // it has `messages` only
    | Bare                                               // it has neither
  // Django's own ValidationError always sets `messages`, so `Bare` is reached
  // by no exception Django raises; it models the source's last branch.

  /** What the two `isinstance` checks see. */
  datatype ExcKind = DjangoValidationError(shape: ValidationShape) | Http404 | OtherException

  /** An exception: its class name, its kind, and `str(exc)`. */
  datatype Exc = Exc(className: string, kind: ExcKind, text: string)

  /** The response of DRF's default `exception_handler`. */
  datatype FrameworkResponse = FrameworkResponse(status: int, data: Value)

  /** The handler context: the class name of the view and the method of the request, when present. */
  datatype Context = Context(view: Option<string>, requestMethod: Option<string>)

  /** The "error" object of the envelope; `details` is present or not. */
  datatype ErrorBody = ErrorBody(status: int, message: string, errorType: string, details: Option<Value>)

  /**
   * The response the handler returns: `body` is the envelope as a record and
   * `data` the JSON value the response carries.
   */
  datatype HandlerResponse = HandlerResponse(body: ErrorBody, data: Value, status: int, headers: map<string, string>)

  /** The `extra` record of the error log. */
  datatype LogData = LogData(exceptionType: string, statusCode: int, view: Option<string>, requestMethod: Option<string>)

  /** One log call: level, message and extra record. */
  datatype LogEntry = LogEntry(level: Level, message: string, data: LogData)

  /** The response together with the log call made on the way. */
  datatype Handled = Handled(response: HandlerResponse, log: Option<LogEntry>)

  /** The status codes with a message of their own. */
  const MessageCodes: seq<int> := [400, 401, 403, 404, 405, 409, 429, 500]

  /** `str(v)`. */
  function PyStr(show: Value -> string, v: Value): (s: string)
    ensures v.Str? ==> s == v.s
  {
    if v.Str? then v.s else show(v)
  }

  /** The status of the envelope: the framework's, or 500 when it produced no response. */
  function StatusOf(response: Option<FrameworkResponse>): (s: int)
    ensures response.Some? ==> s == response.value.status
    ensures response.None? ==> s == 500
  {
    if response.Some? then response.value.status else 500
  }

  /** `STATUS_CODE_MESSAGES.get(status_code, "Request error")`. */
  function StatusMessage(status: int): (m: string)
    ensures m == "Request error" <==> status !in MessageCodes
  {
    if status == 400 then "Bad request"
    else if status == 401 then "Unauthorized"
    else if status == 403 then "Forbidden"
    else if status == 404 then "Resource not found"
    else if status == 405 then "Method not allowed"
    else if status == 409 then "Conflict"
    else if status == 429 then "Too many requests"
    else if status == 500 then "Internal server error"
    else "Request error"
  }

  /**
   * `_simplify_validation_errors`: the first message of each field, or all
   * messages under "non_field_errors", or `str(exc)`.  A field with no
   * message makes `v[0]` raise IndexError.
   */
  function SimplifyValidationErrors(shape: ValidationShape, text: string): (r: Result<Value, string>)
    ensures shape.FieldErrors? ==>
      (r.Ok? <==> forall i :: 0 <= i < |shape.fields| ==> shape.fields[i].1 != [])
    ensures shape.FieldErrors? && r.Ok? ==>
      r.value.Dict? && |r.value.entries| == |shape.fields| &&
      forall i :: 0 <= i < |shape.fields| ==>
        r.value.entries[i] == (shape.fields[i].0, Str(shape.fields[i].1[0]))
    ensures shape.FieldErrors? && r.Err? ==> r.error == "IndexError"
    ensures shape.MessageList? ==>
      r.Ok? && r.value.Dict? && |r.value.entries| == 1 && r.value.entries[0].0 == "non_field_errors" &&
      r.value.entries[0].1.List? && |r.value.entries[0].1.items| == |shape.messages| &&
      forall i :: 0 <= i < |shape.messages| ==> r.value.entries[0].1.items[i] == Str(shape.messages[i])
    ensures shape.Bare? ==> r == Ok(Str(text))
  {
    match shape
    case FieldErrors(fields) =>
      (match FirstMessages(fields)
       case None => Err("IndexError")
       case Some(entries) => Ok(Dict(entries)))
    case MessageList(messages) => Ok(Dict([("non_field_errors", List(MessageValues(messages)))]))
    case Bare => Ok(Str(text))
  }

  /** `{k: str(v[0]) for k, v in fields}`, or None when some `v` is empty. */
  function FirstMessages(fields: seq<(string, seq<string>)>): (r: Option<seq<(string, Value)>>)
    ensures r.Some? <==> forall i :: 0 <= i < |fields| ==> fields[i].1 != []
    ensures r.Some? ==> |r.value| == |fields|
    ensures r.Some? ==> forall i :: 0 <= i < |fields| ==> r.value[i] == (fields[i].0, Str(fields[i].1[0]))
  {
    if fields == [] then Some([])
    else if fields[0].1 == [] then None
    else
      match FirstMessages(fields[1..])
      case None => None
      case Some(rest) => Some([(fields[0].0, Str(fields[0].1[0]))] + rest)
  }

  /** `[str(msg) for msg in messages]`. */
  function MessageValues(messages: seq<string>): (vs: seq<Value>)
    ensures |vs| == |messages| && forall i :: 0 <= i < |messages| ==> vs[i] == Str(messages[i])
  {
    if messages == [] then [] else [Str(messages[0])] + MessageValues(messages[1..])
  }

  /** `f"{k}: {v}"` for each entry of a nested dict. */
  function InnerPairs(show: Value -> string, entries: seq<(string, Value)>): (ps: seq<string>)
    ensures |ps| == |entries|
    ensures forall i :: 0 <= i < |entries| ==> ps[i] == entries[i].0 + ": " + PyStr(show, entries[i].1)
  {
    if entries == [] then [] else [entries[0].0 + ": " + PyStr(show, entries[0].1)] + InnerPairs(show, entries[1..])
  }

  /**
   * The fragment one key of the response data contributes to the flattened
   * details: "key: " followed by `str` of a non-empty list's first element,
   * by the ", "-joined "k: v" pairs of a dict, or by `str` of the value.
   */
  function Fragment(show: Value -> string, key: string, value: Value): (f: string)
    ensures |f| >= |key| + 2 && f[..|key| + 2] == key + ": "
    ensures value.List? && value.items != [] ==> f[|key| + 2..] == PyStr(show, value.items[0])
    ensures value.Dict? ==> f[|key| + 2..] == Join(", ", InnerPairs(show, value.entries))
    ensures !(value.List? && value.items != []) && !value.Dict? ==> f[|key| + 2..] == PyStr(show, value)
  {
    var text :=
      if value.List? && value.items != [] then PyStr(show, value.items[0])
      else if value.Dict? then Join(", ", InnerPairs(show, value.entries))
      else PyStr(show, value);
    assert (key + ": " + text)[..|key| + 2] == key + ": ";
    assert (key + ": " + text)[|key| + 2..] == text;
    key + ": " + text
  }

  /** The fragments of all keys, in key order. */
  function Flatten(show: Value -> string, entries: seq<(string, Value)>): (fs: seq<string>)
    ensures |fs| == |entries|
    ensures forall i :: 0 <= i < |entries| ==> fs[i] == Fragment(show, entries[i].0, entries[i].1)
  {
    if entries == [] then [] else [Fragment(show, entries[0].0, entries[0].1)] + Flatten(show, entries[1..])
  }

  /** A non-empty list contributes its first element only. */
  lemma ListContributesFirstOnly(show: Value -> string, key: string, first: Value, rest1: seq<Value>, rest2: seq<Value>)
    ensures Fragment(show, key, List([first] + rest1)) == Fragment(show, key, List([first] + rest2))
  {
  }

  /**
   * `_log_error_safely`: error level for 5xx, warning for 4xx, nothing
   * below 400, always with the same extra record.
   */
  function LogErrorSafely(exc: Exc, context: Context, status: int): (e: Option<LogEntry>)
    ensures e.Some? <==> status >= 400
    ensures e.Some? ==> e.value.data == LogData(exc.className, status, context.view, context.requestMethod)
    ensures status >= 500 ==> e.value.level == Error && e.value.message == "Server error occurred"
    ensures 400 <= status < 500 ==> e.value.level == Warning && e.value.message == "Client error occurred"
  {
    var data := LogData(exc.className, status, context.view, context.requestMethod);
    if status >= 500 then Some(LogEntry(Error, "Server error occurred", data))
    else if status >= 400 then Some(LogEntry(Warning, "Client error occurred", data))
    else None
  }

  /**
   * The envelope as the JSON value the response carries: one key "error"
   * whose object holds "status", "message" and "type" in that order, and
   * "details" after them exactly when there are details.
   */
  function ToValue(b: ErrorBody): (v: Value)
    ensures v.Dict? && Keys(v.entries) == ["error"] && v.entries[0].1.Dict?
    ensures Keys(v.entries[0].1.entries) ==
      ["status", "message", "type"] + (if b.details.Some? then ["details"] else [])
    ensures Get(v.entries[0].1.entries, "status") == Some(Int(b.status))
    ensures Get(v.entries[0].1.entries, "message") == Some(Str(b.message))
    ensures Get(v.entries[0].1.entries, "type") == Some(Str(b.errorType))
    ensures Get(v.entries[0].1.entries, "details") == b.details
  {
    EnvelopeFacts(b);
    var v := Dict([("error", Dict(EnvelopeEntries(b)))]);
    assert Keys(v.entries) == ["error"];
    v
  }

  /** The entries of the envelope's "error" object. */
  function EnvelopeEntries(b: ErrorBody): seq<(string, Value)>
  {
    [("status", Int(b.status)), ("message", Str(b.message))] +
    ([("type", Str(b.errorType))] + if b.details.Some? then [("details", b.details.value)] else [])
  }

  /** The keys of the "error" object and what each of them holds. */
  lemma EnvelopeFacts(b: ErrorBody)
    ensures Keys(EnvelopeEntries(b)) == ["status", "message", "type"] + (if b.details.Some? then ["details"] else [])
    ensures Get(EnvelopeEntries(b), "status") == Some(Int(b.status))
    ensures Get(EnvelopeEntries(b), "message") == Some(Str(b.message))
    ensures Get(EnvelopeEntries(b), "type") == Some(Str(b.errorType))
    ensures Get(EnvelopeEntries(b), "details") == b.details
  {
    var tail: seq<(string, Value)> := if b.details.Some? then [("details", b.details.value)] else [];
    var typed := [("type", Str(b.errorType))] + tail;
    assert EnvelopeEntries(b) == [("status", Int(b.status)), ("message", Str(b.message))] + typed;
    EnvelopeKeys(b.status, b.message, typed);
    EnvelopeLookups(b.status, b.message, typed);
    TypedLookups(b.errorType, b.details);
    var extra := if b.details.Some? then ["details"] else [];
    assert ["status", "message"] + (["type"] + extra) == ["status", "message", "type"] + extra;
  }

  /** The key order of the envelope object. */
  lemma EnvelopeKeys(status: int, message: string, typed: seq<(string, Value)>)
    ensures Keys([("status", Int(status)), ("message", Str(message))] + typed) == ["status", "message"] + Keys(typed)
  {
    var inner := [("status", Int(status)), ("message", Str(message))] + typed;
    assert forall i :: 0 <= i < |inner| ==> Keys(inner)[i] == (["status", "message"] + Keys(typed))[i];
  }

  /** Lookups in the envelope object below its first two entries. */
  lemma EnvelopeLookups(status: int, message: string, typed: seq<(string, Value)>)
    ensures var inner := [("status", Int(status)), ("message", Str(message))] + typed;
      && Get(inner, "status") == Some(Int(status))
      && Get(inner, "message") == Some(Str(message))
      && forall k :: k != "status" && k != "message" ==> Get(inner, k) == Get(typed, k)
  {
    var messaged := [("message", Str(message))] + typed;
    var inner := [("status", Int(status)), ("message", Str(message))] + typed;
    assert inner == [("status", Int(status))] + messaged;
    GetCons(("message", Str(message)), typed);
    GetCons(("status", Int(status)), messaged);
  }

  /** Lookups in the "type" entry and the optional "details" entry. */
  lemma TypedLookups(errorType: string, details: Option<Value>)
    ensures var typed := [("type", Str(errorType))] + if details.Some? then [("details", details.value)] else [];
      && Keys(typed) == ["type"] + (if details.Some? then ["details"] else [])
      && Get(typed, "type") == Some(Str(errorType))
      && Get(typed, "details") == details
  {
    var tail: seq<(string, Value)> := if details.Some? then [("details", details.value)] else [];
    GetCons(("type", Str(errorType)), tail);
    assert Keys(tail) == if details.Some? then ["details"] else [];
    assert Keys([("type", Str(errorType))] + tail) == ["type"] + Keys(tail);
  }

  /** Reading an envelope back from JSON: None unless it has the envelope's keys and value kinds. */
  function FromValue(v: Value): (b: Option<ErrorBody>)
    ensures b.Some? ==> v.Dict? && HasKey(v.entries, "error")
  {
    match Get(if v.Dict? then v.entries else [], "error")
    case Some(Dict(inner)) =>
      (match (Get(inner, "status"), Get(inner, "message"), Get(inner, "type"))
       case (Some(Int(s)), Some(Str(m)), Some(Str(t))) => Some(ErrorBody(s, m, t, Get(inner, "details")))
       case _ => None)
    case _ => None
  }

  /** The JSON value carries the whole envelope: reading it back gives the record. */
  lemma ToValueRoundTrip(b: ErrorBody)
    ensures FromValue(ToValue(b)) == Some(b)
  {
    var v := ToValue(b);
    assert Get(v.entries, "error") == Some(v.entries[0].1);
  }

  /**
   * The loop of `app_exception_handler` over the keys of the response data:
   * one fragment per key, in key order.
   */
  method FlattenMessages(show: Value -> string, entries: seq<(string, Value)>) returns (flatMessages: seq<string>)
    ensures flatMessages == Flatten(show, entries)
  {
    flatMessages := [];
    var i := 0;
    while i < |entries|
      invariant 0 <= i <= |entries|
      invariant |flatMessages| == i
      invariant forall j :: 0 <= j < i ==> flatMessages[j] == Fragment(show, entries[j].0, entries[j].1)
    {
      var (key, value) := entries[i];
      if value.List? && value.items != [] {
        flatMessages := flatMessages + [key + ": " + PyStr(show, value.items[0])];
      } else if value.Dict? {
        var inner := Join(", ", InnerPairs(show, value.entries));
        flatMessages := flatMessages + [key + ": " + inner];
      } else {
        flatMessages := flatMessages + [key + ": " + PyStr(show, value)];
      }
      i := i + 1;
    }
  }

  /**
   * `app_exception_handler`.  The status is the framework's or 500 and the
   * returned response carries it; a Django ValidationError gets the
   * validation message and the simplified errors, an Http404 its own
   * message and no details, and any other exception the table message and,
   * for a framework response below 500 whose data is a dict, either
   * `str` of its "detail" or one fragment per key joined by " | ".
   */
  method AppExceptionHandler(exc: Exc, context: Context, response: Option<FrameworkResponse>, show: Value -> string)
    returns (r: Result<Handled, string>)
    ensures r.Err? <==> exc.kind.DjangoValidationError? && SimplifyValidationErrors(exc.kind.shape, exc.text).Err?
    ensures r.Ok? ==>
      && r.value.response.status == StatusOf(response)
      && r.value.response.body.status == StatusOf(response)
      && r.value.response.body.errorType == exc.className
      && r.value.response.headers == map["Content-Type" := "application/json"]
      && r.value.response.data == ToValue(r.value.response.body)
      && r.value.log == LogErrorSafely(exc, context, StatusOf(response))
    ensures r.Ok? && exc.kind.DjangoValidationError? ==>
      && r.value.response.body.message == "Validation error in input data"
      && r.value.response.body.details == Some(SimplifyValidationErrors(exc.kind.shape, exc.text).value)
    ensures r.Ok? && exc.kind.Http404? ==>
      r.value.response.body.message == "Requested resource does not exist" && r.value.response.body.details == None
    ensures exc.kind.OtherException? ==>
      && r.Ok?
      && r.value.response.body.message == StatusMessage(StatusOf(response))
      && (r.value.response.body.details.Some? <==>
            response.Some? && response.value.status < 500 && response.value.data.Dict?)
    ensures exc.kind.OtherException? && r.value.response.body.details.Some? ==>
      var entries := response.value.data.entries;
      if HasKey(entries, "detail")
      then r.value.response.body.details == Some(Str(PyStr(show, Get(entries, "detail").value)))
      else r.value.response.body.details == Some(Str(Join(" | ", Flatten(show, entries))))
  {
    var statusCode := if response.Some? then response.value.status else 500;
    var message := StatusMessage(statusCode);
    var details: Option<Value> := None;
    match exc.kind {
      case DjangoValidationError(shape) =>
        var simplified := SimplifyValidationErrors(shape, exc.text);
        if simplified.Err? {
          return Err(simplified.error);
        }
        message := "Validation error in input data";
        details := Some(simplified.value);
      case Http404 =>
        message := "Requested resource does not exist";
      case OtherException =>
        if response.Some? && statusCode < 500 && response.value.data.Dict? {
          var entries := response.value.data.entries;
          match Get(entries, "detail") {
            case Some(d) =>
              details := Some(Str(PyStr(show, d)));
            case None =>
              var flatMessages := FlattenMessages(show, entries);
              details := Some(Str(Join(" | ", flatMessages)));
          }
        }
    }
    var log := LogErrorSafely(exc, context, statusCode);
    var body := ErrorBody(statusCode, message, exc.className, details);
    r := Ok(Handled(HandlerResponse(body, ToValue(body), statusCode, map["Content-Type" := "application/json"]), log));
  }
}
