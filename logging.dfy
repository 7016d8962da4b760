/** Request, authentication and error logging (app/core/logging.py): which
    level each event gets, its message, the `extra` fields it carries, and
    which of them the JSON formatter writes out. A logger emits records;
    here each helper gives the record it would emit, and handlers, colours
    and the clock stay outside. */
module Logging {
  import opened Common

  // ---------------------------------------------------------------------
  // Levels, fields and records
  // ---------------------------------------------------------------------

  datatype Level = Debug | Info | Warning | Error | Critical

  /** The standard library's numeric levels. */
  function LevelNo(l: Level): (n: nat)
    ensures 10 <= n <= 50 && n % 10 == 0
  {
    match l
    case Debug => 10
    case Info => 20
    case Warning => 30
    case Error => 40
    case Critical => 50
  }

  function LevelName(l: Level): String {
    match l
    case Debug => "DEBUG"
    case Info => "INFO"
    case Warning => "WARNING"
    case Error => "ERROR"
    case Critical => "CRITICAL"
  }

  /** A value placed in a record's `extra`. Durations are kept in
      hundredths of a millisecond, the precision the request log rounds to. */
  datatype Field = Str(s: String) | Int(i: int) | Flag(b: bool) | Millis(centi: nat)

  type Extra = map<String, Field>

  /** What a logging call hands to the logger: level, message, the `extra`
      dictionary and whether the current exception is attached. */
  datatype LogRecord = LogRecord(level: Level, message: String, extra: Extra, excInfo: bool)

  /** `d[key] = value` when the optional argument is truthy. */
  function AddIfGiven(e: Extra, key: String, value: Option<String>): (r: Extra)
    ensures TruthyStr(value) ==> r == e[key := Str(value.value)]
    ensures !TruthyStr(value) ==> r == e
  {
    if TruthyStr(value) then e[key := Str(value.value)] else e
  }

  // ---------------------------------------------------------------------
  // Request context: get_request_logger and LoggerAdapter.process
  // ---------------------------------------------------------------------

  /** A `LoggerAdapter` and the context it adds to every call. */
  datatype Adapter = Adapter(extra: Extra)

  /** `get_request_logger`: only the identifiers that were given (and are
      not empty) become context. */
  function GetRequestLogger(requestId: Option<String>, userId: Option<String>, endpoint: Option<String>): (a: Adapter)
    ensures forall k :: k in a.extra <==>
      (k == "request_id" && TruthyStr(requestId)) ||
      (k == "user_id" && TruthyStr(userId)) ||
      (k == "endpoint" && TruthyStr(endpoint))
    ensures TruthyStr(requestId) ==> a.extra["request_id"] == Str(requestId.value)
    ensures TruthyStr(userId) ==> a.extra["user_id"] == Str(userId.value)
    ensures TruthyStr(endpoint) ==> a.extra["endpoint"] == Str(endpoint.value)
  {
    Adapter(AddIfGiven(AddIfGiven(AddIfGiven(map[], "request_id", requestId), "user_id", userId), "endpoint", endpoint))
  }

  /** `LoggerAdapter.process`: the call's own `extra` (or none) updated with
      the adapter's context, so on a shared key the adapter's value wins. */
  function Process(a: Adapter, msg: String, callExtra: Option<Extra>): (r: (String, Extra))
    ensures r.0 == msg
    ensures forall k :: k in r.1 <==> k in a.extra || (callExtra.Some? && k in callExtra.value)
    ensures forall k :: k in a.extra ==> r.1[k] == a.extra[k]
    ensures forall k :: callExtra.Some? && k in callExtra.value && k !in a.extra ==> r.1[k] == callExtra.value[k]
  {
    var own := if callExtra.Some? then callExtra.value else map[];
    (msg, own + a.extra)
  }

  /** A call through the adapter: the record the wrapped logger receives. */
  function AdapterLog(a: Adapter, level: Level, msg: String, callExtra: Option<Extra>): LogRecord {
    var p := Process(a, msg, callExtra);
    LogRecord(level, p.0, p.1, false)
  }

  // ---------------------------------------------------------------------
  // log_api_request
  // ---------------------------------------------------------------------

  /** `f"{x:.2f}"` of a duration held in hundredths of a millisecond. */
  function MillisText(centi: nat): (r: String)
    ensures |r| >= 4 && r[|r| - 3] == '.' && IsDigit(r[|r| - 2]) && IsDigit(r[|r| - 1])
  {
    NatToString(centi / 100) + "." + [DigitChar(centi % 100 / 10), DigitChar(centi % 10)]
  }

  const InternalServerError: String := "Internal Server Error"

  /** The level a request is logged at, by its status code. */
  function ApiRequestLevel(status: int): (l: Level)
    ensures l == Error <==> status >= 500
    ensures l == Warning <==> 400 <= status < 500
    ensures l == Info <==> status < 400
  {
    if status >= 500 then Error else if status >= 400 then Warning else Info
  }

  /** The line every request log starts with. */
  function RequestLine(verb: String, path: String, status: int, centi: nat): String {
    verb + " " + path + " -> " + IntToString(status) + " (" + MillisText(centi) + "ms)"
  }

  function ApiRequestExtra(verb: String, path: String, status: int, centi: nat,
                           requestId: Option<String>, userId: Option<String>, ip: Option<String>): Extra
  {
    var base := map["method" := Str(verb), "endpoint" := Str(path), "status_code" := Int(status),
                    "duration_ms" := Millis(centi)];
    AddIfGiven(AddIfGiven(AddIfGiven(base, "request_id", requestId), "user_id", userId), "ip_address", ip)
  }

  /** `log_api_request`. */
  function LogApiRequest(verb: String, path: String, status: int, centi: nat,
                         requestId: Option<String>, userId: Option<String>, ip: Option<String>,
                         error: Option<String>): (r: LogRecord)
    ensures r.level == ApiRequestLevel(status) && !r.excInfo
    ensures status >= 500 ==>
      r.message == RequestLine(verb, path, status, centi) + " ERROR: " +
                   (if TruthyStr(error) then error.value else InternalServerError)
    ensures status < 500 ==> r.message == RequestLine(verb, path, status, centi)
    ensures r.extra == ApiRequestExtra(verb, path, status, centi, requestId, userId, ip)
  {
    var line := RequestLine(verb, path, status, centi);
    var msg :=
      if status >= 500 then line + " ERROR: " + (if TruthyStr(error) then error.value else InternalServerError)
      else line;
    LogRecord(ApiRequestLevel(status), msg, ApiRequestExtra(verb, path, status, centi, requestId, userId, ip), false)
  }

  /** The request log always carries verb, endpoint, status and duration,
      and each optional identifier exactly when it was given. */
  lemma ApiRequestExtraKeys(verb: String, path: String, status: int, centi: nat,
                            requestId: Option<String>, userId: Option<String>, ip: Option<String>)
    ensures var e := ApiRequestExtra(verb, path, status, centi, requestId, userId, ip);
      e["method"] == Str(verb) && e["endpoint"] == Str(path) &&
      e["status_code"] == Int(status) && e["duration_ms"] == Millis(centi) &&
      e.Keys == {"method", "endpoint", "status_code", "duration_ms"} +
                (if TruthyStr(requestId) then {"request_id"} else {}) +
                (if TruthyStr(userId) then {"user_id"} else {}) +
                (if TruthyStr(ip) then {"ip_address"} else {})
  {
    var base := map["method" := Str(verb), "endpoint" := Str(path), "status_code" := Int(status),
                    "duration_ms" := Millis(centi)];
    assert base.Keys == {"method", "endpoint", "status_code", "duration_ms"};
    var e1 := AddIfGiven(base, "request_id", requestId);
    var e2 := AddIfGiven(e1, "user_id", userId);
    var e3 := AddIfGiven(e2, "ip_address", ip);
    assert e1.Keys == base.Keys + (if TruthyStr(requestId) then {"request_id"} else {});
    assert e2.Keys == e1.Keys + (if TruthyStr(userId) then {"user_id"} else {});
    assert e3.Keys == e2.Keys + (if TruthyStr(ip) then {"ip_address"} else {});
  }

  /** A higher status code is never logged at a lower level. */
  lemma ApiRequestLevelMonotone(s1: int, s2: int)
    requires s1 <= s2
    ensures LevelNo(ApiRequestLevel(s1)) <= LevelNo(ApiRequestLevel(s2))
  {
  }

  /** A server error without a message (or with an empty one) names the
      default one; client errors and successes carry the bare request line,
      whatever error text is passed. */
  lemma ApiRequestMessages(verb: String, path: String, status: int, centi: nat, error: Option<String>)
    ensures var m := LogApiRequest(verb, path, status, centi, None, None, None, error).message;
      var line := RequestLine(verb, path, status, centi);
      (status >= 500 && !TruthyStr(error) ==> StartsWith(m, line) && EndsWith(m, InternalServerError)) &&
      (status >= 500 && TruthyStr(error) ==> StartsWith(m, line) && EndsWith(m, error.value)) &&
      (status < 500 ==> m == line)
  {
    if status >= 500 {
      ErrorLineEnds(RequestLine(verb, path, status, centi), if TruthyStr(error) then error.value else InternalServerError);
    }
  }

  lemma ErrorLineEnds(line: String, why: String)
    ensures StartsWith(line + " ERROR: " + why, line) && EndsWith(line + " ERROR: " + why, why)
  {
    ConcatEnds(line + " ERROR: ", why);
    ConcatEnds(line, " ERROR: " + why);
    assert line + " ERROR: " + why == line + (" ERROR: " + why);
  }

  // ---------------------------------------------------------------------
  // log_auth_event
  // ---------------------------------------------------------------------

  const UnknownReason: String := "Unknown reason"

  function AuthEventExtra(event: String, email: String, success: bool, ip: Option<String>): Extra {
    AddIfGiven(map["event" := Str(event), "email" := Str(email), "success" := Flag(success)], "ip_address", ip)
  }

  /** `log_auth_event`: a success at INFO, a failure at WARNING with its
      reason, or "Unknown reason" when none (or an empty one) is given. */
  function LogAuthEvent(event: String, email: String, success: bool, ip: Option<String>,
                        reason: Option<String>): (r: LogRecord)
    ensures r.level == (if success then Info else Warning)
    ensures r.message == AuthHead(event, email) + AuthOutcome(success, reason)
    ensures r.extra == AuthEventExtra(event, email, success, ip)
  {
    LogRecord(if success then Info else Warning, AuthHead(event, email) + AuthOutcome(success, reason),
              AuthEventExtra(event, email, success, ip), false)
  }

  function AuthHead(event: String, email: String): String {
    "AUTH: " + event + " - " + email + " - "
  }

  /** How the message of an authentication event ends. */
  function AuthOutcome(success: bool, reason: Option<String>): String {
    if success then "SUCCESS" else "FAILED - " + (if TruthyStr(reason) then reason.value else UnknownReason)
  }

  /** The message names the event and the account, says SUCCESS or FAILED,
      and gives a failure's reason or "Unknown reason"; a success and a
      failure of the same event never read alike. */
  lemma AuthEventMessages(event: String, email: String, ip: Option<String>, reason: Option<String>)
    ensures var ok := LogAuthEvent(event, email, true, ip, reason).message;
      var bad := LogAuthEvent(event, email, false, ip, reason).message;
      StartsWith(ok, AuthHead(event, email)) && StartsWith(bad, AuthHead(event, email)) &&
      EndsWith(ok, "SUCCESS") &&
      EndsWith(bad, if TruthyStr(reason) then reason.value else UnknownReason) &&
      ok != bad
  {
    var head := AuthHead(event, email);
    var why := if TruthyStr(reason) then reason.value else UnknownReason;
    var failed := "FAILED - " + why;
    ConcatEnds(head, "SUCCESS");
    ConcatEnds(head, failed);
    ConcatEnds("FAILED - ", why);
    EndsWithExtended(head, failed, why);
    DifferAfter(head, "SUCCESS", failed);
  }

  /** Text ending in `b` still ends in `b` after a prefix is put in front. */
  lemma EndsWithExtended(a: String, s: String, b: String)
    requires EndsWith(s, b)
    ensures EndsWith(a + s, b)
  {
    assert (a + s)[|a + s| - |b|..] == s[|s| - |b|..];
  }

  /** Two texts with the same head differ when their tails start differently. */
  lemma DifferAfter(head: String, x: String, y: String)
    requires x != [] && y != [] && x[0] != y[0]
    ensures head + x != head + y
  {
    assert (head + x)[|head|] == x[0];
    assert (head + y)[|head|] == y[0];
  }

  lemma ConcatEnds(a: String, b: String)
    ensures StartsWith(a + b, a) && EndsWith(a + b, b)
  {
    assert (a + b)[..|a|] == a;
    assert (a + b)[|a + b| - |b|..] == b;
  }

  // ---------------------------------------------------------------------
  // log_error
  // ---------------------------------------------------------------------

  /** An exception as `log_error` sees it: its class name, `str(error)`, and
      the `error_code` attribute when the class has one (the application's
      own exceptions do). */
  datatype Raised = Raised(typeName: String, text: String, errorCode: Option<String>)

  /** `log_error`. It gives the record and what the caller's `context`
      dictionary holds afterwards: a non-empty context is the very dict that
      receives the new keys, an absent or empty one is replaced by a new dict. */
  function LogError(error: Raised, context: Option<Extra>, requestId: Option<String>): (r: (LogRecord, Option<Extra>))
    ensures r.0.level == Error && r.0.excInfo
    ensures r.0.message == error.typeName + ": " + error.text
    ensures "error_code" in r.0.extra <==>
      error.errorCode.Some? || (context.Some? && "error_code" in context.value)
    ensures error.errorCode.Some? ==> r.0.extra["error_code"] == Str(error.errorCode.value)
    ensures TruthyStr(requestId) ==> "request_id" in r.0.extra && r.0.extra["request_id"] == Str(requestId.value)
    ensures context.Some? && context.value != map[] ==> r.1 == Some(r.0.extra)
    ensures context.None? || context.value == map[] ==> r.1 == context
  {
    var shared := context.Some? && context.value != map[];
    var start := if shared then context.value else map[];
    var withId := AddIfGiven(start, "request_id", requestId);
    var extra := if error.errorCode.Some? then withId["error_code" := Str(error.errorCode.value)] else withId;
    (LogRecord(Error, error.typeName + ": " + error.text, extra, true), if shared then Some(extra) else context)
  }

  /** Without a context, the error record carries only what the call adds:
      the request id when given, the error code exactly when the exception
      has one. */
  lemma LogErrorFreshContext(error: Raised, requestId: Option<String>)
    ensures var e := LogError(error, None, requestId).0.extra;
      e.Keys == (if TruthyStr(requestId) then {"request_id"} else {}) +
                (if error.errorCode.Some? then {"error_code"} else {})
  {
    var withId := AddIfGiven(map[], "request_id", requestId);
    assert withId.Keys == (if TruthyStr(requestId) then {"request_id"} else {});
  }

  // ---------------------------------------------------------------------
  // JSONFormatter
  // ---------------------------------------------------------------------

  /** The `extra` keys the JSON formatter copies into its output. */
  const JsonExtraKeys: set<String> :=
    {"request_id", "user_id", "endpoint", "method", "status_code", "duration_ms", "ip_address", "error_code"}

  /** The JSON object for a record, without the timestamp, module, function
      and line, which come from the clock and the call site. `trace` is the
      formatted traceback. */
  function JsonLog(r: LogRecord, loggerName: String, trace: String): (j: map<String, Field>)
    ensures "level" in j && "logger" in j && "message" in j
    ensures j["level"] == Str(LevelName(r.level)) && j["logger"] == Str(loggerName) && j["message"] == Str(r.message)
    ensures forall k :: k in JsonExtraKeys ==> (k in j <==> k in r.extra)
    ensures forall k :: k in JsonExtraKeys && k in r.extra ==> j[k] == r.extra[k]
    ensures forall k :: k in j ==> k in JsonExtraKeys || k in {"level", "logger", "message", "exception"}
    ensures "exception" in j <==> r.excInfo
  {
    var copied := map k | k in r.extra && k in JsonExtraKeys :: r.extra[k];
    var base := copied + map["level" := Str(LevelName(r.level)), "logger" := Str(loggerName), "message" := Str(r.message)];
    if r.excInfo then base["exception" := Str(trace)] else base
  }

  /** Context given to a request logger reaches the JSON output of every
      call through it, whatever the call's own `extra` holds. */
  lemma AdapterContextInJson(requestId: String, userId: Option<String>, endpoint: Option<String>,
                             level: Level, msg: String, callExtra: Option<Extra>, name: String, trace: String)
    requires requestId != []
    ensures var a := GetRequestLogger(Some(requestId), userId, endpoint);
      JsonLog(AdapterLog(a, level, msg, callExtra), name, trace)["request_id"] == Str(requestId)
  {
    var a := GetRequestLogger(Some(requestId), userId, endpoint);
    var rec := AdapterLog(a, level, msg, callExtra);
    assert "request_id" in a.extra;
    assert rec.extra["request_id"] == Str(requestId);
  }

  /** The JSON log of an authentication event keeps at most the client
      address: the event name, the email and the outcome appear only in the
      message. */
  lemma AuthEventJsonFields(event: String, email: String, success: bool, ip: Option<String>,
                            reason: Option<String>, name: String, trace: String)
    ensures var j := JsonLog(LogAuthEvent(event, email, success, ip, reason), name, trace);
      "email" !in j && "event" !in j && "success" !in j &&
      ("ip_address" in j <==> TruthyStr(ip))
  {
    var r := LogAuthEvent(event, email, success, ip, reason);
    assert r.extra.Keys == {"event", "email", "success"} + (if TruthyStr(ip) then {"ip_address"} else {});
  }

  /** The error code of an application exception reaches the JSON log. */
  lemma ErrorCodeInJson(error: Raised, requestId: Option<String>, name: String, trace: String)
    requires error.errorCode.Some?
    ensures var j := JsonLog(LogError(error, None, requestId).0, name, trace);
      j["error_code"] == Str(error.errorCode.value) && j["level"] == Str("ERROR") && "exception" in j
  {
  }
}
