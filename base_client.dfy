/**
 * `Clients::BaseClient`: one HTTP request through an injected connection, the
 * classification of its outcome into a `Service::Result`, the error table for non-2xx
 * statuses, the rescue chain of `make_request`, and the redaction of secrets.
 */
module Clients {
  import opened Wrappers
  import opened Text
  import opened JsonValue
  import opened Errors
  import opened Runtime
  import opened RubyJson
  import opened Service

  /** The arguments of one `run_request`: the verb (downcased), the URL, the query parameters, the body and the headers. */
  datatype Request = Request(verb: string, url: string, params: Members, body: Json, headers: Members)

  /** The request `perform_request` sends: the verb downcased, an absent body as nil, no headers unless given. */
  function RequestFor(verb: string, url: string, params: Members, body: Json := JNull, headers: Members := []): (r: Request)
    ensures r.url == url && r.params == params && r.body == body && r.headers == headers
    ensures |r.verb| == |verb| && forall i :: 0 <= i < |verb| ==> r.verb[i] == DowncaseChar(verb[i])
  {
    Request(Downcase(verb), url, params, body, headers)
  }

  /** What one `run_request` did: it returned a response, or it raised. */
  datatype Transport =
    | Response(status: int, body: Json)
      /** `Faraday::TimeoutError` or `Faraday::ConnectionFailed`. */
    | NetworkFailure(error: Exception)
      /** `Faraday::ClientError`, with the status and body of its response when it has one. */
    | ClientFailure(error: Exception, response: Option<(int, Json)>)
      /** `JSON::ParserError`. */
    | ParseFailure(error: Exception)
      /** Any other StandardError. */
    | OtherFailure(error: Exception)

  /**
   * The HTTP connection. What the server and the network answer to the n-th request is
   * given by `reply`; `sent` records every request made, in order.
   */
  class Connection {
    const reply: (Request, nat) -> Transport
    var sent: seq<Request>

    constructor(reply: (Request, nat) -> Transport)
      ensures this.reply == reply && sent == []
    {
      this.reply := reply;
      sent := [];
    }

    /** `run_request`: sends one request and returns or raises what the other side answers. */
    method RunRequest(req: Request) returns (t: Transport)
      modifies this
      ensures sent == old(sent) + [req] && t == reply(req, |old(sent)|)
    {
      t := reply(req, |sent|);
      sent := sent + [req];
    }
  }

  /** The error classes `error_class_for_status` chooses from. */
  datatype ErrorClass = InvalidInputClass | ExternalApiClass | NotFoundClass | ValidationClass

  /** `error_class_for_status`: the error class and the message prefix for a non-2xx status. */
  function ErrorClassForStatus(status: int): (r: (ErrorClass, string))
    ensures r.0 == InvalidInputClass <==> status == 400
    ensures r.0 == NotFoundClass <==> status == 404
    ensures r.0 == ValidationClass <==> status == 422
    ensures r.0 == ExternalApiClass <==> status !in {400, 404, 422}
    ensures status == 400 ==> r == (InvalidInputClass, "Bad Request")
    ensures status == 404 ==> r == (NotFoundClass, "Resource Not Found")
    ensures status == 422 ==> r == (ValidationClass, "Unprocessable Entity")
  {
    if status == 400 then (InvalidInputClass, "Bad Request")
    else if status == 401 then (ExternalApiClass, "Unauthorized")
    else if status == 403 then (ExternalApiClass, "Forbidden")
    else if status == 404 then (NotFoundClass, "Resource Not Found")
    else if status == 422 then (ValidationClass, "Unprocessable Entity")
    else if status == 429 then (ExternalApiClass, "Rate Limit Exceeded")
    else if 500 <= status <= 599 then (ExternalApiClass, "Server Error")
    else (ExternalApiClass, "External API Error")
  }

  /** The prefixes of the table, status by status; every status outside it gets the generic prefix. */
  lemma ErrorPrefixes(status: int)
    ensures status == 400 ==> ErrorClassForStatus(status) == (InvalidInputClass, "Bad Request")
    ensures status == 401 ==> ErrorClassForStatus(status) == (ExternalApiClass, "Unauthorized")
    ensures status == 403 ==> ErrorClassForStatus(status) == (ExternalApiClass, "Forbidden")
    ensures status == 404 ==> ErrorClassForStatus(status) == (NotFoundClass, "Resource Not Found")
    ensures status == 422 ==> ErrorClassForStatus(status) == (ValidationClass, "Unprocessable Entity")
    ensures status == 429 ==> ErrorClassForStatus(status) == (ExternalApiClass, "Rate Limit Exceeded")
    ensures 500 <= status <= 599 ==> ErrorClassForStatus(status) == (ExternalApiClass, "Server Error")
    ensures status !in {400, 401, 403, 404, 422, 429} && !(500 <= status <= 599) ==>
              ErrorClassForStatus(status) == (ExternalApiClass, "External API Error")
    ensures ErrorClassForStatus(status).1 != ""
  {
  }

  /** `body[key]` of a hash, nil when the key is missing. */
  function Field(ms: Members, key: string): Json
  {
    Lookup(ms, key).GetOr(JNull)
  }

  /**
   * `extract_error_message`: for a hash the first truthy of `message`, `error_message` and
   * `error`, else `errors` unless it is nil, as text; a string shorter than 200 characters
   * as it is; nothing otherwise.
   */
  function ExtractErrorMessage(body: Json, rt: Foreign): (r: Option<string>)
    ensures body.JStr? ==> (r.Some? <==> |body.s| < 200) && (r.Some? ==> r.value == body.s)
    ensures !body.JStr? && !body.JObj? ==> r.None?
    ensures body.JObj? && Truthy(Field(body.members, "message")) ==> r == Some(ToS(Field(body.members, "message"), rt))
    ensures body.JObj? && !Truthy(Field(body.members, "message")) && !Truthy(Field(body.members, "error_message"))
            && !Truthy(Field(body.members, "error")) && !Field(body.members, "errors").JNull? ==>
              r == Some(ToS(Field(body.members, "errors"), rt))
  {
    match body
    case JObj(ms) =>
      if Truthy(Field(ms, "message")) then Some(ToS(Field(ms, "message"), rt))
      else if Truthy(Field(ms, "error_message")) then Some(ToS(Field(ms, "error_message"), rt))
      else if Truthy(Field(ms, "error")) then Some(ToS(Field(ms, "error"), rt))
      else if Field(ms, "errors").JNull? then None
      else Some(ToS(Field(ms, "errors"), rt))
    case JStr(s) => if |s| < 200 then Some(s) else None
    case _ => None
  }

  /** The keys are tried in order: a later key is used only when every earlier one is nil or false. */
  lemma ExtractFromHash(ms: Members, rt: Foreign)
    ensures !Truthy(Field(ms, "message")) && Truthy(Field(ms, "error_message")) ==>
              ExtractErrorMessage(JObj(ms), rt) == Some(ToS(Field(ms, "error_message"), rt))
    ensures !Truthy(Field(ms, "message")) && !Truthy(Field(ms, "error_message")) && Truthy(Field(ms, "error")) ==>
              ExtractErrorMessage(JObj(ms), rt) == Some(ToS(Field(ms, "error"), rt))
    ensures ExtractErrorMessage(JObj(ms), rt).None? <==>
              !Truthy(Field(ms, "message")) && !Truthy(Field(ms, "error_message")) && !Truthy(Field(ms, "error"))
              && Field(ms, "errors").JNull?
    ensures !Truthy(Field(ms, "message")) && !Truthy(Field(ms, "error_message")) && !Truthy(Field(ms, "error"))
            && !Field(ms, "errors").JNull? ==>
              ExtractErrorMessage(JObj(ms), rt) == Some(ToS(Field(ms, "errors"), rt))
    ensures Field(ms, "errors") == JBool(false) ==> ExtractErrorMessage(JObj(ms), rt).Some?
    ensures !Truthy(Field(ms, "message")) && !Truthy(Field(ms, "error_message")) && !Truthy(Field(ms, "error"))
            && Field(ms, "errors") == JBool(false) ==>
              ExtractErrorMessage(JObj(ms), rt) == Some("false")
  {
    assert ToS(JBool(false), rt) == "false";
  }

  /** The message used in an error built from a response: the extracted one, or "API request failed". */
  function ResponseMessage(body: Json, rt: Foreign): (m: string)
    ensures ExtractErrorMessage(body, rt).None? ==> m == "API request failed"
    ensures ExtractErrorMessage(body, rt).Some? ==> m == ExtractErrorMessage(body, rt).value
  {
    ExtractErrorMessage(body, rt).GetOr("API request failed")
  }

  /** `"<prefix>: <message> (HTTP Status: <status>)"`. */
  function FullMessage(status: int, body: Json, rt: Foreign): (m: string)
    ensures StartsWith(m, ErrorClassForStatus(status).1 + ": " + ResponseMessage(body, rt))
    ensures EndsWith(m, " (HTTP Status: " + IntToString(status) + ")")
    ensures |m| == |ErrorClassForStatus(status).1 + ": " + ResponseMessage(body, rt)| + |" (HTTP Status: " + IntToString(status) + ")"|
  {
    var head := ErrorClassForStatus(status).1 + ": " + ResponseMessage(body, rt);
    var tail := " (HTTP Status: " + IntToString(status) + ")";
    assert (head + tail)[..|head|] == head;
    assert (head + tail)[|head + tail| - |tail|..] == tail;
    head + tail
  }

  /**
   * The ArgumentError raised when `InvalidInputError.new` or `ValidationError.new` is given
   * the `service_name:` and `response_body:` keywords, which neither accepts.
   */
  const UnknownKeywords: Exception := RubyError("ArgumentError", "unknown keywords: :service_name, :response_body", None)

  /**
   * `build_error_from_response`: an error of the class the table chooses, with the full
   * message, the service name, the body, and the status as both status codes. For 400 and
   * 422 the chosen constructor rejects the keywords and the call raises.
   */
  function BuildErrorFromResponse(status: int, body: Json, serviceName: string, rt: Foreign): (r: Raising<AppError>)
    ensures r.Raises? <==> status == 400 || status == 422
    ensures r.Raises? ==> r.exception == UnknownKeywords
    ensures r.Returns? ==>
              (r.value.NotFoundError? <==> status == 404) && (r.value.ExternalApiError? <==> status != 404)
              && r.value.serviceName == Some(serviceName) && r.value.responseBody == body
              && r.value.statusCode == Some(status) && r.value.originalHttpStatus == Some(status)
              && r.value.message == StatusMessage(FullMessage(status, body, rt), Some(serviceName), Some(status))
  {
    var full := FullMessage(status, body, rt);
    match ErrorClassForStatus(status).0
    case InvalidInputClass => Raises(UnknownKeywords)
    case ValidationClass => Raises(UnknownKeywords)
    case NotFoundClass =>
      Returns(NewNotFoundError(full, Some(serviceName), Some(status), body, Some(status)))
    case ExternalApiClass =>
      Returns(NewExternalApiError(full, Some(serviceName), Some(status), body, Some(status)))
  }

  /** The message of the error built from a response ends with the status of that response. */
  lemma ErrorMessageNamesStatus(status: int, body: Json, serviceName: string, rt: Foreign)
    requires status != 400 && status != 422
    ensures EndsWith(BuildErrorFromResponse(status, body, serviceName, rt).value.message,
                     " (HTTP Status: " + IntToString(status) + ")")
    ensures Contains(BuildErrorFromResponse(status, body, serviceName, rt).value.message,
                     " (HTTP Status: " + IntToString(status) + ")")
  {
    var full := FullMessage(status, body, rt);
    var tail := " (HTTP Status: " + IntToString(status) + ")";
    assert BuildErrorFromResponse(status, body, serviceName, rt).value.message
           == StatusMessage(full, Some(serviceName), Some(status));
    StatusMessageKeepsEnd(full, serviceName, status, tail);
  }

  /** A status message ends as its base message does. */
  lemma StatusMessageKeepsEnd(full: string, serviceName: string, status: int, tail: string)
    requires EndsWith(full, tail)
    ensures EndsWith(StatusMessage(full, Some(serviceName), Some(status)), tail)
    ensures Contains(StatusMessage(full, Some(serviceName), Some(status)), tail)
  {
    var m := StatusMessage(full, Some(serviceName), Some(status));
    assert EndsWith(" " + full, tail) by {
      assert (" " + full)[|" " + full| - |tail|..] == full[|full| - |tail|..];
    }
    EndsWithTrans(m, " " + full, tail);
    EndsWithContains(m, tail);
  }

  /** The stage named by the catch-all of `make_request`. */
  const RequestStage: string := "HTTP Request Execution"

  /**
   * `handle_unexpected_error`: an application error passes through unchanged; anything
   * else becomes an ApplicationError naming the stage and the message, with its backtrace.
   */
  function UnexpectedError(e: Exception, stage: string): (r: AppError)
    ensures e.AppErr? ==> r == e.error
    ensures !e.AppErr? ==>
              r == ApplicationError("Unexpected error during " + stage + ": " + e.Message(), None, Some(500), e.Backtrace())
  {
    if e.AppErr? then e.error
    else ApplicationError("Unexpected error during " + stage + ": " + e.Message(), None, Some(500), e.Backtrace())
  }

  /** `handle_network_error`: a NetworkError tagged with the service name and holding the original error. */
  function NetworkFailureError(e: Exception, serviceName: string): (r: AppError)
    ensures r.NetworkError? && r.serviceName == Some(serviceName) && r.originalError == Some(e)
    ensures r.statusCode == Some(503)
  {
    NewNetworkError("Network error: " + e.Message(), Some(serviceName), Some(e))
  }

  /** The text the message of a JSON::ParserError quotes: `e.message.match(/'(.*?)'/)&.captures&.first`. */
  function QuotedText(e: Exception): (r: Option<string>)
    ensures r.Some? ==> Contains(e.Message(), "'" + r.value + "'")
  {
    FirstQuoted(e.Message())
  }

  /** `handle_json_parsing_error`: the body of the error is the quoted text, cut to 100 characters. */
  function JsonParsingError(text: Option<string>, serviceName: string): (r: AppError)
    ensures r.ExternalApiError? && r.serviceName == Some(serviceName) && r.statusCode == Some(503)
    ensures r.responseBody == JStr("Invalid JSON: " + Truncate(text.GetOr(""), 100))
    ensures r.message == StatusMessage("Failed to parse API response JSON.", Some(serviceName), Some(503))
  {
    NewExternalApiError("Failed to parse API response JSON.", Some(serviceName),
                        responseBody := JStr("Invalid JSON: " + Truncate(text.GetOr(""), 100)))
  }

  /** `handle_successful_response`: the error the body hook reports, or the body unchanged. */
  function SuccessfulResponse(body: Json, status: int, hook: (Json, int) -> Option<AppError>): (r: Result<Json, AppError>)
    ensures hook(body, status).Some? ==> r == Failure(hook(body, status).value)
    ensures hook(body, status).None? ==> r == Success(body)
  {
    match hook(body, status)
    case Some(e) => Failure(e)
    case None => Success(body)
  }

  /** `check_for_errors_in_successful_response_body` as BaseClient defines it: never an error. */
  function NoBodyErrors(body: Json, status: int): Option<AppError>
  {
    None
  }

  /**
   * What `make_request` returns, or raises, for a transport outcome: a 2xx response goes to
   * the body hook, another response to the error table, and each rescued exception to its
   * handler. A raise inside a rescue handler is not caught by the later handlers.
   */
  function Outcome(t: Transport, serviceName: string, hook: (Json, int) -> Option<AppError>, rt: Foreign)
    : (r: Raising<Result<Json, AppError>>)
    ensures r.Raises? ==> t.ClientFailure? && t.response.Some?
    ensures r.Returns? && r.value.Success? ==> t.Response? && 200 <= t.status <= 299 && r.value.data == t.body
  {
    match t
    case Response(status, body) =>
      if 200 <= status <= 299 then Returns(SuccessfulResponse(body, status, hook))
      else (match BuildErrorFromResponse(status, body, serviceName, rt)
            case Returns(e) => Returns(Failure(e))
            case Raises(x) => Returns(Failure(UnexpectedError(x, RequestStage))))
    case NetworkFailure(e) => Returns(Failure(NetworkFailureError(e, serviceName)))
    case ClientFailure(e, response) =>
      if response.Some? then
        var err :- BuildErrorFromResponse(response.value.0, response.value.1, serviceName, rt);
        Returns(Failure(err))
      else Returns(Failure(NewExternalApiError("Client error: " + e.Message(), Some(serviceName))))
    case ParseFailure(e) => Returns(Failure(JsonParsingError(QuotedText(e), serviceName)))
    case OtherFailure(e) => Returns(Failure(UnexpectedError(e, RequestStage)))
  }

  /** A 2xx response gives a Success with the body unchanged, unless the hook reports an error, which is the Failure's error. */
  lemma SuccessOutcome(status: int, body: Json, serviceName: string, hook: (Json, int) -> Option<AppError>, rt: Foreign)
    requires 200 <= status <= 299
    ensures hook(body, status).None? ==> Outcome(Response(status, body), serviceName, hook, rt) == Returns(Success(body))
    ensures hook(body, status).Some? ==>
              Outcome(Response(status, body), serviceName, hook, rt) == Returns(Failure(hook(body, status).value))
    ensures Outcome(Response(status, body), serviceName, NoBodyErrors, rt) == Returns(Success(body))
  {
  }

  /**
   * A non-2xx response other than 400 and 422 gives a Failure whose error carries the status
   * as both codes, the body and the service name.
   */
  lemma ErrorResponseOutcome(status: int, body: Json, serviceName: string, hook: (Json, int) -> Option<AppError>, rt: Foreign)
    requires !(200 <= status <= 299) && status != 400 && status != 422
    ensures var r := Outcome(Response(status, body), serviceName, hook, rt);
            r.Returns? && r.value.Failure?
            && r.value.error == BuildErrorFromResponse(status, body, serviceName, rt).value
            && r.value.error.statusCode == Some(status) && r.value.error.originalHttpStatus == Some(status)
            && r.value.error.responseBody == body && r.value.error.serviceName == Some(serviceName)
  {
  }

  /** The message of the ApplicationError that a 400 or 422 response ends as. */
  const KeywordFailureMessage: string :=
    "Unexpected error during HTTP Request Execution: " + "unknown keywords: :service_name, :response_body"

  /**
   * Statuses 400 and 422 never produce the InvalidInputError or ValidationError the table
   * names: the constructor raises and the catch-all turns that into an ApplicationError.
   */
  lemma KeywordStatusesOutcome(status: int, body: Json, serviceName: string, hook: (Json, int) -> Option<AppError>, rt: Foreign)
    requires status == 400 || status == 422
    ensures Outcome(Response(status, body), serviceName, hook, rt)
            == Returns(Failure(ApplicationError(KeywordFailureMessage, None, Some(500), None)))
  {
    assert BuildErrorFromResponse(status, body, serviceName, rt) == Raises(UnknownKeywords);
    assert UnknownKeywords.Message() == "unknown keywords: :service_name, :response_body";
    RequestStageText("unknown keywords: :service_name, :response_body");
  }

  /** A timeout or a failed connection always gives a NetworkError of this service that quotes the transport's message. */
  lemma NetworkOutcome(e: Exception, serviceName: string, hook: (Json, int) -> Option<AppError>, rt: Foreign)
    ensures var r := Outcome(NetworkFailure(e), serviceName, hook, rt);
            r.Returns? && r.value.Failure? && r.value.error.NetworkError?
            && r.value.error.serviceName == Some(serviceName) && r.value.error.statusCode == Some(503)
            && Contains(r.value.error.message, "Network error: " + e.Message())
  {
    var tag := ServiceTag(Some(serviceName));
    var m := NetworkMessage("Network error: " + e.Message(), Some(serviceName), Some(e));
    assert m[..|tag + " " + "Network error: " + e.Message()|] == tag + " " + "Network error: " + e.Message();
    assert OccursAt(m, "Network error: " + e.Message(), |tag| + 1);
  }

  /** An application error raised during the request is returned as it is, never wrapped again. */
  lemma NoDoubleWrap(e: AppError, serviceName: string, hook: (Json, int) -> Option<AppError>, rt: Foreign)
    ensures Outcome(OtherFailure(AppErr(e)), serviceName, hook, rt) == Returns(Failure(e))
  {
  }

  /** Any other unexpected exception becomes an ApplicationError with status 500 that keeps its message and backtrace. */
  lemma UnexpectedOutcome(className: string, text: string, trace: Option<seq<string>>, serviceName: string,
                          hook: (Json, int) -> Option<AppError>, rt: Foreign)
    ensures Outcome(OtherFailure(RubyError(className, text, trace)), serviceName, hook, rt)
            == Returns(Failure(ApplicationError("Unexpected error during HTTP Request Execution: " + text, None, Some(500), trace)))
  {
    RequestStageText(text);
  }

  /** The catch-all message prefix spelled out. */
  lemma RequestStageText(text: string)
    ensures "Unexpected error during " + RequestStage + ": " + text == "Unexpected error during HTTP Request Execution: " + text
  {
    assert "Unexpected error during " + RequestStage + ": " == "Unexpected error during HTTP Request Execution: ";
  }

  /**
   * `make_request` returns a Result in every case but one: a Faraday client error whose
   * response has status 400 or 422, where the ArgumentError raised inside the handler escapes.
   */
  lemma OutcomeRaises(t: Transport, serviceName: string, hook: (Json, int) -> Option<AppError>, rt: Foreign)
    ensures Outcome(t, serviceName, hook, rt).Raises? <==>
              t.ClientFailure? && t.response.Some? && (t.response.value.0 == 400 || t.response.value.0 == 422)
    ensures Outcome(t, serviceName, hook, rt).Raises? ==> Outcome(t, serviceName, hook, rt).exception == UnknownKeywords
  {
  }

  /** A JSON::ParserError whose message quotes the offending text keeps that text, cut to 100 characters, as the body. */
  lemma ParseFailureOutcome(pre: string, text: string, post: string, serviceName: string,
                            hook: (Json, int) -> Option<AppError>, rt: Foreign)
    requires forall i :: 0 <= i < |pre| ==> pre[i] != '\''
    requires QuoteFree(text)
    ensures var r := Outcome(ParseFailure(RubyError("JSON::ParserError", pre + "'" + text + "'" + post, None)),
                             serviceName, hook, rt);
            r.Returns? && r.value.Failure? && r.value.error.ExternalApiError?
            && r.value.error.responseBody == JStr("Invalid JSON: " + Truncate(text, 100))
  {
    FirstQuotedFinds(pre, text, post);
  }

  /** `demodulize`: the part of a constant path after its last "::". */
  function Demodulize(path: string): (r: string)
    ensures |r| <= |path|
    decreases |path|
  {
    if |path| < 2 then path
    else if path[|path| - 2] == ':' && path[|path| - 1] == ':' then []
    else Demodulize(path[..|path| - 1]) + [path[|path| - 1]]
  }

  /** `demodulize` returns a suffix of the path. */
  lemma {:induction false} DemodulizeSuffix(path: string)
    ensures Demodulize(path) == path[|path| - |Demodulize(path)|..]
    decreases |path|
  {
    if |path| >= 2 && !(path[|path| - 2] == ':' && path[|path| - 1] == ':') {
      var init := path[..|path| - 1];
      DemodulizeSuffix(init);
      var r := Demodulize(init);
      assert init[|init| - |r|..] + [path[|path| - 1]] == path[|path| - |r| - 1..];
    }
  }

  /** `gsub(/Client$/, '')` on a class name: a trailing "Client" is removed. */
  function DropClientSuffix(name: string): (r: string)
    ensures EndsWith(name, "Client") ==> r + "Client" == name
    ensures !EndsWith(name, "Client") ==> r == name
  {
    if EndsWith(name, "Client") then name[..|name| - 6] else name
  }

  /** The service name a client gets when none is given. */
  function DefaultServiceName(className: string): string
  {
    DropClientSuffix(Demodulize(className))
  }

  /** The last segment of a path is what `demodulize` returns. */
  lemma {:induction false} DemodulizeLast(prefix: string, name: string)
    requires forall i :: 0 <= i < |name| ==> name[i] != ':'
    ensures Demodulize(prefix + "::" + name) == name
    decreases |name|
  {
    var p := prefix + "::" + name;
    if name == [] {
      assert p[|p| - 2] == ':' && p[|p| - 1] == ':';
    } else {
      var n := |name| - 1;
      assert p[|p| - 1] == name[n];
      assert p[..|p| - 1] == prefix + "::" + name[..n];
      DemodulizeLast(prefix, name[..n]);
      assert name[..n] + [name[n]] == name;
    }
  }

  /** A client class `M::NameClient` is called Name by default. */
  lemma DefaultServiceNameOf(modules: string, name: string)
    requires forall i :: 0 <= i < |name| ==> name[i] != ':'
    ensures DefaultServiceName(modules + "::" + name + "Client") == name
  {
    var full := name + "Client";
    var suffix := "Client";
    assert suffix == ['C', 'l', 'i', 'e', 'n', 't'];
    forall i | 0 <= i < |full| ensures full[i] != ':' {
      if i >= |name| { assert full[i] == suffix[i - |name|]; }
    }
    assert modules + "::" + name + "Client" == modules + "::" + full;
    DemodulizeLast(modules, full);
    assert full[|full| - 6..] == "Client";
    assert full[..|full| - 6] == name;
  }

  /** BaseClient itself is called "Base". */
  lemma BaseClientServiceName(path: string)
    requires path == "Clients::BaseClient"
    ensures DefaultServiceName(path) == "Base"
  {
    var modules, name := "Clients", "Base";
    assert path == modules + "::" + name + "Client";
    DefaultServiceNameOf(modules, name);
  }

  /** The Census geocoder, given an explicit nil name, is called "Census". */
  lemma CensusClientServiceName(path: string)
    requires path == "Clients::Geocoders::CensusClient"
    ensures DefaultServiceName(path) == "Census"
  {
    var modules, name := "Clients::Geocoders", "Census";
    assert path == modules + "::" + name + "Client";
    DefaultServiceNameOf(modules, name);
  }

  /** The keys whose values are redacted, compared case-sensitively. */
  const SensitiveKeys: set<string> := {"key", "appid", "api_key"}

  const Redacted: string := "[REDACTED]"

  /**
   * `filter_sensitive_data`: a string that parses as JSON is replaced by its filtered parse,
   * a hash is rebuilt entry by entry with sensitive values redacted and the others filtered,
   * and everything else (nil, numbers, booleans, arrays, other strings) is returned as it is.
   */
  function Filtered(data: Json, rt: Foreign): Json
    requires ShrinkingParser(rt)
    decreases Width(data), data, 1
  {
    match data
    case JStr(s) =>
      (match rt.parseJson(s)
       case Some(parsed) => Filtered(parsed, rt)
       case None => data)
    case JObj(ms) => JObj(FilteredMembers(ms, data, rt))
    case _ => data
  }

  /** The value a hash entry gets in the filtered hash. */
  function FilteredValue(key: string, value: Json, rt: Foreign): Json
    requires ShrinkingParser(rt)
    decreases Width(value), value, 2
  {
    if key in SensitiveKeys then JStr(Redacted) else Filtered(value, rt)
  }

  /** The entries of `ms` are values inside `parent`, none wider than it: the walk over them terminates. */
  ghost predicate WithinParent(ms: Members, parent: Json)
  {
    forall k :: 0 <= k < |ms| ==> ms[k].1 < parent && Width(ms[k].1) <= Width(parent)
  }

  lemma WithinParentPrefix(ms: Members, parent: Json, n: nat)
    requires WithinParent(ms, parent) && n <= |ms|
    ensures WithinParent(ms[..n], parent)
  {
    assert forall k :: 0 <= k < n ==> ms[..n][k] == ms[k];
  }

  /** The hash `each_with_object({})` has built after the entries of `ms`, which belong to `parent`. */
  function FilteredMembers(ms: Members, ghost parent: Json, rt: Foreign): (r: Members)
    requires ShrinkingParser(rt)
    requires WithinParent(ms, parent)
    ensures KeySet(r) == KeySet(ms) && UniqueKeys(r)
    decreases Width(parent), parent, 0, |ms|
  {
    if ms == [] then []
    else
      var n := |ms| - 1;
      WithinParentPrefix(ms, parent, n);
      var rest := FilteredMembers(ms[..n], parent, rt);
      assert KeySet(ms) == KeySet(ms[..n]) + {ms[n].0} by { KeySetSnoc(ms[..n], ms[n].0, ms[n].1); assert ms[..n] + [ms[n]] == ms; }
      PutLookup(rest, ms[n].0, FilteredValue(ms[n].0, ms[n].1, rt));
      Put(rest, ms[n].0, FilteredValue(ms[n].0, ms[n].1, rt))
  }

  /** `filter_sensitive_data`: a string is re-parsed, a hash is walked by `FilterHash`. */
  method FilterSensitiveData(data: Json, rt: Foreign) returns (r: Json)
    requires ShrinkingParser(rt)
    ensures r == Filtered(data, rt)
    decreases Width(data), data, 1
  {
    match data {
      case JStr(s) =>
        var parsed := rt.parseJson(s);
        if parsed.Some? {
          r := FilterSensitiveData(parsed.value, rt);
        } else {
          r := data;
        }
      case JObj(ms) =>
        assert WithinParent(ms, data) by {
          assert Width(data) == MembersWidth(ms, data);
        }
        var hash := FilterHash(ms, data, rt);
        r := JObj(hash);
      case _ =>
        r := data;
    }
  }

  /** The `each_with_object({})` walk over the entries of the hash `parent`. */
  method FilterHash(ms: Members, ghost parent: Json, rt: Foreign) returns (hash: Members)
    requires ShrinkingParser(rt)
    requires WithinParent(ms, parent)
    ensures hash == FilteredMembers(ms, parent, rt)
    decreases Width(parent), parent, 0
  {
    hash := [];
    var i := 0;
    while i < |ms|
      invariant 0 <= i <= |ms|
      invariant WithinParent(ms[..i], parent)
      invariant hash == FilteredMembers(ms[..i], parent, rt)
    {
      FilteredMembersStep(ms, parent, rt, i);
      WithinParentPrefix(ms, parent, i + 1);
      var key := ms[i].0;
      var value := ms[i].1;
      var v: Json;
      if key in SensitiveKeys {
        v := JStr(Redacted);
      } else {
        v := FilterSensitiveData(value, rt);
      }
      assert v == FilteredValue(key, value, rt);
      hash := Put(hash, key, v);
      i := i + 1;
    }
    assert ms[..|ms|] == ms;
  }

  /** One more entry of the walk puts its filtered value into the hash built so far. */
  lemma FilteredMembersStep(ms: Members, parent: Json, rt: Foreign, i: nat)
    requires ShrinkingParser(rt)
    requires WithinParent(ms, parent)
    requires i < |ms|
    ensures FilteredMembers(ms[..i + 1], parent, rt)
            == Put(FilteredMembers(ms[..i], parent, rt), ms[i].0, FilteredValue(ms[i].0, ms[i].1, rt))
  {
    WithinParentPrefix(ms, parent, i + 1);
    WithinParentPrefix(ms, parent, i);
    assert ms[..i + 1][..i] == ms[..i];
  }

  /** In a filtered hash every key of the original is present once, with its redacted or filtered value. */
  lemma {:induction false} FilteredLookup(ms: Members, parent: Json, rt: Foreign, k: string)
    requires ShrinkingParser(rt)
    requires WithinParent(ms, parent)
    ensures Lookup(FilteredMembers(ms, parent, rt), k).Some? <==> Lookup(ms, k).Some?
    ensures Lookup(ms, k).Some? ==> Lookup(FilteredMembers(ms, parent, rt), k) == Some(FilteredValue(k, Lookup(ms, k).value, rt))
    decreases |ms|
  {
    if ms != [] {
      var n := |ms| - 1;
      var init := ms[..n];
      assert ms[..n + 1] == ms == init + [ms[n]];
      WithinParentPrefix(ms, parent, n);
      FilteredMembersStep(ms, parent, rt, n);
      FilteredLookup(init, parent, rt, k);
      LookupStep(init, ms[n], FilteredMembers(init, parent, rt), FilteredValue(ms[n].0, ms[n].1, rt), k);
    }
  }

  /** One entry more in a hash and in the hash built from it: a lookup sees the new entry or the older ones. */
  lemma LookupStep(init: Members, entry: (string, Json), built: Members, value: Json, k: string)
    ensures Lookup(init + [entry], k) == if entry.0 == k then Some(entry.1) else Lookup(init, k)
    ensures Lookup(Put(built, entry.0, value), k) == if entry.0 == k then Some(value) else Lookup(built, k)
  {
    PutLookup(built, entry.0, value);
    assert (init + [entry])[..|init|] == init;
  }

  /** Redaction of a hash: the same keys, sensitive ones redacted, the others filtered recursively. */
  lemma FilteredHash(ms: Members, rt: Foreign)
    requires ShrinkingParser(rt)
    ensures Filtered(JObj(ms), rt).JObj?
    ensures KeySet(Filtered(JObj(ms), rt).members) == KeySet(ms)
    ensures forall k :: k in SensitiveKeys && k in KeySet(ms) ==> Lookup(Filtered(JObj(ms), rt).members, k) == Some(JStr(Redacted))
    ensures forall k :: k !in SensitiveKeys && k in KeySet(ms) ==>
              Lookup(Filtered(JObj(ms), rt).members, k) == Some(Filtered(Lookup(ms, k).value, rt))
  {
    var data := JObj(ms);
    assert Width(data) == MembersWidth(ms, data);
    forall k | k in KeySet(ms) ensures Lookup(FilteredMembers(ms, data, rt), k) == Some(FilteredValue(k, Lookup(ms, k).value, rt)) {
      FilteredLookup(ms, data, rt, k);
    }
  }

  /** Scalars and arrays are returned untouched: arrays are not traversed. */
  lemma FilteredUntouched(data: Json, rt: Foreign)
    requires ShrinkingParser(rt)
    requires data.JNull? || data.JBool? || data.JNum? || data.JArr?
    ensures Filtered(data, rt) == data
  {
  }

  /** A string is replaced by its filtered parse when it parses, and kept otherwise. */
  lemma FilteredString(s: string, rt: Foreign)
    requires ShrinkingParser(rt)
    ensures rt.parseJson(s).None? ==> Filtered(JStr(s), rt) == JStr(s)
    ensures rt.parseJson(s).Some? ==> Filtered(JStr(s), rt) == Filtered(rt.parseJson(s).value, rt)
  {
  }

  /** The example of the redaction rules: two secrets redacted, a plain value kept, no key added or lost. */
  lemma RedactionExample(ms: Members, rt: Foreign)
    requires ShrinkingParser(rt)
    requires rt.parseJson("ok").None?
    requires ms == [("api_key", JStr("secret")), ("appid", JStr("hidden")), ("safe", JStr("ok"))]
    ensures var out := Filtered(JObj(ms), rt);
            out.JObj? && KeySet(out.members) == {"api_key", "appid", "safe"}
            && Lookup(out.members, "api_key") == Some(JStr(Redacted)) && Lookup(out.members, "appid") == Some(JStr(Redacted))
            && Lookup(out.members, "safe") == Some(JStr("ok"))
  {
    assert ms[0].0 == "api_key" && ms[1].0 == "appid" && ms[2].0 == "safe";
    assert "api_key" in SensitiveKeys && "appid" in SensitiveKeys && "safe" !in SensitiveKeys;
    assert KeySet(ms) == {"api_key", "appid", "safe"} by {
      forall x | x in KeySet(ms) ensures x in {"api_key", "appid", "safe"} {
        var i :| 0 <= i < 3 && ms[i].0 == x;
      }
    }
    assert Lookup(ms, "safe") == Some(JStr("ok"));
    FilteredHash(ms, rt);
    FilteredString("ok", rt);
  }

  /** `fetch_from_response`: the value under the key, nil when the hash lacks it; a non-hash raises. */
  function FetchFromResponse(response: Json, key: string): (r: Raising<Json>)
    ensures r.Returns? <==> response.JObj?
    ensures response.JObj? ==> r.value == Field(response.members, key)
  {
    Fetch(response, key, Some(JNull))
  }

  /**
   * A client: its API key, its connection, its service name, the hook that inspects 2xx
   * bodies, and the foreign functions.
   */
  class BaseClient {
    const apiKey: Option<string>
    const http: Connection
    const serviceName: string
    const hook: (Json, int) -> Option<AppError>
    const rt: Foreign

    /** `initialize`: a given service name is kept, even an empty one; nil gives the default derived from the class name. */
    constructor(apiKey: Option<string>, http: Connection, serviceName: Option<string>, className: string,
                hook: (Json, int) -> Option<AppError>, rt: Foreign)
      ensures this.apiKey == apiKey && this.http == http && this.hook == hook && this.rt == rt
      ensures this.serviceName == if serviceName.Some? then serviceName.value else DefaultServiceName(className)
    {
      this.apiKey := apiKey;
      this.http := http;
      this.serviceName := if serviceName.Some? then serviceName.value else DefaultServiceName(className);
      this.hook := hook;
      this.rt := rt;
    }

    /** `make_request`: exactly one request, no retry, and the outcome as `Outcome` classifies it. */
    method MakeRequest(verb: string, url: string, params: Members := [], body: Json := JNull, headers: Members := [])
      returns (r: Raising<Result<Json, AppError>>)
      modifies http
      ensures http.sent == old(http.sent) + [RequestFor(verb, url, params, body, headers)]
      ensures r == Outcome(http.reply(RequestFor(verb, url, params, body, headers), |old(http.sent)|),
                           serviceName, hook, rt)
    {
      var t := http.RunRequest(RequestFor(verb, url, params, body, headers));
      r := Outcome(t, serviceName, hook, rt);
    }
  }
}
