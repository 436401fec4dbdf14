/**
 * The application's error taxonomy (six classes under `Errors::ApplicationError`),
 * Ruby exceptions in general, and the outcome of a Ruby call that may raise.
 */
module Errors {
  import opened Wrappers
  import opened Text
  import opened JsonValue

  /**
   * An instance of one of the six error classes. Every variant carries the attributes of
   * `ApplicationError` (message, original_http_status, status_code) and the backtrace,
   * which stays nil until something sets it.
   */
  datatype AppError =
    | ApplicationError(message: string, originalHttpStatus: Option<int>, statusCode: Option<int>,
                       backtrace: Option<seq<string>>)
    | ExternalApiError(message: string, originalHttpStatus: Option<int>, statusCode: Option<int>,
                       serviceName: Option<string>, responseBody: Json, backtrace: Option<seq<string>>)
    | InvalidInputError(message: string, originalHttpStatus: Option<int>, statusCode: Option<int>,
                        field: Option<string>, reason: Option<string>, backtrace: Option<seq<string>>)
    | NetworkError(message: string, originalHttpStatus: Option<int>, statusCode: Option<int>,
                   serviceName: Option<string>, originalError: Option<Exception>, backtrace: Option<seq<string>>)
    | NotFoundError(message: string, originalHttpStatus: Option<int>, statusCode: Option<int>,
                    serviceName: Option<string>, responseBody: Json, backtrace: Option<seq<string>>)
    | ValidationError(message: string, originalHttpStatus: Option<int>, statusCode: Option<int>,
                      field: Option<string>, reason: Option<string>, backtrace: Option<seq<string>>)

  /** A raised Ruby exception: one of the application's errors, or any other class. */
  datatype Exception =
    | AppErr(error: AppError)
    | RubyError(className: string, text: string, trace: Option<seq<string>>)
  {
    /** `exception.message`. */
    function Message(): string
    {
      match this
      case AppErr(e) => e.message
      case RubyError(_, m, _) => m
    }

    /** `exception.backtrace`. */
    function Backtrace(): Option<seq<string>>
    {
      match this
      case AppErr(e) => e.backtrace
      case RubyError(_, _, bt) => bt
    }
  }

  /** The outcome of a Ruby expression that either returns a value or raises. */
  datatype Raising<+T> = Returns(value: T) | Raises(exception: Exception)
  {
    predicate IsFailure()
    {
      Raises?
    }

    function PropagateFailure<U>(): Raising<U>
      requires IsFailure()
    {
      Raises(exception)
    }

    function Extract(): T
      requires !IsFailure()
    {
      value
    }
  }

  /** An exception raised by the Ruby runtime itself (a NoMethodError, a TypeError, ...). */
  function Raise<T>(className: string, text: string): (r: Raising<T>)
    ensures r.Raises? && r.exception.RubyError? && r.exception.className == className
  {
    Raises(RubyError(className, text, None))
  }

  /** The `[service]` tag that opens the messages of service-related errors. */
  function ServiceTag(serviceName: Option<string>): (t: string)
    ensures serviceName.Some? ==> t == "[" + serviceName.value + "]"
    ensures serviceName.None? ==> t == "[External Service]"
  {
    "[" + serviceName.GetOr("External Service") + "]"
  }

  /**
   * `build_full_message` of ExternalApiError and NotFoundError: the service tag,
   * then ` (Status: code)` when there is a code, then a space and the base message.
   */
  function StatusMessage(base: string, serviceName: Option<string>, statusCode: Option<int>): (m: string)
    ensures StartsWith(m, ServiceTag(serviceName))
    ensures EndsWith(m, " " + base)
    ensures statusCode.None? ==> |m| == |ServiceTag(serviceName)| + 1 + |base|
    ensures |m| >= |ServiceTag(serviceName)| + 1 + |base|
    ensures statusCode.Some? ==>
              m[|ServiceTag(serviceName)|..|m| - |base| - 1] == " (Status: " + IntToString(statusCode.value) + ")"
  {
    var tag := ServiceTag(serviceName);
    var status := if statusCode.Some? then " (Status: " + IntToString(statusCode.value) + ")" else "";
    var m := tag + status + " " + base;
    assert m == tag + (status + " " + base) && m == (tag + status) + (" " + base);
    assert m[..|tag|] == tag;
    assert m[|m| - |base| - 1..] == " " + base;
    assert m[|tag|..|m| - |base| - 1] == status;
    m
  }

  /** The status code can be read back from a status message: different codes give different messages. */
  lemma StatusMessageDeterminesCode(base: string, serviceName: Option<string>, c1: int, c2: int)
    requires StatusMessage(base, serviceName, Some(c1)) == StatusMessage(base, serviceName, Some(c2))
    ensures c1 == c2
  {
    var m := StatusMessage(base, serviceName, Some(c1));
    var lo, hi := |ServiceTag(serviceName)|, |m| - |base| - 1;
    var s1, s2 := " (Status: " + IntToString(c1) + ")", " (Status: " + IntToString(c2) + ")";
    assert s1 == m[lo..hi] == s2;
    assert IntToString(c1) == s1[10..|s1| - 1] == s2[10..|s2| - 1] == IntToString(c2);
    IntToStringInjective(c1, c2);
  }

  /**
   * `build_full_message` of InvalidInputError and ValidationError: the base message,
   * then ` (Field: f)` when a field is given, then ` - r` when a reason is given.
   */
  function FieldMessage(base: string, field: Option<string>, reason: Option<string>): (m: string)
    ensures StartsWith(m, base)
    ensures field.None? && reason.None? ==> m == base
    ensures field.Some? ==> StartsWith(m[|base|..], " (Field: " + field.value + ")")
    ensures field.None? ==> m[|base|..] == (if reason.Some? then " - " + reason.value else "")
    ensures reason.Some? ==> EndsWith(m, " - " + reason.value)
    ensures reason.None? ==> m[|base|..] == (if field.Some? then " (Field: " + field.value + ")" else "")
  {
    var f := if field.Some? then " (Field: " + field.value + ")" else "";
    var r := if reason.Some? then " - " + reason.value else "";
    var m := base + f + r;
    assert m == base + (f + r);
    assert m[..|base|] == base;
    assert m[|base|..] == f + r;
    assert m[|m| - |r|..] == r;
    m
  }

  /** `ApplicationError.new(message, original_http_status:, status_code:)`: the message is kept verbatim. */
  function NewApplicationError(message: string := "Application Error", originalHttpStatus: Option<int> := None,
                               statusCode: Option<int> := Some(500)): (e: AppError)
    ensures e.ApplicationError? && e.message == message
    ensures e.statusCode == statusCode && e.originalHttpStatus == originalHttpStatus && e.backtrace.None?
  {
    ApplicationError(message, originalHttpStatus, statusCode, None)
  }

  /** `ExternalApiError.new(...)`: a nil status code becomes 503; the fields are stored as given. */
  function NewExternalApiError(message: string := "External API Error", serviceName: Option<string> := None,
                               statusCode: Option<int> := None, responseBody: Json := JNull,
                               originalHttpStatus: Option<int> := None): (e: AppError)
    ensures e.ExternalApiError? && e.serviceName == serviceName && e.responseBody == responseBody
    ensures e.statusCode == Some(statusCode.GetOr(503)) && e.originalHttpStatus == originalHttpStatus
    ensures e.message == StatusMessage(message, serviceName, e.statusCode) && e.backtrace.None?
  {
    var code := statusCode.GetOr(503);
    ExternalApiError(StatusMessage(message, serviceName, Some(code)), originalHttpStatus, Some(code),
                     serviceName, responseBody, None)
  }

  /** `InvalidInputError.new(...)`: status 400 unless given; the field and reason are stored as given. */
  function NewInvalidInputError(message: string := "Invalid Input", field: Option<string> := None,
                                reason: Option<string> := None, statusCode: Option<int> := Some(400),
                                originalHttpStatus: Option<int> := None): (e: AppError)
    ensures e.InvalidInputError? && e.field == field && e.reason == reason
    ensures e.statusCode == statusCode && e.originalHttpStatus == originalHttpStatus
    ensures e.message == FieldMessage(message, field, reason) && e.backtrace.None?
  {
    InvalidInputError(FieldMessage(message, field, reason), originalHttpStatus, statusCode, field, reason, None)
  }

  /** True when `original_error&.message.present?` holds. */
  predicate HasMessage(originalError: Option<Exception>)
  {
    originalError.Some? && !IsBlank(Some(originalError.value.Message()))
  }

  /**
   * The message NetworkError builds: the service tag, a space and the base message, then
   * `: ` and the original error's message when that message is not blank.
   */
  function NetworkMessage(message: string, serviceName: Option<string>, originalError: Option<Exception>): (m: string)
    ensures StartsWith(m, ServiceTag(serviceName) + " " + message)
    ensures m[|ServiceTag(serviceName) + " " + message|..]
            == if HasMessage(originalError) then ": " + originalError.value.Message() else ""
  {
    var head := ServiceTag(serviceName) + " " + message;
    var m := if HasMessage(originalError) then head + ": " + originalError.value.Message() else head;
    assert m[..|head|] == head;
    m
  }

  /** The backtrace NetworkError takes over: the original error's, when it is present and not empty. */
  function InheritedBacktrace(originalError: Option<Exception>): (bt: Option<seq<string>>)
    ensures bt.Some? <==> originalError.Some? && originalError.value.Backtrace().Some?
                          && originalError.value.Backtrace().value != []
    ensures bt.Some? ==> bt == originalError.value.Backtrace()
  {
    if originalError.Some? && originalError.value.Backtrace().Some? && originalError.value.Backtrace().value != []
    then originalError.value.Backtrace() else None
  }

  /**
   * `NetworkError.new(message, service_name:, original_error:)`: status 503 and no original
   * HTTP status whatever the caller passes.
   */
  function NewNetworkError(message: string := "Network Error", serviceName: Option<string> := None,
                           originalError: Option<Exception> := None): (e: AppError)
    ensures e.NetworkError? && e.serviceName == serviceName && e.originalError == originalError
    ensures e.statusCode == Some(503) && e.originalHttpStatus.None?
    ensures e.message == NetworkMessage(message, serviceName, originalError)
    ensures e.backtrace == InheritedBacktrace(originalError)
  {
    NetworkError(NetworkMessage(message, serviceName, originalError), None, Some(503), serviceName, originalError,
                 InheritedBacktrace(originalError))
  }

  /** `NotFoundError.new(...)`: status 404 unless given; the Status segment is left out only for an explicit nil code. */
  function NewNotFoundError(message: string := "Resource Not Found", serviceName: Option<string> := None,
                            statusCode: Option<int> := Some(404), responseBody: Json := JNull,
                            originalHttpStatus: Option<int> := None): (e: AppError)
    ensures e.NotFoundError? && e.serviceName == serviceName && e.responseBody == responseBody
    ensures e.statusCode == statusCode && e.originalHttpStatus == originalHttpStatus
    ensures e.message == StatusMessage(message, serviceName, statusCode) && e.backtrace.None?
  {
    NotFoundError(StatusMessage(message, serviceName, statusCode), originalHttpStatus, statusCode,
                  serviceName, responseBody, None)
  }

  /** `ValidationError.new(...)`: the InvalidInputError message format with status 422 unless given. */
  function NewValidationError(message: string := "Validation Error", field: Option<string> := None,
                              reason: Option<string> := None, statusCode: Option<int> := Some(422),
                              originalHttpStatus: Option<int> := None): (e: AppError)
    ensures e.ValidationError? && e.field == field && e.reason == reason
    ensures e.statusCode == statusCode && e.originalHttpStatus == originalHttpStatus
    ensures e.message == FieldMessage(message, field, reason) && e.backtrace.None?
  {
    ValidationError(FieldMessage(message, field, reason), originalHttpStatus, statusCode, field, reason, None)
  }

  /** Renders a three-digit number; used to evaluate the concrete messages below. */
  lemma NatToStringSample(n: nat, text: string)
    requires 100 <= n < 1000 && |text| == 3
    requires text[0] == DigitChar(n / 100) && text[1] == DigitChar(n / 10 % 10) && text[2] == DigitChar(n % 10)
    ensures IntToString(n) == text
  {
    assert NatToString(n / 100) == [DigitChar(n / 100)];
    assert NatToString(n / 10) == NatToString(n / 100) + [DigitChar(n / 10 % 10)];
  }

  /** The defaults of the constructors called without arguments. */
  lemma DefaultErrors()
    ensures NewApplicationError().message == "Application Error" && NewApplicationError().statusCode == Some(500)
    ensures NewInvalidInputError().message == "Invalid Input" && NewInvalidInputError().statusCode == Some(400)
    ensures NewValidationError().message == "Validation Error" && NewValidationError().statusCode == Some(422)
    ensures NewNetworkError().message == "[External Service] Network Error"
  {
  }

  lemma DefaultExternalApiError()
    ensures NewExternalApiError().statusCode == Some(503)
    ensures NewExternalApiError().message == "[External Service] (Status: 503) External API Error"
  {
    NatToStringSample(503, "503");
    UntaggedStatusMessageOf("External API Error", 503, "503");
    DefaultExternalApiHead();
    DefaultExternalApiTail();
  }

  lemma DefaultExternalApiHead()
    ensures "[External Service]" + " (Status: " + "503" + ")" + " " == "[External Service] (Status: 503) "
  {
  }

  lemma DefaultExternalApiTail()
    ensures "[External Service] (Status: 503) " + "External API Error" == "[External Service] (Status: 503) External API Error"
  {
  }

  lemma DefaultNotFoundError()
    ensures NewNotFoundError().message == "[External Service] (Status: 404) Resource Not Found"
  {
    NatToStringSample(404, "404");
    UntaggedStatusMessageOf("Resource Not Found", 404, "404");
    DefaultNotFoundHead();
    DefaultNotFoundTail();
  }

  lemma DefaultNotFoundHead()
    ensures "[External Service]" + " (Status: " + "404" + ")" + " " == "[External Service] (Status: 404) "
  {
  }

  lemma DefaultNotFoundTail()
    ensures "[External Service] (Status: 404) " + "Resource Not Found" == "[External Service] (Status: 404) Resource Not Found"
  {
  }

  /** The status message of an error without a service name, with the code rendered as `digits`. */
  lemma UntaggedStatusMessageOf(base: string, code: int, digits: string)
    requires IntToString(code) == digits
    ensures StatusMessage(base, None, Some(code)) == "[External Service]" + " (Status: " + digits + ")" + " " + base
  {
  }


  /** The example errors of spec/lib/errors_spec.rb and the messages they build. */
  lemma ExternalApiErrorExample()
    ensures var e := NewExternalApiError("API failed", serviceName := Some("WeatherAPI"), statusCode := Some(503),
                                         responseBody := JObj([("error", JStr("down"))]));
            e.message == "[WeatherAPI] (Status: 503) API failed" && e.statusCode == Some(503)
            && e.serviceName == Some("WeatherAPI") && e.responseBody == JObj([("error", JStr("down"))])
  {
    NatToStringSample(503, "503");
    StatusMessageOf("API failed", "WeatherAPI", 503, "503");
    ExternalApiExampleText();
  }

  lemma ExternalApiExampleText()
    ensures "[" + "WeatherAPI" + "]" + " (Status: " + "503" + ")" + " " + "API failed" == "[WeatherAPI] (Status: 503) API failed"
  {
  }

  lemma NotFoundErrorExample()
    ensures var e := NewNotFoundError("Address not found", serviceName := Some("DB"), statusCode := Some(404));
            e.message == "[DB] (Status: 404) Address not found" && e.responseBody == JNull && e.statusCode == Some(404)
  {
    NatToStringSample(404, "404");
    StatusMessageOf("Address not found", "DB", 404, "404");
    NotFoundExampleText();
  }

  lemma NotFoundExampleText()
    ensures "[" + "DB" + "]" + " (Status: " + "404" + ")" + " " + "Address not found" == "[DB] (Status: 404) Address not found"
  {
  }

  /** The status message of a named service, with the code rendered as `digits`. */
  lemma StatusMessageOf(base: string, service: string, code: int, digits: string)
    requires IntToString(code) == digits
    ensures StatusMessage(base, Some(service), Some(code)) == "[" + service + "]" + " (Status: " + digits + ")" + " " + base
  {
  }

  lemma ApplicationErrorExample()
    ensures NewApplicationError("Something went wrong").message == "Something went wrong"
  {
  }

  lemma InvalidInputErrorExample()
    ensures var e := NewInvalidInputError("Bad input", field := Some("email"), reason := Some("invalid format"));
            e.message == "Bad input (Field: email) - invalid format" && e.field == Some("email")
            && e.reason == Some("invalid format")
  {
    FieldMessageOf("Bad input", "email", "invalid format");
    InvalidInputErrorExampleText();
  }

  lemma InvalidInputErrorExampleText()
    ensures "Bad input" + " (Field: " + "email" + ")" + " - " + "invalid format" == "Bad input (Field: email) - invalid format"
  {
  }

  /** The message of an error given both a field and a reason. */
  lemma FieldMessageOf(base: string, field: string, reason: string)
    ensures FieldMessage(base, Some(field), Some(reason)) == base + " (Field: " + field + ")" + " - " + reason
  {
  }

  lemma ValidationErrorExample()
    ensures var e := NewValidationError("Invalid data", field := Some("name"), reason := Some("too short"));
            e.message == "Invalid data (Field: name) - too short" && e.field == Some("name")
            && e.reason == Some("too short")
  {
    FieldMessageOf("Invalid data", "name", "too short");
    ValidationErrorExampleText();
  }

  lemma ValidationErrorExampleText()
    ensures "Invalid data" + " (Field: " + "name" + ")" + " - " + "too short" == "Invalid data (Field: name) - too short"
  {
  }

  lemma NetworkErrorExample()
    ensures var e := NewNetworkError("Network issue", serviceName := Some("API"),
                                     originalError := Some(RubyError("StandardError", "Connection timed out", Some(["line1", "line2"]))));
            e.message == "[API] Network issue: Connection timed out" && e.backtrace == Some(["line1", "line2"])
  {
    var cause := RubyError("StandardError", "Connection timed out", Some(["line1", "line2"]));
    assert !IsUnicodeSpace(cause.Message()[0]);
    NetworkMessageWithCause("Network issue", Some("API"), cause);
    NetworkExampleText();
  }

  lemma NetworkExampleText()
    ensures "[" + "API" + "]" + " " + "Network issue" + ": " + "Connection timed out" == "[API] Network issue: Connection timed out"
  {
    NetworkExampleHead();
    NetworkExampleTail();
  }

  lemma NetworkExampleHead()
    ensures "[" + "API" + "]" + " " + "Network issue" + ": " == "[API] Network issue: "
  {
  }

  lemma NetworkExampleTail()
    ensures "[API] Network issue: " + "Connection timed out" == "[API] Network issue: Connection timed out"
  {
  }

  lemma NetworkMessageWithCause(message: string, serviceName: Option<string>, cause: Exception)
    requires HasMessage(Some(cause))
    ensures NetworkMessage(message, serviceName, Some(cause)) == ServiceTag(serviceName) + " " + message + ": " + cause.Message()
  {
  }
}
