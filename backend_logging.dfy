/**
 * The backend's Sentry hooks: the `before_send` sanitiser, which drops
 * events in test runs, strips credential headers from the request and
 * turns non-primitive extra values into strings; and the `capture_error`
 * decorator, which reports an exception of the wrapped endpoint once,
 * with the first positional request's details, and re-raises it.
 *
 * Python values are modelled by `PyValue`; Python's `str()` of a value
 * that is not a primitive is the parameter `render`, since it depends on
 * the object's own `__str__`.
 */
module BackendLogging {
  import opened Wrappers
  import Strings

  datatype PyValue =
    | PStr(s: string)
    | PInt(i: int)
    | PFloat(f: real)
    | PBool(b: bool)
    | PNone
    | PDict(entries: map<string, PyValue>)
    | PList(items: seq<PyValue>)
    | PObject(typeName: string)

  /** `isinstance(v, (str, int, float, bool, type(None)))`. */
  predicate IsPrimitive(v: PyValue) {
    v.PStr? || v.PInt? || v.PFloat? || v.PBool? || v.PNone?
  }

  type Event = map<string, PyValue>

  const SensitiveHeaders: set<string> := {"authorization", "cookie", "x-api-key"}

  /** The headers whose lower-cased name is not a credential header, with their values. */
  function SanitizeHeaders(headers: map<string, PyValue>): (r: map<string, PyValue>)
    ensures forall k :: k in r <==> k in headers && Strings.ToLower(k) !in SensitiveHeaders
    ensures forall k :: k in r ==> r[k] == headers[k]
  {
    map k | k in headers && Strings.ToLower(k) !in SensitiveHeaders :: headers[k]
  }

  /** The extra record with every non-primitive value replaced by its string form. */
  function SanitizeExtra(extra: map<string, PyValue>, render: PyValue -> string): (r: map<string, PyValue>)
    ensures r.Keys == extra.Keys
    ensures forall k :: k in r && IsPrimitive(extra[k]) ==> r[k] == extra[k]
    ensures forall k :: k in r && !IsPrimitive(extra[k]) ==> r[k] == PStr(render(extra[k]))
  {
    map k | k in extra :: if IsPrimitive(extra[k]) then extra[k] else PStr(render(extra[k]))
  }

  /**
   * Python's `"headers" in v`: `Some` of the answer, or `None` where the
   * test itself raises (numbers, `None`, objects without membership).
   */
  function HasHeaders(v: PyValue): Option<bool> {
    match v
    case PDict(entries) => Some("headers" in entries)
    case PStr(s) => Some(Strings.Contains(s, "headers"))
    case PList(items) => Some(PStr("headers") in items)
    case _ => None
  }

  /** The request has headers that can be sanitised: a dict whose `headers` entry is a dict. */
  predicate HasDictHeaders(event: Event) {
    && "request" in event && event["request"].PDict?
    && "headers" in event["request"].entries && event["request"].entries["headers"].PDict?
  }

  /**
   * The request step raises: the membership test itself raises, or it
   * finds `headers` in something that is not a dict of dict headers (a
   * string or a list containing "headers", or a dict whose `headers` is
   * not a dict, so `.items()` fails).
   */
  predicate RequestRaises(event: Event) {
    && "request" in event
    && (|| HasHeaders(event["request"]).None?
        || (HasHeaders(event["request"]) == Some(true) && !HasDictHeaders(event)))
  }

  /** The extra step raises: `extra` is present but not a dict. */
  predicate ExtraRaises(event: Event) {
    "extra" in event && !event["extra"].PDict?
  }

  /** The request step: `None` when it raises. */
  function SanitizeRequest(event: Event): (r: Option<Event>)
    ensures r.None? <==> RequestRaises(event)
    ensures r.Some? ==> r.value.Keys == event.Keys
    ensures r.Some? ==> forall k :: k in event && k != "request" ==> r.value[k] == event[k]
    ensures HasDictHeaders(event) ==>
              r.Some? && r.value["request"].PDict?
              && r.value["request"].entries
                 == event["request"].entries["headers" := PDict(SanitizeHeaders(event["request"].entries["headers"].entries))]
    ensures r.Some? && !HasDictHeaders(event) ==> r.value == event
  {
    if "request" !in event then Some(event)
    else
      var request := event["request"];
      match HasHeaders(request)
      case None => None
      case Some(false) => Some(event)
      case Some(true) =>
        // only a dict can be indexed by "headers", and only a dict has `.items()`
        if request.PDict? && request.entries["headers"].PDict? then
          var headers := request.entries["headers"].entries;
          Some(event["request" := PDict(request.entries["headers" := PDict(SanitizeHeaders(headers))])])
        else None
  }

  /** The extra step: `None` when it raises. */
  function SanitizeEventExtra(event: Event, render: PyValue -> string): (r: Option<Event>)
    ensures r.Some? ==> r.value.Keys == event.Keys
    ensures r.Some? ==> forall k :: k in event && k != "extra" ==> r.value[k] == event[k]
    ensures r.None? <==> "extra" in event && !event["extra"].PDict?
  {
    if "extra" !in event then Some(event)
    else if event["extra"].PDict? then Some(event["extra" := PDict(SanitizeExtra(event["extra"].entries, render))])
    else None
  }

  /** Whether the `TESTING` environment variable is set to a truthy (non-empty) string. */
  predicate IsTesting(testing: Option<string>) {
    testing.Some? && testing.value != ""
  }

  /** `before_send`, with `testing` the value of the `TESTING` environment variable. */
  function BeforeSend(event: Event, testing: Option<string>, render: PyValue -> string): (r: Option<Event>)
    ensures IsTesting(testing) ==> r.None?
    ensures r.None? <==> IsTesting(testing) || RequestRaises(event) || ExtraRaises(event)
    ensures r.Some? ==> r.value.Keys == event.Keys
    ensures r.Some? ==> forall k :: k in event && k != "request" && k != "extra" ==> r.value[k] == event[k]
  {
    if IsTesting(testing) then None
    else
      match SanitizeRequest(event)
      case None => None
      case Some(e) =>
        assert ExtraRaises(e) == ExtraRaises(event);
        SanitizeEventExtra(e, render)
  }

  /**
   * Outside test runs, an event whose request carries dict headers is sent
   * (unless its extra is malformed), and what survives of the headers is
   * exactly the non-credential ones, with their values.
   */
  lemma BeforeSendStripsHeaders(event: Event, testing: Option<string>, render: PyValue -> string)
    requires !IsTesting(testing) && !ExtraRaises(event)
    requires HasDictHeaders(event)
    ensures BeforeSend(event, testing, render).Some?
    ensures var out := BeforeSend(event, testing, render).value;
            var headers := event["request"].entries["headers"];
            && out["request"].PDict?
            && out["request"].entries == event["request"].entries["headers" := PDict(SanitizeHeaders(headers.entries))]
  {
  }

  /**
   * Outside test runs, an event with a dict extra is sent (unless its
   * request step raises), and its extra keeps the same keys, primitives
   * kept and everything else rendered.
   */
  lemma BeforeSendCoercesExtra(event: Event, testing: Option<string>, render: PyValue -> string)
    requires !IsTesting(testing) && !RequestRaises(event)
    requires "extra" in event && event["extra"].PDict?
    ensures BeforeSend(event, testing, render).Some?
    ensures BeforeSend(event, testing, render).value["extra"] == PDict(SanitizeExtra(event["extra"].entries, render))
  {
    var e := SanitizeRequest(event).value;
    assert e["extra"] == event["extra"];
  }

  /** An event without a request (or whose request has no headers) and without extra passes unchanged. */
  lemma BeforeSendUnchanged(event: Event, testing: Option<string>, render: PyValue -> string)
    requires !IsTesting(testing)
    requires "request" !in event || (event["request"].PDict? && "headers" !in event["request"].entries)
    requires "extra" !in event
    ensures BeforeSend(event, testing, render) == Some(event)
  {
  }

  /**
   * The failures: each shape that makes the sanitiser raise makes it drop
   * the event, and outside test runs every other event is sent.
   */
  lemma BeforeSendFailures(event: Event, testing: Option<string>, render: PyValue -> string)
    requires !IsTesting(testing)
    ensures BeforeSend(event, testing, render).None? <==> RequestRaises(event) || ExtraRaises(event)
    ensures "request" in event && HasHeaders(event["request"]).None? ==> BeforeSend(event, testing, render).None?
    ensures "request" in event && event["request"].PStr? && Strings.Contains(event["request"].s, "headers") ==>
              BeforeSend(event, testing, render).None?
    ensures ("request" in event && event["request"].PDict? && "headers" in event["request"].entries
             && !event["request"].entries["headers"].PDict?) ==> BeforeSend(event, testing, render).None?
    ensures "extra" in event && !event["extra"].PDict? ==> BeforeSend(event, testing, render).None?
  {
    if "extra" in event && !event["extra"].PDict? {
      match SanitizeRequest(event)
      case None =>
      case Some(e) => assert e["extra"] == event["extra"];
    }
  }

  lemma SanitizeHeadersIdempotent(headers: map<string, PyValue>)
    ensures SanitizeHeaders(SanitizeHeaders(headers)) == SanitizeHeaders(headers)
  {
  }

  lemma SanitizeExtraIdempotent(extra: map<string, PyValue>, render: PyValue -> string)
    ensures SanitizeExtra(SanitizeExtra(extra, render), render) == SanitizeExtra(extra, render)
  {
  }

  /** Sanitising a sanitised event changes nothing more. */
  lemma BeforeSendIdempotent(event: Event, testing: Option<string>, render: PyValue -> string)
    requires BeforeSend(event, testing, render).Some?
    ensures BeforeSend(BeforeSend(event, testing, render).value, testing, render) == BeforeSend(event, testing, render)
  {
    var e1 := SanitizeRequest(event).value;
    var out := BeforeSend(event, testing, render).value;
    assert out == SanitizeEventExtra(e1, render).value;
    // the request step finds nothing left to strip
    if "request" in out {
      assert out["request"] == e1["request"];
      var request := event["request"];
      if HasHeaders(request) == Some(true) {
        var clean := SanitizeHeaders(request.entries["headers"].entries);
        assert out["request"] == PDict(request.entries["headers" := PDict(clean)]);
        SanitizeHeadersIdempotent(request.entries["headers"].entries);
        assert out["request"].entries["headers" := PDict(SanitizeHeaders(clean))] == out["request"].entries;
        assert out["request" := PDict(out["request"].entries)] == out;
      } else {
        assert e1 == event;
      }
    }
    assert SanitizeRequest(out) == Some(out);
    // the extra step finds nothing left to render
    if "extra" in out {
      SanitizeExtraIdempotent(e1["extra"].entries, render);
      assert out["extra" := PDict(SanitizeExtra(out["extra"].entries, render))] == out;
    }
  }

  /** The details `capture_error` attaches from a request: method, URL and client host. */
  datatype RequestInfo = RequestInfo(httpMethod: string, url: string, clientHost: Option<string>)

  datatype Arg = RequestArg(request: RequestInfo) | OtherArg(value: PyValue)

  /** A raised exception; `isException` is false for `BaseException`s outside `Exception`. */
  datatype PyException = PyException(typeName: string, message: string, isException: bool)

  datatype Outcome<T> = Returned(value: T) | Raised(exception: PyException)

  /** One `capture_exception` call, with the `request_info` context set in its scope. */
  datatype Capture = Capture(exception: PyException, requestInfo: Option<RequestInfo>)

  /** The first positional argument that is a request. */
  function FirstRequest(args: seq<Arg>): (r: Option<RequestInfo>)
    ensures r.None? <==> forall i :: 0 <= i < |args| ==> !args[i].RequestArg?
    ensures r.Some? ==> exists i :: 0 <= i < |args| && args[i] == RequestArg(r.value)
                          && forall j :: 0 <= j < i ==> !args[j].RequestArg?
  {
    if args == [] then None
    else if args[0].RequestArg? then Some(args[0].request)
    else
      var r := FirstRequest(args[1..]);
      if r.Some? then
        ghost var i :| 0 <= i < |args[1..]| && args[1..][i] == RequestArg(r.value)
                       && forall j :: 0 <= j < i ==> !args[1..][j].RequestArg?;
        assert args[i + 1] == RequestArg(r.value);
        r
      else r
  }

  /**
   * The wrapper around an endpoint that received `args` and `kwargs` and
   * ended with `outcome`: how the wrapper ends, and what it reported.
   */
  function CaptureError<T>(args: seq<Arg>, kwargs: map<string, Arg>, outcome: Outcome<T>): (r: (Outcome<T>, seq<Capture>))
    ensures r.0 == outcome
    ensures outcome.Returned? || !outcome.exception.isException ==> r.1 == []
    ensures outcome.Raised? && outcome.exception.isException ==>
              r.1 == [Capture(outcome.exception, FirstRequest(args))]
  {
    match outcome
    case Returned(_) => (outcome, [])
    case Raised(e) => if e.isException then (outcome, [Capture(e, FirstRequest(args))]) else (outcome, [])
  }

  /** A request passed only by keyword is never attached to the report. */
  lemma KeywordRequestIsNotAttached<T>(args: seq<Arg>, kwargs: map<string, Arg>, e: PyException)
    requires e.isException
    requires forall i :: 0 <= i < |args| ==> args[i].OtherArg?
    ensures CaptureError(args, kwargs, Outcome<T>.Raised(e)).1 == [Capture(e, None)]
  {
  }
}
