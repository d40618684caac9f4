/**
 * The request-timing interceptors of the shared HTTP client. A table keyed
 * by request id holds one timing record per request in flight: the request
 * interceptor creates the entry, the response interceptors complete it and
 * report it as a breadcrumb. A successful response schedules the entry's
 * deletion 30 s later; a failed one deletes it at once. Pending deletions
 * are a list of timers that `Tick` fires when the clock reaches them.
 * Request ids, clock readings and system snapshots are parameters.
 */
module AxiosInstance {
  import opened Wrappers
  import opened JsValues
  import Strings
  import Seqs
  import ET = ErrorTracking

  /** Delay, in milliseconds, before a completed entry is deleted. */
  const CleanupDelay: real := 30000.0

  /** `Math.round(x)` of a size in kilobytes; `NaN` when `parseInt` found no number. */
  datatype ResponseSize = SizeKb(kb: int) | SizeNaN

  /** One entry of the table; every field but `startTime` is set when the response arrives. */
  datatype RequestMetrics = RequestMetrics(
    startTime: real,
    endTime: Option<real>,
    duration: Option<real>,
    size: Option<ResponseSize>,
    status: Option<int>,
    cached: Option<bool>)

  /** The part of an outgoing request configuration the interceptors read and write. */
  datatype RequestConfig = RequestConfig(
    httpMethod: Option<string>,
    url: Option<string>,
    headers: Option<map<string, string>>,
    params: JsValue,
    data: JsValue)

  /** A successful response; `config` is the configuration its request was sent with. */
  datatype Response = Response(
    config: RequestConfig,
    status: int,
    headers: map<string, string>,
    data: JsValue,
    serializedBytes: nat)

  /** The server's reply carried by a failed request, when there was one. */
  datatype ErrorResponse = ErrorResponse(status: int, statusText: string, data: JsValue, headers: map<string, string>)

  datatype RequestError = RequestError(
    message: string,
    code: Option<string>,
    config: Option<RequestConfig>,
    response: Option<ErrorResponse>)

  /** A pending `setTimeout(() => requestMetricsMap.delete(requestId), 30000)`. */
  datatype CleanupTimer = CleanupTimer(requestId: string, due: real)

  /** What an interceptor hands back to the client: the value passed on, or a rejected promise. */
  datatype Settled<T> = Resolved(value: T) | Rejected(error: RequestError)

  /** `Math.round(bytes / 1024)`: the nearest whole number of kilobytes, halves rounded up. */
  function RoundKb(bytes: int): (kb: int)
    ensures kb * 1024 - 512 <= bytes < kb * 1024 + 512
  {
    (bytes + 512) / 1024
  }

  /**
   * `getResponseSize`: the `content-length` header, when it is a non-empty
   * string, parsed and rounded to kilobytes; otherwise the length of the
   * serialized body, rounded to kilobytes.
   */
  function GetResponseSize(headers: map<string, string>, serializedBytes: nat): (r: ResponseSize)
    // no usable header: the body's size, to the nearest kilobyte
    ensures "content-length" !in headers || headers["content-length"] == "" ==>
              r.SizeKb? && r.kb * 1024 - 512 <= serializedBytes < r.kb * 1024 + 512
    // a header: NaN exactly when it holds no number, else that number to the nearest kilobyte
    ensures "content-length" in headers && headers["content-length"] != "" ==>
              && (r.SizeNaN? <==> Strings.ParseInt(headers["content-length"]).None?)
              && (r.SizeKb? ==> var n := Strings.ParseInt(headers["content-length"]).value;
                                r.kb * 1024 - 512 <= n < r.kb * 1024 + 512)
  {
    if "content-length" in headers && headers["content-length"] != "" then
      match Strings.ParseInt(headers["content-length"])
      case Some(n) => SizeKb(RoundKb(n))
      case None => SizeNaN
    else
      SizeKb(RoundKb(serializedBytes))
  }

  /** A numeric `content-length` of `n >= 0` bytes gives `(n + 512) div 1024` kilobytes. */
  lemma ResponseSizeOfDecimalLength(headers: map<string, string>, serializedBytes: nat, n: nat)
    requires "content-length" in headers && headers["content-length"] == Strings.IntToString(n)
    ensures GetResponseSize(headers, serializedBytes) == SizeKb((n + 512) / 1024)
  {
    Strings.ParseIntOfIntToString(n);
  }

  /** `isResponseCached`: a cache-hit marker from the CDN or proxy, or any `age` header. */
  predicate IsResponseCached(headers: map<string, string>) {
    || ("x-cache" in headers && headers["x-cache"] == "HIT")
    || ("cf-cache-status" in headers && headers["cf-cache-status"] == "HIT")
    || "age" in headers
  }

  /** The headers the cache test looks at. */
  const CacheMarkers: set<string> := {"x-cache", "cf-cache-status", "age"}

  /** Each marker alone makes a response cached: an `age` header whatever its value, or a HIT. */
  lemma EachMarkerMeansCached(headers: map<string, string>, age: string)
    ensures IsResponseCached(map["age" := age])
    ensures IsResponseCached(map["x-cache" := "HIT"]) && IsResponseCached(map["cf-cache-status" := "HIT"])
    ensures "age" in headers ==> IsResponseCached(headers)
  {
  }

  /** Without any marker, or with markers other than HIT and no `age`, a response is not cached. */
  lemma NoMarkerNotCached(headers: map<string, string>)
    requires "age" !in headers
    requires "x-cache" in headers ==> headers["x-cache"] != "HIT"
    requires "cf-cache-status" in headers ==> headers["cf-cache-status"] != "HIT"
    ensures !IsResponseCached(headers)
  {
  }

  /** The answer depends on the three marker headers only. */
  lemma {:induction false} CachedDependsOnMarkersOnly(headers: map<string, string>, headers': map<string, string>)
    requires forall k :: k in CacheMarkers ==> (k in headers <==> k in headers') && (k in headers ==> headers[k] == headers'[k])
    ensures IsResponseCached(headers) == IsResponseCached(headers')
  {
    assert "x-cache" in CacheMarkers && "cf-cache-status" in CacheMarkers && "age" in CacheMarkers;
  }

  /** The id the request interceptor wrote into the headers, if any. */
  function RequestIdOf(config: Option<RequestConfig>): Option<string> {
    if config.Some? && config.value.headers.Some? && "X-Request-ID" in config.value.headers.value
    then Some(config.value.headers.value["X-Request-ID"])
    else None
  }

  /** `x || 'unknown'`. */
  function OrUnknown(x: Option<string>): (r: string)
    ensures x.Some? && x.value != "" ==> r == x.value
    ensures x.None? || x.value == "" ==> r == "unknown"
  {
    if x.Some? && x.value != "" then x.value else "unknown"
  }

  /** How a template literal prints an optional string: `undefined` when absent. */
  function OrUndefined(x: Option<string>): string {
    if x.Some? then x.value else "undefined"
  }

  function HeadersValue(h: Option<map<string, string>>): JsValue {
    if h.None? then JUndefined else JObj(map k | k in h.value :: JStr(h.value[k]))
  }

  function SizeValue(s: ResponseSize): JsValue {
    match s
    case SizeKb(kb) => JNum(kb as real)
    case SizeNaN => JNaN
  }

  /** A timing entry as the breadcrumb data shows it. */
  function MetricsValue(m: RequestMetrics): JsValue {
    JObj(map[
      "startTime" := JNum(m.startTime),
      "endTime" := OptNum(m.endTime),
      "duration" := OptNum(m.duration),
      "size" := if m.size.Some? then SizeValue(m.size.value) else JUndefined,
      "status" := if m.status.Some? then JNum(m.status.value as real) else JUndefined,
      "cached" := OptBool(m.cached)])
  }

  /** A new entry: only the start time is known. */
  function Started(now: real): RequestMetrics {
    RequestMetrics(now, None, None, None, None, None)
  }

  /** The entry after a successful response at time `now`. */
  function CompletedOk(m: RequestMetrics, resp: Response, now: real): (r: RequestMetrics)
    ensures r.startTime == m.startTime && r.endTime == Some(now)
    ensures r.duration == Some(now - m.startTime)
    ensures r.size == Some(GetResponseSize(resp.headers, resp.serializedBytes))
    ensures r.status == Some(resp.status) && r.cached == Some(IsResponseCached(resp.headers))
  {
    m.(endTime := Some(now), duration := Some(now - m.startTime),
       size := Some(GetResponseSize(resp.headers, resp.serializedBytes)),
       status := Some(resp.status), cached := Some(IsResponseCached(resp.headers)))
  }

  /** The entry after a failed request at time `now`: size and cached stay unset. */
  function CompletedWithError(m: RequestMetrics, err: RequestError, now: real): (r: RequestMetrics)
    ensures r.startTime == m.startTime && r.endTime == Some(now)
    ensures r.duration == Some(now - m.startTime)
    ensures r.status == (if err.response.Some? then Some(err.response.value.status) else None)
    ensures r.size == m.size && r.cached == m.cached
  {
    m.(endTime := Some(now), duration := Some(now - m.startTime),
       status := if err.response.Some? then Some(err.response.value.status) else None)
  }

  /** The configuration the request interceptor passes on: the id added to existing headers. */
  function WithRequestId(config: RequestConfig, requestId: string): (r: RequestConfig)
    ensures config.headers.Some? ==> r.headers == Some(config.headers.value["X-Request-ID" := requestId])
    ensures config.headers.None? ==> r.headers == None
    ensures r.httpMethod == config.httpMethod && r.url == config.url
    ensures r.params == config.params && r.data == config.data
  {
    if config.headers.Some? then config.(headers := Some(config.headers.value["X-Request-ID" := requestId]))
    else config
  }

  function RequestStartMessage(config: RequestConfig): string {
    var m := if config.httpMethod.Some? then Some(Strings.ToUpper(config.httpMethod.value)) else None;
    "Starting " + OrUndefined(m) + " request to " + OrUndefined(config.url)
  }

  function RequestStartData(requestId: string, config: RequestConfig): Record {
    map[
      "requestId" := JStr(requestId),
      "method" := OptStr(config.httpMethod),
      "url" := OptStr(config.url),
      "headers" := HeadersValue(config.headers),
      "params" := config.params,
      "requestData" := config.data]
  }

  function ResponseData(requestId: string, m: RequestMetrics, resp: Response): Record {
    map[
      "requestId" := JStr(requestId),
      "metrics" := MetricsValue(m),
      "headers" := HeadersValue(Some(resp.headers)),
      "responseData" := resp.data]
  }

  function FailureData(requestId: string, m: RequestMetrics, err: RequestError): Record {
    var r := err.response;
    map[
      "requestId" := JStr(requestId),
      "metrics" := MetricsValue(m),
      "error" := JObj(map[
        "message" := JStr(err.message),
        "code" := OptStr(err.code),
        "status" := if r.Some? then JNum(r.value.status as real) else JUndefined,
        "statusText" := if r.Some? then JStr(r.value.statusText) else JUndefined]),
      "response" := if r.Some? then r.value.data else JUndefined,
      "headers" := if r.Some? then HeadersValue(Some(r.value.headers)) else JUndefined]
  }

  /** The ids whose cleanup is due at `now`. */
  function DueIds(timers: seq<CleanupTimer>, now: real): (ids: set<string>)
    ensures forall id :: id in ids <==> exists t :: t in timers && t.requestId == id && t.due <= now
  {
    set t | t in timers && t.due <= now :: t.requestId
  }

  /** Every completed entry of `metrics` has its cleanup timer in `timers`. */
  ghost predicate Scheduled(metrics: map<string, RequestMetrics>, timers: seq<CleanupTimer>) {
    forall id :: id in metrics && metrics[id].endTime.Some? ==>
      CleanupTimer(id, metrics[id].endTime.value + CleanupDelay) in timers
  }

  /** Completing an entry and scheduling its timer keeps every completed entry scheduled. */
  lemma ScheduledAfterResponse(metrics: map<string, RequestMetrics>, timers: seq<CleanupTimer>,
                               id: string, m: RequestMetrics)
    requires Scheduled(metrics, timers) && m.endTime.Some?
    ensures Scheduled(metrics[id := m], timers + [CleanupTimer(id, m.endTime.value + CleanupDelay)])
  {
  }

  /** The interceptors with the module-level table and the registered error tracker. */
  class MetricsInterceptor {
    /** The tracker `initializeAxiosInstance` registered; `null` means breadcrumbs are skipped. */
    const tracker: ET.ErrorTracker?
    var requestMetrics: map<string, RequestMetrics>
    var timers: seq<CleanupTimer>

    /**
     * Every completed entry still in the table has its cleanup timer pending,
     * due `CleanupDelay` after the entry's end time.
     */
    ghost predicate Valid()
      reads this
    {
      Scheduled(requestMetrics, timers)
    }

    constructor (tracker: ET.ErrorTracker?)
      ensures Valid()
      ensures this.tracker == tracker && requestMetrics == map[] && timers == []
    {
      this.tracker := tracker;
      requestMetrics := map[];
      timers := [];
    }

    /**
     * Request interceptor: write the fresh id into the headers, add exactly one
     * entry under it holding only the start time, and record one breadcrumb.
     */
    method OnRequest(config: RequestConfig, requestId: string, now: real, si: ET.SystemInfo)
      returns (out: Settled<RequestConfig>)
      requires Valid()
      modifies this, tracker
      ensures Valid()
      ensures out == Resolved(WithRequestId(config, requestId))
      ensures requestMetrics == old(requestMetrics)[requestId := Started(now)]
      ensures forall k :: k != requestId ==> (k in requestMetrics <==> k in old(requestMetrics))
      ensures forall k :: k != requestId && k in requestMetrics ==> requestMetrics[k] == old(requestMetrics)[k]
      ensures timers == old(timers)
      ensures tracker != null ==> tracker.events == old(tracker.events) + [ET.BreadcrumbAdded(ET.MakeBreadcrumb(
                RequestStartMessage(config), Some("network"), Some(ET.Info),
                Some(RequestStartData(requestId, WithRequestId(config, requestId))), si))]
    {
      var sent := WithRequestId(config, requestId);
      requestMetrics := requestMetrics[requestId := Started(now)];
      if tracker != null {
        tracker.AddBreadcrumb(RequestStartMessage(config), Some("network"), Some(ET.Info),
                              Some(RequestStartData(requestId, sent)), si);
      }
      out := Resolved(sent);
    }

    /** Request-error interceptor: one error breadcrumb, then the rejection; the table is untouched. */
    method OnRequestError(err: RequestError, configValue: JsValue, si: ET.SystemInfo)
      returns (out: Settled<RequestConfig>)
      modifies tracker
      ensures out == Rejected(err)
      ensures tracker != null ==> tracker.events == old(tracker.events) + [ET.BreadcrumbAdded(ET.MakeBreadcrumb(
                "Request configuration error", Some("network"), Some(ET.Error),
                Some(map["error" := JStr(err.message), "config" := configValue]), si))]
    {
      if tracker != null {
        tracker.AddBreadcrumb("Request configuration error", Some("network"), Some(ET.Error),
                              Some(map["error" := JStr(err.message), "config" := configValue]), si);
      }
      out := Rejected(err);
    }

    /**
     * Response interceptor: for a known id, complete the entry, record a network
     * breadcrumb and schedule the entry's deletion `CleanupDelay` later; for an
     * unknown id, do nothing. The response is passed on in both cases.
     */
    method OnResponse(resp: Response, now: real, si: ET.SystemInfo) returns (out: Settled<Response>)
      requires Valid()
      modifies this, tracker
      ensures Valid()
      ensures out == Resolved(resp)
      ensures var id := RequestIdOf(Some(resp.config));
              if id.Some? && id.value in old(requestMetrics) then
                && requestMetrics == old(requestMetrics)[id.value := CompletedOk(old(requestMetrics)[id.value], resp, now)]
                && timers == old(timers) + [CleanupTimer(id.value, now + CleanupDelay)]
                && (tracker != null ==> tracker.events == old(tracker.events) + [ET.BreadcrumbAdded(ET.MakeBreadcrumb(
                      ET.NetworkMessage(OrUnknown(resp.config.httpMethod), OrUnknown(resp.config.url)),
                      Some("network"), Some(ET.NetworkLevel(Some(resp.status))),
                      Some(ET.NetworkData(
                        Some(ResponseData(id.value, CompletedOk(old(requestMetrics)[id.value], resp, now), resp)),
                        OrUnknown(resp.config.httpMethod), OrUnknown(resp.config.url), Some(resp.status))),
                      si))])
              else
                && requestMetrics == old(requestMetrics) && timers == old(timers)
                && (tracker != null ==> tracker.events == old(tracker.events))
    {
      var id := RequestIdOf(Some(resp.config));
      if id.Some? && id.value in requestMetrics {
        var metrics := CompletedOk(requestMetrics[id.value], resp, now);
        requestMetrics := requestMetrics[id.value := metrics];
        if tracker != null {
          tracker.AddNetworkBreadcrumb(OrUnknown(resp.config.httpMethod), OrUnknown(resp.config.url),
                                       Some(resp.status), Some(ResponseData(id.value, metrics, resp)), si);
        }
        timers := timers + [CleanupTimer(id.value, now + CleanupDelay)];
        ScheduledAfterResponse(old(requestMetrics), old(timers), id.value, metrics);
      }
      out := Resolved(resp);
    }

    /**
     * Response-error interceptor: for a known id, complete the entry, record one
     * error breadcrumb and delete the entry at once. The error is always rejected.
     */
    method OnResponseError(err: RequestError, now: real, si: ET.SystemInfo) returns (out: Settled<Response>)
      requires Valid()
      modifies this, tracker
      ensures Valid()
      ensures out == Rejected(err)
      ensures timers == old(timers)
      ensures var id := RequestIdOf(err.config);
              if id.Some? && id.value in old(requestMetrics) then
                && requestMetrics == old(requestMetrics) - {id.value}
                && (tracker != null ==> tracker.events == old(tracker.events) + [ET.BreadcrumbAdded(ET.MakeBreadcrumb(
                      "Network request failed: " + err.message, Some("network"), Some(ET.Error),
                      Some(FailureData(id.value, CompletedWithError(old(requestMetrics)[id.value], err, now), err)),
                      si))])
              else
                && requestMetrics == old(requestMetrics)
                && (tracker != null ==> tracker.events == old(tracker.events))
    {
      var id := RequestIdOf(err.config);
      if id.Some? && id.value in requestMetrics {
        var metrics := CompletedWithError(requestMetrics[id.value], err, now);
        if tracker != null {
          tracker.AddBreadcrumb("Network request failed: " + err.message, Some("network"), Some(ET.Error),
                                Some(FailureData(id.value, metrics, err)), si);
        }
        requestMetrics := requestMetrics - {id.value};
      }
      out := Rejected(err);
    }

    /**
     * The event loop reaching time `now`: every cleanup timer due by then fires
     * and deletes its entry; the others stay pending, in order.
     */
    method Tick(now: real)
      requires Valid()
      modifies this
      ensures Valid()
      ensures requestMetrics == old(requestMetrics) - DueIds(old(timers), now)
      ensures timers == Filtered(old(timers), now)
      ensures forall t :: t in timers ==> t.due > now
      ensures forall t :: t in old(timers) && t.due <= now ==> t.requestId !in requestMetrics
      ensures forall id :: id in requestMetrics && requestMetrics[id].endTime.Some? ==>
                requestMetrics[id].endTime.value + CleanupDelay > now
    {
      FilteredSpec(timers, now);
      requestMetrics := requestMetrics - DueIds(timers, now);
      timers := Filtered(timers, now);
    }
  }

  /** A timer not yet due at time `now`. */
  function Pending(now: real): CleanupTimer -> bool {
    (t: CleanupTimer) => t.due > now
  }

  /** The timers still pending after time `now`, in their order. */
  function Filtered(timers: seq<CleanupTimer>, now: real): seq<CleanupTimer> {
    Seqs.Filter(timers, Pending(now))
  }

  /** Exactly the timers not yet due stay pending, each as often as before, in their order. */
  lemma FilteredSpec(timers: seq<CleanupTimer>, now: real)
    ensures forall t :: t in Filtered(timers, now) <==> t in timers && t.due > now
    ensures forall t: CleanupTimer :: t.due > now ==> multiset(Filtered(timers, now))[t] == multiset(timers)[t]
    ensures Seqs.IsSubsequence(Filtered(timers, now), timers)
  {
    forall t: CleanupTimer | t.due > now
      ensures multiset(Filtered(timers, now))[t] == multiset(timers)[t]
      ensures t in timers ==> t in Filtered(timers, now)
    {
      Seqs.FilterKeepsMatching(timers, Pending(now), t);
    }
    Seqs.FilterIsSubsequence(timers, Pending(now));
  }
}
