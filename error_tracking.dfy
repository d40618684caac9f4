/**
 * The error-tracking hook: breadcrumbs, error capture, flow brackets, user
 * interactions and network breadcrumbs, all sent to the error-tracking
 * sink. The sink is an append-only event log; every read of the clock and
 * of the browser (`getSystemInfo`) is a `SystemInfo` parameter, one per
 * call the source makes.
 */
module ErrorTracking {
  import opened Wrappers
  import opened JsValues
  import Seqs
  import Strings

  /** Sentry's severity levels. */
  datatype Level = Fatal | Error | Warning | Log | Info | Debug

  /** One reading of `getSystemInfo()`. */
  datatype SystemInfo = SystemInfo(
    timestamp: real,
    url: string,
    userAgent: string,
    screenSize: string,
    memory: Option<string>)

  datatype Breadcrumb = Breadcrumb(
    message: string,
    category: string,
    level: Level,
    data: Record,
    timestamp: real)

  /** An `Error` object: its name, message and (possibly missing) stack. */
  datatype JsError = JsError(name: string, message: string, stack: Option<string>)

  /** A resource timing entry of the Performance API. */
  datatype ResourceTiming = ResourceTiming(name: string, duration: real, startTime: real, initiatorType: string)

  /** What the sink receives, in order. */
  datatype SinkEvent =
    | BreadcrumbAdded(crumb: Breadcrumb)
    | ExceptionCaptured(error: JsError, level: Level, extra: Record)

  function SystemInfoValue(si: SystemInfo): (v: JsValue)
    ensures v.JObj? && "timestamp" in v.fields && v.fields["timestamp"] == JNum(si.timestamp)
    ensures "memory" in v.fields <==> si.memory.Some?
  {
    var base := map[
      "timestamp" := JNum(si.timestamp),
      "url" := JStr(si.url),
      "userAgent" := JStr(si.userAgent),
      "screenSize" := JStr(si.screenSize)];
    JObj(if si.memory.Some? then base["memory" := JStr(si.memory.value)] else base)
  }

  /** `{ ...data, systemInfo }`: the snapshot always replaces a caller's `systemInfo`. */
  function BreadcrumbData(data: Option<Record>, si: SystemInfo): (r: Record)
    ensures "systemInfo" in r && r["systemInfo"] == SystemInfoValue(si)
    ensures forall k :: k != "systemInfo" ==> (k in r <==> k in Spread(data))
    ensures forall k :: k != "systemInfo" && k in r ==> r[k] == Spread(data)[k]
  {
    Override(Spread(data), map["systemInfo" := SystemInfoValue(si)])
  }

  /**
   * The breadcrumb `addBreadcrumb` records: category defaults to "app", level
   * to info, and the timestamp is that of the snapshot embedded in the data.
   */
  function MakeBreadcrumb(
    message: string, category: Option<string>, level: Option<Level>, data: Option<Record>, si: SystemInfo
  ): (b: Breadcrumb)
    ensures b.message == message
    ensures category.None? ==> b.category == "app"
    ensures category.Some? ==> b.category == category.value
    ensures level.None? ==> b.level == Info
    ensures level.Some? ==> b.level == level.value
    ensures b.data == BreadcrumbData(data, si)
    ensures "systemInfo" in b.data && b.data["systemInfo"].JObj?
    ensures b.data["systemInfo"].fields["timestamp"] == JNum(b.timestamp)
  {
    Breadcrumb(message, category.GetOr("app"), level.GetOr(Info), BreadcrumbData(data, si), si.timestamp)
  }

  predicate IsNetworkResource(r: ResourceTiming) {
    r.initiatorType == "fetch" || r.initiatorType == "xmlhttprequest"
  }

  /** The resource entries `captureError` keeps. */
  function KeptResources(entries: seq<ResourceTiming>): seq<ResourceTiming> {
    Seqs.Filter(entries, IsNetworkResource)
  }

  /** Exactly the fetch and XMLHttpRequest entries are kept, each as often as it occurs, in order. */
  lemma KeptResourcesSpec(entries: seq<ResourceTiming>)
    ensures forall r :: r in KeptResources(entries) ==> IsNetworkResource(r)
    ensures forall r :: r in entries && IsNetworkResource(r) ==>
              multiset(KeptResources(entries))[r] == multiset(entries)[r]
    ensures Seqs.IsSubsequence(KeptResources(entries), entries)
  {
    forall r | r in entries && IsNetworkResource(r)
      ensures multiset(KeptResources(entries))[r] == multiset(entries)[r]
    {
      Seqs.FilterKeepsMatching(entries, IsNetworkResource, r);
    }
    Seqs.FilterIsSubsequence(entries, IsNetworkResource);
  }

  function ResourceValue(r: ResourceTiming): JsValue {
    JObj(map[
      "name" := JStr(r.name),
      "duration" := JNum(r.duration),
      "startTime" := JNum(r.startTime),
      "initiatorType" := JStr(r.initiatorType)])
  }

  /** The `resources` array: one `{name, duration, startTime, initiatorType}` per entry, in order. */
  function ResourcesValue(rs: seq<ResourceTiming>): (v: JsValue)
    ensures v.JArr? && |v.items| == |rs|
    ensures forall i :: 0 <= i < |rs| ==> v.items[i] == ResourceValue(rs[i])
  {
    JArr(seq(|rs|, i requires 0 <= i < |rs| => ResourceValue(rs[i])))
  }

  function ErrorValue(e: JsError): JsValue {
    JObj(map["name" := JStr(e.name), "message" := JStr(e.message), "stack" := OptStr(e.stack)])
  }

  /**
   * The context `captureError` builds: the caller's keys, then `error`,
   * `systemInfo` and `performance`, which replace same-named caller keys.
   * `navigation` is the first navigation entry (`undefined` when there is none).
   */
  function ErrorContext(
    context: Option<Record>, e: JsError, si: SystemInfo, navigation: JsValue, resources: seq<ResourceTiming>
  ): (r: Record)
    ensures "error" in r && r["error"] == ErrorValue(e)
    ensures "systemInfo" in r && r["systemInfo"] == SystemInfoValue(si)
    ensures "performance" in r
    ensures r["performance"] == JObj(map[
              "navigation" := navigation,
              "resources" := ResourcesValue(KeptResources(resources))])
    ensures forall k :: k !in {"error", "systemInfo", "performance"} ==>
              (k in r <==> k in Spread(context)) && (k in r ==> r[k] == Spread(context)[k])
  {
    var perf := JObj(map[
      "navigation" := navigation,
      "resources" := ResourcesValue(KeptResources(resources))]);
    Override(Spread(context), map["error" := ErrorValue(e), "systemInfo" := SystemInfoValue(si), "performance" := perf])
  }

  /** The context `startErrorFlow` returns: the caller's keys plus `flowStart` and `systemInfo`. */
  function FlowStartContext(context: Option<Record>, si: SystemInfo): (r: Record)
    ensures "flowStart" in r && r["flowStart"] == JNum(si.timestamp)
    ensures "systemInfo" in r && r["systemInfo"] == SystemInfoValue(si)
    ensures forall k :: k !in {"flowStart", "systemInfo"} ==>
              (k in r <==> k in Spread(context)) && (k in r ==> r[k] == Spread(context)[k])
  {
    Override(Spread(context), map["flowStart" := JNum(si.timestamp), "systemInfo" := SystemInfoValue(si)])
  }

  /** `now - flowStart` in JavaScript, for a flowStart that is truthy. */
  function Elapsed(now: real, flowStart: JsValue): JsValue {
    match flowStart
    case JNum(n) => JNum(now - n)
    case JBool(b) => JNum(now - (if b then 1.0 else 0.0))
    case JNull => JNum(now)
    case _ => JNaN
  }

  /** `context?.flowStart ? now - context.flowStart : undefined`. */
  function FlowDuration(context: Option<Record>, now: real): (d: JsValue)
    ensures context.Some? && "flowStart" in context.value && context.value["flowStart"].JNum?
            && context.value["flowStart"].n != 0.0
            ==> d == JNum(now - context.value["flowStart"].n)
    ensures context.None? || "flowStart" !in context.value || !Truthy(context.value["flowStart"])
            ==> d == JUndefined
  {
    if context.Some? && "flowStart" in context.value && Truthy(context.value["flowStart"])
    then Elapsed(now, context.value["flowStart"])
    else JUndefined
  }

  /** A flow closed no earlier than it started has a non-negative duration. */
  lemma FlowDurationNonNegative(context: Record, now: real)
    requires "flowStart" in context && context["flowStart"].JNum?
    requires context["flowStart"].n != 0.0 && context["flowStart"].n <= now
    ensures FlowDuration(Some(context), now).JNum? && FlowDuration(Some(context), now).n >= 0.0
  {
  }

  /** The context `endErrorFlow` returns: the caller's keys plus `flowEnd`, `duration` and `systemInfo`. */
  function FlowEndContext(context: Option<Record>, si: SystemInfo): (r: Record)
    ensures "flowEnd" in r && r["flowEnd"] == JNum(si.timestamp)
    ensures "duration" in r && r["duration"] == FlowDuration(context, si.timestamp)
    ensures "systemInfo" in r && r["systemInfo"] == SystemInfoValue(si)
    ensures forall k :: k !in {"flowEnd", "duration", "systemInfo"} ==>
              (k in r <==> k in Spread(context)) && (k in r ==> r[k] == Spread(context)[k])
  {
    Override(Spread(context), map[
      "flowEnd" := JNum(si.timestamp),
      "duration" := FlowDuration(context, si.timestamp),
      "systemInfo" := SystemInfoValue(si)])
  }

  /** The level of a network breadcrumb: error exactly for a defined, non-zero status of at least 400. */
  function NetworkLevel(status: Option<int>): (l: Level)
    ensures l == Error <==> status.Some? && status.value != 0 && status.value >= 400
    ensures l != Error ==> l == Info
  {
    if status.Some? && status.value != 0 && status.value >= 400 then Error else Info
  }

  /** `{ ...data, httpMethod, url, status }`. */
  function NetworkData(data: Option<Record>, httpMethod: string, url: string, status: Option<int>): (r: Record)
    ensures "method" in r && r["method"] == JStr(httpMethod)
    ensures "url" in r && r["url"] == JStr(url)
    ensures "status" in r && r["status"] == (if status.Some? then JNum(status.value as real) else JUndefined)
    ensures forall k :: k !in {"method", "url", "status"} ==>
              (k in r <==> k in Spread(data)) && (k in r ==> r[k] == Spread(data)[k])
  {
    Override(Spread(data), map[
      "method" := JStr(httpMethod),
      "url" := JStr(url),
      "status" := if status.Some? then JNum(status.value as real) else JUndefined])
  }

  function NetworkMessage(httpMethod: string, url: string): string {
    "Network " + Strings.ToUpper(httpMethod) + ": " + url
  }

  function InteractionMessage(action: string, element: string): string {
    "User interaction: " + action + " on " + element
  }

  /** The hook's operations over the sink's event log. */
  class ErrorTracker {
    var events: seq<SinkEvent>

    constructor ()
      ensures events == []
    {
      events := [];
    }

    /** `addBreadcrumb`: one breadcrumb, stamped with the snapshot `si`. */
    method AddBreadcrumb(
      message: string, category: Option<string>, level: Option<Level>, data: Option<Record>, si: SystemInfo)
      modifies this
      ensures events == old(events) + [BreadcrumbAdded(MakeBreadcrumb(message, category, level, data, si))]
    {
      events := events + [BreadcrumbAdded(MakeBreadcrumb(message, category, level, data, si))];
    }

    /**
     * `captureError`: build the context from the snapshot `si`, record one
     * "Error occurred" breadcrumb (second snapshot `crumbSi`), then one capture
     * of the error with that context; the level defaults to error.
     */
    method CaptureError(
      e: JsError, context: Option<Record>, level: Option<Level>,
      si: SystemInfo, navigation: JsValue, resources: seq<ResourceTiming>, crumbSi: SystemInfo)
      modifies this
      ensures var extra := ErrorContext(context, e, si, navigation, resources);
              events == old(events) + [
                BreadcrumbAdded(MakeBreadcrumb("Error occurred", Some("error"), Some(Error), Some(extra), crumbSi)),
                ExceptionCaptured(e, level.GetOr(Error), extra)]
    {
      var extra := ErrorContext(context, e, si, navigation, resources);
      AddBreadcrumb("Error occurred", Some("error"), Some(Error), Some(extra), crumbSi);
      events := events + [ExceptionCaptured(e, level.GetOr(Error), extra)];
    }

    /** `startErrorFlow`: one "Starting <name>" flow breadcrumb; returns the context carrying `flowStart`. */
    method StartErrorFlow(flowName: string, context: Option<Record>, si: SystemInfo, crumbSi: SystemInfo)
      returns (flowContext: Record)
      modifies this
      ensures flowContext == FlowStartContext(context, si)
      ensures events == old(events) + [BreadcrumbAdded(
                MakeBreadcrumb("Starting " + flowName, Some("flow"), Some(Info), Some(flowContext), crumbSi))]
    {
      flowContext := FlowStartContext(context, si);
      AddBreadcrumb("Starting " + flowName, Some("flow"), Some(Info), Some(flowContext), crumbSi);
    }

    /** `endErrorFlow`: one "Completed <name>" flow breadcrumb; returns the context carrying the duration. */
    method EndErrorFlow(flowName: string, context: Option<Record>, si: SystemInfo, crumbSi: SystemInfo)
      returns (flowContext: Record)
      modifies this
      ensures flowContext == FlowEndContext(context, si)
      ensures events == old(events) + [BreadcrumbAdded(
                MakeBreadcrumb("Completed " + flowName, Some("flow"), Some(Info), Some(flowContext), crumbSi))]
    {
      flowContext := FlowEndContext(context, si);
      AddBreadcrumb("Completed " + flowName, Some("flow"), Some(Info), Some(flowContext), crumbSi);
    }

    /** `addUserInteraction`: one interaction breadcrumb at level info. */
    method AddUserInteraction(action: string, element: string, data: Option<Record>, si: SystemInfo)
      modifies this
      ensures events == old(events) + [BreadcrumbAdded(
                MakeBreadcrumb(InteractionMessage(action, element), Some("interaction"), Some(Info), data, si))]
    {
      AddBreadcrumb(InteractionMessage(action, element), Some("interaction"), Some(Info), data, si);
    }

    /** `addNetworkBreadcrumb`: one network breadcrumb whose level follows the status. */
    method AddNetworkBreadcrumb(httpMethod: string, url: string, status: Option<int>, data: Option<Record>, si: SystemInfo)
      modifies this
      ensures events == old(events) + [BreadcrumbAdded(MakeBreadcrumb(
                NetworkMessage(httpMethod, url), Some("network"), Some(NetworkLevel(status)),
                Some(NetworkData(data, httpMethod, url, status)), si))]
    {
      AddBreadcrumb(NetworkMessage(httpMethod, url), Some("network"), Some(NetworkLevel(status)),
                    Some(NetworkData(data, httpMethod, url, status)), si);
    }
  }

  /**
   * The context `startErrorFlow` returns carries, as `flowStart`, the timestamp
   * of the breadcrumb it records exactly when the two clock readings agree.
   */
  lemma FlowStartMatchesBreadcrumb(flowName: string, context: Option<Record>, si: SystemInfo, crumbSi: SystemInfo)
    ensures var fc := FlowStartContext(context, si);
            var b := MakeBreadcrumb("Starting " + flowName, Some("flow"), Some(Info), Some(fc), crumbSi);
            (fc["flowStart"] == JNum(b.timestamp) <==> si.timestamp == crumbSi.timestamp)
            && b.data["systemInfo"] == SystemInfoValue(crumbSi)
  {
  }
}
