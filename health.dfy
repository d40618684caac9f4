/**
 * The backend health check: the outcome of one component check, the
 * aggregation of component statuses into an overall status, the health
 * report of the system component, and the 30-second bucket cache in front
 * of it (a cache of a single slot).
 *
 * Clock readings, the resource probe and the outcome of a check function
 * are parameters: they are what the process environment supplies.
 */
module Health {
  import opened Wrappers

  const CacheTtl: int := 30          // seconds
  const ComponentTimeout: real := 5.0 // seconds

  const TimedOutMessage := "Component check timed out"

  datatype Status = Healthy | Degraded | Unhealthy

  /** The wire spelling of a status. */
  function StatusName(s: Status): string {
    match s
    case Healthy => "healthy"
    case Degraded => "degraded"
    case Unhealthy => "unhealthy"
  }

  /** Resource readings or other check details, by name. */
  type Details = map<string, real>

  datatype ComponentStatus = ComponentStatus(
    status: Status,
    latencyMs: real,
    lastChecked: real,
    details: Option<Details>,
    error: Option<string>)

  /**
   * How a check function ends: with its result, or by raising an exception
   * whose `str` is `message`. `isTimeoutError` marks a `TimeoutError` (which
   * `asyncio.TimeoutError` is): the handler for the time limit catches it
   * too, whatever raised it.
   */
  datatype CheckOutcome =
    | Returns(result: Option<Details>)
    | Raises(message: string, isTimeoutError: bool)

  /**
   * One run of a check function: whether it is a coroutine function, how it
   * ends, and how many seconds it takes to end.
   */
  datatype CheckRun = CheckRun(isCoroutine: bool, outcome: CheckOutcome, seconds: real)

  /** Whether `wait_for` gives up on the run: only coroutine checks are time-limited. */
  predicate TimesOut(run: CheckRun) {
    run.isCoroutine && run.seconds > ComponentTimeout
  }

  /** `check_component`, with `now` the time of the `last_checked` reading. */
  function CheckComponent(run: CheckRun, now: real): (c: ComponentStatus)
    ensures c.lastChecked == now
    ensures c.status == Healthy <==> !TimesOut(run) && run.outcome.Returns?
    ensures c.status != Healthy ==> c.status == Unhealthy && c.details.None? && c.error.Some?
    ensures c.status == Healthy ==> c.details == run.outcome.result && c.latencyMs == run.seconds * 1000.0 && c.error.None?
    ensures TimesOut(run) || (run.outcome.Raises? && run.outcome.isTimeoutError) ==>
              c.status == Unhealthy && c.latencyMs == 5000.0 && c.error == Some(TimedOutMessage)
    ensures !TimesOut(run) && run.outcome.Raises? && !run.outcome.isTimeoutError ==>
              c.error == Some(run.outcome.message) && c.latencyMs == run.seconds * 1000.0
  {
    if TimesOut(run) || (run.outcome.Raises? && run.outcome.isTimeoutError) then
      ComponentStatus(Unhealthy, ComponentTimeout * 1000.0, now, None, Some(TimedOutMessage))
    else
      match run.outcome
      case Returns(result) => ComponentStatus(Healthy, run.seconds * 1000.0, now, result, None)
      case Raises(message, _) => ComponentStatus(Unhealthy, run.seconds * 1000.0, now, None, Some(message))
  }

  /** A synchronous check is never cut short: its result is reported however long it takes. */
  lemma SynchronousChecksAreNotTimeLimited(outcome: CheckOutcome, seconds: real, now: real)
    requires outcome.Returns?
    ensures CheckComponent(CheckRun(false, outcome, seconds), now).status == Healthy
    ensures CheckComponent(CheckRun(false, outcome, seconds), now).latencyMs == seconds * 1000.0
  {
  }

  /**
   * A coroutine check that finishes within the time limit is reported
   * healthy with a latency of at most the limit.
   */
  lemma CoroutineLatencyBounded(outcome: CheckOutcome, seconds: real, now: real)
    requires outcome.Returns? && seconds <= ComponentTimeout
    ensures CheckComponent(CheckRun(true, outcome, seconds), now).status == Healthy
    ensures CheckComponent(CheckRun(true, outcome, seconds), now).latencyMs <= 5000.0
  {
  }

  predicate AnyWithStatus(components: map<string, ComponentStatus>, s: Status) {
    exists name :: name in components && components[name].status == s
  }

  /** The overall status: the worst status among the components. */
  function Overall(components: map<string, ComponentStatus>): (r: Status)
    ensures r == Unhealthy <==> AnyWithStatus(components, Unhealthy)
    ensures r == Degraded <==> !AnyWithStatus(components, Unhealthy) && AnyWithStatus(components, Degraded)
    ensures r == Healthy <==> !AnyWithStatus(components, Unhealthy) && !AnyWithStatus(components, Degraded)
  {
    if AnyWithStatus(components, Unhealthy) then Unhealthy
    else if AnyWithStatus(components, Degraded) then Degraded
    else Healthy
  }

  /** The worst-status rule in rank form: no component is worse than the overall status, and one reaches it. */
  function Severity(s: Status): nat {
    match s
    case Healthy => 0
    case Degraded => 1
    case Unhealthy => 2
  }

  lemma OverallIsWorstComponent(components: map<string, ComponentStatus>)
    ensures forall name :: name in components ==> Severity(components[name].status) <= Severity(Overall(components))
    ensures components != map[] ==>
              exists name :: name in components && components[name].status == Overall(components)
  {
    if components != map[] && Overall(components) == Healthy {
      var name :| name in components;
      assert components[name].status == Healthy;
    }
  }

  /** The outcome of `check_system_resources`: the readings, or the `str` of what it raised. */
  datatype ResourceProbe = Resources(readings: Details) | ProbeFailed(message: string)

  datatype HealthStatus = HealthStatus(
    status: Status,
    version: string,
    environment: string,
    timestamp: real,
    uptimeSeconds: real,
    components: map<string, ComponentStatus>)

  /**
   * What `_get_health` reads from its environment: the settings, the
   * resource probe, the three clock readings and the process start time.
   */
  datatype HealthInputs = HealthInputs(
    version: string,
    environment: string,
    probe: ResourceProbe,
    checkedAt: real,
    reportedAt: real,
    clock: real,
    startTime: real)

  /** The system component of the report. */
  function SystemComponent(probe: ResourceProbe, checkedAt: real): (c: ComponentStatus)
    ensures c.latencyMs == 0.0 && c.lastChecked == checkedAt
    ensures probe.Resources? ==> c.status == Healthy && c.details == Some(probe.readings) && c.error.None?
    ensures probe.ProbeFailed? ==> c.status == Degraded && c.details.None? && c.error == Some(probe.message)
  {
    match probe
    case Resources(readings) => ComponentStatus(Healthy, 0.0, checkedAt, Some(readings), None)
    case ProbeFailed(message) => ComponentStatus(Degraded, 0.0, checkedAt, None, Some(message))
  }

  /** `_get_health`. */
  function GetHealth(inputs: HealthInputs): (h: HealthStatus)
    ensures h.components.Keys == {"system"}
    ensures h.components["system"] == SystemComponent(inputs.probe, inputs.checkedAt)
    ensures h.status == Overall(h.components)
    ensures h.version == inputs.version && h.environment == inputs.environment
    ensures h.timestamp == inputs.reportedAt && h.uptimeSeconds == inputs.clock - inputs.startTime
  {
    var components := map["system" := SystemComponent(inputs.probe, inputs.checkedAt)];
    HealthStatus(Overall(components), inputs.version, inputs.environment,
                 inputs.reportedAt, inputs.clock - inputs.startTime, components)
  }

  /** The report is healthy exactly when the probe succeeds, degraded otherwise, and never unhealthy. */
  lemma GetHealthNeverUnhealthy(inputs: HealthInputs)
    ensures GetHealth(inputs).status != Unhealthy
    ensures GetHealth(inputs).status == Healthy <==> inputs.probe.Resources?
    ensures GetHealth(inputs).status == Degraded <==> inputs.probe.ProbeFailed?
  {
    var h := GetHealth(inputs);
    assert h.components["system"].status == (if inputs.probe.Resources? then Healthy else Degraded);
    if inputs.probe.Resources? {
      assert !AnyWithStatus(h.components, Degraded);
    } else {
      assert AnyWithStatus(h.components, Degraded);
    }
  }

  /** Python `int()` of a float: truncation toward zero. */
  function Trunc(x: real): (r: int)
    ensures x >= 0.0 ==> r as real <= x < r as real + 1.0
    ensures x < 0.0 ==> r as real - 1.0 < x <= r as real
  {
    if x >= 0.0 then x.Floor else -((-x).Floor)
  }

  /** The bucket key of `get_health_status` for the clock reading `t`. */
  function CacheKey(t: real): (k: int)
    ensures t >= 0.0 ==> k >= 0 && (k * CacheTtl) as real <= t < ((k + 1) * CacheTtl) as real
  {
    Trunc(t / CacheTtl as real)
  }

  /** Readings in the same 30-second window share a key; a reading a window later gets the next key. */
  lemma CacheKeyWindows(t: real, u: real)
    requires t >= 0.0
    ensures CacheKey(t + CacheTtl as real) == CacheKey(t) + 1
    ensures u >= 0.0 && (CacheKey(t) * CacheTtl) as real <= u < ((CacheKey(t) + 1) * CacheTtl) as real ==>
              CacheKey(u) == CacheKey(t)
  {
    var k := CacheKey(t);
    var k' := CacheKey(t + CacheTtl as real);
    assert (k' * 30) as real <= t + 30.0 < ((k' + 1) * 30) as real;
    assert k' - 1 <= k <= k' - 1;
    if u >= 0.0 && (k * 30) as real <= u < ((k + 1) * 30) as real {
      var j := CacheKey(u);
      assert j <= k <= j;
    }
  }

  datatype CacheSlot = CacheSlot(ttlHash: int, health: HealthStatus)

  /** `get_cached_health` behind `lru_cache(maxsize=1)`: one remembered argument and its result. */
  class HealthCache {
    var slot: Option<CacheSlot>

    constructor ()
      ensures slot.None?
    {
      slot := None;
    }

    /** A hit returns the remembered report untouched; a miss computes one and replaces the slot. */
    method GetCachedHealth(ttlHash: int, inputs: HealthInputs) returns (h: HealthStatus)
      modifies this
      ensures old(slot).Some? && old(slot).value.ttlHash == ttlHash ==>
                h == old(slot).value.health && slot == old(slot)
      ensures !(old(slot).Some? && old(slot).value.ttlHash == ttlHash) ==>
                h == GetHealth(inputs) && slot == Some(CacheSlot(ttlHash, h))
    {
      if slot.Some? && slot.value.ttlHash == ttlHash {
        h := slot.value.health;
      } else {
        h := GetHealth(inputs);
        slot := Some(CacheSlot(ttlHash, h));
      }
    }

    /** `get_health_status`: the cached report for the bucket of the clock reading `now`. */
    method GetHealthStatus(now: real, inputs: HealthInputs) returns (h: HealthStatus)
      modifies this
      ensures old(slot).Some? && old(slot).value.ttlHash == CacheKey(now) ==>
                h == old(slot).value.health && slot == old(slot)
      ensures !(old(slot).Some? && old(slot).value.ttlHash == CacheKey(now)) ==>
                h == GetHealth(inputs) && slot == Some(CacheSlot(CacheKey(now), h))
    {
      h := GetCachedHealth(CacheKey(now), inputs);
    }
  }

  /** Two calls within one 30-second window: the second returns the first's report, whatever it would read. */
  method CallsInOneWindow(cache: HealthCache, t: real, u: real, first: HealthInputs, second: HealthInputs)
    returns (h1: HealthStatus, h2: HealthStatus)
    requires CacheKey(u) == CacheKey(t)
    modifies cache
    ensures h2 == h1
    ensures cache.slot == Some(CacheSlot(CacheKey(t), h1))
  {
    h1 := cache.GetHealthStatus(t, first);
    h2 := cache.GetHealthStatus(u, second);
  }
}
