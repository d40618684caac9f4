/**
 * The web-vitals performance monitor: a threshold classifier for the five
 * web vitals, a table of reported values per metric name, the latest value
 * of each vital, and the cumulative-layout-shift sum over a batch of layout
 * shift entries. Reports to the error-tracking service are an append-only
 * message log.
 */
module Monitoring {
  import opened Wrappers
  import ET = ErrorTracking
  import Seqs

  datatype Rating = Good | NeedsImprovement | Poor

  /** Ratings ordered from best to worst. */
  function Rank(r: Rating): nat {
    match r
    case Good => 0
    case NeedsImprovement => 1
    case Poor => 2
  }

  /** The good and poor thresholds of a known metric. */
  function Thresholds(metric: string): Option<(real, real)> {
    if metric == "FCP" then Some((1800.0, 3000.0))
    else if metric == "LCP" then Some((2500.0, 4000.0))
    else if metric == "FID" then Some((100.0, 300.0))
    else if metric == "CLS" then Some((0.1, 0.25))
    else if metric == "TTFB" then Some((200.0, 500.0))
    else None
  }

  /**
   * `getRating`: good strictly below the first threshold, needs-improvement
   * strictly below the second, poor otherwise; an unknown metric is
   * needs-improvement whatever its value.
   */
  function GetRating(metric: string, value: real): (r: Rating)
    ensures Thresholds(metric).None? ==> r == NeedsImprovement
    ensures Thresholds(metric).Some? ==>
              var (good, poor) := Thresholds(metric).value;
              && (r == Good <==> value < good)
              && (r == Poor <==> value >= poor)
  {
    match Thresholds(metric)
    case None => NeedsImprovement
    case Some((good, poor)) =>
      if value < good then Good else if value < poor then NeedsImprovement else Poor
  }

  /** A larger value never gets a better rating. */
  lemma GetRatingMonotone(metric: string, v1: real, v2: real)
    requires v1 <= v2
    ensures Rank(GetRating(metric, v1)) <= Rank(GetRating(metric, v2))
  {
  }

  /** A value exactly at a threshold falls into the worse bucket. */
  lemma GetRatingAtThresholds(metric: string)
    requires Thresholds(metric).Some?
    ensures GetRating(metric, Thresholds(metric).value.0) != Good
    ensures GetRating(metric, Thresholds(metric).value.1) == Poor
  {
  }

  datatype PerformanceMetric = PerformanceMetric(name: string, value: real, rating: Rating)

  datatype WebVitals = WebVitals(fcp: real, lcp: real, fid: real, cls: real, ttfb: real)

  /** A layout-shift performance entry. */
  datatype LayoutShift = LayoutShift(value: real, hadRecentInput: bool)

  /** A `captureMessage` call: message, level and the extra `{metric, value, rating}`. */
  datatype CapturedMessage = CapturedMessage(message: string, level: ET.Level, metric: string, value: real, rating: Rating)

  /** The layout-shift score of a batch: the sum over the shifts without recent input. */
  function ClsSum(entries: seq<LayoutShift>): real {
    if entries == [] then 0.0
    else ClsSum(entries[..|entries| - 1])
         + (if entries[|entries| - 1].hadRecentInput then 0.0 else entries[|entries| - 1].value)
  }

  /** A shift that counts towards the score. */
  predicate WithoutRecentInput(e: LayoutShift) {
    !e.hadRecentInput
  }

  /**
   * Shifts caused by recent input never add to the score, wherever they sit
   * in the batch: the score is that of the batch with them removed. A batch
   * of such shifts only scores 0; non-negative shifts give a non-negative score.
   */
  lemma {:induction false} ClsSumProperties(entries: seq<LayoutShift>)
    ensures ClsSum(entries) == ClsSum(Seqs.Filter(entries, WithoutRecentInput))
    ensures (forall i :: 0 <= i < |entries| ==> entries[i].hadRecentInput) ==> ClsSum(entries) == 0.0
    ensures (forall i :: 0 <= i < |entries| ==> entries[i].value >= 0.0) ==> ClsSum(entries) >= 0.0
  {
    if entries != [] {
      ClsSumProperties(entries[..|entries| - 1]);
      ClsSumOfFiltered(entries);
    }
  }

  /** One step of the first property: the last shift is kept by the filter exactly when it counts. */
  lemma ClsSumOfFiltered(entries: seq<LayoutShift>)
    requires entries != []
    requires ClsSum(entries[..|entries| - 1]) == ClsSum(Seqs.Filter(entries[..|entries| - 1], WithoutRecentInput))
    ensures ClsSum(entries) == ClsSum(Seqs.Filter(entries, WithoutRecentInput))
  {
    var init, last := entries[..|entries| - 1], entries[|entries| - 1];
    assert entries == init + [last];
    Seqs.FilterOfConcat(init, [last], WithoutRecentInput);
    var kept := Seqs.Filter(init, WithoutRecentInput);
    if last.hadRecentInput {
      assert Seqs.Filter([last], WithoutRecentInput) == [];
      assert kept + [] == kept;
    } else {
      assert Seqs.Filter([last], WithoutRecentInput) == [last];
      assert (kept + [last])[..|kept + [last]| - 1] == kept;
    }
  }

  /** The level a web vital is reported at: warning exactly for a poor rating. */
  function ReportLevel(r: Rating): (l: ET.Level)
    ensures l == ET.Warning <==> r == Poor
    ensures l != ET.Warning ==> l == ET.Info
  {
    if r == Poor then ET.Warning else ET.Info
  }

  /** The table after `addMetric(name, value, rating)`. */
  function WithMetric(metrics: map<string, seq<PerformanceMetric>>, m: PerformanceMetric): (r: map<string, seq<PerformanceMetric>>)
    ensures r.Keys == metrics.Keys + {m.name}
    ensures r[m.name] == (if m.name in metrics then metrics[m.name] else []) + [m]
    ensures forall k :: k in metrics && k != m.name ==> r[k] == metrics[k]
  {
    metrics[m.name := (if m.name in metrics then metrics[m.name] else []) + [m]]
  }

  class PerformanceMonitor {
    var metrics: map<string, seq<PerformanceMetric>>
    var webVitals: WebVitals
    var messages: seq<CapturedMessage>

    constructor ()
      ensures metrics == map[] && webVitals == WebVitals(0.0, 0.0, 0.0, 0.0, 0.0) && messages == []
    {
      metrics := map[];
      webVitals := WebVitals(0.0, 0.0, 0.0, 0.0, 0.0);
      messages := [];
    }

    /** `addMetric`: append to the list of that name, creating it when missing; the other lists are unchanged. */
    method AddMetric(name: string, value: real, rating: Rating)
      modifies this
      ensures metrics == WithMetric(old(metrics), PerformanceMetric(name, value, rating))
      ensures webVitals == old(webVitals) && messages == old(messages)
    {
      if name !in metrics {
        metrics := metrics[name := []];
      }
      metrics := metrics[name := metrics[name] + [PerformanceMetric(name, value, rating)]];
    }

    function GetMetrics(): map<string, seq<PerformanceMetric>>
      reads this
    {
      metrics
    }

    function GetWebVitals(): WebVitals
      reads this
    {
      webVitals
    }

    /** `clearMetrics`: the table is empty afterwards. */
    method ClearMetrics()
      modifies this
      ensures metrics == map[]
      ensures webVitals == old(webVitals) && messages == old(messages)
    {
      metrics := map[];
    }

    /** `reportWebVital`: rate the value, add it to the table, and send one message. */
    method ReportWebVital(metric: string, value: real)
      modifies this
      ensures var rating := GetRating(metric, value);
              && metrics == WithMetric(old(metrics), PerformanceMetric(metric, value, rating))
              && messages == old(messages)
                   + [CapturedMessage("Web Vital: " + metric, ReportLevel(rating), metric, value, rating)]
      ensures webVitals == old(webVitals)
    {
      var rating := GetRating(metric, value);
      AddMetric(metric, value, rating);
      messages := messages + [CapturedMessage("Web Vital: " + metric, ReportLevel(rating), metric, value, rating)];
    }

    /** The layout-shift observer: sum the batch, store it as the CLS vital and report it. */
    method OnLayoutShifts(entries: seq<LayoutShift>)
      modifies this
      ensures webVitals == old(webVitals).(cls := ClsSum(entries))
      ensures var rating := GetRating("CLS", ClsSum(entries));
              && metrics == WithMetric(old(metrics), PerformanceMetric("CLS", ClsSum(entries), rating))
              && messages == old(messages)
                   + [CapturedMessage("Web Vital: CLS", ReportLevel(rating), "CLS", ClsSum(entries), rating)]
    {
      var clsValue := 0.0;
      var i := 0;
      while i < |entries|
        invariant 0 <= i <= |entries|
        invariant clsValue == ClsSum(entries[..i])
      {
        assert entries[..i + 1][..i] == entries[..i];
        if !entries[i].hadRecentInput {
          clsValue := clsValue + entries[i].value;
        }
        i := i + 1;
      }
      assert entries[..i] == entries;
      webVitals := webVitals.(cls := clsValue);
      ReportWebVital("CLS", clsValue);
      assert "Web Vital: " + "CLS" == "Web Vital: CLS";
    }
  }
}
