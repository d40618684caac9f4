/**
 * The load-test threshold checker: four comparisons of a k6 summary
 * against fixed thresholds, a list of the violations in the order the
 * checks run, and the exit code that tells the pipeline whether any was
 * found. A value of the summary may be missing (`undefined`, and every
 * comparison with it is false) or JSON `null` (compared as 0).
 */
module AnalyzePerformance {
  import opened Wrappers

  const P95Threshold: real := 500.0      // ms
  const MedianThreshold: real := 200.0   // ms
  const RateThreshold: real := 50.0      // requests per second
  const ErrorRateThreshold: real := 0.1

  /** A numeric field of the parsed summary. */
  datatype Field = Missing | Null | Number(x: real)

  /** The number a relational comparison sees: `null` becomes 0, `undefined` none at all. */
  function AsNumber(f: Field): Option<real> {
    match f
    case Missing => None
    case Null => Some(0.0)
    case Number(x) => Some(x)
  }

  /** The `errors` metric, when the test recorded one. */
  datatype ErrorsMetric = ErrorsMetric(rate: Field)

  /** The summary values the checker reads. */
  datatype Summary = Summary(
    p95: Field,
    median: Field,
    requestRate: Field,
    errors: Option<ErrorsMetric>)

  datatype Check = P95 | Median | RequestRate | ErrorRate

  /** The position of a check in the run. */
  function Order(c: Check): nat {
    match c
    case P95 => 0
    case Median => 1
    case RequestRate => 2
    case ErrorRate => 3
  }

  datatype Violation = Violation(check: Check, value: real)

  /** The error rate the checker uses: the metric's rate, or 0 when the metric is missing. */
  function ErrorRateOf(s: Summary): Option<real> {
    if s.errors.Some? then AsNumber(s.errors.value.rate) else Some(0.0)
  }

  /** JavaScript `x > t` and `x < t` with `x` possibly undefined. */
  predicate Above(x: Option<real>, t: real) { x.Some? && x.value > t }
  predicate Below(x: Option<real>, t: real) { x.Some? && x.value < t }

  predicate Reports(vs: seq<Violation>, c: Check) {
    exists i :: 0 <= i < |vs| && vs[i].check == c
  }

  /** The violations are in run order, so each check is reported at most once. */
  predicate InRunOrder(vs: seq<Violation>) {
    forall i, j :: 0 <= i < j < |vs| ==> Order(vs[i].check) < Order(vs[j].check)
  }

  /** A check's contribution to the list: its violation when the comparison fails. */
  function Piece(failed: bool, v: Violation): seq<Violation> {
    if failed then [v] else []
  }

  /** The violations of a summary, in the order the checks run. */
  function Violations(s: Summary): seq<Violation> {
    Piece(Above(AsNumber(s.p95), P95Threshold), Violation(P95, AsNumber(s.p95).GetOr(0.0)))
    + Piece(Above(AsNumber(s.median), MedianThreshold), Violation(Median, AsNumber(s.median).GetOr(0.0)))
    + Piece(Below(AsNumber(s.requestRate), RateThreshold), Violation(RequestRate, AsNumber(s.requestRate).GetOr(0.0)))
    + Piece(Above(ErrorRateOf(s), ErrorRateThreshold), Violation(ErrorRate, ErrorRateOf(s).GetOr(0.0)))
  }

  lemma ReportsPiece(failed: bool, v: Violation, c: Check)
    ensures Reports(Piece(failed, v), c) <==> failed && v.check == c
  {
    if failed && v.check == c {
      assert Piece(failed, v)[0].check == c;
    }
  }

  lemma ReportsConcat(a: seq<Violation>, b: seq<Violation>, c: Check)
    ensures Reports(a + b, c) <==> Reports(a, c) || Reports(b, c)
  {
    if Reports(a, c) {
      var i :| 0 <= i < |a| && a[i].check == c;
      assert (a + b)[i].check == c;
    }
    if Reports(b, c) {
      var i :| 0 <= i < |b| && b[i].check == c;
      assert (a + b)[|a| + i].check == c;
    }
    if Reports(a + b, c) {
      var i :| 0 <= i < |a + b| && (a + b)[i].check == c;
      if i < |a| {
        assert a[i].check == c;
      } else {
        assert b[i - |a|].check == c;
      }
    }
  }

  /** The value a check compares against its threshold (0 stands in for `undefined`). */
  function Compared(s: Summary, c: Check): real {
    match c
    case P95 => AsNumber(s.p95).GetOr(0.0)
    case Median => AsNumber(s.median).GetOr(0.0)
    case RequestRate => AsNumber(s.requestRate).GetOr(0.0)
    case ErrorRate => ErrorRateOf(s).GetOr(0.0)
  }

  /**
   * Each check is reported exactly when its comparison fails, with the value
   * compared; the list is in run order, so it has at most four entries.
   */
  lemma ViolationsSpec(s: Summary)
    ensures Reports(Violations(s), P95) <==> Above(AsNumber(s.p95), P95Threshold)
    ensures Reports(Violations(s), Median) <==> Above(AsNumber(s.median), MedianThreshold)
    ensures Reports(Violations(s), RequestRate) <==> Below(AsNumber(s.requestRate), RateThreshold)
    ensures Reports(Violations(s), ErrorRate) <==> Above(ErrorRateOf(s), ErrorRateThreshold)
    ensures InRunOrder(Violations(s)) && |Violations(s)| <= 4
    ensures forall v :: v in Violations(s) ==> v.value == Compared(s, v.check)
  {
    ReportsOf(s, P95);
    ReportsOf(s, Median);
    ReportsOf(s, RequestRate);
    ReportsOf(s, ErrorRate);
    ViolationsOrdered(s);
  }

  /** Appending at most one violation of a later check keeps the list in run order. */
  lemma AppendInOrder(vs: seq<Violation>, p: seq<Violation>, k: nat)
    requires InRunOrder(vs) && |vs| <= k
    requires forall i :: 0 <= i < |vs| ==> Order(vs[i].check) < k
    requires |p| <= 1 && forall j :: 0 <= j < |p| ==> Order(p[j].check) == k
    ensures InRunOrder(vs + p) && |vs + p| <= k + 1
    ensures forall i :: 0 <= i < |vs + p| ==> Order((vs + p)[i].check) <= k
  {
  }

  /** A piece holds at most its own violation. */
  lemma PieceShape(failed: bool, v: Violation)
    ensures |Piece(failed, v)| <= 1
    ensures forall j :: 0 <= j < |Piece(failed, v)| ==> Piece(failed, v)[j].check == v.check
  {
  }

  /** One piece per check, in run order, gives a list in run order. */
  lemma PiecesInOrder(a: seq<Violation>, b: seq<Violation>, c: seq<Violation>, d: seq<Violation>)
    requires |a| <= 1 && forall j :: 0 <= j < |a| ==> Order(a[j].check) == 0
    requires |b| <= 1 && forall j :: 0 <= j < |b| ==> Order(b[j].check) == 1
    requires |c| <= 1 && forall j :: 0 <= j < |c| ==> Order(c[j].check) == 2
    requires |d| <= 1 && forall j :: 0 <= j < |d| ==> Order(d[j].check) == 3
    ensures InRunOrder(a + b + c + d) && |a + b + c + d| <= 4
  {
    AppendInOrder([], a, 0);
    assert [] + a == a;
    AppendInOrder(a, b, 1);
    AppendInOrder(a + b, c, 2);
    AppendInOrder(a + b + c, d, 3);
  }

  lemma ViolationsOrdered(s: Summary)
    ensures InRunOrder(Violations(s)) && |Violations(s)| <= 4
  {
    var pa, va := Above(AsNumber(s.p95), P95Threshold), Violation(P95, AsNumber(s.p95).GetOr(0.0));
    var pb, vb := Above(AsNumber(s.median), MedianThreshold), Violation(Median, AsNumber(s.median).GetOr(0.0));
    var pc, vc := Below(AsNumber(s.requestRate), RateThreshold), Violation(RequestRate, AsNumber(s.requestRate).GetOr(0.0));
    var pd, vd := Above(ErrorRateOf(s), ErrorRateThreshold), Violation(ErrorRate, ErrorRateOf(s).GetOr(0.0));
    PieceShape(pa, va);
    PieceShape(pb, vb);
    PieceShape(pc, vc);
    PieceShape(pd, vd);
    PiecesInOrder(Piece(pa, va), Piece(pb, vb), Piece(pc, vc), Piece(pd, vd));
  }

  /** Which checks the list reports, piece by piece. */
  lemma ReportsOf(s: Summary, k: Check)
    ensures Reports(Violations(s), k) <==>
              || (k == P95 && Above(AsNumber(s.p95), P95Threshold))
              || (k == Median && Above(AsNumber(s.median), MedianThreshold))
              || (k == RequestRate && Below(AsNumber(s.requestRate), RateThreshold))
              || (k == ErrorRate && Above(ErrorRateOf(s), ErrorRateThreshold))
  {
    var a := Piece(Above(AsNumber(s.p95), P95Threshold), Violation(P95, AsNumber(s.p95).GetOr(0.0)));
    var b := Piece(Above(AsNumber(s.median), MedianThreshold), Violation(Median, AsNumber(s.median).GetOr(0.0)));
    var c := Piece(Below(AsNumber(s.requestRate), RateThreshold), Violation(RequestRate, AsNumber(s.requestRate).GetOr(0.0)));
    var d := Piece(Above(ErrorRateOf(s), ErrorRateThreshold), Violation(ErrorRate, ErrorRateOf(s).GetOr(0.0)));
    assert Violations(s) == a + b + c + d;
    ReportsConcat(a, b, k);
    ReportsConcat(a + b, c, k);
    ReportsConcat(a + b + c, d, k);
    ReportsPiece(Above(AsNumber(s.p95), P95Threshold), Violation(P95, AsNumber(s.p95).GetOr(0.0)), k);
    ReportsPiece(Above(AsNumber(s.median), MedianThreshold), Violation(Median, AsNumber(s.median).GetOr(0.0)), k);
    ReportsPiece(Below(AsNumber(s.requestRate), RateThreshold), Violation(RequestRate, AsNumber(s.requestRate).GetOr(0.0)), k);
    ReportsPiece(Above(ErrorRateOf(s), ErrorRateThreshold), Violation(ErrorRate, ErrorRateOf(s).GetOr(0.0)), k);
  }

  /** The analysis: the violations found, pushed one check at a time, and the exit code. */
  method AnalyzeResults(s: Summary) returns (violations: seq<Violation>, exitCode: int)
    ensures violations == Violations(s)
    ensures exitCode == 1 <==> violations != []
    ensures exitCode == 0 <==> violations == []
  {
    violations := [];
    if Above(AsNumber(s.p95), P95Threshold) {
      violations := violations + [Violation(P95, AsNumber(s.p95).value)];
    }
    ghost var a := Piece(Above(AsNumber(s.p95), P95Threshold), Violation(P95, AsNumber(s.p95).GetOr(0.0)));
    assert violations == a;
    if Above(AsNumber(s.median), MedianThreshold) {
      violations := violations + [Violation(Median, AsNumber(s.median).value)];
    }
    ghost var b := Piece(Above(AsNumber(s.median), MedianThreshold), Violation(Median, AsNumber(s.median).GetOr(0.0)));
    assert violations == a + b;
    if Below(AsNumber(s.requestRate), RateThreshold) {
      violations := violations + [Violation(RequestRate, AsNumber(s.requestRate).value)];
    }
    ghost var c := Piece(Below(AsNumber(s.requestRate), RateThreshold), Violation(RequestRate, AsNumber(s.requestRate).GetOr(0.0)));
    assert violations == a + b + c;
    var errorRate := ErrorRateOf(s);
    if Above(errorRate, ErrorRateThreshold) {
      violations := violations + [Violation(ErrorRate, errorRate.value)];
    }
    if |violations| > 0 {
      exitCode := 1;
    } else {
      exitCode := 0;
    }
  }

  /** A run without an `errors` metric never fails on the error rate. */
  lemma MissingErrorsNeverViolates(s: Summary)
    requires s.errors.None?
    ensures !Reports(Violations(s), ErrorRate)
  {
    ViolationsSpec(s);
  }

  /**
   * A `null` in the summary compares as 0: a `null` request rate is below
   * the threshold and fails the run, a `null` latency or error rate never
   * exceeds its threshold. A missing value fails no check.
   */
  lemma NullComparesAsZero(s: Summary)
    ensures s.requestRate == Null ==> Reports(Violations(s), RequestRate)
    ensures s.requestRate == Missing ==> !Reports(Violations(s), RequestRate)
    ensures s.p95 in {Null, Missing} ==> !Reports(Violations(s), P95)
    ensures s.median in {Null, Missing} ==> !Reports(Violations(s), Median)
    ensures s.errors.Some? && s.errors.value.rate in {Null, Missing} ==> !Reports(Violations(s), ErrorRate)
  {
    ViolationsSpec(s);
  }
}
