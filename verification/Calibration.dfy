/**
  Threshold calibration: for each label the candidate that is best on the validation
  rows, under a recall target when the label is critical. Arithmetic is exact.
 */
module Calibration {
  import opened Common
  import opened StableSort
  import E = LabelEncoding

  datatype Error =
    | LabelRowsMismatch | NoCandidates | CandidateOutOfRange
    | RowsMismatch | ThresholdMismatch | InvalidRows

  datatype Configuration = Configuration(minimum: real, maximum: real, step: real, recallTarget: real)
  {
    predicate Valid() {
      && 0.0 <= minimum <= maximum <= 1.0
      && step > 0.0
      && 0.0 <= recallTarget <= 1.0
    }
  }

  const CRITICAL_LABELS: set<E.Id> :=
    {E.Business("cancellation_request"), E.Business("churn_risk"), E.Business("complaint")}

  // ----- Candidates -----

  /** Steps still to come, a whole number that falls with every step. */
  function StepsLeft(current: real, maximum: real, step: real): nat
    requires step > 0.0
  {
    if current > maximum then 0 else ((maximum - current) / step).Floor + 1
  }

  lemma {:induction false} Divided(a: real, s: real)
    requires s > 0.0
    ensures a / s * s == a
  {
  }

  lemma {:induction false} OneStepFewer(a: real, s: real)
    requires s > 0.0
    ensures (a - s) / s == a / s - 1.0
  {
    Divided(a - s, s);
    Divided(a, s);
    Cancel((a - s) / s, a / s - 1.0, s);
  }

  lemma {:induction false} StepsFall(current: real, maximum: real, step: real)
    requires step > 0.0 && current <= maximum
    ensures StepsLeft(current + step, maximum, step) < StepsLeft(current, maximum, step)
  {
    OneStepFewer(maximum - current, step);
    assert maximum - (current + step) == maximum - current - step;
    var q := (maximum - current) / step;
    assert (q - 1.0).Floor == q.Floor - 1;
    NoLess(maximum - current, step);
  }

  lemma {:induction false} NoLess(a: real, s: real)
    requires s > 0.0 && a >= 0.0
    ensures a / s >= 0.0
  {
  }

  function GridPoint(minimum: real, step: real, i: nat): real {
    minimum + i as real * step
  }

  /** The grid: it starts at the minimum, runs by equal steps, and stops before the first point past the maximum. */
  method Candidates(c: Configuration) returns (values: seq<real>)
    requires c.Valid()
    ensures values != [] && values[0] == c.minimum
    ensures forall i :: 0 <= i < |values| ==> values[i] == GridPoint(c.minimum, c.step, i) && values[i] <= c.maximum
    ensures GridPoint(c.minimum, c.step, |values|) > c.maximum
  {
    values := [];
    var current := c.minimum;
    while current <= c.maximum
      invariant current == GridPoint(c.minimum, c.step, |values|)
      invariant forall i :: 0 <= i < |values| ==> values[i] == GridPoint(c.minimum, c.step, i) && values[i] <= c.maximum
      invariant values == [] ==> current == c.minimum
      invariant values != [] ==> values[0] == c.minimum
      decreases StepsLeft(current, c.maximum, c.step)
    {
      StepsFall(current, c.maximum, c.step);
      GridNext(c.minimum, c.step, |values|);
      values := values + [current];
      current := current + c.step;
    }
  }

  lemma {:induction false} GridNext(minimum: real, step: real, i: nat)
    ensures GridPoint(minimum, step, i + 1) == GridPoint(minimum, step, i) + step
  {
  }

  // ----- Candidate metrics -----

  datatype Metrics = Metrics(threshold: real, precision: real, recall: real, f1: real,
                             truePositives: nat, falsePositives: nat, falseNegatives: nat)

  /** How many rows hold value `actual` and fall on the given side of the threshold. */
  function Count(truth: seq<int>, row: seq<real>, threshold: real, actual: int, reached: bool): nat
    requires |truth| == |row|
  {
    if truth == [] then 0
    else
      var last := |truth| - 1;
      Count(truth[..last], row[..last], threshold, actual, reached)
      + E.Bit(truth[last] == actual && (row[last] >= threshold) == reached)
  }

  function Ratio(part: nat, rest: nat): (q: real)
    ensures 0.0 <= q <= 1.0
    ensures part + rest > 0 ==> q * (part + rest) as real == part as real
  {
    if part + rest == 0 then 0.0 else
      var q := part as real / (part + rest) as real;
      RatioInRange(part, part + rest, q);
      q
  }

  lemma {:induction false} RatioInRange(part: nat, whole: nat, q: real)
    requires 0 < whole && part <= whole && q == part as real / whole as real
    ensures 0.0 <= q <= 1.0 && q * whole as real == part as real
  {
  }

  function Harmonic(precision: real, recall: real): real {
    if precision + recall == 0.0 then 0.0 else 2.0 * precision * recall / (precision + recall)
  }

  function MetricsAt(truth: seq<int>, row: seq<real>, threshold: real): Metrics
    requires |truth| == |row|
  {
    var tp := Count(truth, row, threshold, 1, true);
    var fp := Count(truth, row, threshold, 0, true);
    var fn := Count(truth, row, threshold, 1, false);
    Metrics(threshold, Ratio(tp, fp), Ratio(tp, fn), Harmonic(Ratio(tp, fp), Ratio(tp, fn)), tp, fp, fn)
  }

  /** Positives do not depend on the threshold, and fewer are reached as it rises. */
  lemma {:induction false} RisingThreshold(truth: seq<int>, row: seq<real>, low: real, high: real)
    requires |truth| == |row| && low <= high
    ensures Count(truth, row, low, 1, true) >= Count(truth, row, high, 1, true)
    ensures Count(truth, row, low, 1, true) + Count(truth, row, low, 1, false)
         == Count(truth, row, high, 1, true) + Count(truth, row, high, 1, false)
  {
    if truth != [] {
      RisingThreshold(truth[..|truth| - 1], row[..|row| - 1], low, high);
    }
  }

  lemma {:induction false} RatioMonotone(a: nat, b: nat, whole: nat)
    requires b <= a <= whole
    ensures Ratio(b, whole - b) <= Ratio(a, whole - a)
  {
    if whole > 0 {
      assert b as real / whole as real <= a as real / whole as real;
    }
  }

  /** Recall is antitone in the threshold. */
  lemma {:induction false} RecallFalls(truth: seq<int>, row: seq<real>, low: real, high: real)
    requires |truth| == |row| && low <= high
    ensures MetricsAt(truth, row, low).recall >= MetricsAt(truth, row, high).recall
  {
    RisingThreshold(truth, row, low, high);
    var a, b := Count(truth, row, low, 1, true), Count(truth, row, high, 1, true);
    RatioMonotone(a, b, a + Count(truth, row, low, 1, false));
  }

  /** F1 is the overlap ratio 2 tp / (2 tp + fp + fn). */
  lemma {:induction false} F1IsTheOverlap(truth: seq<int>, row: seq<real>, threshold: real)
    requires |truth| == |row|
    ensures var m := MetricsAt(truth, row, threshold);
            && (m.truePositives == 0 ==> m.f1 == 0.0)
            && m.f1 * (2 * m.truePositives + m.falsePositives + m.falseNegatives) as real
              == 2.0 * m.truePositives as real
  {
    var m := MetricsAt(truth, row, threshold);
    if m.truePositives > 0 {
      HarmonicOfRatios(m.truePositives, m.falsePositives, m.falseNegatives);
    }
  }

  lemma {:induction false} HarmonicOfRatios(tp: nat, fp: nat, fn: nat)
    requires tp > 0
    ensures Harmonic(Ratio(tp, fp), Ratio(tp, fn)) * (2 * tp + fp + fn) as real == 2.0 * tp as real
  {
    var t, a, b := tp as real, (tp + fp) as real, (tp + fn) as real;
    var p, r := t / a, t / b;
    assert p * a == t && r * b == t;
    assert p > 0.0 && r > 0.0;
    var h := 2.0 * p * r / (p + r);
    assert h * (p + r) == 2.0 * p * r;
    HarmonicStep(t, a, b, p, r, h);
  }

  /** h (p + r) = 2 p r with p = t / a and r = t / b gives h (a + b) = 2 t. */
  lemma {:induction false} HarmonicStep(t: real, a: real, b: real, p: real, r: real, h: real)
    requires t > 0.0 && a > 0.0 && b > 0.0 && p > 0.0 && r > 0.0
    requires p * a == t && r * b == t && h * (p + r) == 2.0 * p * r
    ensures h * (a + b) == 2.0 * t
  {
    calc {
      h * (a + b) * (p * r);
      (h * r) * (p * a) + (h * p) * (r * b);
      (h * r) * t + (h * p) * t;
      h * (p + r) * t;
      2.0 * p * r * t;
      2.0 * t * (p * r);
    }
    var k := p * r;
    assert k > 0.0;
    Cancel(h * (a + b), 2.0 * t, k);
  }

  lemma {:induction false} Cancel(x: real, y: real, k: real)
    requires k > 0.0 && x * k == y * k
    ensures x == y
  {
    assert (x - y) * k == 0.0;
  }

  // ----- Selection -----

  datatype Key = Key(first: real, second: real, third: real, fourth: real)

  predicate KeyLess(k: Key, l: Key) {
    if k.first != l.first then k.first < l.first
    else if k.second != l.second then k.second < l.second
    else if k.third != l.third then k.third < l.third
    else k.fourth < l.fourth
  }

  function ByF1(m: Metrics): Key {
    Key(m.f1, m.precision, m.recall, m.threshold)
  }

  function ByRecall(m: Metrics): Key {
    Key(m.recall, m.precision, m.f1, m.threshold)
  }

  predicate WorseF1(m: Metrics, n: Metrics) {
    KeyLess(ByF1(m), ByF1(n))
  }

  predicate WorseRecall(m: Metrics, n: Metrics) {
    KeyLess(ByRecall(m), ByRecall(n))
  }

  function AllMetrics(truth: seq<int>, row: seq<real>, candidates: seq<real>): (ms: seq<Metrics>)
    requires |truth| == |row|
    ensures |ms| == |candidates|
    ensures forall i :: 0 <= i < |ms| ==> ms[i] == MetricsAt(truth, row, candidates[i])
  {
    seq(|candidates|, i requires 0 <= i < |candidates| => MetricsAt(truth, row, candidates[i]))
  }

  function Meeting(ms: seq<Metrics>, target: real): seq<Metrics> {
    if ms == [] then []
    else
      var last := ms[|ms| - 1];
      Meeting(ms[..|ms| - 1], target) + (if last.recall >= target then [last] else [])
  }

  lemma {:induction false} MeetingHolds(ms: seq<Metrics>, target: real)
    ensures forall m :: m in Meeting(ms, target) <==> m in ms && m.recall >= target
  {
    if ms != [] {
      MeetingHolds(ms[..|ms| - 1], target);
      assert ms == ms[..|ms| - 1] + [ms[|ms| - 1]];
    }
  }

  /** Whether the recall target was met is told for critical labels only. */
  datatype Selection = Selection(threshold: real, metrics: Metrics, targetMet: Option<bool>)

  function Chosen(m: Metrics, targetMet: Option<bool>): Selection {
    Selection(m.threshold, m, targetMet)
  }

  predicate InRange(candidates: seq<real>) {
    forall c :: c in candidates ==> 0.0 <= c <= 1.0
  }

  function Pick(ms: seq<Metrics>, critical: bool, target: real): Selection
    requires ms != []
  {
    if !critical then Chosen(ms[FirstLeast(ms, WorseF1)], None)
    else
      var meeting := Meeting(ms, target);
      if meeting != [] then Chosen(meeting[FirstLeast(meeting, WorseF1)], Some(true))
      else Chosen(ms[FirstLeast(ms, WorseRecall)], Some(false))
  }

  function Select(truth: seq<int>, row: seq<real>, candidates: seq<real>, critical: bool, target: real)
    : Result<Selection, Error>
  {
    if |truth| != |row| || truth == [] then Err(LabelRowsMismatch)
    else if candidates == [] then Err(NoCandidates)
    else if !InRange(candidates) then Err(CandidateOutOfRange)
    else Ok(Pick(AllMetrics(truth, row, candidates), critical, target))
  }

  lemma {:induction false} KeysAreStrictWeak()
    ensures StrictWeak(WorseF1) && StrictWeak(WorseRecall)
  {
  }

  /** Metrics of one label's rows that rank alike are those of one threshold. */
  lemma {:induction false} BestF1(ms: seq<Metrics>, i: nat)
    requires i < |ms|
    ensures ms[FirstLeast(ms, WorseF1)] in ms
    ensures ms[i].threshold == ms[FirstLeast(ms, WorseF1)].threshold || WorseF1(ms[i], ms[FirstLeast(ms, WorseF1)])
  {
    KeysAreStrictWeak();
    FirstLeastIsLeast(ms, WorseF1, i);
  }

  lemma {:induction false} BestRecall(ms: seq<Metrics>, i: nat)
    requires i < |ms|
    ensures ms[FirstLeast(ms, WorseRecall)] in ms
    ensures ms[i].threshold == ms[FirstLeast(ms, WorseRecall)].threshold
            || WorseRecall(ms[i], ms[FirstLeast(ms, WorseRecall)])
  {
    KeysAreStrictWeak();
    FirstLeastIsLeast(ms, WorseRecall, i);
  }

  /** `m` is the one best of the candidates that `eligible` allows. */
  ghost predicate Optimal(truth: seq<int>, row: seq<real>, candidates: seq<real>, floor: Option<real>, m: Metrics)
    requires |truth| == |row|
  {
    && m.threshold in candidates && m == MetricsAt(truth, row, m.threshold)
    && (floor.Some? ==> m.recall >= floor.value)
    && forall c :: c in candidates && c != m.threshold
                   && (floor.Some? ==> MetricsAt(truth, row, c).recall >= floor.value)
                   ==> WorseF1(MetricsAt(truth, row, c), m)
  }

  ghost predicate Fallback(truth: seq<int>, row: seq<real>, candidates: seq<real>, m: Metrics)
    requires |truth| == |row|
  {
    && m.threshold in candidates && m == MetricsAt(truth, row, m.threshold)
    && forall c :: c in candidates && c != m.threshold ==> WorseRecall(MetricsAt(truth, row, c), m)
  }

  lemma {:induction false} PickFreely(truth: seq<int>, row: seq<real>, candidates: seq<real>)
    requires |truth| == |row| && candidates != []
    ensures var ms := AllMetrics(truth, row, candidates);
            Optimal(truth, row, candidates, None, ms[FirstLeast(ms, WorseF1)])
  {
    var ms := AllMetrics(truth, row, candidates);
    var m := ms[FirstLeast(ms, WorseF1)];
    forall c | c in candidates && c != m.threshold ensures WorseF1(MetricsAt(truth, row, c), m) {
      var i :| 0 <= i < |candidates| && candidates[i] == c;
      BestF1(ms, i);
    }
  }

  lemma {:induction false} PickFallback(truth: seq<int>, row: seq<real>, candidates: seq<real>)
    requires |truth| == |row| && candidates != []
    ensures var ms := AllMetrics(truth, row, candidates);
            Fallback(truth, row, candidates, ms[FirstLeast(ms, WorseRecall)])
  {
    var ms := AllMetrics(truth, row, candidates);
    var m := ms[FirstLeast(ms, WorseRecall)];
    forall c | c in candidates && c != m.threshold ensures WorseRecall(MetricsAt(truth, row, c), m) {
      var i :| 0 <= i < |candidates| && candidates[i] == c;
      BestRecall(ms, i);
    }
  }

  lemma {:induction false} PickMeeting(truth: seq<int>, row: seq<real>, candidates: seq<real>, target: real)
    requires |truth| == |row|
    requires Meeting(AllMetrics(truth, row, candidates), target) != []
    ensures var meeting := Meeting(AllMetrics(truth, row, candidates), target);
            Optimal(truth, row, candidates, Some(target), meeting[FirstLeast(meeting, WorseF1)])
  {
    var ms := AllMetrics(truth, row, candidates);
    var meeting := Meeting(ms, target);
    var m := meeting[FirstLeast(meeting, WorseF1)];
    MeetingHolds(ms, target);
    assert m in meeting;
    var k :| 0 <= k < |ms| && ms[k] == m;
    forall c | c in candidates && c != m.threshold && MetricsAt(truth, row, c).recall >= target
      ensures WorseF1(MetricsAt(truth, row, c), m)
    {
      var j :| 0 <= j < |candidates| && candidates[j] == c;
      assert ms[j] in meeting;
      var i :| 0 <= i < |meeting| && meeting[i] == ms[j];
      BestF1(meeting, i);
    }
  }

  /** Some candidate meets the target exactly when the smallest one does. */
  lemma {:induction false} MetIffSmallestMeets(truth: seq<int>, row: seq<real>, candidates: seq<real>, smallest: real,
                                               target: real)
    requires |truth| == |row| && smallest in candidates && forall c :: c in candidates ==> smallest <= c
    ensures Meeting(AllMetrics(truth, row, candidates), target) != []
      <==> MetricsAt(truth, row, smallest).recall >= target
  {
    var ms := AllMetrics(truth, row, candidates);
    MeetingHolds(ms, target);
    if Meeting(ms, target) != [] {
      var m := Meeting(ms, target)[0];
      assert m in Meeting(ms, target);
      var i :| 0 <= i < |ms| && ms[i] == m;
      assert candidates[i] in candidates;
      RecallFalls(truth, row, smallest, candidates[i]);
    }
    if MetricsAt(truth, row, smallest).recall >= target {
      var i :| 0 <= i < |candidates| && candidates[i] == smallest;
      assert ms[i] in Meeting(ms, target);
    }
  }

  /**
    The calibration optimum. A critical label meets its recall target exactly when the smallest
    candidate does; then the chosen threshold is the unique best in (F1, precision, recall,
    threshold) among the candidates that meet it, and otherwise the unique best in (recall,
    precision, F1, threshold), with the recall of the smallest candidate. Any other label takes
    the unique best in (F1, precision, recall, threshold).
   */
  lemma {:induction false} SelectedIsOptimal(truth: seq<int>, row: seq<real>, candidates: seq<real>, smallest: real,
                          critical: bool, target: real)
    requires Select(truth, row, candidates, critical, target).Ok?
    requires smallest in candidates && forall c :: c in candidates ==> smallest <= c
    ensures var s := Select(truth, row, candidates, critical, target).value;
            && s.threshold == s.metrics.threshold
            && s.targetMet == (if critical then Some(MetricsAt(truth, row, smallest).recall >= target) else None)
            && (s.targetMet == None ==> Optimal(truth, row, candidates, None, s.metrics))
            && (s.targetMet == Some(true) ==> Optimal(truth, row, candidates, Some(target), s.metrics))
            && (s.targetMet == Some(false) ==>
                  && Fallback(truth, row, candidates, s.metrics)
                  && s.metrics.recall == MetricsAt(truth, row, smallest).recall < target)
  {
    MetIffSmallestMeets(truth, row, candidates, smallest, target);
    var ms := AllMetrics(truth, row, candidates);
    if !critical {
      PickFreely(truth, row, candidates);
    } else if Meeting(ms, target) != [] {
      PickMeeting(truth, row, candidates, target);
    } else {
      PickFallback(truth, row, candidates);
      RecallFalls(truth, row, smallest, ms[FirstLeast(ms, WorseRecall)].threshold);
    }
  }

  // ----- Rows with no label at all -----

  ghost predicate Thresholds(e: E.Encoder, thresholds: map<E.Id, real>) {
    thresholds.Keys == set l | l in e.order
  }

  function IndexOf(order: seq<E.Id>, l: E.Id): (i: nat)
    requires l in order
    ensures i < |order| && order[i] == l
  {
    if order[0] == l then 0 else 1 + IndexOf(order[1..], l)
  }

  /** Neither `no_action` nor any business label reaches its threshold. */
  predicate BothAbsent(order: seq<E.Id>, row: seq<real>, thresholds: map<E.Id, real>)
    requires E.NO_ACTION in order && |row| == |order| && forall l :: l in order ==> l in thresholds
  {
    && row[IndexOf(order, E.NO_ACTION)] < thresholds[E.NO_ACTION]
    && !exists i :: 0 <= i < |order| && order[i] != E.NO_ACTION && row[i] >= thresholds[order[i]]
  }

  function CountBothAbsent(order: seq<E.Id>, rows: seq<seq<real>>, thresholds: map<E.Id, real>): nat
    requires E.NO_ACTION in order && forall l :: l in order ==> l in thresholds
    requires forall row :: row in rows ==> |row| == |order|
  {
    if rows == [] then 0
    else
      CountBothAbsent(order, rows[..|rows| - 1], thresholds)
      + E.Bit(BothAbsent(order, rows[|rows| - 1], thresholds))
  }

  function CountZero(e: E.Encoder, rows: seq<seq<real>>, thresholds: map<E.Id, real>): nat {
    if rows == [] then 0
    else
      CountZero(e, rows[..|rows| - 1], thresholds)
      + E.Bit(E.Threshold(e, rows[|rows| - 1], thresholds) == Ok(Zeros(|e.order|)))
  }

  lemma {:induction false} OneIndex(order: seq<E.Id>, i: nat, j: nat)
    requires E.Unique(order) && i < |order| && j < |order| && order[i] == order[j]
    ensures i == j
  {
  }

  lemma {:induction false} BothAbsentIffZero(e: E.Encoder, row: seq<real>, thresholds: map<E.Id, real>)
    requires e.Valid() && Thresholds(e, thresholds) && |row| == |e.order|
    ensures BothAbsent(e.order, row, thresholds) <==> E.Threshold(e, row, thresholds) == Ok(Zeros(|e.order|))
  {
    E.ZeroIffNoneReaches(e, row, thresholds);
    var k := IndexOf(e.order, E.NO_ACTION);
    forall i | 0 <= i < |e.order| && e.order[i] == E.NO_ACTION ensures i == k {
      OneIndex(e.order, i, k);
    }
  }

  /** The both-absent count is the number of rows thresholding maps to the all-zero vector. */
  lemma {:induction false} BothAbsentRowsAreTheZeroRows(e: E.Encoder, rows: seq<seq<real>>, thresholds: map<E.Id, real>)
    requires e.Valid() && Thresholds(e, thresholds) && forall row :: row in rows ==> |row| == |e.order|
    ensures CountBothAbsent(e.order, rows, thresholds) == CountZero(e, rows, thresholds)
  {
    if rows != [] {
      assert rows[|rows| - 1] in rows;
      BothAbsentRowsAreTheZeroRows(e, rows[..|rows| - 1], thresholds);
      BothAbsentIffZero(e, rows[|rows| - 1], thresholds);
    }
  }

  // ----- All labels -----

  datatype Calibrated = Calibrated(thresholds: map<E.Id, real>, critical: map<E.Id, bool>,
                                   bothAbsentBefore: nat, bothAbsentAfter: nat)

  /** What the evaluation demands of the rows: full width, 0/1 truth, probabilities between 0 and 1. */
  predicate WellFormed(truth: seq<seq<int>>, rows: seq<seq<real>>, width: nat) {
    && (forall row :: row in truth ==> |row| == width && forall v :: v in row ==> v == 0 || v == 1)
    && (forall row :: row in rows ==> |row| == width && forall p :: p in row ==> 0.0 <= p <= 1.0)
  }

  function Column<T>(rows: seq<seq<T>>, index: nat): (column: seq<T>)
    requires forall row :: row in rows ==> index < |row|
    ensures |column| == |rows| && forall i :: 0 <= i < |rows| ==> column[i] == rows[i][index]
  {
    seq(|rows|, i requires 0 <= i < |rows| => rows[i][index])
  }

  ghost predicate Grid(c: Configuration, values: seq<real>)
  {
    && values != [] && values[0] == c.minimum
    && (forall i :: 0 <= i < |values| ==> values[i] == GridPoint(c.minimum, c.step, i) && values[i] <= c.maximum)
    && GridPoint(c.minimum, c.step, |values|) > c.maximum
  }

  lemma {:induction false} GridFromMinimum(c: Configuration, values: seq<real>, i: nat)
    requires c.Valid() && Grid(c, values) && i < |values|
    ensures c.minimum <= values[i] && 0.0 <= values[i] <= 1.0
  {
    assert i as real * c.step >= 0.0;
  }

  lemma {:induction false} GridInRange(c: Configuration, values: seq<real>)
    requires c.Valid() && Grid(c, values)
    ensures InRange(values) && forall v :: v in values ==> c.minimum <= v
  {
    forall v | v in values ensures c.minimum <= v && 0.0 <= v <= 1.0 {
      var i :| 0 <= i < |values| && values[i] == v;
      GridFromMinimum(c, values, i);
    }
  }

  /** The columns of a label, selected on the configuration's grid. */
  ghost predicate CalibratedLabel(truth: seq<seq<int>>, rows: seq<seq<real>>, e: E.Encoder, c: Configuration,
                                  grid: seq<real>, index: nat, threshold: real, met: Option<bool>)
    requires index < |e.order| && WellFormed(truth, rows, |e.order|)
  {
    var s := Select(Column(truth, index), Column(rows, index), grid, e.order[index] in CRITICAL_LABELS, c.recallTarget);
    s.Ok? && s.value.threshold == threshold && s.value.targetMet == met
  }

  ghost predicate Keyed(order: seq<E.Id>, n: nat, thresholds: map<E.Id, real>, critical: map<E.Id, bool>)
    requires n <= |order|
  {
    && (forall l :: l in thresholds <==> l in order[..n])
    && (forall l :: l in critical <==> l in order[..n] && l in CRITICAL_LABELS)
  }

  function Told(critical: map<E.Id, bool>, l: E.Id): Option<bool> {
    if l in critical then Some(critical[l]) else None
  }

  ghost predicate CalibratedSoFar(truth: seq<seq<int>>, rows: seq<seq<real>>, e: E.Encoder, c: Configuration,
                                  grid: seq<real>, n: nat, thresholds: map<E.Id, real>, critical: map<E.Id, bool>)
    requires n <= |e.order| && WellFormed(truth, rows, |e.order|)
  {
    && Keyed(e.order, n, thresholds, critical)
    && forall i :: 0 <= i < n ==>
         && e.order[i] in thresholds
         && CalibratedLabel(truth, rows, e, c, grid, i, thresholds[e.order[i]], Told(critical, e.order[i]))
  }

  lemma {:induction false} KeyedNext(order: seq<E.Id>, n: nat, thresholds: map<E.Id, real>, critical: map<E.Id, bool>,
                  threshold: real, met: Option<bool>)
    requires n < |order| && Keyed(order, n, thresholds, critical)
    requires met.Some? <==> order[n] in CRITICAL_LABELS
    ensures Keyed(order, n + 1, thresholds[order[n] := threshold],
                  if met.Some? then critical[order[n] := met.value] else critical)
  {
    hide CRITICAL_LABELS;
    assert order[..n + 1] == order[..n] + [order[n]];
  }

  lemma {:induction false} EarlierDiffers(order: seq<E.Id>, i: nat, n: nat)
    requires E.Unique(order) && i < n < |order|
    ensures order[i] != order[n] && order[n] !in order[..n]
  {
  }

  lemma {:induction false} CalibratedNext(truth: seq<seq<int>>, rows: seq<seq<real>>, e: E.Encoder, c: Configuration,
                                          grid: seq<real>,
                       n: nat, thresholds: map<E.Id, real>, critical: map<E.Id, bool>, s: Selection)
    requires e.Valid() && n < |e.order| && WellFormed(truth, rows, |e.order|)
    requires CalibratedSoFar(truth, rows, e, c, grid, n, thresholds, critical)
    requires CalibratedLabel(truth, rows, e, c, grid, n, s.threshold, s.targetMet)
    requires s.targetMet.Some? <==> e.order[n] in CRITICAL_LABELS
    ensures CalibratedSoFar(truth, rows, e, c, grid, n + 1, thresholds[e.order[n] := s.threshold],
                            if s.targetMet.Some? then critical[e.order[n] := s.targetMet.value] else critical)
  {
    hide CRITICAL_LABELS;
    hide CalibratedLabel;
    hide WellFormed;
    hide E.Unique;
    KeyedNext(e.order, n, thresholds, critical, s.threshold, s.targetMet);
    forall i | 0 <= i < n ensures e.order[i] != e.order[n] {
      EarlierDiffers(e.order, i, n);
    }
    assert s.targetMet.None? ==> e.order[n] !in critical;
  }

  /** On the configured grid, a critical label meets its target exactly when the minimum threshold does. */
  lemma {:induction false} CriticalTargetMet(truth: seq<seq<int>>, rows: seq<seq<real>>, e: E.Encoder, c: Configuration,
                          grid: seq<real>, index: nat, threshold: real, met: Option<bool>)
    requires c.Valid() && Grid(c, grid) && index < |e.order| && WellFormed(truth, rows, |e.order|)
    requires |truth| == |rows| && e.order[index] in CRITICAL_LABELS
    requires CalibratedLabel(truth, rows, e, c, grid, index, threshold, met)
    ensures met == Some(MetricsAt(Column(truth, index), Column(rows, index), c.minimum).recall >= c.recallTarget)
    ensures met == Some(true) ==>
      MetricsAt(Column(truth, index), Column(rows, index), threshold).recall >= c.recallTarget
  {
    hide CRITICAL_LABELS;
    GridInRange(c, grid);
    assert grid[0] in grid;
    SelectedIsOptimal(Column(truth, index), Column(rows, index), grid, c.minimum, true, c.recallTarget);
  }

  lemma {:induction false} SelectSucceeds(truth: seq<int>, row: seq<real>, candidates: seq<real>, critical: bool,
                                          target: real)
    requires |truth| == |row| && truth != [] && candidates != [] && InRange(candidates)
    ensures Select(truth, row, candidates, critical, target).Ok?
    ensures Select(truth, row, candidates, critical, target).value.targetMet.Some? <==> critical
  {
  }

  method CalibrateLabels(truth: seq<seq<int>>, rows: seq<seq<real>>, e: E.Encoder, c: Configuration, grid: seq<real>)
    returns (thresholds: map<E.Id, real>, critical: map<E.Id, bool>)
    requires e.Valid() && |truth| == |rows| && truth != [] && WellFormed(truth, rows, |e.order|)
    requires grid != [] && InRange(grid)
    ensures CalibratedSoFar(truth, rows, e, c, grid, |e.order|, thresholds, critical)
  {
    hide CRITICAL_LABELS;
    hide Select;
    hide InRange;
    hide E.Unique;
    thresholds, critical := map[], map[];
    for index := 0 to |e.order|
      invariant CalibratedSoFar(truth, rows, e, c, grid, index, thresholds, critical)
    {
      var isCritical := e.order[index] in CRITICAL_LABELS;
      SelectSucceeds(Column(truth, index), Column(rows, index), grid, isCritical, c.recallTarget);
      var s := Select(Column(truth, index), Column(rows, index), grid, isCritical, c.recallTarget).value;
      CalibratedNext(truth, rows, e, c, grid, index, thresholds, critical, s);
      thresholds := thresholds[e.order[index] := s.threshold];
      if s.targetMet.Some? {
        critical := critical[e.order[index] := s.targetMet.value];
      }
    }
  }

  lemma {:induction false} KeyedThresholds(e: E.Encoder, thresholds: map<E.Id, real>, critical: map<E.Id, bool>)
    requires Keyed(e.order, |e.order|, thresholds, critical)
    ensures Thresholds(e, thresholds)
  {
    assert e.order[..|e.order|] == e.order;
  }

  /**
    Calibration succeeds exactly on matching, non-empty, well-formed rows with one original threshold
    per label. Every label then has the threshold selected on its own column, every critical label
    says whether its target was met, and both counts are of rows thresholding maps to no label.
   */
  method CalibrateProbabilities(truth: seq<seq<int>>, rows: seq<seq<real>>, e: E.Encoder,
                                original: map<E.Id, real>, c: Configuration)
    returns (r: Result<Calibrated, Error>, ghost grid: seq<real>)
    requires e.Valid() && c.Valid()
    ensures Grid(c, grid)
    ensures r.Ok? <==>
      |truth| == |rows| && truth != [] && Thresholds(e, original) && WellFormed(truth, rows, |e.order|)
    ensures r.Ok? ==>
      && CalibratedSoFar(truth, rows, e, c, grid, |e.order|, r.value.thresholds, r.value.critical)
      && r.value.bothAbsentBefore == CountZero(e, rows, original)
      && r.value.bothAbsentAfter == CountZero(e, rows, r.value.thresholds)
  {
    hide CalibratedLabel;
    hide E.Unique;
    var candidates := Candidates(c);
    grid := candidates;
    GridInRange(c, candidates);
    if |truth| != |rows| || truth == [] {
      return Err(RowsMismatch), grid;
    }
    if original.Keys != set l | l in e.order {
      return Err(ThresholdMismatch), grid;
    }
    if !WellFormed(truth, rows, |e.order|) {
      return Err(InvalidRows), grid;
    }
    var thresholds, critical := CalibrateLabels(truth, rows, e, c, candidates);
    KeyedThresholds(e, thresholds, critical);
    BothAbsentRowsAreTheZeroRows(e, rows, original);
    BothAbsentRowsAreTheZeroRows(e, rows, thresholds);
    r := Ok(Calibrated(thresholds, critical, CountBothAbsent(e.order, rows, original),
                       CountBothAbsent(e.order, rows, thresholds)));
  }
}
