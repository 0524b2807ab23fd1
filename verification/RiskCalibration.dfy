/** Choosing the high-risk threshold from observed outcomes, and classifying a score with it. */
module RiskCalibration {
  import opened Wrappers

  datatype ScoredOutcome = ScoredOutcome(score: int, failed: bool)

  datatype Metrics = Metrics(threshold: int, truePositive: nat, falsePositive: nat, trueNegative: nat, falseNegative: nat)

  datatype Settings = Settings(default: int, minSamples: int, minFailures: int, minPrecision: real, minRecall: real)

  datatype Calibration = Calibration(threshold: int, samples: nat, failures: nat, metrics: Option<Metrics>, changed: bool)

  datatype CalibrationError = ScoreOutOfRange

  const MIN_HIGH_THRESHOLD := 40
  const MAX_HIGH_THRESHOLD := 75

  predicate High(o: ScoredOutcome, threshold: int) {
    o.score >= threshold
  }

  /** How many outcomes were predicted as `high` and ended as `failed`. */
  function Tally(outcomes: seq<ScoredOutcome>, threshold: int, high: bool, failed: bool): nat {
    if outcomes == [] then 0
    else
      var o := outcomes[|outcomes| - 1];
      Tally(outcomes[..|outcomes| - 1], threshold, high, failed)
      + if High(o, threshold) == high && o.failed == failed then 1 else 0
  }

  function MetricsAt(outcomes: seq<ScoredOutcome>, threshold: int): Metrics {
    Metrics(threshold, Tally(outcomes, threshold, true, true), Tally(outcomes, threshold, true, false),
            Tally(outcomes, threshold, false, false), Tally(outcomes, threshold, false, true))
  }

  function Failures(outcomes: seq<ScoredOutcome>): nat {
    if outcomes == [] then 0
    else Failures(outcomes[..|outcomes| - 1]) + if outcomes[|outcomes| - 1].failed then 1 else 0
  }

  function Ratio(part: nat, whole: nat): real {
    if whole == 0 then 0.0 else part as real / whole as real
  }

  function Precision(m: Metrics): real {
    Ratio(m.truePositive, m.truePositive + m.falsePositive)
  }

  function Recall(m: Metrics): real {
    Ratio(m.truePositive, m.truePositive + m.falseNegative)
  }

  /** A missing rate counts as the worst one. */
  function MissRate(m: Metrics): real {
    if m.truePositive + m.falseNegative == 0 then 1.0 else m.falseNegative as real / (m.truePositive + m.falseNegative) as real
  }

  predicate Feasible(m: Metrics, s: Settings) {
    Precision(m) >= s.minPrecision && Recall(m) >= s.minRecall
  }

  function Distance(a: int, b: int): int {
    if a < b then b - a else a - b
  }

  /** Fewer misses first, then precision, then closeness to the default. */
  datatype Rank = Rank(misses: real, precision: real, distance: int)

  predicate Ahead(a: Rank, b: Rank) {
    || a.misses < b.misses
    || (a.misses == b.misses && a.precision > b.precision)
    || (a.misses == b.misses && a.precision == b.precision && a.distance < b.distance)
  }

  function RankOf(m: Metrics, s: Settings): Rank {
    Rank(MissRate(m), Precision(m), Distance(m.threshold, s.default))
  }

  predicate Better(a: Metrics, b: Metrics, s: Settings) {
    Ahead(RankOf(a, s), RankOf(b, s))
  }

  predicate OnGrid(t: int) {
    MIN_HIGH_THRESHOLD <= t <= MAX_HIGH_THRESHOLD && t % 5 == 0
  }

  predicate Enough(outcomes: seq<ScoredOutcome>, s: Settings) {
    |outcomes| >= s.minSamples && Failures(outcomes) >= s.minFailures
  }

  predicate InRange(outcomes: seq<ScoredOutcome>) {
    forall o :: o in outcomes ==> 0 <= o.score <= 100
  }

  method EvaluateThreshold(outcomes: seq<ScoredOutcome>, threshold: int) returns (m: Metrics)
    ensures m == MetricsAt(outcomes, threshold)
  {
    var tp: nat, fp: nat, tn: nat, fn: nat := 0, 0, 0, 0;
    for i := 0 to |outcomes|
      invariant Metrics(threshold, tp, fp, tn, fn) == MetricsAt(outcomes[..i], threshold)
    {
      assert outcomes[..i + 1][..i] == outcomes[..i];
      var high := outcomes[i].score >= threshold;
      if high && outcomes[i].failed {
        tp := tp + 1;
      } else if high && !outcomes[i].failed {
        fp := fp + 1;
      } else if !high && !outcomes[i].failed {
        tn := tn + 1;
      } else {
        fn := fn + 1;
      }
    }
    assert outcomes[..|outcomes|] == outcomes;
    m := Metrics(threshold, tp, fp, tn, fn);
  }

  method CountFailures(outcomes: seq<ScoredOutcome>) returns (n: nat)
    ensures n == Failures(outcomes)
  {
    n := 0;
    for i := 0 to |outcomes|
      invariant n == Failures(outcomes[..i])
    {
      assert outcomes[..i + 1][..i] == outcomes[..i];
      if outcomes[i].failed { n := n + 1; }
    }
    assert outcomes[..|outcomes|] == outcomes;
  }

  /** The thresholds of the grid below a bound that satisfy both constraints. */
  function Candidates(outcomes: seq<ScoredOutcome>, s: Settings, below: int): set<int> {
    set t | MIN_HIGH_THRESHOLD <= t <= MAX_HIGH_THRESHOLD && t % 5 == 0 && t < below && Feasible(MetricsAt(outcomes, t), s)
  }

  /** A feasible threshold that no other feasible one is better than, the lowest of equally good ones. */
  predicate Unbeaten(outcomes: seq<ScoredOutcome>, s: Settings, candidates: set<int>, t: int) {
    && t in candidates
    && (forall u :: u in candidates ==> !Better(MetricsAt(outcomes, u), MetricsAt(outcomes, t), s))
    && (forall u :: u in candidates && u < t ==> Better(MetricsAt(outcomes, t), MetricsAt(outcomes, u), s))
  }

  lemma UnbeatenStays(outcomes: seq<ScoredOutcome>, s: Settings, before: set<int>, best: int, t: int)
    requires Unbeaten(outcomes, s, before, best) && forall u :: u in before ==> u < t
    ensures if Better(MetricsAt(outcomes, t), MetricsAt(outcomes, best), s) then Unbeaten(outcomes, s, before + {t}, t)
            else Unbeaten(outcomes, s, before + {t}, best)
  {
    var rank, bestRank := RankOf(MetricsAt(outcomes, t), s), RankOf(MetricsAt(outcomes, best), s);
    forall u | u in before && Ahead(rank, bestRank) ensures !Ahead(RankOf(MetricsAt(outcomes, u), s), rank) {
      AheadIsTransitive(RankOf(MetricsAt(outcomes, u), s), rank, bestRank);
      assert !Better(MetricsAt(outcomes, u), MetricsAt(outcomes, best), s);
    }
    forall u | u in before && Ahead(rank, bestRank) ensures Ahead(rank, RankOf(MetricsAt(outcomes, u), s)) {
      assert !Better(MetricsAt(outcomes, u), MetricsAt(outcomes, best), s);
      AheadIsTransitive(rank, bestRank, RankOf(MetricsAt(outcomes, u), s));
    }
    hide RankOf;
  }

  lemma FirstIsUnbeaten(outcomes: seq<ScoredOutcome>, s: Settings, t: int)
    ensures Unbeaten(outcomes, s, {} + {t}, t) && MetricsAt(outcomes, t).threshold == t
  {
    hide RankOf, Tally;
  }

  /** Whoever is ahead of one is ahead of everyone not ahead of that one. */
  lemma AheadIsTransitive(a: Rank, b: Rank, c: Rank)
    ensures Ahead(a, b) && Ahead(b, c) ==> Ahead(a, c)
    ensures Ahead(a, b) && !Ahead(c, b) ==> Ahead(a, c)
  {
  }

  lemma CandidatesOneMore(outcomes: seq<ScoredOutcome>, s: Settings, t: int)
    requires OnGrid(t)
    ensures Candidates(outcomes, s, t + 5)
         == if Feasible(MetricsAt(outcomes, t), s) then Candidates(outcomes, s, t) + {t} else Candidates(outcomes, s, t)
  {
  }

  /** Sweep the grid and keep the best feasible candidate, the first of equals. */
  method Sweep(outcomes: seq<ScoredOutcome>, s: Settings) returns (best: Option<Metrics>)
    ensures best.None? <==> Candidates(outcomes, s, MAX_HIGH_THRESHOLD + 1) == {}
    ensures best.Some? ==>
              && best.value == MetricsAt(outcomes, best.value.threshold)
              && Unbeaten(outcomes, s, Candidates(outcomes, s, MAX_HIGH_THRESHOLD + 1), best.value.threshold)
  {
    hide MetricsAt, Unbeaten, Better, Feasible;
    best := None;
    var t := MIN_HIGH_THRESHOLD;
    while t <= MAX_HIGH_THRESHOLD
      invariant MIN_HIGH_THRESHOLD <= t <= MAX_HIGH_THRESHOLD + 5 && t % 5 == 0
      invariant best.None? <==> Candidates(outcomes, s, t) == {}
      invariant best.Some? ==>
                  && best.value == MetricsAt(outcomes, best.value.threshold)
                  && Unbeaten(outcomes, s, Candidates(outcomes, s, t), best.value.threshold)
      decreases MAX_HIGH_THRESHOLD - t
    {
      var m := EvaluateThreshold(outcomes, t);
      CandidatesOneMore(outcomes, s, t);
      FirstIsUnbeaten(outcomes, s, t);
      if best.Some? { UnbeatenStays(outcomes, s, Candidates(outcomes, s, t), best.value.threshold, t); }
      if Feasible(m, s) && (best.None? || Better(m, best.value, s)) { best := Some(m); }
      t := t + 5;
    }
    assert Candidates(outcomes, s, t) == Candidates(outcomes, s, MAX_HIGH_THRESHOLD + 1);
  }

  /** Whether the observed outcomes allow any threshold but the default. */
  predicate Calibratable(outcomes: seq<ScoredOutcome>, s: Settings) {
    outcomes != [] && Enough(outcomes, s) && Candidates(outcomes, s, MAX_HIGH_THRESHOLD + 1) != {}
  }

  method Calibrate(outcomes: seq<ScoredOutcome>, s: Settings) returns (r: Result<Calibration, CalibrationError>)
    ensures r.Err? <==> !InRange(outcomes)
    ensures r.Ok? ==> r.value.samples == |outcomes| && r.value.failures == Failures(outcomes)
    ensures r.Ok? && Calibratable(outcomes, s) ==>
              Unbeaten(outcomes, s, Candidates(outcomes, s, MAX_HIGH_THRESHOLD + 1), r.value.threshold)
    ensures r.Ok? && !Calibratable(outcomes, s) ==> r.value.threshold == s.default
    ensures r.Ok? ==> (r.value.changed <==> r.value.threshold != s.default)
    ensures r.Ok? ==> r.value.metrics == if outcomes == [] then None else Some(MetricsAt(outcomes, r.value.threshold))
  {
    if outcomes == [] { return Ok(Calibration(s.default, 0, 0, None, false)); }
    if exists o :: o in outcomes && (o.score < 0 || o.score > 100) { return Err(ScoreOutOfRange); }
    var failures := CountFailures(outcomes);
    if |outcomes| < s.minSamples || failures < s.minFailures {
      var kept := EvaluateThreshold(outcomes, s.default);
      return Ok(Calibration(s.default, |outcomes|, failures, Some(kept), false));
    }
    var best := Sweep(outcomes, s);
    if best.None? {
      var kept := EvaluateThreshold(outcomes, s.default);
      return Ok(Calibration(s.default, |outcomes|, failures, Some(kept), false));
    }
    r := Ok(Calibration(best.value.threshold, |outcomes|, failures, best, best.value.threshold != s.default));
  }

  /** Every sample falls in exactly one of the four cells, and the failed ones in the two that say so. */
  lemma {:induction false} CellsPartitionTheSamples(outcomes: seq<ScoredOutcome>, threshold: int)
    ensures var m := MetricsAt(outcomes, threshold);
            && m.truePositive + m.falsePositive + m.trueNegative + m.falseNegative == |outcomes|
            && m.truePositive + m.falseNegative == Failures(outcomes)
  {
    if outcomes != [] { CellsPartitionTheSamples(outcomes[..|outcomes| - 1], threshold); }
  }

  /** Raising the threshold never adds a positive, true or false. */
  lemma {:induction false} PositivesFallWithTheThreshold(outcomes: seq<ScoredOutcome>, low: int, high: int)
    requires low <= high
    ensures MetricsAt(outcomes, high).truePositive <= MetricsAt(outcomes, low).truePositive
    ensures MetricsAt(outcomes, high).falsePositive <= MetricsAt(outcomes, low).falsePositive
  {
    if outcomes != [] { PositivesFallWithTheThreshold(outcomes[..|outcomes| - 1], low, high); }
  }

  lemma LessMisses(a: nat, b: nat, n: nat)
    requires n > 0
    ensures a < b <==> a as real / n as real < b as real / n as real
    ensures a == b <==> a as real / n as real == b as real / n as real
  {
  }

  /** Enough of what is predicted high fails, and enough of what fails is predicted high; nothing predicted, or
      nothing failed, counts as none of it. */
  ghost predicate Meets(m: Metrics, s: Settings) {
    && (if m.truePositive + m.falsePositive == 0 then 0.0 >= s.minPrecision
        else m.truePositive as real / (m.truePositive + m.falsePositive) as real >= s.minPrecision)
    && (if m.truePositive + m.falseNegative == 0 then 0.0 >= s.minRecall
        else m.truePositive as real / (m.truePositive + m.falseNegative) as real >= s.minRecall)
  }

  /** Of the positives of `a` no larger a part is true than of those of `b`. */
  ghost predicate NoMorePrecise(a: Metrics, b: Metrics) {
    (if a.truePositive + a.falsePositive == 0 then 0.0 else a.truePositive as real / (a.truePositive + a.falsePositive) as real)
    <= if b.truePositive + b.falsePositive == 0 then 0.0 else b.truePositive as real / (b.truePositive + b.falsePositive) as real
  }

  function Away(t: int, s: Settings): int {
    if t >= s.default then t - s.default else s.default - t
  }

  lemma FeasibleMeans(m: Metrics, s: Settings)
    ensures Feasible(m, s) <==> Meets(m, s)
  {
  }

  lemma NotAheadMeans(a: Metrics, b: Metrics, s: Settings)
    requires !Better(a, b, s) && a.truePositive + a.falseNegative == b.truePositive + b.falseNegative
    ensures b.falseNegative <= a.falseNegative
    ensures b.falseNegative == a.falseNegative ==> NoMorePrecise(a, b)
    ensures b.falseNegative == a.falseNegative && NoMorePrecise(b, a) ==> Away(b.threshold, s) <= Away(a.threshold, s)
  {
    var failures := a.truePositive + a.falseNegative;
    if failures > 0 { LessMisses(a.falseNegative, b.falseNegative, failures); }
    assert Precision(a) <= Precision(b) <==> NoMorePrecise(a, b);
    assert Precision(b) <= Precision(a) <==> NoMorePrecise(b, a);
    hide Ratio, NoMorePrecise;
  }

  /** The chosen threshold is on the grid and meets both constraints. Of all that do it misses fewest; of those that miss
      as few it is the most precise; of those as precise the closest to the default, and the lower of two as close. */
  lemma UnbeatenMissesLeast(outcomes: seq<ScoredOutcome>, s: Settings, chosen: int, t: int)
    requires Unbeaten(outcomes, s, Candidates(outcomes, s, MAX_HIGH_THRESHOLD + 1), chosen)
    requires 40 <= t <= 75 && t % 5 == 0 && Meets(MetricsAt(outcomes, t), s)
    ensures 40 <= chosen <= 75 && chosen % 5 == 0 && Meets(MetricsAt(outcomes, chosen), s)
    ensures var a, b := MetricsAt(outcomes, t), MetricsAt(outcomes, chosen);
            && b.falseNegative <= a.falseNegative
            && (b.falseNegative == a.falseNegative ==> NoMorePrecise(a, b))
            && (b.falseNegative == a.falseNegative && NoMorePrecise(b, a) ==> Away(chosen, s) <= Away(t, s))
            && (b.falseNegative == a.falseNegative && NoMorePrecise(b, a) && Away(chosen, s) == Away(t, s) ==> chosen <= t)
  {
    var a, b := MetricsAt(outcomes, t), MetricsAt(outcomes, chosen);
    FeasibleMeans(a, s);
    FeasibleMeans(b, s);
    assert t in Candidates(outcomes, s, MAX_HIGH_THRESHOLD + 1);
    CellsPartitionTheSamples(outcomes, t);
    CellsPartitionTheSamples(outcomes, chosen);
    NotAheadMeans(a, b, s);
    if t < chosen && b.falseNegative == a.falseNegative && NoMorePrecise(b, a) {
      BetterIsCloser(b, a, s);
    }
  }

  lemma BetterIsCloser(b: Metrics, a: Metrics, s: Settings)
    requires Better(b, a, s) && a.truePositive + a.falseNegative == b.truePositive + b.falseNegative
    requires b.falseNegative == a.falseNegative && NoMorePrecise(b, a)
    ensures Away(b.threshold, s) < Away(a.threshold, s)
  {
    assert Precision(b) <= Precision(a) <==> NoMorePrecise(b, a);
    hide Ratio, NoMorePrecise;
  }

  datatype Class = Low | Moderate | HighRisk | Critical

  function Severity(c: Class): nat {
    match c
    case Low => 0
    case Moderate => 1
    case HighRisk => 2
    case Critical => 3
  }

  function Most(a: int, b: int): int {
    if a < b then b else a
  }

  function Fewest(a: int, b: int): int {
    if a < b then a else b
  }

  function CriticalAt(high: int): int {
    Most(75, high + 25)
  }

  /** Halving rounds down. */
  function ModerateAt(high: int): int {
    Fewest(25, Most(15, high / 2))
  }

  function Classify(score: int, high: int): Result<Class, CalibrationError> {
    if score < 0 || score > 100 then Err(ScoreOutOfRange)
    else if score >= CriticalAt(high) then Ok(Critical)
    else if score >= high then Ok(HighRisk)
    else if score >= ModerateAt(high) then Ok(Moderate)
    else Ok(Low)
  }

  /** A higher score is never classified lower, whatever the threshold. */
  lemma ClassificationIsMonotone(score: int, more: int, high: int)
    requires 0 <= score <= more <= 100
    ensures Classify(score, high).Ok? && Classify(more, high).Ok?
    ensures Severity(Classify(score, high).value) <= Severity(Classify(more, high).value)
  {
  }

  /** Where each class begins: critical 25 above the threshold but not below 75, high at the threshold, moderate at half
      of it, rounded down, but between 15 and 25. */
  lemma ClassesBegin(score: int, high: int)
    ensures Classify(score, high).Err? <==> score < 0 || 100 < score
    ensures 0 <= score <= 100 ==>
              var critical, moderate := score >= 75 && score >= high + 25, score >= 25 || (score >= 15 && 2 * score + 1 >= high);
              Classify(score, high).value == if critical then Critical else if score >= high then HighRisk
                                             else if moderate then Moderate else Low
    ensures Severity(Low) < Severity(Moderate) < Severity(HighRisk) < Severity(Critical)
  {
  }

  ghost predicate Occurs(c: Class, high: int) {
    exists score :: Classify(score, high) == Ok(c)
  }

  /** Each class is given to some score exactly for the thresholds of this range, which holds the whole grid. */
  lemma EveryClassOccursIff(high: int)
    ensures Occurs(Low, high) && Occurs(Moderate, high) && Occurs(HighRisk, high) && Occurs(Critical, high) <==> 16 <= high <= 75
  {
    if 16 <= high <= 75 {
      assert Classify(0, high) == Ok(Low);
      assert Classify(ModerateAt(high), high) == Ok(Moderate);
      assert Classify(high, high) == Ok(HighRisk);
      assert Classify(100, high) == Ok(Critical);
    }
  }
}
