/** The composition engine: weighted Delivery, Stability and Quality
    scores, their shares of the total as percentages rounded to one
    decimal, and the dominant category. */
module CompositionEngine {
  import opened Metrics

  datatype Category = DELIVERY | STABILITY | QUALITY

  datatype CompositionResult = CompositionResult(
    deliveryPercent: real, stabilityPercent: real, qualityPercent: real, dominantCategory: Category)

  /** Merged PRs weigh 3, completed features 5, commits 1. */
  function DeliveryScore(m: WeeklyMetrics): (r: nat)
    ensures r == 0 <==> m.activity.prMerged == 0 && m.activity.featuresCompleted == 0 && m.activity.commits == 0
    ensures r >= m.activity.commits + m.activity.prMerged + m.activity.featuresCompleted
  {
    m.activity.prMerged * 3 + m.activity.featuresCompleted * 5 + m.activity.commits * 1
  }

  /** Fixed bugs weigh 3, found bugs 1. */
  function StabilityScore(m: WeeklyMetrics): (r: nat)
    ensures r == 0 <==> m.combat.bugsFixed == 0 && m.combat.bugsFound == 0
    ensures r >= m.combat.bugsFixed + m.combat.bugsFound
  {
    m.combat.bugsFixed * 3 + m.combat.bugsFound * 1
  }

  /** Tests written weigh 2, CI runs 1. */
  function QualityScore(m: WeeklyMetrics): (r: nat)
    ensures r == 0 <==> m.defense.testsWritten == 0 && m.defense.ciRuns == 0
    ensures r >= m.defense.testsWritten + m.defense.ciRuns
  {
    m.defense.testsWritten * 2 + m.defense.ciRuns * 1
  }

  /** The total is zero only when every category is, and bounds each one. */
  function TotalScore(m: WeeklyMetrics): (r: nat)
    ensures r == 0 <==> DeliveryScore(m) == 0 && StabilityScore(m) == 0 && QualityScore(m) == 0
    ensures DeliveryScore(m) <= r && StabilityScore(m) <= r && QualityScore(m) <= r
  {
    DeliveryScore(m) + StabilityScore(m) + QualityScore(m)
  }

  /** `Math.round(x * 10) / 10`: rounds half up to one decimal place. The
      result is a whole number of tenths within half a tenth of `x`. */
  function RoundToTenth(x: real): (r: real)
    ensures x - 0.05 < r <= x + 0.05
    ensures (r * 10.0).Floor as real == r * 10.0
  {
    ((x * 10.0 + 0.5).Floor as real) / 10.0
  }

  /** A score's share of a positive total, in percent, before rounding. */
  function RawPercent(score: nat, total: nat): real
    requires total > 0
  {
    (score as real / total as real) * 100.0
  }

  /** The first category, in the order DELIVERY, STABILITY, QUALITY, whose
      value is at least both others. */
  function Dominant(d: real, s: real, q: real): (r: Category)
    ensures r == DELIVERY <==> d >= s && d >= q
    ensures r == STABILITY <==> s > d && s >= q
    ensures r == QUALITY <==> q > d && q > s
  {
    if d >= s && d >= q then DELIVERY
    else if s >= d && s >= q then STABILITY
    else QUALITY
  }

  /** Percentages of one positive total compare as the scores do. */
  lemma RawPercentOrder(a: nat, b: nat, total: nat)
    requires total > 0
    ensures RawPercent(a, total) >= RawPercent(b, total) <==> a >= b
  {
    var t := total as real;
    assert RawPercent(a, total) == a as real * (100.0 / t);
    assert RawPercent(b, total) == b as real * (100.0 / t);
    assert 100.0 / t > 0.0;
  }

  /** A share of a total it does not exceed lies between 0 and 100. */
  lemma RawPercentRange(a: nat, total: nat)
    requires 0 < total && a <= total
    ensures 0.0 <= RawPercent(a, total) <= 100.0
  {
    var t := total as real;
    assert a as real / t <= 1.0;
  }

  /** calculateComposition. */
  function CalculateComposition(m: WeeklyMetrics): (r: CompositionResult)
    ensures TotalScore(m) == 0 ==> r == CompositionResult(0.0, 0.0, 0.0, DELIVERY)
    ensures TotalScore(m) > 0 ==>
      r.deliveryPercent == RoundToTenth(RawPercent(DeliveryScore(m), TotalScore(m)))
      && r.stabilityPercent == RoundToTenth(RawPercent(StabilityScore(m), TotalScore(m)))
      && r.qualityPercent == RoundToTenth(RawPercent(QualityScore(m), TotalScore(m)))
    ensures 0.0 <= r.deliveryPercent <= 100.0 && 0.0 <= r.stabilityPercent <= 100.0
      && 0.0 <= r.qualityPercent <= 100.0
    ensures r.dominantCategory == DELIVERY <==>
      DeliveryScore(m) >= StabilityScore(m) && DeliveryScore(m) >= QualityScore(m)
    ensures r.dominantCategory == STABILITY <==>
      StabilityScore(m) > DeliveryScore(m) && StabilityScore(m) >= QualityScore(m)
    ensures r.dominantCategory == QUALITY <==>
      QualityScore(m) > DeliveryScore(m) && QualityScore(m) > StabilityScore(m)
  {
    var deliveryScore, stabilityScore, qualityScore := DeliveryScore(m), StabilityScore(m), QualityScore(m);
    var totalScore := deliveryScore + stabilityScore + qualityScore;
    if totalScore == 0 then
      CompositionResult(0.0, 0.0, 0.0, DELIVERY)
    else
      var deliveryPercent := RawPercent(deliveryScore, totalScore);
      var stabilityPercent := RawPercent(stabilityScore, totalScore);
      var qualityPercent := RawPercent(qualityScore, totalScore);
      RawPercentOrder(deliveryScore, stabilityScore, totalScore);
      RawPercentOrder(stabilityScore, deliveryScore, totalScore);
      RawPercentOrder(deliveryScore, qualityScore, totalScore);
      RawPercentOrder(qualityScore, deliveryScore, totalScore);
      RawPercentOrder(stabilityScore, qualityScore, totalScore);
      RawPercentOrder(qualityScore, stabilityScore, totalScore);
      RawPercentRange(deliveryScore, totalScore);
      RawPercentRange(stabilityScore, totalScore);
      RawPercentRange(qualityScore, totalScore);
      RoundingKeepsRange(deliveryPercent);
      RoundingKeepsRange(stabilityPercent);
      RoundingKeepsRange(qualityPercent);
      CompositionResult(
        RoundToTenth(deliveryPercent), RoundToTenth(stabilityPercent), RoundToTenth(qualityPercent),
        Dominant(deliveryPercent, stabilityPercent, qualityPercent))
  }

  /** Rounding to a tenth keeps a percentage within 0 to 100. */
  lemma RoundingKeepsRange(x: real)
    requires 0.0 <= x <= 100.0
    ensures 0.0 <= RoundToTenth(x) <= 100.0
  {
  }

  /** Three parts of a positive whole, as shares of it, add up to one. */
  lemma SharesSumToOne(d: real, s: real, q: real)
    requires d + s + q > 0.0
    ensures d / (d + s + q) + s / (d + s + q) + q / (d + s + q) == 1.0
  {
    var t := d + s + q;
    assert d / t + s / t + q / t == (d + s + q) / t;
  }

  /** Before rounding, the three shares of a positive total add up to 100;
      after rounding, the sum stays within 0.15 of it. */
  lemma PercentsSumToHundred(m: WeeklyMetrics)
    requires TotalScore(m) > 0
    ensures var t := TotalScore(m);
      RawPercent(DeliveryScore(m), t) + RawPercent(StabilityScore(m), t) + RawPercent(QualityScore(m), t) == 100.0
    ensures var r := CalculateComposition(m);
      99.85 < r.deliveryPercent + r.stabilityPercent + r.qualityPercent <= 100.15
  {
    var total := TotalScore(m);
    var d, s, q := DeliveryScore(m) as real, StabilityScore(m) as real, QualityScore(m) as real;
    assert total as real == d + s + q;
    SharesSumToOne(d, s, q);
    var rd, rs, rq := RawPercent(DeliveryScore(m), total), RawPercent(StabilityScore(m), total), RawPercent(QualityScore(m), total);
    assert rd + rs + rq == 100.0;
    var r := CalculateComposition(m);
    assert r.deliveryPercent == RoundToTenth(rd);
    assert r.stabilityPercent == RoundToTenth(rs);
    assert r.qualityPercent == RoundToTenth(rq);
  }

  /** Equal non-zero scores resolve to DELIVERY, the first in priority. */
  lemma TieGoesToDelivery(m: WeeklyMetrics)
    requires DeliveryScore(m) == StabilityScore(m) == QualityScore(m)
    ensures CalculateComposition(m).dominantCategory == DELIVERY
  {
  }

  /** Dominance is decided before rounding: here delivery and stability
      both round to 50.0%, yet stability's unrounded share is larger and it
      dominates. */
  lemma DominanceUsesUnroundedPercents()
    ensures var m := WeeklyMetrics(Activity(1000, 0, 0, 0), Combat(1001, 0, 0, 0.0), Defense(0, 0));
      var r := CalculateComposition(m);
      r.deliveryPercent == r.stabilityPercent == 50.0 && r.dominantCategory == STABILITY
  {
    var m := WeeklyMetrics(Activity(1000, 0, 0, 0), Combat(1001, 0, 0, 0.0), Defense(0, 0));
    assert TotalScore(m) == 2001;
    var d := RawPercent(1000, 2001);
    var s := RawPercent(1001, 2001);
    assert d == 100000.0 / 2001.0;
    assert s == 100100.0 / 2001.0;
    assert (d * 10.0 + 0.5).Floor == 500;
    assert (s * 10.0 + 0.5).Floor == 500;
  }

  /** Opened PRs, open bugs and the bug-fix ratio carry no weight. */
  lemma CompositionIgnoresUnweightedFields(m: WeeklyMetrics, prOpened: nat, openBugs: nat, ratio: real)
    ensures CalculateComposition(m) == CalculateComposition(
      m.(activity := m.activity.(prOpened := prOpened), combat := m.combat.(openBugs := openBugs, bugFixRatio := ratio)))
  {
  }
}
