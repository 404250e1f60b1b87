/** The target engine: four "metric at least target" checks, the share of
    them met, and ON_TRACK or AT_RISK. */
module TargetEngine {
  import opened Metrics
  import opened TargetsConfig
  import opened Counting

  datatype Status = ON_TRACK | AT_RISK

  datatype TargetCheck = TargetCheck(current: real, target: real, met: bool)

  datatype TargetEvaluation = TargetEvaluation(
    prMerged: TargetCheck,
    featuresCompleted: TargetCheck,
    bugFixRatio: TargetCheck,
    testsWritten: TargetCheck,
    completionRate: real,
    overallStatus: Status)

  function Check(current: real, target: real): TargetCheck
  {
    TargetCheck(current, target, current >= target)
  }

  /** `filter(Boolean).length`. */
  function CountTrue(flags: seq<bool>): (n: nat)
    ensures n <= |flags|
  {
    if flags == [] then 0
    else CountTrue(flags[..|flags| - 1]) + (if flags[|flags| - 1] then 1 else 0)
  }

  /** The count is the number of positions holding `true`. */
  lemma {:induction false} CountTrueIsSize(flags: seq<bool>)
    ensures CountTrue(flags) == |TruePositions(flags)|
  {
    if flags == [] {
      assert TruePositions(flags) == {};
    } else {
      CountTrueIsSize(flags[..|flags| - 1]);
      TruePositionsStep(flags);
    }
  }

  function MetFlags(e: TargetEvaluation): seq<bool>
  {
    [e.prMerged.met, e.featuresCompleted.met, e.bugFixRatio.met, e.testsWritten.met]
  }

  /** evaluateTargets against the configuration `targets`. */
  function EvaluateTargets(m: WeeklyMetrics, targets: WeeklyTargets): (e: TargetEvaluation)
    ensures e.prMerged.current == m.activity.prMerged as real && e.prMerged.target == targets.prMerged as real
    ensures e.featuresCompleted.current == m.activity.featuresCompleted as real
    ensures e.featuresCompleted.target == targets.featuresCompleted as real
    ensures e.bugFixRatio.current == m.combat.bugFixRatio && e.bugFixRatio.target == targets.bugFixRatio
    ensures e.testsWritten.current == m.defense.testsWritten as real && e.testsWritten.target == targets.testsWritten as real
    ensures e.prMerged.met <==> m.activity.prMerged >= targets.prMerged
    ensures e.featuresCompleted.met <==> m.activity.featuresCompleted >= targets.featuresCompleted
    ensures e.bugFixRatio.met <==> m.combat.bugFixRatio >= targets.bugFixRatio
    ensures e.testsWritten.met <==> m.defense.testsWritten >= targets.testsWritten
    ensures e.completionRate * 4.0 == CountTrue(MetFlags(e)) as real
    ensures e.completionRate in {0.0, 0.25, 0.5, 0.75, 1.0}
    ensures e.overallStatus == ON_TRACK <==> CountTrue(MetFlags(e)) >= 3
  {
    var prMerged := Check(m.activity.prMerged as real, targets.prMerged as real);
    var featuresCompleted := Check(m.activity.featuresCompleted as real, targets.featuresCompleted as real);
    var bugFixRatio := Check(m.combat.bugFixRatio, targets.bugFixRatio);
    var testsWritten := Check(m.defense.testsWritten as real, targets.testsWritten as real);
    var targetsMet := CountTrue([prMerged.met, featuresCompleted.met, bugFixRatio.met, testsWritten.met]);
    var completionRate := targetsMet as real / 4.0;
    var overallStatus := if completionRate >= 0.75 then ON_TRACK else AT_RISK;
    TargetEvaluation(prMerged, featuresCompleted, bugFixRatio, testsWritten, completionRate, overallStatus)
  }

  /** With the configured targets: at least three of "three merged PRs",
      "one feature", "ratio one" and "five test commits" is on track. */
  lemma ConfiguredTargets(m: WeeklyMetrics)
    ensures var e := EvaluateTargets(m, WeeklyTargetsConfig);
      e.prMerged.target == 3.0 && e.featuresCompleted.target == 1.0
      && e.bugFixRatio.target == 1.0 && e.testsWritten.target == 5.0
      && (e.overallStatus == ON_TRACK <==>
            CountTrue([m.activity.prMerged >= 3, m.activity.featuresCompleted >= 1,
                       m.combat.bugFixRatio >= 1.0, m.defense.testsWritten >= 5]) >= 3)
  {
  }

  /** A week meeting all four configured targets is on track with rate 1;
      one meeting only merged PRs and features is at risk with rate 0.5. */
  lemma TargetExamples()
    ensures var e := EvaluateTargets(WeeklyMetrics(Activity(10, 4, 3, 1), Combat(2, 2, 0, 1.0), Defense(5, 0)),
                                     WeeklyTargetsConfig);
      e.overallStatus == ON_TRACK && e.completionRate == 1.0
    ensures var e := EvaluateTargets(WeeklyMetrics(Activity(10, 4, 3, 1), Combat(2, 1, 0, 0.5), Defense(4, 0)),
                                     WeeklyTargetsConfig);
      e.overallStatus == AT_RISK && e.completionRate == 0.5
  {
    assert [true, true, true, true][..3] == [true, true, true];
    assert [true, true, true][..2] == [true, true];
    assert [true, true][..1] == [true];
    assert [true, true, false, false][..3] == [true, true, false];
    assert [true, true, false][..2] == [true, true];
  }

  /** Raising any of the four metrics never clears a met flag, never lowers
      the completion rate and never turns ON_TRACK into AT_RISK. */
  lemma TargetsMonotone(m: WeeklyMetrics, m': WeeklyMetrics, targets: WeeklyTargets)
    requires m.activity.prMerged <= m'.activity.prMerged
    requires m.activity.featuresCompleted <= m'.activity.featuresCompleted
    requires m.combat.bugFixRatio <= m'.combat.bugFixRatio
    requires m.defense.testsWritten <= m'.defense.testsWritten
    ensures var e, e' := EvaluateTargets(m, targets), EvaluateTargets(m', targets);
      (e.prMerged.met ==> e'.prMerged.met) && (e.featuresCompleted.met ==> e'.featuresCompleted.met)
      && (e.bugFixRatio.met ==> e'.bugFixRatio.met) && (e.testsWritten.met ==> e'.testsWritten.met)
      && e.completionRate <= e'.completionRate
      && (e.overallStatus == ON_TRACK ==> e'.overallStatus == ON_TRACK)
  {
    var e, e' := EvaluateTargets(m, targets), EvaluateTargets(m', targets);
    CountTrueMonotone(MetFlags(e), MetFlags(e'));
  }

  /** Turning flags on never lowers the count. */
  lemma {:induction false} CountTrueMonotone(a: seq<bool>, b: seq<bool>)
    requires |a| == |b|
    requires forall i :: 0 <= i < |a| && a[i] ==> b[i]
    ensures CountTrue(a) <= CountTrue(b)
  {
    if a != [] {
      var n := |a| - 1;
      CountTrueMonotone(a[..n], b[..n]);
    }
  }

  /** Only the four targeted fields are read: two weeks that agree on them
      are evaluated identically. */
  lemma TargetsReadOnlyFourFields(m: WeeklyMetrics, m': WeeklyMetrics, targets: WeeklyTargets)
    requires m.activity.prMerged == m'.activity.prMerged
    requires m.activity.featuresCompleted == m'.activity.featuresCompleted
    requires m.combat.bugFixRatio == m'.combat.bugFixRatio
    requires m.defense.testsWritten == m'.defense.testsWritten
    ensures EvaluateTargets(m, targets) == EvaluateTargets(m', targets)
  {
  }
}
