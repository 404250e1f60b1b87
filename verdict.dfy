/** The verdict engine: an integer score from four bonus rules and two
    penalties mapped to STRONG, SOLID or CHAOTIC, and the trend over the
    most recent verdicts. */
module VerdictEngine {
  import opened Wrappers
  import opened Metrics

  datatype Label = STRONG | SOLID | CHAOTIC

  datatype VerdictResult = VerdictResult(score: int, verdictLabel: Label)

  /** The label thresholds: three or more is strong, one or two solid, and
      everything else (zero and below) chaotic. */
  function LabelFor(score: int): (l: Label)
    ensures l == STRONG <==> score >= 3
    ensures l == SOLID <==> 1 <= score <= 2
    ensures l == CHAOTIC <==> score <= 0
  {
    if score >= 3 then STRONG
    else if score == 1 || score == 2 then SOLID
    else CHAOTIC
  }

  /** calculateVerdict. The score is accumulated rule by rule, as the
      source does with `+=` and `-=` on a local. */
  function CalculateVerdict(m: WeeklyMetrics, previous: Option<WeeklyMetrics>): (v: VerdictResult)
    ensures previous.None? ==> -1 <= v.score <= 4
    ensures -2 <= v.score <= 4
    ensures v.verdictLabel == STRONG <==> v.score >= 3
    ensures v.verdictLabel == SOLID <==> 1 <= v.score <= 2
    ensures v.verdictLabel == CHAOTIC <==> v.score <= 0
  {
    var s0 := 0;
    var s1 := if m.activity.prMerged >= 1 then s0 + 1 else s0;
    var s2 := if m.activity.featuresCompleted >= 1 then s1 + 1 else s1;
    var s3 := if m.combat.bugFixRatio >= 1.0 then s2 + 1 else s2;
    var s4 := if m.defense.testsWritten >= 5 then s3 + 1 else s3;
    var s5 := if m.combat.bugFixRatio < 1.0 then s4 - 1 else s4;
    var score := if previous.Some? && m.combat.openBugs > previous.value.combat.openBugs then s5 - 1 else s5;
    VerdictResult(score, LabelFor(score))
  }

  function Indicator(b: bool): int
  {
    if b then 1 else 0
  }

  /** The ratio rules fire exclusively: a ratio of at least one earns a
      point, any smaller ratio costs one, and the open-bugs penalty applies
      only against a previous week with strictly fewer open bugs. */
  lemma ScoreIsSumOfRules(m: WeeklyMetrics, previous: Option<WeeklyMetrics>)
    ensures CalculateVerdict(m, previous).score ==
      Indicator(m.activity.prMerged >= 1) + Indicator(m.activity.featuresCompleted >= 1)
      + Indicator(m.defense.testsWritten >= 5)
      + (if m.combat.bugFixRatio >= 1.0 then 1 else -1)
      - Indicator(previous.Some? && m.combat.openBugs > previous.value.combat.openBugs)
  {
  }

  /** Supplying a previous week changes the score by exactly the open-bugs
      penalty, and only when open bugs grew. */
  lemma OpenBugsPenalty(m: WeeklyMetrics, p: WeeklyMetrics)
    ensures CalculateVerdict(m, Some(p)).score ==
      CalculateVerdict(m, None).score - (if m.combat.openBugs > p.combat.openBugs then 1 else 0)
  {
  }

  /** More of every rewarded quantity, and no more open bugs, never lowers
      the score. */
  lemma ScoreMonotone(m: WeeklyMetrics, m': WeeklyMetrics, previous: Option<WeeklyMetrics>)
    requires m.activity.prMerged <= m'.activity.prMerged
    requires m.activity.featuresCompleted <= m'.activity.featuresCompleted
    requires m.combat.bugFixRatio <= m'.combat.bugFixRatio
    requires m.defense.testsWritten <= m'.defense.testsWritten
    requires m'.combat.openBugs <= m.combat.openBugs
    ensures CalculateVerdict(m, previous).score <= CalculateVerdict(m', previous).score
  {
  }

  /** An empty week: only the ratio penalty fires. */
  lemma EmptyWeekIsChaotic()
    ensures CalculateVerdict(ZeroMetrics, None) == VerdictResult(-1, CHAOTIC)
  {
  }

  /** Every bonus earned, no previous week: the maximum score. */
  lemma FullWeekIsStrong(commits: nat, prOpened: nat, bugsFound: nat, ciRuns: nat)
    ensures CalculateVerdict(WeeklyMetrics(Activity(commits, prOpened, 3, 1), Combat(bugsFound, bugsFound, 0, 1.0), Defense(5, ciRuns)), None)
      == VerdictResult(4, STRONG)
  {
  }

  /** The same week with half its bugs fixed loses the ratio bonus and pays
      the ratio penalty. */
  lemma HalfFixedWeekIsSolid()
    ensures CalculateVerdict(WeeklyMetrics(Activity(0, 0, 3, 1), Combat(0, 0, 0, 0.5), Defense(5, 0)), None)
      == VerdictResult(2, SOLID)
  {
  }

  // ---------------------------------------------------------------------
  // Trend

  datatype Trend = Improving | Stable | Declining | InsufficientData

  datatype TrendResult = TrendResult(trend: Trend, arrow: string)

  const UpArrow := "\U{2191}"
  const RightArrow := "\U{2192}"
  const DownArrow := "\U{2193}"

  function Weight(l: Label): nat
  {
    match l
    case STRONG => 3
    case SOLID => 2
    case CHAOTIC => 1
  }

  function Weights(ls: seq<Label>): (w: seq<nat>)
    ensures |w| == |ls|
    ensures forall i :: 0 <= i < |ls| ==> w[i] == Weight(ls[i])
  {
    seq(|ls|, i requires 0 <= i < |ls| => Weight(ls[i]))
  }

  /** `slice(-3)`: the last three elements, or all of them when fewer. */
  function LastThree(w: seq<nat>): (r: seq<nat>)
    ensures |r| == if |w| < 3 then |w| else 3
    ensures r == w[|w| - |r|..]
  {
    if |w| <= 3 then w else w[|w| - 3..]
  }

  /** The weights the trend is computed from. */
  function Recent(ls: seq<Label>): seq<nat>
  {
    LastThree(Weights(ls))
  }

  /** The number of consecutive pairs that rise. */
  function Rises(w: seq<nat>): nat
  {
    if |w| < 2 then 0
    else Rises(w[..|w| - 1]) + Indicator(w[|w| - 1] > w[|w| - 2])
  }

  /** The number of consecutive pairs that fall. */
  function Falls(w: seq<nat>): nat
  {
    if |w| < 2 then 0
    else Falls(w[..|w| - 1]) + Indicator(w[|w| - 1] < w[|w| - 2])
  }

  /** calculateTrend: more rises than falls among the recent pairs is
      improving, more falls is declining, a tie is stable; fewer than two
      verdicts give no trend. */
  method CalculateTrend(verdicts: seq<Label>) returns (t: TrendResult)
    ensures |verdicts| < 2 ==> t == TrendResult(InsufficientData, "")
    ensures |verdicts| >= 2 ==>
      (t == TrendResult(Improving, UpArrow) <==> Rises(Recent(verdicts)) > Falls(Recent(verdicts)))
    ensures |verdicts| >= 2 ==>
      (t == TrendResult(Declining, DownArrow) <==> Falls(Recent(verdicts)) > Rises(Recent(verdicts)))
    ensures |verdicts| >= 2 ==>
      (t == TrendResult(Stable, RightArrow) <==> Rises(Recent(verdicts)) == Falls(Recent(verdicts)))
  {
    if |verdicts| < 2 {
      return TrendResult(InsufficientData, "");
    }
    var scores := Weights(verdicts);
    var recent := LastThree(scores);
    var improving, declining := 0, 0;
    for i := 1 to |recent|
      invariant improving == Rises(recent[..i])
      invariant declining == Falls(recent[..i])
    {
      assert recent[..i + 1][..i] == recent[..i];
      if recent[i] > recent[i - 1] {
        improving := improving + 1;
      } else if recent[i] < recent[i - 1] {
        declining := declining + 1;
      }
    }
    assert recent[..|recent|] == recent;
    if improving > declining {
      t := TrendResult(Improving, UpArrow);
    } else if declining > improving {
      t := TrendResult(Declining, DownArrow);
    } else {
      t := TrendResult(Stable, RightArrow);
    }
  }

  /** Verdicts older than the last three never influence the trend. */
  lemma TrendIgnoresOlderVerdicts(older: seq<Label>, latest: seq<Label>)
    requires |latest| >= 3
    ensures Recent(older + latest) == Recent(latest)
  {
    var all := older + latest;
    var a, b := Weights(all), Weights(latest);
    assert Recent(all) == a[|a| - 3..];
    assert Recent(latest) == b[|b| - 3..];
    forall k | |a| - 3 <= k < |a|
      ensures a[k] == b[k - |older|]
    {
      assert all[k] == latest[k - |older|];
    }
    assert a[|a| - 3..] == b[|b| - 3..];
  }

  /** Among w's consecutive pairs at most |w| - 1 change, so a window of
      three has at most two rises and falls in all. */
  lemma {:induction false} RisesAndFallsBounded(w: seq<nat>)
    requires |w| >= 1
    ensures Rises(w) + Falls(w) <= |w| - 1
  {
    if |w| >= 2 {
      RisesAndFallsBounded(w[..|w| - 1]);
    }
  }

  /** A steady climb is improving; a dip and recovery is stable. */
  lemma TrendExamples()
    ensures Recent([CHAOTIC, SOLID, STRONG]) == [1, 2, 3]
    ensures Rises([1, 2, 3]) == 2 && Falls([1, 2, 3]) == 0
    ensures Recent([STRONG, CHAOTIC, STRONG]) == [3, 1, 3]
    ensures Rises([3, 1, 3]) == 1 && Falls([3, 1, 3]) == 1
  {
    assert Weights([CHAOTIC, SOLID, STRONG]) == [1, 2, 3];
    assert Weights([STRONG, CHAOTIC, STRONG]) == [3, 1, 3];
    assert [1, 2, 3][..2] == [1, 2];
    assert [1, 2, 3][..2][..1] == [1];
    assert [3, 1, 3][..2] == [3, 1];
    assert [3, 1, 3][..2][..1] == [3];
  }

  // ---------------------------------------------------------------------
  // Helper text

  function VerdictHelperText(l: Label): (s: string)
    ensures s != ""
  {
    match l
    case STRONG => "Momentum maintained."
    case SOLID => "Stable progress."
    case CHAOTIC => "Stability needs attention."
  }

  /** Each label has its own helper text. */
  lemma HelperTextsDistinct(a: Label, b: Label)
    requires a != b
    ensures VerdictHelperText(a) != VerdictHelperText(b)
  {
  }
}
