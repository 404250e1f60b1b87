/** The streak engine, as the code computes it: one pass over the last
    `maxWeeks` weeks, newest first, re-scoring each week from its metrics.
    Once the newest week qualifies, every later qualifying week adds one and
    a failing week neither stops nor resets the count. */
module StreakEngine {
  import opened Wrappers
  import opened Metrics
  import opened VerdictEngine
  import opened TargetsConfig
  import opened TargetEngine

  datatype StreakStatus = ACTIVE | BROKEN

  datatype StreakResult = StreakResult(
    currentStreak: nat, lastQualifiedWeek: string, status: StreakStatus, previousStreak: nat)

  /** The number of weeks the pass looks at unless told otherwise. */
  const DefaultMaxWeeks: nat := 12

  datatype WeekData = WeekData(weekDate: string, qualifies: bool)

  /** What the pass learns about one week: its start date (always known)
      and its metrics, `None` when fetching them failed. */
  datatype WeekFetch = WeekFetch(weekDate: string, metrics: Option<WeeklyMetrics>)

  /** A week qualifies when its verdict, scored without a previous week, is
      not CHAOTIC and its targets are ON_TRACK: a score of at least one and
      at least three of the four configured targets met. */
  function Qualifies(m: WeeklyMetrics): (r: bool)
    ensures r <==> (CalculateVerdict(m, None).score >= 1
                    && CountTrue([m.activity.prMerged >= 3, m.activity.featuresCompleted >= 1,
                                  m.combat.bugFixRatio >= 1.0, m.defense.testsWritten >= 5]) >= 3)
  {
    CalculateVerdict(m, None).verdictLabel != CHAOTIC
    && EvaluateTargets(m, WeeklyTargetsConfig).overallStatus == ON_TRACK
  }

  /** The timeline entry for one week; a failed fetch is a non-qualifying
      week that keeps its date and its place. */
  function RecordWeek(w: WeekFetch): (d: WeekData)
    ensures d.weekDate == w.weekDate
    ensures d.qualifies <==> w.metrics.Some? && Qualifies(w.metrics.value)
    ensures w.metrics.None? ==> !d.qualifies
  {
    match w.metrics
    case None => WeekData(w.weekDate, false)
    case Some(m) => WeekData(w.weekDate, Qualifies(m))
  }

  function Timeline(ws: seq<WeekFetch>): (ds: seq<WeekData>)
    ensures |ds| == |ws|
    ensures forall k :: 0 <= k < |ws| ==> ds[k] == RecordWeek(ws[k])
  {
    seq(|ws|, k requires 0 <= k < |ws| => RecordWeek(ws[k]))
  }

  /** The number of qualifying weeks in a timeline. */
  function QualifyingCount(ds: seq<WeekData>): (n: nat)
    ensures n <= |ds|
    ensures n == 0 <==> forall k :: 0 <= k < |ds| ==> !ds[k].qualifies
  {
    if ds == [] then 0
    else
      var n := QualifyingCount(ds[..|ds| - 1]) + (if ds[|ds| - 1].qualifies then 1 else 0);
      assert forall k :: 0 <= k < |ds| - 1 ==> ds[..|ds| - 1][k] == ds[k];
      n
  }

  /** The date of the last (oldest) qualifying week of a timeline, or ""
      when no week qualifies (LastQualifiedIsOldest characterises it when
      some week does). */
  function LastQualifiedDate(ds: seq<WeekData>): (d: string)
    ensures (forall k :: 0 <= k < |ds| ==> !ds[k].qualifies) ==> d == ""
  {
    if ds == [] then ""
    else if ds[|ds| - 1].qualifies then ds[|ds| - 1].weekDate
    else
      var init := ds[..|ds| - 1];
      assert forall k :: 0 <= k < |init| ==> init[k] == ds[k];
      LastQualifiedDate(init)
  }

  /** calculateStreak over the first `maxWeeks` entries of `weeks`
      (entry k is the week k weeks ago). */
  method CalculateStreak(weeks: seq<WeekFetch>, maxWeeks: nat := DefaultMaxWeeks) returns (r: StreakResult)
    requires maxWeeks <= |weeks|
    ensures var ds := Timeline(weeks[..maxWeeks]);
      r.status == (if maxWeeks > 0 && ds[0].qualifies then ACTIVE else BROKEN)
    ensures var ds := Timeline(weeks[..maxWeeks]);
      r.currentStreak == (if r.status == ACTIVE then QualifyingCount(ds) else 0)
    ensures var ds := Timeline(weeks[..maxWeeks]);
      r.lastQualifiedWeek ==
        if LastQualifiedDate(ds) != "" then LastQualifiedDate(ds)
        else if maxWeeks > 0 then ds[0].weekDate
        else ""
    ensures r.currentStreak <= maxWeeks
    ensures r.previousStreak == r.currentStreak
  {
    var weeksData: seq<WeekData> := [];
    var currentStreak: nat := 0;
    var lastQualifiedWeek := "";
    for weeksAgo := 0 to maxWeeks
      invariant weeksData == Timeline(weeks[..weeksAgo])
      invariant currentStreak == if weeksAgo > 0 && weeksData[0].qualifies then QualifyingCount(weeksData) else 0
      invariant lastQualifiedWeek == LastQualifiedDate(weeksData)
    {
      var week := weeks[weeksAgo];
      var qualifies := ScoreWeek(week);
      var entry := WeekData(week.weekDate, qualifies);
      TimelineStep(weeks, weeksAgo);
      AppendWeek(weeksData, entry);
      weeksData := weeksData + [entry];
      if qualifies {
        if weeksAgo == 0 {
          currentStreak := currentStreak + 1;
        } else if currentStreak > 0 {
          currentStreak := currentStreak + 1;
        }
        lastQualifiedWeek := week.weekDate;
      }
    }
    assert weeks[..maxWeeks][..maxWeeks] == weeks[..maxWeeks];
    var currentWeekQualifies := |weeksData| > 0 && weeksData[0].qualifies;
    if !currentWeekQualifies {
      currentStreak := 0;
    }
    var fallback := if |weeksData| > 0 then weeksData[0].weekDate else "";
    r := StreakResult(
      currentStreak,
      if lastQualifiedWeek != "" then lastQualifiedWeek else fallback,
      if currentWeekQualifies then ACTIVE else BROKEN,
      if currentStreak > 0 then currentStreak else 0);
  }

  /** The scoring of one week inside the pass: a week whose metrics could not
      be fetched does not qualify. */
  method ScoreWeek(week: WeekFetch) returns (qualifies: bool)
    ensures qualifies == RecordWeek(week).qualifies
    ensures qualifies <==> week.metrics.Some? && Qualifies(week.metrics.value)
  {
    match week.metrics {
      case None =>
        qualifies := false;
      case Some(metrics) =>
        var verdict := CalculateVerdict(metrics, None);
        var targets := EvaluateTargets(metrics, WeeklyTargetsConfig);
        qualifies := verdict.verdictLabel != CHAOTIC && targets.overallStatus == ON_TRACK;
    }
  }

  /** The timeline grows by one entry per week visited. */
  lemma TimelineStep(ws: seq<WeekFetch>, i: nat)
    requires i < |ws|
    ensures Timeline(ws[..i + 1]) == Timeline(ws[..i]) + [RecordWeek(ws[i])]
  {
    assert ws[..i + 1][..i] == ws[..i];
  }

  /** Appending one week to a timeline. */
  lemma AppendWeek(ds: seq<WeekData>, d: WeekData)
    ensures QualifyingCount(ds + [d]) == QualifyingCount(ds) + (if d.qualifies then 1 else 0)
    ensures LastQualifiedDate(ds + [d]) == if d.qualifies then d.weekDate else LastQualifiedDate(ds)
  {
    assert (ds + [d])[..|ds|] == ds;
  }

  /** With the newest week qualifying, the streak counts every qualifying
      week of the window, gaps included: a timeline qualifying, qualifying,
      failing, qualifying gives 3, not 2. */
  lemma StreakSkipsBrokenWeeks(a: string, b: string, c: string, d: string)
    ensures QualifyingCount([WeekData(a, true), WeekData(b, true), WeekData(c, false), WeekData(d, true)]) == 3
  {
    var w1, w2, w3, w4 := WeekData(a, true), WeekData(b, true), WeekData(c, false), WeekData(d, true);
    var t1, t2, t3, t4 := [w1], [w1, w2], [w1, w2, w3], [w1, w2, w3, w4];
    assert t1[..0] == [];
    assert QualifyingCount(t1) == 1;
    assert t2[..1] == t1;
    assert QualifyingCount(t2) == 2;
    assert t3[..2] == t2;
    assert QualifyingCount(t3) == 2;
    assert t4[..3] == t3;
  }

  /** The date reported is the oldest qualifying week's, even when newer
      weeks qualified too. */
  lemma {:induction false} LastQualifiedIsOldest(ds: seq<WeekData>, k: nat)
    requires k < |ds| && ds[k].qualifies
    requires forall j :: k < j < |ds| ==> !ds[j].qualifies
    ensures LastQualifiedDate(ds) == ds[k].weekDate
  {
    if k < |ds| - 1 {
      assert ds[..|ds| - 1][k] == ds[k];
      LastQualifiedIsOldest(ds[..|ds| - 1], k);
    }
  }
}
