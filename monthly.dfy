/** The monthly report: month-parameter check, selection of the month's
    snapshots, the summing loop, the recomputed bug-fix ratio and the
    verdict from the share of qualified weeks. */
module MonthlyReport {
  import opened Wrappers
  import opened Metrics
  import opened GitHub
  import opened SnapshotEngine
  import opened Counting

  datatype MonthlyVerdict = STRONG_MONTH | SOLID_MONTH | UNSTABLE_MONTH | CHAOTIC_MONTH

  datatype MonthlyReport = MonthlyReport(
    metrics: WeeklyMetrics, qualifiedWeeks: nat, totalWeeks: nat, verdict: MonthlyVerdict)

  /** 400 for a bad month, 500 without a database, 404 for an empty month. */
  datatype RouteError = BadRequest | DatabaseUnavailable | NoDataForMonth

  /** Monthly reports always read the all-repositories scope. */
  const MonthlyScope := "all"

  predicate IsDigit(c: char)
  {
    '0' <= c <= '9'
  }

  /** `^\d{4}-\d{2}$`: four digits, a dash, two digits, nothing else. */
  function IsMonthFormat(s: string): (r: bool)
    ensures r <==> |s| == 7 && s[4] == '-' && forall i :: 0 <= i < |s| && i != 4 ==> IsDigit(s[i])
  {
    |s| == 7 && IsDigit(s[0]) && IsDigit(s[1]) && IsDigit(s[2]) && IsDigit(s[3])
    && s[4] == '-' && IsDigit(s[5]) && IsDigit(s[6])
  }

  lemma MonthFormatExamples()
    ensures IsMonthFormat("2024-03")
    ensures !IsMonthFormat("2024/03") && !IsMonthFormat("2024-3") && !IsMonthFormat("2024-03-01")
  {
  }

  // ---------------------------------------------------------------------
  // Selection of the month's snapshots

  predicate InMonth(row: WeeklySnapshot, githubUserId: string, firstDay: int, lastDay: int)
  {
    OwnedBy(row, githubUserId, MonthlyScope) && firstDay <= row.key.weekStart <= lastDay
  }

  predicate After(weekStart: int, bound: Option<int>)
  {
    bound.None? || weekStart > bound.value
  }

  /** `sel` is exactly the month's rows of the user, oldest week first. */
  ghost predicate IsMonthSelection(rows: seq<WeeklySnapshot>, githubUserId: string, firstDay: int, lastDay: int,
                                   sel: seq<WeeklySnapshot>)
  {
    (forall i :: 0 <= i < |sel| ==> sel[i] in rows && InMonth(sel[i], githubUserId, firstDay, lastDay))
    && (forall i, j :: 0 <= i < j < |sel| ==> sel[i].key.weekStart < sel[j].key.weekStart)
    && (forall k :: 0 <= k < |rows| && InMonth(rows[k], githubUserId, firstDay, lastDay) ==> rows[k] in sel)
  }

  /** The position of the oldest in-month row whose week starts after `bound`. */
  method OldestAfter(rows: seq<WeeklySnapshot>, githubUserId: string, firstDay: int, lastDay: int, bound: Option<int>)
    returns (found: Option<nat>)
    ensures found.Some? ==>
      found.value < |rows| && InMonth(rows[found.value], githubUserId, firstDay, lastDay)
      && After(rows[found.value].key.weekStart, bound)
    ensures found.Some? ==>
      forall j :: 0 <= j < |rows| && InMonth(rows[j], githubUserId, firstDay, lastDay) && After(rows[j].key.weekStart, bound) ==>
        rows[found.value].key.weekStart <= rows[j].key.weekStart
    ensures found.None? ==>
      forall j :: 0 <= j < |rows| && InMonth(rows[j], githubUserId, firstDay, lastDay) ==> !After(rows[j].key.weekStart, bound)
  {
    found := None;
    for i := 0 to |rows|
      invariant found.Some? ==>
        found.value < i && InMonth(rows[found.value], githubUserId, firstDay, lastDay)
        && After(rows[found.value].key.weekStart, bound)
      invariant found.Some? ==>
        forall j :: 0 <= j < i && InMonth(rows[j], githubUserId, firstDay, lastDay) && After(rows[j].key.weekStart, bound) ==>
          rows[found.value].key.weekStart <= rows[j].key.weekStart
      invariant found.None? ==>
        forall j :: 0 <= j < i && InMonth(rows[j], githubUserId, firstDay, lastDay) ==> !After(rows[j].key.weekStart, bound)
    {
      var row := rows[i];
      if InMonth(row, githubUserId, firstDay, lastDay) && After(row.key.weekStart, bound)
         && (found.None? || row.key.weekStart < rows[found.value].key.weekStart) {
        found := Some(i);
      }
    }
  }

  /** The query for user, scope "all" and week_start in [firstDay, lastDay],
      ordered by week_start ascending. */
  method SnapshotsForMonth(rows: seq<WeeklySnapshot>, githubUserId: string, firstDay: int, lastDay: int)
    returns (sel: seq<WeeklySnapshot>)
    requires UniqueKeys(rows)
    ensures IsMonthSelection(rows, githubUserId, firstDay, lastDay, sel)
  {
    sel := [];
    var bound: Option<int> := None;
    while true
      invariant forall i :: 0 <= i < |sel| ==> sel[i] in rows && InMonth(sel[i], githubUserId, firstDay, lastDay)
      invariant forall i, j :: 0 <= i < j < |sel| ==> sel[i].key.weekStart < sel[j].key.weekStart
      invariant bound.None? <==> sel == []
      invariant bound.Some? ==> bound.value == sel[|sel| - 1].key.weekStart
      invariant forall k :: 0 <= k < |rows| && InMonth(rows[k], githubUserId, firstDay, lastDay) && rows[k] !in sel ==>
        forall i :: 0 <= i < |sel| ==> rows[k].key.weekStart > sel[i].key.weekStart
      decreases lastDay - (if bound.None? then firstDay - 1 else bound.value)
    {
      var next := OldestAfter(rows, githubUserId, firstDay, lastDay, bound);
      if next.None? {
        forall k | 0 <= k < |rows| && InMonth(rows[k], githubUserId, firstDay, lastDay)
          ensures rows[k] in sel
        {
          if rows[k] !in sel {
            assert After(rows[k].key.weekStart, bound);
          }
        }
        return;
      }
      var n := next.value;
      var row := rows[n];
      forall k | 0 <= k < |rows| && InMonth(rows[k], githubUserId, firstDay, lastDay) && rows[k] !in sel + [row]
        ensures rows[k].key.weekStart > row.key.weekStart
      {
        assert After(rows[k].key.weekStart, bound);
      }
      sel := sel + [row];
      bound := Some(row.key.weekStart);
    }
  }

  // ---------------------------------------------------------------------
  // Aggregation

  function SnapshotCounts(snaps: seq<WeeklySnapshot>): (cs: seq<Counts>)
    ensures |cs| == |snaps|
    ensures forall i :: 0 <= i < |snaps| ==> cs[i] == CountsOf(snaps[i].metrics)
  {
    seq(|snaps|, i requires 0 <= i < |snaps| => CountsOf(snaps[i].metrics))
  }

  /** The monthly ratio rule: fixed/found when bugs were found; otherwise
      1 when any were fixed, else 0. */
  function MonthlyBugFixRatio(found: nat, fixed: nat): (r: real)
    ensures found > 0 ==> r * found as real == fixed as real
    ensures found == 0 && fixed > 0 ==> r == 1.0
    ensures found == 0 && fixed == 0 ==> r == 0.0
  {
    if found > 0 then fixed as real / found as real
    else if fixed > 0 then 1.0
    else 0.0
  }

  /** The monthly ratio meets the weekly target of one exactly when at
      least as many bugs were fixed as found, and at least one was fixed. */
  lemma MonthlyRatioMeetsTarget(found: nat, fixed: nat)
    ensures MonthlyBugFixRatio(found, fixed) >= 1.0 <==> fixed >= found && fixed > 0
  {
    if found > 0 {
      var r := MonthlyBugFixRatio(found, fixed);
      assert r * found as real == fixed as real;
      if r >= 1.0 {
        assert r * found as real >= found as real;
      } else {
        assert r * found as real < found as real;
      }
    }
  }

  /** The weekly and monthly ratio rules agree except when no bug was found
      and more than one was fixed (the weekly rule then gives the number
      fixed, the monthly rule 1). */
  lemma RatioRulesDiffer(found: nat, fixed: nat)
    ensures MonthlyBugFixRatio(found, fixed) == WeeklyBugFixRatio(found, fixed) <==> !(found == 0 && fixed > 1)
  {
  }

  /** `m` is the month's roll-up of `snaps`: flow counts summed, open bugs
      taken from the last (newest) snapshot, the ratio recomputed. */
  ghost predicate AggregatedFrom(m: WeeklyMetrics, snaps: seq<WeeklySnapshot>)
  {
    var t := Tally(SnapshotCounts(snaps));
    m.activity == Activity(t.commits, t.prOpened, t.prMerged, t.featuresCompleted)
    && m.combat.bugsFound == t.bugsFound && m.combat.bugsFixed == t.bugsFixed
    && m.combat.openBugs == (if snaps == [] then 0 else snaps[|snaps| - 1].metrics.combat.openBugs)
    && m.combat.bugFixRatio == MonthlyBugFixRatio(t.bugsFound, t.bugsFixed)
    && m.defense == Defense(t.testsWritten, t.ciRuns)
  }

  /** The summing loop of the monthly route. */
  method AggregateSnapshots(snaps: seq<WeeklySnapshot>) returns (agg: WeeklyMetrics)
    ensures AggregatedFrom(agg, snaps)
  {
    ghost var all := SnapshotCounts(snaps);
    agg := ZeroMetrics;
    var latestOpenBugs := 0;
    for i := 0 to |snaps|
      invariant CountsOf(agg) == Tally(all[..i]).(openBugs := 0)
      invariant agg.combat.bugFixRatio == 0.0
      invariant latestOpenBugs == if i == 0 then 0 else snaps[i - 1].metrics.combat.openBugs
    {
      var metrics := snaps[i].metrics;
      assert all[..i + 1][..i] == all[..i];
      assert Tally(all[..i + 1]) == Add(Tally(all[..i]), CountsOf(metrics));
      agg := agg.(
        activity := agg.activity.(
          commits := agg.activity.commits + metrics.activity.commits,
          prOpened := agg.activity.prOpened + metrics.activity.prOpened,
          prMerged := agg.activity.prMerged + metrics.activity.prMerged,
          featuresCompleted := agg.activity.featuresCompleted + metrics.activity.featuresCompleted),
        combat := agg.combat.(
          bugsFound := agg.combat.bugsFound + metrics.combat.bugsFound,
          bugsFixed := agg.combat.bugsFixed + metrics.combat.bugsFixed),
        defense := agg.defense.(
          testsWritten := agg.defense.testsWritten + metrics.defense.testsWritten,
          ciRuns := agg.defense.ciRuns + metrics.defense.ciRuns));
      latestOpenBugs := metrics.combat.openBugs;
    }
    assert all[..|snaps|] == all;
    agg := agg.(combat := agg.combat.(openBugs := latestOpenBugs));
    agg := agg.(combat := agg.combat.(bugFixRatio := MonthlyBugFixRatio(agg.combat.bugsFound, agg.combat.bugsFixed)));
  }

  /** Open bugs are a reading, not a flow: two weeks ending with 5 and then
      2 open bugs report 2, while the flows add up. */
  lemma OpenBugsTakenFromLastWeek(a: WeeklySnapshot, b: WeeklySnapshot, m: WeeklyMetrics)
    requires AggregatedFrom(m, [a, b])
    requires a.metrics.combat.openBugs == 5 && b.metrics.combat.openBugs == 2
    ensures m.combat.openBugs == 2
    ensures m.activity.commits == a.metrics.activity.commits + b.metrics.activity.commits
  {
    TallySingleton(CountsOf(a.metrics));
    assert SnapshotCounts([a, b])[..1] == [CountsOf(a.metrics)];
  }

  // ---------------------------------------------------------------------
  // Qualified weeks and the monthly verdict

  /** The snapshot was stored with its `qualified` flag set. */
  predicate StoredQualified(snap: WeeklySnapshot)
  {
    snap.qualified
  }

  /** `snapshots.filter(s => s.qualified).length`. */
  function QualifiedCount(snaps: seq<WeeklySnapshot>): (n: nat)
    ensures n <= |snaps|
  {
    if snaps == [] then 0
    else QualifiedCount(snaps[..|snaps| - 1]) + (if snaps[|snaps| - 1].qualified then 1 else 0)
  }

  /** The qualified count is the number of snapshots stored as qualified. */
  lemma {:induction false} QualifiedCountIsSize(snaps: seq<WeeklySnapshot>)
    ensures QualifiedCount(snaps) == |Positions(snaps, StoredQualified)|
  {
    if snaps == [] {
      assert Positions(snaps, StoredQualified) == {};
    } else {
      QualifiedCountIsSize(snaps[..|snaps| - 1]);
      PositionsStep(snaps, StoredQualified);
    }
  }

  /** The verdict from the share of qualified weeks, in whole numbers: every
      week qualified is a strong month, at least three quarters solid, at
      least one quarter unstable, less than that chaotic. */
  function MonthlyVerdictOf(qualifiedWeeks: nat, totalWeeks: nat): (r: MonthlyVerdict)
    requires totalWeeks > 0
    ensures r == STRONG_MONTH <==> qualifiedWeeks >= totalWeeks
    ensures r == SOLID_MONTH <==> qualifiedWeeks < totalWeeks && 4 * qualifiedWeeks >= 3 * totalWeeks
    ensures r == UNSTABLE_MONTH <==> 4 * qualifiedWeeks < 3 * totalWeeks && 4 * qualifiedWeeks >= totalWeeks
    ensures r == CHAOTIC_MONTH <==> 4 * qualifiedWeeks < totalWeeks
  {
    RatioAtLeast(qualifiedWeeks, totalWeeks, 1, 1);
    RatioAtLeast(qualifiedWeeks, totalWeeks, 3, 4);
    RatioAtLeast(qualifiedWeeks, totalWeeks, 1, 4);
    var qualifiedRatio := qualifiedWeeks as real / totalWeeks as real;
    if qualifiedRatio >= 1.0 / 1.0 then STRONG_MONTH
    else if qualifiedRatio >= 3.0 / 4.0 then SOLID_MONTH
    else if qualifiedRatio >= 1.0 / 4.0 then UNSTABLE_MONTH
    else CHAOTIC_MONTH
  }

  /** Comparing the ratio q/t with a/b is comparing the cross products. */
  lemma RatioAtLeast(q: nat, t: nat, a: nat, b: nat)
    requires t > 0 && b > 0
    ensures q as real / t as real >= a as real / b as real <==> q * b >= a * t
  {
    var x, y := q as real / t as real, a as real / b as real;
    var tb := t as real * b as real;
    assert x * t as real == q as real;
    assert y * b as real == a as real;
    assert x * tb == q as real * b as real;
    assert y * tb == a as real * t as real;
    ScaleByPositive(x, y, tb);
    assert (q * b) as real == q as real * b as real;
    assert (a * t) as real == a as real * t as real;
  }

  /** Multiplying both sides by a positive number keeps the comparison. */
  lemma ScaleByPositive(x: real, c: real, t: real)
    requires t > 0.0
    ensures x >= c <==> x * t >= c * t
  {
    assert x * t - c * t == (x - c) * t;
    if x >= c {
      assert (x - c) * t >= 0.0;
    } else {
      assert (x - c) * t < 0.0;
    }
  }

  lemma MonthlyVerdictExamples()
    ensures MonthlyVerdictOf(4, 4) == STRONG_MONTH
    ensures MonthlyVerdictOf(3, 4) == SOLID_MONTH
    ensures MonthlyVerdictOf(1, 4) == UNSTABLE_MONTH
    ensures MonthlyVerdictOf(0, 4) == CHAOTIC_MONTH
  {
  }

  /** `rep` is the report the route builds from the month's snapshots. */
  ghost predicate ReportFor(rep: MonthlyReport, sel: seq<WeeklySnapshot>)
  {
    sel != []
    && AggregatedFrom(rep.metrics, sel)
    && rep.totalWeeks == |sel|
    && rep.qualifiedWeeks == QualifiedCount(sel)
    && rep.verdict == MonthlyVerdictOf(rep.qualifiedWeeks, rep.totalWeeks)
  }

  /** The monthly-metrics route after authentication: the month is checked
      before anything else; an empty month is "no data", never zeros. The
      month's first and last day come from the calendar. */
  method MonthlyMetricsRoute(month: Option<string>, store: SnapshotStore, githubUserId: string, firstDay: int, lastDay: int)
    returns (r: Result<MonthlyReport, RouteError>)
    requires store.Valid()
    ensures (month.None? || !IsMonthFormat(month.value)) ==> r == Err(BadRequest)
    ensures month.Some? && IsMonthFormat(month.value) && !store.available ==> r == Err(DatabaseUnavailable)
    ensures month.Some? && IsMonthFormat(month.value) && store.available ==>
      (r == Err(NoDataForMonth) <==>
        forall k :: 0 <= k < |store.rows| ==> !InMonth(store.rows[k], githubUserId, firstDay, lastDay))
    ensures (month.Some? && IsMonthFormat(month.value) && store.available
             && exists k :: 0 <= k < |store.rows| && InMonth(store.rows[k], githubUserId, firstDay, lastDay))
            ==> r.Ok?
    ensures r.Ok? ==> 0 < r.value.totalWeeks && r.value.qualifiedWeeks <= r.value.totalWeeks
    ensures r.Ok? ==> exists sel :: IsMonthSelection(store.rows, githubUserId, firstDay, lastDay, sel) && ReportFor(r.value, sel)
  {
    if month.None? || !IsMonthFormat(month.value) {
      return Err(BadRequest);
    }
    if !store.available {
      return Err(DatabaseUnavailable);
    }
    var snapshots := SnapshotsForMonth(store.rows, githubUserId, firstDay, lastDay);
    if |snapshots| == 0 {
      return Err(NoDataForMonth);
    }
    assert InMonth(snapshots[0], githubUserId, firstDay, lastDay);
    var aggregated := AggregateSnapshots(snapshots);
    var qualifiedWeeks := QualifiedCount(snapshots);
    var totalWeeks := |snapshots|;
    var verdict := MonthlyVerdictOf(qualifiedWeeks, totalWeeks);
    r := Ok(MonthlyReport(aggregated, qualifiedWeeks, totalWeeks, verdict));
    assert ReportFor(r.value, snapshots);
  }
}
