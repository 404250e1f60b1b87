# GitHub weekly dashboard — scoring pipeline in Dafny

This project models the scoring core of a dashboard that grades a developer's
week of GitHub activity. From raw counts, the pipeline produces:

- the weekly metric record (activity, combat, defense);
- a verdict (STRONG / SOLID / CHAOTIC) and a trend;
- an evaluation against fixed weekly targets (ON_TRACK / AT_RISK);
- the Delivery / Stability / Quality composition;
- a qualifying-week streak;
- the persisted weekly snapshots, and the monthly report built from them.

Every operation of that pipeline is written in Dafny. Each one either
carries a contract of its own or is characterised by the lemmas listed
with it below; the few helpers without either (`Metrics.Add`,
`GitHub.OrZero`, `TargetEngine.Check`, `VerdictEngine.Rises`, and the like)
are exact definitions of a sum, a default or a comparison.

One Dafny module per source file:

| module | file | source | form |
|---|---|---|---|
| `Metrics` | metrics.dfy | lib/github.ts (`WeeklyMetrics`) | record and per-field sum shared by the weekly and monthly folds |
| `GitHub` | github.dfy | lib/github.ts | paging loop, label / file-name classifiers, the weekly fold as a method |
| `VerdictEngine` | verdict.dfy | lib/verdictEngine.ts | score and label as functions; the trend as a method with its loop |
| `TargetsConfig` | targets_config.dfy | lib/targetsConfig.ts | the target constants as a configuration value |
| `TargetEngine` | targets.dfy | lib/targetEngine.ts | pure functions |
| `CompositionEngine` | composition.dfy | lib/compositionEngine.ts | pure functions over `real` |
| `StreakEngine` | streak.dfy | lib/streakEngine.ts | the week-by-week pass as a method |
| `SnapshotEngine` | snapshots.dfy | lib/snapshotEngine.ts | a class over the `weekly_snapshots` table |
| `MonthlyReport` | monthly.dfy | app/api/monthly-metrics/route.ts | the route after authentication: checks, selection, summing loop, verdict |
| `Counting` | counting.dfy | — | the positions of a sequence where a test holds, and how they grow by one element; the `filter(...).length` counts are stated against them; the pointwise map of a sequence |
| `Wrappers` | wrappers.dfy | — | `Option` and `Result` |

How the inputs are represented:

- **GitHub responses.** Each repository's six GitHub requests become a
  `RepoFetch` value. Each part is an `Option`, and `None` stands for a
  request that failed.
- **Paging.** The listing endpoint's answers are a sequence of pages.
- **Streak weeks.** The streak pass receives one `WeekFetch` per week. Each
  holds the week's start date and its metrics, or `None` when computing the
  week failed.
- **Database client.** Whether the client is configured is the store's
  `available` flag.
- **Dates.** Week starts are day numbers.
- **Instants.** Instants are milliseconds.
- **Month bounds.** The first and last day of a month are inputs to the
  route; they come from the calendar.
- **Default arguments.** `maxWeeks = 12` (lib/streakEngine.ts:21) and
  `limit = 12` (lib/snapshotEngine.ts:78) are Dafny default parameter
  values (`StreakEngine.DefaultMaxWeeks`, `SnapshotEngine.DefaultStreakLimit`).
- **Ratios and percentages.** These are exact `real`s. `Math.round(x * 10) / 10`
  is `floor(10x + 1/2) / 10`.

Where the code does something other than what its own comments, messages
or neighbouring code suggest, the model follows the code:

- **Streak counting.**
  - The streak pass re-scores each week from its metrics, and does not read
    the persisted `qualified` flag.
  - Once the newest week qualifies, every later qualifying week adds one
    (`StreakEngine.StreakSkipsBrokenWeeks`). For newest-first weeks
    qualifying, qualifying, failing, qualifying, the code gives 3. The
    comments in the pass ("Continue streak", "Break streak", "currentStreak
    will be reset to 0 below", lib/streakEngine.ts:49-59) describe a streak
    that the failing week ends at 2; no such reset is in the code.
  - `lastQualifiedWeek` is the oldest qualifying week.
  - `previousStreak` equals `currentStreak`.
- **Weekly bug-fix ratio.** When no bug was found, the weekly ratio is the
  number of bugs fixed, not 1. The monthly route uses the three-way rule
  (`MonthlyReport.RatioRulesDiffer`).
- **Current week.** The test compares instants. Its window closes at the
  instant six days after the week's start, although the comment at
  lib/snapshotEngine.ts:101 speaks of reaching Sunday, so the rest of
  Sunday is not in the current week.

Two further points are plain code behaviour, stated here because a reader
might expect otherwise: the month parameter must be exactly `YYYY-MM` (no
`YYYY/MM` form or year range is checked), and an insert whose key is already
present is an error of `createSnapshot`, not a silent success.

## Model

| member | source | states |
|---|---|---|
| GitHub.NonForks | lib/github.ts:55 | the kept repositories are all non-forks and no more numerous than the page |
| GitHub.NonForksMembers | lib/github.ts:55 | a repository is kept exactly when it is on the page and is not a fork |
| GitHub.ListedReposFromPages | lib/github.ts:41-62 | a repository is listed exactly when it is a non-fork on some page k such that every page before k was full (so the loop went on to read page k) |
| GitHub.ListedFromPages | lib/github.ts:46-59 | the same, for the part of the listing read from a given page on |
| GitHub.OnlyPageRead | lib/github.ts:53-58 | after a short page (an empty page included) no later page is read |
| GitHub.FullPageRead | lib/github.ts:55-58 | after a full page, the pages read are that page and those read from the next page on |
| GitHub.ShortPageEndsListing | lib/github.ts:58 | with a one-repository first page, a repository on the second page is never listed |
| GitHub.GetUserRepos | lib/github.ts:41-62 | the paging loop collects the non-fork repositories page by page, stopping at an empty page or after a short one; none of them is a fork |
| GitHub.ToLower | lib/github.ts:151 | lower-casing keeps the length and maps each character on its own |
| GitHub.Contains | lib/github.ts:151 | `includes` holds exactly when the substring occurs at some position |
| GitHub.AnyLabelMentions | lib/github.ts:150-152 | an issue matches exactly when one of its object labels has a name whose lower-cased form contains the word |
| GitHub.CountMentioning | lib/github.ts:149-165 | the count of matching issues is at most the number of issues, and zero exactly when none matches |
| GitHub.CountMentioningIsSize | lib/github.ts:149-165 | `filter(...).length` is the number of positions whose issue has a label mentioning the word |
| GitHub.IssuesForWeek | lib/github.ts:128-176 | a failed request gives three zeros; otherwise bugs found is the number of positions of created issues where `IsBug` holds, bugs fixed the number of closed issues where `IsBug` holds, features completed the number of closed issues where `IsFeature` holds, each at most its listing's size |
| GitHub.CountMerged | lib/github.ts:120 | merged PRs are at most the PRs listed |
| GitHub.CountMergedIsSize | lib/github.ts:120 | the merged count is the number of positions holding a PR whose `merged_at` is present and non-empty |
| GitHub.PRsForWeek | lib/github.ts:96-126 | opened is the size of the first listing; merged is the number of PRs of the second listing with a truthy `merged_at`, so at most its size; a failure gives zero for both |
| GitHub.AnyTestFile | lib/github.ts:215-220 | a commit touches tests exactly when one of its files has a name with a test directory or a `.test.` / `.spec.` part |
| GitHub.TestCommitScore | lib/github.ts:206-224 | a commit counts 1 exactly when its detail was fetched and lists a test file, otherwise 0 |
| GitHub.SumTestScores | lib/github.ts:227 | the total is at most the number of commits |
| GitHub.SumTestScoresIsSize | lib/github.ts:206-227 | the summed scores are the number of commits whose detail was fetched and lists a test file |
| GitHub.TestCommits | lib/github.ts:195-232 | a failed commit listing gives 0; otherwise the number of commits whose detail was fetched and lists a test file, so at most one per commit |
| GitHub.RequestFailureIsLocal | lib/github.ts:273-292 | a failed request contributes 0 to exactly the counts it feeds: failing it changes those counts to 0 and leaves every other count of the repository as it was |
| GitHub.RepoCountsAll | lib/github.ts:270-280 | one count record per repository, each from its own six requests |
| GitHub.WeeklyBugFixRatio | lib/github.ts:295-297 | with bugs found, ratio × found equals fixed; with none found, the ratio is the number fixed |
| GitHub.CalculateWeeklyMetrics | lib/github.ts:250-300 | every field, open bugs included, is the sum over the repositories; the ratio follows the weekly rule; no repositories give the all-zero record |
| GitHub.FailedRepoContributesNothing | lib/github.ts:270-292 | a repository whose requests all failed changes no total |
| GitHub.WeeklyCountsAdd | lib/github.ts:270-292 | the fold over two groups of repositories is the sum of the folds over each |
| GitHub.RepoCountsAllAppend | lib/github.ts:270-280 | the per-repository counts of two groups, concatenated, are those of the concatenated groups |
| GitHub.AddFieldwise | lib/github.ts:282-292 | the nine `+=` updates of the loop are the record sum |
| Metrics.TallyAppend | lib/github.ts:282-292 | summing the records of a concatenation equals adding the sums of the parts |
| Metrics.TallySingleton | lib/github.ts:282-292 | one record sums to itself, and no records sum to zero |
| VerdictEngine.LabelFor | lib/verdictEngine.ts:30-38 | STRONG iff score ≥ 3, SOLID iff score is 1 or 2, CHAOTIC iff score ≤ 0 |
| VerdictEngine.CalculateVerdict | lib/verdictEngine.ts:13-41 | the score lies in [−1, 4] without a previous week and in [−2, 4] with one; the label follows the three thresholds |
| VerdictEngine.ScoreIsSumOfRules | lib/verdictEngine.ts:16-28 | the score is the three bonuses, plus one or minus one for the ratio (exactly one of the two ratio rules fires), minus the open-bugs penalty |
| VerdictEngine.OpenBugsPenalty | lib/verdictEngine.ts:25-28 | a previous week lowers the score by one exactly when open bugs strictly grew, and otherwise changes nothing |
| VerdictEngine.ScoreMonotone | lib/verdictEngine.ts:16-28 | more merged PRs, features, ratio and tests, with no more open bugs, never lower the score |
| VerdictEngine.EmptyWeekIsChaotic | lib/verdictEngine.ts:13-41 | the all-zero week scores −1 and is CHAOTIC |
| VerdictEngine.FullWeekIsStrong | lib/verdictEngine.ts:13-41 | a week meeting every bonus rule scores 4 and is STRONG |
| VerdictEngine.HalfFixedWeekIsSolid | lib/verdictEngine.ts:13-41 | the same week with ratio 0.5 scores 2 and is SOLID |
| VerdictEngine.Weights | lib/verdictEngine.ts:48-55 | each label becomes its weight STRONG 3, SOLID 2, CHAOTIC 1 |
| VerdictEngine.LastThree | lib/verdictEngine.ts:57 | `slice(-3)` is the suffix of the input of length three, or the whole input when it is shorter |
| VerdictEngine.CalculateTrend | lib/verdictEngine.ts:43-78 | fewer than two verdicts give "Insufficient data" with no arrow; otherwise Improving/↑ iff the recent pairs rise more often than they fall, Declining/↓ iff they fall more often, Stable/→ iff as often |
| VerdictEngine.TrendIgnoresOlderVerdicts | lib/verdictEngine.ts:48-57 | verdicts before the last three never affect the trend |
| VerdictEngine.RisesAndFallsBounded | lib/verdictEngine.ts:63-69 | n weights have at most n − 1 rises and falls together |
| VerdictEngine.TrendExamples | lib/verdictEngine.ts:43-78 | CHAOTIC, SOLID, STRONG has two rises; STRONG, CHAOTIC, STRONG has one of each |
| VerdictEngine.VerdictHelperText | lib/verdictEngine.ts:80-91 | every label has a non-empty helper text |
| VerdictEngine.HelperTextsDistinct | lib/verdictEngine.ts:80-91 | different labels have different texts |
| TargetEngine.CountTrue | lib/targetEngine.ts:38-43 | the number of met flags is at most the number of flags |
| TargetEngine.CountTrueIsSize | lib/targetEngine.ts:38-43 | `filter(Boolean).length` is the number of positions holding `true` |
| TargetEngine.EvaluateTargets | lib/targetEngine.ts:13-57 | each check copies its metric and its target, and is met iff metric ≥ target; completionRate × 4 is the number met, so it is one of 0, 0.25, 0.5, 0.75, 1; ON_TRACK iff at least three are met |
| TargetEngine.ConfiguredTargets | lib/targetsConfig.ts:1-6 | the configured targets are 3 merged PRs, 1 feature, ratio 1 and 5 test commits, and ON_TRACK means at least three of those met |
| TargetEngine.TargetExamples | lib/targetEngine.ts:13-57 | a week meeting all four configured targets is ON_TRACK with rate 1; one meeting only the PR and feature targets is AT_RISK with rate 0.5 |
| TargetEngine.TargetsMonotone | lib/targetEngine.ts:14-47 | raising any metric never clears a met flag, never lowers completionRate and never turns ON_TRACK into AT_RISK |
| TargetEngine.CountTrueMonotone | lib/targetEngine.ts:38-43 | switching flags on never lowers the count |
| TargetEngine.TargetsReadOnlyFourFields | lib/targetEngine.ts:13-57 | weeks that agree on the four targeted fields get the same evaluation |
| CompositionEngine.DeliveryScore | lib/compositionEngine.ts:29-32 | zero exactly when merged PRs, features and commits are all zero; never below their plain sum |
| CompositionEngine.StabilityScore | lib/compositionEngine.ts:34-36 | zero exactly when bugs fixed and found are both zero; never below their plain sum |
| CompositionEngine.QualityScore | lib/compositionEngine.ts:38-40 | zero exactly when tests written and CI runs are both zero; never below their plain sum |
| CompositionEngine.TotalScore | lib/compositionEngine.ts:42 | zero exactly when all three category scores are; at least each of them |
| CompositionEngine.Dominant | lib/compositionEngine.ts:62-68 | DELIVERY iff its value is at least both others; STABILITY iff it beats delivery and is at least quality; QUALITY iff it beats both |
| CompositionEngine.RoundToTenth | lib/compositionEngine.ts:71-73 | the rounded value is a whole number of tenths within half a tenth of the input |
| CompositionEngine.RawPercentOrder | lib/compositionEngine.ts:55-68 | shares of one total compare as their scores do |
| CompositionEngine.RawPercentRange | lib/compositionEngine.ts:55-57 | a part's share of a total lies between 0 and 100 |
| CompositionEngine.CalculateComposition | lib/compositionEngine.ts:27-76 | a zero total gives 0, 0, 0 and DELIVERY; otherwise each percent is its raw share rounded to a tenth and lies in [0, 100]; DELIVERY iff its score is at least both others, STABILITY iff it beats delivery and is at least quality, QUALITY iff it beats both |
| CompositionEngine.RoundingKeepsRange | lib/compositionEngine.ts:71-73 | rounding keeps a percentage within 0 to 100 |
| CompositionEngine.PercentsSumToHundred | lib/compositionEngine.ts:55-73 | the unrounded percents add up to exactly 100 and the rounded ones to within 0.15 of it |
| CompositionEngine.TieGoesToDelivery | lib/compositionEngine.ts:62-68 | equal scores make DELIVERY dominant |
| CompositionEngine.DominanceUsesUnroundedPercents | lib/compositionEngine.ts:55-73 | with 1000 commits and 1001 bugs found, both shares round to 50.0 yet STABILITY dominates |
| CompositionEngine.CompositionIgnoresUnweightedFields | lib/compositionEngine.ts:29-42 | opened PRs, open bugs and the ratio never change the composition |
| StreakEngine.Qualifies | lib/streakEngine.ts:31-35 | a week qualifies exactly when its score without a previous week is at least 1 and at least three of "3 merged PRs", "1 feature", "ratio 1", "5 test commits" hold |
| StreakEngine.RecordWeek | lib/streakEngine.ts:31-69 | a week keeps its date; it qualifies exactly when its metrics were obtained and qualify; a failed week does not qualify |
| StreakEngine.ScoreWeek | lib/streakEngine.ts:31-35 | a week qualifies exactly when its verdict without a previous week is not CHAOTIC and its targets are ON_TRACK |
| StreakEngine.Timeline | lib/streakEngine.ts:39-42 | one timeline entry per week visited, in order, failed weeks included |
| StreakEngine.QualifyingCount | lib/streakEngine.ts:45-52 | the number of qualifying weeks is at most the window and zero exactly when none qualifies |
| StreakEngine.LastQualifiedDate | lib/streakEngine.ts:53 | with no qualifying week the date is empty |
| StreakEngine.LastQualifiedIsOldest | lib/streakEngine.ts:45-53 | the date kept is the oldest qualifying week's, even when newer weeks qualified |
| StreakEngine.CalculateStreak | lib/streakEngine.ts:17-85 | ACTIVE iff the newest week qualifies; the streak is then the number of qualifying weeks among the first maxWeeks, and 0 when BROKEN; it never exceeds maxWeeks; lastQualifiedWeek is the oldest qualifying date, else the newest week's date, else empty; previousStreak equals currentStreak |
| StreakEngine.TimelineStep | lib/streakEngine.ts:39-42 | visiting one more week appends exactly that week's entry |
| StreakEngine.AppendWeek | lib/streakEngine.ts:45-53 | a qualifying week adds one to the count and becomes the kept date; a failing one changes neither |
| StreakEngine.StreakSkipsBrokenWeeks | lib/streakEngine.ts:45-52 | qualifying, qualifying, failing, qualifying counts 3: a failing week neither stops nor resets the count |
| SnapshotEngine.SnapshotStore.constructor | lib/snapshotEngine.ts:1 | a store starts with an empty table and the given client availability |
| SnapshotEngine.SnapshotStore.FindKey | lib/snapshotEngine.ts:22-28 | the position found holds the key, and no position is found only when no row has it |
| SnapshotEngine.SnapshotStore.GetSnapshot | lib/snapshotEngine.ts:15-39 | a row is returned exactly when the client is available and a row has all three key fields; the row returned is in the table and has that key |
| SnapshotEngine.SnapshotStore.CreateSnapshot | lib/snapshotEngine.ts:41-73 | without a client the insert fails and the table is unchanged; a present key is rejected and the table is unchanged; otherwise exactly the given row is appended and returned; keys stay unique |
| SnapshotEngine.SnapshotStore.NewestBefore | lib/snapshotEngine.ts:82-88 | the row found belongs to the user and scope, is before the bound and is the newest such; none is found only when no such row exists |
| SnapshotEngine.SnapshotStore.GetSnapshotsForStreak | lib/snapshotEngine.ts:75-95 | without a client, nothing; otherwise at most `limit` rows of the user and scope from the table, strictly newest first; a row left out means `limit` rows were returned, all newer than it |
| SnapshotEngine.NextIsOlder | lib/snapshotEngine.ts:84-88 | after taking the newest row before the bound, every row still left out is strictly older (unique keys rule out ties) |
| SnapshotEngine.OlderThanAll | lib/snapshotEngine.ts:84-88 | a week older than the last row of a newest-first list is older than all of it |
| SnapshotEngine.CreateThenGet | lib/snapshotEngine.ts:15-73 | after a successful insert, the lookup with the same key returns exactly the inserted row |
| SnapshotEngine.IsCurrentWeek | lib/snapshotEngine.ts:97-104 | the week is current exactly when `today` lies from the week's start instant to 518 400 000 ms (six days) after it, both included |
| SnapshotEngine.CurrentWeekWindow | lib/snapshotEngine.ts:97-104 | the week is current from its start instant up to and including six days later, not one millisecond after, and never at the same time as the next week |
| MonthlyReport.IsMonthFormat | app/api/monthly-metrics/route.ts:17-19 | a month is accepted exactly when it has seven characters, a dash at position 4 and a digit at every other position |
| MonthlyReport.MonthFormatExamples | app/api/monthly-metrics/route.ts:17-19 | `2024-03` is accepted; `2024/03`, `2024-3` and `2024-03-01` are rejected |
| MonthlyReport.OldestAfter | app/api/monthly-metrics/route.ts:45-52 | the row found is in the month, after the bound and the oldest such; none is found only when no such row exists |
| MonthlyReport.SnapshotsForMonth | app/api/monthly-metrics/route.ts:44-52 | the selection is exactly the user's "all"-scope rows with a week start in the month, each from the table, oldest first |
| MonthlyReport.SnapshotCounts | app/api/monthly-metrics/route.ts:87-103 | one count record per snapshot, taken from its metrics |
| MonthlyReport.MonthlyBugFixRatio | app/api/monthly-metrics/route.ts:111-119 | with bugs found, ratio × found equals fixed; with none found, 1 if any were fixed, else 0 |
| MonthlyReport.MonthlyRatioMeetsTarget | app/api/monthly-metrics/route.ts:111-119 | the monthly ratio reaches 1 exactly when at least as many bugs were fixed as found and at least one was fixed |
| MonthlyReport.RatioRulesDiffer | app/api/monthly-metrics/route.ts:111-119 | the monthly and weekly ratio rules agree except when no bug was found and more than one was fixed |
| MonthlyReport.AggregateSnapshots | app/api/monthly-metrics/route.ts:84-119 | flow counts are summed over the snapshots, open bugs come from the last one, and the ratio follows the monthly rule |
| MonthlyReport.OpenBugsTakenFromLastWeek | app/api/monthly-metrics/route.ts:84-109 | two weeks with 5 then 2 open bugs report 2 while commits add up |
| MonthlyReport.QualifiedCount | app/api/monthly-metrics/route.ts:122-123 | the qualified weeks are at most the weeks |
| MonthlyReport.QualifiedCountIsSize | app/api/monthly-metrics/route.ts:122 | the qualified weeks are the number of snapshots stored with `qualified` set |
| MonthlyReport.MonthlyVerdictOf | app/api/monthly-metrics/route.ts:126-137 | for q qualified weeks out of t: STRONG_MONTH iff q ≥ t; SOLID_MONTH iff q < t and 4q ≥ 3t; UNSTABLE_MONTH iff 4q < 3t and 4q ≥ t; CHAOTIC_MONTH iff 4q < t |
| MonthlyReport.RatioAtLeast | app/api/monthly-metrics/route.ts:127-135 | comparing q/t with a/b is comparing q·b with a·t |
| MonthlyReport.MonthlyVerdictExamples | app/api/monthly-metrics/route.ts:126-137 | 4/4, 3/4, 1/4 and 0/4 give the four verdicts in order |
| MonthlyReport.MonthlyMetricsRoute | app/api/monthly-metrics/route.ts:17-137 | a missing or malformed month is a bad request before anything else; no client is a database error; "no data" exactly when no snapshot of the user lies in the month; a well-formed month with a client and some snapshot in it always yields a report, built from exactly the month's snapshots, with at least one week and no more qualified weeks than weeks |

## Left out

- Authentication: the session check and its 401, and the request for the
  GitHub user (app/api/monthly-metrics/route.ts:8-37). These are I/O. The
  user id is an input.
- Network requests:
  - Requests to GitHub (Octokit) are left out. Their answers are inputs.
    For the six per-repository requests and the per-commit detail, a
    request that fails (caught in lib/github.ts) is an input marked `None`.
  - GitHub.GetUserRepos: a page request of the repository listing that
    fails throws out of `getUserRepos`, which has no `catch`. The model
    takes the pages as given and has no failing page.
  - The `per_page: 100` caps on single listings are left out. A listing
    holds whatever the input holds.
- Concurrency: the `Promise.all` fan-out is left out. Those requests are
  independent reads, taken in sequence.
- Calendar and time zones:
  - `getWeekRange`, date-fns `startOfWeek` / `endOfWeek` and the month
    bounds from `new Date(year, month, 0)` are left out. Days are plain
    numbers supplied by the caller.
  - `setDate` across a daylight-saving change is left out; a day in
    `isCurrentWeek` is always 86 400 000 ms.
- Floating point: ratios and percentages are exact reals. IEEE rounding in
  `/`, `Math.round` and of values such as 0.75 is not modelled.
- Text: `toLowerCase` is ASCII only; no other Unicode case mapping.
- Database errors other than a missing client and a duplicate key are left
  out. These include a failed query in `getSnapshot`, `getSnapshotsForStreak`
  or the monthly selection, and the PGRST116 code `getSnapshot` maps to "not
  found". Key uniqueness is enforced by the database; the store states it as
  its `Valid()` invariant.
- Snapshot row fields: `id` and `created_at` are set by the database and
  take no part in any rule.
- The monthly route's response: the JSON body, the status codes as numbers,
  and any field after line 137 (app/api/monthly-metrics/route.ts:139-154).
  The outcomes are the `RouteError` values and the `MonthlyReport` record.
- VerdictEngine.CalculateTrend:
  - The second `recent.length < 2` guard (lib/verdictEngine.ts:58-60) is
    left out. It is unreachable once at least two verdicts were supplied.
  - The `default: return 0` weight is left out. No other label exists.
- StreakEngine.CalculateStreak:
  - The streak takes the week list as given. It does not recompute weekly
    metrics from repositories.
  - The `find` at lib/streakEngine.ts:73 is modelled as reading the first
    entry. It searches for the first entry's own date, so the first match
    is that entry.
- StreakEngine.LastQualifiedDate: its contract only covers the
  nothing-qualified case. What the date is when some week qualifies is
  stated by `StreakEngine.LastQualifiedIsOldest`.
- The weekly metrics route, the report pages and every React component are
  left out. They are presentation and wiring, not the scoring core.
