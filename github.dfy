/** The GitHub collaborator's pure parts: the repository listing loop with
    its fork filter, the issue, pull-request and commit classifiers, and the
    fold of per-repository counts into one weekly record. Every network
    response is an input; a failed request is `None`. */
module GitHub {
  import opened Wrappers
  import opened Metrics
  import opened Counting

  // ---------------------------------------------------------------------
  // Repository listing (getUserRepos)

  datatype Repo = Repo(id: int, name: string, fullName: string, isPrivate: bool, fork: bool, owner: string)

  /** Page size requested from the listing endpoint. */
  const PerPage: nat := 100

  /** The repositories of one page that are not forks, in page order. */
  function NonForks(page: seq<Repo>): (r: seq<Repo>)
    ensures |r| <= |page|
    ensures forall i :: 0 <= i < |r| ==> !r[i].fork
  {
    if page == [] then []
    else (if page[0].fork then [] else [page[0]]) + NonForks(page[1..])
  }

  /** The filter keeps exactly the non-fork repositories of the page. */
  lemma {:induction false} NonForksMembers(page: seq<Repo>)
    ensures forall x :: x in NonForks(page) <==> x in page && !x.fork
  {
    if page != [] {
      NonForksMembers(page[1..]);
      assert page == [page[0]] + page[1..];
    }
  }

  /** What the listing loop collects from the responses `pages` (the answer
      to page k + 1 is pages[k]; a page past the end of `pages` is empty):
      it reads pages until one is empty or shorter than a full page. */
  function ListedRepos(pages: seq<seq<Repo>>): seq<Repo>
  {
    ListedFrom(pages, 0)
  }

  /** What the loop collects from page i + 1 on. */
  function ListedFrom(pages: seq<seq<Repo>>, i: nat): seq<Repo>
    decreases |pages| - i
  {
    if i >= |pages| || pages[i] == [] then []
    else NonForks(pages[i]) + (if |pages[i]| < PerPage then [] else ListedFrom(pages, i + 1))
  }

  /** Starting at page i + 1, the loop reads page k + 1: every page before
      it was full, so no earlier page stopped the loop. */
  ghost predicate PageRead(pages: seq<seq<Repo>>, i: nat, k: nat)
  {
    i <= k < |pages| && forall j :: i <= j < k ==> |pages[j]| >= PerPage
  }

  /** The listing holds exactly the non-fork repositories of the pages the
      loop reads. */
  lemma ListedReposFromPages(pages: seq<seq<Repo>>)
    ensures forall x :: x in ListedRepos(pages) ==> !x.fork
    ensures forall x :: x in ListedRepos(pages) <==>
      !x.fork && exists k: nat :: PageRead(pages, 0, k) && x in pages[k]
  {
    ListedFromPages(pages, 0);
  }

  lemma ListedFromPages(pages: seq<seq<Repo>>, i: nat)
    ensures forall x :: x in ListedFrom(pages, i) ==> !x.fork
    ensures forall x :: x in ListedFrom(pages, i) <==>
      !x.fork && exists k: nat :: PageRead(pages, i, k) && x in pages[k]
  {
    forall x ensures x in ListedFrom(pages, i) <==> !x.fork && exists k: nat :: PageRead(pages, i, k) && x in pages[k] {
      ListedFromMember(pages, i, x);
    }
  }

  /** One repository at a time, by induction on the pages read. */
  lemma {:induction false} ListedFromMember(pages: seq<seq<Repo>>, i: nat, x: Repo)
    ensures x in ListedFrom(pages, i) <==> !x.fork && exists k: nat :: PageRead(pages, i, k) && x in pages[k]
    decreases |pages| - i
  {
    if i >= |pages| {
      assert forall k: nat :: !PageRead(pages, i, k);
    } else if |pages[i]| < PerPage {
      NonForksMembers(pages[i]);
      OnlyPageRead(pages, i);
    } else {
      NonForksMembers(pages[i]);
      ListedFromMember(pages, i + 1, x);
      FullPageRead(pages, i, x);
    }
  }

  /** A page shorter than a full one is the last page read. */
  lemma OnlyPageRead(pages: seq<seq<Repo>>, i: nat)
    requires i < |pages| && |pages[i]| < PerPage
    ensures PageRead(pages, i, i)
    ensures forall k: nat :: PageRead(pages, i, k) ==> k == i
  {
  }

  /** After a full page, the pages read are that page and those read from
      the next one. */
  lemma FullPageRead(pages: seq<seq<Repo>>, i: nat, x: Repo)
    requires i < |pages| && |pages[i]| >= PerPage
    ensures (exists k: nat :: PageRead(pages, i, k) && x in pages[k]) <==>
      x in pages[i] || exists k: nat :: PageRead(pages, i + 1, k) && x in pages[k]
  {
    if x in pages[i] {
      assert PageRead(pages, i, i);
    }
    if exists k: nat :: PageRead(pages, i + 1, k) && x in pages[k] {
      var k: nat :| PageRead(pages, i + 1, k) && x in pages[k];
      assert PageRead(pages, i, k);
    }
    if exists k: nat :: PageRead(pages, i, k) && x in pages[k] {
      var k: nat :| PageRead(pages, i, k) && x in pages[k];
      if k > i {
        assert PageRead(pages, i + 1, k);
      }
    }
  }

  /** A short first page ends the listing: a repository on a later page is
      never read. */
  lemma ShortPageEndsListing(a: Repo, b: Repo)
    requires !a.fork && !b.fork
    ensures ListedRepos([[a], [b]]) == [a]
  {
    assert NonForks([a][1..]) == [];
  }

  /** The paging loop of getUserRepos. */
  method GetUserRepos(pages: seq<seq<Repo>>) returns (repos: seq<Repo>)
    ensures repos == ListedRepos(pages)
    ensures forall x :: x in repos ==> !x.fork
  {
    repos := [];
    var page := 1;
    while true
      invariant 1 <= page <= |pages| + 1
      invariant repos + ListedFrom(pages, page - 1) == ListedRepos(pages)
      decreases |pages| + 1 - page
    {
      var data := if page <= |pages| then pages[page - 1] else [];
      if |data| == 0 {
        break;
      }
      var here := NonForks(data);
      if |data| < PerPage {
        repos := repos + here;
        break;
      }
      assert repos + here + ListedFrom(pages, page) == repos + (here + ListedFrom(pages, page));
      repos := repos + here;
      page := page + 1;
    }
    forall x | x in repos ensures !x.fork {
      ListedReposFromPages(pages);
    }
  }

  // ---------------------------------------------------------------------
  // Text helpers (ASCII only)

  function LowerChar(c: char): char
  {
    if 'A' <= c <= 'Z' then (c as int + 32) as char else c
  }

  function ToLower(s: string): (r: string)
    ensures |r| == |s|
    ensures forall i :: 0 <= i < |s| ==> r[i] == LowerChar(s[i])
  {
    seq(|s|, i requires 0 <= i < |s| => LowerChar(s[i]))
  }

  predicate StartsWith(s: string, p: string)
  {
    |p| <= |s| && s[..|p|] == p
  }

  /** The window of `s` starting at `i` equals `sub`. */
  predicate OccursAt(s: string, sub: string, i: int)
  {
    0 <= i && i + |sub| <= |s| && s[i..i + |sub|] == sub
  }

  /** `s.includes(sub)`: `sub` occurs somewhere in `s`. */
  function Contains(s: string, sub: string): (r: bool)
    ensures r <==> exists i :: OccursAt(s, sub, i)
    decreases |s|
  {
    if StartsWith(s, sub) then
      assert OccursAt(s, sub, 0);
      true
    else if s == [] then false
    else
      var r := Contains(s[1..], sub);
      assert forall i :: OccursAt(s, sub, i) ==> i >= 1 && OccursAt(s[1..], sub, i - 1) by {
        forall i | OccursAt(s, sub, i) ensures i >= 1 && OccursAt(s[1..], sub, i - 1) {
          assert i != 0;
          assert s[1..][i - 1..i - 1 + |sub|] == s[i..i + |sub|];
        }
      }
      assert forall j :: OccursAt(s[1..], sub, j) ==> OccursAt(s, sub, j + 1) by {
        forall j | OccursAt(s[1..], sub, j) ensures OccursAt(s, sub, j + 1) {
          assert s[1..][j..j + |sub|] == s[j + 1..j + 1 + |sub|];
        }
      }
      r
  }

  // ---------------------------------------------------------------------
  // Issue classification (getIssuesForWeek)

  /** A label as the API returns it: a bare string or an object whose name
      may be missing. Only object labels are inspected. */
  datatype IssueLabel = PlainLabel(text: string) | ObjectLabel(name: Option<string>)

  datatype Issue = Issue(labels: seq<IssueLabel>)

  predicate LabelMentions(l: IssueLabel, word: string)
  {
    l.ObjectLabel? && l.name.Some? && Contains(ToLower(l.name.value), word)
  }

  /** `labels.some(...)`: some label of the list mentions `word`. */
  function AnyLabelMentions(labels: seq<IssueLabel>, word: string): (r: bool)
    ensures r <==> exists i :: 0 <= i < |labels| && LabelMentions(labels[i], word)
  {
    if labels == [] then false
    else
      var r := LabelMentions(labels[0], word) || AnyLabelMentions(labels[1..], word);
      assert forall i :: 1 <= i < |labels| ==> labels[1..][i - 1] == labels[i];
      r
  }

  predicate IsBug(issue: Issue)
  {
    AnyLabelMentions(issue.labels, "bug")
  }

  predicate IsFeature(issue: Issue)
  {
    AnyLabelMentions(issue.labels, "feature")
  }

  /** `issues.filter(...).length` for the label test on `word`. */
  function CountMentioning(issues: seq<Issue>, word: string): (n: nat)
    ensures n <= |issues|
    ensures n == 0 <==> forall i :: 0 <= i < |issues| ==> !AnyLabelMentions(issues[i].labels, word)
  {
    if issues == [] then 0
    else
      var init := issues[..|issues| - 1];
      var n := CountMentioning(init, word) + (if AnyLabelMentions(issues[|issues| - 1].labels, word) then 1 else 0);
      assert forall i :: 0 <= i < |init| ==> init[i] == issues[i];
      n
  }

  /** The test applied to each issue for `word`. */
  function MentionTest(word: string): Issue -> bool
  {
    (issue: Issue) => AnyLabelMentions(issue.labels, word)
  }

  /** The positions of the issues whose labels mention `word`: with "bug",
      the positions where IsBug holds; with "feature", where IsFeature does. */
  ghost function Mentioning(issues: seq<Issue>, word: string): set<int>
  {
    Positions(issues, MentionTest(word))
  }

  /** The count is the number of positions whose issue mentions `word`. */
  lemma {:induction false} CountMentioningIsSize(issues: seq<Issue>, word: string)
    ensures CountMentioning(issues, word) == |Mentioning(issues, word)|
  {
    if issues == [] {
      assert Mentioning(issues, word) == {};
    } else {
      CountMentioningIsSize(issues[..|issues| - 1], word);
      PositionsStep(issues, MentionTest(word));
    }
  }

  /** The positions counted as bugs and as features are those where IsBug
      and IsFeature hold. */
  lemma MentioningClassifies(issues: seq<Issue>)
    ensures Mentioning(issues, "bug") == Positions(issues, IsBug)
    ensures Mentioning(issues, "feature") == Positions(issues, IsFeature)
  {
  }

  datatype IssueCounts = IssueCounts(featuresCompleted: nat, bugsFound: nat, bugsFixed: nat)

  /** getIssuesForWeek over the two listings it requests: issues created
      by the user, and issues closed by the user. Bugs are counted in both,
      features only among the closed ones. */
  function IssuesForWeek(fetched: Option<(seq<Issue>, seq<Issue>)>): (r: IssueCounts)
    ensures fetched.None? ==> r == IssueCounts(0, 0, 0)
    ensures fetched.Some? ==> r.bugsFound <= |fetched.value.0|
    ensures fetched.Some? ==> r.bugsFixed <= |fetched.value.1| && r.featuresCompleted <= |fetched.value.1|
    ensures fetched.Some? ==>
      r.bugsFound == |Positions(fetched.value.0, IsBug)|
      && r.bugsFixed == |Positions(fetched.value.1, IsBug)|
      && r.featuresCompleted == |Positions(fetched.value.1, IsFeature)|
  {
    match fetched
    case None => IssueCounts(0, 0, 0)
    case Some((created, closed)) =>
      CountMentioningIsSize(created, "bug");
      CountMentioningIsSize(closed, "bug");
      CountMentioningIsSize(closed, "feature");
      MentioningClassifies(created);
      MentioningClassifies(closed);
      IssueCounts(CountMentioning(closed, "feature"), CountMentioning(created, "bug"), CountMentioning(closed, "bug"))
  }

  // ---------------------------------------------------------------------
  // Pull requests (getPRsForWeek)

  datatype PullRequest = PullRequest(mergedAt: Option<string>)

  /** `pr.merged_at` is truthy: present and not the empty string. */
  predicate IsMerged(pr: PullRequest)
  {
    pr.mergedAt.Some? && pr.mergedAt.value != ""
  }

  /** `filter(pr => pr.merged_at).length`. */
  function CountMerged(prs: seq<PullRequest>): (n: nat)
    ensures n <= |prs|
  {
    if prs == [] then 0
    else CountMerged(prs[..|prs| - 1]) + (if IsMerged(prs[|prs| - 1]) then 1 else 0)
  }

  /** The merged count is the number of positions holding a merged PR. */
  lemma {:induction false} CountMergedIsSize(prs: seq<PullRequest>)
    ensures CountMerged(prs) == |Positions(prs, IsMerged)|
  {
    if prs == [] {
      assert Positions(prs, IsMerged) == {};
    } else {
      CountMergedIsSize(prs[..|prs| - 1]);
      PositionsStep(prs, IsMerged);
    }
  }

  /** Opened: the size of the first listing; merged: the entries of the
      second listing that carry a merge time. Failure gives zero for both. */
  function PRsForWeek(fetched: Option<(seq<PullRequest>, seq<PullRequest>)>): (r: (nat, nat))
    ensures fetched.None? ==> r == (0, 0)
    ensures fetched.Some? ==> r.0 == |fetched.value.0| && r.1 <= |fetched.value.1|
    ensures fetched.Some? ==> r.1 == |Positions(fetched.value.1, IsMerged)|
  {
    if fetched.None? then (0, 0)
    else
      CountMergedIsSize(fetched.value.1);
      var count := |fetched.value.0|;
      (count, CountMerged(fetched.value.1))
  }

  // ---------------------------------------------------------------------
  // Test commits (getTestCommits)

  datatype CommitFile = CommitFile(filename: Option<string>)

  datatype CommitDetail = CommitDetail(files: Option<seq<CommitFile>>)

  /** A path that lies in a test directory or names a test or spec file. */
  predicate IsTestPath(name: string)
  {
    Contains(name, "/test/") || Contains(name, "/tests/") || Contains(name, ".test.") || Contains(name, ".spec.")
  }

  predicate IsTestFile(f: CommitFile)
  {
    f.filename.Some? && IsTestPath(f.filename.value)
  }

  function AnyTestFile(files: seq<CommitFile>): (r: bool)
    ensures r <==> exists i :: 0 <= i < |files| && IsTestFile(files[i])
  {
    if files == [] then false
    else
      var r := IsTestFile(files[0]) || AnyTestFile(files[1..]);
      assert forall i :: 1 <= i < |files| ==> files[1..][i - 1] == files[i];
      r
  }

  /** The commit's detail was fetched and lists a test file. */
  predicate TouchesTests(detail: Option<CommitDetail>)
  {
    detail.Some? && detail.value.files.Some? && AnyTestFile(detail.value.files.value)
  }

  /** One commit's contribution: 1 when its detail was fetched and lists a
      test file, otherwise 0 (a failed detail request counts 0). */
  function TestCommitScore(detail: Option<CommitDetail>): (n: nat)
    ensures n <= 1
    ensures n == 1 <==> TouchesTests(detail)
  {
    if TouchesTests(detail) then 1 else 0
  }

  /** The `reduce` of the per-commit scores. */
  function SumTestScores(details: seq<Option<CommitDetail>>): (n: nat)
    ensures n <= |details|
  {
    if details == [] then 0
    else SumTestScores(details[..|details| - 1]) + TestCommitScore(details[|details| - 1])
  }

  /** The total is the number of commits whose detail lists a test file. */
  lemma {:induction false} SumTestScoresIsSize(details: seq<Option<CommitDetail>>)
    ensures SumTestScores(details) == |Positions(details, TouchesTests)|
  {
    if details == [] {
      assert Positions(details, TouchesTests) == {};
    } else {
      SumTestScoresIsSize(details[..|details| - 1]);
      PositionsStep(details, TouchesTests);
    }
  }

  /** The number of the week's commits that touch a test file; zero when
      the commit listing itself fails. */
  function TestCommits(fetched: Option<seq<Option<CommitDetail>>>): (n: nat)
    ensures fetched.None? ==> n == 0
    ensures fetched.Some? ==> n <= |fetched.value|
    ensures fetched.Some? ==> n == |Positions(fetched.value, TouchesTests)|
  {
    match fetched
    case None => 0
    case Some(details) =>
      SumTestScoresIsSize(details);
      SumTestScores(details)
  }

  // ---------------------------------------------------------------------
  // Weekly fold (calculateWeeklyMetrics)

  /** The six requests made for one repository, each of which may fail. */
  datatype RepoFetch = RepoFetch(
    commits: Option<nat>,
    prs: Option<(seq<PullRequest>, seq<PullRequest>)>,
    issues: Option<(seq<Issue>, seq<Issue>)>,
    openBugs: Option<nat>,
    testCommits: Option<seq<Option<CommitDetail>>>,
    workflowRuns: Option<nat>)

  function OrZero(n: Option<nat>): nat
  {
    if n.Some? then n.value else 0
  }

  /** The counts one repository contributes; a failed request adds 0 to
      the metrics it feeds and nothing else. */
  function RepoCounts(f: RepoFetch): Counts
  {
    var prs := PRsForWeek(f.prs);
    var issues := IssuesForWeek(f.issues);
    Counts(OrZero(f.commits), prs.0, prs.1, issues.featuresCompleted,
           issues.bugsFound, issues.bugsFixed, OrZero(f.openBugs),
           TestCommits(f.testCommits), OrZero(f.workflowRuns))
  }

  /** Each failed request zeroes exactly the counts it feeds: failing one
      more request changes those counts to 0 and leaves the others. */
  lemma RequestFailureIsLocal(f: RepoFetch)
    ensures var r := RepoCounts(f);
      (f.commits.None? ==> r.commits == 0)
      && (f.prs.None? ==> r.prOpened == 0 && r.prMerged == 0)
      && (f.prs.Some? ==> r.prOpened == |f.prs.value.0| && r.prMerged <= |f.prs.value.1|)
      && (f.issues.None? ==> r.featuresCompleted == 0 && r.bugsFound == 0 && r.bugsFixed == 0)
      && (f.openBugs.None? ==> r.openBugs == 0)
      && (f.testCommits.None? ==> r.testsWritten == 0)
      && (f.workflowRuns.None? ==> r.ciRuns == 0)
    ensures RepoCounts(f.(commits := None)) == RepoCounts(f).(commits := 0)
    ensures RepoCounts(f.(prs := None)) == RepoCounts(f).(prOpened := 0, prMerged := 0)
    ensures RepoCounts(f.(issues := None)) == RepoCounts(f).(featuresCompleted := 0, bugsFound := 0, bugsFixed := 0)
    ensures RepoCounts(f.(openBugs := None)) == RepoCounts(f).(openBugs := 0)
    ensures RepoCounts(f.(testCommits := None)) == RepoCounts(f).(testsWritten := 0)
    ensures RepoCounts(f.(workflowRuns := None)) == RepoCounts(f).(ciRuns := 0)
  {
  }

  function RepoCountsAll(fs: seq<RepoFetch>): (r: seq<Counts>)
    ensures |r| == |fs|
    ensures forall i :: 0 <= i < |fs| ==> r[i] == RepoCounts(fs[i])
  {
    MapSeq(RepoCounts, fs)
  }

  /** The weekly ratio rule: fixed/found when bugs were found, otherwise
      the number fixed itself. */
  function WeeklyBugFixRatio(found: nat, fixed: nat): (r: real)
    ensures found > 0 ==> r * found as real == fixed as real
    ensures found == 0 ==> r == fixed as real
  {
    if found > 0 then fixed as real / found as real else fixed as real
  }

  function WeeklyFrom(t: Counts): WeeklyMetrics
  {
    WeeklyMetrics(
      Activity(t.commits, t.prOpened, t.prMerged, t.featuresCompleted),
      Combat(t.bugsFound, t.bugsFixed, t.openBugs, WeeklyBugFixRatio(t.bugsFound, t.bugsFixed)),
      Defense(t.testsWritten, t.ciRuns))
  }

  /** calculateWeeklyMetrics: every count, open bugs included, is the sum
      over the repositories; the ratio is derived from the sums. */
  method CalculateWeeklyMetrics(fetches: seq<RepoFetch>) returns (m: WeeklyMetrics)
    ensures CountsOf(m) == Tally(RepoCountsAll(fetches))
    ensures m.combat.bugFixRatio == WeeklyBugFixRatio(m.combat.bugsFound, m.combat.bugsFixed)
    ensures fetches == [] ==> m == ZeroMetrics
  {
    ghost var all := RepoCountsAll(fetches);
    var acc := NoCounts;
    for i := 0 to |fetches|
      invariant acc == Tally(all[..i])
    {
      var c := RepoCounts(fetches[i]);
      assert all[..i + 1][..i] == all[..i];
      assert Tally(all[..i + 1]) == Add(Tally(all[..i]), c);
      AddFieldwise(acc, c);
      acc := acc.(commits := acc.commits + c.commits,
                  prOpened := acc.prOpened + c.prOpened,
                  prMerged := acc.prMerged + c.prMerged,
                  featuresCompleted := acc.featuresCompleted + c.featuresCompleted,
                  bugsFound := acc.bugsFound + c.bugsFound,
                  bugsFixed := acc.bugsFixed + c.bugsFixed,
                  openBugs := acc.openBugs + c.openBugs,
                  testsWritten := acc.testsWritten + c.testsWritten,
                  ciRuns := acc.ciRuns + c.ciRuns);
    }
    assert all[..|fetches|] == all;
    m := WeeklyFrom(acc);
  }

  /** Adding field by field, as the loop does with `+=`, is `Add`. */
  lemma AddFieldwise(acc: Counts, c: Counts)
    ensures acc.(commits := acc.commits + c.commits,
                 prOpened := acc.prOpened + c.prOpened,
                 prMerged := acc.prMerged + c.prMerged,
                 featuresCompleted := acc.featuresCompleted + c.featuresCompleted,
                 bugsFound := acc.bugsFound + c.bugsFound,
                 bugsFixed := acc.bugsFixed + c.bugsFixed,
                 openBugs := acc.openBugs + c.openBugs,
                 testsWritten := acc.testsWritten + c.testsWritten,
                 ciRuns := acc.ciRuns + c.ciRuns) == Add(acc, c)
  {
  }

  /** A repository whose every request failed contributes nothing. */
  lemma FailedRepoContributesNothing(others: seq<RepoFetch>)
    ensures Tally(RepoCountsAll(others + [RepoFetch(None, None, None, None, None, None)])) == Tally(RepoCountsAll(others))
  {
    var f := RepoFetch(None, None, None, None, None, None);
    var all := RepoCountsAll(others + [f]);
    assert all[..|others|] == RepoCountsAll(others);
    assert all[|others|] == NoCounts;
    AddZero(Tally(RepoCountsAll(others)));
  }

  /** The weekly fold is a sum: the metrics of two groups of repositories
      add up to the metrics of their union. */
  lemma WeeklyCountsAdd(a: seq<RepoFetch>, b: seq<RepoFetch>)
    ensures Tally(RepoCountsAll(a + b)) == Add(Tally(RepoCountsAll(a)), Tally(RepoCountsAll(b)))
  {
    RepoCountsAllAppend(a, b);
    TallyAppend(RepoCountsAll(a), RepoCountsAll(b));
  }

  /** The per-repository counts of two groups, side by side. */
  lemma RepoCountsAllAppend(a: seq<RepoFetch>, b: seq<RepoFetch>)
    ensures RepoCountsAll(a + b) == RepoCountsAll(a) + RepoCountsAll(b)
  {
    MapSeqAppend(RepoCounts, a, b);
  }
}
