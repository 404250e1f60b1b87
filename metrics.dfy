/** The weekly metric record shared by every engine, and the per-field sum
    of raw counts that both the weekly fold and the monthly roll-up use. */
module Metrics {

  datatype Activity = Activity(commits: nat, prOpened: nat, prMerged: nat, featuresCompleted: nat)

  datatype Combat = Combat(bugsFound: nat, bugsFixed: nat, openBugs: nat, bugFixRatio: real)

  datatype Defense = Defense(testsWritten: nat, ciRuns: nat)

  datatype WeeklyMetrics = WeeklyMetrics(activity: Activity, combat: Combat, defense: Defense)

  /** The record every aggregation starts from. */
  const ZeroMetrics := WeeklyMetrics(Activity(0, 0, 0, 0), Combat(0, 0, 0, 0.0), Defense(0, 0))

  /** The nine raw counts of a metric record, without the derived ratio. */
  datatype Counts = Counts(
    commits: nat, prOpened: nat, prMerged: nat, featuresCompleted: nat,
    bugsFound: nat, bugsFixed: nat, openBugs: nat,
    testsWritten: nat, ciRuns: nat)

  const NoCounts := Counts(0, 0, 0, 0, 0, 0, 0, 0, 0)

  function Add(a: Counts, b: Counts): Counts
  {
    Counts(a.commits + b.commits, a.prOpened + b.prOpened, a.prMerged + b.prMerged,
           a.featuresCompleted + b.featuresCompleted,
           a.bugsFound + b.bugsFound, a.bugsFixed + b.bugsFixed, a.openBugs + b.openBugs,
           a.testsWritten + b.testsWritten, a.ciRuns + b.ciRuns)
  }

  /** Per-field sum of a sequence of counts, folded from the left as the
      source's loops do. */
  function Tally(cs: seq<Counts>): Counts
  {
    if cs == [] then NoCounts else Add(Tally(cs[..|cs| - 1]), cs[|cs| - 1])
  }

  function CountsOf(m: WeeklyMetrics): Counts
  {
    Counts(m.activity.commits, m.activity.prOpened, m.activity.prMerged, m.activity.featuresCompleted,
           m.combat.bugsFound, m.combat.bugsFixed, m.combat.openBugs,
           m.defense.testsWritten, m.defense.ciRuns)
  }

  /** Summing is insensitive to how the sequence is split: the sum of a
      concatenation is the sum of the parts. */
  lemma {:induction false} TallyAppend(a: seq<Counts>, b: seq<Counts>)
    ensures Tally(a + b) == Add(Tally(a), Tally(b))
    decreases |b|
  {
    if b == [] {
      assert a + b == a;
      assert Tally(b) == NoCounts;
      AddZero(Tally(a));
    } else {
      var n := |b| - 1;
      var init, last := b[..n], b[n];
      assert (a + b)[..|a + b| - 1] == a + init;
      assert (a + b)[|a + b| - 1] == last;
      calc {
        Tally(a + b);
        Add(Tally(a + init), last);
        { TallyAppend(a, init); }
        Add(Add(Tally(a), Tally(init)), last);
        { AddAssociative(Tally(a), Tally(init), last); }
        Add(Tally(a), Add(Tally(init), last));
      }
    }
  }

  lemma AddZero(x: Counts)
    ensures Add(x, NoCounts) == x
  {
  }

  lemma AddAssociative(x: Counts, y: Counts, z: Counts)
    ensures Add(Add(x, y), z) == Add(x, Add(y, z))
  {
  }

  /** A single element sums to itself; zero elements sum to zero. */
  lemma TallySingleton(c: Counts)
    ensures Tally([c]) == c
    ensures Tally([]) == NoCounts
  {
    assert [c][..0] == [];
  }
}
