/** The snapshot store: a table of weekly snapshot rows keyed by (user,
    week start, repo scope), with lookup, insert and the "most recent
    weeks, newest first" query; and the current-week test. Week starts are
    day numbers, instants are milliseconds. */
module SnapshotEngine {
  import opened Wrappers
  import opened Metrics
  import opened VerdictEngine
  import opened TargetEngine

  datatype SnapshotKey = SnapshotKey(githubUserId: string, weekStart: int, repoScope: string)

  datatype WeeklySnapshot = WeeklySnapshot(
    key: SnapshotKey, metrics: WeeklyMetrics, verdict: VerdictResult, targets: TargetEvaluation, qualified: bool)

  datatype StoreError = ClientUnavailable | InsertRejected

  /** The number of rows the streak query returns unless told otherwise. */
  const DefaultStreakLimit: nat := 12

  /** The database's unique constraint: no two rows share a key. */
  ghost predicate UniqueKeys(rows: seq<WeeklySnapshot>)
  {
    forall i, j :: 0 <= i < |rows| && 0 <= j < |rows| && rows[i].key == rows[j].key ==> i == j
  }

  predicate HasKey(rows: seq<WeeklySnapshot>, k: SnapshotKey)
  {
    exists i :: 0 <= i < |rows| && rows[i].key == k
  }

  predicate OwnedBy(row: WeeklySnapshot, user: string, scope: string)
  {
    row.key.githubUserId == user && row.key.repoScope == scope
  }

  /** `weekStart` lies strictly before `bound`; no bound admits everything. */
  predicate Before(weekStart: int, bound: Option<int>)
  {
    bound.None? || weekStart < bound.value
  }

  class SnapshotStore {
    /** Whether the database client was configured. */
    const available: bool
    /** The weekly_snapshots table. */
    var rows: seq<WeeklySnapshot>

    ghost predicate Valid()
      reads this
    {
      UniqueKeys(rows)
    }

    constructor (available: bool)
      ensures Valid() && this.available == available && rows == []
    {
      this.available := available;
      rows := [];
    }

    /** The position of the row with key `k`, if there is one. */
    method FindKey(k: SnapshotKey) returns (idx: Option<nat>)
      ensures idx.Some? ==> idx.value < |rows| && rows[idx.value].key == k
      ensures idx.None? ==> !HasKey(rows, k)
    {
      idx := None;
      var i := 0;
      while i < |rows|
        invariant 0 <= i <= |rows|
        invariant forall j :: 0 <= j < i ==> rows[j].key != k
      {
        if rows[i].key == k {
          return Some(i);
        }
        i := i + 1;
      }
    }

    /** getSnapshot: the row matching all three key fields; nothing when
        the client is missing or no row matches. */
    method GetSnapshot(githubUserId: string, weekStart: int, repoScope: string) returns (r: Option<WeeklySnapshot>)
      requires Valid()
      ensures r.Some? <==> available && HasKey(rows, SnapshotKey(githubUserId, weekStart, repoScope))
      ensures r.Some? ==> r.value in rows && r.value.key == SnapshotKey(githubUserId, weekStart, repoScope)
    {
      if !available {
        return None;
      }
      var idx := FindKey(SnapshotKey(githubUserId, weekStart, repoScope));
      if idx.None? {
        return None;
      }
      return Some(rows[idx.value]);
    }

    /** createSnapshot: insert one row. The insert fails when the client is
        missing, and is rejected by the unique constraint when the key is
        already present; otherwise the row is appended and returned. */
    method CreateSnapshot(githubUserId: string, weekStart: int, repoScope: string,
                          metrics: WeeklyMetrics, verdict: VerdictResult, targets: TargetEvaluation,
                          qualified: bool)
      returns (r: Result<WeeklySnapshot, StoreError>)
      requires Valid()
      modifies this
      ensures Valid()
      ensures var row := WeeklySnapshot(SnapshotKey(githubUserId, weekStart, repoScope), metrics, verdict, targets, qualified);
        if !available then r == Err(ClientUnavailable) && rows == old(rows)
        else if HasKey(old(rows), row.key) then r == Err(InsertRejected) && rows == old(rows)
        else r == Ok(row) && rows == old(rows) + [row]
    {
      if !available {
        return Err(ClientUnavailable);
      }
      var row := WeeklySnapshot(SnapshotKey(githubUserId, weekStart, repoScope), metrics, verdict, targets, qualified);
      var idx := FindKey(row.key);
      if idx.Some? {
        return Err(InsertRejected);
      }
      rows := rows + [row];
      r := Ok(row);
    }

    /** The position of the newest row of (user, scope) whose week starts
        before `bound`. */
    method NewestBefore(user: string, scope: string, bound: Option<int>) returns (found: Option<nat>)
      ensures found.Some? ==>
        found.value < |rows| && OwnedBy(rows[found.value], user, scope) && Before(rows[found.value].key.weekStart, bound)
      ensures found.Some? ==>
        forall j :: 0 <= j < |rows| && OwnedBy(rows[j], user, scope) && Before(rows[j].key.weekStart, bound) ==>
          rows[j].key.weekStart <= rows[found.value].key.weekStart
      ensures found.None? ==> forall j :: 0 <= j < |rows| && OwnedBy(rows[j], user, scope) ==> !Before(rows[j].key.weekStart, bound)
    {
      found := None;
      for i := 0 to |rows|
        invariant found.Some? ==>
          found.value < i && OwnedBy(rows[found.value], user, scope) && Before(rows[found.value].key.weekStart, bound)
        invariant found.Some? ==>
          forall j :: 0 <= j < i && OwnedBy(rows[j], user, scope) && Before(rows[j].key.weekStart, bound) ==>
            rows[j].key.weekStart <= rows[found.value].key.weekStart
        invariant found.None? ==> forall j :: 0 <= j < i && OwnedBy(rows[j], user, scope) ==> !Before(rows[j].key.weekStart, bound)
      {
        var row := rows[i];
        if OwnedBy(row, user, scope) && Before(row.key.weekStart, bound)
           && (found.None? || row.key.weekStart > rows[found.value].key.weekStart) {
          found := Some(i);
        }
      }
    }

    /** getSnapshotsForStreak: at most `limit` rows of (user, scope),
        newest week first; a row left out is older than every row returned,
        and none is left out unless `limit` rows were returned. */
    method GetSnapshotsForStreak(githubUserId: string, repoScope: string, limit: nat := DefaultStreakLimit) returns (res: seq<WeeklySnapshot>)
      requires Valid()
      ensures !available ==> res == []
      ensures |res| <= limit
      ensures forall i :: 0 <= i < |res| ==> res[i] in rows && OwnedBy(res[i], githubUserId, repoScope)
      ensures forall i, j :: 0 <= i < j < |res| ==> res[i].key.weekStart > res[j].key.weekStart
      ensures available ==> forall k :: 0 <= k < |rows| && OwnedBy(rows[k], githubUserId, repoScope) && rows[k] !in res ==>
        |res| == limit && forall i :: 0 <= i < |res| ==> rows[k].key.weekStart < res[i].key.weekStart
    {
      if !available {
        return [];
      }
      var table := rows;
      res := [];
      var bound: Option<int> := None;
      while |res| < limit
        invariant |res| <= limit
        invariant forall i :: 0 <= i < |res| ==> res[i] in table && OwnedBy(res[i], githubUserId, repoScope)
        invariant forall i, j :: 0 <= i < j < |res| ==> res[i].key.weekStart > res[j].key.weekStart
        invariant bound.None? <==> res == []
        invariant bound.Some? ==> bound.value == res[|res| - 1].key.weekStart
        invariant forall k :: 0 <= k < |table| && OwnedBy(table[k], githubUserId, repoScope) && table[k] !in res ==>
          Before(table[k].key.weekStart, bound)
        decreases limit - |res|
      {
        var next := NewestBefore(githubUserId, repoScope, bound);
        if next.None? {
          return;
        }
        var row := table[next.value];
        NextIsOlder(table, res, bound, next.value, githubUserId, repoScope);
        res := res + [row];
        bound := Some(row.key.weekStart);
      }
      forall k | 0 <= k < |table| && OwnedBy(table[k], githubUserId, repoScope) && table[k] !in res
        ensures forall i :: 0 <= i < |res| ==> table[k].key.weekStart < res[i].key.weekStart
      {
        if res != [] {
          OlderThanAll(res, table[k].key.weekStart);
        }
      }
    }
  }

  /** The loop step of getSnapshotsForStreak: when row n is the newest
      owned row before the bound, every owned row still left out after
      taking it is older than it (keys are unique, so none ties with it). */
  lemma NextIsOlder(rows: seq<WeeklySnapshot>, res: seq<WeeklySnapshot>, bound: Option<int>, n: nat,
                    user: string, scope: string)
    requires UniqueKeys(rows)
    requires n < |rows| && OwnedBy(rows[n], user, scope)
    requires forall j :: 0 <= j < |rows| && OwnedBy(rows[j], user, scope) && Before(rows[j].key.weekStart, bound) ==>
      rows[j].key.weekStart <= rows[n].key.weekStart
    requires forall k :: 0 <= k < |rows| && OwnedBy(rows[k], user, scope) && rows[k] !in res ==>
      Before(rows[k].key.weekStart, bound)
    ensures forall k :: 0 <= k < |rows| && OwnedBy(rows[k], user, scope) && rows[k] !in res + [rows[n]] ==>
      rows[k].key.weekStart < rows[n].key.weekStart
  {
    forall k | 0 <= k < |rows| && OwnedBy(rows[k], user, scope) && rows[k] !in res + [rows[n]]
      ensures rows[k].key.weekStart < rows[n].key.weekStart
    {
      assert rows[k] !in res;
      assert rows[k].key.weekStart <= rows[n].key.weekStart;
      assert k != n;
      assert rows[k].key != rows[n].key;
    }
  }

  /** A week older than the last row of a newest-first list is older than
      every row of it. */
  lemma OlderThanAll(res: seq<WeeklySnapshot>, w: int)
    requires res != []
    requires forall i, j :: 0 <= i < j < |res| ==> res[i].key.weekStart > res[j].key.weekStart
    requires w < res[|res| - 1].key.weekStart
    ensures forall i :: 0 <= i < |res| ==> w < res[i].key.weekStart
  {
    forall i | 0 <= i < |res| ensures w < res[i].key.weekStart {
      if i < |res| - 1 {
        assert res[i].key.weekStart > res[|res| - 1].key.weekStart;
      }
    }
  }

  /** A new row can be read back: after a successful insert the lookup
      with the same key returns exactly the row inserted. */
  method CreateThenGet(store: SnapshotStore, githubUserId: string, weekStart: int, repoScope: string,
                       metrics: WeeklyMetrics, verdict: VerdictResult, targets: TargetEvaluation, qualified: bool)
    returns (created: Result<WeeklySnapshot, StoreError>, fetched: Option<WeeklySnapshot>)
    requires store.Valid()
    modifies store
    ensures store.Valid()
    ensures created.Ok? ==> created.value == WeeklySnapshot(SnapshotKey(githubUserId, weekStart, repoScope), metrics, verdict, targets, qualified)
    ensures created.Ok? ==> fetched == Some(created.value)
  {
    created := store.CreateSnapshot(githubUserId, weekStart, repoScope, metrics, verdict, targets, qualified);
    fetched := store.GetSnapshot(githubUserId, weekStart, repoScope);
    if created.Ok? {
      var n := |store.rows| - 1;
      assert store.rows[n] == created.value;
      var i :| 0 <= i < |store.rows| && store.rows[i] == fetched.value;
      assert i == n;
    }
  }

  // ---------------------------------------------------------------------
  // Current week

  const DayMillis: int := 86_400_000

  /** isCurrentWeek: `today` lies between the week's start and the instant
      six days later, both included. */
  function IsCurrentWeek(weekStart: int, today: int): (r: bool)
    ensures r <==> 0 <= today - weekStart <= 518_400_000
  {
    var weekEnd := weekStart + 6 * DayMillis;
    today >= weekStart && today <= weekEnd
  }

  /** The window closes six days after the start instant, not at the end of
      Sunday: one millisecond later the week is no longer current, and a
      week is never current at the same time as the next one. */
  lemma CurrentWeekWindow(weekStart: int, today: int)
    ensures IsCurrentWeek(weekStart, weekStart) && IsCurrentWeek(weekStart, weekStart + 6 * DayMillis)
    ensures !IsCurrentWeek(weekStart, weekStart + 6 * DayMillis + 1)
    ensures !IsCurrentWeek(weekStart, weekStart - 1)
    ensures !(IsCurrentWeek(weekStart, today) && IsCurrentWeek(weekStart + 7 * DayMillis, today))
  {
  }
}
