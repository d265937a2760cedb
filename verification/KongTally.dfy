/** The counters an applied run reports are what it did to the tables. */
module KongTally {
  import opened Wrappers
  import opened KongImport
  import opened KongImportTheorems

  /** Rows without a link to a group in scope. */
  ghost function Unlinked(db: Db): nat { multiset(Links(db))[None] }

  /** Against the counters and tables at the start: rows inserted, groups created, rows relinked. */
  ghost predicate Booked(w0: Work, w: Work) {
    && |w.db.rows| == |w0.db.rows| + (w.tally.newPaths - w0.tally.newPaths)
    && |w.db.groups| == |w0.db.groups| + (w.tally.newGroups - w0.tally.newGroups)
    && Unlinked(w.db) + w.tally.relinked == Unlinked(w0.db) + w0.tally.relinked
  }

  lemma CountUpdated<T>(s: seq<T>, i: nat, x: T, y: T)
    requires i < |s| && s[i] == x && x != y
    ensures multiset(s[i := y])[x] == multiset(s)[x] - 1
  {
    assert s == s[..i] + [x] + s[i + 1..];
    assert s[i := y] == s[..i] + [y] + s[i + 1..];
  }

  lemma AdoptBooked(w: Work, e: Entry, t: Target, path: string)
    requires Inv(w) && Fits(w.db, e, t) && LinkKey(e.groupLabel, e.httpMethod, path) !in w.linked
    requires Waiting(w.pool, RouteKey(e.httpMethod, path)) != []
    ensures Unlinked(PathStep(w, e, t, path, true).db) == Unlinked(w.db) - 1
  {
    var x, k := LinkKey(e.groupLabel, e.httpMethod, path), RouteKey(e.httpMethod, path);
    var i := Waiting(w.pool, k)[0];
    assert CleanRoute(w.db, k, Waiting(w.pool, k));
    assert Links(PathStep(w, e, t, path, true).db) == Links(w.db)[i := Some(x)];
    CountUpdated(Links(w.db), i, None, Some(x));
  }

  lemma InsertBooked(w: Work, e: Entry, t: Target, path: string)
    requires Inv(w) && Fits(w.db, e, t) && LinkKey(e.groupLabel, e.httpMethod, path) !in w.linked
    requires Waiting(w.pool, RouteKey(e.httpMethod, path)) == []
    ensures Unlinked(PathStep(w, e, t, path, true).db) == Unlinked(w.db)
  {
    var x := LinkKey(e.groupLabel, e.httpMethod, path);
    assert Links(PathStep(w, e, t, path, true).db) == Links(w.db) + [Some(x)];
  }

  lemma PathBooked(w0: Work, w: Work, e: Entry, t: Target, path: string)
    requires Inv(w) && Fits(w.db, e, t) && Booked(w0, w)
    ensures Booked(w0, PathStep(w, e, t, path, true))
  {
    if LinkKey(e.groupLabel, e.httpMethod, path) !in w.linked {
      if Waiting(w.pool, RouteKey(e.httpMethod, path)) != [] {
        AdoptBooked(w, e, t, path);
      } else {
        InsertBooked(w, e, t, path);
      }
    }
  }

  lemma {:induction false} PathsBooked(w0: Work, w: Work, e: Entry, t: Target, paths: seq<string>)
    requires Inv(w) && Fits(w.db, e, t) && Booked(w0, w)
    ensures Booked(w0, Paths(w, e, t, paths, true))
    decreases |paths|
  {
    if paths != [] {
      PathsInv(w, e, t, paths[..|paths| - 1]);
      PathsBooked(w0, w, e, t, paths[..|paths| - 1]);
      PathBooked(w0, Paths(w, e, t, paths[..|paths| - 1], true), e, t, paths[|paths| - 1]);
    }
  }

  lemma ClaimBooked(w0: Work, w: Work, file: File, e: Entry, services: map<string, Service>)
    requires Inv(w) && IsMethod(e.httpMethod) && Booked(w0, w)
    ensures Booked(w0, Claim(w, file, e, services, true).0)
  {
    ClaimEffect(w, file, e, services);
  }

  lemma EntryBooked(w0: Work, w: Work, file: File, e: Entry, services: map<string, Service>)
    requires Inv(w) && IsMethod(e.httpMethod) && Booked(w0, w)
    ensures Booked(w0, EntryStep(w, file, e, services, true))
  {
    ClaimEffect(w, file, e, services);
    ClaimBooked(w0, w, file, e, services);
    var (claimed, target) := Claim(w, file, e, services, true);
    if target.Some? { PathsBooked(w0, claimed, e, target.value, e.paths); }
  }

  lemma RunBooked(w0: Work, file: RouteFile, n: nat, services: map<string, Service>)
    requires Inv(w0) && n <= |file.entries|
    ensures Booked(w0, Entries(w0, file, n, services, true))
  {
    var P := (i: nat, w: Work) => Inv(w) && Booked(w0, w);
    forall i: nat, w: Work | i < |file.entries| && P(i, w)
      ensures P(i + 1, EntryStep(w, file, file.entries[i], services, true))
    {
      EntryInv(w, file, file.entries[i], services);
      EntryBooked(w0, w, file, file.entries[i], services);
    }
    Induct(w0, file, n, services, true, P);
  }

  /** The counters of an applied run: as many rows and groups are new as it says, and as many rows
      that had no group have one now as it says it relinked.  By DryRunPredicts a dry run reports
      the same numbers. */
  lemma CountersAreTrue(db: Database, file: RouteFile, services: map<string, Service>)
    ensures var after := After(db, file, services);
      && after.tally.newPaths == |after.db.rows| - |db.rows|
      && after.tally.newGroups == |after.db.groups| - |db.groups|
      && after.tally.relinked == Unlinked(db) - Unlinked(after.db)
  {
    StartInv(db);
    RunBooked(Start(db), file, |file.entries|, services);
  }

  // ---------------------------------------------------------------- entries found and paths skipped

  /** A group of the database has the entry's label and method. */
  predicate InTable(db: Db, e: Entry) {
    exists j :: 0 <= j < |db.groups| && db.groups[j].key == e.groupLabel && db.groups[j].httpMethod == e.httpMethod
  }

  /** Among the first n entries, those with a group in the database. */
  function FoundCount(db: Db, file: File, n: nat): nat
    requires n <= |file.entries|
  {
    if n == 0 then 0 else FoundCount(db, file, n - 1) + if InTable(db, file.entries[n - 1]) then 1 else 0
  }

  /** The paths of those without a group and without a service. */
  function LostPaths(db: Db, file: File, services: map<string, Service>, n: nat): nat
    requires n <= |file.entries|
  {
    if n == 0 then 0
    else
      var e := file.entries[n - 1];
      LostPaths(db, file, services, n - 1)
      + if InTable(db, e) || e.groupLabel in services then 0 else |e.paths|
  }

  lemma {:induction false} PathsKeepCounts(w: Work, e: Entry, t: Target, paths: seq<string>)
    ensures var r := Paths(w, e, t, paths, true).tally;
      r.reused == w.tally.reused && r.skippedPaths == w.tally.skippedPaths
    decreases |paths|
  {
    if paths != [] { PathsKeepCounts(w, e, t, paths[..|paths| - 1]); }
  }

  lemma EntryCountsFound(w: Work, file: File, e: Entry, services: map<string, Service>)
    ensures var r := EntryStep(w, file, e, services, true).tally;
      && r.reused == w.tally.reused + (if InTable(w.db, e) then 1 else 0)
      && r.skippedPaths == w.tally.skippedPaths
                           + if InTable(w.db, e) || e.groupLabel in services then 0 else |e.paths|
  {
    var (claimed, target) := Claim(w, file, e, services, true);
    if target.Some? { PathsKeepCounts(claimed, e, target.value, e.paths); }
    TableIff(w.db, e);
  }

  lemma TableIff(db: Db, e: Entry)
    ensures InTable(db, e) <==> FindGroup(db.groups, EntryKey(e)).Some?
  {
    if j :| 0 <= j < |db.groups| && db.groups[j].key == e.groupLabel && db.groups[j].httpMethod == e.httpMethod {
      assert KeyOf(db.groups[j]) == EntryKey(e);
    }
  }

  ghost predicate Counted(w0: Work, file: File, services: map<string, Service>, n: nat, w: Work) {
    && n <= |file.entries|
    && w.tally.reused == w0.tally.reused + FoundCount(w0.db, file, n)
    && w.tally.skippedPaths == w0.tally.skippedPaths + LostPaths(w0.db, file, services, n)
  }

  lemma RunCounted(w0: Work, file: RouteFile, n: nat, services: map<string, Service>)
    requires Inv(w0) && n <= |file.entries|
    ensures Counted(w0, file, services, n, Entries(w0, file, n, services, true))
    decreases n
  {
    if n > 0 {
      var e, w := file.entries[n - 1], Entries(w0, file, n - 1, services, true);
      RunCounted(w0, file, n - 1, services);
      RunGood(w0, file, n - 1, services);
      assert Known(w, EntryKey(e)) <==> Known(w0, EntryKey(e)) || Created(file, n - 1, services, EntryKey(e));
      TableIff(w.db, e);
      TableIff(w0.db, e);
      EntryCountsFound(w, file, e, services);
    }
  }

  /** The other two counters: the entries that have a group in the database, and the paths of the
      entries that have neither group nor service. */
  lemma FoundAndSkipped(db: Database, file: RouteFile, services: map<string, Service>)
    ensures var after := After(db, file, services);
      && after.tally.reused == FoundCount(db, file, |file.entries|)
      && after.tally.skippedPaths == LostPaths(db, file, services, |file.entries|)
  {
    StartInv(db);
    RunCounted(Start(db), file, |file.entries|, services);
  }
}
