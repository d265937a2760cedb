/**
  Conservation of rows in an applied reconcile run, route by route, and the dry run as an exact
  prediction of it.
*/
module KongConservation {
  import opened Wrappers
  import opened KongImport
  import opened KongImportTheorems

  function Min(a: nat, b: nat): nat { if a < b then a else b }

  // ---------------------------------------------------------------- what is asked for

  /** How often one entry asks for a route that its group does not hold yet. */
  function Demanded(e: Entry, resolved: bool, linked: set<LinkKey>, k: RouteKey): nat {
    if resolved && Claiming(e, linked, k) then multiset(e.paths)[k.path] else 0
  }

  /** The claims on a route by the first n entries: groups that resolve and are not linked to it. */
  function Demand(w0: Work, file: File, n: nat, services: map<string, Service>, k: RouteKey): nat
    requires n <= |file.entries|
  {
    if n == 0 then 0
    else
      Demand(w0, file, n - 1, services, k)
      + Demanded(file.entries[n - 1], Resolved(w0.db, file.entries[n - 1], services), w0.linked, k)
  }

  // ---------------------------------------------------------------- the ledger of one route

  ghost function Routes(rows: seq<Row>): (r: seq<RouteKey>)
    ensures |r| == |rows| && forall i :: 0 <= i < |r| ==> r[i] == RouteKeyOf(rows[i])
  {
    seq(|rows|, i requires 0 <= i < |rows| => RouteKeyOf(rows[i]))
  }

  /** The rows of a route added since the table had n rows. */
  ghost function AddedRows(n: nat, rows: seq<Row>, k: RouteKey): nat
    requires n <= |rows|
  {
    multiset(Routes(rows[n..]))[k]
  }

  /** After d claims on a route that had `pool` waiting in a table of n rows, the first
      min(d, |pool|) rows were taken and the other claims inserted; inserted rows never wait. */
  ghost predicate Ledger(pool: seq<nat>, n: nat, w: Work, k: RouteKey, d: nat) {
    && Waiting(w.pool, k) == pool[Min(d, |pool|)..]
    && n <= |w.db.rows|
    && AddedRows(n, w.db.rows, k) == d - Min(d, |pool|)
    && (forall k' :: Below(Waiting(w.pool, k'), n))
  }

  /** A row is taken from the pool of route k'. */
  lemma TakeLedger(pool: seq<nat>, n: nat, w: Work, r: Work, t: Target, k': RouteKey, k: RouteKey, d: nat)
    requires Ledger(pool, n, w, k, d) && Waiting(w.pool, k') != [] && Waiting(w.pool, k')[0] < n
    requires r.pool == w.pool[k' := Waiting(w.pool, k')[1..]]
    requires r.db.rows == Adopt(w.db.rows, Waiting(w.pool, k')[0], t)
    ensures Ledger(pool, n, r, k, if k == k' then d + 1 else d)
  {
    assert Routes(r.db.rows[n..]) == Routes(w.db.rows[n..]);
    forall k'' ensures Below(Waiting(r.pool, k''), n) {
      assert Below(Waiting(w.pool, k''), n);
    }
  }

  /** A row of route k' is inserted. */
  lemma AddLedger(pool: seq<nat>, n: nat, w: Work, r: Work, row: Row, k': RouteKey, k: RouteKey, d: nat)
    requires Ledger(pool, n, w, k, d) && Waiting(w.pool, k') == [] && RouteKeyOf(row) == k'
    requires r.pool == w.pool && r.db.rows == w.db.rows + [row]
    ensures Ledger(pool, n, r, k, if k == k' then d + 1 else d)
  {
    assert r.db.rows[n..] == w.db.rows[n..] + [row];
    assert Routes(r.db.rows[n..]) == Routes(w.db.rows[n..]) + [k'];
  }

  lemma PathLedger(pool: seq<nat>, n: nat, w: Work, e: Entry, t: Target, path: string, k: RouteKey, d: nat, after: nat)
    requires IsMethod(e.httpMethod) && Ledger(pool, n, w, k, d)
    requires after == if Claiming(e, w.linked, k) && k.path == path then d + 1 else d
    ensures Ledger(pool, n, PathStep(w, e, t, path, true), k, after)
  {
    var k' := RouteKey(e.httpMethod, path);
    if LinkKey(e.groupLabel, e.httpMethod, path) !in w.linked {
      if Waiting(w.pool, k') != [] {
        assert Below(Waiting(w.pool, k'), n);
        TakeLedger(pool, n, w, PathStep(w, e, t, path, true), t, k', k, d);
      } else {
        AddLedger(pool, n, w, PathStep(w, e, t, path, true), Inserted(e, path, t), k', k, d);
      }
    }
  }

  lemma {:induction false} PathsLinked(w: Work, e: Entry, t: Target, paths: seq<string>)
    ensures Paths(w, e, t, paths, true).linked == w.linked
  {
    if paths != [] { PathsLinked(w, e, t, paths[..|paths| - 1]); }
  }

  /** An entry claims route k with each of its paths unless its group is linked to it. */
  predicate Claiming(e: Entry, linked: set<LinkKey>, k: RouteKey) {
    e.httpMethod == k.httpMethod && LinkKey(e.groupLabel, k.httpMethod, k.path) !in linked
  }

  lemma {:induction false} PathsLedger(pool: seq<nat>, n: nat, w: Work, e: Entry, t: Target, paths: seq<string>,
                                       k: RouteKey, d: nat, after: nat)
    requires IsMethod(e.httpMethod) && Ledger(pool, n, w, k, d)
    requires after == d + if Claiming(e, w.linked, k) then multiset(paths)[k.path] else 0
    ensures Ledger(pool, n, Paths(w, e, t, paths, true), k, after)
  {
    if paths != [] {
      var front, last := paths[..|paths| - 1], paths[|paths| - 1];
      assert paths == front + [last];
      var mid := if Claiming(e, w.linked, k) && k.path == last then after - 1 else after;
      PathsLedger(pool, n, w, e, t, front, k, d, mid);
      PathsLinked(w, e, t, front);
      PathLedger(pool, n, Paths(w, e, t, front, true), e, t, last, k, mid, after);
    }
  }

  /** The claim of a group touches neither rows nor pool. */
  lemma ClaimKeepsRows(w: Work, file: File, e: Entry, services: map<string, Service>, apply: bool)
    ensures var (r, target) := Claim(w, file, e, services, apply);
      && r.db.rows == w.db.rows && r.pool == w.pool && r.linked == w.linked
      && r.tally.newPaths == w.tally.newPaths && r.tally.relinked == w.tally.relinked
      && (target.Some? <==> Resolved(w.db, e, services))
  {
  }

  lemma EntryLedger(pool: seq<nat>, n: nat, w: Work, file: File, e: Entry, services: map<string, Service>, k: RouteKey,
                    d: nat, after: nat)
    requires IsMethod(e.httpMethod) && Ledger(pool, n, w, k, d)
    requires after == d + Demanded(e, Resolved(w.db, e, services), w.linked, k)
    ensures Ledger(pool, n, EntryStep(w, file, e, services, true), k, after)
  {
    ClaimKeepsRows(w, file, e, services, true);
    var (claimed, target) := Claim(w, file, e, services, true);
    if target.Some? {
      assert Ledger(pool, n, claimed, k, d);
      PathsLedger(pool, n, claimed, e, target.value, e.paths, k, d, after);
    }
  }

  lemma LedgerStep(pool: seq<nat>, m: nat, w0: Work, file: RouteFile, n: nat, services: map<string, Service>,
                   k: RouteKey, w: Work)
    requires n < |file.entries| && Good(w0, file, n, services, w)
    requires Ledger(pool, m, w, k, Demand(w0, file, n, services, k))
    ensures Ledger(pool, m, EntryStep(w, file, file.entries[n], services, true), k,
              Demand(w0, file, n + 1, services, k))
  {
    LookupUnaffected(w0, file, n, services, w);
    EntryLedger(pool, m, w, file, file.entries[n], services, k,
                Demand(w0, file, n, services, k), Demand(w0, file, n + 1, services, k));
  }

  lemma RunLedger(pool: seq<nat>, m: nat, w0: Work, file: RouteFile, n: nat, services: map<string, Service>,
                  k: RouteKey)
    requires Inv(w0) && n <= |file.entries| && Ledger(pool, m, w0, k, 0)
    ensures Ledger(pool, m, Entries(w0, file, n, services, true), k, Demand(w0, file, n, services, k))
  {
    var P := (i: nat, w: Work) =>
      i <= |file.entries| && Good(w0, file, i, services, w) && Ledger(pool, m, w, k, Demand(w0, file, i, services, k));
    GoodStart(w0, file, services);
    forall i: nat, w: Work | i < |file.entries| && P(i, w)
      ensures P(i + 1, EntryStep(w, file, file.entries[i], services, true))
    {
      GoodStep(w0, file, i, services, w);
      LedgerStep(pool, m, w0, file, i, services, k, w);
    }
    Induct(w0, file, n, services, true, P);
  }

  // ---------------------------------------------------------------- the fate of one row

  /** A row of the table before the run: still itself while it waits or was linked, otherwise
      adopted once, with nothing but its link, owner and status changed. */
  ghost predicate RowKept(before: Work, w: Work, i: nat)
    requires i < |before.db.rows|
  {
    var r := before.db.rows[i];
    && i < |w.db.rows|
    && RouteKeyOf(w.db.rows[i]) == RouteKeyOf(r)
    && (w.db.rows[i] == r || (Links(before.db)[i] == None && exists t :: w.db.rows[i] == Adopted(r, t)))
    && (i in Waiting(w.pool, RouteKeyOf(r)) ==> w.db.rows[i] == r && Links(before.db)[i] == None)
    && (Links(before.db)[i] == None && i !in Waiting(w.pool, RouteKeyOf(r))
      ==> exists t :: w.db.rows[i] == Adopted(r, t))
  }

  lemma PathKeepsRow(before: Work, w: Work, e: Entry, t: Target, path: string, i: nat)
    requires i < |before.db.rows| && Inv(w) && RowKept(before, w, i)
    ensures RowKept(before, PathStep(w, e, t, path, true), i)
  {
    var r, k := PathStep(w, e, t, path, true), RouteKey(e.httpMethod, path);
    var mine := RouteKeyOf(before.db.rows[i]);
    if LinkKey(e.groupLabel, e.httpMethod, path) !in w.linked && Waiting(w.pool, k) != [] {
      var a := Waiting(w.pool, k)[0];
      assert CleanRoute(w.db, k, Waiting(w.pool, k));
      if a == i {
        assert w.db.rows[i] == before.db.rows[i] && r.db.rows[i] == Adopted(before.db.rows[i], t);
      } else if k == mine {
        assert i in Waiting(r.pool, k) <==> i in Waiting(w.pool, k);
      }
    }
  }

  lemma {:induction false} PathsKeepRow(before: Work, w: Work, e: Entry, t: Target, paths: seq<string>, i: nat)
    requires i < |before.db.rows| && Inv(w) && Fits(w.db, e, t) && RowKept(before, w, i)
    ensures RowKept(before, Paths(w, e, t, paths, true), i)
  {
    if paths != [] {
      var n := |paths| - 1;
      PathsKeepRow(before, w, e, t, paths[..n], i);
      PathsInv(w, e, t, paths[..n]);
      PathKeepsRow(before, Paths(w, e, t, paths[..n], true), e, t, paths[n], i);
    }
  }

  lemma EntryKeepsRow(before: Work, w: Work, file: File, e: Entry, services: map<string, Service>, i: nat)
    requires i < |before.db.rows| && Inv(w) && IsMethod(e.httpMethod) && RowKept(before, w, i)
    ensures RowKept(before, EntryStep(w, file, e, services, true), i)
  {
    ClaimKeepsRows(w, file, e, services, true);
    ClaimEffect(w, file, e, services);
    var (claimed, target) := Claim(w, file, e, services, true);
    assert RowKept(before, claimed, i);
    if target.Some? { PathsKeepRow(before, claimed, e, target.value, e.paths, i); }
  }

  lemma RunKeepsRow(w0: Work, file: RouteFile, n: nat, services: map<string, Service>, i: nat)
    requires Inv(w0) && n <= |file.entries| && i < |w0.db.rows| && RowKept(w0, w0, i)
    ensures RowKept(w0, Entries(w0, file, n, services, true), i)
  {
    var P := (j: nat, w: Work) => Inv(w) && RowKept(w0, w, i);
    forall j: nat, w: Work | j < |file.entries| && P(j, w)
      ensures P(j + 1, EntryStep(w, file, file.entries[j], services, true))
    {
      EntryInv(w, file, file.entries[j], services);
      EntryKeepsRow(w0, w, file, file.entries[j], services, i);
    }
    Induct(w0, file, n, services, true, P);
  }

  lemma RowAfter(db: Database, file: RouteFile, services: map<string, Service>, i: nat)
    requires i < |db.rows|
    ensures RowKept(Start(db), After(db, file, services), i)
  {
    StartInv(db);
    PoolMeaning(db, |db.rows|, RouteKeyOf(db.rows[i]));
    if Links(db)[i] == None { PoolComplete(db, |db.rows|, i); }
    RunKeepsRow(Start(db), file, |file.entries|, services, i);
  }

  lemma LedgerAfter(db: Database, file: RouteFile, services: map<string, Service>, k: RouteKey)
    ensures Ledger(Waiting(Start(db).pool, k), |db.rows|, After(db, file, services), k,
                   Demand(Start(db), file, |file.entries|, services, k))
  {
    StartInv(db);
    forall k' ensures Below(Waiting(Start(db).pool, k'), |db.rows|) {
      PoolMeaning(db, |db.rows|, k');
    }
    assert db.rows[|db.rows|..] == [];
    RunLedger(Waiting(Start(db).pool, k), |db.rows|, Start(db), file, |file.entries|, services, k);
  }

  /** Rows that were linked before the run are untouched by it. */
  lemma LinkedRowsUntouched(db: Database, file: RouteFile, services: map<string, Service>, i: nat)
    requires i < |db.rows| && Links(db)[i].Some?
    ensures var after := After(db, file, services).db; i < |after.rows| && after.rows[i] == db.rows[i]
  {
    RowAfter(db, file, services, i);
  }

  /** The claims on a route in a whole run. */
  function Claims(db: Db, file: File, services: map<string, Service>, k: RouteKey): nat {
    Demand(Start(db), file, |file.entries|, services, k)
  }

  /** Adoption conservation: of the claims on a route, as many as there are unlinked rows adopt
      one each and the others insert a row; what is not claimed stays in the pool. */
  lemma AdoptionConserved(db: Database, file: RouteFile, services: map<string, Service>, k: RouteKey)
    ensures var pool, after := Waiting(Start(db).pool, k), After(db, file, services);
      var claims := Claims(db, file, services, k);
      && |after.db.rows| >= |db.rows|
      && AddedRows(|db.rows|, after.db.rows, k) == claims - Min(claims, |pool|)
      && Waiting(after.pool, k) == pool[Min(claims, |pool|)..]
  {
    LedgerAfter(db, file, services, k);
  }

  /** The adopted rows are the first ones of the pool, each adopted once, and the others keep
      every field. */
  lemma AdoptedInOrder(db: Database, file: RouteFile, services: map<string, Service>, k: RouteKey, j: nat)
    requires j < |Waiting(Start(db).pool, k)|
    ensures var i, after := Waiting(Start(db).pool, k)[j], After(db, file, services).db;
      && i < |db.rows| <= |after.rows|
      && if j < Claims(db, file, services, k) then exists t :: after.rows[i] == Adopted(db.rows[i], t)
         else after.rows[i] == db.rows[i]
  {
    var pool, rest := Waiting(Start(db).pool, k), Waiting(After(db, file, services).pool, k);
    var m := Min(Claims(db, file, services, k), |pool|);
    PoolMeaning(db, |db.rows|, k);
    RowAfter(db, file, services, pool[j]);
    AdoptionConserved(db, file, services, k);
    if j >= m { assert rest[j - m] == pool[j]; }
  }

  // ---------------------------------------------------------------- dry run

  /** Two runs in step: same index and same counters. */
  ghost predicate InStep(dry: Work, applied: Work) {
    dry.linked == applied.linked && dry.pool == applied.pool && dry.tally == applied.tally
  }

  lemma {:induction false} PathsInStep(dry: Work, applied: Work, e: Entry, t: Target, t': Target, paths: seq<string>)
    requires InStep(dry, applied)
    ensures var d := Paths(dry, e, t, paths, false);
      InStep(d, Paths(applied, e, t', paths, true)) && d.db == dry.db
  {
    if paths != [] { PathsInStep(dry, applied, e, t, t', paths[..|paths| - 1]); }
  }

  lemma EntryInStep(dry: Work, applied: Work, file: File, e: Entry, services: map<string, Service>)
    requires InStep(dry, applied) && (Known(dry, EntryKey(e)) <==> Known(applied, EntryKey(e)))
    ensures var d := EntryStep(dry, file, e, services, false);
      InStep(d, EntryStep(applied, file, e, services, true)) && d.db == dry.db
  {
    var (d, t) := Claim(dry, file, e, services, false);
    var (r, t') := Claim(applied, file, e, services, true);
    if t.Some? { PathsInStep(d, r, e, t.value, t'.value, e.paths); }
  }

  /** Induction over the entries of a dry and an applied run side by side. */
  lemma {:induction false} InductBoth(w0: Work, file: File, n: nat, services: map<string, Service>,
                                      P: (nat, Work, Work) -> bool)
    requires n <= |file.entries| && P(0, w0, w0)
    requires forall i: nat, d: Work, a: Work :: i < |file.entries| && P(i, d, a) ==>
               P(i + 1, EntryStep(d, file, file.entries[i], services, false),
                   EntryStep(a, file, file.entries[i], services, true))
    ensures P(n, Entries(w0, file, n, services, false), Entries(w0, file, n, services, true))
  {
    if n > 0 { InductBoth(w0, file, n - 1, services, P); }
  }

  lemma BothStep(w0: Work, file: RouteFile, n: nat, services: map<string, Service>, dry: Work, applied: Work)
    requires n < |file.entries| && Keyed(w0, file, n, services, applied) && InStep(dry, applied) && dry.db == w0.db
    ensures var d := EntryStep(dry, file, file.entries[n], services, false);
      InStep(d, EntryStep(applied, file, file.entries[n], services, true)) && d.db == w0.db
  {
    assert Known(applied, EntryKey(file.entries[n])) <==>
           Known(w0, EntryKey(file.entries[n])) || Created(file, n, services, EntryKey(file.entries[n]));
    EntryInStep(dry, applied, file, file.entries[n], services);
  }

  /** The dry run changes no stored row and reports exactly the counters of the applied run. */
  lemma DryRunPredicts(db: Db, file: RouteFile, services: map<string, Service>)
    ensures Reconcile(db, file, services, false).db == db
    ensures Reconcile(db, file, services, false).tally == Reconcile(db, file, services, true).tally
  {
    var w0 := Start(db);
    var P := (i: nat, d: Work, a: Work) => Keyed(w0, file, i, services, a) && InStep(d, a) && d.db == w0.db;
    KeyedStart(w0, file, services);
    forall i: nat, d: Work, a: Work | i < |file.entries| && P(i, d, a)
      ensures P(i + 1, EntryStep(d, file, file.entries[i], services, false),
                EntryStep(a, file, file.entries[i], services, true))
    {
      KeyedStep(w0, file, i, services, a);
      BothStep(w0, file, i, services, d, a);
    }
    InductBoth(w0, file, |file.entries|, services, P);
  }
}
