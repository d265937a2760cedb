/**
  What a whole reconcile run guarantees, for every database state and file: a second run changes
  nothing, the adoption of unlinked rows is conserved route by route, the number of rows linked
  to a path is known exactly, and a dry run predicts the real one.
*/
module KongImportTheorems {
  import opened Wrappers
  import opened PyText
  import opened KongImport

  // ---------------------------------------------------------------- group lookups

  lemma AppendGroup(groups: seq<Group>, g: Group)
    requires FindGroup(groups, KeyOf(g)).None?
    ensures forall k :: FindGroup(groups + [g], k) == if k == KeyOf(g) then Some(|groups|) else FindGroup(groups, k)
    ensures forall id :: FindId(groups + [g], id) == if id == g.id then Some(|groups|) else FindId(groups, id)
    ensures forall id :: LabelOf(groups + [g], id) == if id == g.id then Some(g.key) else LabelOf(groups, id)
  {
    assert (groups + [g])[..|groups|] == groups;
  }

  lemma {:induction false} ReplaceKeepsIds(groups: seq<Group>, i: nat, g: Group)
    requires i < |groups| && g.id == groups[i].id
    ensures forall id :: FindId(groups[i := g], id) == FindId(groups, id)
  {
    var n := |groups| - 1;
    if i < n {
      ReplaceKeepsIds(groups[..n], i, g);
      assert groups[i := g][..n] == groups[..n][i := g];
    } else {
      assert groups[i := g][..n] == groups[..n];
    }
  }

  lemma ReplaceKeepsLabels(groups: seq<Group>, i: nat, g: Group)
    requires i < |groups| && g.id == groups[i].id && KeyOf(g) == KeyOf(groups[i])
    ensures forall id :: LabelOf(groups[i := g], id) == LabelOf(groups, id)
  {
    ReplaceKeepsKeys(groups, i, g);
    ReplaceKeepsIds(groups, i, g);
  }

  lemma {:induction false} FindIdUnique(groups: seq<Group>, i: nat)
    requires i < |groups| && forall a, b :: 0 <= a < b < |groups| ==> groups[a].id != groups[b].id
    ensures FindId(groups, groups[i].id) == Some(i)
  {
    var n := |groups| - 1;
    if i < n {
      FindIdUnique(groups[..n], i);
    }
  }

  // ---------------------------------------------------------------- links

  /** What each row is linked to. */
  ghost function Links(db: Db): (r: seq<Option<LinkKey>>)
    ensures |r| == |db.rows| && forall i :: 0 <= i < |r| ==> r[i] == LinkOf(db.groups, db.rows[i])
  {
    seq(|db.rows|, i requires 0 <= i < |db.rows| => LinkOf(db.groups, db.rows[i]))
  }

  /** How many rows are linked to a path of a group. */
  ghost function LinkCount(db: Db, x: LinkKey): nat { multiset(Links(db))[Some(x)] }

  /** The index of the first n rows: the linked paths are the links present. */
  lemma {:induction false} LinkedMeaning(db: Db, n: nat)
    requires n <= |db.rows|
    ensures forall x :: x in IndexRows(db, n).linked <==> exists i :: 0 <= i < n && Links(db)[i] == Some(x)
  {
    if n > 0 {
      LinkedMeaning(db, n - 1);
      assert IndexRows(db, n).linked == IndexRows(db, n - 1).linked
          + if Links(db)[n - 1].Some? then {Links(db)[n - 1].value} else {};
    }
  }

  /** The adoptable rows of one route: in table order, unlinked, and on that route. */
  ghost predicate CleanRoute(db: Db, k: RouteKey, waiting: seq<nat>) {
    && (forall j :: 0 <= j < |waiting| ==>
          waiting[j] < |db.rows| && Links(db)[waiting[j]] == None && RouteKeyOf(db.rows[waiting[j]]) == k)
    && (forall j, j' :: 0 <= j < j' < |waiting| ==> waiting[j] < waiting[j'])
  }

  ghost predicate Below(s: seq<nat>, n: nat) { forall j :: 0 <= j < |s| ==> s[j] < n }

  /** The pool lists of the first n rows are clean. */
  lemma {:induction false} PoolMeaning(db: Db, n: nat, k: RouteKey)
    requires n <= |db.rows|
    ensures CleanRoute(db, k, Waiting(IndexRows(db, n).pool, k)) && Below(Waiting(IndexRows(db, n).pool, k), n)
  {
    if n > 0 {
      PoolMeaning(db, n - 1, k);
      PoolGrows(db, n, k);
      AppendClean(db, k, Waiting(IndexRows(db, n - 1).pool, k), n, Waiting(IndexRows(db, n).pool, k));
    }
  }

  lemma AppendClean(db: Db, k: RouteKey, waiting: seq<nat>, n: nat, after: seq<nat>)
    requires 0 < n <= |db.rows| && CleanRoute(db, k, waiting) && Below(waiting, n - 1)
    requires after == waiting
             || (after == waiting + [n - 1] && Links(db)[n - 1] == None && RouteKeyOf(db.rows[n - 1]) == k)
    ensures CleanRoute(db, k, after) && Below(after, n)
  {
  }

  lemma PoolGrows(db: Db, n: nat, k: RouteKey)
    requires 0 < n <= |db.rows|
    ensures Waiting(IndexRows(db, n).pool, k) == Waiting(IndexRows(db, n - 1).pool, k)
         + if Links(db)[n - 1] == None && RouteKeyOf(db.rows[n - 1]) == k then [n - 1] else []
  {
  }

  /** Every unlinked row is in the pool. */
  lemma {:induction false} PoolComplete(db: Db, n: nat, i: nat)
    requires i < n <= |db.rows| && Links(db)[i] == None
    ensures i in Waiting(IndexRows(db, n).pool, RouteKeyOf(db.rows[i]))
  {
    var k := RouteKeyOf(db.rows[i]);
    PoolGrows(db, n, k);
    if i < n - 1 {
      PoolComplete(db, n - 1, i);
      StillIn(i, Waiting(IndexRows(db, n - 1).pool, k), Waiting(IndexRows(db, n).pool, k));
    } else {
      var after := Waiting(IndexRows(db, n).pool, k);
      assert after[|after| - 1] == i;
    }
  }

  lemma StillIn(i: nat, s: seq<nat>, t: seq<nat>)
    requires i in s && s <= t
    ensures i in t
  {
    var j :| 0 <= j < |s| && s[j] == i;
    assert t[j] == i;
  }

  // ---------------------------------------------------------------- one step

  ghost predicate PoolClean(w: Work) {
    forall k :: CleanRoute(w.db, k, Waiting(w.pool, k))
  }

  ghost predicate Inv(w: Work) { ValidDb(w.db) && PoolClean(w) }

  /** The target stands for the entry's label. */
  ghost predicate Fits(db: Db, e: Entry, t: Target) {
    IsMethod(e.httpMethod) && t.id < db.nextId && LabelOf(db.groups, t.id) == Some(e.groupLabel)
  }

  lemma StartInv(db: Database)
    ensures Inv(Start(db))
  {
    forall k ensures CleanRoute(db, k, Waiting(Start(db).pool, k)) {
      PoolMeaning(db, |db.rows|, k);
    }
  }

  /** One applied path links exactly one more row to it, unless it was linked before the run. */
  lemma PathEffect(w: Work, e: Entry, t: Target, path: string)
    requires Inv(w) && Fits(w.db, e, t)
    ensures var r := PathStep(w, e, t, path, true);
      && Inv(r) && r.db.groups == w.db.groups && r.db.nextId == w.db.nextId && r.linked == w.linked
      && forall x :: LinkCount(r.db, x)
                  == LinkCount(w.db, x)
                     + if x == LinkKey(e.groupLabel, e.httpMethod, path) && x !in w.linked then 1 else 0
  {
    if LinkKey(e.groupLabel, e.httpMethod, path) !in w.linked {
      if Waiting(w.pool, RouteKey(e.httpMethod, path)) != [] {
        AdoptEffect(w, PathStep(w, e, t, path, true), e, t, path);
      } else {
        InsertEffect(w, PathStep(w, e, t, path, true), e, t, path);
      }
    }
  }

  lemma AdoptEffect(w: Work, r: Work, e: Entry, t: Target, path: string)
    requires Inv(w) && Fits(w.db, e, t) && Waiting(w.pool, RouteKey(e.httpMethod, path)) != []
    requires r.pool == w.pool[RouteKey(e.httpMethod, path) := Waiting(w.pool, RouteKey(e.httpMethod, path))[1..]]
    requires r.db == w.db.(rows := Adopt(w.db.rows, Waiting(w.pool, RouteKey(e.httpMethod, path))[0], t))
    ensures Inv(r)
    ensures forall x :: LinkCount(r.db, x)
                     == LinkCount(w.db, x) + if x == LinkKey(e.groupLabel, e.httpMethod, path) then 1 else 0
  {
    var x, k := LinkKey(e.groupLabel, e.httpMethod, path), RouteKey(e.httpMethod, path);
    var i := Waiting(w.pool, k)[0];
    assert CleanRoute(w.db, k, Waiting(w.pool, k));
    assert Links(r.db) == Links(w.db)[i := Some(x)];
    AdoptKeepsClean(w, r, k, i);
  }

  lemma InsertEffect(w: Work, r: Work, e: Entry, t: Target, path: string)
    requires Inv(w) && Fits(w.db, e, t)
    requires r.pool == w.pool && r.db == w.db.(rows := w.db.rows + [Inserted(e, path, t)])
    ensures Inv(r)
    ensures forall x :: LinkCount(r.db, x)
                     == LinkCount(w.db, x) + if x == LinkKey(e.groupLabel, e.httpMethod, path) then 1 else 0
  {
    assert Links(r.db) == Links(w.db) + [Some(LinkKey(e.groupLabel, e.httpMethod, path))];
    forall k' ensures CleanRoute(r.db, k', Waiting(r.pool, k')) {
      assert CleanRoute(w.db, k', Waiting(w.pool, k'));
    }
  }

  lemma AdoptKeepsClean(w: Work, r: Work, k: RouteKey, i: nat)
    requires PoolClean(w) && Waiting(w.pool, k) != [] && i == Waiting(w.pool, k)[0]
    requires r.pool == w.pool[k := Waiting(w.pool, k)[1..]]
    requires i < |w.db.rows| == |r.db.rows|
    requires forall j | 0 <= j < |w.db.rows| && j != i ::
      Links(r.db)[j] == Links(w.db)[j] && r.db.rows[j] == w.db.rows[j]
    ensures PoolClean(r)
  {
    assert CleanRoute(w.db, k, Waiting(w.pool, k));
    forall k' ensures CleanRoute(r.db, k', Waiting(r.pool, k')) {
      var before, after := Waiting(w.pool, k'), Waiting(r.pool, k');
      assert CleanRoute(w.db, k', before);
      if k' == k {
        assert forall j :: 0 <= j < |after| ==> after[j] == before[j + 1];
      } else {
        assert after == before;
      }
    }
  }

  lemma {:induction false} PathsInv(w: Work, e: Entry, t: Target, paths: seq<string>)
    requires Inv(w) && Fits(w.db, e, t)
    ensures var r := Paths(w, e, t, paths, true);
      Inv(r) && r.db.groups == w.db.groups && r.db.nextId == w.db.nextId && r.linked == w.linked
  {
    if paths != [] {
      PathsInv(w, e, t, paths[..|paths| - 1]);
      PathEffect(Paths(w, e, t, paths[..|paths| - 1], true), e, t, paths[|paths| - 1]);
    }
  }

  lemma {:induction false} PathsCount(w: Work, e: Entry, t: Target, paths: seq<string>, x: LinkKey)
    requires Inv(w) && Fits(w.db, e, t)
    ensures LinkCount(Paths(w, e, t, paths, true).db, x)
         == LinkCount(w.db, x) + if EntryKey(e) == GroupKey(x.groupLabel, x.httpMethod) && x !in w.linked
                                 then multiset(paths)[x.path] else 0
  {
    if paths != [] {
      var front, last := paths[..|paths| - 1], paths[|paths| - 1];
      PathsInv(w, e, t, front);
      PathsCount(w, e, t, front, x);
      assert paths == front + [last];
      PathEffect(Paths(w, e, t, front, true), e, t, last);
    }
  }

  lemma ClaimExisting(w: Work, file: File, e: Entry, services: map<string, Service>, i: nat)
    requires Inv(w) && IsMethod(e.httpMethod) && FindGroup(w.db.groups, EntryKey(e)) == Some(i)
    ensures var (r, target) := Claim(w, file, e, services, true);
      ValidDb(r.db) && Links(r.db) == Links(w.db) && target.Some? && Fits(r.db, e, target.value)
  {
    var g := Reconciled(w.db.groups[i], file, e);
    var (r, _) := Claim(w, file, e, services, true);
    ReplaceKeepsLabels(w.db.groups, i, g);
    FindIdUnique(w.db.groups, i);
    assert r.db.groups == w.db.groups[i := g];
    assert Links(r.db) == Links(w.db);
    assert KeyOf(w.db.groups[i]) == EntryKey(e);
    assert LabelOf(w.db.groups, w.db.groups[i].id) == Some(e.groupLabel);
  }

  lemma ClaimNew(w: Work, file: File, e: Entry, services: map<string, Service>)
    requires Inv(w) && IsMethod(e.httpMethod)
    requires FindGroup(w.db.groups, EntryKey(e)) == None && e.groupLabel in services
    ensures var (r, target) := Claim(w, file, e, services, true);
      ValidDb(r.db) && Links(r.db) == Links(w.db) && target.Some? && Fits(r.db, e, target.value)
  {
    var g := NewGroup(w.db, file, e, services[e.groupLabel]);
    var (r, _) := Claim(w, file, e, services, true);
    AppendGroup(w.db.groups, g);
    assert r.db.groups == w.db.groups + [g];
    assert Links(r.db) == Links(w.db);
  }

  /** The group part of an entry: links stay as they are and a claimed target fits. */
  lemma ClaimEffect(w: Work, file: File, e: Entry, services: map<string, Service>)
    requires Inv(w) && IsMethod(e.httpMethod)
    ensures var (r, target) := Claim(w, file, e, services, true);
      && Inv(r) && r.linked == w.linked && Links(r.db) == Links(w.db)
      && (target.Some? <==> Resolved(w.db, e, services))
      && (target.Some? ==> Fits(r.db, e, target.value))
  {
    match FindGroup(w.db.groups, EntryKey(e)) {
      case Some(i) => ClaimExisting(w, file, e, services, i);
      case None => if e.groupLabel in services { ClaimNew(w, file, e, services); }
    }
    var (r, _) := Claim(w, file, e, services, true);
    forall k ensures CleanRoute(r.db, k, Waiting(r.pool, k)) {
      assert CleanRoute(w.db, k, Waiting(w.pool, k));
    }
  }

  /** The group exists already or the label resolves to one service. */
  predicate Resolved(db: Db, e: Entry, services: map<string, Service>) {
    FindGroup(db.groups, EntryKey(e)).Some? || e.groupLabel in services
  }

  /** What one path of one entry adds to the link count of x. */
  function Asked(e: Entry, resolved: bool, x: LinkKey): nat {
    if resolved && EntryKey(e) == GroupKey(x.groupLabel, x.httpMethod) then multiset(e.paths)[x.path] else 0
  }

  lemma EntryInv(w: Work, file: File, e: Entry, services: map<string, Service>)
    requires Inv(w) && IsMethod(e.httpMethod)
    ensures var r := EntryStep(w, file, e, services, true); Inv(r) && r.linked == w.linked
  {
    ClaimEffect(w, file, e, services);
    var (claimed, target) := Claim(w, file, e, services, true);
    if target.Some? { PathsInv(claimed, e, target.value, e.paths); }
  }

  lemma EntryCounts(w: Work, file: File, e: Entry, services: map<string, Service>, x: LinkKey, resolved: bool,
                    added: nat)
    requires Inv(w) && IsMethod(e.httpMethod) && resolved == Resolved(w.db, e, services)
    requires added == if x in w.linked then 0 else Asked(e, resolved, x)
    ensures LinkCount(EntryStep(w, file, e, services, true).db, x) == LinkCount(w.db, x) + added
  {
    ClaimEffect(w, file, e, services);
    var (claimed, target) := Claim(w, file, e, services, true);
    if target.Some? { PathsCount(claimed, e, target.value, e.paths, x); }
  }

  // ---------------------------------------------------------------- the run

  /** Induction over the entries of a run: P survives every step. */
  lemma {:induction false} Induct(w0: Work, file: File, n: nat, services: map<string, Service>, apply: bool,
                                  P: (nat, Work) -> bool)
    requires n <= |file.entries| && P(0, w0)
    requires forall i: nat, w: Work :: i < |file.entries| && P(i, w) ==>
               P(i + 1, EntryStep(w, file, file.entries[i], services, apply))
    ensures P(n, Entries(w0, file, n, services, apply))
  {
    if n > 0 { Induct(w0, file, n - 1, services, apply, P); }
  }

  predicate Known(w: Work, k: GroupKey) { FindGroup(w.db.groups, k).Some? }

  /** Among the first n entries, one that creates a group with this key if there is none. */
  ghost predicate Created(file: File, n: nat, services: map<string, Service>, k: GroupKey) {
    exists m :: 0 <= m < n && m < |file.entries| && EntryKey(file.entries[m]) == k && k.groupLabel in services
  }

  /** The state after n entries: the invariant, and which group keys exist. */
  ghost predicate Good(w0: Work, file: File, n: nat, services: map<string, Service>, w: Work) {
    Inv(w) && w.linked == w0.linked && Keyed(w0, file, n, services, w)
  }

  ghost predicate Keyed(w0: Work, file: File, n: nat, services: map<string, Service>, w: Work) {
    forall k :: Known(w, k) <==> Known(w0, k) || Created(file, n, services, k)
  }

  lemma CreatedStep(file: File, n: nat, services: map<string, Service>, k: GroupKey)
    requires n < |file.entries|
    ensures Created(file, n + 1, services, k)
      <==> Created(file, n, services, k) || (EntryKey(file.entries[n]) == k && k.groupLabel in services)
  {
    if EntryKey(file.entries[n]) == k && k.groupLabel in services {
      assert 0 <= n < n + 1 && EntryKey(file.entries[n]) == k;
    }
  }

  lemma ClaimKeys(w: Work, file: File, e: Entry, services: map<string, Service>, k: GroupKey)
    requires IsMethod(e.httpMethod)
    ensures Known(Claim(w, file, e, services, true).0, k)
          <==> Known(w, k) || (EntryKey(e) == k && k.groupLabel in services)
  {
    match FindGroup(w.db.groups, EntryKey(e))
    case Some(i) => ReplaceKeepsKeys(w.db.groups, i, Reconciled(w.db.groups[i], file, e));
    case None =>
      if e.groupLabel in services {
        AppendGroup(w.db.groups, NewGroup(w.db, file, e, services[e.groupLabel]));
      }
  }

  lemma {:induction false} PathsKeepGroups(w: Work, e: Entry, t: Target, paths: seq<string>)
    ensures Paths(w, e, t, paths, true).db.groups == w.db.groups
  {
    if paths != [] { PathsKeepGroups(w, e, t, paths[..|paths| - 1]); }
  }

  /** The paths of an entry leave the groups as the claim left them. */
  lemma StepKeepsGroups(w: Work, file: File, e: Entry, services: map<string, Service>)
    ensures EntryStep(w, file, e, services, true).db.groups == Claim(w, file, e, services, true).0.db.groups
  {
    var (claimed, target) := Claim(w, file, e, services, true);
    if target.Some? { PathsKeepGroups(claimed, e, target.value, e.paths); }
  }

  lemma KeyedStep(w0: Work, file: RouteFile, n: nat, services: map<string, Service>, w: Work)
    requires n < |file.entries| && Keyed(w0, file, n, services, w)
    ensures Keyed(w0, file, n + 1, services, EntryStep(w, file, file.entries[n], services, true))
  {
    StepKeepsGroups(w, file, file.entries[n], services);
    forall k ensures Known(EntryStep(w, file, file.entries[n], services, true), k)
                <==> Known(w0, k) || Created(file, n + 1, services, k)
    {
      ClaimKeys(w, file, file.entries[n], services, k);
      CreatedStep(file, n, services, k);
    }
  }

  lemma KeyedStart(w0: Work, file: File, services: map<string, Service>)
    ensures Keyed(w0, file, 0, services, w0)
  {
  }

  lemma GoodStep(w0: Work, file: RouteFile, n: nat, services: map<string, Service>, w: Work)
    requires n < |file.entries| && Good(w0, file, n, services, w)
    ensures Good(w0, file, n + 1, services, EntryStep(w, file, file.entries[n], services, true))
  {
    EntryInv(w, file, file.entries[n], services);
    KeyedStep(w0, file, n, services, w);
  }

  lemma GoodStart(w0: Work, file: File, services: map<string, Service>)
    requires Inv(w0)
    ensures Good(w0, file, 0, services, w0)
  {
    KeyedStart(w0, file, services);
  }

  lemma RunGood(w0: Work, file: RouteFile, n: nat, services: map<string, Service>)
    requires Inv(w0) && n <= |file.entries|
    ensures Good(w0, file, n, services, Entries(w0, file, n, services, true))
  {
    var P := (i: nat, w: Work) => Good(w0, file, i, services, w);
    GoodStart(w0, file, services);
    forall i: nat, w: Work | i < |file.entries| && P(i, w)
      ensures P(i + 1, EntryStep(w, file, file.entries[i], services, true))
    {
      GoodStep(w0, file, i, services, w);
    }
    Induct(w0, file, n, services, true, P);
  }

  /** An entry resolves, and finds its group, as if the entries before it had not run. */
  lemma LookupUnaffected(w0: Work, file: RouteFile, n: nat, services: map<string, Service>, w: Work)
    requires n < |file.entries| && Good(w0, file, n, services, w)
    ensures Known(w, EntryKey(file.entries[n])) <==> Known(w0, EntryKey(file.entries[n]))
    ensures Resolved(w.db, file.entries[n], services) <==> Resolved(w0.db, file.entries[n], services)
  {
    assert Known(w, EntryKey(file.entries[n])) <==>
           Known(w0, EntryKey(file.entries[n])) || Created(file, n, services, EntryKey(file.entries[n]));
  }

  /** How often the first n entries ask for a path of a group that resolves. */
  function Multiplicity(db: Db, file: File, n: nat, services: map<string, Service>, x: LinkKey): nat
    requires n <= |file.entries|
  {
    if n == 0 then 0
    else
      Multiplicity(db, file, n - 1, services, x)
      + Asked(file.entries[n - 1], Resolved(db, file.entries[n - 1], services), x)
  }

  /** The link count of x after n entries. */
  ghost predicate Counted(w0: Work, file: File, n: nat, services: map<string, Service>, x: LinkKey, w: Work) {
    n <= |file.entries| &&
    LinkCount(w.db, x) == LinkCount(w0.db, x) + if x in w0.linked then 0 else Multiplicity(w0.db, file, n, services, x)
  }

  lemma CountedStep(w0: Work, file: RouteFile, n: nat, services: map<string, Service>, x: LinkKey, w: Work)
    requires n < |file.entries| && Good(w0, file, n, services, w) && Counted(w0, file, n, services, x, w)
    ensures Counted(w0, file, n + 1, services, x, EntryStep(w, file, file.entries[n], services, true))
  {
    var resolved := Resolved(w0.db, file.entries[n], services);
    LookupUnaffected(w0, file, n, services, w);
    EntryCounts(w, file, file.entries[n], services, x, resolved,
                if x in w0.linked then 0 else Asked(file.entries[n], resolved, x));
  }

  /** Link counts after n entries of an applied run. */
  lemma RunLaw(w0: Work, file: RouteFile, n: nat, services: map<string, Service>, x: LinkKey)
    requires Inv(w0) && n <= |file.entries|
    ensures Counted(w0, file, n, services, x, Entries(w0, file, n, services, true))
  {
    var P := (i: nat, w: Work) => Good(w0, file, i, services, w) && Counted(w0, file, i, services, x, w);
    GoodStart(w0, file, services);
    forall i: nat, w: Work | i < |file.entries| && P(i, w)
      ensures P(i + 1, EntryStep(w, file, file.entries[i], services, true))
    {
      GoodStep(w0, file, i, services, w);
      CountedStep(w0, file, i, services, x, w);
    }
    Induct(w0, file, n, services, true, P);
  }

  /** The run of a database as a state. */
  function After(db: Db, file: File, services: map<string, Service>): Work { Reconcile(db, file, services, true) }

  /** Twin law: after an applied run the rows linked to a path are those linked before, and if
      there was none, as many as the file lists the path. */
  lemma LinkCountLaw(db: Database, file: RouteFile, services: map<string, Service>, x: LinkKey)
    ensures LinkCount(After(db, file, services).db, x)
         == if LinkCount(db, x) > 0 then LinkCount(db, x) else Multiplicity(db, file, |file.entries|, services, x)
  {
    StartInv(db);
    RunLaw(Start(db), file, |file.entries|, services, x);
    LinkedMeaning(db, |db.rows|);
    LinkedIffCounted(db, x);
  }

  lemma LinkedIffCounted(db: Db, x: LinkKey)
    ensures x in Start(db).linked <==> LinkCount(db, x) > 0
  {
    LinkedMeaning(db, |db.rows|);
    assert Some(x) in multiset(Links(db)) <==> Some(x) in Links(db);
  }

  /** The import is free of twins exactly when there were none and no entry that resolves lists
      an unlinked path twice. */
  lemma NoTwins(db: Database, file: RouteFile, services: map<string, Service>)
    ensures (forall x :: LinkCount(After(db, file, services).db, x) <= 1)
      <==> (forall x :: LinkCount(db, x) <= 1
                        && (LinkCount(db, x) == 0 ==> Multiplicity(db, file, |file.entries|, services, x) <= 1))
  {
    forall x
      ensures LinkCount(After(db, file, services).db, x)
           == if LinkCount(db, x) > 0 then LinkCount(db, x) else Multiplicity(db, file, |file.entries|, services, x)
    {
      LinkCountLaw(db, file, services, x);
    }
  }

  /** A path listed twice in a new group is imported twice. */
  lemma ListedTwiceImportedTwice(path: string, s: Service)
    ensures var e := Entry("users", "GET", [path, path], 0, true);
      var db, file := Db([], [], 0), File([e], map[]);
      ValidDb(db) && ValidFile(file)
      && LinkCount(After(db, file, map["users" := s]).db, LinkKey("users", "GET", path)) == 2
  {
    var e := Entry("users", "GET", [path, path], 0, true);
    var db, file, services := Db([], [], 0), File([e], map[]), map["users" := s];
    var x := LinkKey("users", "GET", path);
    LinkCountLaw(db, file, services, x);
    assert LinkCount(db, x) == 0;
    assert Multiplicity(db, file, 0, services, x) == 0;
    assert multiset(e.paths)[path] == 2;
  }

  // ---------------------------------------------------------------- fixpoint

  /** The group of an entry already carries what the file says. */
  ghost predicate Settled(db: Db, file: File, e: Entry) {
    var i := FindGroup(db.groups, EntryKey(e));
    i.Some? ==>
      var g := db.groups[i.value];
      && g.priority == e.priority && g.isOwner == e.isOwner
      && g.plugins.Some? && SamePlugins(g.plugins.value, TargetPlugins(file, e))
  }

  lemma ClaimSettles(w: Work, file: File, e: Entry, services: map<string, Service>)
    requires IsMethod(e.httpMethod)
    ensures Settled(Claim(w, file, e, services, true).0.db, file, e)
  {
    match FindGroup(w.db.groups, EntryKey(e))
    case Some(i) => ReplaceKeepsKeys(w.db.groups, i, Reconciled(w.db.groups[i], file, e));
    case None =>
      if e.groupLabel in services {
        AppendGroup(w.db.groups, NewGroup(w.db, file, e, services[e.groupLabel]));
      }
  }

  lemma ClaimKeepsSettled(w: Work, file: File, e: Entry, other: Entry, services: map<string, Service>)
    requires IsMethod(e.httpMethod) && EntryKey(e) != EntryKey(other)
    requires Settled(w.db, file, other)
    ensures Settled(Claim(w, file, e, services, true).0.db, file, other)
  {
    match FindGroup(w.db.groups, EntryKey(e))
    case Some(i) => ReplaceKeepsKeys(w.db.groups, i, Reconciled(w.db.groups[i], file, e));
    case None =>
      if e.groupLabel in services {
        AppendGroup(w.db.groups, NewGroup(w.db, file, e, services[e.groupLabel]));
      }
  }

  lemma SettledStep(file: RouteFile, n: nat, services: map<string, Service>, m: nat, w: Work)
    requires m <= n < |file.entries| && (m < n ==> Settled(w.db, file, file.entries[m]))
    ensures Settled(EntryStep(w, file, file.entries[n], services, true).db, file, file.entries[m])
  {
    if m < n {
      ClaimKeepsSettled(w, file, file.entries[n], file.entries[m], services);
    } else {
      ClaimSettles(w, file, file.entries[n], services);
    }
    StepKeepsGroups(w, file, file.entries[n], services);
  }

  lemma RunSettles(w0: Work, file: RouteFile, n: nat, services: map<string, Service>, m: nat)
    requires m < n <= |file.entries|
    ensures Settled(Entries(w0, file, n, services, true).db, file, file.entries[m])
  {
    var P := (i: nat, w: Work) => m < i ==> Settled(w.db, file, file.entries[m]);
    forall i: nat, w: Work | i < |file.entries| && P(i, w)
      ensures P(i + 1, EntryStep(w, file, file.entries[i], services, true))
    {
      if m <= i { SettledStep(file, i, services, m, w); }
    }
    Induct(w0, file, n, services, true, P);
  }

  /** A database on which an entry has nothing left to do. */
  ghost predicate Idle(db: Db, linked: set<LinkKey>, file: File, e: Entry, services: map<string, Service>) {
    && Settled(db, file, e)
    && (Resolved(db, e, services) ==> FindGroup(db.groups, EntryKey(e)).Some?)
    && (Resolved(db, e, services) ==> forall p :: p in e.paths ==> LinkKey(e.groupLabel, e.httpMethod, p) in linked)
  }

  lemma {:induction false} PathsIdle(w: Work, e: Entry, t: Target, paths: seq<string>)
    requires forall p :: p in paths ==> LinkKey(e.groupLabel, e.httpMethod, p) in w.linked
    ensures Paths(w, e, t, paths, true) == w
  {
    if paths != [] { PathsIdle(w, e, t, paths[..|paths| - 1]); }
  }

  /** The paths of the first n entries that do not resolve. */
  function Unresolved(db: Db, file: File, n: nat, services: map<string, Service>): nat
    requires n <= |file.entries|
  {
    if n == 0 then 0
    else Unresolved(db, file, n - 1, services)
         + if Resolved(db, file.entries[n - 1], services) then 0 else |file.entries[n - 1].paths|
  }

  /** A run that changed nothing but the counters of reused groups and skipped paths. */
  ghost predicate Still(w0: Work, file: File, n: nat, services: map<string, Service>, w: Work) {
    && n <= |file.entries| && w.db == w0.db && w.linked == w0.linked
    && w.tally.newGroups == w0.tally.newGroups && w.tally.newPaths == w0.tally.newPaths
    && w.tally.relinked == w0.tally.relinked
    && w.tally.skippedPaths == w0.tally.skippedPaths + Unresolved(w0.db, file, n, services)
  }

  lemma IdleRun(w0: Work, file: File, n: nat, services: map<string, Service>)
    requires n <= |file.entries|
    requires forall m :: 0 <= m < |file.entries| ==> Idle(w0.db, w0.linked, file, file.entries[m], services)
    ensures Still(w0, file, n, services, Entries(w0, file, n, services, true))
  {
    var P := (i: nat, w: Work) => Still(w0, file, i, services, w);
    forall i: nat, w: Work | i < |file.entries| && P(i, w)
      ensures P(i + 1, EntryStep(w, file, file.entries[i], services, true))
    {
      IdleStep(w, file, file.entries[i], services);
    }
    Induct(w0, file, n, services, true, P);
  }

  /** An idle entry changes counters only. */
  lemma IdleStep(w: Work, file: File, e: Entry, services: map<string, Service>)
    requires Idle(w.db, w.linked, file, e, services)
    ensures var r := EntryStep(w, file, e, services, true);
      && r.db == w.db && r.linked == w.linked
      && r.tally.newGroups == w.tally.newGroups && r.tally.newPaths == w.tally.newPaths
      && r.tally.relinked == w.tally.relinked
      && r.tally.skippedPaths == w.tally.skippedPaths + if Resolved(w.db, e, services) then 0 else |e.paths|
  {
    var (claimed, target) := Claim(w, file, e, services, true);
    match FindGroup(w.db.groups, EntryKey(e))
    case Some(i) =>
      assert Reconciled(w.db.groups[i], file, e) == w.db.groups[i];
      assert w.db.groups[i := w.db.groups[i]] == w.db.groups;
      PathsIdle(claimed, e, target.value, e.paths);
    case None =>
  }

  lemma {:induction false} MultiplicityOfEntry(db: Db, file: File, n: nat, services: map<string, Service>, m: nat,
                                               path: string)
    requires m < n <= |file.entries| && Resolved(db, file.entries[m], services) && path in file.entries[m].paths
    ensures Multiplicity(db, file, n, services,
              LinkKey(file.entries[m].groupLabel, file.entries[m].httpMethod, path)) > 0
  {
    var e := file.entries[m];
    if m < n - 1 {
      MultiplicityOfEntry(db, file, n - 1, services, m, path);
    } else {
      assert path in multiset(e.paths);
    }
  }

  /** After an applied run no entry has anything left to do. */
  lemma RunLeavesIdle(db: Database, file: RouteFile, services: map<string, Service>, m: nat)
    requires m < |file.entries|
    ensures var after := After(db, file, services).db;
      Idle(after, Start(after).linked, file, file.entries[m], services)
      && (Resolved(after, file.entries[m], services) <==> Resolved(db, file.entries[m], services))
  {
    var after, e, n := After(db, file, services).db, file.entries[m], |file.entries|;
    StartInv(db);
    RunSettles(Start(db), file, n, services, m);
    RunGood(Start(db), file, n, services);
    assert Known(After(db, file, services), EntryKey(e)) <==>
           Known(Start(db), EntryKey(e)) || Created(file, n, services, EntryKey(e));
    LinkedMeaning(after, |after.rows|);
    if Resolved(db, e, services) {
      forall p | p in e.paths ensures LinkKey(e.groupLabel, e.httpMethod, p) in Start(after).linked {
        var x := LinkKey(e.groupLabel, e.httpMethod, p);
        MultiplicityOfEntry(db, file, n, services, m, p);
        LinkCountLaw(db, file, services, x);
        assert Some(x) in multiset(Links(after));
        var i :| 0 <= i < |after.rows| && Links(after)[i] == Some(x);
      }
    }
  }

  lemma {:induction false} SameUnresolved(db: Db, after: Db, file: File, n: nat, services: map<string, Service>)
    requires n <= |file.entries|
    requires forall m :: 0 <= m < |file.entries| ==>
               (Resolved(after, file.entries[m], services) <==> Resolved(db, file.entries[m], services))
    ensures Unresolved(after, file, n, services) == Unresolved(db, file, n, services)
  {
    if n > 0 { SameUnresolved(db, after, file, n - 1, services); }
  }

  /** Fixpoint: a second applied run leaves every group and row as it is, creates, inserts and
      relinks nothing, and skips exactly the paths that resolve to no service. */
  lemma SecondRunIsIdle(db: Database, file: RouteFile, services: map<string, Service>)
    ensures var first := After(db, file, services);
      var second := After(first.db, file, services);
      && second.db == first.db
      && second.tally.newGroups == second.tally.newPaths == second.tally.relinked == 0
      && second.tally.skippedPaths == Unresolved(db, file, |file.entries|, services)
  {
    var first := After(db, file, services);
    forall m | 0 <= m < |file.entries|
      ensures Idle(first.db, Start(first.db).linked, file, file.entries[m], services)
      ensures Resolved(first.db, file.entries[m], services) <==> Resolved(db, file.entries[m], services)
    {
      RunLeavesIdle(db, file, services, m);
    }
    IdleRun(Start(first.db), file, |file.entries|, services);
    SameUnresolved(db, first.db, file, |file.entries|, services);
  }
}
