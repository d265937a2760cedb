/**
  What an applied run leaves in the tables, field by field: every group, old and new, and for every
  path of the file the row it is given.
*/
module KongOutcome {
  import opened Wrappers
  import opened KongImport
  import opened KongImportTheorems
  import opened KongColumns

  // ---------------------------------------------------------------- the group of an entry

  /** The entry gets a group made: there is none with its key, and its label has a service. */
  predicate IsNew(db: Db, services: map<string, Service>, e: Entry) {
    FindGroup(db.groups, EntryKey(e)).None? && e.groupLabel in services
  }

  /** How many of the first n entries do. */
  function NewBefore(db: Db, file: File, services: map<string, Service>, n: nat): nat
    requires n <= |file.entries|
  {
    if n == 0 then 0
    else NewBefore(db, file, services, n - 1) + if IsNew(db, services, file.entries[n - 1]) then 1 else 0
  }

  lemma {:induction false} NewBeforeGrows(db: Db, file: File, services: map<string, Service>, m: nat, n: nat)
    requires m < n <= |file.entries|
    ensures NewBefore(db, file, services, m) + (if IsNew(db, services, file.entries[m]) then 1 else 0)
         <= NewBefore(db, file, services, n)
    decreases n
  {
    if m < n - 1 { NewBeforeGrows(db, file, services, m, n - 1); }
  }

  /** The group an entry's paths go to: the one there is, or the one made for it, under the next id. */
  function TargetFor(db: Db, file: File, services: map<string, Service>, m: nat): Option<Target>
    requires m < |file.entries|
  {
    var e := file.entries[m];
    var i := FindGroup(db.groups, EntryKey(e));
    if i.Some? then
      Some(Target(db.groups[i.value].id, db.groups[i.value].apiName, db.groups[i.value].serviceCode))
    else if e.groupLabel in services then
      Some(Target(db.nextId + NewBefore(db, file, services, m), Some(services[e.groupLabel].name),
                  Some(services[e.groupLabel].code)))
    else None
  }

  // ---------------------------------------------------------------- groups

  /** The group as the file tells it: priority and ownership from the file; the plugins keep their
      spelling when they mean the same as the file's and are the file's otherwise; all else stays. */
  predicate AsTold(after: Group, g: Group, e: Entry, listed: seq<string>) {
    var had := if g.plugins.Some? then g.plugins.value else [];
    after == Group(g.id, g.key, g.httpMethod, g.apiName, g.serviceCode,
                   Some(if SamePlugins(had, listed) then had else listed), e.priority, e.isOwner)
  }

  /** The group made for an entry. */
  predicate MadeFor(g: Group, e: Entry, s: Service, listed: seq<string>, id: nat) {
    g == Group(id, e.groupLabel, e.httpMethod, Some(s.name), Some(s.code), Some(listed), e.priority, e.isOwner)
  }

  /** Entry m speaks of the group at i. */
  predicate Tells(db: Db, file: File, m: nat, i: nat)
    requires m < |file.entries|
  {
    FindGroup(db.groups, EntryKey(file.entries[m])) == Some(i)
  }

  /** The group at i after the first n entries. */
  ghost predicate GroupIs(db: Db, file: File, n: nat, i: nat, g: Group)
    requires n <= |file.entries| && i < |db.groups|
  {
    && ((forall m: nat :: m < n ==> !Tells(db, file, m, i)) ==> g == db.groups[i])
    && forall m: nat :: m < n && Tells(db, file, m, i)
         ==> AsTold(g, db.groups[i], file.entries[m], TargetPlugins(file, file.entries[m]))
  }

  /** The group made for entry m, if one is. */
  ghost predicate MadeAt(db: Db, file: File, services: map<string, Service>, m: nat, groups: seq<Group>)
    requires m < |file.entries|
  {
    IsNew(db, services, file.entries[m]) ==>
      var e, before := file.entries[m], NewBefore(db, file, services, m);
      && |db.groups| + before < |groups|
      && MadeFor(groups[|db.groups| + before], e, services[e.groupLabel], TargetPlugins(file, e), db.nextId + before)
  }

  /** The group at j was made for one of the first n entries. */
  ghost predicate IsMade(db: Db, file: File, services: map<string, Service>, n: nat, j: nat)
    requires n <= |file.entries|
  {
    exists m: nat :: m < n && IsNew(db, services, file.entries[m])
                     && j == |db.groups| + NewBefore(db, file, services, m)
  }

  /** The groups after the first n entries. */
  ghost predicate GroupsAre(db: Db, file: File, services: map<string, Service>, n: nat, groups: seq<Group>, nextId: nat)
    requires n <= |file.entries|
  {
    && |groups| == |db.groups| + NewBefore(db, file, services, n)
    && nextId == db.nextId + NewBefore(db, file, services, n)
    && (forall i: nat :: i < |db.groups| ==> GroupIs(db, file, n, i, groups[i]))
    && (forall m: nat :: m < n ==> MadeAt(db, file, services, m, groups))
    && forall j: nat :: |db.groups| <= j < |groups| ==> IsMade(db, file, services, n, j)
  }

  lemma {:induction false} SameKeysFind(groups: seq<Group>, after: seq<Group>, k: GroupKey)
    requires |groups| <= |after|
    requires forall i :: 0 <= i < |groups| ==> KeyOf(after[i]) == KeyOf(groups[i])
    requires forall i :: |groups| <= i < |after| ==> KeyOf(after[i]) != k
    ensures FindGroup(after, k) == FindGroup(groups, k)
    decreases |after|
  {
    if |groups| < |after| {
      SameKeysFind(groups, after[..|after| - 1], k);
    } else if groups != [] && KeyOf(groups[|groups| - 1]) != k {
      SameKeysFind(groups[..|groups| - 1], after[..|after| - 1], k);
    }
  }

  lemma KeyStays(db: Db, file: File, n: nat, i: nat, g: Group)
    requires n <= |file.entries| && i < |db.groups| && GroupIs(db, file, n, i, g)
    ensures KeyOf(g) == KeyOf(db.groups[i])
  {
    if m: nat :| m < n && Tells(db, file, m, i) {
      assert AsTold(g, db.groups[i], file.entries[m], TargetPlugins(file, file.entries[m]));
    }
  }

  lemma MadeHasItsKey(db: Db, file: RouteFile, services: map<string, Service>, n: nat, groups: seq<Group>, j: nat)
    requires n < |file.entries| && j < |groups| && IsMade(db, file, services, n, j)
    requires forall m: nat :: m < n ==> MadeAt(db, file, services, m, groups)
    ensures KeyOf(groups[j]) != EntryKey(file.entries[n])
  {
    var m: nat :| m < n && IsNew(db, services, file.entries[m])
                  && j == |db.groups| + NewBefore(db, file, services, m);
    assert MadeAt(db, file, services, m, groups);
    assert KeyOf(groups[j]) == EntryKey(file.entries[m]);
  }

  /** The dict of groups finds for an entry not visited yet what the table at the start held. */
  lemma NotMadeYet(db: Db, file: RouteFile, services: map<string, Service>, n: nat, groups: seq<Group>, nextId: nat)
    requires n < |file.entries| && GroupsAre(db, file, services, n, groups, nextId)
    ensures FindGroup(groups, EntryKey(file.entries[n])) == FindGroup(db.groups, EntryKey(file.entries[n]))
  {
    forall i: nat | i < |db.groups| ensures KeyOf(groups[i]) == KeyOf(db.groups[i]) {
      KeyStays(db, file, n, i, groups[i]);
    }
    forall j: nat | |db.groups| <= j < |groups| ensures KeyOf(groups[j]) != EntryKey(file.entries[n]) {
      MadeHasItsKey(db, file, services, n, groups, j);
    }
    SameKeysFind(db.groups, groups, EntryKey(file.entries[n]));
  }

  /** The group part of entry n: its target, and the groups after n + 1 entries. */
  lemma ClaimIs(db: Db, file: RouteFile, services: map<string, Service>, n: nat, w: Work)
    requires n < |file.entries| && GroupsAre(db, file, services, n, w.db.groups, w.db.nextId)
    ensures var (c, t) := Claim(w, file, file.entries[n], services, true);
      && t == TargetFor(db, file, services, n)
      && GroupsAre(db, file, services, n + 1, c.db.groups, c.db.nextId)
      && c.db.rows == w.db.rows && c.linked == w.linked && c.pool == w.pool
  {
    var e, groups := file.entries[n], w.db.groups;
    NotMadeYet(db, file, services, n, groups, w.db.nextId);
    match FindGroup(db.groups, EntryKey(e))
    case Some(i) =>
      ToldNow(db, file, n, i, groups[i]);
      OneTold(db, file, services, n, groups, w.db.nextId, groups[i := Reconciled(groups[i], file, e)]);
    case None =>
      if e.groupLabel in services {
        var g := NewGroup(w.db, file, e, services[e.groupLabel]);
        OneMade(db, file, services, n, groups, w.db.nextId, g, groups + [g]);
      } else {
        OneTold(db, file, services, n, groups, w.db.nextId, groups);
      }
  }

  lemma Unmentioned(db: Db, file: File, n: nat, i: nat, g: Group)
    requires n < |file.entries| && i < |db.groups| && GroupIs(db, file, n, i, g) && !Tells(db, file, n, i)
    ensures GroupIs(db, file, n + 1, i, g)
  {
  }

  lemma ToldNow(db: Db, file: RouteFile, n: nat, i: nat, g: Group)
    requires n < |file.entries| && i < |db.groups| && GroupIs(db, file, n, i, g) && Tells(db, file, n, i)
    ensures g == db.groups[i] && GroupIs(db, file, n + 1, i, Reconciled(g, file, file.entries[n]))
  {
    forall m: nat | m < n ensures !Tells(db, file, m, i) {
      assert EntryKey(file.entries[m]) != EntryKey(file.entries[n]);
    }
  }

  lemma StillMade(db: Db, file: File, services: map<string, Service>, n: nat, j: nat)
    requires n < |file.entries| && IsMade(db, file, services, n, j)
    ensures IsMade(db, file, services, n + 1, j)
  {
  }

  lemma LastMade(db: Db, file: File, services: map<string, Service>, n: nat, j: nat)
    requires n < |file.entries| && IsNew(db, services, file.entries[n])
    requires j == |db.groups| + NewBefore(db, file, services, n)
    ensures IsMade(db, file, services, n + 1, j)
  {
  }

  /** An entry that makes no group changes at most the one it speaks of. */
  lemma OneTold(db: Db, file: RouteFile, services: map<string, Service>, n: nat, groups: seq<Group>, nextId: nat,
                after: seq<Group>)
    requires n < |file.entries| && GroupsAre(db, file, services, n, groups, nextId) && |after| == |groups|
    requires !IsNew(db, services, file.entries[n])
    requires forall j: nat :: j < |groups| && !Tells(db, file, n, j) ==> after[j] == groups[j]
    requires forall i: nat :: i < |db.groups| && Tells(db, file, n, i) ==> GroupIs(db, file, n + 1, i, after[i])
    ensures GroupsAre(db, file, services, n + 1, after, nextId)
  {
    forall i: nat | i < |db.groups| ensures GroupIs(db, file, n + 1, i, after[i]) {
      if !Tells(db, file, n, i) { Unmentioned(db, file, n, i, groups[i]); }
    }
    forall m: nat | m < n + 1 ensures MadeAt(db, file, services, m, after) {
      if m < n { assert MadeAt(db, file, services, m, groups); }
    }
    var next := n + 1;
    forall j: nat | |db.groups| <= j < |after| ensures IsMade(db, file, services, next, j) {
      StillMade(db, file, services, n, j);
    }
  }

  lemma OneMade(db: Db, file: RouteFile, services: map<string, Service>, n: nat, groups: seq<Group>, nextId: nat,
                g: Group, after: seq<Group>)
    requires n < |file.entries| && GroupsAre(db, file, services, n, groups, nextId) && after == groups + [g]
    requires var e := file.entries[n];
      IsNew(db, services, e) && MadeFor(g, e, services[e.groupLabel], TargetPlugins(file, e), nextId)
    ensures GroupsAre(db, file, services, n + 1, after, nextId + 1)
  {
    forall i: nat | i < |db.groups| ensures GroupIs(db, file, n + 1, i, after[i]) {
      Unmentioned(db, file, n, i, groups[i]);
    }
    forall m: nat | m < n + 1 ensures MadeAt(db, file, services, m, after) {
      if m < n { assert MadeAt(db, file, services, m, groups); }
    }
    var next := n + 1;
    forall j: nat | |db.groups| <= j < |after| ensures IsMade(db, file, services, next, j) {
      if j < |groups| { StillMade(db, file, services, n, j); } else { LastMade(db, file, services, n, j); }
    }
  }

  // ---------------------------------------------------------------- rows

  /** A path of the file with the row it is given. */
  datatype Taken = Taken(entry: nat, place: nat, row: nat)

  predicate InFile(file: File, x: Taken) {
    x.entry < |file.entries| && x.place < |file.entries[x.entry].paths|
  }

  function RouteAt(file: File, x: Taken): RouteKey
    requires InFile(file, x)
  {
    RouteKey(file.entries[x.entry].httpMethod, file.entries[x.entry].paths[x.place])
  }

  ghost predicate ByRow(taken: seq<Taken>, i: nat) { exists c :: 0 <= c < |taken| && taken[c].row == i }

  /** Row i waits in the pool for a claim on the route. */
  predicate Waits(pool: Pool, k: RouteKey, i: nat) { i in Waiting(pool, k) }

  /** What a path's row looks like: a row there was keeps its method and path, a new one has the
      entry's; both are active under the entry's group with that group's service. */
  ghost predicate Given(db: Db, file: File, services: map<string, Service>, x: Taken, r: Row) {
    && InFile(file, x) && TargetFor(db, file, services, x.entry).Some?
    && var t, k := TargetFor(db, file, services, x.entry).value, RouteAt(file, x);
       if x.row < |db.rows| then
         r == Row(db.rows[x.row].httpMethod, db.rows[x.row].path, Some(t.id), t.apiName, t.serviceCode, ACTIVE)
       else r == Row(k.httpMethod, k.path, Some(t.id), t.apiName, t.serviceCode, ACTIVE)
  }

  /** A row that waited on the route, every earlier one being taken before; a new one only when all
      that waited are. */
  ghost predicate InTurn(db: Db, file: File, taken: seq<Taken>, c: nat)
    requires c < |taken| && InFile(file, taken[c])
  {
    var k, row := RouteAt(file, taken[c]), taken[c].row;
    && (row < |db.rows| ==> Waits(Start(db).pool, k, row))
    && forall i: nat :: Waits(Start(db).pool, k, i) && (i < row || row >= |db.rows|) ==> ByRow(taken[..c], i)
  }

  /** The rows and the pool once these paths have been given theirs. */
  ghost predicate RowsAre(db: Db, file: File, services: map<string, Service>, rows: seq<Row>, pool: Pool,
                          taken: seq<Taken>) {
    && |rows| >= |db.rows|
    && (forall c :: 0 <= c < |taken| ==>
          && taken[c].row < |rows| && Given(db, file, services, taken[c], rows[taken[c].row])
          && InTurn(db, file, taken, c))
    && (forall i: nat :: i < |db.rows| && !ByRow(taken, i) ==> rows[i] == db.rows[i])
    && (forall i: nat :: |db.rows| <= i < |rows| ==> ByRow(taken, i))
    && (forall c, d :: 0 <= c < d < |taken| ==>
          taken[c].row != taken[d].row && (taken[d].row >= |db.rows| ==> taken[c].row < taken[d].row))
    && PoolIs(db, pool, taken)
  }

  /** What is left of the pool: the rows not taken, in table order. */
  ghost predicate PoolIs(db: Db, pool: Pool, taken: seq<Taken>) {
    && (forall k, i: nat :: Waits(pool, k, i) <==> Waits(Start(db).pool, k, i) && !ByRow(taken, i))
    && forall k :: Rising(Waiting(pool, k))
  }

  predicate Rising(s: seq<nat>) { forall i, j :: 0 <= i < j < |s| ==> s[i] < s[j] }

  lemma WaitsOnOneRoute(db: Database, k: RouteKey, l: RouteKey, i: nat)
    requires Waits(Start(db).pool, k, i) && Waits(Start(db).pool, l, i)
    ensures k == l && i < |db.rows|
  {
    WaitingIff(db, k.httpMethod, k.path, i);
    WaitingIff(db, l.httpMethod, l.path, i);
  }

  lemma NoRowsTaken(db: Database, file: File, services: map<string, Service>)
    ensures RowsAre(db, file, services, db.rows, Start(db).pool, [])
  {
    forall k ensures Rising(Waiting(Start(db).pool, k)) { PoolMeaning(db, |db.rows|, k); }
  }

  lemma ByRowMore(taken: seq<Taken>, x: Taken, i: nat)
    ensures ByRow(taken + [x], i) <==> ByRow(taken, i) || x.row == i
  {
    if c :| 0 <= c < |taken| && taken[c].row == i { assert (taken + [x])[c].row == i; }
    if x.row == i { assert (taken + [x])[|taken|].row == i; }
  }

  /** What was given before stays given. */
  lemma StillInTurn(db: Db, file: File, taken: seq<Taken>, x: Taken, c: nat)
    requires c < |taken| && InFile(file, taken[c])
    ensures InTurn(db, file, taken + [x], c) <==> InTurn(db, file, taken, c)
  {
    assert (taken + [x])[..c] == taken[..c];
  }

  lemma NotBelowHead(s: seq<nat>, i: nat)
    requires Rising(s) && i in s
    ensures s[0] <= i
  {
  }

  /** The pool without its head is the pool once the head is taken. */
  lemma HeadTaken(db: Database, pool: Pool, k: RouteKey, taken: seq<Taken>, x: Taken)
    requires PoolIs(db, pool, taken) && Waiting(pool, k) != [] && x.row == Waiting(pool, k)[0]
    ensures PoolIs(db, pool[k := Waiting(pool, k)[1..]], taken + [x])
    ensures Waits(Start(db).pool, k, x.row) && !ByRow(taken, x.row)
    ensures forall i: nat :: Waits(Start(db).pool, k, i) && i < x.row ==> ByRow(taken, i)
  {
    var head, rest := Waiting(pool, k)[0], Waiting(pool, k)[1..];
    assert Rising(Waiting(pool, k)) && Waits(pool, k, head);
    forall i: nat | Waits(Start(db).pool, k, i) && i < head ensures ByRow(taken, i) {
      if Waits(pool, k, i) { NotBelowHead(Waiting(pool, k), i); }
    }
    var after := pool[k := rest];
    forall l, i: nat
      ensures Waits(after, l, i) <==> Waits(Start(db).pool, l, i) && !ByRow(taken + [x], i)
    {
      ByRowMore(taken, x, i);
      HeadGone(Waiting(pool, k), i);
      assert Waits(pool, l, i) <==> Waits(Start(db).pool, l, i) && !ByRow(taken, i);
      if l != k && i == head && Waits(Start(db).pool, l, i) { WaitsOnOneRoute(db, k, l, i); }
    }
    forall l ensures Rising(Waiting(after, l)) { assert Rising(Waiting(pool, l)); }
  }

  lemma HeadGone(s: seq<nat>, i: nat)
    requires s != [] && Rising(s)
    ensures i in s[1..] <==> i in s && i != s[0]
  {
    assert s == [s[0]] + s[1..];
  }

  /** A new row leaves the pool as it is. */
  lemma NewRowKeepsPool(db: Database, pool: Pool, taken: seq<Taken>, x: Taken)
    requires PoolIs(db, pool, taken) && x.row >= |db.rows|
    ensures PoolIs(db, pool, taken + [x])
  {
    forall k, i: nat
      ensures Waits(pool, k, i) <==> Waits(Start(db).pool, k, i) && !ByRow(taken + [x], i)
    {
      ByRowMore(taken, x, i);
      assert Waits(pool, k, i) <==> Waits(Start(db).pool, k, i) && !ByRow(taken, i);
      if Waits(Start(db).pool, k, i) { WaitsOnOneRoute(db, k, k, i); }
    }
  }

  /** The rows once one more path has been given its own. */
  lemma OneMoreRow(db: Database, file: RouteFile, services: map<string, Service>, rows: seq<Row>, pool: Pool,
                   taken: seq<Taken>, x: Taken, after: seq<Row>, left: Pool)
    requires RowsAre(db, file, services, rows, pool, taken) && !ByRow(taken, x.row)
    requires |rows| <= |after| && x.row < |after| && (x.row >= |db.rows| ==> x.row == |rows|)
    requires |after| == if x.row < |rows| then |rows| else |rows| + 1
    requires forall i: nat :: i < |rows| && i != x.row ==> after[i] == rows[i]
    requires Given(db, file, services, x, after[x.row]) && InTurn(db, file, taken + [x], |taken|)
    requires PoolIs(db, left, taken + [x])
    ensures RowsAre(db, file, services, after, left, taken + [x])
  {
    var more := taken + [x];
    forall c | 0 <= c < |more|
      ensures more[c].row < |after| && Given(db, file, services, more[c], after[more[c].row])
      ensures InTurn(db, file, more, c)
    {
      if c < |taken| {
        assert more[c] == taken[c];
        StillInTurn(db, file, taken, x, c);
      }
    }
    forall i: nat | i < |db.rows| && !ByRow(more, i) ensures after[i] == db.rows[i] { ByRowMore(taken, x, i); }
    forall i: nat | |db.rows| <= i < |after| ensures ByRow(more, i) { ByRowMore(taken, x, i); }
    forall c, d | 0 <= c < d < |more|
      ensures more[c].row != more[d].row && (more[d].row >= |db.rows| ==> more[c].row < more[d].row)
    {
      assert more[c] == taken[c];
      if d < |taken| { assert more[d] == taken[d]; }
    }
  }

  /** One path of entry m that is not passed over. */
  lemma PathIs(db: Database, file: RouteFile, services: map<string, Service>, w: Work, taken: seq<Taken>, m: nat,
               p: nat) returns (x: Taken)
    requires InFile(file, Taken(m, p, 0)) && TargetFor(db, file, services, m).Some?
    requires RowsAre(db, file, services, w.db.rows, w.pool, taken)
    requires LinkKey(file.entries[m].groupLabel, file.entries[m].httpMethod, file.entries[m].paths[p]) !in w.linked
    ensures x.entry == m && x.place == p
    ensures var t := TargetFor(db, file, services, m).value;
      var after := PathStep(w, file.entries[m], t, file.entries[m].paths[p], true);
      && RowsAre(db, file, services, after.db.rows, after.pool, taken + [x])
      && after.linked == w.linked && after.db.groups == w.db.groups && after.db.nextId == w.db.nextId
  {
    var e, path, t := file.entries[m], file.entries[m].paths[p], TargetFor(db, file, services, m).value;
    var k, rows := RouteKey(e.httpMethod, path), w.db.rows;
    if Waiting(w.pool, k) != [] {
      x := Taken(m, p, Waiting(w.pool, k)[0]);
      HeadTaken(db, w.pool, k, taken, x);
      WaitsOnOneRoute(db, k, k, x.row);
      TurnOfHead(db, file, taken, x);
      OneMoreRow(db, file, services, rows, w.pool, taken, x, Adopt(rows, x.row, t),
                 w.pool[k := Waiting(w.pool, k)[1..]]);
    } else {
      x := Taken(m, p, |rows|);
      NewRowKeepsPool(db, w.pool, taken, x);
      NoneWaits(db, w.pool, k, taken);
      NewIsFresh(taken, rows);
      TurnOfNew(db, file, taken, x);
      OneMoreRow(db, file, services, rows, w.pool, taken, x, rows + [Inserted(e, path, t)], w.pool);
    }
  }

  lemma TurnOfHead(db: Database, file: File, taken: seq<Taken>, x: Taken)
    requires InFile(file, x) && x.row < |db.rows| && Waits(Start(db).pool, RouteAt(file, x), x.row)
    requires forall i: nat :: Waits(Start(db).pool, RouteAt(file, x), i) && i < x.row ==> ByRow(taken, i)
    ensures InTurn(db, file, taken + [x], |taken|)
  {
    assert (taken + [x])[..|taken|] == taken;
  }

  lemma TurnOfNew(db: Database, file: File, taken: seq<Taken>, x: Taken)
    requires InFile(file, x) && x.row >= |db.rows|
    requires forall i: nat :: Waits(Start(db).pool, RouteAt(file, x), i) ==> ByRow(taken, i)
    ensures InTurn(db, file, taken + [x], |taken|)
  {
    assert (taken + [x])[..|taken|] == taken;
  }

  lemma NoneWaits(db: Db, pool: Pool, k: RouteKey, taken: seq<Taken>)
    requires PoolIs(db, pool, taken) && Waiting(pool, k) == []
    ensures forall i: nat :: Waits(Start(db).pool, k, i) ==> ByRow(taken, i)
  {
    forall i: nat | Waits(Start(db).pool, k, i) ensures ByRow(taken, i) { assert !Waits(pool, k, i); }
  }

  lemma NewIsFresh(taken: seq<Taken>, rows: seq<Row>)
    requires forall c :: 0 <= c < |taken| ==> taken[c].row < |rows|
    ensures !ByRow(taken, |rows|)
  {
  }

  // ---------------------------------------------------------------- the run

  /** A path of the file gets a row: its entry has a group and nothing is linked to it yet. */
  predicate Claimed(db: Db, file: File, services: map<string, Service>, m: nat, p: nat) {
    && m < |file.entries| && p < |file.entries[m].paths|
    && TargetFor(db, file, services, m).Some?
    && LinkKey(file.entries[m].groupLabel, file.entries[m].httpMethod, file.entries[m].paths[p]) !in Start(db).linked
  }

  ghost predicate Serves(taken: seq<Taken>, m: nat, p: nat) {
    exists c :: 0 <= c < |taken| && taken[c].entry == m && taken[c].place == p
  }

  /** In front of path q of entry m. */
  predicate Visited(m: nat, p: nat, n: nat, q: nat) { m < n || (m == n && p < q) }

  /** The paths given rows are those that get one in front of path q of entry n, in the file's order. */
  ghost predicate ServedUpTo(db: Db, file: File, services: map<string, Service>, taken: seq<Taken>, n: nat, q: nat) {
    && (forall c :: 0 <= c < |taken| ==>
          Claimed(db, file, services, taken[c].entry, taken[c].place) && Visited(taken[c].entry, taken[c].place, n, q))
    && (forall m: nat, p: nat :: Claimed(db, file, services, m, p) && Visited(m, p, n, q) ==> Serves(taken, m, p))
    && forall c, d :: 0 <= c < d < |taken| ==> Visited(taken[c].entry, taken[c].place, taken[d].entry, taken[d].place)
  }

  lemma ServesMore(taken: seq<Taken>, x: Taken, m: nat, p: nat)
    requires Serves(taken, m, p) || (x.entry == m && x.place == p)
    ensures Serves(taken + [x], m, p)
  {
    if c :| 0 <= c < |taken| && taken[c].entry == m && taken[c].place == p {
      assert (taken + [x])[c] == taken[c];
    } else {
      assert (taken + [x])[|taken|] == x;
    }
  }

  /** One path on: passed over when it gets no row. */
  lemma OneOn(db: Db, file: File, services: map<string, Service>, taken: seq<Taken>, n: nat, q: nat)
    requires ServedUpTo(db, file, services, taken, n, q) && !Claimed(db, file, services, n, q)
    ensures ServedUpTo(db, file, services, taken, n, q + 1)
  {
  }

  lemma OneServed(db: Db, file: File, services: map<string, Service>, taken: seq<Taken>, n: nat, q: nat, x: Taken)
    requires ServedUpTo(db, file, services, taken, n, q) && Claimed(db, file, services, n, q)
    requires x.entry == n && x.place == q
    ensures ServedUpTo(db, file, services, taken + [x], n, q + 1)
  {
    var more := taken + [x];
    forall m: nat, p: nat | Claimed(db, file, services, m, p) && Visited(m, p, n, q + 1) ensures Serves(more, m, p) {
      ServesMore(taken, x, m, p);
    }
    forall c, d | 0 <= c < d < |more|
      ensures Visited(more[c].entry, more[c].place, more[d].entry, more[d].place)
    {
      assert more[c] == taken[c];
      if d < |taken| { assert more[d] == taken[d]; }
    }
  }

  /** Past the last path of an entry, or one without a group, the next entry begins. */
  lemma NextEntry(db: Db, file: File, services: map<string, Service>, taken: seq<Taken>, n: nat, q: nat)
    requires ServedUpTo(db, file, services, taken, n, q)
    requires forall p: nat :: Claimed(db, file, services, n, p) ==> p < q
    ensures ServedUpTo(db, file, services, taken, n + 1, 0)
  {
  }

  /** The first q paths of entry m. */
  lemma {:induction false} PathsAre(db: Database, file: RouteFile, services: map<string, Service>, w: Work,
                                    taken: seq<Taken>, m: nat, q: nat) returns (more: seq<Taken>)
    requires m < |file.entries| && q <= |file.entries[m].paths| && TargetFor(db, file, services, m).Some?
    requires RowsAre(db, file, services, w.db.rows, w.pool, taken) && w.linked == Start(db).linked
    requires ServedUpTo(db, file, services, taken, m, 0)
    ensures var t := TargetFor(db, file, services, m).value;
      var after := Paths(w, file.entries[m], t, file.entries[m].paths[..q], true);
      && RowsAre(db, file, services, after.db.rows, after.pool, more) && after.linked == w.linked
      && after.db.groups == w.db.groups && after.db.nextId == w.db.nextId
    ensures ServedUpTo(db, file, services, more, m, q)
    decreases q
  {
    if q == 0 {
      more := taken;
    } else {
      var e, t := file.entries[m], TargetFor(db, file, services, m).value;
      var before := Paths(w, e, t, e.paths[..q - 1], true);
      assert e.paths[..q][..q - 1] == e.paths[..q - 1];
      more := PathsAre(db, file, services, w, taken, m, q - 1);
      if Claimed(db, file, services, m, q - 1) {
        var x := PathIs(db, file, services, before, more, m, q - 1);
        OneServed(db, file, services, more, m, q - 1, x);
        more := more + [x];
      } else {
        OneOn(db, file, services, more, m, q - 1);
      }
    }
  }

  /** Groups and rows after the first n entries, these paths having been given rows. */
  ghost predicate Left(db: Db, file: File, services: map<string, Service>, n: nat, w: Work, taken: seq<Taken>)
    requires n <= |file.entries|
  {
    && GroupsAre(db, file, services, n, w.db.groups, w.db.nextId)
    && RowsAre(db, file, services, w.db.rows, w.pool, taken)
    && w.linked == Start(db).linked
    && ServedUpTo(db, file, services, taken, n, 0)
  }

  lemma NothingYet(db: Database, file: RouteFile, services: map<string, Service>, w: Work)
    requires w == Start(db)
    ensures Left(db, file, services, 0, w, [])
  {
    NoRowsTaken(db, file, services);
  }

  lemma {:induction false} EntriesAre(db: Database, file: RouteFile, services: map<string, Service>, n: nat,
                                      w0: Work, w: Work)
    requires n <= |file.entries| && w0 == Start(db) && w == Entries(w0, file, n, services, true)
    ensures exists taken :: Left(db, file, services, n, w, taken)
    decreases n
  {
    if n == 0 {
      NothingYet(db, file, services, w0);
    } else {
      var v := Entries(w0, file, n - 1, services, true);
      EntriesAre(db, file, services, n - 1, w0, v);
      OneMoreEntry(db, file, services, n - 1, n, v, w);
    }
  }

  lemma OneMoreEntry(db: Database, file: RouteFile, services: map<string, Service>, n: nat, next: nat, w: Work,
                     after: Work)
    requires n < |file.entries| && next == n + 1 && after == EntryStep(w, file, file.entries[n], services, true)
    requires exists before :: Left(db, file, services, n, w, before)
    ensures exists taken :: Left(db, file, services, next, after, taken)
  {
    var before :| Left(db, file, services, n, w, before);
    var taken := EntryIs(db, file, services, n, w, before, after);
  }

  lemma EntryIs(db: Database, file: RouteFile, services: map<string, Service>, n: nat, w: Work, before: seq<Taken>,
                after: Work) returns (taken: seq<Taken>)
    requires n < |file.entries| && Left(db, file, services, n, w, before)
    requires after == EntryStep(w, file, file.entries[n], services, true)
    ensures Left(db, file, services, n + 1, after, taken)
  {
    var e := file.entries[n];
    ClaimIs(db, file, services, n, w);
    var (c, t) := Claim(w, file, e, services, true);
    if t.Some? {
      taken := PathsAre(db, file, services, c, before, n, |e.paths|);
      assert e.paths[..|e.paths|] == e.paths;
      NextEntry(db, file, services, taken, n, |e.paths|);
    } else {
      taken := before;
      NextEntry(db, file, services, taken, n, 0);
    }
  }

  /** What an applied run leaves, for every database and file.  Groups: each as the file tells it, or as
      it was; then one for each entry that had none and has a service, in the file's order.  Rows: each
      path whose entry has a group and to which no row is linked is given one, in the file's order, the
      first that waits on its route while there is one, else a new one at the end; no row is given
      twice and the others are as they were. */
  lemma RunLeaves(db: Database, file: RouteFile, services: map<string, Service>)
    ensures exists taken :: Left(db, file, services, |file.entries|, After(db, file, services), taken)
  {
    EntriesAre(db, file, services, |file.entries|, Start(db), After(db, file, services));
  }
}
