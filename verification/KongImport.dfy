/**
  The reconcile loop of scripts/import_kong_routes_from_terragrunt.py: a parsed gateway file is
  brought into the route tables of one environment and region.

  The tables are sequences in select order; a row's index is its identity.  The reconcile is
  written twice: as the functions Start, PathStep, EntryStep and Reconcile on values, and as the
  class Importer, which updates its tables in place and is proved to do the same.
*/
module KongImport {
  import opened Wrappers
  import opened PyText

  datatype Status = INITIATED | ACTIVE | Other(code: nat)

  /** kong_route_groups. */
  datatype Group = Group(id: nat, key: string, httpMethod: string, apiName: Option<string>,
                         serviceCode: Option<string>, plugins: Option<seq<string>>, priority: int, isOwner: bool)

  /** kong_route_configs, not deleted. */
  datatype Row = Row(httpMethod: string, path: string, groupId: Option<nat>, apiName: Option<string>,
                     serviceCode: Option<string>, status: Status)

  /** The tables in scope; `nextId` is what the next flush assigns to a group. */
  datatype Db = Db(groups: seq<Group>, rows: seq<Row>, nextId: nat)

  datatype Service = Service(name: string, code: string)

  /** One (label, method) of the file with its paths and the group's metadata. */
  datatype Entry = Entry(groupLabel: string, httpMethod: string, paths: seq<string>, priority: int, isOwner: bool)

  /** The parsed file; the entries are in visiting order. */
  datatype File = File(entries: seq<Entry>, pluginsByTarget: map<string, seq<string>>)

  datatype GroupKey = GroupKey(groupLabel: string, httpMethod: string)
  datatype RouteKey = RouteKey(httpMethod: string, path: string)
  datatype LinkKey = LinkKey(groupLabel: string, httpMethod: string, path: string)

  datatype Tally = Tally(newGroups: nat, newPaths: nat, reused: nat, skippedPaths: nat, relinked: nat)

  /** A method name the parser reports: all seven of them are upper case. */
  predicate IsMethod(m: string) { Upper(m) == m }

  /** A file holds each (label, method) once, and its methods are upper case. */
  ghost predicate ValidFile(file: File) {
    && (forall i :: 0 <= i < |file.entries| ==> IsMethod(file.entries[i].httpMethod))
    && (forall i, j :: 0 <= i < j < |file.entries| ==> EntryKey(file.entries[i]) != EntryKey(file.entries[j]))
  }

  /** Ids are primary keys handed out in increasing order, and links refer to ids handed out. */
  ghost predicate ValidDb(db: Db) {
    && (forall i, j :: 0 <= i < j < |db.groups| ==> db.groups[i].id != db.groups[j].id)
    && (forall i :: 0 <= i < |db.groups| ==> db.groups[i].id < db.nextId)
    && (forall i :: 0 <= i < |db.rows| && db.rows[i].groupId.Some? ==> db.rows[i].groupId.value < db.nextId)
  }

  type Database = db: Db | ValidDb(db) witness Db([], [], 0)

  type RouteFile = file: File | ValidFile(file) witness File([], map[])

  // ---------------------------------------------------------------- plugins

  /** PLUGIN_CATALOG: display name to Kong name. */
  const CATALOG: map<string, string> :=
    map["JWT" := "jwt", "User ID Injection" := "user-id-injection", "CORS" := "cors", "Key Auth" := "key-auth"]

  function KongName(n: string): string {
    if n in CATALOG then CATALOG[n] else Replace(Replace(Lower(Strip(n)), ' ', '-'), '_', '-')
  }

  function KongNames(names: seq<string>): set<string> {
    set i | 0 <= i < |names| :: KongName(names[i])
  }

  predicate SamePlugins(a: seq<string>, b: seq<string>) { KongNames(a) == KongNames(b) }

  function OrEmpty(names: Option<seq<string>>): seq<string> { if names.Some? then names.value else [] }

  function TargetPlugins(file: File, e: Entry): seq<string> {
    var target := e.groupLabel + "-" + Lower(e.httpMethod);
    if target in file.pluginsByTarget then file.pluginsByTarget[target] else []
  }

  // ---------------------------------------------------------------- lookups

  function EntryKey(e: Entry): GroupKey { GroupKey(e.groupLabel, e.httpMethod) }

  function KeyOf(g: Group): GroupKey { GroupKey(g.key, g.httpMethod) }

  function RouteKeyOf(r: Row): RouteKey { RouteKey(Upper(r.httpMethod), r.path) }

  /** The group a dict built in select order holds for a key: the last one. */
  function FindGroup(groups: seq<Group>, k: GroupKey): (r: Option<nat>)
    ensures r.Some? ==> r.value < |groups| && KeyOf(groups[r.value]) == k
    ensures r.None? ==> forall i :: 0 <= i < |groups| ==> KeyOf(groups[i]) != k
  {
    if groups == [] then None
    else if KeyOf(groups[|groups| - 1]) == k then Some(|groups| - 1)
    else FindGroup(groups[..|groups| - 1], k)
  }

  lemma NextGroup(groups: seq<Group>, i: nat, k: GroupKey)
    requires i < |groups|
    ensures FindGroup(groups[..i + 1], k) == if KeyOf(groups[i]) == k then Some(i) else FindGroup(groups[..i], k)
  {
    assert groups[..i + 1][..i] == groups[..i];
  }

  function FindId(groups: seq<Group>, id: nat): (r: Option<nat>)
    ensures r.Some? ==> r.value < |groups| && groups[r.value].id == id
    ensures r.None? ==> forall i :: 0 <= i < |groups| ==> groups[i].id != id
  {
    if groups == [] then None
    else if groups[|groups| - 1].id == id then Some(|groups| - 1)
    else FindId(groups[..|groups| - 1], id)
  }

  /** The label a group id stands for; none when another group shadows it. */
  function LabelOf(groups: seq<Group>, id: nat): Option<string> {
    var i := FindId(groups, id);
    if i.Some? && FindGroup(groups, KeyOf(groups[i.value])) == i then Some(groups[i.value].key) else None
  }

  /** What a row is linked to, if it knows a group in scope. */
  function LinkOf(groups: seq<Group>, r: Row): Option<LinkKey> {
    if r.groupId.None? then None
    else
      var groupLabel := LabelOf(groups, r.groupId.value);
      if groupLabel.None? then None else Some(LinkKey(groupLabel.value, Upper(r.httpMethod), r.path))
  }

  // ---------------------------------------------------------------- the state of a run

  type Pool = map<RouteKey, seq<nat>>

  function Waiting(pool: Pool, k: RouteKey): seq<nat> { if k in pool then pool[k] else [] }

  datatype Index = Index(linked: set<LinkKey>, pool: Pool)

  /** The rows split into linked paths and adoptable rows; the first n rows. */
  function IndexRows(db: Db, n: nat): Index
    requires n <= |db.rows|
  {
    if n == 0 then Index({}, map[])
    else
      var before, r := IndexRows(db, n - 1), db.rows[n - 1];
      match LinkOf(db.groups, r)
      case Some(k) => before.(linked := before.linked + {k})
      case None => before.(pool := before.pool[RouteKeyOf(r) := Waiting(before.pool, RouteKeyOf(r)) + [n - 1]])
  }

  datatype Work = Work(db: Db, linked: set<LinkKey>, pool: Pool, tally: Tally)

  function Start(db: Db): Work {
    var index := IndexRows(db, |db.rows|);
    Work(db, index.linked, index.pool, Tally(0, 0, 0, 0, 0))
  }

  /** The group a path is attached to. */
  datatype Target = Target(id: nat, apiName: Option<string>, serviceCode: Option<string>)

  function Adopted(r: Row, t: Target): Row {
    r.(groupId := Some(t.id), apiName := t.apiName, serviceCode := t.serviceCode, status := ACTIVE)
  }

  function Inserted(e: Entry, path: string, t: Target): Row {
    Row(Upper(e.httpMethod), path, Some(t.id), t.apiName, t.serviceCode, ACTIVE)
  }

  /** The pool refers to rows by number; every number it holds is one of a row. */
  function Adopt(rows: seq<Row>, i: nat, t: Target): seq<Row> {
    if i < |rows| then rows[i := Adopted(rows[i], t)] else rows
  }

  /** One path of an entry: already linked, adopted from the pool, or inserted. */
  function PathStep(w: Work, e: Entry, t: Target, path: string, apply: bool): Work
  {
    var k := RouteKey(e.httpMethod, path);
    if LinkKey(e.groupLabel, e.httpMethod, path) in w.linked then w
    else if Waiting(w.pool, k) != [] then
      var i := Waiting(w.pool, k)[0];
      var rows := if apply then Adopt(w.db.rows, i, t) else w.db.rows;
      Work(w.db.(rows := rows), w.linked, w.pool[k := Waiting(w.pool, k)[1..]],
           w.tally.(relinked := w.tally.relinked + 1))
    else
      var rows := if apply then w.db.rows + [Inserted(e, path, t)] else w.db.rows;
      w.(db := w.db.(rows := rows), tally := w.tally.(newPaths := w.tally.newPaths + 1))
  }

  function Paths(w: Work, e: Entry, t: Target, paths: seq<string>, apply: bool): Work
  {
    if paths == [] then w
    else PathStep(Paths(w, e, t, paths[..|paths| - 1], apply), e, t, paths[|paths| - 1], apply)
  }

  function NewGroup(db: Db, file: File, e: Entry, s: Service): Group {
    Group(db.nextId, e.groupLabel, Upper(e.httpMethod), Some(s.name), Some(s.code), Some(TargetPlugins(file, e)),
          e.priority, e.isOwner)
  }

  /** The file wins on priority and ownership; the plugin spelling stays when it means the same. */
  function Reconciled(g: Group, file: File, e: Entry): Group {
    var target := TargetPlugins(file, e);
    g.(plugins := Some(if SamePlugins(OrEmpty(g.plugins), target) then OrEmpty(g.plugins) else target),
       priority := e.priority, isOwner := e.isOwner)
  }

  /** The group part of an entry: the state before its paths and the target, or none when skipped. */
  function Claim(w: Work, file: File, e: Entry, services: map<string, Service>, apply: bool): (Work, Option<Target>)
  {
    match FindGroup(w.db.groups, EntryKey(e))
    case Some(i) =>
      var g := w.db.groups[i];
      var groups := if apply then w.db.groups[i := Reconciled(g, file, e)] else w.db.groups;
      (w.(db := w.db.(groups := groups), tally := w.tally.(reused := w.tally.reused + 1)),
       Some(Target(g.id, g.apiName, g.serviceCode)))
    case None =>
      if e.groupLabel !in services then
        (w.(tally := w.tally.(skippedPaths := w.tally.skippedPaths + |e.paths|)), None)
      else
        var s := services[e.groupLabel];
        var db := if apply then w.db.(groups := w.db.groups + [NewGroup(w.db, file, e, s)], nextId := w.db.nextId + 1)
                  else w.db;
        (w.(db := db, tally := w.tally.(newGroups := w.tally.newGroups + 1)),
         Some(Target(w.db.nextId, Some(s.name), Some(s.code))))
  }

  function EntryStep(w: Work, file: File, e: Entry, services: map<string, Service>, apply: bool): Work
  {
    var (claimed, target) := Claim(w, file, e, services, apply);
    if target.None? then claimed else Paths(claimed, e, target.value, e.paths, apply)
  }

  function Entries(w: Work, file: File, n: nat, services: map<string, Service>, apply: bool): Work
    requires n <= |file.entries|
  {
    if n == 0 then w
    else EntryStep(Entries(w, file, n - 1, services, apply), file, file.entries[n - 1], services, apply)
  }

  /** A whole run over the tables. */
  function Reconcile(db: Db, file: File, services: map<string, Service>, apply: bool): Work {
    Entries(Start(db), file, |file.entries|, services, apply)
  }

  // ---------------------------------------------------------------- the run as the script does it

  class Importer {
    var groups: seq<Group>
    var rows: seq<Row>
    var nextId: nat
    var existing: map<GroupKey, nat>
    var linked: set<LinkKey>
    var pool: Pool
    var tally: Tally

    ghost function Value(): Work
      reads this
    {
      Work(Db(groups, rows, nextId), linked, pool, tally)
    }

    /** The dict of existing groups agrees with the table. */
    ghost predicate Valid()
      reads this
    {
      forall k :: if k in existing then FindGroup(groups, k) == Some(existing[k]) else FindGroup(groups, k) == None
    }

    /** Reads the tables and builds the group dict, the linked paths and the pool. */
    constructor (db: Db)
      ensures Valid() && Value() == Start(db)
    {
      groups, rows, nextId := db.groups, db.rows, db.nextId;
      existing, linked, pool := map[], {}, map[];
      tally := Tally(0, 0, 0, 0, 0);
      new;
      IndexGroups();
      SplitRows(db);
    }

    /** The dict comprehension over the groups: a later row wins. */
    method IndexGroups()
      requires existing == map[]
      modifies this`existing
      ensures Valid()
    {
      assert groups[..|groups|] == groups;
      for i := 0 to |groups|
        invariant forall k :: if k in existing then FindGroup(groups[..i], k) == Some(existing[k])
                              else FindGroup(groups[..i], k) == None
      {
        forall k
          ensures FindGroup(groups[..i + 1], k) == if KeyOf(groups[i]) == k then Some(i) else FindGroup(groups[..i], k)
        {
          NextGroup(groups, i, k);
        }
        existing := existing[KeyOf(groups[i]) := i];
      }
    }

    method SplitRows(db: Db)
      requires Valid() && linked == {} && pool == map[] && groups == db.groups && rows == db.rows
      modifies this`linked, this`pool
      ensures Valid() && Index(linked, pool) == IndexRows(db, |rows|)
    {
      for i := 0 to |rows|
        invariant Index(linked, pool) == IndexRows(db, i)
      {
        var link := LinkOf(groups, rows[i]);
        if link.Some? {
          linked := linked + {link.value};
        } else {
          var k := RouteKeyOf(rows[i]);
          pool := pool[k := Waiting(pool, k) + [i]];
        }
      }
    }

    method ImportPath(e: Entry, t: Target, path: string, apply: bool)
      requires Valid()
      modifies this
      ensures Valid() && Value() == PathStep(old(Value()), e, t, path, apply)
    {
      if LinkKey(e.groupLabel, e.httpMethod, path) in linked { return; }
      var k := RouteKey(e.httpMethod, path);
      if k in pool && pool[k] != [] {
        var i := pool[k][0];
        pool := pool[k := pool[k][1..]];
        if apply { rows := Adopt(rows, i, t); }
        tally := tally.(relinked := tally.relinked + 1);
        return;
      }
      if apply { rows := rows + [Inserted(e, path, t)]; }
      tally := tally.(newPaths := tally.newPaths + 1);
    }

    /** The group at i is overwritten by one with the same key. */
    method SetGroup(i: nat, g: Group)
      requires Valid() && i < |groups| && KeyOf(g) == KeyOf(groups[i])
      modifies this`groups
      ensures Valid() && groups == old(groups)[i := g]
    {
      ReplaceKeepsKeys(groups, i, g);
      groups := groups[i := g];
    }

    /** The group exists: reconcile it. */
    method ReconcileGroup(file: File, e: Entry, services: map<string, Service>, apply: bool) returns (target: Target)
      requires Valid() && EntryKey(e) in existing
      modifies this`groups, this`tally
      ensures Valid() && (Value(), Some(target)) == Claim(old(Value()), file, e, services, apply)
    {
      var i := existing[EntryKey(e)];
      var g := groups[i];
      if apply {
        SetGroup(i, Reconciled(g, file, e));
      }
      tally := tally.(reused := tally.reused + 1);
      target := Target(g.id, g.apiName, g.serviceCode);
    }

    /** db.add and flush: the group enters the table and the dict. */
    method AddGroup(g: Group)
      requires Valid() && KeyOf(g) !in existing
      modifies this`groups, this`existing, this`nextId
      ensures Valid() && groups == old(groups) + [g] && nextId == old(nextId) + 1
    {
      assert (groups + [g])[..|groups|] == groups;
      existing := existing[KeyOf(g) := |groups|];
      groups := groups + [g];
      nextId := nextId + 1;
    }

    /** The label resolves to one service: create the group. */
    method CreateGroup(file: File, e: Entry, services: map<string, Service>, apply: bool) returns (target: Target)
      requires Valid() && IsMethod(e.httpMethod) && EntryKey(e) !in existing && e.groupLabel in services
      modifies this`groups, this`existing, this`nextId, this`tally
      ensures Valid() && (Value(), Some(target)) == Claim(old(Value()), file, e, services, apply)
    {
      var s := services[e.groupLabel];
      target := Target(nextId, Some(s.name), Some(s.code));
      if apply {
        AddGroup(NewGroup(Db(groups, rows, nextId), file, e, s));
      }
      tally := tally.(newGroups := tally.newGroups + 1);
    }

    /** Finds, reconciles or creates the group of an entry; none when it is skipped. */
    method ClaimGroup(file: File, e: Entry, services: map<string, Service>, apply: bool)
      returns (target: Option<Target>)
      requires Valid() && IsMethod(e.httpMethod)
      modifies this
      ensures Valid() && (Value(), target) == Claim(old(Value()), file, e, services, apply)
    {
      if EntryKey(e) in existing {
        var t := ReconcileGroup(file, e, services, apply);
        target := Some(t);
      } else if e.groupLabel in services {
        var t := CreateGroup(file, e, services, apply);
        target := Some(t);
      } else {
        tally := tally.(skippedPaths := tally.skippedPaths + |e.paths|);
        target := None;
      }
    }

    method ImportPaths(e: Entry, t: Target, apply: bool)
      requires Valid()
      modifies this
      ensures Valid() && Value() == Paths(old(Value()), e, t, e.paths, apply)
    {
      assert e.paths[..|e.paths|] == e.paths;
      for j := 0 to |e.paths|
        invariant Valid() && Value() == Paths(old(Value()), e, t, e.paths[..j], apply)
      {
        assert e.paths[..j + 1][..j] == e.paths[..j];
        ImportPath(e, t, e.paths[j], apply);
      }
    }

    method ImportEntry(file: File, e: Entry, services: map<string, Service>, apply: bool)
      requires Valid() && IsMethod(e.httpMethod)
      modifies this
      ensures Valid() && Value() == EntryStep(old(Value()), file, e, services, apply)
    {
      var target := ClaimGroup(file, e, services, apply);
      if target.Some? {
        ImportPaths(e, target.value, apply);
      }
    }

    method Run(file: RouteFile, services: map<string, Service>, apply: bool)
      requires Valid()
      modifies this
      ensures Valid() && Value() == Entries(old(Value()), file, |file.entries|, services, apply)
    {
      for n := 0 to |file.entries|
        invariant Valid() && Value() == Entries(old(Value()), file, n, services, apply)
      {
        ImportEntry(file, file.entries[n], services, apply);
      }
    }
  }

  /** The parser's method names are such names. */
  lemma {:induction false} MethodsAreUpper(m: string)
    requires m in {"GET", "POST", "PUT", "PATCH", "DELETE", "OPTIONS", "HEAD"}
    ensures IsMethod(m)
  {
    NoLowerCase(m);
    UpperIdentity(m);
  }

  lemma NoLowerCase(m: string)
    requires m in {"GET", "POST", "PUT", "PATCH", "DELETE", "OPTIONS", "HEAD"}
    ensures forall i :: 0 <= i < |m| ==> !('a' <= m[i] <= 'z')
  {
  }

  lemma {:induction false} UpperIdentity(s: string)
    requires forall i :: 0 <= i < |s| ==> !('a' <= s[i] <= 'z')
    ensures Upper(s) == s
  {
    if s != "" { UpperIdentity(s[1..]); }
  }

  /** Replacing a group by one with the same key changes no lookup. */
  lemma {:induction false} ReplaceKeepsKeys(groups: seq<Group>, i: nat, g: Group)
    requires i < |groups| && KeyOf(g) == KeyOf(groups[i])
    ensures forall k :: FindGroup(groups[i := g], k) == FindGroup(groups, k)
  {
    var n := |groups| - 1;
    if i < n {
      ReplaceKeepsKeys(groups[..n], i, g);
      assert groups[i := g][..n] == groups[..n][i := g];
    } else {
      assert groups[i := g][..n] == groups[..n];
    }
  }

  /** Reconciling the database with a file, committed when `apply` is set. */
  method ImportFile(db: Db, file: RouteFile, services: map<string, Service>, apply: bool)
    returns (after: Db, tally: Tally)
    ensures after == Reconcile(db, file, services, apply).db
    ensures tally == Reconcile(db, file, services, apply).tally
  {
    var importer := new Importer(db);
    importer.Run(file, services, apply);
    after := Db(importer.groups, importer.rows, importer.nextId);
    tally := importer.tally;
  }
}
