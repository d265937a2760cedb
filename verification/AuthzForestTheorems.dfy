/**
  The collected tuples are a forest of depth six rooted at the tenants, and an owner administers
  exactly the resource groups below the owner's tenant.
*/
module AuthzForestTheorems {
  import opened Wrappers
  import opened AuthzForest

  // ---------------------------------------------------------------- ids that can be taken apart

  /** A code that cannot be mistaken for the end of a joined id. */
  predicate Clean(s: string) {
    && (s != "" ==> s[0] != '-')
    && forall i :: 0 <= i < |s| - 1 ==> !(s[i] == '-' && s[i + 1] == '-')
  }

  /** What precedes the last "--". */
  function Left(s: string): string {
    if |s| < 2 then ""
    else if s[|s| - 2] == '-' && s[|s| - 1] == '-' then s[..|s| - 2]
    else Left(s[..|s| - 1])
  }

  /** Whatever the left part, a clean right part can be split off again. */
  lemma {:induction false} LeftOfJoin(left: string, right: string)
    requires Clean(right)
    ensures Left(Join(left, right)) == left
    decreases |right|
  {
    var s := Join(left, right);
    if right == "" {
      assert s == left + "--";
    } else {
      var shorter := right[..|right| - 1];
      assert s[..|s| - 1] == Join(left, shorter);
      assert Clean(shorter);
      assert s[|s| - 1] == right[|right| - 1];
      if |right| == 1 {
        assert s[|s| - 1] != '-';
      } else {
        assert s[|s| - 2] == right[|right| - 2];
      }
      LeftOfJoin(left, shorter);
    }
  }

  lemma JoinIsNotClean(left: string, right: string)
    ensures !Clean(Join(left, right))
  {
    var s := Join(left, right);
    assert s[|left|] == '-' && s[|left| + 1] == '-';
  }

  /** The default ids give back what they were made from, and no clean code equals one. */
  lemma DefaultIds(s: string)
    ensures Left(DefaultWorkspace(s)) == Left(DefaultProduct(s)) == Left(DefaultGroup(s)) == s
    ensures !Clean(DefaultWorkspace(s)) && !Clean(DefaultProduct(s)) && !Clean(DefaultGroup(s))
  {
    LeftOfJoin(s, "ws");
    LeftOfJoin(s, "product");
    LeftOfJoin(s, "rg");
    JoinIsNotClean(s, "ws");
    JoinIsNotClean(s, "product");
    JoinIsNotClean(s, "rg");
  }

  // ---------------------------------------------------------------- consistent databases

  ghost predicate Distinct<T(!new)>(rows: seq<T>, key: T -> string) {
    forall i, j :: 0 <= i < j < |rows| ==> key(rows[i]) != key(rows[j])
  }

  function WorkspacesByCode(db: Db): map<string, WorkspaceRow> {
    Latest(db.workspaces, (w: WorkspaceRow) => w.code)
  }

  function InfraByCode(db: Db): map<string, InfraRow> { Latest(db.infra, (r: InfraRow) => r.code) }

  function ConfigsByCode(db: Db): map<string, ConfigRow> { Latest(db.configs, (r: ConfigRow) => r.code) }

  /** A row naming a live application belongs to that application's tenant. */
  predicate Settled(x: Lookup, app: Option<string>, tenant: string) {
    App(x, app).Some? ==> App(x, app).value.tenant == tenant
  }

  predicate SettledPlacement(x: Lookup, p: Placement) {
    && Settled(x, p.app, p.tenant)
    && (HasGroupRow(x, p.group) ==> x.groups[p.group.value].tenant == p.tenant)
    && Clean(p.env) && Clean(p.geo)
  }

  /** An application's own workspace, when it has one, is live and of its tenant. */
  predicate LiveWorkspace(db: Db, a: AppRow) {
    Given(a.workspace) ==>
      a.workspace.value in WorkspacesByCode(db) && WorkspacesByCode(db)[a.workspace.value].tenant == a.tenant
  }

  predicate SettledGroup(x: Lookup, g: GroupRow) { Clean(g.code) && Settled(x, g.app, g.tenant) }

  ghost predicate UniqueCodes(db: Db) {
    && Distinct(db.workspaces, (w: WorkspaceRow) => w.code)
    && Distinct(db.groups, (g: GroupRow) => g.code)
    && Distinct(db.infra, (r: InfraRow) => r.code)
    && Distinct(db.configs, (r: ConfigRow) => r.code)
  }

  /** Unique and clean codes, one tenant along every reference, live workspaces. */
  ghost predicate Consistent(db: Db) {
    && UniqueCodes(db)
    && (forall i :: 0 <= i < |db.workspaces| ==> Clean(db.workspaces[i].code))
    && (forall c :: c in LookupOf(db).apps ==> Clean(c) && LiveWorkspace(db, LookupOf(db).apps[c]))
    && (forall i :: 0 <= i < |db.groups| ==> SettledGroup(LookupOf(db), db.groups[i]))
    && (forall i :: 0 <= i < |InfraPlacements(db)| ==> SettledPlacement(LookupOf(db), InfraPlacements(db)[i]))
    && (forall i :: 0 <= i < |ConfigPlacements(db)| ==> SettledPlacement(LookupOf(db), ConfigPlacements(db)[i]))
  }

  // ---------------------------------------------------------------- dicts and unions

  lemma {:induction false} LatestIsRow<T>(rows: seq<T>, key: T -> string, k: string) returns (i: nat)
    requires k in Latest(rows, key)
    ensures i < |rows| && rows[i] == Latest(rows, key)[k] && key(rows[i]) == k
    decreases |rows|
  {
    var last := |rows| - 1;
    if key(rows[last]) == k { i := last; } else { i := LatestIsRow(rows[..last], key, k); }
  }

  lemma {:induction false} RowIsKey<T>(rows: seq<T>, key: T -> string, i: nat)
    requires i < |rows|
    ensures key(rows[i]) in Latest(rows, key)
    decreases |rows|
  {
    var last := |rows| - 1;
    if i < last { RowIsKey(rows[..last], key, i); }
  }

  lemma RowIsLatest<T(!new)>(rows: seq<T>, key: T -> string, i: nat)
    requires i < |rows| && Distinct(rows, key)
    ensures key(rows[i]) in Latest(rows, key) && Latest(rows, key)[key(rows[i])] == rows[i]
  {
    RowIsKey(rows, key, i);
    var j := LatestIsRow(rows, key, key(rows[i]));
    assert i == j;
  }

  lemma {:induction false} InUnion<T>(rows: seq<T>, edges: T -> set<Tuple>, t: Tuple) returns (i: nat)
    requires t in Union(rows, edges)
    ensures i < |rows| && t in edges(rows[i])
    decreases |rows|
  {
    var last := |rows| - 1;
    if t in edges(rows[last]) { i := last; } else { i := InUnion(rows[..last], edges, t); }
  }

  lemma {:induction false} UnionHolds<T>(rows: seq<T>, edges: T -> set<Tuple>, i: nat)
    requires i < |rows|
    ensures edges(rows[i]) <= Union(rows, edges)
    decreases |rows|
  {
    var last := |rows| - 1;
    if i < last { UnionHolds(rows[..last], edges, i); }
  }

  lemma {:induction false} PlacedFrom<T>(rows: seq<T>, place: T -> Option<Placement>, k: nat) returns (i: nat)
    requires k < |Placed(rows, place)|
    ensures i < |rows| && place(rows[i]) == Some(Placed(rows, place)[k])
    decreases |rows|
  {
    var last := |rows| - 1;
    var before := Placed(rows[..last], place);
    if k < |before| { i := PlacedFrom(rows[..last], place, k); } else { i := last; }
  }

  lemma {:induction false} RowIsPlaced<T>(rows: seq<T>, place: T -> Option<Placement>, i: nat) returns (k: nat)
    requires i < |rows| && place(rows[i]).Some?
    ensures k < |Placed(rows, place)| && Placed(rows, place)[k] == place(rows[i]).value
    decreases |rows|
  {
    var last := |rows| - 1;
    if i < last { k := RowIsPlaced(rows[..last], place, i); } else { k := |Placed(rows[..last], place)|; }
  }

  // ---------------------------------------------------------------- the parent, read off a node

  /** The parent a node must have, from its id and the rows alone. */
  function ParentOf(db: Db, n: Node): Option<Node> {
    var x := LookupOf(db);
    match n.kind
    case Tenant => None
    case User => None
    case Workspace =>
      Some(Node(Tenant, if n.id in WorkspacesByCode(db) then WorkspacesByCode(db)[n.id].tenant else Left(n.id)))
    case Product =>
      if n.id in x.apps then Some(Node(Workspace, WorkspaceId(x, Some(n.id), x.apps[n.id].tenant)))
      else Some(Node(Workspace, WorkspaceId(x, None, Left(n.id))))
    case Group =>
      if n.id in x.groups then Some(Node(Product, ProductId(x, x.groups[n.id].app, x.groups[n.id].tenant)))
      else Some(Node(Product, Left(n.id)))
    case Environment => Some(Node(Group, Left(n.id)))
    case Geo => Some(Node(Environment, Left(n.id)))
    case Infra =>
      if n.id in InfraByCode(db) && PlaceInfra(x, InfraByCode(db)[n.id]).Some?
      then Some(GeoNode(x, PlaceInfra(x, InfraByCode(db)[n.id]).value)) else None
    case ServiceConfig =>
      if n.id in ConfigsByCode(db) && PlaceConfig(x, ConfigsByCode(db)[n.id]).Some?
      then Some(GeoNode(x, PlaceConfig(x, ConfigsByCode(db)[n.id]).value)) else None
  }

  ghost predicate Right(db: Db, t: Tuple) { t.relation == Parent && ParentOf(db, t.of) == Some(t.subject) }

  lemma WorkspaceRowRight(db: Db, i: nat)
    requires Consistent(db) && i < |db.workspaces|
    ensures ParentOf(db, Node(Workspace, db.workspaces[i].code)) == Some(Node(Tenant, db.workspaces[i].tenant))
  {
    RowIsLatest(db.workspaces, (w: WorkspaceRow) => w.code, i);
  }

  lemma DefaultWorkspaceRight(db: Db, tenant: string)
    requires Consistent(db)
    ensures ParentOf(db, Node(Workspace, DefaultWorkspace(tenant))) == Some(Node(Tenant, tenant))
  {
    DefaultIds(tenant);
    var id := DefaultWorkspace(tenant);
    if id in WorkspacesByCode(db) {
      var i := LatestIsRow(db.workspaces, (w: WorkspaceRow) => w.code, id);
      assert false;
    }
  }

  lemma ProductRight(db: Db, app: Option<string>, tenant: string)
    requires Consistent(db) && Settled(LookupOf(db), app, tenant)
    ensures var x := LookupOf(db);
      ParentOf(db, Node(Product, ProductId(x, app, tenant))) == Some(Node(Workspace, WorkspaceId(x, app, tenant)))
  {
    var x := LookupOf(db);
    if App(x, app).Some? {
      var i := LatestIsRow(db.apps, (a: AppRow) => a.code, app.value);
    } else {
      DefaultIds(tenant);
      assert DefaultProduct(tenant) !in x.apps;
    }
  }

  /** The workspace of a settled chain belongs to the chain's tenant. */
  lemma WorkspaceRight(db: Db, app: Option<string>, tenant: string)
    requires Consistent(db) && Settled(LookupOf(db), app, tenant)
    ensures ParentOf(db, Node(Workspace, WorkspaceId(LookupOf(db), app, tenant))) == Some(Node(Tenant, tenant))
  {
    var x := LookupOf(db);
    var known := KnownWorkspace(x, app, tenant);
    if known.None? {
      DefaultWorkspaceRight(db, tenant);
    } else if App(x, app).Some? && Given(App(x, app).value.workspace) {
      assert LiveWorkspace(db, x.apps[app.value]);
    } else {
      var i := LatestIsRow(db.workspaces, (w: WorkspaceRow) => w.tenant, tenant);
      WorkspaceRowRight(db, i);
    }
  }

  lemma ChainRight(db: Db, app: Option<string>, tenant: string)
    requires Consistent(db) && Settled(LookupOf(db), app, tenant)
    ensures forall t :: t in ChainEdges(LookupOf(db), app, tenant) ==> Right(db, t)
  {
    ProductRight(db, app, tenant);
    WorkspaceRight(db, app, tenant);
  }

  lemma GroupRowRight(db: Db, i: nat)
    requires Consistent(db) && i < |db.groups|
    ensures var x, g := LookupOf(db), db.groups[i];
      ParentOf(db, Node(Group, g.code)) == Some(Node(Product, ProductId(x, g.app, g.tenant)))
  {
    RowIsLatest(db.groups, (g: GroupRow) => g.code, i);
  }

  lemma DefaultGroupRight(db: Db, product: string)
    requires Consistent(db)
    ensures DefaultGroup(product) !in LookupOf(db).groups
    ensures ParentOf(db, Node(Group, DefaultGroup(product))) == Some(Node(Product, product))
  {
    DefaultIds(product);
    var id := DefaultGroup(product);
    if id in LookupOf(db).groups {
      var i := LatestIsRow(db.groups, (g: GroupRow) => g.code, id);
      assert false;
    }
  }

  lemma EnvironmentRight(db: Db, group: string, env: string, geo: string)
    requires Clean(env) && Clean(geo)
    ensures ParentOf(db, Node(Environment, EnvironmentId(group, env))) == Some(Node(Group, group))
    ensures ParentOf(db, Node(Geo, GeoId(group, env, geo))) == Some(Node(Environment, EnvironmentId(group, env)))
  {
    LeftOfJoin(group, env);
    LeftOfJoin(EnvironmentId(group, env), geo);
  }

  lemma PathRight(db: Db, p: Placement)
    requires Consistent(db) && SettledPlacement(LookupOf(db), p)
    ensures forall t :: t in PathEdges(LookupOf(db), p) ==> Right(db, t)
  {
    var x := LookupOf(db);
    ChainRight(db, p.app, p.tenant);
    DefaultGroupRight(db, ProductId(x, p.app, p.tenant));
    EnvironmentRight(db, GroupId(x, p), p.env, p.geo);
    forall t | t in PathEdges(x, p) ensures Right(db, t) {
      if t in ChainEdges(x, p.app, p.tenant) {
        assert Right(db, t);
      }
    }
  }

  lemma InfraLeafRight(db: Db, k: nat)
    requires Consistent(db) && k < |InfraPlacements(db)|
    ensures ParentOf(db, InfraPlacements(db)[k].leaf) == Some(GeoNode(LookupOf(db), InfraPlacements(db)[k]))
  {
    var x := LookupOf(db);
    var i := PlacedFrom(db.infra, row => PlaceInfra(x, row), k);
    RowIsLatest(db.infra, (r: InfraRow) => r.code, i);
  }

  lemma ConfigLeafRight(db: Db, k: nat)
    requires Consistent(db) && k < |ConfigPlacements(db)|
    ensures ParentOf(db, ConfigPlacements(db)[k].leaf) == Some(GeoNode(LookupOf(db), ConfigPlacements(db)[k]))
  {
    var x := LookupOf(db);
    var i := PlacedFrom(db.configs, row => PlaceConfig(x, row), k);
    RowIsLatest(db.configs, (r: ConfigRow) => r.code, i);
  }

  lemma StructureRight(db: Db, t: Tuple)
    requires Consistent(db) && t in Structure(db)
    ensures Right(db, t)
  {
    var x := LookupOf(db);
    if t in Union(db.workspaces, w => WorkspaceEdges(w)) {
      var i := InUnion(db.workspaces, w => WorkspaceEdges(w), t);
      WorkspaceRowRight(db, i);
    } else if t in Union(db.groups, g => GroupEdges(x, g)) {
      var i := InUnion(db.groups, g => GroupEdges(x, g), t);
      assert SettledGroup(x, db.groups[i]);
      ChainRight(db, db.groups[i].app, db.groups[i].tenant);
      GroupRowRight(db, i);
    } else if t in Union(InfraPlacements(db), p => PlacementEdges(x, p)) {
      var k := InUnion(InfraPlacements(db), p => PlacementEdges(x, p), t);
      PathRight(db, InfraPlacements(db)[k]);
      InfraLeafRight(db, k);
    } else {
      var k := InUnion(ConfigPlacements(db), p => PlacementEdges(x, p), t);
      PathRight(db, ConfigPlacements(db)[k]);
      ConfigLeafRight(db, k);
    }
  }

  lemma ParentIsStructure(db: Db, t: Tuple)
    requires t in Collected(db)
    ensures t.relation == Parent <==> t in Structure(db)
  {
    var x := LookupOf(db);
    if t in Structure(db) {
      StructureIsParent(db, t);
    } else {
      var tenants := GroupTenants(db);
      var i := InUnion(db.owners, owner => GrantsOf(tenants, owner), t);
    }
  }

  lemma StructureIsParent(db: Db, t: Tuple)
    requires t in Structure(db)
    ensures t.relation == Parent
  {
    var x := LookupOf(db);
    if t in Union(db.workspaces, w => WorkspaceEdges(w)) {
      var i := InUnion(db.workspaces, w => WorkspaceEdges(w), t);
    } else if t in Union(db.groups, g => GroupEdges(x, g)) {
      var i := InUnion(db.groups, g => GroupEdges(x, g), t);
    } else if t in Union(InfraPlacements(db), p => PlacementEdges(x, p)) {
      var k := InUnion(InfraPlacements(db), p => PlacementEdges(x, p), t);
      PlacementIsParent(x, InfraPlacements(db)[k], t);
    } else {
      var k := InUnion(ConfigPlacements(db), p => PlacementEdges(x, p), t);
      PlacementIsParent(x, ConfigPlacements(db)[k], t);
    }
  }

  lemma PlacementIsParent(x: Lookup, p: Placement, t: Tuple)
    requires t in PlacementEdges(x, p)
    ensures t.relation == Parent
  {
  }

  /** In a consistent database the parent of a node is the one its id and its row say. */
  lemma ParentReadOff(db: Db, p: Node, child: Node)
    requires Consistent(db) && Edge(p, child) in Collected(db)
    ensures ParentOf(db, child) == Some(p)
  {
    ParentIsStructure(db, Edge(p, child));
    StructureRight(db, Edge(p, child));
  }

  // ---------------------------------------------------------------- six edges up to the tenant

  function Level(kind: Kind): nat {
    match kind
    case User => 0
    case Tenant => 0
    case Workspace => 1
    case Product => 2
    case Group => 3
    case Environment => 4
    case Geo => 5
    case Infra => 6
    case ServiceConfig => 6
  }

  /** The ancestor k parents up. */
  function Up(db: Db, n: Node, k: nat): Option<Node>
    decreases k
  {
    if k == 0 then Some(n)
    else if ParentOf(db, n).None? then None
    else Up(db, ParentOf(db, n).value, k - 1)
  }

  /** A node whose parent edge is among the collected tuples. */
  ghost predicate Hung(db: Db, n: Node) {
    ParentOf(db, n).Some? && Edge(ParentOf(db, n).value, n) in Structure(db)
  }

  ghost predicate Listed(db: Db, p: Placement) { p in InfraPlacements(db) || p in ConfigPlacements(db) }

  /** A leaf tells which of the two loops placed it. */
  lemma LeafKind(db: Db, p: Placement)
    requires Listed(db, p)
    ensures p.leaf.kind == Infra <==> p in InfraPlacements(db)
    ensures p.leaf.kind == ServiceConfig <==> p in ConfigPlacements(db)
  {
    var x := LookupOf(db);
    if p in InfraPlacements(db) {
      var k: nat :| k < |InfraPlacements(db)| && InfraPlacements(db)[k] == p;
      var i := PlacedFrom(db.infra, row => PlaceInfra(x, row), k);
    }
    if p in ConfigPlacements(db) {
      var k: nat :| k < |ConfigPlacements(db)| && ConfigPlacements(db)[k] == p;
      var i := PlacedFrom(db.configs, row => PlaceConfig(x, row), k);
    }
  }

  lemma ListedIsSettled(db: Db, p: Placement)
    requires Consistent(db) && Listed(db, p)
    ensures SettledPlacement(LookupOf(db), p)
    ensures ParentOf(db, p.leaf) == Some(GeoNode(LookupOf(db), p))
    ensures Level(p.leaf.kind) == 6
  {
    LeafKind(db, p);
    if p in InfraPlacements(db) {
      var k: nat :| k < |InfraPlacements(db)| && InfraPlacements(db)[k] == p;
      InfraLeafRight(db, k);
    } else {
      var k: nat :| k < |ConfigPlacements(db)| && ConfigPlacements(db)[k] == p;
      ConfigLeafRight(db, k);
    }
  }

  lemma ListedIsCollected(db: Db, p: Placement)
    requires Listed(db, p)
    ensures PlacementEdges(LookupOf(db), p) <= Structure(db)
  {
    var x := LookupOf(db);
    if p in InfraPlacements(db) {
      var k: nat :| k < |InfraPlacements(db)| && InfraPlacements(db)[k] == p;
      UnionHolds(InfraPlacements(db), p => PlacementEdges(x, p), k);
    } else {
      var k: nat :| k < |ConfigPlacements(db)| && ConfigPlacements(db)[k] == p;
      UnionHolds(ConfigPlacements(db), p => PlacementEdges(x, p), k);
    }
  }

  lemma GroupRowIsCollected(db: Db, i: nat)
    requires i < |db.groups|
    ensures GroupEdges(LookupOf(db), db.groups[i]) <= Structure(db)
  {
    var x := LookupOf(db);
    UnionHolds(db.groups, g => GroupEdges(x, g), i);
  }

  lemma WorkspaceRowIsCollected(db: Db, i: nat)
    requires i < |db.workspaces|
    ensures Edge(Node(Tenant, db.workspaces[i].tenant), Node(Workspace, db.workspaces[i].code)) in Structure(db)
  {
    UnionHolds(db.workspaces, w => WorkspaceEdges(w), i);
  }

  /** The found workspace of a settled chain is a row. */
  lemma KnownWorkspaceIsRow(db: Db, app: Option<string>, tenant: string) returns (i: nat)
    requires Consistent(db) && Settled(LookupOf(db), app, tenant)
    requires KnownWorkspace(LookupOf(db), app, tenant).Some?
    ensures i < |db.workspaces| && db.workspaces[i].code == WorkspaceId(LookupOf(db), app, tenant)
  {
    var x := LookupOf(db);
    if App(x, app).Some? && Given(App(x, app).value.workspace) {
      assert LiveWorkspace(db, x.apps[app.value]);
      i := LatestIsRow(db.workspaces, (w: WorkspaceRow) => w.code, App(x, app).value.workspace.value);
    } else {
      i := LatestIsRow(db.workspaces, (w: WorkspaceRow) => w.tenant, tenant);
    }
  }

  lemma ChainHung(db: Db, app: Option<string>, tenant: string)
    requires Consistent(db) && Settled(LookupOf(db), app, tenant)
    requires ChainEdges(LookupOf(db), app, tenant) <= Structure(db)
    ensures var x := LookupOf(db);
      && Hung(db, Node(Workspace, WorkspaceId(x, app, tenant))) && Hung(db, Node(Product, ProductId(x, app, tenant)))
      && Up(db, Node(Product, ProductId(x, app, tenant)), 2) == Some(Node(Tenant, tenant))
  {
    var x := LookupOf(db);
    ProductRight(db, app, tenant);
    WorkspaceRight(db, app, tenant);
    var workspace, product := Node(Workspace, WorkspaceId(x, app, tenant)), Node(Product, ProductId(x, app, tenant));
    assert Edge(workspace, product) in ChainEdges(x, app, tenant);
    if KnownWorkspace(x, app, tenant).Some? {
      var i := KnownWorkspaceIsRow(db, app, tenant);
      WorkspaceRowIsCollected(db, i);
      WorkspaceRowRight(db, i);
    } else {
      assert Edge(Node(Tenant, tenant), workspace) in ChainEdges(x, app, tenant);
    }
    TwoUp(db, product, workspace, Node(Tenant, tenant));
  }

  lemma TwoUp(db: Db, n: Node, parent: Node, grandparent: Node)
    requires ParentOf(db, n) == Some(parent) && ParentOf(db, parent) == Some(grandparent)
    ensures Up(db, n, 2) == Some(grandparent)
  {
    assert Up(db, parent, 1) == Some(grandparent) by { assert Up(db, grandparent, 0) == Some(grandparent); }
  }

  /** A group below a product of the tenant is three edges below the tenant. */
  lemma OneMoreUp(db: Db, n: Node, parent: Node, k: nat, top: Node)
    requires ParentOf(db, n) == Some(parent) && Up(db, parent, k) == Some(top)
    ensures Up(db, n, k + 1) == Some(top)
  {
  }

  lemma GroupRowHung(db: Db, i: nat)
    requires Consistent(db) && i < |db.groups|
    ensures var x, g := LookupOf(db), db.groups[i];
      && Hung(db, Node(Workspace, WorkspaceId(x, g.app, g.tenant)))
      && Hung(db, Node(Product, ProductId(x, g.app, g.tenant)))
      && Hung(db, Node(Group, g.code)) && Up(db, Node(Group, g.code), 3) == Some(Node(Tenant, g.tenant))
  {
    var x, g := LookupOf(db), db.groups[i];
    assert SettledGroup(x, g);
    GroupRowIsCollected(db, i);
    ChainHung(db, g.app, g.tenant);
    GroupRowRight(db, i);
    OneMoreUp(db, Node(Group, g.code), Node(Product, ProductId(x, g.app, g.tenant)), 2, Node(Tenant, g.tenant));
  }

  lemma PlacementGroupHung(db: Db, p: Placement)
    requires Consistent(db) && Listed(db, p)
    ensures var x := LookupOf(db);
      && Hung(db, Node(Workspace, WorkspaceId(x, p.app, p.tenant)))
      && Hung(db, Node(Product, ProductId(x, p.app, p.tenant)))
      && Hung(db, Node(Group, GroupId(x, p))) && Up(db, Node(Group, GroupId(x, p)), 3) == Some(Node(Tenant, p.tenant))
  {
    var x := LookupOf(db);
    ListedIsSettled(db, p);
    ListedIsCollected(db, p);
    ChainHung(db, p.app, p.tenant);
    var product, group := Node(Product, ProductId(x, p.app, p.tenant)), Node(Group, GroupId(x, p));
    if HasGroupRow(x, p.group) {
      var i := LatestIsRow(db.groups, (g: GroupRow) => g.code, p.group.value);
      GroupRowHung(db, i);
    } else {
      DefaultGroupRight(db, product.id);
      assert Edge(product, group) in PathEdges(x, p);
      OneMoreUp(db, group, product, 2, Node(Tenant, p.tenant));
    }
  }

  lemma PlacementHung(db: Db, p: Placement)
    requires Consistent(db) && Listed(db, p)
    ensures var x := LookupOf(db);
      && Hung(db, EnvironmentNode(x, p)) && Hung(db, GeoNode(x, p)) && Hung(db, p.leaf)
      && Up(db, p.leaf, 6) == Some(Node(Tenant, p.tenant))
  {
    var x := LookupOf(db);
    ListedIsSettled(db, p);
    ListedIsCollected(db, p);
    PlacementGroupHung(db, p);
    var group, environment, geo, tenant :=
      Node(Group, GroupId(x, p)), EnvironmentNode(x, p), GeoNode(x, p), Node(Tenant, p.tenant);
    EnvironmentRight(db, group.id, p.env, p.geo);
    assert Edge(group, environment) in PathEdges(x, p) && Edge(environment, geo) in PathEdges(x, p);
    assert Edge(geo, p.leaf) in PlacementEdges(x, p);
    OneMoreUp(db, environment, group, 3, tenant);
    OneMoreUp(db, geo, environment, 4, tenant);
    OneMoreUp(db, p.leaf, geo, 5, tenant);
  }

  /** No edge hangs in the air: its parent is a tenant or has a parent edge itself. */
  lemma ParentIsHung(db: Db, t: Tuple)
    requires Consistent(db) && t in Structure(db)
    ensures t.subject.kind == Tenant || Hung(db, t.subject)
  {
    var x := LookupOf(db);
    if t in Union(db.workspaces, w => WorkspaceEdges(w)) {
      var i := InUnion(db.workspaces, w => WorkspaceEdges(w), t);
    } else if t in Union(db.groups, g => GroupEdges(x, g)) {
      var i := InUnion(db.groups, g => GroupEdges(x, g), t);
      GroupRowHung(db, i);
      GroupSubjects(x, db.groups[i], t);
    } else {
      var p := PlacementOfEdge(db, t);
      PlacementGroupHung(db, p);
      PlacementHung(db, p);
      PlacementSubjects(x, p, t);
    }
  }

  lemma PlacementOfEdge(db: Db, t: Tuple) returns (p: Placement)
    requires t in Union(InfraPlacements(db), p => PlacementEdges(LookupOf(db), p))
             || t in Union(ConfigPlacements(db), p => PlacementEdges(LookupOf(db), p))
    ensures Listed(db, p) && t in PlacementEdges(LookupOf(db), p)
  {
    var x := LookupOf(db);
    if t in Union(InfraPlacements(db), p => PlacementEdges(x, p)) {
      var k := InUnion(InfraPlacements(db), p => PlacementEdges(x, p), t);
      p := InfraPlacements(db)[k];
    } else {
      var k := InUnion(ConfigPlacements(db), p => PlacementEdges(x, p), t);
      p := ConfigPlacements(db)[k];
    }
  }

  lemma GroupSubjects(x: Lookup, g: GroupRow, t: Tuple)
    requires t in GroupEdges(x, g)
    ensures || t.subject.kind == Tenant
            || t.subject == Node(Workspace, WorkspaceId(x, g.app, g.tenant))
            || t.subject == Node(Product, ProductId(x, g.app, g.tenant))
  {
  }

  lemma PlacementSubjects(x: Lookup, p: Placement, t: Tuple)
    requires t in PlacementEdges(x, p)
    ensures || t.subject.kind == Tenant
            || t.subject == Node(Workspace, WorkspaceId(x, p.app, p.tenant))
            || t.subject == Node(Product, ProductId(x, p.app, p.tenant))
            || t.subject == Node(Group, GroupId(x, p))
            || t.subject == EnvironmentNode(x, p) || t.subject == GeoNode(x, p)
  {
  }

  /** The edge from the k-th ancestor up to the next is collected. */
  ghost predicate EdgeUp(db: Db, n: Node, k: nat) {
    Up(db, n, k).Some? && Up(db, n, k + 1).Some? && Edge(Up(db, n, k + 1).value, Up(db, n, k).value) in Structure(db)
  }

  lemma OneLevel(db: Db, n: Node)
    requires ParentOf(db, n).Some?
    ensures Level(n.kind) == Level(ParentOf(db, n).value.kind) + 1
    ensures ParentOf(db, n).value.kind == Tenant <==> Level(n.kind) == 1
  {
  }

  /** Every node with a parent is as many collected edges below a tenant as its type is deep. */
  lemma {:induction false} Rooted(db: Db, n: Node)
    requires Consistent(db) && Hung(db, n)
    ensures Up(db, n, Level(n.kind)).Some? && Up(db, n, Level(n.kind)).value.kind == Tenant
    ensures forall k: nat :: k < Level(n.kind) ==> EdgeUp(db, n, k)
    decreases Level(n.kind)
  {
    var parent := ParentOf(db, n).value;
    OneLevel(db, n);
    ParentIsHung(db, Edge(parent, n));
    if parent.kind != Tenant { Rooted(db, parent); }
    forall k: nat | k < Level(n.kind) ensures EdgeUp(db, n, k) {
      if k == 0 { FirstEdgeUp(db, n, parent); } else { LaterEdgeUp(db, n, parent, k); }
    }
  }

  lemma FirstEdgeUp(db: Db, n: Node, parent: Node)
    requires ParentOf(db, n) == Some(parent) && Edge(parent, n) in Structure(db)
    ensures EdgeUp(db, n, 0)
  {
    assert Up(db, n, 0) == Some(n) && Up(db, parent, 0) == Some(parent);
  }

  lemma LaterEdgeUp(db: Db, n: Node, parent: Node, k: nat)
    requires ParentOf(db, n) == Some(parent) && k > 0 && EdgeUp(db, parent, k - 1)
    ensures EdgeUp(db, n, k)
  {
    assert Up(db, n, k) == Up(db, parent, k - 1) && Up(db, n, k + 1) == Up(db, parent, k);
  }

  /** A placed row reaches its own tenant, by six collected edges and no further; with one
      parent for every node there is no other way up. */
  lemma LeafReachesItsTenant(db: Db, p: Placement)
    requires Consistent(db) && Listed(db, p)
    ensures Up(db, p.leaf, 6) == Some(Node(Tenant, p.tenant)) && Up(db, p.leaf, 7) == None
    ensures forall k: nat :: k < 6 ==> EdgeUp(db, p.leaf, k)
  {
    PlacementHung(db, p);
    ListedIsSettled(db, p);
    Rooted(db, p.leaf);
    NoFurther(db, p.leaf, 6);
  }

  lemma {:induction false} NoFurther(db: Db, n: Node, k: nat)
    requires Up(db, n, k).Some? && Up(db, n, k).value.kind == Tenant
    ensures Up(db, n, k + 1) == None
    decreases k
  {
    if k > 0 { NoFurther(db, ParentOf(db, n).value, k - 1); }
  }

  // ---------------------------------------------------------------- owner grants

  lemma {:induction false} RowTenantsAre(groups: seq<GroupRow>, code: string)
    ensures code in RowTenants(groups) <==> code in Latest(groups, (g: GroupRow) => g.code)
    ensures code in RowTenants(groups) ==>
      RowTenants(groups)[code] == Latest(groups, (g: GroupRow) => g.code)[code].tenant
  {
    if groups != [] { RowTenantsAre(groups[..|groups| - 1], code); }
  }

  /** A group node that is collected, under the tenant the map names. */
  ghost predicate TenantRight(db: Db, code: string, tenant: string) {
    Hung(db, Node(Group, code)) && Up(db, Node(Group, code), 3) == Some(Node(Tenant, tenant))
  }

  ghost predicate TenantsRight(db: Db, tenants: map<string, string>) {
    forall code :: code in tenants ==> TenantRight(db, code, tenants[code])
  }

  lemma RowTenantsRight(db: Db)
    requires Consistent(db)
    ensures TenantsRight(db, RowTenants(db.groups))
  {
    forall code | code in RowTenants(db.groups) ensures TenantRight(db, code, RowTenants(db.groups)[code]) {
      RowTenantsAre(db.groups, code);
      var i := LatestIsRow(db.groups, (g: GroupRow) => g.code, code);
      GroupRowHung(db, i);
    }
  }

  lemma {:induction false} WithDefaultsRight(db: Db, placements: seq<Placement>, tenants: map<string, string>)
    requires Consistent(db) && (forall k :: 0 <= k < |placements| ==> Listed(db, placements[k]))
    requires TenantsRight(db, tenants)
    ensures TenantsRight(db, WithDefaults(LookupOf(db), placements, tenants))
    decreases |placements|
  {
    if placements != [] {
      var p := placements[|placements| - 1];
      WithDefaultsRight(db, placements[..|placements| - 1], tenants);
      assert Listed(db, p);
      PlacementGroupHung(db, p);
    }
  }

  /** Every default group a placement uses ends up in the map, and no key is lost. */
  lemma {:induction false} DefaultsComplete(x: Lookup, placements: seq<Placement>, tenants: map<string, string>)
    ensures tenants.Keys <= WithDefaults(x, placements, tenants).Keys
    ensures forall p | p in placements && !HasGroupRow(x, p.group) ::
      GroupId(x, p) in WithDefaults(x, placements, tenants)
    decreases |placements|
  {
    if placements != [] {
      var last := |placements| - 1;
      DefaultsComplete(x, placements[..last], tenants);
      OneDefault(x, placements[last], WithDefaults(x, placements[..last], tenants));
      assert placements == placements[..last] + [placements[last]];
    }
  }

  lemma OneDefault(x: Lookup, p: Placement, tenants: map<string, string>)
    ensures tenants.Keys <= WithDefault(x, p, tenants).Keys
    ensures HasGroupRow(x, p.group) || GroupId(x, p) in WithDefault(x, p, tenants)
  {
  }

  /** The group tenants name exactly the collected groups, each with the tenant three edges up. */
  lemma GroupTenantsRight(db: Db, code: string)
    requires Consistent(db)
    ensures code in GroupTenants(db) <==> Hung(db, Node(Group, code))
    ensures code in GroupTenants(db) ==> Up(db, Node(Group, code), 3) == Some(Node(Tenant, GroupTenants(db)[code]))
  {
    var x, rows := LookupOf(db), RowTenants(db.groups);
    var some := WithDefaults(x, InfraPlacements(db), rows);
    RowTenantsRight(db);
    WithDefaultsRight(db, InfraPlacements(db), rows);
    WithDefaultsRight(db, ConfigPlacements(db), some);
    if code in GroupTenants(db) {
      assert TenantRight(db, code, GroupTenants(db)[code]);
    } else if Hung(db, Node(Group, code)) {
      DefaultsComplete(x, InfraPlacements(db), rows);
      DefaultsComplete(x, ConfigPlacements(db), some);
      GroupOrigin(db, code);
      RowTenantsAre(db.groups, code);
      assert false;
    }
  }

  /** A collected group is a row or the default group of a placement. */
  lemma GroupOrigin(db: Db, code: string)
    requires Consistent(db) && Hung(db, Node(Group, code))
    ensures || code in LookupOf(db).groups
            || exists p :: Listed(db, p) && UsesDefault(LookupOf(db), p, code)
  {
    var x, t := LookupOf(db), Edge(ParentOf(db, Node(Group, code)).value, Node(Group, code));
    if t in Union(db.workspaces, w => WorkspaceEdges(w)) {
      var i := InUnion(db.workspaces, w => WorkspaceEdges(w), t);
    } else if t in Union(db.groups, g => GroupEdges(x, g)) {
      var i := InUnion(db.groups, g => GroupEdges(x, g), t);
      GroupTarget(x, db.groups[i], t);
      RowIsKey(db.groups, (g: GroupRow) => g.code, i);
    } else {
      var p := PlacementOfEdge(db, t);
      ListedIsSettled(db, p);
      PlacementTarget(x, p, t);
    }
  }

  predicate UsesDefault(x: Lookup, p: Placement, code: string) {
    !HasGroupRow(x, p.group) && GroupId(x, p) == code
  }

  lemma GroupTarget(x: Lookup, g: GroupRow, t: Tuple)
    requires t in GroupEdges(x, g) && t.of.kind == Group
    ensures t.of.id == g.code
  {
  }

  lemma PlacementTarget(x: Lookup, p: Placement, t: Tuple)
    requires t in PlacementEdges(x, p) && t.of.kind == Group && p.leaf.kind != Group
    ensures UsesDefault(x, p, t.of.id)
  {
  }

  lemma {:induction false} GrantIff(tenants: map<string, string>, owners: seq<OwnerRow>, t: Tuple)
    ensures t in GrantsFor(tenants, owners) <==>
      exists i :: 0 <= i < |owners| && t in GrantsOf(tenants, owners[i])
  {
    if t in GrantsFor(tenants, owners) {
      var i := InUnion(owners, owner => GrantsOf(tenants, owner), t);
    } else {
      forall i | 0 <= i < |owners| ensures t !in GrantsOf(tenants, owners[i]) {
        UnionHolds(owners, owner => GrantsOf(tenants, owner), i);
      }
    }
  }

  /** A user row with this code owns this tenant. */
  ghost predicate Owns(db: Db, user: string, tenant: string) {
    exists i :: 0 <= i < |db.owners| && db.owners[i] == OwnerRow(user, tenant)
  }

  /** An admin tuple goes from an owner to a collected resource group three parent edges below the
      owner's tenant, default groups included, and all those tuples are there. */
  lemma OwnersAdminister(db: Db, t: Tuple)
    requires Consistent(db)
    ensures t in Collected(db) && t.relation == Admin <==>
      && t.relation == Admin && t.subject.kind == User && t.of.kind == Group && Hung(db, t.of)
      && Up(db, t.of, 3).Some? && Owns(db, t.subject.id, Up(db, t.of, 3).value.id)
  {
    var tenants, code := GroupTenants(db), t.of.id;
    GrantIff(tenants, db.owners, t);
    GroupTenantsRight(db, code);
    if t in Collected(db) && t.relation == Admin {
      ParentIsStructure(db, t);
      var i :| 0 <= i < |db.owners| && t in GrantsOf(tenants, db.owners[i]);
      assert db.owners[i] == OwnerRow(t.subject.id, tenants[code]);
    }
    if t.relation == Admin && t.subject.kind == User && t.of.kind == Group && Hung(db, t.of)
       && Up(db, t.of, 3).Some? && Owns(db, t.subject.id, Up(db, t.of, 3).value.id) {
      var i :| 0 <= i < |db.owners| && db.owners[i] == OwnerRow(t.subject.id, tenants[code]);
      assert t == Grant(db.owners[i], code);
      assert t in GrantsOf(tenants, db.owners[i]);
    }
  }

  // ---------------------------------------------------------------- which rows are placed

  lemma InfraRowIsHung(db: Db, i: nat) returns (geo: Node)
    requires i < |db.infra| && Given(db.infra[i].geo)
    ensures Edge(geo, Node(Infra, db.infra[i].code)) in Structure(db)
  {
    var x := LookupOf(db);
    var k := RowIsPlaced(db.infra, row => PlaceInfra(x, row), i);
    var p := InfraPlacements(db)[k];
    ListedIsCollected(db, p);
    geo := GeoNode(x, p);
    assert Edge(geo, p.leaf) in PlacementEdges(x, p);
  }

  lemma ConfigRowIsHung(db: Db, i: nat) returns (geo: Node)
    requires i < |db.configs| && PlaceConfig(LookupOf(db), db.configs[i]).Some?
    ensures Edge(geo, Node(ServiceConfig, db.configs[i].code)) in Structure(db)
  {
    var x := LookupOf(db);
    var k := RowIsPlaced(db.configs, row => PlaceConfig(x, row), i);
    var p := ConfigPlacements(db)[k];
    ListedIsCollected(db, p);
    geo := GeoNode(x, p);
    assert Edge(geo, p.leaf) in PlacementEdges(x, p);
  }

  lemma InfraOrigin(db: Db, t: Tuple) returns (i: nat)
    requires t in Structure(db) && t.of.kind == Infra
    ensures i < |db.infra| && db.infra[i].code == t.of.id && Given(db.infra[i].geo)
  {
    var x := LookupOf(db);
    var p := LeafOrigin(db, t);
    LeafKind(db, p);
    var k: nat :| k < |InfraPlacements(db)| && InfraPlacements(db)[k] == p;
    i := PlacedFrom(db.infra, row => PlaceInfra(x, row), k);
  }

  lemma ConfigOrigin(db: Db, t: Tuple) returns (i: nat)
    requires t in Structure(db) && t.of.kind == ServiceConfig
    ensures i < |db.configs| && db.configs[i].code == t.of.id && PlaceConfig(LookupOf(db), db.configs[i]).Some?
  {
    var x := LookupOf(db);
    var p := LeafOrigin(db, t);
    LeafKind(db, p);
    var k: nat :| k < |ConfigPlacements(db)| && ConfigPlacements(db)[k] == p;
    i := PlacedFrom(db.configs, row => PlaceConfig(x, row), k);
  }

  /** An infrastructure node exists exactly for the rows with a geo, and a service config node
      exactly for the configs with a geo whose service row is live. */
  lemma PlacedIff(db: Db, code: string)
    ensures (exists geo :: Edge(geo, Node(Infra, code)) in Structure(db)) <==>
            exists i :: 0 <= i < |db.infra| && db.infra[i].code == code && Given(db.infra[i].geo)
    ensures (exists geo :: Edge(geo, Node(ServiceConfig, code)) in Structure(db)) <==>
            exists i :: 0 <= i < |db.configs| && db.configs[i].code == code && Given(db.configs[i].geo)
                        && db.configs[i].service.Some? && db.configs[i].service.value in LookupOf(db).services
  {
    if i: nat :| i < |db.infra| && db.infra[i].code == code && Given(db.infra[i].geo) {
      var geo := InfraRowIsHung(db, i);
    }
    if geo :| Edge(geo, Node(Infra, code)) in Structure(db) {
      var i := InfraOrigin(db, Edge(geo, Node(Infra, code)));
    }
    if i: nat :| i < |db.configs| && db.configs[i].code == code && PlaceConfig(LookupOf(db), db.configs[i]).Some? {
      var geo := ConfigRowIsHung(db, i);
    }
    if geo :| Edge(geo, Node(ServiceConfig, code)) in Structure(db) {
      var i := ConfigOrigin(db, Edge(geo, Node(ServiceConfig, code)));
    }
  }

  /** An edge to a leaf comes from the placement with that leaf. */
  lemma LeafOrigin(db: Db, t: Tuple) returns (p: Placement)
    requires t in Structure(db) && Level(t.of.kind) == 6
    ensures Listed(db, p) && p.leaf == t.of
  {
    var x := LookupOf(db);
    if t in Union(db.workspaces, w => WorkspaceEdges(w)) {
      var i := InUnion(db.workspaces, w => WorkspaceEdges(w), t);
      assert false;
    } else if t in Union(db.groups, g => GroupEdges(x, g)) {
      var i := InUnion(db.groups, g => GroupEdges(x, g), t);
      assert false;
    } else {
      p := PlacementOfEdge(db, t);
      LeafTarget(x, p, t);
    }
  }

  lemma LeafTarget(x: Lookup, p: Placement, t: Tuple)
    requires t in PlacementEdges(x, p) && Level(t.of.kind) == 6
    ensures p.leaf == t.of
  {
  }
}
