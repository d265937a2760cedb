/**
  scripts/fga_authz_backfill.py: the relationship tuples that place every database row under its
  tenant.  A node is kept as its type and its id; the source prints it as "type:id".
*/
module AuthzForest {
  import opened Wrappers

  datatype Kind = Tenant | Workspace | Product | Group | Environment | Geo | Infra | ServiceConfig | User

  datatype Node = Node(kind: Kind, id: string)

  datatype Relation = Parent | Admin

  datatype Tuple = Tuple(subject: Node, relation: Relation, of: Node)

  datatype WorkspaceRow = WorkspaceRow(code: string, tenant: string)
  datatype AppRow = AppRow(code: string, workspace: Option<string>, tenant: string)
  datatype GroupRow = GroupRow(code: string, app: Option<string>, tenant: string)
  datatype AccountRow = AccountRow(code: string, env: string)
  datatype OwnerRow = OwnerRow(code: string, tenant: string)
  datatype InfraRow = InfraRow(code: string, tenant: string, app: Option<string>, group: Option<string>,
                               geo: Option<string>, account: Option<string>)
  datatype ConfigRow = ConfigRow(code: string, tenant: string, service: Option<string>, env: string,
                                 geo: Option<string>)
  datatype ServiceRow = ServiceRow(code: string, app: Option<string>, group: Option<string>)

  /** The live rows the script selects. */
  datatype Db = Db(workspaces: seq<WorkspaceRow>, apps: seq<AppRow>, groups: seq<GroupRow>, accounts: seq<AccountRow>,
                   owners: seq<OwnerRow>, infra: seq<InfraRow>, configs: seq<ConfigRow>, services: seq<ServiceRow>)

  const UNKNOWN_ENV := "unknown"

  // ---------------------------------------------------------------- node ids, app/core/authz/objects.py

  function Join(left: string, right: string): string { left + "--" + right }

  function DefaultWorkspace(tenant: string): string { Join(tenant, "ws") }

  function DefaultProduct(tenant: string): string { Join(tenant, "product") }

  function DefaultGroup(product: string): string { Join(product, "rg") }

  function EnvironmentId(group: string, env: string): string { Join(group, env) }

  function GeoId(group: string, env: string, geo: string): string { Join(Join(group, env), geo) }

  function Edge(parent: Node, child: Node): Tuple { Tuple(parent, Parent, child) }

  // ---------------------------------------------------------------- lookups

  /** Python truth of an optional column: an empty string counts as absent. */
  predicate Given(s: Option<string>) { s.Some? && s.value != "" }

  /** A dict built from rows: of two rows with one key the later stays. */
  function Latest<T>(rows: seq<T>, key: T -> string): map<string, T> {
    if rows == [] then map[]
    else Latest(rows[..|rows| - 1], key)[key(rows[|rows| - 1]) := rows[|rows| - 1]]
  }

  datatype Lookup = Lookup(workspaceOf: map<string, WorkspaceRow>, apps: map<string, AppRow>,
                           groups: map<string, GroupRow>, accounts: map<string, AccountRow>,
                           services: map<string, ServiceRow>)

  function LookupOf(db: Db): Lookup {
    Lookup(Latest(db.workspaces, (w: WorkspaceRow) => w.tenant), Latest(db.apps, (a: AppRow) => a.code),
           Latest(db.groups, (g: GroupRow) => g.code), Latest(db.accounts, (a: AccountRow) => a.code),
           Latest(db.services, (s: ServiceRow) => s.code))
  }

  function App(x: Lookup, app: Option<string>): Option<AppRow> {
    if Given(app) && app.value in x.apps then Some(x.apps[app.value]) else None
  }

  function WorkspaceOf(x: Lookup, tenant: string): Option<string> {
    if tenant in x.workspaceOf then Some(x.workspaceOf[tenant].code) else None
  }

  // ---------------------------------------------------------------- what one row contributes

  function ProductId(x: Lookup, app: Option<string>, tenant: string): string {
    if App(x, app).Some? then App(x, app).value.code else DefaultProduct(tenant)
  }

  /** The workspace found for a product, if any. */
  function KnownWorkspace(x: Lookup, app: Option<string>, tenant: string): Option<string> {
    if App(x, app).None? then WorkspaceOf(x, tenant)
    else if Given(App(x, app).value.workspace) then App(x, app).value.workspace
    else WorkspaceOf(x, App(x, app).value.tenant)
  }

  function WorkspaceId(x: Lookup, app: Option<string>, tenant: string): string {
    if KnownWorkspace(x, app, tenant).Some? then KnownWorkspace(x, app, tenant).value else DefaultWorkspace(tenant)
  }

  /** The edges of product_chain. */
  function ChainEdges(x: Lookup, app: Option<string>, tenant: string): set<Tuple> {
    var workspace := Node(Workspace, WorkspaceId(x, app, tenant));
    var product := Node(Product, ProductId(x, app, tenant));
    (if KnownWorkspace(x, app, tenant).None? then {Edge(Node(Tenant, tenant), workspace)} else {})
    + {Edge(workspace, product)}
  }

  /** A row to be placed: its own columns, the environment found for it, and its leaf. */
  datatype Placement = Placement(tenant: string, app: Option<string>, group: Option<string>, env: string, geo: string,
                                 leaf: Node)

  predicate HasGroupRow(x: Lookup, group: Option<string>) { Given(group) && group.value in x.groups }

  function GroupId(x: Lookup, p: Placement): string {
    if HasGroupRow(x, p.group) then p.group.value else DefaultGroup(ProductId(x, p.app, p.tenant))
  }

  function EnvironmentNode(x: Lookup, p: Placement): Node { Node(Environment, EnvironmentId(GroupId(x, p), p.env)) }

  function GeoNode(x: Lookup, p: Placement): Node { Node(Geo, GeoId(GroupId(x, p), p.env, p.geo)) }

  /** The edges of path_to_geo. */
  function PathEdges(x: Lookup, p: Placement): set<Tuple> {
    var group := Node(Group, GroupId(x, p));
    ChainEdges(x, p.app, p.tenant)
    + (if HasGroupRow(x, p.group) then {} else {Edge(Node(Product, ProductId(x, p.app, p.tenant)), group)})
    + {Edge(group, EnvironmentNode(x, p)), Edge(EnvironmentNode(x, p), GeoNode(x, p))}
  }

  function PlacementEdges(x: Lookup, p: Placement): set<Tuple> {
    PathEdges(x, p) + {Edge(GeoNode(x, p), p.leaf)}
  }

  function WorkspaceEdges(w: WorkspaceRow): set<Tuple> {
    {Edge(Node(Tenant, w.tenant), Node(Workspace, w.code))}
  }

  function GroupEdges(x: Lookup, g: GroupRow): set<Tuple> {
    ChainEdges(x, g.app, g.tenant) + {Edge(Node(Product, ProductId(x, g.app, g.tenant)), Node(Group, g.code))}
  }

  function EnvOf(x: Lookup, account: Option<string>): string {
    if account.Some? && account.value in x.accounts then x.accounts[account.value].env else UNKNOWN_ENV
  }

  /** Where an infrastructure row goes; one without a geo is skipped. */
  function PlaceInfra(x: Lookup, row: InfraRow): Option<Placement> {
    if !Given(row.geo) then None
    else Some(Placement(row.tenant, row.app, row.group, EnvOf(x, row.account), row.geo.value, Node(Infra, row.code)))
  }

  /** Where a service config goes, by the columns of its service; one without a service row or
      without a geo is skipped. */
  function PlaceConfig(x: Lookup, row: ConfigRow): Option<Placement> {
    if row.service.None? || row.service.value !in x.services || !Given(row.geo) then None
    else
      var service := x.services[row.service.value];
      Some(Placement(row.tenant, service.app, service.group, row.env, row.geo.value, Node(ServiceConfig, row.code)))
  }

  /** The rows that are placed, in order. */
  function Placed<T>(rows: seq<T>, place: T -> Option<Placement>): seq<Placement> {
    if rows == [] then []
    else
      var last := place(rows[|rows| - 1]);
      Placed(rows[..|rows| - 1], place) + (if last.Some? then [last.value] else [])
  }

  function InfraPlacements(db: Db): seq<Placement> {
    var x := LookupOf(db);
    Placed(db.infra, row => PlaceInfra(x, row))
  }

  function ConfigPlacements(db: Db): seq<Placement> {
    var x := LookupOf(db);
    Placed(db.configs, row => PlaceConfig(x, row))
  }

  // ---------------------------------------------------------------- the whole collection

  /** The tuples of all rows together. */
  function Union<T>(rows: seq<T>, edges: T -> set<Tuple>): set<Tuple> {
    if rows == [] then {} else Union(rows[..|rows| - 1], edges) + edges(rows[|rows| - 1])
  }

  /** The tenant of each resource group row. */
  function RowTenants(groups: seq<GroupRow>): map<string, string> {
    if groups == [] then map[]
    else RowTenants(groups[..|groups| - 1])[groups[|groups| - 1].code := groups[|groups| - 1].tenant]
  }

  /** The first row that uses a default group decides its tenant. */
  function WithDefault(x: Lookup, p: Placement, tenants: map<string, string>): map<string, string> {
    if HasGroupRow(x, p.group) || GroupId(x, p) in tenants then tenants else tenants[GroupId(x, p) := p.tenant]
  }

  function WithDefaults(x: Lookup, placements: seq<Placement>, tenants: map<string, string>): map<string, string> {
    if placements == [] then tenants
    else
      WithDefault(x, placements[|placements| - 1], WithDefaults(x, placements[..|placements| - 1], tenants))
  }

  function GroupTenants(db: Db): map<string, string> {
    var x := LookupOf(db);
    WithDefaults(x, ConfigPlacements(db), WithDefaults(x, InfraPlacements(db), RowTenants(db.groups)))
  }

  function Grant(owner: OwnerRow, group: string): Tuple {
    Tuple(Node(User, owner.code), Admin, Node(Group, group))
  }

  /** An owner administers every group of the owner's tenant. */
  function GrantsOf(tenants: map<string, string>, owner: OwnerRow): set<Tuple> {
    set group | group in tenants && tenants[group] == owner.tenant :: Grant(owner, group)
  }

  /** The parent edges. */
  function Structure(db: Db): set<Tuple> {
    var x := LookupOf(db);
    Union(db.workspaces, w => WorkspaceEdges(w)) + Union(db.groups, g => GroupEdges(x, g))
    + Union(InfraPlacements(db), p => PlacementEdges(x, p)) + Union(ConfigPlacements(db), p => PlacementEdges(x, p))
  }

  function GrantsFor(tenants: map<string, string>, owners: seq<OwnerRow>): set<Tuple> {
    Union(owners, owner => GrantsOf(tenants, owner))
  }

  function Grants(db: Db): set<Tuple> { GrantsFor(GroupTenants(db), db.owners) }

  function Collected(db: Db): set<Tuple> { Structure(db) + Grants(db) }

  // ---------------------------------------------------------------- the script's closures and loops

  class Collector {
    const db: Db
    const x: Lookup
    var tuples: set<Tuple>
    var groupRows: map<string, GroupRow>
    var groupTenant: map<string, string>

    constructor (db: Db)
      ensures this.db == db && x == LookupOf(db)
      ensures tuples == {} && groupRows == map[] && groupTenant == map[]
    {
      this.db := db;
      this.x := LookupOf(db);
      tuples, groupRows, groupTenant := {}, map[], map[];
    }

    method ProductChain(app: Option<string>, tenant: string) returns (product: string)
      modifies this`tuples
      ensures product == ProductId(x, app, tenant)
      ensures tuples == old(tuples) + ChainEdges(x, app, tenant)
    {
      var found: Option<string>;
      if Given(app) && app.value in x.apps {
        var a := x.apps[app.value];
        found := if Given(a.workspace) then a.workspace else WorkspaceOf(x, a.tenant);
        product := a.code;
      } else {
        found := WorkspaceOf(x, tenant);
        product := DefaultProduct(tenant);
      }
      var workspace;
      if found.None? {
        workspace := DefaultWorkspace(tenant);
        tuples := tuples + {Edge(Node(Tenant, tenant), Node(Workspace, workspace))};
      } else {
        workspace := found.value;
      }
      tuples := tuples + {Edge(Node(Workspace, workspace), Node(Product, product))};
    }

    method PathToGeo(p: Placement) returns (geo: Node)
      requires groupRows == x.groups
      modifies this`tuples, this`groupTenant
      ensures geo == GeoNode(x, p)
      ensures tuples == old(tuples) + PathEdges(x, p)
      ensures groupTenant == WithDefault(x, p, old(groupTenant))
    {
      var product := ProductChain(p.app, p.tenant);
      var group;
      if Given(p.group) && p.group.value in groupRows {
        group := p.group.value;
      } else {
        group := DefaultGroup(product);
        if group !in groupTenant { groupTenant := groupTenant[group := p.tenant]; }
        tuples := tuples + {Edge(Node(Product, product), Node(Group, group))};
      }
      var environment := Node(Environment, EnvironmentId(group, p.env));
      geo := Node(Geo, GeoId(group, p.env, p.geo));
      tuples := tuples + {Edge(Node(Group, group), environment)};
      tuples := tuples + {Edge(environment, geo)};
    }

    method AddWorkspaces()
      modifies this`tuples
      ensures tuples == old(tuples) + Union(db.workspaces, w => WorkspaceEdges(w))
    {
      for i := 0 to |db.workspaces|
        invariant tuples == old(tuples) + Union(db.workspaces[..i], w => WorkspaceEdges(w))
      {
        var w := db.workspaces[i];
        tuples := tuples + {Edge(Node(Tenant, w.tenant), Node(Workspace, w.code))};
        assert db.workspaces[..i + 1][..i] == db.workspaces[..i];
      }
      assert db.workspaces[..|db.workspaces|] == db.workspaces;
    }

    method AddGroups()
      requires groupRows == map[] && groupTenant == map[] && x == LookupOf(db)
      modifies this
      ensures groupRows == x.groups && groupTenant == RowTenants(db.groups)
      ensures tuples == old(tuples) + Union(db.groups, g => GroupEdges(x, g))
    {
      for i := 0 to |db.groups|
        invariant groupRows == Latest(db.groups[..i], (g: GroupRow) => g.code)
        invariant groupTenant == RowTenants(db.groups[..i])
        invariant tuples == old(tuples) + Union(db.groups[..i], g => GroupEdges(x, g))
      {
        var g := db.groups[i];
        groupRows := groupRows[g.code := g];
        groupTenant := groupTenant[g.code := g.tenant];
        var product := ProductChain(g.app, g.tenant);
        tuples := tuples + {Edge(Node(Product, product), Node(Group, g.code))};
        assert db.groups[..i + 1][..i] == db.groups[..i];
      }
      assert db.groups[..|db.groups|] == db.groups;
    }

    method AddInfra()
      requires groupRows == x.groups && x == LookupOf(db)
      modifies this`tuples, this`groupTenant
      ensures tuples == old(tuples) + Union(InfraPlacements(db), p => PlacementEdges(x, p))
      ensures groupTenant == WithDefaults(x, InfraPlacements(db), old(groupTenant))
    {
      ghost var done: seq<Placement> := [];
      for i := 0 to |db.infra|
        invariant done == Placed(db.infra[..i], row => PlaceInfra(x, row))
        invariant tuples == old(tuples) + Union(done, p => PlacementEdges(x, p))
        invariant groupTenant == WithDefaults(x, done, old(groupTenant))
      {
        var row := db.infra[i];
        assert db.infra[..i + 1][..i] == db.infra[..i];
        if Given(row.geo) {
          var env := if row.account.Some? && row.account.value in x.accounts then x.accounts[row.account.value].env
                     else UNKNOWN_ENV;
          var p := Placement(row.tenant, row.app, row.group, env, row.geo.value, Node(Infra, row.code));
          var geo := PathToGeo(p);
          tuples := tuples + {Edge(geo, p.leaf)};
          assert (done + [p])[..|done|] == done;
          done := done + [p];
        }
      }
      assert db.infra[..|db.infra|] == db.infra;
    }

    method AddConfigs()
      requires groupRows == x.groups && x == LookupOf(db)
      modifies this`tuples, this`groupTenant
      ensures tuples == old(tuples) + Union(ConfigPlacements(db), p => PlacementEdges(x, p))
      ensures groupTenant == WithDefaults(x, ConfigPlacements(db), old(groupTenant))
    {
      ghost var done: seq<Placement> := [];
      for i := 0 to |db.configs|
        invariant done == Placed(db.configs[..i], row => PlaceConfig(x, row))
        invariant tuples == old(tuples) + Union(done, p => PlacementEdges(x, p))
        invariant groupTenant == WithDefaults(x, done, old(groupTenant))
      {
        var row := db.configs[i];
        assert db.configs[..i + 1][..i] == db.configs[..i];
        if row.service.Some? && row.service.value in x.services {
          if Given(row.geo) {
            var service := x.services[row.service.value];
            var p := Placement(row.tenant, service.app, service.group, row.env, row.geo.value,
                               Node(ServiceConfig, row.code));
            var geo := PathToGeo(p);
            tuples := tuples + {Edge(geo, p.leaf)};
            assert (done + [p])[..|done|] == done;
            done := done + [p];
          }
        }
      }
      assert db.configs[..|db.configs|] == db.configs;
    }

    /** One owner's loop over the group tenants. */
    method GrantOwner(owner: OwnerRow)
      modifies this`tuples
      ensures tuples == old(tuples) + GrantsOf(groupTenant, owner)
    {
      var left := groupTenant.Keys;
      while left != {}
        invariant left <= groupTenant.Keys
        invariant tuples == old(tuples) + GrantsOf(map k | k in groupTenant && k !in left :: groupTenant[k], owner)
      {
        var group :| group in left;
        if groupTenant[group] == owner.tenant { tuples := tuples + {Grant(owner, group)}; }
        left := left - {group};
      }
      assert (map k | k in groupTenant && k !in left :: groupTenant[k]) == groupTenant;
    }

    method AddGrants()
      modifies this`tuples
      ensures tuples == old(tuples) + GrantsFor(groupTenant, db.owners)
    {
      for i := 0 to |db.owners|
        invariant tuples == old(tuples) + GrantsFor(groupTenant, db.owners[..i])
      {
        GrantOwner(db.owners[i]);
        assert db.owners[..i + 1][..i] == db.owners[..i];
      }
      assert db.owners[..|db.owners|] == db.owners;
    }

    method Collect()
      requires x == LookupOf(db) && tuples == {} && groupRows == map[] && groupTenant == map[]
      modifies this
      ensures tuples == Collected(db)
    {
      AddWorkspaces();
      AddGroups();
      AddInfra();
      AddConfigs();
      AddGrants();
    }
  }
}
