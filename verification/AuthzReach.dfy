/**
  Which tenant a node reaches by parent edges, and whom the admin tuples of a group go to, on every
  database on which no node has two parents.
*/
module AuthzReach {
  import opened Wrappers
  import opened AuthzForest
  import opened AuthzForestTheorems
  import opened AuthzOneParent

  /** k parent edges lead from n up to top. */
  ghost predicate Above(db: Db, top: Node, n: Node, k: nat)
    decreases k
  {
    if k == 0 then top == n else exists m :: Hangs(db, m, n) && Above(db, top, m, k - 1)
  }

  ghost predicate SingleParents(db: Db) {
    forall u, v, child :: Hangs(db, u, child) && Hangs(db, v, child) ==> u == v
  }

  lemma OneUp(db: Db, top: Node, n: Node, k: nat, parent: Node)
    requires SingleParents(db) && Hangs(db, parent, n) && k > 0
    ensures Above(db, top, n, k) <==> Above(db, top, parent, k - 1)
  {
  }

  // ---------------------------------------------------------------- groups

  /** The columns that decide where a group hangs: those of its row, or those of a placement for
      which the group is made up. */
  ghost predicate DecidesGroup(db: Db, x: Lookup, code: string, u: Use) {
    || (code in x.groups && u == Use(x.groups[code].app, x.groups[code].tenant))
    || (exists p :: Listed(db, p) && UsesDefault(x, p, code) && u == Use(p.app, p.tenant))
  }

  /** The tenant stands above the workspace: it is that of the workspace's row, or of a row that
      makes the workspace up. */
  ghost predicate OverWorkspace(db: Db, x: Lookup, tenant: string, id: string) {
    WorkspaceRowParent(db, Node(Tenant, tenant), id) || MadeUpParent(db, x, Node(Tenant, tenant), id)
  }

  lemma DecidingUse(db: Db, x: Lookup, code: string, u: Use)
    requires x == LookupOf(db) && DecidesGroup(db, x, code, u)
    ensures Used(db, u) && Hangs(db, Node(Product, ProductId(x, u.app, u.tenant)), Node(Group, code))
  {
    if code in x.groups && u == Use(x.groups[code].app, x.groups[code].tenant) {
      var i := LatestIsRow(db.groups, (g: GroupRow) => g.code, code);
      assert Use(db.groups[i].app, db.groups[i].tenant) == u;
      GroupRowHangs(db, x, Node(Product, ProductId(x, u.app, u.tenant)), code);
    } else {
      var p :| Listed(db, p) && UsesDefault(x, p, code) && u == Use(p.app, p.tenant);
      DefaultHangs(db, x, p, Node(Product, ProductId(x, u.app, u.tenant)), code);
    }
  }

  /** A group reaches a tenant exactly when the tenant stands above the workspace that the group's
      columns lead to. */
  lemma GroupReachesIff(db: Db, x: Lookup, code: string, u: Use, tenant: string)
    requires x == LookupOf(db) && SingleParents(db) && DecidesGroup(db, x, code, u)
    ensures Above(db, Node(Tenant, tenant), Node(Group, code), 3)
       <==> OverWorkspace(db, x, tenant, WorkspaceId(x, u.app, u.tenant))
  {
    var top, id := Node(Tenant, tenant), WorkspaceId(x, u.app, u.tenant);
    var product := Node(Product, ProductId(x, u.app, u.tenant));
    DecidingUse(db, x, code, u);
    ProductParents(db, x, Node(Workspace, id), product.id);
    OneUp(db, top, Node(Group, code), 3, product);
    OneUp(db, top, product, 2, Node(Workspace, id));
    DirectlyAbove(db, top, Node(Workspace, id));
    WorkspaceParents(db, x, top, id);
  }

  lemma DirectlyAbove(db: Db, top: Node, n: Node)
    ensures Above(db, top, n, 1) <==> Hangs(db, top, n)
  {
    assert Above(db, top, top, 0);
    if Above(db, top, n, 1) {
      var m :| Hangs(db, m, n) && Above(db, top, m, 0);
    }
  }

  // ---------------------------------------------------------------- leaves

  /** The columns that decide where a placed row hangs: its group's, or its own when it has no group. */
  function DecidingColumns(x: Lookup, p: Placement): Use {
    if HasGroupRow(x, p.group) then Use(x.groups[p.group.value].app, x.groups[p.group.value].tenant)
    else Use(p.app, p.tenant)
  }

  lemma LeafIsBelowGroup(db: Db, x: Lookup, p: Placement, top: Node)
    requires x == LookupOf(db) && SingleParents(db) && Listed(db, p)
    ensures Above(db, top, p.leaf, 6) <==> Above(db, top, Node(Group, GroupId(x, p)), 3)
  {
    PlacesIsHung(db, x, p, GeoNode(x, p), p.leaf);
    PlacesIsHung(db, x, p, EnvironmentNode(x, p), GeoNode(x, p));
    PlacesIsHung(db, x, p, Node(Group, GroupId(x, p)), EnvironmentNode(x, p));
    OneUp(db, top, p.leaf, 6, GeoNode(x, p));
    OneUp(db, top, GeoNode(x, p), 5, EnvironmentNode(x, p));
    OneUp(db, top, EnvironmentNode(x, p), 4, Node(Group, GroupId(x, p)));
  }

  /** A placed row reaches a tenant by six edges exactly when the tenant stands above the workspace
      of its group's columns, or of its own if it has no group; its own tenant included, so a row
      whose group or application is another tenant's may reach that one instead. */
  lemma LeafReachesIff(db: Db, x: Lookup, p: Placement, tenant: string)
    requires x == LookupOf(db) && SingleParents(db) && Listed(db, p)
    ensures var u := DecidingColumns(x, p);
      Above(db, Node(Tenant, tenant), p.leaf, 6)
      <==> OverWorkspace(db, x, tenant, WorkspaceId(x, u.app, u.tenant))
  {
    var u := DecidingColumns(x, p);
    LeafIsBelowGroup(db, x, p, Node(Tenant, tenant));
    assert HasGroupRow(x, p.group) || UsesDefault(x, p, GroupId(x, p));
    GroupReachesIff(db, x, GroupId(x, p), u, tenant);
  }

  // ---------------------------------------------------------------- owners

  /** On every database: an owner administers a group exactly when the group's row, or else the first
      row for which it is made up, is of the owner's tenant. */
  lemma AdminIff(db: Db, t: Tuple)
    ensures t in Collected(db) && t.relation == Admin <==>
      && t.relation == Admin && t.subject.kind == User && t.of.kind == Group && t.of.id in GroupTenants(db)
      && Owns(db, t.subject.id, GroupTenants(db)[t.of.id])
  {
    var tenants, code := GroupTenants(db), t.of.id;
    GrantIff(tenants, db.owners, t);
    if t in Collected(db) && t.relation == Admin {
      ParentIsStructure(db, t);
      var i :| 0 <= i < |db.owners| && t in GrantsOf(tenants, db.owners[i]);
      assert db.owners[i] == OwnerRow(t.subject.id, tenants[code]);
    }
    if t.relation == Admin && t.subject.kind == User && t.of.kind == Group && code in tenants
       && Owns(db, t.subject.id, tenants[code]) {
      var i :| 0 <= i < |db.owners| && db.owners[i] == OwnerRow(t.subject.id, tenants[code]);
      assert t == Grant(db.owners[i], code);
      assert t in GrantsOf(tenants, db.owners[i]);
    }
  }

  /** The tenant whose owners administer a group is three edges above it exactly when it stands above
      the workspace the group's columns lead to. */
  lemma OwnersAreAboveIff(db: Db, x: Lookup, code: string, u: Use)
    requires x == LookupOf(db) && SingleParents(db) && code in GroupTenants(db) && DecidesGroup(db, x, code, u)
    ensures Above(db, Node(Tenant, GroupTenants(db)[code]), Node(Group, code), 3)
       <==> OverWorkspace(db, x, GroupTenants(db)[code], WorkspaceId(x, u.app, u.tenant))
  {
    GroupReachesIff(db, x, code, u, GroupTenants(db)[code]);
  }
}
