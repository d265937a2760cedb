/**
  The collected tuples read off the columns of the rows alone: which workspace, product, group,
  environment and geo each row leads to, and the tenant recorded for a group.
*/
module AuthzColumns {
  import opened Wrappers
  import opened AuthzForest
  import opened AuthzForestTheorems
  import opened AuthzOneParent

  // ---------------------------------------------------------------- the last row with a key

  ghost predicate LastWith<T(!new)>(rows: seq<T>, key: T -> string, k: string, j: int) {
    0 <= j < |rows| && key(rows[j]) == k && forall m :: j < m < |rows| ==> key(rows[m]) != k
  }

  lemma {:induction false} LatestIff<T(!new)>(rows: seq<T>, key: T -> string, k: string)
    ensures k in Latest(rows, key) <==> exists j :: LastWith(rows, key, k, j)
    ensures forall j :: LastWith(rows, key, k, j) ==> k in Latest(rows, key) && Latest(rows, key)[k] == rows[j]
    decreases |rows|
  {
    if rows != [] {
      var n := |rows| - 1;
      LatestIff(rows[..n], key, k);
      if key(rows[n]) == k {
        assert LastWith(rows, key, k, n);
      } else {
        forall j ensures LastWith(rows, key, k, j) <==> LastWith(rows[..n], key, k, j) { OneShorter(rows, key, k, j); }
      }
    }
  }

  lemma OneShorter<T(!new)>(rows: seq<T>, key: T -> string, k: string, j: int)
    requires rows != [] && key(rows[|rows| - 1]) != k
    ensures LastWith(rows, key, k, j) <==> LastWith(rows[..|rows| - 1], key, k, j)
  {
  }

  // ---------------------------------------------------------------- applications and workspaces

  /** The application column names row j: not empty, and the last row with that code. */
  ghost predicate NamesApp(db: Db, app: Option<string>, j: int) {
    && app.Some? && app.value != "" && 0 <= j < |db.apps| && db.apps[j].code == app.value
    && forall m :: j < m < |db.apps| ==> db.apps[m].code != app.value
  }

  ghost predicate NoApp(db: Db, app: Option<string>) { forall j :: !NamesApp(db, app, j) }

  lemma AppIff(db: Db, x: Lookup, app: Option<string>)
    requires x == LookupOf(db)
    ensures App(x, app).None? <==> NoApp(db, app)
    ensures forall j :: NamesApp(db, app, j) ==> App(x, app) == Some(db.apps[j])
  {
    if app.Some? && app.value != "" {
      LatestIff(db.apps, (a: AppRow) => a.code, app.value);
      forall j ensures NamesApp(db, app, j) <==> LastWith(db.apps, (a: AppRow) => a.code, app.value, j) {}
      if app.value in x.apps {
        var j :| LastWith(db.apps, (a: AppRow) => a.code, app.value, j);
        assert NamesApp(db, app, j);
      }
    }
  }

  /** The product node of a row: its application if that is live, else the tenant's default. */
  ghost predicate LeadsToProduct(db: Db, u: Use, id: string) {
    || (u.app.Some? && !NoApp(db, u.app) && id == u.app.value)
    || (NoApp(db, u.app) && id == u.tenant + "--product")
  }

  lemma ProductIff(db: Db, x: Lookup, u: Use, id: string)
    requires x == LookupOf(db)
    ensures id == ProductId(x, u.app, u.tenant) <==> LeadsToProduct(db, u, id)
  {
    AppIff(db, x, u.app);
    if j :| NamesApp(db, u.app, j) { assert App(x, u.app) == Some(db.apps[j]); }
  }

  /** The last workspace row of the tenant. */
  ghost predicate LastOfTenant(db: Db, tenant: string, w: int) {
    && 0 <= w < |db.workspaces| && db.workspaces[w].tenant == tenant
    && forall m :: w < m < |db.workspaces| ==> db.workspaces[m].tenant != tenant
  }

  lemma TenantIff(db: Db, x: Lookup, tenant: string)
    requires x == LookupOf(db)
    ensures WorkspaceOf(x, tenant).None? <==> forall w :: !LastOfTenant(db, tenant, w)
    ensures forall w :: LastOfTenant(db, tenant, w) ==> WorkspaceOf(x, tenant) == Some(db.workspaces[w].code)
  {
    LatestIff(db.workspaces, (w: WorkspaceRow) => w.tenant, tenant);
    forall j ensures LastOfTenant(db, tenant, j) <==> LastWith(db.workspaces, (w: WorkspaceRow) => w.tenant, tenant, j)
    {}
    if tenant in x.workspaceOf {
      var j :| LastWith(db.workspaces, (w: WorkspaceRow) => w.tenant, tenant, j);
      assert LastOfTenant(db, tenant, j);
    }
  }

  /** The workspace known for a row: the one its application names, else the last one of the
      application's tenant, or of its own tenant when it has no live application. */
  ghost predicate Knows(db: Db, u: Use, id: string) {
    || (exists j :: NamesApp(db, u.app, j) && db.apps[j].workspace == Some(id) && id != "")
    || (exists j, w :: NamesApp(db, u.app, j) && (db.apps[j].workspace == None || db.apps[j].workspace == Some(""))
                       && LastOfTenant(db, db.apps[j].tenant, w) && id == db.workspaces[w].code)
    || (NoApp(db, u.app) && exists w :: LastOfTenant(db, u.tenant, w) && id == db.workspaces[w].code)
  }

  lemma KnownIff(db: Db, x: Lookup, u: Use, id: string)
    requires x == LookupOf(db)
    ensures KnownWorkspace(x, u.app, u.tenant) == Some(id) <==> Knows(db, u, id)
  {
    AppIff(db, x, u.app);
    TenantIff(db, x, u.tenant);
    if j :| NamesApp(db, u.app, j) {
      assert App(x, u.app) == Some(db.apps[j]);
      TenantIff(db, x, db.apps[j].tenant);
      forall i | NamesApp(db, u.app, i) ensures i == j {}
    }
  }

  /** The workspace node of a row: the known one, else one made up for the row's own tenant. */
  ghost predicate LeadsToWorkspace(db: Db, u: Use, id: string) {
    Knows(db, u, id) || ((forall other :: !Knows(db, u, other)) && id == u.tenant + "--ws")
  }

  lemma WorkspaceIff(db: Db, x: Lookup, u: Use, id: string)
    requires x == LookupOf(db)
    ensures id == WorkspaceId(x, u.app, u.tenant) <==> LeadsToWorkspace(db, u, id)
  {
    forall other ensures KnownWorkspace(x, u.app, u.tenant) == Some(other) <==> Knows(db, u, other) {
      KnownIff(db, x, u, other);
    }
  }

  // ---------------------------------------------------------------- groups

  predicate HasGroupCode(db: Db, group: Option<string>) {
    group.Some? && group.value != "" && exists i :: 0 <= i < |db.groups| && db.groups[i].code == group.value
  }

  /** The group node of a placed row: its group if there is such a row, else the default group of the
      product it leads to. */
  ghost predicate LeadsToGroup(db: Db, u: Use, group: Option<string>, id: string) {
    || (group.Some? && HasGroupCode(db, group) && id == group.value)
    || (!HasGroupCode(db, group) && exists product :: LeadsToProduct(db, u, product) && id == product + "--rg")
  }

  lemma GroupCodeIff(db: Db, x: Lookup, group: Option<string>)
    requires x == LookupOf(db)
    ensures HasGroupRow(x, group) <==> HasGroupCode(db, group)
  {
    if group.Some? && group.value in x.groups {
      var i := LatestIsRow(db.groups, (g: GroupRow) => g.code, group.value);
    }
    if group.Some? && exists i :: 0 <= i < |db.groups| && db.groups[i].code == group.value {
      var i :| 0 <= i < |db.groups| && db.groups[i].code == group.value;
      RowIsKey(db.groups, (g: GroupRow) => g.code, i);
    }
  }

  lemma GroupIff(db: Db, x: Lookup, p: Placement, id: string)
    requires x == LookupOf(db)
    ensures id == GroupId(x, p) <==> LeadsToGroup(db, Use(p.app, p.tenant), p.group, id)
  {
    GroupCodeIff(db, x, p.group);
    forall product
      ensures product == ProductId(x, p.app, p.tenant) <==> LeadsToProduct(db, Use(p.app, p.tenant), product)
    {
      ProductIff(db, x, Use(p.app, p.tenant), product);
    }
    var default := ProductId(x, p.app, p.tenant);
    assert LeadsToProduct(db, Use(p.app, p.tenant), default) && DefaultGroup(default) == default + "--rg";
  }

  // ---------------------------------------------------------------- where each row is placed

  /** The environment of an infrastructure row: that of its account, "unknown" without one. */
  ghost predicate LeadsToEnv(db: Db, account: Option<string>, env: string) {
    || (exists j :: IsAccount(db, account, j) && env == db.accounts[j].env)
    || ((forall j :: !IsAccount(db, account, j)) && env == "unknown")
  }

  ghost predicate IsAccount(db: Db, account: Option<string>, j: int) {
    && account.Some? && 0 <= j < |db.accounts| && db.accounts[j].code == account.value
    && forall m :: j < m < |db.accounts| ==> db.accounts[m].code != account.value
  }

  lemma EnvIff(db: Db, x: Lookup, account: Option<string>, env: string)
    requires x == LookupOf(db)
    ensures env == EnvOf(x, account) <==> LeadsToEnv(db, account, env)
  {
    if account.Some? {
      LatestIff(db.accounts, (a: AccountRow) => a.code, account.value);
      forall j ensures IsAccount(db, account, j) <==> LastWith(db.accounts, (a: AccountRow) => a.code, account.value, j)
      {}
      if account.value in x.accounts {
        var j :| LastWith(db.accounts, (a: AccountRow) => a.code, account.value, j);
        assert IsAccount(db, account, j);
      }
    }
  }

  /** The service a config belongs to. */
  ghost predicate IsService(db: Db, service: Option<string>, j: int) {
    && service.Some? && 0 <= j < |db.services| && db.services[j].code == service.value
    && forall m :: j < m < |db.services| ==> db.services[m].code != service.value
  }

  /** Infrastructure row i hangs below this geo. */
  ghost predicate InfraBelow(db: Db, i: int, id: string) {
    && 0 <= i < |db.infra| && db.infra[i].geo.Some? && db.infra[i].geo.value != ""
    && exists group, env ::
         && LeadsToGroup(db, Use(db.infra[i].app, db.infra[i].tenant), db.infra[i].group, group)
         && LeadsToEnv(db, db.infra[i].account, env)
         && id == group + "--" + env + "--" + db.infra[i].geo.value
  }

  /** Config row i hangs below this geo: its service gives application and group, its own columns
      give tenant, environment and geo. */
  ghost predicate ConfigBelow(db: Db, i: int, id: string) {
    && 0 <= i < |db.configs| && db.configs[i].geo.Some? && db.configs[i].geo.value != ""
    && exists j, group ::
         && IsService(db, db.configs[i].service, j)
         && LeadsToGroup(db, Use(db.services[j].app, db.configs[i].tenant), db.services[j].group, group)
         && id == group + "--" + db.configs[i].env + "--" + db.configs[i].geo.value
  }

  lemma GeoText(group: string, env: string, geo: string)
    ensures GeoId(group, env, geo) == group + "--" + env + "--" + geo
  {
  }

  lemma InfraBelowIff(db: Db, x: Lookup, i: nat, id: string)
    requires x == LookupOf(db) && i < |db.infra|
    ensures InfraBelow(db, i, id)
       <==> PlaceInfra(x, db.infra[i]).Some? && id == GeoNode(x, PlaceInfra(x, db.infra[i]).value).id
  {
    var row := db.infra[i];
    if row.geo.Some? && row.geo.value != "" {
      var p := PlaceInfra(x, row).value;
      forall group ensures group == GroupId(x, p) <==> LeadsToGroup(db, Use(row.app, row.tenant), row.group, group) {
        GroupIff(db, x, p, group);
      }
      forall env ensures env == p.env <==> LeadsToEnv(db, row.account, env) { EnvIff(db, x, row.account, env); }
    }
  }

  lemma ServiceIff(db: Db, x: Lookup, service: Option<string>)
    requires x == LookupOf(db)
    ensures service.Some? && service.value in x.services <==> exists j :: IsService(db, service, j)
    ensures forall j :: IsService(db, service, j) ==>
      service.value in x.services && x.services[service.value] == db.services[j]
  {
    if service.Some? {
      LatestIff(db.services, (s: ServiceRow) => s.code, service.value);
      forall j ensures IsService(db, service, j) <==> LastWith(db.services, (s: ServiceRow) => s.code, service.value, j)
      {}
      if service.value in x.services {
        var j :| LastWith(db.services, (s: ServiceRow) => s.code, service.value, j);
        assert IsService(db, service, j);
      }
    }
  }

  lemma ConfigBelowIff(db: Db, x: Lookup, i: nat, id: string)
    requires x == LookupOf(db) && i < |db.configs|
    ensures ConfigBelow(db, i, id)
       <==> PlaceConfig(x, db.configs[i]).Some? && id == GeoNode(x, PlaceConfig(x, db.configs[i]).value).id
  {
    var row := db.configs[i];
    ServiceIff(db, x, row.service);
    if PlaceConfig(x, row).Some? {
      var p := PlaceConfig(x, row).value;
      forall group
        ensures group == GroupId(x, p) <==> LeadsToGroup(db, Use(p.app, p.tenant), p.group, group)
      {
        GroupIff(db, x, p, group);
      }
    }
  }

  // ---------------------------------------------------------------- the edges, over the rows

  /** Exactly one geo hangs above an infrastructure leaf for each row with its code that has a geo:
      that of the row's own group and its account's environment. */
  lemma InfraGeoIff(db: Db, parent: Node, code: string)
    ensures Hangs(db, parent, Node(Infra, code)) <==>
      parent.kind == Geo && exists i :: 0 <= i < |db.infra| && db.infra[i].code == code && InfraBelow(db, i, parent.id)
  {
    if Hangs(db, parent, Node(Infra, code)) { var i := RowOfInfra(db, LookupOf(db), parent, code); }
    if i :| parent.kind == Geo && 0 <= i < |db.infra| && db.infra[i].code == code && InfraBelow(db, i, parent.id) {
      InfraHangs(db, LookupOf(db), parent, i);
    }
  }

  lemma RowOfInfra(db: Db, x: Lookup, parent: Node, code: string) returns (i: nat)
    requires x == LookupOf(db) && Hangs(db, parent, Node(Infra, code))
    ensures parent.kind == Geo && i < |db.infra| && db.infra[i].code == code && InfraBelow(db, i, parent.id)
  {
    PlacementParents(db, x, parent, Node(Infra, code));
    var p :| Listed(db, p) && Places(x, p, parent, Node(Infra, code));
    LeafKind(db, p);
    var k: nat :| k < |InfraPlacements(db)| && InfraPlacements(db)[k] == p;
    i := PlacedFrom(db.infra, row => PlaceInfra(x, row), k);
    InfraBelowIff(db, x, i, parent.id);
  }

  lemma InfraHangs(db: Db, x: Lookup, parent: Node, i: nat)
    requires x == LookupOf(db) && parent.kind == Geo && i < |db.infra| && InfraBelow(db, i, parent.id)
    ensures Hangs(db, parent, Node(Infra, db.infra[i].code))
  {
    InfraBelowIff(db, x, i, parent.id);
    var k := RowIsPlaced(db.infra, row => PlaceInfra(x, row), i);
    PlacesIsHung(db, x, InfraPlacements(db)[k], parent, Node(Infra, db.infra[i].code));
  }

  /** And above a config leaf: that of its service's group, with its own environment. */
  lemma ConfigGeoIff(db: Db, parent: Node, code: string)
    ensures Hangs(db, parent, Node(ServiceConfig, code)) <==>
      parent.kind == Geo
      && exists i :: 0 <= i < |db.configs| && db.configs[i].code == code && ConfigBelow(db, i, parent.id)
  {
    if Hangs(db, parent, Node(ServiceConfig, code)) { var i := RowOfConfig(db, LookupOf(db), parent, code); }
    if i :| parent.kind == Geo && 0 <= i < |db.configs| && db.configs[i].code == code && ConfigBelow(db, i, parent.id) {
      ConfigHangs(db, LookupOf(db), parent, i);
    }
  }

  lemma RowOfConfig(db: Db, x: Lookup, parent: Node, code: string) returns (i: nat)
    requires x == LookupOf(db) && Hangs(db, parent, Node(ServiceConfig, code))
    ensures parent.kind == Geo && i < |db.configs| && db.configs[i].code == code && ConfigBelow(db, i, parent.id)
  {
    PlacementParents(db, x, parent, Node(ServiceConfig, code));
    var p :| Listed(db, p) && Places(x, p, parent, Node(ServiceConfig, code));
    LeafKind(db, p);
    var k: nat :| k < |ConfigPlacements(db)| && ConfigPlacements(db)[k] == p;
    i := PlacedFrom(db.configs, row => PlaceConfig(x, row), k);
    ConfigBelowIff(db, x, i, parent.id);
  }

  lemma ConfigHangs(db: Db, x: Lookup, parent: Node, i: nat)
    requires x == LookupOf(db) && parent.kind == Geo && i < |db.configs| && ConfigBelow(db, i, parent.id)
    ensures Hangs(db, parent, Node(ServiceConfig, db.configs[i].code))
  {
    ConfigBelowIff(db, x, i, parent.id);
    var k := RowIsPlaced(db.configs, row => PlaceConfig(x, row), i);
    PlacesIsHung(db, x, ConfigPlacements(db)[k], parent, Node(ServiceConfig, db.configs[i].code));
  }

  // ---------------------------------------------------------------- the upper levels, over the rows

  /** The columns of a group row or of a row that is placed. */
  ghost predicate Uses(db: Db, u: Use) {
    || (exists i :: 0 <= i < |db.groups| && u == Use(db.groups[i].app, db.groups[i].tenant))
    || (exists i :: 0 <= i < |db.infra| && db.infra[i].geo.Some? && db.infra[i].geo.value != ""
                    && u == Use(db.infra[i].app, db.infra[i].tenant))
    || (exists i, j :: 0 <= i < |db.configs| && db.configs[i].geo.Some? && db.configs[i].geo.value != ""
                       && IsService(db, db.configs[i].service, j)
                       && u == Use(db.services[j].app, db.configs[i].tenant))
  }

  lemma InfraUse(db: Db, x: Lookup, i: nat) returns (p: Placement)
    requires x == LookupOf(db) && i < |db.infra| && db.infra[i].geo.Some? && db.infra[i].geo.value != ""
    ensures Listed(db, p) && p == PlaceInfra(x, db.infra[i]).value
  {
    var k := RowIsPlaced(db.infra, row => PlaceInfra(x, row), i);
    p := InfraPlacements(db)[k];
  }

  lemma ConfigUse(db: Db, x: Lookup, i: nat, j: int) returns (p: Placement)
    requires x == LookupOf(db) && i < |db.configs| && db.configs[i].geo.Some? && db.configs[i].geo.value != ""
    requires IsService(db, db.configs[i].service, j)
    ensures Listed(db, p) && p.tenant == db.configs[i].tenant
    ensures p.app == db.services[j].app && p.group == db.services[j].group
  {
    ServiceIff(db, x, db.configs[i].service);
    var k := RowIsPlaced(db.configs, row => PlaceConfig(x, row), i);
    p := ConfigPlacements(db)[k];
  }

  lemma ListedUse(db: Db, x: Lookup, p: Placement)
    requires x == LookupOf(db) && Listed(db, p)
    ensures Uses(db, Use(p.app, p.tenant))
  {
    if p in InfraPlacements(db) {
      var k: nat :| k < |InfraPlacements(db)| && InfraPlacements(db)[k] == p;
      var i := PlacedFrom(db.infra, row => PlaceInfra(x, row), k);
      assert Use(p.app, p.tenant) == Use(db.infra[i].app, db.infra[i].tenant);
    } else {
      var k: nat :| k < |ConfigPlacements(db)| && ConfigPlacements(db)[k] == p;
      var i := PlacedFrom(db.configs, row => PlaceConfig(x, row), k);
      ServiceIff(db, x, db.configs[i].service);
      var j :| IsService(db, db.configs[i].service, j);
      assert Use(p.app, p.tenant) == Use(db.services[j].app, db.configs[i].tenant);
    }
  }

  lemma UsesIff(db: Db, u: Use)
    ensures Used(db, u) <==> Uses(db, u)
  {
    var x := LookupOf(db);
    if p :| Listed(db, p) && Use(p.app, p.tenant) == u { ListedUse(db, x, p); }
    if i :| 0 <= i < |db.infra| && db.infra[i].geo.Some? && db.infra[i].geo.value != ""
            && u == Use(db.infra[i].app, db.infra[i].tenant) {
      var p := InfraUse(db, x, i);
    }
    if i, j :| 0 <= i < |db.configs| && db.configs[i].geo.Some? && db.configs[i].geo.value != ""
               && IsService(db, db.configs[i].service, j) && u == Use(db.services[j].app, db.configs[i].tenant) {
      var p := ConfigUse(db, x, i, j);
    }
  }

  /** A workspace hangs above a product exactly when some row leads to both. */
  lemma ProductEdgeIff(db: Db, parent: Node, id: string)
    ensures Hangs(db, parent, Node(Product, id)) <==>
      parent.kind == Workspace
      && exists u :: Uses(db, u) && LeadsToProduct(db, u, id) && LeadsToWorkspace(db, u, parent.id)
  {
    var x := LookupOf(db);
    ProductParents(db, x, parent, id);
    forall u: Use ensures Used(db, u) <==> Uses(db, u) { UsesIff(db, u); }
    forall u: Use ensures id == ProductId(x, u.app, u.tenant) <==> LeadsToProduct(db, u, id) {
      ProductIff(db, x, u, id);
    }
    forall u: Use ensures parent.id == WorkspaceId(x, u.app, u.tenant) <==> LeadsToWorkspace(db, u, parent.id) {
      WorkspaceIff(db, x, u, parent.id);
    }
  }

  /** A tenant hangs above a workspace exactly when a row of the table says so, or a row for which no
      workspace is known has it made up. */
  lemma WorkspaceEdgeIff(db: Db, parent: Node, id: string)
    ensures Hangs(db, parent, Node(Workspace, id)) <==>
      && parent.kind == Tenant
      && ((exists i :: 0 <= i < |db.workspaces| && db.workspaces[i] == WorkspaceRow(id, parent.id))
          || (exists u :: Uses(db, u) && (forall other :: !Knows(db, u, other))
                          && parent.id == u.tenant && id == u.tenant + "--ws"))
  {
    var x := LookupOf(db);
    WorkspaceParents(db, x, parent, id);
    forall u: Use ensures Used(db, u) <==> Uses(db, u) { UsesIff(db, u); }
    forall u: Use ensures MakesUp(x, u) <==> forall other :: !Knows(db, u, other) { MadeUpIff(db, x, u); }
    if i :| 0 <= i < |db.workspaces| && db.workspaces[i] == WorkspaceRow(id, parent.id) && parent.kind == Tenant {
      assert parent == Node(Tenant, db.workspaces[i].tenant) && id == db.workspaces[i].code;
    }
  }

  lemma MadeUpIff(db: Db, x: Lookup, u: Use)
    requires x == LookupOf(db)
    ensures MakesUp(x, u) <==> forall other :: !Knows(db, u, other)
  {
    forall other ensures KnownWorkspace(x, u.app, u.tenant) == Some(other) <==> Knows(db, u, other) {
      KnownIff(db, x, u, other);
    }
    if KnownWorkspace(x, u.app, u.tenant).Some? { assert Knows(db, u, KnownWorkspace(x, u.app, u.tenant).value); }
  }

  /** A placed row uses a made-up group: the default one of the product it leads to. */
  ghost predicate UsesDefaultOf(db: Db, product: string) {
    || (exists i :: 0 <= i < |db.infra| && db.infra[i].geo.Some? && db.infra[i].geo.value != ""
                    && !HasGroupCode(db, db.infra[i].group)
                    && LeadsToProduct(db, Use(db.infra[i].app, db.infra[i].tenant), product))
    || (exists i, j :: 0 <= i < |db.configs| && db.configs[i].geo.Some? && db.configs[i].geo.value != ""
                       && IsService(db, db.configs[i].service, j) && !HasGroupCode(db, db.services[j].group)
                       && LeadsToProduct(db, Use(db.services[j].app, db.configs[i].tenant), product))
  }

  lemma DefaultUseIff(db: Db, x: Lookup, product: string)
    requires x == LookupOf(db)
    ensures UsesDefaultOf(db, product) <==>
      exists p :: Listed(db, p) && !HasGroupRow(x, p.group) && ProductId(x, p.app, p.tenant) == product
  {
    if i :| 0 <= i < |db.infra| && db.infra[i].geo.Some? && db.infra[i].geo.value != ""
            && !HasGroupCode(db, db.infra[i].group)
            && LeadsToProduct(db, Use(db.infra[i].app, db.infra[i].tenant), product) {
      var p := InfraUse(db, x, i);
      GroupCodeIff(db, x, p.group);
      ProductIff(db, x, Use(p.app, p.tenant), product);
    }
    if i, j :| 0 <= i < |db.configs| && db.configs[i].geo.Some? && db.configs[i].geo.value != ""
               && IsService(db, db.configs[i].service, j) && !HasGroupCode(db, db.services[j].group)
               && LeadsToProduct(db, Use(db.services[j].app, db.configs[i].tenant), product) {
      var p := ConfigUse(db, x, i, j);
      GroupCodeIff(db, x, p.group);
      ProductIff(db, x, Use(p.app, p.tenant), product);
    }
    if p :| Listed(db, p) && !HasGroupRow(x, p.group) && ProductId(x, p.app, p.tenant) == product {
      DefaultFromRow(db, x, p, product);
    }
  }

  lemma DefaultFromRow(db: Db, x: Lookup, p: Placement, product: string)
    requires x == LookupOf(db) && Listed(db, p) && !HasGroupRow(x, p.group) && ProductId(x, p.app, p.tenant) == product
    ensures UsesDefaultOf(db, product)
  {
    GroupCodeIff(db, x, p.group);
    ProductIff(db, x, Use(p.app, p.tenant), product);
    if p in InfraPlacements(db) {
      var k: nat :| k < |InfraPlacements(db)| && InfraPlacements(db)[k] == p;
      var i := PlacedFrom(db.infra, row => PlaceInfra(x, row), k);
      assert !HasGroupCode(db, db.infra[i].group);
    } else {
      var k: nat :| k < |ConfigPlacements(db)| && ConfigPlacements(db)[k] == p;
      var i := PlacedFrom(db.configs, row => PlaceConfig(x, row), k);
      ServiceIff(db, x, db.configs[i].service);
      var j :| IsService(db, db.configs[i].service, j);
      assert !HasGroupCode(db, db.services[j].group);
    }
  }

  /** A product hangs above a group exactly when a row of the table leads to it, or the group is its
      default one and a placed row uses it. */
  lemma GroupEdgeIff(db: Db, parent: Node, id: string)
    ensures Hangs(db, parent, Node(Group, id)) <==>
      && parent.kind == Product
      && (RowLeadsTo(db, id, parent.id) || (id == parent.id + "--rg" && UsesDefaultOf(db, parent.id)))
  {
    var x := LookupOf(db);
    GroupParents(db, x, parent, id);
    RowLeadsIff(db, x, parent, id);
    DefaultLeadsIff(db, x, parent, id);
  }

  /** A group row with this code leads to the product. */
  ghost predicate RowLeadsTo(db: Db, code: string, product: string) {
    exists i :: 0 <= i < |db.groups| && db.groups[i].code == code
                && LeadsToProduct(db, Use(db.groups[i].app, db.groups[i].tenant), product)
  }

  lemma RowLeadsIff(db: Db, x: Lookup, parent: Node, id: string)
    requires x == LookupOf(db)
    ensures GroupRowParent(db, x, parent, id) <==> parent.kind == Product && RowLeadsTo(db, id, parent.id)
  {
    forall u: Use ensures parent.id == ProductId(x, u.app, u.tenant) <==> LeadsToProduct(db, u, parent.id) {
      ProductIff(db, x, u, parent.id);
    }
    if i :| 0 <= i < |db.groups| && id == db.groups[i].code
            && parent == Node(Product, ProductId(x, db.groups[i].app, db.groups[i].tenant)) {
      assert LeadsToProduct(db, Use(db.groups[i].app, db.groups[i].tenant), parent.id);
    }
    if i :| parent.kind == Product && 0 <= i < |db.groups| && db.groups[i].code == id
            && LeadsToProduct(db, Use(db.groups[i].app, db.groups[i].tenant), parent.id) {
      assert parent.id == ProductId(x, db.groups[i].app, db.groups[i].tenant);
    }
  }

  lemma DefaultLeadsIff(db: Db, x: Lookup, parent: Node, id: string)
    requires x == LookupOf(db)
    ensures DefaultParent(db, x, parent, id)
       <==> parent.kind == Product && id == parent.id + "--rg" && UsesDefaultOf(db, parent.id)
  {
    DefaultUseIff(db, x, parent.id);
    if parent.kind == Product && id == parent.id + "--rg" && UsesDefaultOf(db, parent.id) {
      var p :| Listed(db, p) && !HasGroupRow(x, p.group) && ProductId(x, p.app, p.tenant) == parent.id;
      assert UsesDefault(x, p, id);
    }
  }

  // ---------------------------------------------------------------- environments and geos, over the rows

  /** Some placed row lies in this group, environment and geo. */
  ghost predicate Path(db: Db, group: string, env: string, geo: string) {
    || (exists i :: 0 <= i < |db.infra| && db.infra[i].geo == Some(geo) && geo != ""
                    && LeadsToGroup(db, Use(db.infra[i].app, db.infra[i].tenant), db.infra[i].group, group)
                    && LeadsToEnv(db, db.infra[i].account, env))
    || (exists i, j :: 0 <= i < |db.configs| && db.configs[i].geo == Some(geo) && geo != "" && db.configs[i].env == env
                       && IsService(db, db.configs[i].service, j)
                       && LeadsToGroup(db, Use(db.services[j].app, db.configs[i].tenant), db.services[j].group, group))
  }

  lemma PathIff(db: Db, x: Lookup, group: string, env: string, geo: string)
    requires x == LookupOf(db)
    ensures Path(db, group, env, geo) <==>
      exists p :: Listed(db, p) && GroupId(x, p) == group && p.env == env && p.geo == geo
  {
    if i :| 0 <= i < |db.infra| && db.infra[i].geo == Some(geo) && geo != ""
            && LeadsToGroup(db, Use(db.infra[i].app, db.infra[i].tenant), db.infra[i].group, group)
            && LeadsToEnv(db, db.infra[i].account, env) {
      var p := InfraUse(db, x, i);
      GroupIff(db, x, p, group);
      EnvIff(db, x, db.infra[i].account, env);
    }
    if i, j :| 0 <= i < |db.configs| && db.configs[i].geo == Some(geo) && geo != "" && db.configs[i].env == env
               && IsService(db, db.configs[i].service, j)
               && LeadsToGroup(db, Use(db.services[j].app, db.configs[i].tenant), db.services[j].group, group) {
      var p := ConfigPath(db, x, i, j);
      GroupIff(db, x, p, group);
    }
    if p :| Listed(db, p) && GroupId(x, p) == group && p.env == env && p.geo == geo { PathOfListed(db, x, p); }
  }

  lemma ConfigPath(db: Db, x: Lookup, i: nat, j: int) returns (p: Placement)
    requires x == LookupOf(db) && i < |db.configs| && db.configs[i].geo.Some? && db.configs[i].geo.value != ""
    requires IsService(db, db.configs[i].service, j)
    ensures Listed(db, p) && p.tenant == db.configs[i].tenant && p.app == db.services[j].app
    ensures p.group == db.services[j].group && p.env == db.configs[i].env && p.geo == db.configs[i].geo.value
  {
    ServiceIff(db, x, db.configs[i].service);
    var k := RowIsPlaced(db.configs, row => PlaceConfig(x, row), i);
    p := ConfigPlacements(db)[k];
  }

  lemma PathOfListed(db: Db, x: Lookup, p: Placement)
    requires x == LookupOf(db) && Listed(db, p)
    ensures Path(db, GroupId(x, p), p.env, p.geo)
  {
    GroupIff(db, x, p, GroupId(x, p));
    if p in InfraPlacements(db) {
      var k: nat :| k < |InfraPlacements(db)| && InfraPlacements(db)[k] == p;
      var i := PlacedFrom(db.infra, row => PlaceInfra(x, row), k);
      EnvIff(db, x, db.infra[i].account, p.env);
      assert db.infra[i].geo == Some(p.geo);
    } else {
      var k: nat :| k < |ConfigPlacements(db)| && ConfigPlacements(db)[k] == p;
      var i := PlacedFrom(db.configs, row => PlaceConfig(x, row), k);
      ServiceIff(db, x, db.configs[i].service);
      var j :| IsService(db, db.configs[i].service, j);
      assert db.configs[i].geo == Some(p.geo) && db.configs[i].env == p.env;
    }
  }

  lemma EnvironmentEdgeIff(db: Db, parent: Node, id: string)
    ensures Hangs(db, parent, Node(Environment, id)) <==>
      parent.kind == Group && exists env, geo :: Path(db, parent.id, env, geo) && id == parent.id + "--" + env
  {
    var x := LookupOf(db);
    EnvironmentParents(db, x, parent, id);
    forall env, geo ensures Path(db, parent.id, env, geo) <==>
      exists p :: Listed(db, p) && GroupId(x, p) == parent.id && p.env == env && p.geo == geo
    {
      PathIff(db, x, parent.id, env, geo);
    }
    if p :| Listed(db, p) && parent == Node(Group, GroupId(x, p)) && id == EnvironmentNode(x, p).id {
      assert Path(db, parent.id, p.env, p.geo);
    }
  }

  lemma GeoEdgeIff(db: Db, parent: Node, id: string)
    ensures Hangs(db, parent, Node(Geo, id)) <==>
      parent.kind == Environment
      && exists group, env, geo ::
           Path(db, group, env, geo) && parent.id == group + "--" + env && id == group + "--" + env + "--" + geo
  {
    var x := LookupOf(db);
    GeoParents(db, x, parent, id);
    if p :| Listed(db, p) && parent == EnvironmentNode(x, p) && id == GeoNode(x, p).id {
      PathOfListed(db, x, p);
      GeoText(GroupId(x, p), p.env, p.geo);
    }
    if group, env, geo :| parent.kind == Environment && Path(db, group, env, geo) && parent.id == group + "--" + env
                          && id == group + "--" + env + "--" + geo {
      PathIff(db, x, group, env, geo);
      var p :| Listed(db, p) && GroupId(x, p) == group && p.env == env && p.geo == geo;
      GeoText(group, env, geo);
      assert parent == EnvironmentNode(x, p) && id == GeoNode(x, p).id;
    }
  }

  // ---------------------------------------------------------------- the tenant recorded for a group

  /** The last group row with this code. */
  ghost predicate LastGroup(db: Db, code: string, g: int) {
    && 0 <= g < |db.groups| && db.groups[g].code == code
    && forall m :: g < m < |db.groups| ==> db.groups[m].code != code
  }

  /** Infrastructure row i, or config row i, is placed in a made-up group with this code. */
  ghost predicate InfraUsesDefault(db: Db, i: int, code: string) {
    && 0 <= i < |db.infra| && db.infra[i].geo.Some? && db.infra[i].geo.value != ""
    && !HasGroupCode(db, db.infra[i].group)
    && LeadsToGroup(db, Use(db.infra[i].app, db.infra[i].tenant), db.infra[i].group, code)
  }

  ghost predicate ConfigUsesDefault(db: Db, i: int, code: string) {
    && 0 <= i < |db.configs| && db.configs[i].geo.Some? && db.configs[i].geo.value != ""
    && exists j :: IsService(db, db.configs[i].service, j) && !HasGroupCode(db, db.services[j].group)
                   && LeadsToGroup(db, Use(db.services[j].app, db.configs[i].tenant), db.services[j].group, code)
  }

  ghost predicate FirstInfraUse(db: Db, i: int, code: string) {
    InfraUsesDefault(db, i, code) && forall m :: m < i ==> !InfraUsesDefault(db, m, code)
  }

  ghost predicate FirstConfigUse(db: Db, i: int, code: string) {
    ConfigUsesDefault(db, i, code) && forall m :: m < i ==> !ConfigUsesDefault(db, m, code)
  }

  /** The tenant recorded for a group: that of its row; without a row, that of the first
      infrastructure row that has it made up; without such a row, of the first config. */
  ghost predicate Recorded(db: Db, code: string, tenant: string) {
    || (exists g :: LastGroup(db, code, g) && tenant == db.groups[g].tenant)
    || ((forall g :: !LastGroup(db, code, g))
        && exists i :: FirstInfraUse(db, i, code) && tenant == db.infra[i].tenant)
    || ((forall g :: !LastGroup(db, code, g)) && (forall i :: !InfraUsesDefault(db, i, code))
        && exists i :: FirstConfigUse(db, i, code) && tenant == db.configs[i].tenant)
  }

  /** Row i is placed with this default group. */
  ghost predicate Defaults<T(!new)>(x: Lookup, rows: seq<T>, place: T -> Option<Placement>, code: string, i: int) {
    0 <= i < |rows| && place(rows[i]).Some? && UsesDefault(x, place(rows[i]).value, code)
  }

  ghost predicate FirstDefault<T(!new)>(x: Lookup, rows: seq<T>, place: T -> Option<Placement>, code: string, i: int) {
    Defaults(x, rows, place, code, i) && forall m :: m < i ==> !Defaults(x, rows, place, code, m)
  }

  /** A pass over a table keeps what was recorded before. */
  lemma {:induction false} PassKeeps<T(!new)>(x: Lookup, rows: seq<T>, place: T -> Option<Placement>, code: string,
                                              before: map<string, string>)
    requires code in before
    ensures var after := WithDefaults(x, Placed(rows, place), before); code in after && after[code] == before[code]
    decreases |rows|
  {
    if rows != [] {
      PassKeeps(x, rows[..|rows| - 1], place, code, before);
      PassStep(x, rows, place, before);
    }
  }

  /** It records the codes that some row makes up. */
  lemma {:induction false} PassAdds<T(!new)>(x: Lookup, rows: seq<T>, place: T -> Option<Placement>, code: string,
                                             before: map<string, string>)
    requires code !in before && forall i :: !Defaults(x, rows, place, code, i)
    ensures code !in WithDefaults(x, Placed(rows, place), before)
    decreases |rows|
  {
    if rows != [] {
      var n := |rows| - 1;
      forall i ensures !Defaults(x, rows[..n], place, code, i) { assert !Defaults(x, rows, place, code, i); }
      PassAdds(x, rows[..n], place, code, before);
      PassStep(x, rows, place, before);
      assert !Defaults(x, rows, place, code, n);
    }
  }

  /** The first such row gives the tenant. */
  lemma {:induction false} PassFirst<T(!new)>(x: Lookup, rows: seq<T>, place: T -> Option<Placement>, code: string,
                                              before: map<string, string>, i: int)
    requires code !in before && FirstDefault(x, rows, place, code, i)
    ensures var after := WithDefaults(x, Placed(rows, place), before);
      code in after && after[code] == place(rows[i]).value.tenant
    decreases |rows|
  {
    var n := |rows| - 1;
    var earlier := WithDefaults(x, Placed(rows[..n], place), before);
    PassStep(x, rows, place, before);
    if i < n {
      FrontDefaults(x, rows, place, code, i);
      PassFirst(x, rows[..n], place, code, before, i);
      RecordedStays(x, place(rows[n]), earlier, code);
    } else {
      forall m ensures !Defaults(x, rows[..n], place, code, m) {
        if m < n { assert !Defaults(x, rows, place, code, m); }
      }
      PassAdds(x, rows[..n], place, code, before);
    }
  }

  lemma FrontDefaults<T(!new)>(x: Lookup, rows: seq<T>, place: T -> Option<Placement>, code: string, i: int)
    requires FirstDefault(x, rows, place, code, i) && i < |rows| - 1
    ensures FirstDefault(x, rows[..|rows| - 1], place, code, i)
  {
    var front := rows[..|rows| - 1];
    forall m | m < i ensures !Defaults(x, front, place, code, m) { assert !Defaults(x, rows, place, code, m); }
  }

  lemma RecordedStays(x: Lookup, p: Option<Placement>, earlier: map<string, string>, code: string)
    requires code in earlier
    ensures p.Some? ==>
      code in WithDefault(x, p.value, earlier) && WithDefault(x, p.value, earlier)[code] == earlier[code]
  {
  }

  lemma PassStep<T>(x: Lookup, rows: seq<T>, place: T -> Option<Placement>, before: map<string, string>)
    requires rows != []
    ensures var n := |rows| - 1;
      var earlier := WithDefaults(x, Placed(rows[..n], place), before);
      WithDefaults(x, Placed(rows, place), before)
      == if place(rows[n]).Some? then WithDefault(x, place(rows[n]).value, earlier) else earlier
  {
    var n := |rows| - 1;
    var front := Placed(rows[..n], place);
    if place(rows[n]).Some? {
      assert (front + [place(rows[n]).value])[..|front|] == front;
    } else {
      assert front + [] == front;
    }
  }

  lemma InfraDefaultIff(db: Db, x: Lookup, place: InfraRow -> Option<Placement>, code: string, i: int)
    requires x == LookupOf(db) && forall row :: place(row) == PlaceInfra(x, row)
    ensures Defaults(x, db.infra, place, code, i) <==> InfraUsesDefault(db, i, code)
  {
    if 0 <= i < |db.infra| && PlaceInfra(x, db.infra[i]).Some? {
      var p := PlaceInfra(x, db.infra[i]).value;
      GroupCodeIff(db, x, p.group);
      GroupIff(db, x, p, code);
    }
  }

  lemma ConfigDefaultIff(db: Db, x: Lookup, place: ConfigRow -> Option<Placement>, code: string, i: int)
    requires x == LookupOf(db) && forall row :: place(row) == PlaceConfig(x, row)
    ensures Defaults(x, db.configs, place, code, i) <==> ConfigUsesDefault(db, i, code)
  {
    if 0 <= i < |db.configs| {
      ServiceIff(db, x, db.configs[i].service);
      if PlaceConfig(x, db.configs[i]).Some? {
        var p := PlaceConfig(x, db.configs[i]).value;
        GroupCodeIff(db, x, p.group);
        GroupIff(db, x, p, code);
      }
    }
  }

  lemma RowTenantIff(db: Db, code: string)
    ensures code in RowTenants(db.groups) <==> exists g :: LastGroup(db, code, g)
    ensures forall g | LastGroup(db, code, g) ::
      code in RowTenants(db.groups) && RowTenants(db.groups)[code] == db.groups[g].tenant
  {
    RowTenantsAre(db.groups, code);
    LatestIff(db.groups, (g: GroupRow) => g.code, code);
    forall g ensures LastGroup(db, code, g) <==> LastWith(db.groups, (g: GroupRow) => g.code, code, g) {}
    if code in RowTenants(db.groups) {
      var g :| LastWith(db.groups, (g: GroupRow) => g.code, code, g);
      assert LastGroup(db, code, g);
    }
  }

  /** The map of a code, if it has one. */
  function At(tenants: map<string, string>, code: string): Option<string> {
    if code in tenants then Some(tenants[code]) else None
  }

  lemma InfraPass(db: Db, x: Lookup, place: InfraRow -> Option<Placement>, code: string, before: map<string, string>,
      after: map<string, string>)
    requires x == LookupOf(db) && forall row :: place(row) == PlaceInfra(x, row)
    requires after == WithDefaults(x, Placed(db.infra, place), before)
    ensures code in before ==> At(after, code) == At(before, code)
    ensures code !in before && (forall i :: !InfraUsesDefault(db, i, code)) ==> code !in after
    ensures forall i | code !in before && FirstInfraUse(db, i, code) :: At(after, code) == Some(db.infra[i].tenant)
  {
    forall i ensures Defaults(x, db.infra, place, code, i) <==> InfraUsesDefault(db, i, code) {
      InfraDefaultIff(db, x, place, code, i);
    }
    if code in before {
      PassKeeps(x, db.infra, place, code, before);
    } else if forall i :: !InfraUsesDefault(db, i, code) {
      PassAdds(x, db.infra, place, code, before);
    } else {
      forall i | FirstInfraUse(db, i, code)
        ensures At(after, code) == Some(db.infra[i].tenant)
      {
        PassFirst(x, db.infra, place, code, before, i);
      }
    }
  }

  lemma ConfigPass(db: Db, x: Lookup, place: ConfigRow -> Option<Placement>, code: string, before: map<string, string>,
      after: map<string, string>)
    requires x == LookupOf(db) && forall row :: place(row) == PlaceConfig(x, row)
    requires after == WithDefaults(x, Placed(db.configs, place), before)
    ensures code in before ==> At(after, code) == At(before, code)
    ensures code !in before && (forall i :: !ConfigUsesDefault(db, i, code)) ==> code !in after
    ensures forall i | code !in before && FirstConfigUse(db, i, code) :: At(after, code) == Some(db.configs[i].tenant)
  {
    forall i ensures Defaults(x, db.configs, place, code, i) <==> ConfigUsesDefault(db, i, code) {
      ConfigDefaultIff(db, x, place, code, i);
    }
    if code in before {
      PassKeeps(x, db.configs, place, code, before);
    } else if forall i :: !ConfigUsesDefault(db, i, code) {
      PassAdds(x, db.configs, place, code, before);
    } else {
      forall i | FirstConfigUse(db, i, code)
        ensures At(after, code) == Some(db.configs[i].tenant)
      {
        PassFirst(x, db.configs, place, code, before, i);
      }
    }
  }

  lemma {:induction false} FirstInfra(db: Db, code: string, i: nat) returns (first: nat)
    requires InfraUsesDefault(db, i, code)
    ensures FirstInfraUse(db, first, code)
    decreases i
  {
    if m: nat :| m < i && InfraUsesDefault(db, m, code) { first := FirstInfra(db, code, m); } else { first := i; }
  }

  lemma {:induction false} FirstConfig(db: Db, code: string, i: nat) returns (first: nat)
    requires ConfigUsesDefault(db, i, code)
    ensures FirstConfigUse(db, first, code)
    decreases i
  {
    if m: nat :| m < i && ConfigUsesDefault(db, m, code) { first := FirstConfig(db, code, m); } else { first := i; }
  }

  /** The owners' grants go by this tenant. */
  lemma RecordedIff(db: Db, code: string, tenant: string)
    ensures At(GroupTenants(db), code) == Some(tenant) <==> Recorded(db, code, tenant)
  {
    var x, rows := LookupOf(db), RowTenants(db.groups);
    var some := WithDefaults(x, InfraPlacements(db), rows);
    RowTenantIff(db, code);
    InfraPass(db, x, row => PlaceInfra(x, row), code, rows, some);
    ConfigPass(db, x, row => PlaceConfig(x, row), code, some, GroupTenants(db));
    ThreeSources(db, code, tenant, rows, some, GroupTenants(db));
  }

  lemma ThreeSources(db: Db, code: string, tenant: string, rows: map<string, string>, some: map<string, string>,
                     all: map<string, string>)
    requires code in rows <==> exists g :: LastGroup(db, code, g)
    requires forall g :: LastGroup(db, code, g) ==> At(rows, code) == Some(db.groups[g].tenant)
    requires code in rows ==> At(some, code) == At(rows, code)
    requires code !in rows && (forall i :: !InfraUsesDefault(db, i, code)) ==> code !in some
    requires forall i | code !in rows && FirstInfraUse(db, i, code) :: At(some, code) == Some(db.infra[i].tenant)
    requires code in some ==> At(all, code) == At(some, code)
    requires code !in some && (forall i :: !ConfigUsesDefault(db, i, code)) ==> code !in all
    requires forall i | code !in some && FirstConfigUse(db, i, code) :: At(all, code) == Some(db.configs[i].tenant)
    ensures At(all, code) == Some(tenant) <==> Recorded(db, code, tenant)
  {
    if code in rows {
      var g :| LastGroup(db, code, g);
    } else if i: nat :| InfraUsesDefault(db, i, code) {
      var first := FirstInfra(db, code, i);
    } else if i: nat :| ConfigUsesDefault(db, i, code) {
      var first := FirstConfig(db, code, i);
    }
  }
}
