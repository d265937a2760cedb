/**
  When the collected tuples are a forest: for every database, level by level, the exact condition on
  its rows under which no node has two parents, and which workspaces have one at all.
*/
module AuthzOneParent {
  import opened Wrappers
  import opened AuthzForest
  import opened AuthzForestTheorems

  /** The application and tenant columns of a row: what product_chain is called with. */
  datatype Use = Use(app: Option<string>, tenant: string)

  ghost predicate Used(db: Db, u: Use) {
    || (exists i :: 0 <= i < |db.groups| && Use(db.groups[i].app, db.groups[i].tenant) == u)
    || (exists p :: Listed(db, p) && Use(p.app, p.tenant) == u)
  }

  ghost predicate Hangs(db: Db, parent: Node, child: Node) { Edge(parent, child) in Structure(db) }

  // ---------------------------------------------------------------- where an edge comes from

  function GroupEdge(x: Lookup, g: GroupRow): Tuple {
    Edge(Node(Product, ProductId(x, g.app, g.tenant)), Node(Group, g.code))
  }

  /** The edges of a placement below the product. */
  function OwnEdges(x: Lookup, p: Placement): set<Tuple> {
    var group := Node(Group, GroupId(x, p));
    (if HasGroupRow(x, p.group) then {} else {Edge(Node(Product, ProductId(x, p.app, p.tenant)), group)})
    + {Edge(group, EnvironmentNode(x, p)), Edge(EnvironmentNode(x, p), GeoNode(x, p)), Edge(GeoNode(x, p), p.leaf)}
  }

  ghost predicate FromWorkspace(db: Db, t: Tuple) {
    exists i :: 0 <= i < |db.workspaces| && t in WorkspaceEdges(db.workspaces[i])
  }

  ghost predicate FromChain(db: Db, x: Lookup, t: Tuple) {
    exists u :: Used(db, u) && t in ChainEdges(x, u.app, u.tenant)
  }

  ghost predicate FromGroup(db: Db, x: Lookup, t: Tuple) {
    exists i :: 0 <= i < |db.groups| && t == GroupEdge(x, db.groups[i])
  }

  ghost predicate FromPlacement(db: Db, x: Lookup, t: Tuple) { exists p :: Listed(db, p) && t in OwnEdges(x, p) }

  lemma PlacementSplits(x: Lookup, p: Placement)
    ensures PlacementEdges(x, p) == ChainEdges(x, p.app, p.tenant) + OwnEdges(x, p)
  {
  }

  lemma ChainIsCollected(db: Db, u: Use)
    requires Used(db, u)
    ensures ChainEdges(LookupOf(db), u.app, u.tenant) <= Structure(db)
  {
    if i :| 0 <= i < |db.groups| && Use(db.groups[i].app, db.groups[i].tenant) == u {
      GroupRowIsCollected(db, i);
    } else {
      var p :| Listed(db, p) && Use(p.app, p.tenant) == u;
      ListedIsCollected(db, p);
      PlacementSplits(LookupOf(db), p);
    }
  }

  lemma SourcesAreCollected(db: Db, x: Lookup, t: Tuple)
    requires x == LookupOf(db)
    requires FromWorkspace(db, t) || FromChain(db, x, t) || FromGroup(db, x, t) || FromPlacement(db, x, t)
    ensures t in Structure(db)
  {
    if i :| 0 <= i < |db.workspaces| && t in WorkspaceEdges(db.workspaces[i]) {
      WorkspaceRowIsCollected(db, i);
    } else if u :| Used(db, u) && t in ChainEdges(x, u.app, u.tenant) {
      ChainIsCollected(db, u);
    } else if i :| 0 <= i < |db.groups| && t == GroupEdge(x, db.groups[i]) {
      GroupRowIsCollected(db, i);
    } else {
      var p :| Listed(db, p) && t in OwnEdges(x, p);
      ListedIsCollected(db, p);
      PlacementSplits(x, p);
    }
  }

  lemma CollectedHasSource(db: Db, x: Lookup, t: Tuple)
    requires x == LookupOf(db) && t in Structure(db)
    ensures FromWorkspace(db, t) || FromChain(db, x, t) || FromGroup(db, x, t) || FromPlacement(db, x, t)
  {
    if t in Union(db.workspaces, w => WorkspaceEdges(w)) {
      var i := InUnion(db.workspaces, w => WorkspaceEdges(w), t);
    } else if t in Union(db.groups, g => GroupEdges(x, g)) {
      var i := InUnion(db.groups, g => GroupEdges(x, g), t);
      var g := db.groups[i];
      if t != GroupEdge(x, g) { assert Used(db, Use(g.app, g.tenant)) && t in ChainEdges(x, g.app, g.tenant); }
    } else {
      var p := PlacementOfEdge(db, t);
      PlacementSplits(x, p);
      if t !in OwnEdges(x, p) { assert Used(db, Use(p.app, p.tenant)) && t in ChainEdges(x, p.app, p.tenant); }
    }
  }

  // ---------------------------------------------------------------- the parents of a node, by its kind

  /** The use makes a workspace up. */
  predicate MakesUp(x: Lookup, u: Use) { KnownWorkspace(x, u.app, u.tenant).None? }

  ghost predicate WorkspaceRowParent(db: Db, parent: Node, id: string) {
    exists i :: 0 <= i < |db.workspaces| && parent == Node(Tenant, db.workspaces[i].tenant)
                && id == db.workspaces[i].code
  }

  ghost predicate MadeUpParent(db: Db, x: Lookup, parent: Node, id: string) {
    exists u :: Used(db, u) && MakesUp(x, u) && parent == Node(Tenant, u.tenant) && id == DefaultWorkspace(u.tenant)
  }

  lemma WorkspaceParents(db: Db, x: Lookup, parent: Node, id: string)
    requires x == LookupOf(db)
    ensures Hangs(db, parent, Node(Workspace, id))
       <==> WorkspaceRowParent(db, parent, id) || MadeUpParent(db, x, parent, id)
  {
    var t := Edge(parent, Node(Workspace, id));
    if Hangs(db, parent, Node(Workspace, id)) {
      CollectedHasSource(db, x, t);
      NotBelow(db, x, t);
      if FromWorkspace(db, t) {
        var i :| 0 <= i < |db.workspaces| && t in WorkspaceEdges(db.workspaces[i]);
      } else {
        var u :| Used(db, u) && t in ChainEdges(x, u.app, u.tenant);
      }
    }
    if WorkspaceRowParent(db, parent, id) {
      RowParentIsSource(db, parent, id);
      SourcesAreCollected(db, x, t);
    } else if MadeUpParent(db, x, parent, id) {
      MadeUpIsSource(db, x, parent, id);
      SourcesAreCollected(db, x, t);
    }
  }

  lemma RowParentIsSource(db: Db, parent: Node, id: string)
    requires WorkspaceRowParent(db, parent, id)
    ensures FromWorkspace(db, Edge(parent, Node(Workspace, id)))
  {
    var i :| 0 <= i < |db.workspaces| && parent == Node(Tenant, db.workspaces[i].tenant) && id == db.workspaces[i].code;
    assert Edge(parent, Node(Workspace, id)) in WorkspaceEdges(db.workspaces[i]);
  }

  lemma MadeUpIsSource(db: Db, x: Lookup, parent: Node, id: string)
    requires MadeUpParent(db, x, parent, id)
    ensures FromChain(db, x, Edge(parent, Node(Workspace, id)))
  {
    var u :| Used(db, u) && MakesUp(x, u) && parent == Node(Tenant, u.tenant) && id == DefaultWorkspace(u.tenant);
    assert Edge(parent, Node(Workspace, id)) in ChainEdges(x, u.app, u.tenant);
  }

  /** Workspaces and products come from no placement of their own, and groups from no chain. */
  lemma NotBelow(db: Db, x: Lookup, t: Tuple)
    requires x == LookupOf(db)
    ensures t.of.kind == Workspace || t.of.kind == Product ==> !FromGroup(db, x, t) && !FromPlacement(db, x, t)
    ensures t.of.kind != Workspace ==> !FromWorkspace(db, t)
    ensures t.of.kind != Workspace && t.of.kind != Product ==> !FromChain(db, x, t)
    ensures t.of.kind != Group ==> !FromGroup(db, x, t)
  {
    if p :| Listed(db, p) && t in OwnEdges(x, p) { LeafKind(db, p); }
  }

  lemma ProductParents(db: Db, x: Lookup, parent: Node, id: string)
    requires x == LookupOf(db)
    ensures Hangs(db, parent, Node(Product, id)) <==>
      exists u :: Used(db, u) && parent == Node(Workspace, WorkspaceId(x, u.app, u.tenant))
                  && id == ProductId(x, u.app, u.tenant)
  {
    var t := Edge(parent, Node(Product, id));
    if Hangs(db, parent, Node(Product, id)) {
      CollectedHasSource(db, x, t);
      NotBelow(db, x, t);
      var u :| Used(db, u) && t in ChainEdges(x, u.app, u.tenant);
    }
    if u :| Used(db, u) && parent == Node(Workspace, WorkspaceId(x, u.app, u.tenant))
            && id == ProductId(x, u.app, u.tenant) {
      assert t in ChainEdges(x, u.app, u.tenant);
      SourcesAreCollected(db, x, t);
    }
  }

  ghost predicate GroupRowParent(db: Db, x: Lookup, parent: Node, id: string) {
    exists i :: 0 <= i < |db.groups| && id == db.groups[i].code
                && parent == Node(Product, ProductId(x, db.groups[i].app, db.groups[i].tenant))
  }

  ghost predicate DefaultParent(db: Db, x: Lookup, parent: Node, id: string) {
    exists p :: Listed(db, p) && UsesDefault(x, p, id) && parent == Node(Product, ProductId(x, p.app, p.tenant))
  }

  lemma GroupParents(db: Db, x: Lookup, parent: Node, id: string)
    requires x == LookupOf(db)
    ensures Hangs(db, parent, Node(Group, id))
          <==> GroupRowParent(db, x, parent, id) || DefaultParent(db, x, parent, id)
  {
    var t := Edge(parent, Node(Group, id));
    GroupSources(db, x, parent, id, t);
    NotBelow(db, x, t);
    if Hangs(db, parent, Node(Group, id)) { CollectedHasSource(db, x, t); }
    if FromGroup(db, x, t) || FromPlacement(db, x, t) { SourcesAreCollected(db, x, t); }
  }

  lemma GroupSources(db: Db, x: Lookup, parent: Node, id: string, t: Tuple)
    requires x == LookupOf(db) && t == Edge(parent, Node(Group, id))
    ensures FromGroup(db, x, t) <==> GroupRowParent(db, x, parent, id)
    ensures FromPlacement(db, x, t) <==> DefaultParent(db, x, parent, id)
  {
    if i :| 0 <= i < |db.groups| && id == db.groups[i].code
            && parent == Node(Product, ProductId(x, db.groups[i].app, db.groups[i].tenant)) {
      assert t == GroupEdge(x, db.groups[i]);
    }
    if p :| Listed(db, p) && UsesDefault(x, p, id) && parent == Node(Product, ProductId(x, p.app, p.tenant)) {
      assert t in OwnEdges(x, p);
    }
    if p :| Listed(db, p) && t in OwnEdges(x, p) {
      LeafKind(db, p);
      assert UsesDefault(x, p, id);
    }
  }

  /** A placement hangs the child below the parent: group, environment, geo, leaf. */
  predicate Places(x: Lookup, p: Placement, parent: Node, child: Node) {
    || (parent == Node(Group, GroupId(x, p)) && child == EnvironmentNode(x, p))
    || (parent == EnvironmentNode(x, p) && child == GeoNode(x, p))
    || (parent == GeoNode(x, p) && child == p.leaf)
  }

  /** Below the groups every edge is one of a placement. */
  lemma PlacementParents(db: Db, x: Lookup, parent: Node, child: Node)
    requires x == LookupOf(db)
    requires child.kind != Workspace && child.kind != Product && child.kind != Group
    ensures Hangs(db, parent, child) <==> exists p :: Listed(db, p) && Places(x, p, parent, child)
  {
    var t := Edge(parent, child);
    if Hangs(db, parent, child) {
      CollectedHasSource(db, x, t);
      NotBelow(db, x, t);
      var p :| Listed(db, p) && t in OwnEdges(x, p);
      assert Places(x, p, parent, child);
    }
    if p :| Listed(db, p) && Places(x, p, parent, child) { PlacesIsHung(db, x, p, parent, child); }
  }

  lemma PlacesIsHung(db: Db, x: Lookup, p: Placement, parent: Node, child: Node)
    requires x == LookupOf(db) && Listed(db, p) && Places(x, p, parent, child)
    ensures Hangs(db, parent, child)
  {
    assert Edge(parent, child) in OwnEdges(x, p);
    SourcesAreCollected(db, x, Edge(parent, child));
  }

  // ---------------------------------------------------------------- when ids of different things are equal

  /** One joined id can be read as another: what is behind the shorter left part begins with the
      rest of the longer one. */
  ghost predicate Clash(left: string, right: string, longer: string, end: string) {
    || (exists m :: longer == Join(left, m) && right == Join(m, end))
    || (longer == left + "-" && right == "-" + end)
  }

  lemma ClashIsEqual(left: string, right: string, longer: string, end: string)
    requires Clash(left, right, longer, end)
    ensures Join(left, right) == Join(longer, end) && left != longer
  {
    if m :| longer == Join(left, m) && right == Join(m, end) {
      assert left + "--" + (m + "--" + end) == (left + "--" + m) + "--" + end;
      assert |longer| > |left|;
    } else {
      assert left + "--" + ("-" + end) == (left + "-") + "--" + end;
    }
  }

  lemma EqualIsClash(left: string, right: string, longer: string, end: string)
    requires Join(left, right) == Join(longer, end) && |left| < |longer|
    ensures Clash(left, right, longer, end)
  {
    var s, n := Join(left, right), |longer|;
    assert longer == s[..n] && end == s[n + 2..];
    assert s[|left|] == '-' && s[|left| + 1] == '-' && s[n] == '-' && s[n + 1] == '-';
    if n == |left| + 1 {
      assert longer == left + "-";
      assert right == s[|left| + 2..] == "-" + end;
    } else {
      var m := s[|left| + 2..n];
      assert longer == Join(left, m);
      assert right == s[|left| + 2..] == Join(m, end);
    }
  }

  lemma EqualLengths(left: string, right: string, other: string, end: string)
    requires Join(left, right) == Join(other, end) && |left| == |other|
    ensures left == other && right == end
  {
    var s := Join(left, right);
    assert left == s[..|left|] == other && right == s[|left| + 2..] == end;
  }

  /** Two joined ids are equal with different left parts exactly when one clashes with the other. */
  lemma JoinIff(left: string, right: string, other: string, end: string)
    ensures Join(left, right) == Join(other, end) && left != other
       <==> Clash(left, right, other, end) || Clash(other, end, left, right)
  {
    if Clash(left, right, other, end) { ClashIsEqual(left, right, other, end); }
    if Clash(other, end, left, right) { ClashIsEqual(other, end, left, right); }
    if Join(left, right) == Join(other, end) && left != other {
      if |left| < |other| { EqualIsClash(left, right, other, end); }
      else if |other| < |left| { EqualIsClash(other, end, left, right); }
      else { EqualLengths(left, right, other, end); }
    }
  }

  lemma DefaultsDiffer(s: string, t: string)
    ensures DefaultWorkspace(s) == DefaultWorkspace(t) <==> s == t
    ensures DefaultProduct(s) == DefaultProduct(t) <==> s == t
    ensures DefaultGroup(s) == DefaultGroup(t) <==> s == t
  {
    DefaultIds(s);
    DefaultIds(t);
  }

  // ---------------------------------------------------------------- the condition, level by level

  /** No workspace row of another tenant has the code of a workspace that is made up. */
  ghost predicate WorkspacesApart(db: Db) {
    forall i, u | 0 <= i < |db.workspaces| && Used(db, u) && MakesUp(LookupOf(db), u) ::
      db.workspaces[i].code == DefaultWorkspace(u.tenant) ==> db.workspaces[i].tenant == u.tenant
  }

  /** Two uses give one product two workspaces: they are of different tenants and share a live
      application without a known workspace, or one has a live application whose code reads like the
      default product of the other, which has another workspace. */
  predicate Split(x: Lookup, u: Use, v: Use) {
    App(x, u.app).Some?
    && if App(x, v.app).Some? then u.app == v.app && MakesUp(x, u) && u.tenant != v.tenant
       else u.app.value == DefaultProduct(v.tenant)
            && WorkspaceId(x, u.app, u.tenant) != WorkspaceId(x, v.app, v.tenant)
  }

  ghost predicate ProductsApart(db: Db) {
    forall u, v :: Used(db, u) && Used(db, v) ==> !Split(LookupOf(db), u, v)
  }

  /** A row of another product has the code of the default group that the placement uses. */
  predicate Shadows(x: Lookup, p: Placement, g: GroupRow) {
    !HasGroupRow(x, p.group) && g.code == DefaultGroup(ProductId(x, p.app, p.tenant))
    && ProductId(x, g.app, g.tenant) != ProductId(x, p.app, p.tenant)
  }

  ghost predicate GroupsApart(db: Db) {
    forall i, p :: 0 <= i < |db.groups| && Listed(db, p) ==> !Shadows(LookupOf(db), p, db.groups[i])
  }

  ghost predicate EnvironmentsApart(db: Db) {
    forall p, q :: Listed(db, p) && Listed(db, q)
      ==> !Clash(GroupId(LookupOf(db), p), p.env, GroupId(LookupOf(db), q), q.env)
  }

  ghost predicate GeosApart(db: Db) {
    forall p, q :: Listed(db, p) && Listed(db, q)
      ==> !Clash(EnvironmentNode(LookupOf(db), p).id, p.geo, EnvironmentNode(LookupOf(db), q).id, q.geo)
  }

  /** No node of the kind has two parents. */
  ghost predicate OneEach(db: Db, kind: Kind) {
    forall u, v, child :: Hangs(db, u, child) && Hangs(db, v, child) && child.kind == kind ==> u == v
  }

  // ---------------------------------------------------------------- workspaces

  lemma WorkspacesSuffice(db: Db, x: Lookup, u: Node, v: Node, id: string)
    requires x == LookupOf(db) && UniqueCodes(db) && WorkspacesApart(db)
    requires Hangs(db, u, Node(Workspace, id)) && Hangs(db, v, Node(Workspace, id))
    ensures u == v
  {
    WorkspaceParents(db, x, u, id);
    WorkspaceParents(db, x, v, id);
    if WorkspaceRowParent(db, u, id) && WorkspaceRowParent(db, v, id) {
      TwoWorkspaceRows(db, u, v, id);
    } else if WorkspaceRowParent(db, u, id) {
      RowAndMadeUp(db, x, u, v, id);
    } else if WorkspaceRowParent(db, v, id) {
      RowAndMadeUp(db, x, v, u, id);
    } else {
      TwoMadeUp(db, x, u, v, id);
    }
  }

  lemma TwoWorkspaceRows(db: Db, u: Node, v: Node, id: string)
    requires UniqueCodes(db) && WorkspaceRowParent(db, u, id) && WorkspaceRowParent(db, v, id)
    ensures u == v
  {
    var i :| 0 <= i < |db.workspaces| && u == Node(Tenant, db.workspaces[i].tenant) && id == db.workspaces[i].code;
    var j :| 0 <= j < |db.workspaces| && v == Node(Tenant, db.workspaces[j].tenant) && id == db.workspaces[j].code;
    assert i == j;
  }

  lemma RowAndMadeUp(db: Db, x: Lookup, u: Node, v: Node, id: string)
    requires x == LookupOf(db) && WorkspacesApart(db) && WorkspaceRowParent(db, u, id) && MadeUpParent(db, x, v, id)
    ensures u == v
  {
    var i :| 0 <= i < |db.workspaces| && u == Node(Tenant, db.workspaces[i].tenant) && id == db.workspaces[i].code;
    var w :| Used(db, w) && MakesUp(x, w) && v == Node(Tenant, w.tenant) && id == DefaultWorkspace(w.tenant);
    assert db.workspaces[i].tenant == w.tenant;
  }

  lemma TwoMadeUp(db: Db, x: Lookup, u: Node, v: Node, id: string)
    requires MadeUpParent(db, x, u, id) && MadeUpParent(db, x, v, id)
    ensures u == v
  {
    var a :| Used(db, a) && MakesUp(x, a) && u == Node(Tenant, a.tenant) && id == DefaultWorkspace(a.tenant);
    var b :| Used(db, b) && MakesUp(x, b) && v == Node(Tenant, b.tenant) && id == DefaultWorkspace(b.tenant);
    DefaultsDiffer(a.tenant, b.tenant);
  }

  lemma WorkspacesIff(db: Db)
    requires UniqueCodes(db)
    ensures OneEach(db, Workspace) <==> WorkspacesApart(db)
  {
    var x := LookupOf(db);
    if WorkspacesApart(db) {
      forall u, v, child | Hangs(db, u, child) && Hangs(db, v, child) && child.kind == Workspace ensures u == v {
        WorkspacesSuffice(db, x, u, v, child.id);
      }
    } else {
      var i, u :| 0 <= i < |db.workspaces| && Used(db, u) && MakesUp(x, u)
        && db.workspaces[i].code == DefaultWorkspace(u.tenant) && db.workspaces[i].tenant != u.tenant;
      var id := db.workspaces[i].code;
      WorkspaceParents(db, x, Node(Tenant, db.workspaces[i].tenant), id);
      WorkspaceParents(db, x, Node(Tenant, u.tenant), id);
    }
  }

  // ---------------------------------------------------------------- products

  /** The workspaces of two uses of one product. */
  lemma SplitIff(db: Db, x: Lookup, u: Use, v: Use)
    requires x == LookupOf(db)
    ensures ProductId(x, u.app, u.tenant) == ProductId(x, v.app, v.tenant)
         && WorkspaceId(x, u.app, u.tenant) != WorkspaceId(x, v.app, v.tenant)
       <==> Split(x, u, v) || Split(x, v, u)
  {
    AppCode(db, x, u.app);
    AppCode(db, x, v.app);
    DefaultsDiffer(u.tenant, v.tenant);
  }

  lemma AppCode(db: Db, x: Lookup, app: Option<string>)
    requires x == LookupOf(db)
    ensures App(x, app).Some? ==> app.Some? && App(x, app).value.code == app.value
  {
    if App(x, app).Some? { var i := LatestIsRow(db.apps, (a: AppRow) => a.code, app.value); }
  }

  lemma ProductsIff(db: Db)
    ensures OneEach(db, Product) <==> ProductsApart(db)
  {
    var x := LookupOf(db);
    if ProductsApart(db) {
      forall m, n, child | Hangs(db, m, child) && Hangs(db, n, child) && child.kind == Product ensures m == n {
        ProductsSuffice(db, x, m, n, child.id);
      }
    } else {
      var u, v :| Used(db, u) && Used(db, v) && Split(x, u, v);
      SplitIff(db, x, u, v);
      var id := ProductId(x, u.app, u.tenant);
      ProductParents(db, x, Node(Workspace, WorkspaceId(x, u.app, u.tenant)), id);
      ProductParents(db, x, Node(Workspace, WorkspaceId(x, v.app, v.tenant)), id);
    }
  }

  lemma ProductsSuffice(db: Db, x: Lookup, m: Node, n: Node, id: string)
    requires x == LookupOf(db) && ProductsApart(db)
    requires Hangs(db, m, Node(Product, id)) && Hangs(db, n, Node(Product, id))
    ensures m == n
  {
    ProductParents(db, x, m, id);
    ProductParents(db, x, n, id);
    var u :| Used(db, u) && m == Node(Workspace, WorkspaceId(x, u.app, u.tenant))
             && id == ProductId(x, u.app, u.tenant);
    var v :| Used(db, v) && n == Node(Workspace, WorkspaceId(x, v.app, v.tenant))
             && id == ProductId(x, v.app, v.tenant);
    SplitIff(db, x, u, v);
  }

  // ---------------------------------------------------------------- groups

  lemma GroupsSuffice(db: Db, x: Lookup, m: Node, n: Node, id: string)
    requires x == LookupOf(db) && UniqueCodes(db) && GroupsApart(db)
    requires Hangs(db, m, Node(Group, id)) && Hangs(db, n, Node(Group, id))
    ensures m == n
  {
    GroupParents(db, x, m, id);
    GroupParents(db, x, n, id);
    if GroupRowParent(db, x, m, id) && GroupRowParent(db, x, n, id) {
      TwoRows(db, x, m, n, id);
    } else if GroupRowParent(db, x, m, id) {
      RowAndDefault(db, x, m, n, id);
    } else if GroupRowParent(db, x, n, id) {
      RowAndDefault(db, x, n, m, id);
    } else {
      TwoDefaults(db, x, m, n, id);
    }
  }

  lemma TwoRows(db: Db, x: Lookup, m: Node, n: Node, id: string)
    requires x == LookupOf(db) && UniqueCodes(db) && GroupRowParent(db, x, m, id) && GroupRowParent(db, x, n, id)
    ensures m == n
  {
    var i :| 0 <= i < |db.groups| && id == db.groups[i].code
             && m == Node(Product, ProductId(x, db.groups[i].app, db.groups[i].tenant));
    var j :| 0 <= j < |db.groups| && id == db.groups[j].code
             && n == Node(Product, ProductId(x, db.groups[j].app, db.groups[j].tenant));
    assert i == j;
  }

  lemma RowAndDefault(db: Db, x: Lookup, m: Node, n: Node, id: string)
    requires x == LookupOf(db) && GroupsApart(db) && GroupRowParent(db, x, m, id) && DefaultParent(db, x, n, id)
    ensures m == n
  {
    var i :| 0 <= i < |db.groups| && id == db.groups[i].code
             && m == Node(Product, ProductId(x, db.groups[i].app, db.groups[i].tenant));
    var p :| Listed(db, p) && UsesDefault(x, p, id) && n == Node(Product, ProductId(x, p.app, p.tenant));
    assert !Shadows(x, p, db.groups[i]);
  }

  lemma TwoDefaults(db: Db, x: Lookup, m: Node, n: Node, id: string)
    requires DefaultParent(db, x, m, id) && DefaultParent(db, x, n, id)
    ensures m == n
  {
    var p :| Listed(db, p) && UsesDefault(x, p, id) && m == Node(Product, ProductId(x, p.app, p.tenant));
    var q :| Listed(db, q) && UsesDefault(x, q, id) && n == Node(Product, ProductId(x, q.app, q.tenant));
    DefaultsDiffer(ProductId(x, p.app, p.tenant), ProductId(x, q.app, q.tenant));
  }

  lemma GroupsIff(db: Db)
    requires UniqueCodes(db)
    ensures OneEach(db, Group) <==> GroupsApart(db)
  {
    var x := LookupOf(db);
    if GroupsApart(db) {
      forall m, n, child | Hangs(db, m, child) && Hangs(db, n, child) && child.kind == Group ensures m == n {
        GroupsSuffice(db, x, m, n, child.id);
      }
    } else {
      var i, p :| 0 <= i < |db.groups| && Listed(db, p) && Shadows(x, p, db.groups[i]);
      var g := db.groups[i];
      assert UsesDefault(x, p, g.code);
      assert GroupRowParent(db, x, Node(Product, ProductId(x, g.app, g.tenant)), g.code);
      assert DefaultParent(db, x, Node(Product, ProductId(x, p.app, p.tenant)), g.code);
      GroupParents(db, x, Node(Product, ProductId(x, g.app, g.tenant)), g.code);
      GroupParents(db, x, Node(Product, ProductId(x, p.app, p.tenant)), g.code);
    }
  }

  // ---------------------------------------------------------------- environments and geos

  lemma EnvironmentParents(db: Db, x: Lookup, parent: Node, id: string)
    requires x == LookupOf(db)
    ensures Hangs(db, parent, Node(Environment, id)) <==>
      exists p :: Listed(db, p) && parent == Node(Group, GroupId(x, p)) && id == EnvironmentNode(x, p).id
  {
    PlacementParents(db, x, parent, Node(Environment, id));
    if p :| Listed(db, p) && Places(x, p, parent, Node(Environment, id)) { LeafKind(db, p); }
    if p :| Listed(db, p) && parent == Node(Group, GroupId(x, p)) && id == EnvironmentNode(x, p).id {
      assert Places(x, p, parent, Node(Environment, id));
    }
  }

  lemma EnvironmentsIff(db: Db)
    ensures OneEach(db, Environment) <==> EnvironmentsApart(db)
  {
    var x := LookupOf(db);
    if EnvironmentsApart(db) {
      forall m, n, child | Hangs(db, m, child) && Hangs(db, n, child) && child.kind == Environment ensures m == n {
        EnvironmentParents(db, x, m, child.id);
        EnvironmentParents(db, x, n, child.id);
        var p :| Listed(db, p) && m == Node(Group, GroupId(x, p)) && child.id == EnvironmentNode(x, p).id;
        var q :| Listed(db, q) && n == Node(Group, GroupId(x, q)) && child.id == EnvironmentNode(x, q).id;
        JoinIff(GroupId(x, p), p.env, GroupId(x, q), q.env);
      }
    } else {
      var p, q :| Listed(db, p) && Listed(db, q) && Clash(GroupId(x, p), p.env, GroupId(x, q), q.env);
      JoinIff(GroupId(x, p), p.env, GroupId(x, q), q.env);
      EnvironmentParents(db, x, Node(Group, GroupId(x, p)), EnvironmentNode(x, p).id);
      EnvironmentParents(db, x, Node(Group, GroupId(x, q)), EnvironmentNode(x, p).id);
    }
  }

  lemma GeoParents(db: Db, x: Lookup, parent: Node, id: string)
    requires x == LookupOf(db)
    ensures Hangs(db, parent, Node(Geo, id)) <==>
      exists p :: Listed(db, p) && parent == EnvironmentNode(x, p) && id == GeoNode(x, p).id
  {
    PlacementParents(db, x, parent, Node(Geo, id));
    if p :| Listed(db, p) && Places(x, p, parent, Node(Geo, id)) { LeafKind(db, p); }
    if p :| Listed(db, p) && parent == EnvironmentNode(x, p) && id == GeoNode(x, p).id {
      assert Places(x, p, parent, Node(Geo, id));
    }
  }

  lemma GeosIff(db: Db)
    ensures OneEach(db, Geo) <==> GeosApart(db)
  {
    var x := LookupOf(db);
    if GeosApart(db) {
      forall m, n, child | Hangs(db, m, child) && Hangs(db, n, child) && child.kind == Geo ensures m == n {
        GeoParents(db, x, m, child.id);
        GeoParents(db, x, n, child.id);
        var p :| Listed(db, p) && m == EnvironmentNode(x, p) && child.id == GeoNode(x, p).id;
        var q :| Listed(db, q) && n == EnvironmentNode(x, q) && child.id == GeoNode(x, q).id;
        JoinIff(EnvironmentNode(x, p).id, p.geo, EnvironmentNode(x, q).id, q.geo);
      }
    } else {
      var p, q :| Listed(db, p) && Listed(db, q)
                  && Clash(EnvironmentNode(x, p).id, p.geo, EnvironmentNode(x, q).id, q.geo);
      JoinIff(EnvironmentNode(x, p).id, p.geo, EnvironmentNode(x, q).id, q.geo);
      GeoParents(db, x, EnvironmentNode(x, p), GeoNode(x, p).id);
      GeoParents(db, x, EnvironmentNode(x, q), GeoNode(x, p).id);
    }
  }

  // ---------------------------------------------------------------- leaves

  lemma LeavesHaveOne(db: Db, x: Lookup, m: Node, n: Node, child: Node)
    requires x == LookupOf(db) && UniqueCodes(db) && Level(child.kind) == 6
    requires Hangs(db, m, child) && Hangs(db, n, child)
    ensures m == n
  {
    PlacementParents(db, x, m, child);
    PlacementParents(db, x, n, child);
    var p :| Listed(db, p) && Places(x, p, m, child);
    var q :| Listed(db, q) && Places(x, q, n, child);
    SameLeaf(db, p, q);
  }

  lemma SameLeaf(db: Db, p: Placement, q: Placement)
    requires UniqueCodes(db) && Listed(db, p) && Listed(db, q) && p.leaf == q.leaf
    ensures p == q
  {
    var x := LookupOf(db);
    LeafKind(db, p);
    LeafKind(db, q);
    if p.leaf.kind == Infra {
      var j: nat :| j < |InfraPlacements(db)| && InfraPlacements(db)[j] == p;
      var k: nat :| k < |InfraPlacements(db)| && InfraPlacements(db)[k] == q;
      var a := PlacedFrom(db.infra, row => PlaceInfra(x, row), j);
      var b := PlacedFrom(db.infra, row => PlaceInfra(x, row), k);
      assert a == b;
    } else {
      var j: nat :| j < |ConfigPlacements(db)| && ConfigPlacements(db)[j] == p;
      var k: nat :| k < |ConfigPlacements(db)| && ConfigPlacements(db)[k] == q;
      var a := PlacedFrom(db.configs, row => PlaceConfig(x, row), j);
      var b := PlacedFrom(db.configs, row => PlaceConfig(x, row), k);
      assert a == b;
    }
  }

  // ---------------------------------------------------------------- all levels

  /** On every database with unique codes: no node has two parents if and only if the five conditions
      on its rows hold, one for each level that can fail; leaves never do. */
  lemma OneParentIff(db: Db)
    requires UniqueCodes(db)
    ensures (forall u, v, child :: Hangs(db, u, child) && Hangs(db, v, child) ==> u == v)
       <==> WorkspacesApart(db) && ProductsApart(db) && GroupsApart(db) && EnvironmentsApart(db) && GeosApart(db)
  {
    var x := LookupOf(db);
    WorkspacesIff(db);
    ProductsIff(db);
    GroupsIff(db);
    EnvironmentsIff(db);
    GeosIff(db);
    if forall kind :: Level(kind) != 0 && Level(kind) != 6 ==> OneEach(db, kind) {
      forall u, v, child | Hangs(db, u, child) && Hangs(db, v, child) ensures u == v {
        if Level(child.kind) == 6 {
          LeavesHaveOne(db, x, u, v, child);
        } else if Level(child.kind) == 0 {
          NoParents(db, x, u, child);
        }
      }
    }
  }

  lemma NoParents(db: Db, x: Lookup, parent: Node, child: Node)
    requires x == LookupOf(db) && Level(child.kind) == 0
    ensures !Hangs(db, parent, child)
  {
    PlacementParents(db, x, parent, child);
    if p :| Listed(db, p) && Places(x, p, parent, child) { LeafKind(db, p); }
  }

  // ---------------------------------------------------------------- clean codes

  /** No code, environment or geo can be mistaken for the end of a joined id. */
  ghost predicate CleanCodes(db: Db) {
    && (forall i :: 0 <= i < |db.workspaces| ==> Clean(db.workspaces[i].code))
    && (forall c :: c in LookupOf(db).apps ==> Clean(c))
    && (forall i :: 0 <= i < |db.groups| ==> Clean(db.groups[i].code))
    && (forall p :: Listed(db, p) ==> Clean(p.env) && Clean(p.geo))
  }

  /** Rows of two tenants use one live application that has no workspace and whose tenant has none. */
  ghost predicate Shared(db: Db, u: Use, v: Use) {
    && Used(db, u) && Used(db, v) && u.app == v.app && u.tenant != v.tenant
    && App(LookupOf(db), u.app).Some? && MakesUp(LookupOf(db), u)
  }

  lemma CleanIdsAreApart(db: Db)
    requires CleanCodes(db)
    ensures WorkspacesApart(db) && GroupsApart(db) && EnvironmentsApart(db) && GeosApart(db)
  {
    var x := LookupOf(db);
    forall s ensures !Clean(DefaultWorkspace(s)) && !Clean(DefaultGroup(s)) { DefaultIds(s); }
    forall p, q | Listed(db, p) && Listed(db, q)
      ensures !Clash(GroupId(x, p), p.env, GroupId(x, q), q.env)
      ensures !Clash(EnvironmentNode(x, p).id, p.geo, EnvironmentNode(x, q).id, q.geo)
    {
      CleanNeverClashes(GroupId(x, p), p.env, GroupId(x, q), q.env);
      CleanNeverClashes(EnvironmentNode(x, p).id, p.geo, EnvironmentNode(x, q).id, q.geo);
    }
  }

  lemma CleanNeverClashes(left: string, right: string, longer: string, end: string)
    requires Clean(right)
    ensures !Clash(left, right, longer, end)
  {
    if m :| longer == Join(left, m) && right == Join(m, end) { JoinIsNotClean(m, end); }
  }

  lemma CleanSplits(db: Db, u: Use, v: Use)
    requires CleanCodes(db) && Used(db, u) && Used(db, v)
    ensures Split(LookupOf(db), u, v) <==> Shared(db, u, v)
  {
    DefaultIds(v.tenant);
  }

  /** With clean codes only one thing gives a node two parents: rows of two tenants on an application
      without a known workspace.  Whether rows and applications agree on their tenant does not matter
      otherwise. */
  lemma CleanOneParentIff(db: Db)
    requires UniqueCodes(db) && CleanCodes(db)
    ensures (forall u, v, child :: Hangs(db, u, child) && Hangs(db, v, child) ==> u == v)
       <==> !exists u, v :: Shared(db, u, v)
  {
    OneParentIff(db);
    CleanIdsAreApart(db);
    forall u, v | Used(db, u) && Used(db, v) ensures Split(LookupOf(db), u, v) <==> Shared(db, u, v) {
      CleanSplits(db, u, v);
    }
  }

  // ---------------------------------------------------------------- workspaces without a parent

  /** The workspace of a chain has a parent exactly when it is not a name that the application gives
      without there being a row, or happens to be one that some row makes up. */
  lemma ChainIsRootedIff(db: Db, x: Lookup, u: Use)
    requires x == LookupOf(db) && Used(db, u)
    ensures (exists parent :: Hangs(db, parent, Node(Workspace, WorkspaceId(x, u.app, u.tenant)))) <==>
      || !(App(x, u.app).Some? && Given(App(x, u.app).value.workspace))
      || (exists i :: 0 <= i < |db.workspaces| && db.workspaces[i].code == App(x, u.app).value.workspace.value)
      || (exists v :: Used(db, v) && MakesUp(x, v) && DefaultWorkspace(v.tenant) == App(x, u.app).value.workspace.value)
  {
    var id := WorkspaceId(x, u.app, u.tenant);
    if parent :| Hangs(db, parent, Node(Workspace, id)) { WorkspaceParents(db, x, parent, id); }
    if i :| 0 <= i < |db.workspaces| && db.workspaces[i].code == id {
      WorkspaceParents(db, x, Node(Tenant, db.workspaces[i].tenant), id);
    }
    if v :| Used(db, v) && MakesUp(x, v) && DefaultWorkspace(v.tenant) == id {
      WorkspaceParents(db, x, Node(Tenant, v.tenant), id);
    }
    if !(App(x, u.app).Some? && Given(App(x, u.app).value.workspace)) && !MakesUp(x, u) {
      var tenant := if App(x, u.app).Some? then App(x, u.app).value.tenant else u.tenant;
      var i := LatestIsRow(db.workspaces, (w: WorkspaceRow) => w.tenant, tenant);
      WorkspaceParents(db, x, Node(Tenant, db.workspaces[i].tenant), id);
    }
  }

  // ---------------------------------------------------------------- the failing cases

  function Groups(apps: seq<AppRow>, groups: seq<GroupRow>): Db { Db([], apps, groups, [], [], [], [], []) }

  lemma OneApp(a: AppRow, groups: seq<GroupRow>, x: Lookup)
    requires x == LookupOf(Groups([a], groups))
    ensures x.apps == map[a.code := a] && x.workspaceOf == map[]
  {
    assert Latest([a][..0], (a: AppRow) => a.code) == map[];
  }

  /** Two tenants' groups on one application without a workspace: its product has two parents. */
  lemma TwoTenantsOnOneApp(db: Db, code: string, s: string, t: string)
    requires code != "" && s != t
    requires db == Groups([AppRow(code, None, s)], [GroupRow("g", Some(code), s), GroupRow("h", Some(code), t)])
    ensures Hangs(db, Node(Workspace, DefaultWorkspace(s)), Node(Product, code))
    ensures Hangs(db, Node(Workspace, DefaultWorkspace(t)), Node(Product, code))
    ensures DefaultWorkspace(s) != DefaultWorkspace(t)
  {
    var x := LookupOf(db);
    OneApp(db.apps[0], db.groups, x);
    DefaultsDiffer(s, t);
    var u, v := Use(Some(code), s), Use(Some(code), t);
    assert Use(db.groups[0].app, db.groups[0].tenant) == u && Use(db.groups[1].app, db.groups[1].tenant) == v;
    assert Used(db, u) && Used(db, v);
    ProductParents(db, x, Node(Workspace, DefaultWorkspace(s)), code);
    ProductParents(db, x, Node(Workspace, DefaultWorkspace(t)), code);
  }

  /** An application that names a workspace without a row: the product has a parent, the parent none. */
  lemma DeadWorkspace(db: Db, code: string, name: string, t: string)
    requires code != "" && name != ""
    requires db == Groups([AppRow(code, Some(name), t)], [GroupRow("g", Some(code), t)])
    ensures Hangs(db, Node(Workspace, name), Node(Product, code))
    ensures forall parent :: !Hangs(db, parent, Node(Workspace, name))
  {
    var x := LookupOf(db);
    OneApp(db.apps[0], db.groups, x);
    var u := Use(Some(code), t);
    assert Use(db.groups[0].app, db.groups[0].tenant) == u && Used(db, u);
    ProductParents(db, x, Node(Workspace, name), code);
    forall v | Used(db, v) ensures v == u { OnlyOneUse(db, v); }
    ChainIsRootedIff(db, x, u);
  }

  lemma NothingListed(db: Db, p: Placement)
    requires db.infra == [] && db.configs == []
    ensures !Listed(db, p)
  {
  }

  lemma OnlyOneUse(db: Db, v: Use)
    requires db.infra == [] && db.configs == [] && |db.groups| == 1 && Used(db, v)
    ensures v == Use(db.groups[0].app, db.groups[0].tenant)
  {
    if p :| Listed(db, p) && Use(p.app, p.tenant) == v { NothingListed(db, p); }
  }

  /** A group row named like the default group of an application that a row without a group uses. */
  lemma NamedLikeADefault(db: Db, code: string, t: string)
    requires code != "" && code != DefaultProduct(t)
    requires db == Groups([AppRow(code, None, t)], [GroupRow(DefaultGroup(code), None, t)])
                     .(infra := [InfraRow("i", t, Some(code), None, Some("geo"), None)])
    ensures Hangs(db, Node(Product, DefaultProduct(t)), Node(Group, DefaultGroup(code)))
    ensures Hangs(db, Node(Product, code), Node(Group, DefaultGroup(code)))
  {
    var x := LookupOf(db);
    OneApp(db.apps[0], db.groups, LookupOf(Groups(db.apps, db.groups)));
    var p := Placement(t, Some(code), None, UNKNOWN_ENV, "geo", Node(Infra, "i"));
    assert App(x, Some(code)) == Some(db.apps[0]);
    OneInfra(db, x, p);
    GroupRowHangs(db, x, Node(Product, DefaultProduct(t)), DefaultGroup(code));
    DefaultHangs(db, x, p, Node(Product, code), DefaultGroup(code));
  }

  lemma OneInfra(db: Db, x: Lookup, p: Placement)
    requires x == LookupOf(db) && |db.infra| == 1 && PlaceInfra(x, db.infra[0]) == Some(p)
    ensures Listed(db, p)
  {
    var k := RowIsPlaced(db.infra, row => PlaceInfra(x, row), 0);
    assert InfraPlacements(db)[k] == p;
  }

  lemma GroupRowHangs(db: Db, x: Lookup, parent: Node, id: string)
    requires x == LookupOf(db) && GroupRowParent(db, x, parent, id)
    ensures Hangs(db, parent, Node(Group, id))
  {
    GroupParents(db, x, parent, id);
  }

  lemma DefaultHangs(db: Db, x: Lookup, p: Placement, parent: Node, id: string)
    requires x == LookupOf(db) && Listed(db, p) && UsesDefault(x, p, id)
    requires parent == Node(Product, ProductId(x, p.app, p.tenant))
    ensures Hangs(db, parent, Node(Group, id))
  {
    GroupParents(db, x, parent, id);
  }
}
