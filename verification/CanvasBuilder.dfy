/** The loops of transform_to_canvas_response, in the order the source runs them. */
module CanvasBuilder {
  import opened Wrappers
  import opened Sequences
  import opened Canvas

  predicate NoColon(s: string) { forall i :: 0 <= i < |s| ==> s[i] != ':' }

  /** An account row whose id follows from its account and geo. */
  predicate AccountRowOk(row: AccountRow) { row.id == AccountId(row.accountId, row.geoId) && NoColon(row.geoId) }

  /** The id map knows the id of a row. */
  predicate Known(row: AccountRow, ids: map<string, string>) {
    var key := AccountKey(row.accountId, row.geoId);
    AccountRowOk(row) && key in ids && ids[key] == row.id
  }

  /** The account id the code looks up is the one it would compute. */
  lemma LookedUp(rows: seq<AccountRow>, p: Place, ids: map<string, string>)
    requires HasAccount(rows, p.Key()) && forall i :: 0 <= i < |rows| ==> Known(rows[i], ids)
    ensures p.Key() in ids && ids[p.Key()] == p.AccountRowId()
  {
    var i :| 0 <= i < |rows| && AccountKey(rows[i].accountId, rows[i].geoId) == p.Key();
    GeoIdChars(p.region);
    assert Known(rows[i], ids);
    KeySplits(rows[i].accountId, rows[i].geoId, p.account, p.Geo());
  }

  /** A new key changes no old entry. */
  lemma StillKnown(rows: seq<AccountRow>, p: Place, ids: map<string, string>)
    requires !HasAccount(rows, p.Key()) && forall i :: 0 <= i < |rows| ==> Known(rows[i], ids)
    ensures forall i :: 0 <= i < |rows| ==> Known(rows[i], ids[p.Key() := p.AccountRowId()])
    ensures NoColon(p.Geo())
  {
    GeoIdChars(p.region);
  }

  lemma {:induction false} PutSightingsConcat(rows: seq<NodeRow>, a: seq<Sighting>, b: seq<Sighting>)
    ensures PutSightings(rows, a + b) == PutSightings(PutSightings(rows, a), b)
    decreases |b|
  {
    if b == [] {
      assert a + b == a;
    } else {
      assert (a + b)[..|a + b| - 1] == a + b[..|b| - 1];
      PutSightingsConcat(rows, a, b[..|b| - 1]);
    }
  }

  lemma {:induction false} PutPlacesConcat(t: Atlas, a: seq<Place>, b: seq<Place>)
    ensures PutPlaces(t, a + b) == PutPlaces(PutPlaces(t, a), b)
    decreases |b|
  {
    if b == [] {
      assert a + b == a;
    } else {
      assert (a + b)[..|a + b| - 1] == a + b[..|b| - 1];
      PutPlacesConcat(t, a, b[..|b| - 1]);
    }
  }

  lemma PutOneMore(t: Atlas, a: seq<Place>, p: Place)
    ensures PutPlaces(t, a + [p]) == PutPlace(PutPlaces(t, a), p)
  {
    assert (a + [p])[..|a|] == a;
  }

  lemma MapAppend<T, U>(s: seq<T>, x: T, f: T -> U)
    ensures Map(s + [x], f) == Map(s, f) + [f(x)]
  {
  }

  lemma MapConcat<T, U>(s: seq<T>, t: seq<T>, f: T -> U)
    ensures Map(s + t, f) == Map(s, f) + Map(t, f)
  {
  }

  lemma {:induction false} FlatMapConcat<T, U>(s: seq<T>, t: seq<T>, f: T -> seq<U>)
    ensures FlatMap(s + t, f) == FlatMap(s, f) + FlatMap(t, f)
    decreases |t|
  {
    if t == [] {
      assert s + t == s;
    } else {
      assert (s + t)[..|s + t| - 1] == s + t[..|t| - 1];
      FlatMapConcat(s, t[..|t| - 1], f);
    }
  }

  lemma Take<T>(s: seq<T>, i: nat)
    requires i < |s|
    ensures s[..i + 1] == s[..i] + [s[i]]
  {
  }

  class Builder {
    var geos: seq<GeoRow>
    var accounts: seq<AccountRow>
    var regions: seq<RegionRow>
    var vpcs: seq<VpcRow>
    var subnets: seq<SubnetRow>
    var nodes: seq<NodeRow>
    var eksClusters: seq<ClusterRow>
    var ecsClusters: seq<ClusterRow>
    var seenGeos: set<string>
    var seenAccounts: set<string>
    var accountIds: map<string, string>

    constructor ()
      ensures Valid() && IsNew()
    {
      geos, accounts, regions, vpcs, subnets, nodes := [], [], [], [], [], [];
      eksClusters, ecsClusters := [], [];
      seenGeos, seenAccounts, accountIds := {}, {}, map[];
    }

    predicate IsNew()
      reads this
    {
      geos == [] && accounts == [] && regions == [] && vpcs == [] && subnets == [] && nodes == []
      && eksClusters == [] && ecsClusters == []
    }

    function Places(): Atlas
      reads this
    {
      Atlas(geos, accounts, regions)
    }

    function Tables(): TableSet
      reads this
    {
      TableSet(Places(), vpcs, subnets, nodes)
    }

    /** The seen-sets and the id map describe the rows. */
    ghost predicate Valid()
      reads this
    {
      && (forall g :: g in seenGeos <==> HasGeo(geos, g))
      && (forall k :: k in seenAccounts <==> HasAccount(accounts, k))
      && (forall i :: 0 <= i < |accounts| ==> Known(accounts[i], accountIds))
    }

    method SeeGeo(p: Place)
      requires Valid()
      modifies this`geos, this`seenGeos
      ensures Valid() && geos == PutGeo(old(geos), p)
    {
      var id := GeoId(p.region);
      if id !in seenGeos {
        seenGeos := seenGeos + {id};
        geos := geos + [GeoRow(id, AreaName(AreaOf(p.region)), 600 * |geos|)];
        assert forall g :: HasGeo(geos, g) <==> HasGeo(old(geos), g) || g == id by {
          forall g | HasGeo(old(geos), g) ensures HasGeo(geos, g) {
            var i :| 0 <= i < |old(geos)| && old(geos)[i].id == g;
            assert geos[i].id == g;
          }
          assert geos[|geos| - 1].id == id;
        }
      }
    }

    method SeeAccount(p: Place) returns (account: string)
      requires Valid()
      modifies this`accounts, this`seenAccounts, this`accountIds
      ensures Valid() && accounts == PutAccount(old(accounts), p) && account == p.AccountRowId()
    {
      var geo := GeoId(p.region);
      var key := AccountKey(p.account, geo);
      if key !in seenAccounts {
        StillKnown(accounts, p, accountIds);
        seenAccounts := seenAccounts + {key};
        account := AccountId(p.account, geo);
        accountIds := accountIds[key := account];
        accounts := accounts + [AccountRow(account, p.account, geo, 48 + 300 * |accounts|)];
        assert forall k :: HasAccount(accounts, k) <==> HasAccount(old(accounts), k) || k == key by {
          AccountAppended(old(accounts), accounts[|accounts| - 1]);
        }
      } else {
        LookedUp(accounts, p, accountIds);
        account := accountIds[key];
      }
    }

    /** Make sure the geo, the account and the region of a place have rows. */
    method See(p: Place)
      requires Valid()
      modifies this`geos, this`accounts, this`regions, this`seenGeos, this`seenAccounts, this`accountIds
      ensures Valid() && Places() == PutPlace(old(Places()), p)
    {
      SeeGeo(p);
      var account := SeeAccount(p);
      var id := RegionId(p.account, p.region);
      if !exists i :: 0 <= i < |regions| && regions[i].id == id {
        regions := regions + [RegionRow(id, p.region, account)];
      }
    }

    method AddResource(s: Sighting)
      modifies this`nodes
      ensures nodes == PutSighting(old(nodes), s)
    {
      var k := 0;
      while k < |nodes| && nodes[k].id != s.resource.id
        invariant 0 <= k <= |nodes| && forall i :: 0 <= i < k ==> nodes[i].id != s.resource.id
      {
        k := k + 1;
      }
      if k < |nodes| {
        var ids := SubnetIdsOf(nodes[k]);
        if s.subnetId !in ids { ids := ids + [s.subnetId]; }
        nodes := nodes[k := nodes[k].(subnetIds := Some(ids))];
      } else {
        nodes := nodes + [NodeOf(s)];
      }
    }

    method AddSubnet(s: SubnetAt)
      modifies this`nodes, this`subnets
      ensures subnets == old(subnets) + [SubnetRowOf(s)]
      ensures nodes == PutSightings(old(nodes), SightingsOf(s))
    {
      subnets := subnets + [SubnetRowOf(s)];
      var here := SightingsOf(s);
      for j := 0 to |here|
        invariant subnets == old(subnets) + [SubnetRowOf(s)] && nodes == PutSightings(old(nodes), here[..j])
      {
        AddResource(here[j]);
        assert here[..j + 1][..j] == here[..j];
      }
      assert here[..|here|] == here;
    }

    method AddSubnets(all: seq<SubnetAt>)
      modifies this`subnets, this`nodes
      ensures subnets == old(subnets) + Map(all, SubnetRowOf)
      ensures nodes == PutSightings(old(nodes), AllSightings(all))
    {
      assert old(subnets) + Map(all[..0], SubnetRowOf) == old(subnets);
      for k := 0 to |all|
        invariant subnets == old(subnets) + Map(all[..k], SubnetRowOf)
        invariant nodes == PutSightings(old(nodes), AllSightings(all[..k]))
      {
        AddSubnet(all[k]);
        Take(all, k);
        MapAppend(all[..k], all[k], SubnetRowOf);
        FlatMapAppend(all[..k], all[k], SightingsOf);
        PutSightingsConcat(old(nodes), AllSightings(all[..k]), SightingsOf(all[k]));
      }
      assert all[..|all|] == all;
    }

    method AddVpc(v: VpcAt)
      requires Valid()
      modifies this`geos, this`accounts, this`regions, this`seenGeos, this`seenAccounts, this`accountIds,
               this`vpcs, this`subnets, this`nodes
      ensures Valid() && Tables() == PutVpc(old(Tables()), v)
    {
      See(PlaceOfVpc(v));
      vpcs := vpcs + [VpcRowOf(v)];
      AddSubnets(SubnetsOf(v));
    }

    /** The VPCs of one account. */
    method AddVpcs(all: seq<VpcAt>)
      requires Valid()
      modifies this`geos, this`accounts, this`regions, this`seenGeos, this`seenAccounts, this`accountIds,
               this`vpcs, this`subnets, this`nodes
      ensures Valid() && Tables() == PutVpcs(old(Tables()), all)
    {
      for j := 0 to |all|
        invariant Valid() && Tables() == PutVpcs(old(Tables()), all[..j])
      {
        AddVpc(all[j]);
        assert all[..j + 1][..j] == all[..j];
      }
      assert all[..|all|] == all;
    }

    method AddAccounts(found: seq<Account>)
      requires Valid()
      modifies this`geos, this`accounts, this`regions, this`seenGeos, this`seenAccounts, this`accountIds,
               this`vpcs, this`subnets, this`nodes
      ensures Valid() && Tables() == PutVpcs(old(Tables()), AllVpcs(found))
    {
      for i := 0 to |found|
        invariant Valid() && Tables() == PutVpcs(old(Tables()), AllVpcs(found[..i]))
      {
        AddVpcs(VpcsOf(found[i]));
        Take(found, i);
        FlatMapAppend(found[..i], found[i], VpcsOf);
        PutVpcsConcat(old(Tables()), AllVpcs(found[..i]), VpcsOf(found[i]));
      }
      assert found[..|found|] == found;
    }

    method AddEksClusters(found: seq<Account>)
      requires eksClusters == []
      modifies this`eksClusters
      ensures eksClusters == PutWorkloads([], AllWorkloads(found))
    {
      var seen: set<string> := {};
      for i := 0 to |found|
        invariant eksClusters == PutWorkloads([], AllWorkloads(found[..i]))
        invariant forall arn :: arn in seen <==> HasCluster(eksClusters, arn)
      {
        var here := WorkloadsOf(found[i]);
        ghost var before := AllWorkloads(found[..i]);
        assert before + here[..0] == before;
        for j := 0 to |here|
          invariant eksClusters == PutWorkloads([], before + here[..j])
          invariant forall arn :: arn in seen <==> HasCluster(eksClusters, arn)
        {
          var w := here[j];
          Take(here, j);
          assert before + here[..j + 1] == (before + here[..j]) + [w];
          assert (before + here[..j + 1])[..|before| + j] == before + here[..j];
          if w.workload.arn != "" && w.workload.arn !in seen {
            seen := seen + {w.workload.arn};
            ClusterAppended(eksClusters, EksClusterOf(w));
            eksClusters := eksClusters + [EksClusterOf(w)];
          }
        }
        assert here[..|here|] == here;
        Take(found, i);
        FlatMapAppend(found[..i], found[i], WorkloadsOf);
      }
      assert found[..|found|] == found;
    }

    method AddPods(all: seq<PodsAt>)
      modifies this`nodes
      ensures nodes == old(nodes) + FlatMap(all, EksNodesOf)
    {
      for i := 0 to |all|
        invariant nodes == old(nodes) + FlatMap(all[..i], EksNodesOf)
      {
        Take(all, i);
        FlatMapAppend(all[..i], all[i], EksNodesOf);
        if all[i].pods.namespace !in EKS_SYSTEM_NAMESPACES { nodes := nodes + [EksNodeOf(all[i])]; }
      }
      assert all[..|all|] == all;
    }

    /** The workloads of one account. */
    method AddEksNodesOf(all: seq<WorkloadAt>)
      modifies this`nodes
      ensures nodes == old(nodes) + EksNodes(all)
    {
      for j := 0 to |all|
        invariant nodes == old(nodes) + EksNodes(all[..j])
      {
        ghost var before := nodes;
        AddPods(PodsOf(all[j]));
        Take(all, j);
        EksNodesAppend(all[..j], all[j]);
        Reassociate(old(nodes), EksNodes(all[..j]), FlatMap(PodsOf(all[j]), EksNodesOf));
      }
      assert all[..|all|] == all;
    }

    method AddEksNodes(found: seq<Account>)
      modifies this`nodes
      ensures nodes == old(nodes) + EksNodes(AllWorkloads(found))
    {
      for i := 0 to |found|
        invariant nodes == old(nodes) + EksNodes(AllWorkloads(found[..i]))
      {
        AddEksNodesOf(WorkloadsOf(found[i]));
        Take(found, i);
        FlatMapAppend(found[..i], found[i], WorkloadsOf);
        EksNodesConcat(AllWorkloads(found[..i]), WorkloadsOf(found[i]));
        Reassociate(old(nodes), EksNodes(AllWorkloads(found[..i])), EksNodes(WorkloadsOf(found[i])));
      }
      assert found[..|found|] == found;
    }

    method VpcOfSubnets() returns (vpcOf: map<string, string>)
      ensures vpcOf == VpcOfSubnet(subnets)
    {
      vpcOf := map[];
      for i := 0 to |subnets|
        invariant vpcOf == VpcOfSubnet(subnets[..i])
      {
        assert subnets[..i + 1][..i] == subnets[..i];
        vpcOf := vpcOf[subnets[i].id := subnets[i].vpcId];
      }
      assert subnets[..|subnets|] == subnets;
    }

    method MergeSubnets(ids: seq<string>, more: seq<string>) returns (merged: seq<string>)
      ensures merged == AppendAllAbsent(ids, more)
    {
      merged := ids;
      for j := 0 to |more|
        invariant merged == AppendAllAbsent(ids, more[..j])
      {
        assert more[..j + 1][..j] == more[..j];
        if more[j] !in merged { merged := merged + [more[j]]; }
      }
      assert more[..|more|] == more;
    }

    method AddService(n: NodeRow, vpcOf: map<string, string>)
      modifies this`ecsClusters
      ensures ecsClusters == PutService(old(ecsClusters), n, vpcOf)
    {
      if !IsEcs(n) { return; }
      var arn := n.settings.clusterArn;
      var k := 0;
      while k < |ecsClusters| && ecsClusters[k].arn != arn
        invariant 0 <= k <= |ecsClusters| && forall i :: 0 <= i < k ==> ecsClusters[i].arn != arn
      {
        k := k + 1;
      }
      if k < |ecsClusters| {
        var merged := MergeSubnets(ecsClusters[k].subnetIds, SubnetIdsOf(n));
        ecsClusters := ecsClusters[k := ecsClusters[k].(subnetIds := merged)];
      } else {
        ecsClusters := ecsClusters + [ClusterRow(arn, n.settings.clusterName, VpcOfNode(n, vpcOf), n.regionId, n.region,
                                                 SubnetIdsOf(n))];
      }
    }

    method AddEcsClusters()
      requires ecsClusters == []
      modifies this`ecsClusters
      ensures ecsClusters == PutServices([], nodes, VpcOfSubnet(subnets))
    {
      var vpcOf := VpcOfSubnets();
      for i := 0 to |nodes|
        invariant ecsClusters == PutServices([], nodes[..i], vpcOf)
      {
        AddService(nodes[i], vpcOf);
        assert nodes[..i + 1][..i] == nodes[..i];
      }
      assert nodes[..|nodes|] == nodes;
    }

    method AddRegional(r: RegionalAt)
      requires Valid()
      modifies this`geos, this`accounts, this`regions, this`seenGeos, this`seenAccounts, this`accountIds, this`nodes
      ensures Valid() && Tables() == PutRegional(old(Tables()), r)
    {
      See(PlaceOfRegional(r));
      nodes := nodes + [RegionalNodeOf(r)];
    }

    /** The regional resources of one account. */
    method AddRegionalsOf(all: seq<RegionalAt>)
      requires Valid()
      modifies this`geos, this`accounts, this`regions, this`seenGeos, this`seenAccounts, this`accountIds, this`nodes
      ensures Valid() && Tables() == PutRegionals(old(Tables()), all)
    {
      for j := 0 to |all|
        invariant Valid() && Tables() == PutRegionals(old(Tables()), all[..j])
      {
        AddRegional(all[j]);
        assert all[..j + 1][..j] == all[..j];
      }
      assert all[..|all|] == all;
    }

    method AddRegionals(found: seq<Account>)
      requires Valid()
      modifies this`geos, this`accounts, this`regions, this`seenGeos, this`seenAccounts, this`accountIds, this`nodes
      ensures Valid() && Tables() == PutRegionals(old(Tables()), AllRegionals(found))
    {
      for i := 0 to |found|
        invariant Valid() && Tables() == PutRegionals(old(Tables()), AllRegionals(found[..i]))
      {
        AddRegionalsOf(RegionalsOf(found[i]));
        Take(found, i);
        FlatMapAppend(found[..i], found[i], RegionalsOf);
        PutRegionalsConcat(old(Tables()), AllRegionals(found[..i]), RegionalsOf(found[i]));
      }
      assert found[..|found|] == found;
    }

    /** The passes over workloads and services. */
    method AddClusters(found: seq<Account>)
      requires eksClusters == [] && ecsClusters == []
      modifies this`eksClusters, this`nodes, this`ecsClusters
      ensures eksClusters == PutWorkloads([], AllWorkloads(found))
      ensures nodes == old(nodes) + EksNodes(AllWorkloads(found))
      ensures ecsClusters == PutServices([], nodes, VpcOfSubnet(subnets))
    {
      AddEksClusters(found);
      AddEksNodes(found);
      AddEcsClusters();
    }

    method Transform(found: seq<Account>) returns (r: Result)
      requires Valid() && IsNew()
      modifies this
      ensures r == Transformed(found)
    {
      AddAccounts(found);
      ghost var first := Tables();
      AddClusters(found);
      ghost var second := Tables();
      AddRegionals(found);
      r := Result(Places(), vpcs, subnets, nodes, eksClusters, ecsClusters);
      Assembled(found, first, second, r);
    }
  }

  // ---------------------------------------------------------------- the tables the loops share

  datatype TableSet = TableSet(atlas: Atlas, vpcs: seq<VpcRow>, subnets: seq<SubnetRow>, nodes: seq<NodeRow>)

  function PutVpc(t: TableSet, v: VpcAt): TableSet {
    TableSet(PutPlace(t.atlas, PlaceOfVpc(v)), t.vpcs + [VpcRowOf(v)], t.subnets + Map(SubnetsOf(v), SubnetRowOf),
             PutSightings(t.nodes, AllSightings(SubnetsOf(v))))
  }

  function PutVpcs(t: TableSet, all: seq<VpcAt>): TableSet {
    if all == [] then t else PutVpc(PutVpcs(t, all[..|all| - 1]), all[|all| - 1])
  }

  function PutRegional(t: TableSet, r: RegionalAt): TableSet {
    t.(atlas := PutPlace(t.atlas, PlaceOfRegional(r)), nodes := t.nodes + [RegionalNodeOf(r)])
  }

  function PutRegionals(t: TableSet, all: seq<RegionalAt>): TableSet {
    if all == [] then t else PutRegional(PutRegionals(t, all[..|all| - 1]), all[|all| - 1])
  }

  lemma {:induction false} PutVpcsConcat(t: TableSet, a: seq<VpcAt>, b: seq<VpcAt>)
    ensures PutVpcs(t, a + b) == PutVpcs(PutVpcs(t, a), b)
    decreases |b|
  {
    if b == [] {
      assert a + b == a;
    } else {
      assert (a + b)[..|a + b| - 1] == a + b[..|b| - 1];
      PutVpcsConcat(t, a, b[..|b| - 1]);
    }
  }

  lemma {:induction false} PutRegionalsConcat(t: TableSet, a: seq<RegionalAt>, b: seq<RegionalAt>)
    ensures PutRegionals(t, a + b) == PutRegionals(PutRegionals(t, a), b)
    decreases |b|
  {
    if b == [] {
      assert a + b == a;
    } else {
      assert (a + b)[..|a + b| - 1] == a + b[..|b| - 1];
      PutRegionalsConcat(t, a, b[..|b| - 1]);
    }
  }

  /** Each table filled alone. */
  function Separate(t: TableSet, all: seq<VpcAt>): TableSet {
    TableSet(PutPlaces(t.atlas, Map(all, PlaceOfVpc)), t.vpcs + Map(all, VpcRowOf),
             t.subnets + Map(AllSubnets(all), SubnetRowOf), PutSightings(t.nodes, AllSightings(AllSubnets(all))))
  }

  lemma SeparateNone(t: TableSet)
    ensures Separate(t, []) == t
  {
    assert t.vpcs + [] == t.vpcs && t.subnets + [] == t.subnets;
  }

  lemma SeparateTaken(t: TableSet, done: seq<VpcAt>, v: VpcAt)
    ensures Separate(t, done + [v]) == PutVpc(Separate(t, done), v)
  {
    MapAppend(done, v, PlaceOfVpc);
    PutOneMore(t.atlas, Map(done, PlaceOfVpc), PlaceOfVpc(v));
    MapAppend(done, v, VpcRowOf);
    Reassociate(t.vpcs, Map(done, VpcRowOf), [VpcRowOf(v)]);
    FlatMapAppend(done, v, SubnetsOf);
    MapConcat(AllSubnets(done), SubnetsOf(v), SubnetRowOf);
    Reassociate(t.subnets, Map(AllSubnets(done), SubnetRowOf), Map(SubnetsOf(v), SubnetRowOf));
    FlatMapConcat(AllSubnets(done), SubnetsOf(v), SightingsOf);
    PutSightingsConcat(t.nodes, AllSightings(AllSubnets(done)), AllSightings(SubnetsOf(v)));
  }

  /** The interleaved loop fills each table as if it were filled alone. */
  lemma {:induction false} VpcsTableByTable(t: TableSet, all: seq<VpcAt>)
    ensures PutVpcs(t, all) == Separate(t, all)
    decreases |all|
  {
    if all == [] {
      SeparateNone(t);
    } else {
      var done, v := all[..|all| - 1], all[|all| - 1];
      VpcsTableByTable(t, done);
      LastVpc(t, all, Separate(t, done));
      OneMoreVpc(t, done, v, all);
    }
  }

  lemma LastVpc(t: TableSet, all: seq<VpcAt>, before: TableSet)
    requires all != [] && before == PutVpcs(t, all[..|all| - 1])
    ensures PutVpcs(t, all) == PutVpc(before, all[|all| - 1])
  {
  }

  lemma OneMoreVpc(t: TableSet, done: seq<VpcAt>, v: VpcAt, all: seq<VpcAt>)
    requires all != [] && done == all[..|all| - 1] && v == all[|all| - 1]
    ensures Separate(t, all) == PutVpc(Separate(t, done), v)
  {
    assert all == done + [v];
    SeparateTaken(t, done, v);
  }

  lemma Reassociate<T>(a: seq<T>, b: seq<T>, c: seq<T>)
    ensures a + (b + c) == (a + b) + c
  {
  }

  lemma {:induction false} RegionalsTableByTable(t: TableSet, all: seq<RegionalAt>)
    ensures PutRegionals(t, all) ==
      t.(atlas := PutPlaces(t.atlas, Map(all, PlaceOfRegional)), nodes := t.nodes + Map(all, RegionalNodeOf))
    decreases |all|
  {
    if all == [] {
      assert t.nodes + Map(all, RegionalNodeOf) == t.nodes;
    } else {
      var done, r := all[..|all| - 1], all[|all| - 1];
      RegionalsTableByTable(t, done);
      assert all == done + [r];
      MapAppend(done, r, PlaceOfRegional);
      PutOneMore(t.atlas, Map(done, PlaceOfRegional), PlaceOfRegional(r));
      MapAppend(done, r, RegionalNodeOf);
      Reassociate(t.nodes, Map(done, RegionalNodeOf), [RegionalNodeOf(r)]);
    }
  }

  const NOTHING := TableSet(Atlas([], [], []), [], [], [])

  lemma Assembled(found: seq<Account>, first: TableSet, second: TableSet, r: Result)
    requires first == PutVpcs(NOTHING, AllVpcs(found))
    requires second == first.(nodes := first.nodes + EksNodes(AllWorkloads(found)))
    requires TableSet(r.atlas, r.vpcs, r.subnets, r.nodes) == PutRegionals(second, AllRegionals(found))
    requires r.eksClusters == PutWorkloads([], AllWorkloads(found))
    requires r.ecsClusters == PutServices([], second.nodes, VpcOfSubnet(second.subnets))
    ensures r == Transformed(found)
  {
    FromNothing(AllVpcs(found));
    RegionalsTableByTable(second, AllRegionals(found));
    PutPlacesConcat(NOTHING.atlas, Map(AllVpcs(found), PlaceOfVpc), Map(AllRegionals(found), PlaceOfRegional));
  }

  lemma FromNothing(all: seq<VpcAt>)
    ensures PutVpcs(NOTHING, all) == TableSet(
      PutPlaces(NOTHING.atlas, Map(all, PlaceOfVpc)), Map(all, VpcRowOf), Map(AllSubnets(all), SubnetRowOf),
      PutSightings([], AllSightings(AllSubnets(all))))
  {
    VpcsTableByTable(NOTHING, all);
    EmptyFront(Map(all, VpcRowOf));
    EmptyFront(Map(AllSubnets(all), SubnetRowOf));
  }

  lemma EmptyFront<T>(s: seq<T>)
    ensures [] + s == s
  {
  }

  // ---------------------------------------------------------------- steps of the loops

  lemma AccountAppended(rows: seq<AccountRow>, row: AccountRow)
    ensures forall k ::
      HasAccount(rows + [row], k) <==> HasAccount(rows, k) || k == AccountKey(row.accountId, row.geoId)
  {
    var more := rows + [row];
    forall k | HasAccount(rows, k) ensures HasAccount(more, k) {
      var i :| 0 <= i < |rows| && AccountKey(rows[i].accountId, rows[i].geoId) == k;
      assert more[i] == rows[i];
    }
    assert more[|rows|] == row;
  }

  lemma ClusterAppended(rows: seq<ClusterRow>, row: ClusterRow)
    ensures forall arn :: HasCluster(rows + [row], arn) <==> HasCluster(rows, arn) || arn == row.arn
  {
    var more := rows + [row];
    forall arn | HasCluster(rows, arn) ensures HasCluster(more, arn) {
      var i :| 0 <= i < |rows| && rows[i].arn == arn;
      assert more[i] == rows[i];
    }
    assert more[|rows|] == row;
  }

  lemma EksNodesConcat(done: seq<WorkloadAt>, here: seq<WorkloadAt>)
    ensures EksNodes(done + here) == EksNodes(done) + EksNodes(here)
  {
    FlatMapConcat(done, here, PodsOf);
    FlatMapConcat(FlatMap(done, PodsOf), FlatMap(here, PodsOf), EksNodesOf);
  }

  lemma EksNodesAppend(done: seq<WorkloadAt>, w: WorkloadAt)
    ensures EksNodes(done + [w]) == EksNodes(done) + FlatMap(PodsOf(w), EksNodesOf)
  {
    FlatMapAppend(done, w, PodsOf);
    FlatMapConcat(FlatMap(done, PodsOf), PodsOf(w), EksNodesOf);
  }
}
