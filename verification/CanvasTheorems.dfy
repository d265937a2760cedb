/**
  The canvas tables are in normal form: ids of places and clusters are unique, and so are those of the
  nodes of resources seen in subnets; when references resolve; and a node lists exactly the subnets
  that hold its resource.  Ids of EKS nodes can repeat.
*/
module CanvasTheorems {
  import opened Wrappers
  import opened Sequences
  import opened Canvas
  import CanvasBuilder

  // ---------------------------------------------------------------- the tables of places

  /** A geo id as the code makes them: no ':' and no 'g' but the first character. */
  predicate GeoShape(id: string) {
    id != "" && id[0] == 'g' && forall i :: 0 <= i < |id| ==> id[i] != ':' && (i > 0 ==> id[i] != 'g')
  }

  predicate AccountOk(t: Atlas, row: AccountRow) {
    row.id == AccountId(row.accountId, row.geoId) && GeoShape(row.geoId) && HasGeo(t.geos, row.geoId)
  }

  predicate HasAccountId(rows: seq<AccountRow>, id: string) { exists i :: 0 <= i < |rows| && rows[i].id == id }

  /** Unique ids; every account has its geo and every region its account. */
  ghost predicate AtlasOk(t: Atlas) {
    && (forall i, j :: 0 <= i < j < |t.geos| ==> t.geos[i].id != t.geos[j].id)
    && (forall i, j :: 0 <= i < j < |t.accounts| ==> t.accounts[i].id != t.accounts[j].id)
    && (forall i, j :: 0 <= i < j < |t.regions| ==> t.regions[i].id != t.regions[j].id)
    && (forall i :: 0 <= i < |t.accounts| ==> AccountOk(t, t.accounts[i]))
    && (forall i :: 0 <= i < |t.regions| ==> HasAccountId(t.accounts, t.regions[i].accountId))
  }

  lemma PlaceShape(p: Place)
    ensures GeoShape(p.Geo())
  {
    GeoIdChars(p.region);
  }

  /** An account row already there is the one the place needs. */
  lemma SameAccount(t: Atlas, p: Place, i: nat)
    requires i < |t.accounts| && AccountOk(t, t.accounts[i])
    ensures AccountKey(t.accounts[i].accountId, t.accounts[i].geoId) == p.Key()
          <==> t.accounts[i].id == p.AccountRowId()
  {
    PlaceShape(p);
    var row := t.accounts[i];
    if AccountKey(row.accountId, row.geoId) == p.Key() { KeySplits(row.accountId, row.geoId, p.account, p.Geo()); }
    if row.id == p.AccountRowId() { IdSplits(row.accountId, row.geoId, p.account, p.Geo()); }
  }

  lemma GeoKept(rows: seq<GeoRow>, p: Place, id: string)
    ensures HasGeo(PutGeo(rows, p), id) <==> HasGeo(rows, id) || id == p.Geo()
  {
    var after := PutGeo(rows, p);
    if i :| 0 <= i < |rows| && rows[i].id == id { assert after[i].id == id; }
    if !HasGeo(rows, p.Geo()) { assert after[|rows|].id == p.Geo(); }
  }

  lemma RegionKept(rows: seq<RegionRow>, p: Place, id: string)
    ensures HasRegion(PutRegion(rows, p), id) <==> HasRegion(rows, id) || id == p.Id()
  {
    var after := PutRegion(rows, p);
    if i :| 0 <= i < |rows| && rows[i].id == id { assert after[i].id == id; }
    if !HasRegion(rows, p.Id()) { assert after[|rows|].id == p.Id(); }
  }

  lemma AccountsOk(t: Atlas, p: Place)
    requires AtlasOk(t)
    ensures var after := PutPlace(t, p);
      && (forall i, j :: 0 <= i < j < |after.accounts| ==> after.accounts[i].id != after.accounts[j].id)
      && (forall i :: 0 <= i < |after.accounts| ==> AccountOk(after, after.accounts[i]))
      && (forall id :: HasAccountId(t.accounts, id) || id == p.AccountRowId() ==> HasAccountId(after.accounts, id))
  {
    var after := PutPlace(t, p);
    PlaceShape(p);
    forall i | 0 <= i < |t.accounts|
      ensures AccountKey(t.accounts[i].accountId, t.accounts[i].geoId) == p.Key()
            <==> t.accounts[i].id == p.AccountRowId()
    {
      SameAccount(t, p, i);
    }
    forall i | 0 <= i < |after.accounts| ensures AccountOk(after, after.accounts[i]) {
      GeoKept(t.geos, p, after.accounts[i].geoId);
    }
    forall id | HasAccountId(t.accounts, id) ensures HasAccountId(after.accounts, id) {
      var i :| 0 <= i < |t.accounts| && t.accounts[i].id == id;
      assert after.accounts[i].id == id;
    }
    if !HasAccount(t.accounts, p.Key()) { assert after.accounts[|t.accounts|].id == p.AccountRowId(); }
  }

  lemma PutPlaceOk(t: Atlas, p: Place)
    requires AtlasOk(t)
    ensures AtlasOk(PutPlace(t, p))
  {
    AccountsOk(t, p);
  }

  lemma {:induction false} PutPlacesOk(t: Atlas, places: seq<Place>)
    requires AtlasOk(t)
    ensures AtlasOk(PutPlaces(t, places))
    decreases |places|
  {
    if places != [] {
      PutPlacesOk(t, places[..|places| - 1]);
      PutPlaceOk(PutPlaces(t, places[..|places| - 1]), places[|places| - 1]);
    }
  }

  ghost predicate PlaceWith(places: seq<Place>, id: string) { exists i :: 0 <= i < |places| && places[i].Id() == id }

  lemma PlaceWithLast(places: seq<Place>, id: string)
    requires places != []
    ensures PlaceWith(places, id) <==> PlaceWith(places[..|places| - 1], id) || places[|places| - 1].Id() == id
  {
    var before := places[..|places| - 1];
    if i :| 0 <= i < |before| && before[i].Id() == id { assert places[i].Id() == id; }
    if i :| 0 <= i < |places| && places[i].Id() == id && i < |before| { assert before[i].Id() == id; }
  }

  /** There is a region row exactly for the regions something was found in. */
  lemma {:induction false} RegionIff(places: seq<Place>, id: string)
    ensures HasRegion(PutPlaces(Atlas([], [], []), places).regions, id) <==> PlaceWith(places, id)
    decreases |places|
  {
    if places != [] {
      var before, last := places[..|places| - 1], places[|places| - 1];
      RegionIff(before, id);
      RegionKept(PutPlaces(Atlas([], [], []), before).regions, last, id);
      PlaceWithLast(places, id);
    }
  }

  /** Geo, account and region ids are free of duplicates, whatever the account ids look like, and
      the references between the three tables resolve. */
  lemma PlacesInNormalForm(found: seq<Account>)
    ensures AtlasOk(Transformed(found).atlas)
  {
    PutPlacesOk(Atlas([], [], []), Places(found));
  }

  // ---------------------------------------------------------------- nodes

  /** The resource was seen in the subnet. */
  ghost predicate Holds(sightings: seq<Sighting>, id: string, subnetId: string) {
    exists k :: 0 <= k < |sightings| && sightings[k].resource.id == id && sightings[k].subnetId == subnetId
  }

  /** Sighting k is the first of its resource, and the node shows it. */
  ghost predicate ShowsFirst(row: NodeRow, sightings: seq<Sighting>, k: int) {
    && 0 <= k < |sightings| && row.(subnetIds := Some([sightings[k].subnetId])) == NodeOf(sightings[k])
    && forall i :: 0 <= i < k ==> sightings[i].resource.id != row.id
  }

  /** A node of a resource: it shows the first sighting, and its subnets are those that hold it. */
  ghost predicate NodeOk(row: NodeRow, sightings: seq<Sighting>) {
    && row.subnetIds.Some? && NoDuplicates(SubnetIdsOf(row))
    && (forall s :: s in SubnetIdsOf(row) <==> Holds(sightings, row.id, s))
    && exists k :: ShowsFirst(row, sightings, k)
  }

  ghost predicate NodesOk(rows: seq<NodeRow>, sightings: seq<Sighting>) {
    && (forall i, j :: 0 <= i < j < |rows| ==> rows[i].id != rows[j].id)
    && (forall i :: 0 <= i < |rows| ==> NodeOk(rows[i], sightings))
    && (forall k :: 0 <= k < |sightings| ==> IndexOf(rows, NodeId, sightings[k].resource.id) < |rows|)
  }

  lemma HoldsAppend(sightings: seq<Sighting>, s: Sighting, id: string, subnetId: string)
    ensures Holds(sightings + [s], id, subnetId) <==>
      Holds(sightings, id, subnetId) || (s.resource.id == id && s.subnetId == subnetId)
  {
    var all := sightings + [s];
    if k :| 0 <= k < |sightings| && sightings[k].resource.id == id && sightings[k].subnetId == subnetId {
      assert all[k] == sightings[k];
    }
    assert all[|sightings|] == s;
  }

  lemma FirstKept(row: NodeRow, sightings: seq<Sighting>, s: Sighting, ids: seq<string>)
    requires exists k :: ShowsFirst(row, sightings, k)
    ensures exists k :: ShowsFirst(row.(subnetIds := Some(ids)), sightings + [s], k)
  {
    var k :| ShowsFirst(row, sightings, k);
    var all := sightings + [s];
    assert forall i :: 0 <= i < |sightings| ==> all[i] == sightings[i];
    assert ShowsFirst(row.(subnetIds := Some(ids)), all, k);
  }

  /** A node not touched by a sighting of another resource. */
  lemma OtherNodeOk(row: NodeRow, sightings: seq<Sighting>, s: Sighting)
    requires NodeOk(row, sightings) && row.id != s.resource.id
    ensures NodeOk(row, sightings + [s])
  {
    forall x ensures x in SubnetIdsOf(row) <==> Holds(sightings + [s], row.id, x) {
      HoldsAppend(sightings, s, row.id, x);
    }
    FirstKept(row, sightings, s, SubnetIdsOf(row));
    assert row == row.(subnetIds := Some(SubnetIdsOf(row)));
  }

  /** The node of the resource seen again. */
  lemma SeenAgainOk(row: NodeRow, sightings: seq<Sighting>, s: Sighting)
    requires NodeOk(row, sightings) && row.id == s.resource.id
    ensures NodeOk(row.(subnetIds := Some(AppendAbsent(SubnetIdsOf(row), s.subnetId))), sightings + [s])
  {
    var ids := AppendAbsent(SubnetIdsOf(row), s.subnetId);
    forall x ensures x in ids <==> Holds(sightings + [s], row.id, x) { HoldsAppend(sightings, s, row.id, x); }
    FirstKept(row, sightings, s, ids);
  }

  lemma NewNodeOk(sightings: seq<Sighting>, s: Sighting)
    requires forall k :: 0 <= k < |sightings| ==> sightings[k].resource.id != s.resource.id
    ensures NodeOk(NodeOf(s), sightings + [s])
  {
    forall x ensures x in SubnetIdsOf(NodeOf(s)) <==> Holds(sightings + [s], s.resource.id, x) {
      HoldsAppend(sightings, s, s.resource.id, x);
    }
    assert ShowsFirst(NodeOf(s), sightings + [s], |sightings|);
  }

  lemma PutSightingOk(rows: seq<NodeRow>, sightings: seq<Sighting>, s: Sighting, after: seq<NodeRow>,
                      all: seq<Sighting>)
    requires NodesOk(rows, sightings) && after == PutSighting(rows, s) && all == sightings + [s]
    ensures NodesOk(after, all)
  {
    var at := IndexOf(rows, NodeId, s.resource.id);
    forall i | 0 <= i < |after| ensures NodeOk(after[i], all) {
      if at < |rows| {
        if i == at { SeenAgainOk(rows[i], sightings, s); } else { OtherNodeOk(rows[i], sightings, s); }
      } else if i < |rows| {
        OtherNodeOk(rows[i], sightings, s);
      } else {
        NewNodeOk(sightings, s);
      }
    }
    forall k | 0 <= k < |all| ensures IndexOf(after, NodeId, all[k].resource.id) < |after| {
      if k < |sightings| {
        assert all[k] == sightings[k];
        var j := IndexOf(rows, NodeId, sightings[k].resource.id);
        assert after[j].id == rows[j].id;
      } else if at < |rows| {
        assert after[at].id == s.resource.id;
      } else {
        assert after[|rows|].id == s.resource.id;
      }
    }
  }

  lemma {:induction false} PutSightingsOk(sightings: seq<Sighting>)
    ensures NodesOk(PutSightings([], sightings), sightings)
    decreases |sightings|
  {
    if sightings != [] {
      var before, last := sightings[..|sightings| - 1], sightings[|sightings| - 1];
      PutSightingsOk(before);
      PutSightingOk(PutSightings([], before), before, last, PutSightings([], sightings), sightings);
    }
  }

  /** One node for every resource seen in a subnet, as first seen, listing without repetition
      exactly the subnets that hold it. */
  lemma NodesListTheirSubnets(found: seq<Account>)
    ensures NodesOk(VpcNodes(found), AllSightings(AllSubnets(AllVpcs(found))))
    ensures VpcNodes(found) <= Transformed(found).nodes
  {
    PutSightingsOk(AllSightings(AllSubnets(AllVpcs(found))));
    var rest := Map(AllRegionals(found), RegionalNodeOf);
    CanvasBuilder.Reassociate(VpcNodes(found), EksNodes(AllWorkloads(found)), rest);
    assert Transformed(found).nodes == VpcNodes(found) + (EksNodes(AllWorkloads(found)) + rest);
  }

  // ---------------------------------------------------------------- references

  lemma {:induction false} InFlatMap<T, U>(s: seq<T>, f: T -> seq<U>, k: nat) returns (i: nat, j: nat)
    requires k < |FlatMap(s, f)|
    ensures i < |s| && j < |f(s[i])| && f(s[i])[j] == FlatMap(s, f)[k]
    decreases |s|
  {
    var before := FlatMap(s[..|s| - 1], f);
    if k < |before| { i, j := InFlatMap(s[..|s| - 1], f, k); } else { i, j := |s| - 1, k - |before|; }
  }

  /** A sighting comes from a subnet of a discovered VPC. */
  lemma SightingOrigin(found: seq<Account>, k: nat) returns (v: nat, s: nat)
    requires k < |AllSightings(AllSubnets(AllVpcs(found)))|
    ensures v < |AllVpcs(found)| && s < |AllSubnets(AllVpcs(found))|
    ensures var seen, subnet := AllSightings(AllSubnets(AllVpcs(found)))[k], AllSubnets(AllVpcs(found))[s];
      && subnet.at == AllVpcs(found)[v] && seen.subnetId == subnet.subnet.id
      && seen.regionId == PlaceOfVpc(subnet.at).Id()
  {
    var subnets := AllSubnets(AllVpcs(found));
    var i, j := InFlatMap(subnets, SightingsOf, k);
    s := i;
    var m, n := InFlatMap(AllVpcs(found), SubnetsOf, i);
    v := m;
  }

  lemma VpcRegion(found: seq<Account>, v: nat)
    requires v < |AllVpcs(found)|
    ensures HasRegion(Transformed(found).atlas.regions, PlaceOfVpc(AllVpcs(found)[v]).Id())
  {
    var p := PlaceOfVpc(AllVpcs(found)[v]);
    assert Places(found)[v] == p;
    RegionIff(Places(found), p.Id());
  }

  lemma RegionalRegion(found: seq<Account>, k: nat)
    requires k < |AllRegionals(found)|
    ensures HasRegion(Transformed(found).atlas.regions, PlaceOfRegional(AllRegionals(found)[k]).Id())
  {
    var p := PlaceOfRegional(AllRegionals(found)[k]);
    assert Places(found)[|AllVpcs(found)| + k] == p;
    RegionIff(Places(found), p.Id());
  }

  ghost predicate HasVpc(r: Result, id: string) { exists i :: 0 <= i < |r.vpcs| && r.vpcs[i].id == id }

  ghost predicate HasSubnet(r: Result, id: string) { exists i :: 0 <= i < |r.subnets| && r.subnets[i].id == id }

  lemma VpcReferences(found: seq<Account>, i: nat)
    requires i < |Transformed(found).vpcs|
    ensures HasRegion(Transformed(found).atlas.regions, Transformed(found).vpcs[i].regionId)
  {
    VpcRegion(found, i);
  }

  lemma SubnetReferences(found: seq<Account>, i: nat)
    requires i < |Transformed(found).subnets|
    ensures HasVpc(Transformed(found), Transformed(found).subnets[i].vpcId)
  {
    var m, n := InFlatMap(AllVpcs(found), SubnetsOf, i);
    assert Transformed(found).vpcs[m].id == Transformed(found).subnets[i].vpcId;
  }

  /** A resource node's region and every subnet it lists are emitted. */
  lemma NodeReferences(found: seq<Account>, i: nat)
    requires i < |VpcNodes(found)|
    ensures HasRegion(Transformed(found).atlas.regions, VpcNodes(found)[i].regionId)
    ensures forall s :: s in SubnetIdsOf(VpcNodes(found)[i]) ==> HasSubnet(Transformed(found), s)
    ensures SubnetIdsOf(VpcNodes(found)[i]) != []
  {
    var row, sightings := VpcNodes(found)[i], AllSightings(AllSubnets(AllVpcs(found)));
    NodesListTheirSubnets(found);
    assert NodeOk(row, sightings);
    var k :| ShowsFirst(row, sightings, k);
    var v, s := SightingOrigin(found, k);
    VpcRegion(found, v);
    assert Holds(sightings, row.id, sightings[k].subnetId);
    forall x | x in SubnetIdsOf(row) ensures HasSubnet(Transformed(found), x) {
      var h :| 0 <= h < |sightings| && sightings[h].resource.id == row.id && sightings[h].subnetId == x;
      var w, t := SightingOrigin(found, h);
      assert Transformed(found).subnets[t].id == x;
    }
  }

  /** The regional nodes come last, and their regions are emitted. */
  lemma RegionalReferences(found: seq<Account>, k: nat)
    requires k < |AllRegionals(found)|
    ensures var r := Transformed(found);
      var row := r.nodes[|r.nodes| - |AllRegionals(found)| + k];
      row == RegionalNodeOf(AllRegionals(found)[k]) && HasRegion(r.atlas.regions, row.regionId)
  {
    RegionalRegion(found, k);
  }

  // ---------------------------------------------------------------- EKS: references that need a place

  predicate NoDash(s: string) { forall i :: 0 <= i < |s| ==> s[i] != '-' }

  lemma RegionIdSplits(a: string, r: string, b: string, q: string)
    requires RegionId(a, r) == RegionId(b, q) && NoDash(a) && NoDash(b)
    ensures a == b && r == q
  {
    var k := RegionId(a, r);
    assert forall i :: 0 <= i < |a| ==> k[3 + i] == a[i];
    assert forall i :: 0 <= i < |b| ==> k[3 + i] == b[i];
    assert k[3 + |a|] == '-' && k[3 + |b|] == '-';
    assert |a| == |b|;
    assert k[3..3 + |a|] == a && k[3..3 + |b|] == b && k[4 + |a|..] == r && k[4 + |b|..] == q;
  }

  predicate DigitsOnly(found: seq<Account>) { forall i :: 0 <= i < |found| ==> NoDash(found[i].id) }

  /** Something was found in this region of this account. */
  ghost predicate IsPlace(found: seq<Account>, p: Place) { p in Places(found) }

  lemma PlaceAccount(found: seq<Account>, i: nat)
    requires DigitsOnly(found) && i < |Places(found)|
    ensures NoDash(Places(found)[i].account)
  {
    if i < |AllVpcs(found)| {
      var m, n := InFlatMap(found, VpcsOf, i);
    } else {
      var m, n := InFlatMap(found, RegionalsOf, i - |AllVpcs(found)|);
    }
  }

  /** EKS rows make no region row themselves: the region of a workload resolves exactly when a VPC or
      a regional resource was found there.  AWS account ids are digits. */
  lemma EksRegionIff(found: seq<Account>, k: nat)
    requires DigitsOnly(found) && k < |AllWorkloads(found)|
    ensures var w := AllWorkloads(found)[k];
      HasRegion(Transformed(found).atlas.regions, RegionId(w.account, w.workload.region)) <==>
        IsPlace(found, Place(w.account, w.workload.region))
  {
    var w := AllWorkloads(found)[k];
    var m, n := InFlatMap(found, WorkloadsOf, k);
    var id, places := RegionId(w.account, w.workload.region), Places(found);
    RegionIff(places, id);
    if i :| 0 <= i < |places| && places[i].Id() == id {
      PlaceAccount(found, i);
      RegionIdSplits(places[i].account, places[i].region, w.account, w.workload.region);
    }
  }

  /** Every EKS node carries the region id and the subnets of its workload. */
  lemma EksRowsName(found: seq<Account>, k: nat) returns (w: nat)
    requires k < |EksNodes(AllWorkloads(found))|
    ensures w < |AllWorkloads(found)|
    ensures var at := AllWorkloads(found)[w];
      && EksNodes(AllWorkloads(found))[k].regionId == RegionId(at.account, at.workload.region)
      && SubnetIdsOf(EksNodes(AllWorkloads(found))[k]) == at.workload.subnetIds
  {
    var pods := FlatMap(AllWorkloads(found), PodsOf);
    var i, j := InFlatMap(pods, EksNodesOf, k);
    var m, n := InFlatMap(AllWorkloads(found), PodsOf, i);
    w := m;
  }

  // ---------------------------------------------------------------- clusters

  ghost predicate DistinctArns(rows: seq<ClusterRow>) {
    forall i, j :: 0 <= i < j < |rows| ==> rows[i].arn != rows[j].arn
  }

  /** EKS clusters: one for every ARN that is not empty, that of the first workload with it. */
  ghost predicate EksOk(rows: seq<ClusterRow>, workloads: seq<WorkloadAt>) {
    && DistinctArns(rows)
    && (forall i :: 0 <= i < |rows| ==> rows[i].arn != "" && exists k :: IsFirstOf(rows[i], workloads, k))
    && (forall k | 0 <= k < |workloads| && workloads[k].workload.arn != "" ::
          HasCluster(rows, workloads[k].workload.arn))
  }

  ghost predicate IsFirstOf(row: ClusterRow, workloads: seq<WorkloadAt>, k: int) {
    && 0 <= k < |workloads| && row == EksClusterOf(workloads[k])
    && forall i :: 0 <= i < k ==> workloads[i].workload.arn != row.arn
  }

  lemma ClusterStays(rows: seq<ClusterRow>, w: WorkloadAt, arn: string)
    requires HasCluster(rows, arn) || (arn != "" && arn == w.workload.arn)
    ensures HasCluster(PutWorkload(rows, w), arn)
  {
    var after := PutWorkload(rows, w);
    if HasCluster(rows, arn) {
      var i :| 0 <= i < |rows| && rows[i].arn == arn;
      assert after[i].arn == arn;
    } else {
      assert after[|rows|].arn == arn;
    }
  }

  lemma PutWorkloadOk(rows: seq<ClusterRow>, workloads: seq<WorkloadAt>, w: WorkloadAt, after: seq<ClusterRow>,
                      all: seq<WorkloadAt>)
    requires EksOk(rows, workloads) && after == PutWorkload(rows, w) && all == workloads + [w]
    ensures EksOk(after, all)
  {
    assert forall i :: 0 <= i < |workloads| ==> all[i] == workloads[i];
    assert !HasCluster(rows, w.workload.arn) ==> forall i :: 0 <= i < |rows| ==> rows[i].arn != w.workload.arn;
    forall i | 0 <= i < |after| ensures after[i].arn != "" && exists k :: IsFirstOf(after[i], all, k) {
      if i < |rows| {
        var k :| IsFirstOf(rows[i], workloads, k);
        assert IsFirstOf(after[i], all, k);
      } else {
        assert IsFirstOf(after[i], all, |workloads|);
      }
    }
    forall k | 0 <= k < |all| && all[k].workload.arn != "" ensures HasCluster(after, all[k].workload.arn) {
      if k < |workloads| { assert HasCluster(rows, workloads[k].workload.arn); }
      ClusterStays(rows, w, all[k].workload.arn);
    }
  }

  lemma {:induction false} EksClustersOk(workloads: seq<WorkloadAt>)
    ensures EksOk(PutWorkloads([], workloads), workloads)
    decreases |workloads|
  {
    if workloads != [] {
      var before, last := workloads[..|workloads| - 1], workloads[|workloads| - 1];
      EksClustersOk(before);
      PutWorkloadOk(PutWorkloads([], before), before, last, PutWorkloads([], workloads), workloads);
    }
  }

  /** A service of the cluster runs in the subnet. */
  ghost predicate Serves(nodes: seq<NodeRow>, arn: string, subnetId: string) {
    exists k :: 0 <= k < |nodes| && IsEcs(nodes[k]) && nodes[k].settings.clusterArn == arn
      && subnetId in SubnetIdsOf(nodes[k])
  }

  /** ECS clusters: unique, and each with exactly the subnets of its services, no subnet twice. */
  ghost predicate EcsOk(rows: seq<ClusterRow>, nodes: seq<NodeRow>, vpcOf: map<string, string>) {
    && DistinctArns(rows)
    && (forall i :: 0 <= i < |rows| ==> EcsRowOk(rows[i], nodes, vpcOf))
    && (forall k | 0 <= k < |nodes| && IsEcs(nodes[k]) ::
          IndexOf(rows, ClusterArn, nodes[k].settings.clusterArn) < |rows|)
  }

  ghost predicate EcsRowOk(row: ClusterRow, nodes: seq<NodeRow>, vpcOf: map<string, string>) {
    && NoDuplicates(row.subnetIds) && (forall s :: s in row.subnetIds <==> Serves(nodes, row.arn, s))
    && exists k :: StartedBy(row, nodes, k, vpcOf)
  }

  /** Node k is the first service of the cluster; it gives the cluster its region and VPC. */
  ghost predicate StartedBy(row: ClusterRow, nodes: seq<NodeRow>, k: int, vpcOf: map<string, string>) {
    && 0 <= k < |nodes| && IsEcs(nodes[k]) && nodes[k].settings.clusterArn == row.arn
    && row.regionId == nodes[k].regionId && row.region == nodes[k].region && row.vpcId == VpcOfNode(nodes[k], vpcOf)
    && forall i :: 0 <= i < k ==> !(IsEcs(nodes[i]) && nodes[i].settings.clusterArn == row.arn)
  }

  lemma StartKept(row: ClusterRow, nodes: seq<NodeRow>, n: NodeRow, vpcOf: map<string, string>, ids: seq<string>)
    requires exists k :: StartedBy(row, nodes, k, vpcOf)
    ensures exists k :: StartedBy(row.(subnetIds := ids), nodes + [n], k, vpcOf)
  {
    var k :| StartedBy(row, nodes, k, vpcOf);
    var all := nodes + [n];
    assert forall i :: 0 <= i < |nodes| ==> all[i] == nodes[i];
    assert StartedBy(row.(subnetIds := ids), all, k, vpcOf);
  }

  lemma ServesAppend(nodes: seq<NodeRow>, n: NodeRow, arn: string, s: string)
    ensures Serves(nodes + [n], arn, s) <==>
      Serves(nodes, arn, s) || (IsEcs(n) && n.settings.clusterArn == arn && s in SubnetIdsOf(n))
  {
    var all := nodes + [n];
    if k :| 0 <= k < |nodes| && IsEcs(nodes[k]) && nodes[k].settings.clusterArn == arn && s in SubnetIdsOf(nodes[k]) {
      assert all[k] == nodes[k];
    }
    assert all[|nodes|] == n;
  }

  lemma {:induction false} AppendAllIsUnion(ids: seq<string>, more: seq<string>)
    requires NoDuplicates(ids)
    ensures NoDuplicates(AppendAllAbsent(ids, more))
    ensures forall s :: s in AppendAllAbsent(ids, more) <==> s in ids || s in more
    decreases |more|
  {
    if more != [] {
      AppendAllIsUnion(ids, more[..|more| - 1]);
      assert more == more[..|more| - 1] + [more[|more| - 1]];
    }
  }

  lemma OtherRowOk(row: ClusterRow, nodes: seq<NodeRow>, n: NodeRow, vpcOf: map<string, string>)
    requires EcsRowOk(row, nodes, vpcOf) && (!IsEcs(n) || row.arn != n.settings.clusterArn)
    ensures EcsRowOk(row, nodes + [n], vpcOf)
  {
    StartKept(row, nodes, n, vpcOf, row.subnetIds);
    assert row == row.(subnetIds := row.subnetIds);
    forall s ensures s in row.subnetIds <==> Serves(nodes + [n], row.arn, s) { ServesAppend(nodes, n, row.arn, s); }
  }

  lemma MergedRowOk(row: ClusterRow, nodes: seq<NodeRow>, n: NodeRow, vpcOf: map<string, string>)
    requires EcsRowOk(row, nodes, vpcOf) && IsEcs(n) && row.arn == n.settings.clusterArn
    ensures EcsRowOk(row.(subnetIds := AppendAllAbsent(row.subnetIds, SubnetIdsOf(n))), nodes + [n], vpcOf)
  {
    StartKept(row, nodes, n, vpcOf, AppendAllAbsent(row.subnetIds, SubnetIdsOf(n)));
    AppendAllIsUnion(row.subnetIds, SubnetIdsOf(n));
    forall s ensures Serves(nodes + [n], row.arn, s) <==> s in row.subnetIds || s in SubnetIdsOf(n) {
      ServesAppend(nodes, n, row.arn, s);
    }
  }

  /** A cluster seen for the first time. */
  lemma NewRowOk(row: ClusterRow, nodes: seq<NodeRow>, n: NodeRow, vpcOf: map<string, string>)
    requires IsEcs(n) && NoDuplicates(SubnetIdsOf(n)) && row.subnetIds == SubnetIdsOf(n)
    requires row.arn == n.settings.clusterArn && row.regionId == n.regionId && row.region == n.region
    requires row.vpcId == VpcOfNode(n, vpcOf)
    requires forall k :: 0 <= k < |nodes| && IsEcs(nodes[k]) ==> nodes[k].settings.clusterArn != row.arn
    ensures EcsRowOk(row, nodes + [n], vpcOf)
  {
    forall s ensures s in row.subnetIds <==> Serves(nodes + [n], row.arn, s) { ServesAppend(nodes, n, row.arn, s); }
    assert StartedBy(row, nodes + [n], |nodes|, vpcOf);
  }

  lemma PutServiceRows(rows: seq<ClusterRow>, nodes: seq<NodeRow>, n: NodeRow, vpcOf: map<string, string>, i: nat)
    requires EcsOk(rows, nodes, vpcOf) && (IsEcs(n) ==> NoDuplicates(SubnetIdsOf(n)))
    requires i < |PutService(rows, n, vpcOf)|
    ensures EcsRowOk(PutService(rows, n, vpcOf)[i], nodes + [n], vpcOf)
  {
    var at := IndexOf(rows, ClusterArn, n.settings.clusterArn);
    if i < |rows| && (!IsEcs(n) || i != at) {
      OtherRowOk(rows[i], nodes, n, vpcOf);
    } else if i < |rows| {
      MergedRowOk(rows[i], nodes, n, vpcOf);
    } else {
      NewRowOk(PutService(rows, n, vpcOf)[i], nodes, n, vpcOf);
    }
  }

  lemma PutServiceOk(rows: seq<ClusterRow>, nodes: seq<NodeRow>, n: NodeRow, vpcOf: map<string, string>,
                     after: seq<ClusterRow>, all: seq<NodeRow>)
    requires EcsOk(rows, nodes, vpcOf) && (IsEcs(n) ==> NoDuplicates(SubnetIdsOf(n)))
    requires after == PutService(rows, n, vpcOf) && all == nodes + [n]
    ensures EcsOk(after, all, vpcOf)
  {
    var at := IndexOf(rows, ClusterArn, n.settings.clusterArn);
    forall i | 0 <= i < |after| ensures EcsRowOk(after[i], all, vpcOf) { PutServiceRows(rows, nodes, n, vpcOf, i); }
    forall k | 0 <= k < |all| && IsEcs(all[k])
      ensures IndexOf(after, ClusterArn, all[k].settings.clusterArn) < |after|
    {
      if k < |nodes| {
        assert all[k] == nodes[k];
        var j := IndexOf(rows, ClusterArn, nodes[k].settings.clusterArn);
        assert after[j].arn == rows[j].arn;
      } else if at < |rows| {
        assert after[at].arn == rows[at].arn;
      } else {
        assert after[|rows|].arn == n.settings.clusterArn;
      }
    }
  }

  lemma {:induction false} PutServicesOk(nodes: seq<NodeRow>, vpcOf: map<string, string>)
    requires forall i :: 0 <= i < |nodes| && IsEcs(nodes[i]) ==> NoDuplicates(SubnetIdsOf(nodes[i]))
    ensures EcsOk(PutServices([], nodes, vpcOf), nodes, vpcOf)
    decreases |nodes|
  {
    if nodes != [] {
      var before, last := nodes[..|nodes| - 1], nodes[|nodes| - 1];
      PutServicesOk(before, vpcOf);
      PutServiceOk(PutServices([], before, vpcOf), before, last, vpcOf, PutServices([], nodes, vpcOf), nodes);
    }
  }

  /** Both cluster tables. */
  lemma ClustersInNormalForm(found: seq<Account>)
    ensures EksOk(Transformed(found).eksClusters, AllWorkloads(found))
    ensures EcsOk(Transformed(found).ecsClusters, VpcNodes(found) + EksNodes(AllWorkloads(found)),
                  VpcOfSubnet(Transformed(found).subnets))
  {
    EksClustersOk(AllWorkloads(found));
    var nodes := VpcNodes(found) + EksNodes(AllWorkloads(found));
    NodesListTheirSubnets(found);
    forall i | 0 <= i < |nodes| && IsEcs(nodes[i]) ensures NoDuplicates(SubnetIdsOf(nodes[i])) {
      if i < |VpcNodes(found)| {
        assert NodeOk(nodes[i], AllSightings(AllSubnets(AllVpcs(found))));
      } else {
        var j, k := InFlatMap(FlatMap(AllWorkloads(found), PodsOf), EksNodesOf, i - |VpcNodes(found)|);
      }
    }
    PutServicesOk(nodes, VpcOfSubnet(Map(AllSubnets(AllVpcs(found)), SubnetRowOf)));
  }

  lemma {:induction false} VpcOfIsRow(subnets: seq<SubnetRow>, id: string)
    ensures id in VpcOfSubnet(subnets)
           ==> exists i :: 0 <= i < |subnets| && subnets[i].vpcId == VpcOfSubnet(subnets)[id]
    ensures (exists i :: 0 <= i < |subnets| && subnets[i].id == id) ==> id in VpcOfSubnet(subnets)
    decreases |subnets|
  {
    if subnets != [] {
      var before := subnets[..|subnets| - 1];
      VpcOfIsRow(before, id);
      if i :| 0 <= i < |before| && id in VpcOfSubnet(before) && before[i].vpcId == VpcOfSubnet(before)[id] {
        assert subnets[i].vpcId == before[i].vpcId;
      }
      if i :| 0 <= i < |subnets| && subnets[i].id == id && i < |before| { assert before[i].id == id; }
    }
  }

  lemma EcsNodeIsVpcNode(found: seq<Account>, k: nat)
    requires var nodes := VpcNodes(found) + EksNodes(AllWorkloads(found)); k < |nodes| && IsEcs(nodes[k])
    ensures k < |VpcNodes(found)|
  {
    if k >= |VpcNodes(found)| {
      var i, j := InFlatMap(FlatMap(AllWorkloads(found), PodsOf), EksNodesOf, k - |VpcNodes(found)|);
    }
  }

  /** An ECS cluster's region, its VPC and all its subnets are emitted. */
  lemma EcsReferences(found: seq<Account>, i: nat)
    requires i < |Transformed(found).ecsClusters|
    ensures var r, row := Transformed(found), Transformed(found).ecsClusters[i];
      && HasRegion(r.atlas.regions, row.regionId) && HasVpc(r, row.vpcId)
      && forall s :: s in row.subnetIds ==> HasSubnet(r, s)
  {
    var r, row := Transformed(found), Transformed(found).ecsClusters[i];
    var nodes := VpcNodes(found) + EksNodes(AllWorkloads(found));
    ClustersInNormalForm(found);
    assert EcsRowOk(row, nodes, VpcOfSubnet(r.subnets));
    var k :| StartedBy(row, nodes, k, VpcOfSubnet(r.subnets));
    EcsNodeIsVpcNode(found, k);
    NodeReferences(found, k);
    FirstSubnetVpc(found, nodes[k]);
    forall s | s in row.subnetIds ensures HasSubnet(r, s) {
      var h :| 0 <= h < |nodes| && IsEcs(nodes[h]) && nodes[h].settings.clusterArn == row.arn
               && s in SubnetIdsOf(nodes[h]);
      EcsNodeIsVpcNode(found, h);
      NodeReferences(found, h);
    }
  }

  lemma FirstSubnetVpc(found: seq<Account>, n: NodeRow)
    requires SubnetIdsOf(n) != [] && forall s :: s in SubnetIdsOf(n) ==> HasSubnet(Transformed(found), s)
    ensures HasVpc(Transformed(found), VpcOfNode(n, VpcOfSubnet(Transformed(found).subnets)))
  {
    var subnets, id := Transformed(found).subnets, SubnetIdsOf(n)[0];
    assert HasSubnet(Transformed(found), id);
    VpcOfIsRow(subnets, id);
    var j :| 0 <= j < |subnets| && subnets[j].vpcId == VpcOfSubnet(subnets)[id];
    SubnetReferences(found, j);
  }

  // ---------------------------------------------------------------- EKS: references that need a VPC or a subnet

  lemma {:induction false} IntoFlatMap<T, U>(s: seq<T>, f: T -> seq<U>, i: nat, j: nat) returns (k: nat)
    requires i < |s| && j < |f(s[i])|
    ensures k < |FlatMap(s, f)| && FlatMap(s, f)[k] == f(s[i])[j]
    decreases |s|
  {
    if i == |s| - 1 { k := |FlatMap(s[..i], f)| + j; } else { k := IntoFlatMap(s[..|s| - 1], f, i, j); }
  }

  ghost predicate FoundVpc(found: seq<Account>, id: string) {
    exists a: nat, v: nat :: a < |found| && v < |found[a].vpcs| && found[a].vpcs[v].id == id
  }

  ghost predicate InVpc(vpc: Vpc, id: string) {
    || (exists s: nat :: s < |vpc.open| && vpc.open[s].id == id)
    || (exists s: nat :: s < |vpc.closed| && vpc.closed[s].id == id)
  }

  ghost predicate FoundSubnet(found: seq<Account>, id: string) {
    exists a: nat, v: nat :: a < |found| && v < |found[a].vpcs| && InVpc(found[a].vpcs[v], id)
  }

  /** The VPC rows are the VPCs found. */
  lemma VpcIff(found: seq<Account>, id: string)
    ensures HasVpc(Transformed(found), id) <==> FoundVpc(found, id)
  {
    if i :| 0 <= i < |Transformed(found).vpcs| && Transformed(found).vpcs[i].id == id {
      var m, n := InFlatMap(found, VpcsOf, i);
      assert found[m].vpcs[n].id == id;
    }
    if a: nat, v: nat :| a < |found| && v < |found[a].vpcs| && found[a].vpcs[v].id == id {
      var k := IntoFlatMap(found, VpcsOf, a, v);
      assert Transformed(found).vpcs[k].id == id;
    }
  }

  lemma SubnetInVpc(v: VpcAt, j: nat)
    requires j < |SubnetsOf(v)|
    ensures InVpc(v.vpc, SubnetsOf(v)[j].subnet.id)
  {
    var n := |v.vpc.open|;
    if j < n {
      assert v.vpc.open[j] == SubnetsOf(v)[j].subnet;
    } else {
      assert v.vpc.closed[j - n] == SubnetsOf(v)[j].subnet;
    }
  }

  lemma VpcHasSubnet(v: VpcAt, id: string) returns (j: nat)
    requires InVpc(v.vpc, id)
    ensures j < |SubnetsOf(v)| && SubnetsOf(v)[j].subnet.id == id
  {
    if s: nat :| s < |v.vpc.open| && v.vpc.open[s].id == id {
      j := s;
    } else {
      var s: nat :| s < |v.vpc.closed| && v.vpc.closed[s].id == id;
      j := |v.vpc.open| + s;
    }
  }

  /** The subnet rows are the subnets of the VPCs found. */
  lemma SubnetIff(found: seq<Account>, id: string)
    ensures HasSubnet(Transformed(found), id) <==> FoundSubnet(found, id)
  {
    if i :| 0 <= i < |Transformed(found).subnets| && Transformed(found).subnets[i].id == id {
      var v, j := InFlatMap(AllVpcs(found), SubnetsOf, i);
      SubnetInVpc(AllVpcs(found)[v], j);
      var m, n := InFlatMap(found, VpcsOf, v);
      assert InVpc(found[m].vpcs[n], id);
    }
    if a: nat, v: nat :| a < |found| && v < |found[a].vpcs| && InVpc(found[a].vpcs[v], id) {
      var at := IntoFlatMap(found, VpcsOf, a, v);
      var j := VpcHasSubnet(AllVpcs(found)[at], id);
      var k := IntoFlatMap(AllVpcs(found), SubnetsOf, at, j);
      assert Transformed(found).subnets[k].id == id;
    }
  }

  /** A cluster row's region, VPC and subnets are all emitted. */
  ghost predicate ClusterResolves(r: Result, row: ClusterRow) {
    && HasRegion(r.atlas.regions, row.regionId) && HasVpc(r, row.vpcId)
    && forall s :: s in row.subnetIds ==> HasSubnet(r, s)
  }

  /** What a workload names was found. */
  ghost predicate WorkloadFound(found: seq<Account>, w: WorkloadAt) {
    && IsPlace(found, Place(w.account, w.workload.region)) && FoundVpc(found, w.workload.vpcId)
    && forall s :: s in w.workload.subnetIds ==> FoundSubnet(found, s)
  }

  lemma SubnetsIff(found: seq<Account>, ids: seq<string>)
    ensures (forall s :: s in ids ==> HasSubnet(Transformed(found), s))
          <==> (forall s :: s in ids ==> FoundSubnet(found, s))
  {
    forall s | s in ids ensures HasSubnet(Transformed(found), s) <==> FoundSubnet(found, s) { SubnetIff(found, s); }
  }

  lemma WorkloadIff(found: seq<Account>, k: nat, r: Result)
    requires DigitsOnly(found) && k < |AllWorkloads(found)| && r == Transformed(found)
    ensures ClusterResolves(r, EksClusterOf(AllWorkloads(found)[k])) <==> WorkloadFound(found, AllWorkloads(found)[k])
  {
    var w := AllWorkloads(found)[k];
    EksRegionIff(found, k);
    VpcIff(found, w.workload.vpcId);
    SubnetsIff(found, w.workload.subnetIds);
  }

  /** The workload that makes the row of its cluster. */
  ghost predicate MakesRow(workloads: seq<WorkloadAt>, k: nat) {
    && k < |workloads| && workloads[k].workload.arn != ""
    && forall i :: 0 <= i < k ==> workloads[i].workload.arn != workloads[k].workload.arn
  }

  lemma RowOfMaker(rows: seq<ClusterRow>, workloads: seq<WorkloadAt>, k: nat) returns (i: nat)
    requires EksOk(rows, workloads) && MakesRow(workloads, k)
    ensures i < |rows| && rows[i] == EksClusterOf(workloads[k])
  {
    assert HasCluster(rows, workloads[k].workload.arn);
    i :| 0 <= i < |rows| && rows[i].arn == workloads[k].workload.arn;
    var j :| IsFirstOf(rows[i], workloads, j);
    assert j == k;
  }

  /** Every reference of every EKS cluster resolves, if and only if of each cluster the first workload
      names a region, a VPC and subnets in which something was found. */
  lemma EksClustersResolveIff(found: seq<Account>, r: Result)
    requires DigitsOnly(found) && r == Transformed(found)
    ensures (forall i :: 0 <= i < |r.eksClusters| ==> ClusterResolves(r, r.eksClusters[i]))
       <==> (forall k: nat :: MakesRow(AllWorkloads(found), k) ==> WorkloadFound(found, AllWorkloads(found)[k]))
  {
    var workloads := AllWorkloads(found);
    EksClustersOk(workloads);
    if forall i :: 0 <= i < |r.eksClusters| ==> ClusterResolves(r, r.eksClusters[i]) {
      forall k: nat | MakesRow(workloads, k) ensures WorkloadFound(found, workloads[k]) {
        var i := RowOfMaker(r.eksClusters, workloads, k);
        WorkloadIff(found, k, r);
      }
    }
    if forall k: nat :: MakesRow(workloads, k) ==> WorkloadFound(found, workloads[k]) {
      forall i | 0 <= i < |r.eksClusters| ensures ClusterResolves(r, r.eksClusters[i]) {
        var k :| IsFirstOf(r.eksClusters[i], workloads, k);
        assert MakesRow(workloads, k);
        WorkloadIff(found, k, r);
      }
    }
  }

  /** The region and the subnets of an EKS node resolve, if and only if its workload names a region
      and subnets in which something was found. */
  lemma EksNodeResolvesIff(found: seq<Account>, k: nat, r: Result, row: NodeRow) returns (w: nat)
    requires DigitsOnly(found) && r == Transformed(found)
    requires k < |EksNodes(AllWorkloads(found))| && row == EksNodes(AllWorkloads(found))[k]
    ensures w < |AllWorkloads(found)|
    ensures var at := AllWorkloads(found)[w];
      HasRegion(r.atlas.regions, row.regionId) && (forall s :: s in SubnetIdsOf(row) ==> HasSubnet(r, s))
      <==> IsPlace(found, Place(at.account, at.workload.region))
           && forall s :: s in at.workload.subnetIds ==> FoundSubnet(found, s)
  {
    w := EksRowsName(found, k);
    EksRegionIff(found, w);
    SubnetsIff(found, AllWorkloads(found)[w].workload.subnetIds);
  }

  /** A VPC in the region of a cluster, but not the cluster's own: its row's VPC is not emitted. */
  lemma EksVpcDangles(vpc: Vpc, w: Workload, found: seq<Account>)
    requires found == [Account("1", [vpc], [], [w])] && w.arn != "" && w.region == vpc.region && w.vpcId != vpc.id
    ensures Transformed(found).eksClusters != []
    ensures var r := Transformed(found);
      HasRegion(r.atlas.regions, r.eksClusters[0].regionId) && !HasVpc(r, r.eksClusters[0].vpcId)
  {
    OneOfEach(found, vpc, w);
    EksClustersOk(AllWorkloads(found));
    var i := RowOfMaker(Transformed(found).eksClusters, AllWorkloads(found), 0);
    var j :| IsFirstOf(Transformed(found).eksClusters[0], AllWorkloads(found), j);
    VpcRegion(found, 0);
    OnlyVpc(found, vpc, w, w.vpcId);
    VpcIff(found, w.vpcId);
  }

  lemma OnlyVpc(found: seq<Account>, vpc: Vpc, w: Workload, id: string)
    requires found == [Account("1", [vpc], [], [w])] && id != vpc.id
    ensures !FoundVpc(found, id)
  {
    assert found[0].vpcs == [vpc];
  }

  lemma OneOfEach(found: seq<Account>, vpc: Vpc, w: Workload)
    requires found == [Account("1", [vpc], [], [w])]
    ensures AllWorkloads(found) == [WorkloadAt("1", w)] && AllVpcs(found) == [VpcAt("1", vpc)]
  {
    FlatMapOne(found, WorkloadsOf);
    FlatMapOne(found, VpcsOf);
    assert WorkloadsOf(found[0]) == [WorkloadAt("1", w)] && VpcsOf(found[0]) == [VpcAt("1", vpc)];
  }

  lemma FlatMapOne<T, U>(s: seq<T>, f: T -> seq<U>)
    requires |s| == 1
    ensures FlatMap(s, f) == f(s[0])
  {
    assert FlatMap(s[..0], f) == [];
  }

  /** An EKS node's id names cluster, namespace and deployment, but no account: two accounts with the
      like give two nodes with one id. */
  lemma TwinEksNodes(found: seq<Account>, a: string, b: string, w: Workload, p: Pods)
    requires found == [Account(a, [], [], [w]), Account(b, [], [], [w])]
    requires w.deployments == [p] && w.daemonsets == [] && p.namespace !in EKS_SYSTEM_NAMESPACES
    ensures var nodes := EksNodes(AllWorkloads(found)); |nodes| == 2 && nodes[0].id == nodes[1].id
  {
    FlatMapTwo(found, WorkloadsOf);
    assert WorkloadsOf(found[0]) + WorkloadsOf(found[1]) == [WorkloadAt(a, w), WorkloadAt(b, w)];
    OnePodEach([WorkloadAt(a, w), WorkloadAt(b, w)], p);
  }

  lemma OnePodEach(workloads: seq<WorkloadAt>, p: Pods)
    requires |workloads| == 2 && p.namespace !in EKS_SYSTEM_NAMESPACES
    requires forall w :: w in workloads ==> w.workload.deployments == [p] && w.workload.daemonsets == []
    ensures EksNodes(workloads)
         == [EksNodeOf(PodsAt(workloads[0], p, false)), EksNodeOf(PodsAt(workloads[1], p, false))]
  {
    var pods := [PodsAt(workloads[0], p, false), PodsAt(workloads[1], p, false)];
    FlatMapTwo(workloads, PodsOf);
    assert PodsOf(workloads[0]) == [pods[0]] && PodsOf(workloads[1]) == [pods[1]];
    assert FlatMap(workloads, PodsOf) == pods;
    FlatMapTwo(pods, EksNodesOf);
  }

  lemma FlatMapTwo<T, U>(s: seq<T>, f: T -> seq<U>)
    requires |s| == 2
    ensures FlatMap(s, f) == f(s[0]) + f(s[1])
  {
    assert s[..1][..0] == [];
    FlatMapOne(s[..1], f);
  }
}
