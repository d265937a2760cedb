/**
  The rows of the canvas tables read off the discovery result alone: what each row shows, where it
  stands, and which VPC an ECS cluster is given.
*/
module CanvasColumns {
  import opened Wrappers
  import opened PyText
  import opened PyTextTheorems
  import opened Sequences
  import opened Canvas
  import opened CanvasTheorems

  // ---------------------------------------------------------------- geos, accounts and regions

  /** The area a region code belongs to, by name. */
  function AreaNameOf(region: string): string { AreaName(AreaOf(region)) }

  /** The id of an area is its name in small letters with dashes for blanks, behind "geo-". */
  lemma SlugLetters(name: string)
    ensures |Slug(name)| == |name| + 4 && Slug(name)[..4] == "geo-"
    ensures forall i :: 0 <= i < |name| ==>
      Slug(name)[4 + i] == (if name[i] == ' ' then '-'
                            else if 'A' <= name[i] <= 'Z' then LOWER[name[i] as int - 'A' as int] else name[i])
  {
    LowerLetters(name);
    ReplaceLetters(Lower(name), ' ', '-');
  }

  /** The regions of every area; a code the table does not know is elsewhere. */
  lemma RegionsByArea(region: string)
    ensures AreaNameOf(region) ==
      if region in {"us-east-1", "us-east-2", "us-west-1", "us-west-2", "ca-central-1"} then "North America"
      else if region == "sa-east-1" then "South America"
      else if region in {"eu-west-1", "eu-west-2", "eu-west-3", "eu-central-1", "eu-north-1"} then "Europe"
      else if region in {"ap-south-1", "ap-south-2"} then "India"
      else if region in {"ap-northeast-1", "ap-northeast-2", "ap-northeast-3"} then "East Asia"
      else if region == "ap-southeast-1" then "Southeast Asia"
      else if region == "ap-southeast-2" then "Australia"
      else if region in {"me-south-1", "me-central-1"} then "Middle East"
      else if region == "af-south-1" then "Africa"
      else "Other"
  {
  }

  /** The i-th geo row shows the area of some place found and stands 600 to the right of the one before. */
  ghost predicate GeoShown(places: seq<Place>, i: int, row: GeoRow) {
    && row.x == 600 * i
    && exists k :: 0 <= k < |places| && row.name == AreaNameOf(places[k].region) && row.id == Slug(row.name)
  }

  ghost predicate AccountShown(places: seq<Place>, i: int, row: AccountRow) {
    && row.y == 48 + 300 * i
    && exists k :: 0 <= k < |places| && row.accountId == places[k].account
                   && row.geoId == Slug(AreaNameOf(places[k].region))
                   && row.id == "account-" + row.accountId + "-" + row.geoId
  }

  ghost predicate RegionShown(places: seq<Place>, row: RegionRow) {
    exists k :: 0 <= k < |places| && row.name == places[k].region
                && row.id == "cr-" + places[k].account + "-" + row.name
                && row.accountId == "account-" + places[k].account + "-" + Slug(AreaNameOf(row.name))
  }

  ghost predicate AtlasShown(t: Atlas, places: seq<Place>) {
    && (forall i :: 0 <= i < |t.geos| ==> GeoShown(places, i, t.geos[i]))
    && (forall i :: 0 <= i < |t.accounts| ==> AccountShown(places, i, t.accounts[i]))
    && (forall i :: 0 <= i < |t.regions| ==> RegionShown(places, t.regions[i]))
  }

  lemma ShownStays(places: seq<Place>, p: Place, all: seq<Place>)
    requires all == places + [p]
    ensures forall i, row :: GeoShown(places, i, row) ==> GeoShown(all, i, row)
    ensures forall i, row :: AccountShown(places, i, row) ==> AccountShown(all, i, row)
    ensures forall row :: RegionShown(places, row) ==> RegionShown(all, row)
  {
    assert forall k :: 0 <= k < |places| ==> all[k] == places[k];
  }

  lemma NewRowsShown(p: Place, all: seq<Place>, n: nat)
    requires n < |all| && all[n] == p
    ensures forall i: nat :: GeoShown(all, i, GeoRow(p.Geo(), AreaNameOf(p.region), 600 * i))
    ensures forall i: nat :: AccountShown(all, i, AccountRow(p.AccountRowId(), p.account, p.Geo(), 48 + 300 * i))
    ensures RegionShown(all, RegionRow(p.Id(), p.region, p.AccountRowId()))
  {
  }

  lemma PutPlaceShown(t: Atlas, places: seq<Place>, p: Place, after: Atlas, all: seq<Place>)
    requires AtlasShown(t, places) && after == PutPlace(t, p) && all == places + [p]
    ensures AtlasShown(after, all)
  {
    ShownStays(places, p, all);
    NewRowsShown(p, all, |places|);
  }

  lemma {:induction false} PlacesShown(places: seq<Place>)
    ensures AtlasShown(PutPlaces(Atlas([], [], []), places), places)
    decreases |places|
  {
    if places != [] {
      var before, last := places[..|places| - 1], places[|places| - 1];
      PlacesShown(before);
      PutPlaceShown(PutPlaces(Atlas([], [], []), before), before, last, PutPlaces(Atlas([], [], []), places), places);
    }
  }

  /** Every geo, account and region row shows a place something was found in. */
  lemma AtlasRows(found: seq<Account>)
    ensures AtlasShown(Transformed(found).atlas, Places(found))
  {
    PlacesShown(Places(found));
  }

  /** The places are those of the VPCs and of the regional resources. */
  lemma PlaceIff(found: seq<Account>, account: string, region: string)
    ensures Place(account, region) in Places(found) <==>
      exists a :: 0 <= a < |found| && found[a].id == account
        && ((exists v :: 0 <= v < |found[a].vpcs| && found[a].vpcs[v].region == region)
            || (exists r :: 0 <= r < |found[a].regionals| && found[a].regionals[r].region == region))
  {
    var p, n := Place(account, region), |AllVpcs(found)|;
    if p in Places(found) {
      var k :| 0 <= k < |Places(found)| && Places(found)[k] == p;
      if k < n {
        var a, v := InFlatMap(found, VpcsOf, k);
        assert found[a].vpcs[v].region == region;
      } else {
        var a, r := InFlatMap(found, RegionalsOf, k - n);
        assert found[a].regionals[r].region == region;
      }
    }
    if a, v :| 0 <= a < |found| && found[a].id == account
               && 0 <= v < |found[a].vpcs| && found[a].vpcs[v].region == region
    {
      var k := IntoFlatMap(found, VpcsOf, a, v);
      assert Places(found)[k] == p;
    }
    if a, r :| 0 <= a < |found| && found[a].id == account && 0 <= r < |found[a].regionals|
               && found[a].regionals[r].region == region {
      var k := IntoFlatMap(found, RegionalsOf, a, r);
      assert Places(found)[n + k] == p;
    }
  }

  /** Every area something was found in has its row, and every account in that area. */
  lemma {:induction false} PlacesHaveRows(places: seq<Place>, k: nat)
    requires k < |places|
    ensures var t := PutPlaces(Atlas([], [], []), places);
      HasGeo(t.geos, Slug(AreaNameOf(places[k].region))) && HasAccount(t.accounts, places[k].Key())
    decreases |places|
  {
    var before, last := places[..|places| - 1], places[|places| - 1];
    var t := PutPlaces(Atlas([], [], []), before);
    GeoKept(t.geos, last, places[k].Geo());
    AccountKept(t.accounts, last, places[k].Key());
    if k < |places| - 1 { PlacesHaveRows(before, k); }
  }

  lemma AccountKept(rows: seq<AccountRow>, p: Place, key: string)
    ensures HasAccount(rows, key) || key == p.Key() ==> HasAccount(PutAccount(rows, p), key)
  {
    var after := PutAccount(rows, p);
    if i :| 0 <= i < |rows| && AccountKey(rows[i].accountId, rows[i].geoId) == key { assert after[i] == rows[i]; }
    if key == p.Key() && !HasAccount(rows, key) {
      assert AccountKey(after[|rows|].accountId, after[|rows|].geoId) == key;
    }
  }

  // ---------------------------------------------------------------- VPC and subnet rows

  /** The VPCs of the accounts before the a-th. */
  function VpcsBefore(found: seq<Account>, a: nat): nat
    requires a <= |found|
  {
    if a == 0 then 0 else VpcsBefore(found, a - 1) + |found[a - 1].vpcs|
  }

  lemma {:induction false} BlockAt<T, U>(s: seq<T>, f: T -> seq<U>, i: nat, j: nat)
    requires i < |s| && j < |f(s[i])|
    ensures |FlatMap(s[..i], f)| + j < |FlatMap(s, f)| && FlatMap(s, f)[|FlatMap(s[..i], f)| + j] == f(s[i])[j]
    decreases |s|
  {
    if i < |s| - 1 {
      assert s[..|s| - 1][..i] == s[..i];
      BlockAt(s[..|s| - 1], f, i, j);
    }
  }

  lemma {:induction false} VpcCount(found: seq<Account>, a: nat)
    requires a <= |found|
    ensures |AllVpcs(found[..a])| == VpcsBefore(found, a)
  {
    if a > 0 {
      VpcCount(found, a - 1);
      assert found[..a][..a - 1] == found[..a - 1];
    }
  }

  /** The VPC rows, one for each VPC, account by account in the order found. */
  lemma VpcRows(found: seq<Account>, rows: seq<VpcRow>, a: nat, v: nat)
    requires rows == Transformed(found).vpcs && a < |found| && v < |found[a].vpcs|
    ensures var vpc, k := found[a].vpcs[v], VpcsBefore(found, a) + v;
      && |rows| == VpcsBefore(found, |found|) && k < |rows|
      && rows[k] == VpcRow(vpc.id, vpc.name, "cr-" + found[a].id + "-" + vpc.region, vpc.cidr)
  {
    MappedVpcs(found, rows, a, v);
  }

  lemma MappedVpcs(found: seq<Account>, rows: seq<VpcRow>, a: nat, v: nat)
    requires rows == Map(AllVpcs(found), VpcRowOf) && a < |found| && v < |found[a].vpcs|
    ensures var vpc, k := found[a].vpcs[v], VpcsBefore(found, a) + v;
      && |rows| == VpcsBefore(found, |found|) && k < |rows|
      && rows[k] == VpcRow(vpc.id, vpc.name, "cr-" + found[a].id + "-" + vpc.region, vpc.cidr)
  {
    VpcCount(found, a);
    VpcCount(found, |found|);
    assert found[..|found|] == found;
    BlockAt(found, VpcsOf, a, v);
  }

  /** The subnets of the VPCs before the k-th. */
  function SubnetsBefore(vpcs: seq<VpcAt>, k: nat): nat
    requires k <= |vpcs|
  {
    if k == 0 then 0 else SubnetsBefore(vpcs, k - 1) + |vpcs[k - 1].vpc.open| + |vpcs[k - 1].vpc.closed|
  }

  lemma {:induction false} SubnetCount(vpcs: seq<VpcAt>, k: nat)
    requires k <= |vpcs|
    ensures |AllSubnets(vpcs[..k])| == SubnetsBefore(vpcs, k)
  {
    if k > 0 {
      SubnetCount(vpcs, k - 1);
      assert vpcs[..k][..k - 1] == vpcs[..k - 1];
    }
  }

  /** The row of a subnet: its own name, or kind and zone when it has none. */
  function ShownSubnet(vpc: Vpc, subnet: Subnet, kind: string, order: nat): SubnetRow {
    SubnetRow(subnet.id, if subnet.name == "" then kind + "-" + subnet.az else subnet.name,
              subnet.az, kind, subnet.cidr,
              vpc.id, order)
  }

  /** The s-th subnet of a VPC, the public ones first. */
  function SubnetShown(vpc: Vpc, s: nat): SubnetRow
    requires s < |vpc.open| + |vpc.closed|
  {
    if s < |vpc.open| then ShownSubnet(vpc, vpc.open[s], "public", s)
    else ShownSubnet(vpc, vpc.closed[s - |vpc.open|], "private", s)
  }

  /** The subnet rows, VPC by VPC: first the public ones in order, numbered from 0, then the private
      ones, numbered on. */
  lemma SubnetRows(found: seq<Account>, rows: seq<SubnetRow>, a: nat, v: nat, s: nat)
    requires rows == Transformed(found).subnets && a < |found| && v < |found[a].vpcs|
    requires s < |found[a].vpcs[v].open| + |found[a].vpcs[v].closed|
    ensures var vpc := found[a].vpcs[v];
      && VpcsBefore(found, a) + v < |AllVpcs(found)|
      && var k := SubnetsBefore(AllVpcs(found), VpcsBefore(found, a) + v) + s;
      && |rows| == SubnetsBefore(AllVpcs(found), |AllVpcs(found)|) && k < |rows|
      && rows[k] == SubnetShown(vpc, s)
  {
    MappedSubnets(found, rows, a, v, s);
  }

  lemma MappedSubnets(found: seq<Account>, rows: seq<SubnetRow>, a: nat, v: nat, s: nat)
    requires rows == Map(AllSubnets(AllVpcs(found)), SubnetRowOf) && a < |found| && v < |found[a].vpcs|
    requires s < |found[a].vpcs[v].open| + |found[a].vpcs[v].closed|
    ensures var vpc := found[a].vpcs[v];
      && VpcsBefore(found, a) + v < |AllVpcs(found)|
      && var k := SubnetsBefore(AllVpcs(found), VpcsBefore(found, a) + v) + s;
      && |rows| == SubnetsBefore(AllVpcs(found), |AllVpcs(found)|) && k < |rows|
      && rows[k] == SubnetShown(vpc, s)
  {
    var vpcs, i := AllVpcs(found), VpcsBefore(found, a) + v;
    VpcCount(found, a);
    BlockAt(found, VpcsOf, a, v);
    SubnetsOfVpc(vpcs, i, VpcAt(found[a].id, found[a].vpcs[v]), s);
  }

  lemma SubnetsOfVpc(vpcs: seq<VpcAt>, i: nat, at: VpcAt, s: nat)
    requires i < |vpcs| && vpcs[i] == at && s < |at.vpc.open| + |at.vpc.closed|
    ensures var rows, k := Map(AllSubnets(vpcs), SubnetRowOf), SubnetsBefore(vpcs, i) + s;
      && |rows| == SubnetsBefore(vpcs, |vpcs|) && k < |rows|
      && rows[k] == SubnetShown(at.vpc, s)
  {
    SubnetTotal(vpcs);
    SubnetCount(vpcs, i);
    RowShown(at, s);
    BlockAt(vpcs, SubnetsOf, i, s);
  }

  lemma SubnetTotal(vpcs: seq<VpcAt>)
    ensures |AllSubnets(vpcs)| == SubnetsBefore(vpcs, |vpcs|)
  {
    SubnetCount(vpcs, |vpcs|);
    assert vpcs[..|vpcs|] == vpcs;
  }

  lemma RowShown(at: VpcAt, s: nat)
    requires s < |at.vpc.open| + |at.vpc.closed|
    ensures |SubnetsOf(at)| == |at.vpc.open| + |at.vpc.closed|
    ensures SubnetRowOf(SubnetsOf(at)[s]) == SubnetShown(at.vpc, s)
  {
  }

  // ---------------------------------------------------------------- nodes

  /** The subnets in which a resource is seen, in order of sighting. */
  ghost function SeenIn(sightings: seq<Sighting>, id: string): seq<string> {
    if sightings == [] then []
    else
      var last := sightings[|sightings| - 1];
      SeenIn(sightings[..|sightings| - 1], id) + if last.resource.id == id then [last.subnetId] else []
  }

  ghost predicate ListsSeen(row: NodeRow, sightings: seq<Sighting>) {
    row.subnetIds == Some(Dedup(SeenIn(sightings, row.id)))
  }

  ghost predicate InSightingOrder(rows: seq<NodeRow>, sightings: seq<Sighting>) {
    forall i :: 0 <= i < |rows| ==> ListsSeen(rows[i], sightings)
  }

  lemma {:induction false} NeverSeen(sightings: seq<Sighting>, id: string)
    requires forall k :: 0 <= k < |sightings| ==> sightings[k].resource.id != id
    ensures SeenIn(sightings, id) == []
    decreases |sightings|
  {
    if sightings != [] { NeverSeen(sightings[..|sightings| - 1], id); }
  }

  lemma PutInOrder(rows: seq<NodeRow>, sightings: seq<Sighting>, s: Sighting, after: seq<NodeRow>, all: seq<Sighting>)
    requires NodesOk(rows, sightings) && InSightingOrder(rows, sightings)
    requires after == PutSighting(rows, s) && all == sightings + [s]
    ensures InSightingOrder(after, all)
  {
    var at := IndexOf(rows, NodeId, s.resource.id);
    forall i | 0 <= i < |after| ensures ListsSeen(after[i], all) {
      if i >= |rows| {
        NewListed(sightings, s, all);
      } else if i == at {
        AgainListed(rows[i], sightings, s, all);
      } else {
        assert rows[i].id != s.resource.id;
        OtherListed(rows[i], sightings, s, all);
      }
    }
  }

  lemma OtherListed(row: NodeRow, sightings: seq<Sighting>, s: Sighting, all: seq<Sighting>)
    requires ListsSeen(row, sightings) && row.id != s.resource.id && all == sightings + [s]
    ensures ListsSeen(row, all)
  {
    SeenOneMore(sightings, s, all, row.id);
  }

  lemma AgainListed(row: NodeRow, sightings: seq<Sighting>, s: Sighting, all: seq<Sighting>)
    requires ListsSeen(row, sightings) && row.id == s.resource.id && all == sightings + [s]
    ensures ListsSeen(row.(subnetIds := Some(AppendAbsent(SubnetIdsOf(row), s.subnetId))), all)
  {
    SeenOneMore(sightings, s, all, row.id);
    SeenAgain(SeenIn(sightings, row.id), s.subnetId);
  }

  lemma NewListed(sightings: seq<Sighting>, s: Sighting, all: seq<Sighting>)
    requires all == sightings + [s] && forall k :: 0 <= k < |sightings| ==> sightings[k].resource.id != s.resource.id
    ensures ListsSeen(NodeOf(s), all)
  {
    SeenOneMore(sightings, s, all, s.resource.id);
    NeverSeen(sightings, s.resource.id);
    OneSeen(s.subnetId);
  }

  lemma SeenOneMore(sightings: seq<Sighting>, s: Sighting, all: seq<Sighting>, id: string)
    requires all == sightings + [s]
    ensures SeenIn(all, id)
         == if s.resource.id == id then SeenIn(sightings, id) + [s.subnetId] else SeenIn(sightings, id)
  {
    assert all[..|sightings|] == sightings;
    assert SeenIn(sightings, id) + [] == SeenIn(sightings, id);
  }

  lemma OneSeen(subnetId: string)
    ensures Dedup([] + [subnetId]) == [subnetId]
  {
    DedupAppend([], subnetId);
  }

  lemma SeenAgain(ids: seq<string>, subnetId: string)
    ensures Dedup(ids + [subnetId]) == AppendAbsent(Dedup(ids), subnetId)
  {
    DedupAppend(ids, subnetId);
    DedupIsSet(ids);
  }

  lemma {:induction false} NodesInOrder(sightings: seq<Sighting>, rows: seq<NodeRow>)
    requires rows == PutSightings([], sightings)
    ensures InSightingOrder(rows, sightings)
    decreases |sightings|
  {
    if sightings != [] {
      var before, last := sightings[..|sightings| - 1], sightings[|sightings| - 1];
      var earlier := PutSightings([], before);
      NodesInOrder(before, earlier);
      PutSightingsOk(before);
      LastSplit(sightings);
      PutInOrder(earlier, before, last, rows, sightings);
    }
  }

  lemma LastSplit<T>(s: seq<T>)
    requires s != []
    ensures s == s[..|s| - 1] + [s[|s| - 1]]
  {
  }

  /** Sighting k of the table is one of a resource in a subnet of a VPC found. */
  ghost predicate SightingFound(found: seq<Account>, s: Sighting) {
    exists a, v :: 0 <= a < |found| && 0 <= v < |found[a].vpcs| && SightingInVpc(found[a].id, found[a].vpcs[v], s)
  }

  ghost predicate SightingInVpc(account: string, vpc: Vpc, s: Sighting) {
    && s.region == vpc.region && s.regionId == "cr-" + account + "-" + vpc.region
    && ((exists i :: 0 <= i < |vpc.open| && vpc.open[i].id == s.subnetId && s.resource in vpc.open[i].resources)
        || (exists i :: 0 <= i < |vpc.closed| && vpc.closed[i].id == s.subnetId
                        && s.resource in vpc.closed[i].resources))
  }

  lemma SightingIsFound(found: seq<Account>, k: nat)
    requires k < |AllSightings(AllSubnets(AllVpcs(found)))|
    ensures SightingFound(found, AllSightings(AllSubnets(AllVpcs(found)))[k])
  {
    var subnets := AllSubnets(AllVpcs(found));
    var i, j := InFlatMap(subnets, SightingsOf, k);
    var m, n := InFlatMap(AllVpcs(found), SubnetsOf, i);
    var a, v := InFlatMap(found, VpcsOf, m);
    InItsVpc(found[a].id, found[a].vpcs[v], n, subnets[i], j, AllSightings(subnets)[k]);
  }

  lemma InItsVpc(account: string, vpc: Vpc, n: nat, at: SubnetAt, j: nat, s: Sighting)
    requires n < |SubnetsOf(VpcAt(account, vpc))| && at == SubnetsOf(VpcAt(account, vpc))[n]
    requires j < |at.subnet.resources| && s == SightingsOf(at)[j]
    ensures SightingInVpc(account, vpc, s)
  {
    assert s.resource in at.subnet.resources;
    if n < |vpc.open| { assert vpc.open[n] == at.subnet; } else { assert vpc.closed[n - |vpc.open|] == at.subnet; }
  }

  /** Each node of a subnet resource shows the resource as first seen, with the region of that VPC,
      and lists the subnets that hold it, each once, in the order they are seen. */
  lemma NodeRows(found: seq<Account>, i: nat)
    requires i < |VpcNodes(found)|
    ensures var row, sightings := VpcNodes(found)[i], AllSightings(AllSubnets(AllVpcs(found)));
      && ListsSeen(row, sightings)
      && exists k :: 0 <= k < |sightings| && SightingFound(found, sightings[k])
           && (forall h :: 0 <= h < k ==> sightings[h].resource.id != row.id)
           && row.id == sightings[k].resource.id && row.name == sightings[k].resource.name
           && row.kind == sightings[k].resource.kind && row.settings == sightings[k].resource.settings
           && row.region == sightings[k].region && row.regionId == sightings[k].regionId
  {
    var sightings := AllSightings(AllSubnets(AllVpcs(found)));
    NodesInOrder(sightings, VpcNodes(found));
    PutSightingsOk(sightings);
    assert NodeOk(VpcNodes(found)[i], sightings);
    var k :| ShowsFirst(VpcNodes(found)[i], sightings, k);
    SightingIsFound(found, k);
  }

  /** The regional rows come last, account by account in the order found. */
  lemma RegionalRows(found: seq<Account>, rows: seq<NodeRow>, a: nat, k: nat)
    requires rows == Transformed(found).nodes && a < |found| && k < |found[a].regionals|
    ensures var x, i := found[a].regionals[k], RegionalsBefore(found, a) + k;
      && i < RegionalsBefore(found, |found|) <= |rows|
      && rows[|rows| - RegionalsBefore(found, |found|) + i]
         == NodeRow(x.id, x.name, x.kind, x.region, "cr-" + found[a].id + "-" + x.region, None, x.settings)
  {
    MappedRegionals(found, VpcNodes(found) + EksNodes(AllWorkloads(found)), rows, a, k);
  }

  function RegionalsBefore(found: seq<Account>, a: nat): nat
    requires a <= |found|
  {
    if a == 0 then 0 else RegionalsBefore(found, a - 1) + |found[a - 1].regionals|
  }

  lemma {:induction false} RegionalCount(found: seq<Account>, a: nat)
    requires a <= |found|
    ensures |AllRegionals(found[..a])| == RegionalsBefore(found, a)
  {
    if a > 0 {
      RegionalCount(found, a - 1);
      assert found[..a][..a - 1] == found[..a - 1];
    }
  }

  lemma MappedRegionals(found: seq<Account>, front: seq<NodeRow>, rows: seq<NodeRow>, a: nat, k: nat)
    requires rows == front + Map(AllRegionals(found), RegionalNodeOf) && a < |found| && k < |found[a].regionals|
    ensures var x, i := found[a].regionals[k], RegionalsBefore(found, a) + k;
      && i < RegionalsBefore(found, |found|) <= |rows|
      && rows[|rows| - RegionalsBefore(found, |found|) + i]
         == NodeRow(x.id, x.name, x.kind, x.region, "cr-" + found[a].id + "-" + x.region, None, x.settings)
  {
    RegionalCount(found, a);
    RegionalCount(found, |found|);
    assert found[..|found|] == found;
    BlockAt(found, RegionalsOf, a, k);
  }

  // ---------------------------------------------------------------- EKS nodes and clusters

  /** The node of a deployment or daemon set. */
  function ShownPods(account: string, w: Workload, p: Pods, daemon: bool): NodeRow {
    NodeRow((if daemon then "eks-ds-" else "eks-dep-") + w.cluster + "-" + p.namespace + "-" + p.name,
            p.name, "service",
            w.region, "cr-" + account + "-" + w.region, if w.subnetIds == [] then None else Some(w.subnetIds),
            Settings(if daemon then EksDaemonSet else EksService, w.arn, w.cluster))
  }

  ghost predicate RunsPods(found: seq<Account>, a: int, w: int, p: int, daemon: bool) {
    && 0 <= a < |found| && 0 <= w < |found[a].workloads|
    && 0 <= p < |if daemon then found[a].workloads[w].daemonsets else found[a].workloads[w].deployments|
  }

  function PodsIn(found: seq<Account>, a: int, w: int, p: int, daemon: bool): Pods
    requires RunsPods(found, a, w, p, daemon)
  {
    if daemon then found[a].workloads[w].daemonsets[p] else found[a].workloads[w].deployments[p]
  }

  /** The EKS nodes are exactly those of the deployments and daemon sets outside the system namespaces. */
  lemma EksNodesIff(found: seq<Account>, row: NodeRow)
    ensures row in EksNodes(AllWorkloads(found)) <==>
      exists a, w, p, daemon :: RunsPods(found, a, w, p, daemon)
        && PodsIn(found, a, w, p, daemon).namespace !in EKS_SYSTEM_NAMESPACES
        && row == ShownPods(found[a].id, found[a].workloads[w], PodsIn(found, a, w, p, daemon), daemon)
  {
    var workloads := AllWorkloads(found);
    if row in EksNodes(workloads) {
      var k :| 0 <= k < |EksNodes(workloads)| && EksNodes(workloads)[k] == row;
      var i, j := InFlatMap(FlatMap(workloads, PodsOf), EksNodesOf, k);
      var m, n := InFlatMap(workloads, PodsOf, i);
      var a, w := InFlatMap(found, WorkloadsOf, m);
      PodsShown(found, a, w, workloads[m], n);
    }
    if a, w, p, daemon :| RunsPods(found, a, w, p, daemon)
                          && PodsIn(found, a, w, p, daemon).namespace !in EKS_SYSTEM_NAMESPACES
                          && row == ShownPods(found[a].id, found[a].workloads[w],
                                              PodsIn(found, a, w, p, daemon), daemon)
    {
      PodsAreShown(found, a, w, p, daemon);
    }
  }

  lemma PodsShown(found: seq<Account>, a: nat, w: nat, at: WorkloadAt, n: nat)
    requires a < |found| && w < |found[a].workloads| && at == WorkloadAt(found[a].id, found[a].workloads[w])
    requires n < |PodsOf(at)|
    ensures exists p, daemon ::
      RunsPods(found, a, w, p, daemon) && PodsOf(at)[n].pods == PodsIn(found, a, w, p, daemon)
      && EksNodeOf(PodsOf(at)[n])
         == ShownPods(found[a].id, found[a].workloads[w], PodsIn(found, a, w, p, daemon), daemon)
  {
    var d := |at.workload.deployments|;
    if n < d {
      assert RunsPods(found, a, w, n, false) && PodsOf(at)[n].pods == PodsIn(found, a, w, n, false);
    } else {
      assert RunsPods(found, a, w, n - d, true) && PodsOf(at)[n].pods == PodsIn(found, a, w, n - d, true);
    }
  }

  lemma PodsAreShown(found: seq<Account>, a: nat, w: nat, p: nat, daemon: bool)
    requires RunsPods(found, a, w, p, daemon) && PodsIn(found, a, w, p, daemon).namespace !in EKS_SYSTEM_NAMESPACES
    ensures ShownPods(found[a].id, found[a].workloads[w], PodsIn(found, a, w, p, daemon), daemon)
         in EksNodes(AllWorkloads(found))
  {
    var workloads, at := AllWorkloads(found), WorkloadAt(found[a].id, found[a].workloads[w]);
    var m := IntoFlatMap(found, WorkloadsOf, a, w);
    var n := if daemon then |at.workload.deployments| + p else p;
    var i := IntoFlatMap(workloads, PodsOf, m, n);
    var k := IntoFlatMap(FlatMap(workloads, PodsOf), EksNodesOf, i, 0);
    assert EksNodes(workloads)[k] == EksNodeOf(PodsOf(at)[n]);
  }

  /** An EKS cluster row shows the first workload with its ARN. */
  lemma EksClusterRows(found: seq<Account>, i: nat)
    requires i < |Transformed(found).eksClusters|
    ensures var row, workloads := Transformed(found).eksClusters[i], AllWorkloads(found);
      exists k :: 0 <= k < |workloads| && (forall h :: 0 <= h < k ==> workloads[h].workload.arn != row.arn)
        && var w := workloads[k].workload;
        row == ClusterRow(w.arn, w.cluster, w.vpcId, "cr-" + workloads[k].account + "-" + w.region, w.region,
                          w.subnetIds)
  {
    ClustersInNormalForm(found);
    var k :| IsFirstOf(Transformed(found).eksClusters[i], AllWorkloads(found), k);
  }

  // ---------------------------------------------------------------- ECS clusters

  /** The last subnet row with this id. */
  ghost predicate LastSubnet(subnets: seq<SubnetRow>, id: string, j: int) {
    0 <= j < |subnets| && subnets[j].id == id && forall m :: j < m < |subnets| ==> subnets[m].id != id
  }

  lemma {:induction false} LastSubnetIff(subnets: seq<SubnetRow>, id: string)
    ensures id in VpcOfSubnet(subnets) <==> exists j :: LastSubnet(subnets, id, j)
    ensures forall j :: LastSubnet(subnets, id, j) ==>
      id in VpcOfSubnet(subnets) && VpcOfSubnet(subnets)[id] == subnets[j].vpcId
    decreases |subnets|
  {
    if subnets != [] {
      var n := |subnets| - 1;
      LastSubnetIff(subnets[..n], id);
      if subnets[n].id == id {
        assert LastSubnet(subnets, id, n);
      } else {
        forall j ensures LastSubnet(subnets, id, j) <==> LastSubnet(subnets[..n], id, j) { NotTheLast(subnets, id, j); }
      }
    }
  }

  lemma NotTheLast(subnets: seq<SubnetRow>, id: string, j: int)
    requires subnets != [] && subnets[|subnets| - 1].id != id
    ensures LastSubnet(subnets, id, j) <==> LastSubnet(subnets[..|subnets| - 1], id, j)
  {
  }

  /** The node is that of an ECS service or daemon of the cluster. */
  predicate ServesCluster(n: NodeRow, arn: string) {
    n.settings.subtype == Ecs && n.settings.clusterArn == arn && arn != "" && n.settings.clusterName != ""
  }

  /** What an ECS cluster takes from its first service: region, and the VPC of the last subnet row
      whose id is the first subnet of that service. */
  ghost predicate TakesFrom(row: ClusterRow, nodes: seq<NodeRow>, subnets: seq<SubnetRow>, k: int, j: int) {
    && 0 <= k < |nodes| && ServesCluster(nodes[k], row.arn)
    && (forall h :: 0 <= h < k ==> !ServesCluster(nodes[h], row.arn))
    && row.regionId == nodes[k].regionId && row.region == nodes[k].region
    && nodes[k].subnetIds.Some? && nodes[k].subnetIds.value != []
    && LastSubnet(subnets, nodes[k].subnetIds.value[0], j) && row.vpcId == subnets[j].vpcId
  }

  lemma EcsClusterRows(found: seq<Account>, subnets: seq<SubnetRow>, row: ClusterRow)
    requires subnets == Transformed(found).subnets && row in Transformed(found).ecsClusters
    ensures exists k, j :: TakesFrom(row, VpcNodes(found), subnets, k, j)
  {
    var nodes := VpcNodes(found) + EksNodes(AllWorkloads(found));
    ClustersInNormalForm(found);
    assert EcsRowOk(row, nodes, VpcOfSubnet(subnets));
    var k :| StartedBy(row, nodes, k, VpcOfSubnet(subnets));
    EcsNodeIsVpcNode(found, k);
    NodeReferences(found, k);
    SubnetsEmitted(found, subnets, nodes[k]);
    StartTakes(row, nodes, VpcNodes(found), subnets, k);
  }

  lemma SubnetsEmitted(found: seq<Account>, subnets: seq<SubnetRow>, n: NodeRow)
    requires subnets == Transformed(found).subnets && SubnetIdsOf(n) != []
    requires forall s :: s in SubnetIdsOf(n) ==> HasSubnet(Transformed(found), s)
    ensures exists i :: 0 <= i < |subnets| && subnets[i].id == SubnetIdsOf(n)[0]
  {
    assert SubnetIdsOf(n)[0] in SubnetIdsOf(n);
  }

  lemma StartTakes(row: ClusterRow, all: seq<NodeRow>, nodes: seq<NodeRow>, subnets: seq<SubnetRow>, k: int)
    requires nodes <= all && 0 <= k < |nodes| && StartedBy(row, all, k, VpcOfSubnet(subnets))
    requires SubnetIdsOf(nodes[k]) != [] && exists i :: 0 <= i < |subnets| && subnets[i].id == SubnetIdsOf(nodes[k])[0]
    ensures exists j :: TakesFrom(row, nodes, subnets, k, j)
  {
    var id := SubnetIdsOf(nodes[k])[0];
    VpcOfIsRow(subnets, id);
    LastSubnetIff(subnets, id);
    var j :| LastSubnet(subnets, id, j);
    forall h | 0 <= h < k ensures !ServesCluster(nodes[h], row.arn) { assert nodes[h] == all[h]; }
    assert TakesFrom(row, nodes, subnets, k, j);
  }

  /** No two subnet rows have one id. */
  ghost predicate UniqueIds(subnets: seq<SubnetRow>) {
    forall i, j :: 0 <= i < j < |subnets| ==> subnets[i].id != subnets[j].id
  }

  /** Where subnet ids are unique it is the discovered VPC that holds the first subnet of the first
      service of the cluster. */
  lemma EcsClusterVpc(found: seq<Account>, subnets: seq<SubnetRow>, row: ClusterRow, k: int, j: int, a: nat, v: nat)
    requires subnets == Transformed(found).subnets && UniqueIds(subnets)
    requires TakesFrom(row, VpcNodes(found), subnets, k, j)
    requires a < |found| && v < |found[a].vpcs| && InVpc(found[a].vpcs[v], VpcNodes(found)[k].subnetIds.value[0])
    ensures row.vpcId == found[a].vpcs[v].id
  {
    HoldsUnique(found, subnets, VpcNodes(found)[k].subnetIds.value[0], j, a, v);
  }

  lemma HoldsUnique(found: seq<Account>, subnets: seq<SubnetRow>, id: string, j: int, a: nat, v: nat)
    requires subnets == Map(AllSubnets(AllVpcs(found)), SubnetRowOf) && UniqueIds(subnets) && LastSubnet(subnets, id, j)
    requires a < |found| && v < |found[a].vpcs| && InVpc(found[a].vpcs[v], id)
    ensures subnets[j].vpcId == found[a].vpcs[v].id
  {
    var s := VpcHasSubnet(VpcAt(found[a].id, found[a].vpcs[v]), id);
    MappedSubnets(found, subnets, a, v, s);
    var at := SubnetsBefore(AllVpcs(found), VpcsBefore(found, a) + v) + s;
    assert subnets[at].id == id;
  }
}
