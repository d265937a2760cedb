/**
  transform_to_canvas_response of lambda_vpc_discovery/vpc_discovery_service.py: the nested
  discovery result flattened into tables of rows that refer to each other by id.
*/
module Canvas {
  import opened Wrappers
  import opened PyText
  import opened Sequences

  // ---------------------------------------------------------------- what discovery found

  /** settings["resourceSubtype"]: an ECS service or daemon, an EKS deployment or daemon set. */
  datatype Subtype = Ecs | EksService | EksDaemonSet | NoSubtype

  datatype Settings = Settings(subtype: Subtype, clusterArn: string, clusterName: string)

  datatype Resource = Resource(id: string, name: string, kind: string, settings: Settings)
  datatype Subnet = Subnet(id: string, name: string, az: string, cidr: string, resources: seq<Resource>)
  datatype Vpc = Vpc(id: string, region: string, cidr: string, name: string, open: seq<Subnet>, closed: seq<Subnet>)
  datatype Regional = Regional(id: string, name: string, kind: string, region: string, settings: Settings)
  datatype Pods = Pods(namespace: string, name: string)
  datatype Workload = Workload(cluster: string, arn: string, region: string, vpcId: string, subnetIds: seq<string>,
                               deployments: seq<Pods>, daemonsets: seq<Pods>)
  datatype Account = Account(id: string, vpcs: seq<Vpc>, regionals: seq<Regional>, workloads: seq<Workload>)

  // ---------------------------------------------------------------- the tables

  datatype GeoRow = GeoRow(id: string, name: string, x: nat)
  datatype AccountRow = AccountRow(id: string, accountId: string, geoId: string, y: nat)
  datatype RegionRow = RegionRow(id: string, name: string, accountId: string)
  datatype VpcRow = VpcRow(id: string, name: string, regionId: string, cidr: string)
  datatype SubnetRow = SubnetRow(id: string, name: string, az: string, kind: string, cidr: string, vpcId: string,
                                 order: nat)
  datatype NodeRow = NodeRow(id: string, name: string, kind: string, region: string, regionId: string,
                             subnetIds: Option<seq<string>>, settings: Settings)
  datatype ClusterRow = ClusterRow(arn: string, name: string, vpcId: string, regionId: string, region: string,
                                   subnetIds: seq<string>)

  // ---------------------------------------------------------------- names and ids

  datatype Area = NorthAmerica | SouthAmerica | Europe | India | EastAsia | SoutheastAsia | Australia | MiddleEast
                | Africa | Other

  const REGION_TO_GEO: map<string, Area> :=
    map["us-east-1" := NorthAmerica, "us-east-2" := NorthAmerica, "us-west-1" := NorthAmerica,
        "us-west-2" := NorthAmerica, "ca-central-1" := NorthAmerica, "sa-east-1" := SouthAmerica,
        "eu-west-1" := Europe, "eu-west-2" := Europe, "eu-west-3" := Europe, "eu-central-1" := Europe,
        "eu-north-1" := Europe, "ap-south-1" := India, "ap-south-2" := India, "ap-northeast-1" := EastAsia,
        "ap-northeast-2" := EastAsia, "ap-northeast-3" := EastAsia, "ap-southeast-1" := SoutheastAsia,
        "ap-southeast-2" := Australia, "me-south-1" := MiddleEast, "me-central-1" := MiddleEast,
        "af-south-1" := Africa]

  function AreaOf(region: string): Area { if region in REGION_TO_GEO then REGION_TO_GEO[region] else Other }

  function AreaName(area: Area): string {
    match area
    case NorthAmerica => "North America"
    case SouthAmerica => "South America"
    case Europe => "Europe"
    case India => "India"
    case EastAsia => "East Asia"
    case SoutheastAsia => "Southeast Asia"
    case Australia => "Australia"
    case MiddleEast => "Middle East"
    case Africa => "Africa"
    case Other => "Other"
  }

  function Slug(name: string): string { "geo-" + Replace(Lower(name), ' ', '-') }

  function GeoId(region: string): string { Slug(AreaName(AreaOf(region))) }

  function AccountKey(account: string, geo: string): string { account + ":" + geo }

  function AccountId(account: string, geo: string): string { "account-" + account + "-" + geo }

  function RegionId(account: string, region: string): string { "cr-" + account + "-" + region }

  /** A region of an account in which something was found. */
  datatype Place = Place(account: string, region: string) {
    function Geo(): string { GeoId(region) }
    function Key(): string { AccountKey(account, GeoId(region)) }
    function AccountRowId(): string { AccountId(account, GeoId(region)) }
    function Id(): string { RegionId(account, region) }
  }

  // ---------------------------------------------------------------- a row for every place

  predicate HasGeo(rows: seq<GeoRow>, id: string) { exists i :: 0 <= i < |rows| && rows[i].id == id }

  /** The account table is searched by account and geo. */
  predicate HasAccount(rows: seq<AccountRow>, key: string) {
    exists i :: 0 <= i < |rows| && AccountKey(rows[i].accountId, rows[i].geoId) == key
  }

  predicate HasRegion(rows: seq<RegionRow>, id: string) { exists i :: 0 <= i < |rows| && rows[i].id == id }

  function PutGeo(rows: seq<GeoRow>, p: Place): seq<GeoRow> {
    if HasGeo(rows, p.Geo()) then rows else rows + [GeoRow(p.Geo(), AreaName(AreaOf(p.region)), 600 * |rows|)]
  }

  function PutAccount(rows: seq<AccountRow>, p: Place): seq<AccountRow> {
    if HasAccount(rows, p.Key()) then rows
    else rows + [AccountRow(p.AccountRowId(), p.account, p.Geo(), 48 + 300 * |rows|)]
  }

  function PutRegion(rows: seq<RegionRow>, p: Place): seq<RegionRow> {
    if HasRegion(rows, p.Id()) then rows else rows + [RegionRow(p.Id(), p.region, p.AccountRowId())]
  }

  /** The three tables of places. */
  datatype Atlas = Atlas(geos: seq<GeoRow>, accounts: seq<AccountRow>, regions: seq<RegionRow>)

  function PutPlace(t: Atlas, p: Place): Atlas {
    Atlas(PutGeo(t.geos, p), PutAccount(t.accounts, p), PutRegion(t.regions, p))
  }

  function PutPlaces(t: Atlas, places: seq<Place>): Atlas {
    if places == [] then t else PutPlace(PutPlaces(t, places[..|places| - 1]), places[|places| - 1])
  }

  // ---------------------------------------------------------------- VPCs, subnets and their resources

  /** A VPC with the account it was found in. */
  datatype VpcAt = VpcAt(account: string, vpc: Vpc)

  function VpcsOf(a: Account): seq<VpcAt> {
    seq(|a.vpcs|, i requires 0 <= i < |a.vpcs| => VpcAt(a.id, a.vpcs[i]))
  }

  function AllVpcs(accounts: seq<Account>): seq<VpcAt> { FlatMap(accounts, VpcsOf) }

  function PlaceOfVpc(v: VpcAt): Place { Place(v.account, v.vpc.region) }

  function VpcRowOf(v: VpcAt): VpcRow { VpcRow(v.vpc.id, v.vpc.name, RegionId(v.account, v.vpc.region), v.vpc.cidr) }

  /** A subnet with its VPC, its type and its display order: the public ones come first. */
  datatype SubnetAt = SubnetAt(at: VpcAt, kind: string, subnet: Subnet, order: nat)

  function SubnetsOf(v: VpcAt): seq<SubnetAt> {
    var n := |v.vpc.open|;
    seq(n, i requires 0 <= i < n => SubnetAt(v, "public", v.vpc.open[i], i))
    + seq(|v.vpc.closed|, i requires 0 <= i < |v.vpc.closed| => SubnetAt(v, "private", v.vpc.closed[i], n + i))
  }

  function AllSubnets(vpcs: seq<VpcAt>): seq<SubnetAt> { FlatMap(vpcs, SubnetsOf) }

  function SubnetRowOf(s: SubnetAt): SubnetRow {
    SubnetRow(s.subnet.id, if s.subnet.name != "" then s.subnet.name else s.kind + "-" + s.subnet.az,
              s.subnet.az, s.kind,
              s.subnet.cidr, s.at.vpc.id, s.order)
  }

  /** A resource seen in a subnet. */
  datatype Sighting = Sighting(resource: Resource, subnetId: string, region: string, regionId: string)

  function SightingOf(s: SubnetAt, r: Resource): Sighting {
    Sighting(r, s.subnet.id, s.at.vpc.region, RegionId(s.at.account, s.at.vpc.region))
  }

  function SightingsOf(s: SubnetAt): seq<Sighting> {
    seq(|s.subnet.resources|, i requires 0 <= i < |s.subnet.resources| => SightingOf(s, s.subnet.resources[i]))
  }

  function AllSightings(subnets: seq<SubnetAt>): seq<Sighting> { FlatMap(subnets, SightingsOf) }

  /** The first row with this key, the length when there is none. */
  function IndexOf<T>(rows: seq<T>, key: T -> string, k: string): (r: nat)
    ensures r <= |rows|
    ensures r < |rows| ==> key(rows[r]) == k
    ensures forall i :: 0 <= i < r ==> key(rows[i]) != k
  {
    if rows == [] then 0
    else
      var before := IndexOf(rows[..|rows| - 1], key, k);
      if before < |rows| - 1 then before else if key(rows[|rows| - 1]) == k then |rows| - 1 else |rows|
  }

  function NodeId(n: NodeRow): string { n.id }

  function ClusterArn(c: ClusterRow): string { c.arn }

  function NodeOf(s: Sighting): NodeRow {
    NodeRow(s.resource.id, s.resource.name, s.resource.kind, s.region, s.regionId, Some([s.subnetId]),
            s.resource.settings)
  }

  function SubnetIdsOf(n: NodeRow): seq<string> { if n.subnetIds.Some? then n.subnetIds.value else [] }

  function AppendAbsent(ids: seq<string>, id: string): seq<string> { if id in ids then ids else ids + [id] }

  /** A sighting of a known resource adds its subnet to the node; one of a new resource adds a node. */
  function PutSighting(rows: seq<NodeRow>, s: Sighting): seq<NodeRow> {
    var k := IndexOf(rows, NodeId, s.resource.id);
    if k < |rows| then rows[k := rows[k].(subnetIds := Some(AppendAbsent(SubnetIdsOf(rows[k]), s.subnetId)))]
    else rows + [NodeOf(s)]
  }

  function PutSightings(rows: seq<NodeRow>, sightings: seq<Sighting>): seq<NodeRow> {
    if sightings == [] then rows
    else PutSighting(PutSightings(rows, sightings[..|sightings| - 1]), sightings[|sightings| - 1])
  }

  // ---------------------------------------------------------------- EKS clusters and workloads

  const EKS_SYSTEM_NAMESPACES: set<string> :=
    {"kube-system", "kube-public", "kube-node-lease", "amazon-cloudwatch", "cert-manager", "monitoring",
     "aws-observability", "amazon-guardduty", "external-dns", "flux-system", "argocd", "istio-system",
     "ingress-nginx", "aws-load-balancer-controller", "external-secrets"}

  datatype WorkloadAt = WorkloadAt(account: string, workload: Workload)

  function WorkloadsOf(a: Account): seq<WorkloadAt> {
    seq(|a.workloads|, i requires 0 <= i < |a.workloads| => WorkloadAt(a.id, a.workloads[i]))
  }

  function AllWorkloads(accounts: seq<Account>): seq<WorkloadAt> { FlatMap(accounts, WorkloadsOf) }

  predicate HasCluster(rows: seq<ClusterRow>, arn: string) { exists i :: 0 <= i < |rows| && rows[i].arn == arn }

  function EksClusterOf(w: WorkloadAt): ClusterRow {
    ClusterRow(w.workload.arn, w.workload.cluster, w.workload.vpcId, RegionId(w.account, w.workload.region),
               w.workload.region, w.workload.subnetIds)
  }

  function PutWorkload(rows: seq<ClusterRow>, w: WorkloadAt): seq<ClusterRow> {
    if w.workload.arn == "" || HasCluster(rows, w.workload.arn) then rows else rows + [EksClusterOf(w)]
  }

  function PutWorkloads(rows: seq<ClusterRow>, workloads: seq<WorkloadAt>): seq<ClusterRow> {
    if workloads == [] then rows
    else PutWorkload(PutWorkloads(rows, workloads[..|workloads| - 1]), workloads[|workloads| - 1])
  }

  /** A deployment or a daemon set of a workload. */
  datatype PodsAt = PodsAt(at: WorkloadAt, pods: Pods, daemon: bool)

  function PodsOf(w: WorkloadAt): seq<PodsAt> {
    var d, e := w.workload.deployments, w.workload.daemonsets;
    seq(|d|, i requires 0 <= i < |d| => PodsAt(w, d[i], false))
    + seq(|e|, i requires 0 <= i < |e| => PodsAt(w, e[i], true))
  }

  function EksNodeOf(p: PodsAt): NodeRow {
    var w := p.at.workload;
    NodeRow((if p.daemon then "eks-ds-" else "eks-dep-") + w.cluster + "-" + p.pods.namespace + "-" + p.pods.name,
            p.pods.name, "service", w.region, RegionId(p.at.account, w.region),
            if w.subnetIds == [] then None else Some(w.subnetIds),
            Settings(if p.daemon then EksDaemonSet else EksService, w.arn, w.cluster))
  }

  function EksNodesOf(p: PodsAt): seq<NodeRow> {
    if p.pods.namespace in EKS_SYSTEM_NAMESPACES then [] else [EksNodeOf(p)]
  }

  function EksNodes(workloads: seq<WorkloadAt>): seq<NodeRow> { FlatMap(FlatMap(workloads, PodsOf), EksNodesOf) }

  // ---------------------------------------------------------------- ECS clusters

  predicate IsEcs(n: NodeRow) {
    n.settings.subtype == Ecs && n.settings.clusterArn != "" && n.settings.clusterName != ""
  }

  /** The VPC of each subnet; of two subnets with one id the later counts. */
  function VpcOfSubnet(subnets: seq<SubnetRow>): map<string, string> {
    if subnets == [] then map[]
    else VpcOfSubnet(subnets[..|subnets| - 1])[subnets[|subnets| - 1].id := subnets[|subnets| - 1].vpcId]
  }

  function VpcOfNode(n: NodeRow, vpcOf: map<string, string>): string {
    var ids := SubnetIdsOf(n);
    if ids != [] && ids[0] in vpcOf then vpcOf[ids[0]] else ""
  }

  function AppendAllAbsent(ids: seq<string>, more: seq<string>): seq<string> {
    if more == [] then ids else AppendAbsent(AppendAllAbsent(ids, more[..|more| - 1]), more[|more| - 1])
  }

  /** A service of a known cluster adds its subnets; one of a new cluster adds the cluster. */
  function PutService(rows: seq<ClusterRow>, n: NodeRow, vpcOf: map<string, string>): seq<ClusterRow> {
    if !IsEcs(n) then rows
    else
      var k := IndexOf(rows, ClusterArn, n.settings.clusterArn);
      if k < |rows| then rows[k := rows[k].(subnetIds := AppendAllAbsent(rows[k].subnetIds, SubnetIdsOf(n)))]
      else rows + [ClusterRow(n.settings.clusterArn, n.settings.clusterName, VpcOfNode(n, vpcOf), n.regionId, n.region,
                              SubnetIdsOf(n))]
  }

  function PutServices(rows: seq<ClusterRow>, nodes: seq<NodeRow>, vpcOf: map<string, string>): seq<ClusterRow> {
    if nodes == [] then rows
    else PutService(PutServices(rows, nodes[..|nodes| - 1], vpcOf), nodes[|nodes| - 1], vpcOf)
  }

  // ---------------------------------------------------------------- regional resources

  datatype RegionalAt = RegionalAt(account: string, resource: Regional)

  function RegionalsOf(a: Account): seq<RegionalAt> {
    seq(|a.regionals|, i requires 0 <= i < |a.regionals| => RegionalAt(a.id, a.regionals[i]))
  }

  function AllRegionals(accounts: seq<Account>): seq<RegionalAt> { FlatMap(accounts, RegionalsOf) }

  function PlaceOfRegional(r: RegionalAt): Place { Place(r.account, r.resource.region) }

  function RegionalNodeOf(r: RegionalAt): NodeRow {
    NodeRow(r.resource.id, r.resource.name, r.resource.kind, r.resource.region, RegionId(r.account, r.resource.region),
            None, r.resource.settings)
  }

  // ---------------------------------------------------------------- the whole transformation

  datatype Result = Result(atlas: Atlas, vpcs: seq<VpcRow>, subnets: seq<SubnetRow>, nodes: seq<NodeRow>,
                           eksClusters: seq<ClusterRow>, ecsClusters: seq<ClusterRow>)

  function Places(accounts: seq<Account>): seq<Place> {
    Map(AllVpcs(accounts), PlaceOfVpc) + Map(AllRegionals(accounts), PlaceOfRegional)
  }

  /** The nodes of the VPCs: every resource seen in a subnet. */
  function VpcNodes(accounts: seq<Account>): seq<NodeRow> {
    PutSightings([], AllSightings(AllSubnets(AllVpcs(accounts))))
  }

  function Transformed(accounts: seq<Account>): Result {
    var vpcs, workloads := AllVpcs(accounts), AllWorkloads(accounts);
    var subnets := Map(AllSubnets(vpcs), SubnetRowOf);
    var nodes := VpcNodes(accounts) + EksNodes(workloads);
    Result(PutPlaces(Atlas([], [], []), Places(accounts)), Map(vpcs, VpcRowOf), subnets,
           nodes + Map(AllRegionals(accounts), RegionalNodeOf), PutWorkloads([], workloads),
           PutServices([], nodes, VpcOfSubnet(subnets)))
  }

  // ---------------------------------------------------------------- ids of areas

  predicate Plain(name: string) { forall i :: 0 <= i < |name| ==> name[i] !in {'g', 'G', ':', '-'} }

  lemma AreaNameIsPlain(area: Area)
    ensures Plain(AreaName(area))
  {
  }

  lemma {:induction false} SlugChars(name: string)
    requires Plain(name)
    ensures |Replace(Lower(name), ' ', '-')| == |name|
    ensures forall i :: 0 <= i < |name| ==> Replace(Lower(name), ' ', '-')[i] !in {'g', ':'}
    decreases |name|
  {
    if name != "" { SlugChars(name[1..]); }
  }

  /** No ':' in a geo id, and no 'g' but the first character. */
  lemma GeoIdChars(region: string)
    ensures |GeoId(region)| >= 4 && GeoId(region)[0] == 'g'
    ensures forall i :: 0 <= i < |GeoId(region)| ==> GeoId(region)[i] != ':' && (i > 0 ==> GeoId(region)[i] != 'g')
  {
    AreaNameIsPlain(AreaOf(region));
    SlugChars(AreaName(AreaOf(region)));
  }

  lemma KeySplits(a: string, g: string, b: string, h: string)
    requires AccountKey(a, g) == AccountKey(b, h)
    requires forall i :: 0 <= i < |g| ==> g[i] != ':'
    requires forall i :: 0 <= i < |h| ==> h[i] != ':'
    ensures a == b && g == h
  {
    var k := AccountKey(a, g);
    assert k[|a|] == ':' && k[|b|] == ':';
    assert forall i :: |a| < i < |k| ==> k[i] == g[i - |a| - 1];
    assert forall i :: |b| < i < |k| ==> k[i] == h[i - |b| - 1];
    assert |a| == |b|;
    assert k[..|a|] == a && k[..|b|] == b && k[|a| + 1..] == g && k[|b| + 1..] == h;
  }

  /** Two places with one account key have one account id. */
  lemma KeyGivesId(p: Place, q: Place)
    requires p.Key() == q.Key()
    ensures p.account == q.account && p.Geo() == q.Geo()
  {
    GeoIdChars(p.region);
    GeoIdChars(q.region);
    KeySplits(p.account, p.Geo(), q.account, q.Geo());
  }

  lemma IdSplits(a: string, g: string, b: string, h: string)
    requires AccountId(a, g) == AccountId(b, h)
    requires g != "" && g[0] == 'g' && (forall i :: 0 < i < |g| ==> g[i] != 'g')
    requires h != "" && h[0] == 'g' && (forall i :: 0 < i < |h| ==> h[i] != 'g')
    ensures a == b && g == h
  {
    var k := AccountId(a, g);
    var m, n := 9 + |a|, 9 + |b|;
    assert k[m..] == g && k[n..] == h && k[8..m - 1] == a && k[8..n - 1] == b;
    assert forall i :: m <= i < |k| ==> k[i] == g[i - m];
    assert forall i :: n <= i < |k| ==> k[i] == h[i - n];
    assert m == n;
  }

  /** ... and the other way round, whatever the account ids look like. */
  lemma IdGivesKey(p: Place, q: Place)
    requires p.AccountRowId() == q.AccountRowId()
    ensures p.account == q.account && p.Geo() == q.Geo()
  {
    GeoIdChars(p.region);
    GeoIdChars(q.region);
    IdSplits(p.account, p.Geo(), q.account, q.Geo());
  }
}
