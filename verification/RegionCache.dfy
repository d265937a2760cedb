/**
  lambda_vpc_discovery/vpc_discovery_service.py: the ECS and ElastiCache resources of a subnet, read
  from the prefetched region cache and read directly, for one error-free AWS snapshot.
*/
module RegionCache {
  import opened Sequences

  // ---------------------------------------------------------------- the snapshot

  /** An ECS service; one without subnets runs on the cluster's own hosts. */
  datatype Service = Service(name: string, subnets: seq<string>, securityGroups: seq<string>)

  datatype CacheCluster = CacheCluster(id: string, subnetGroup: string, securityGroups: seq<string>)

  datatype SubnetGroup = SubnetGroup(vpcId: string, subnetIds: seq<string>)

  /** What the AWS calls answer: `service` is empty for an ARN that no longer exists, `host` is the
      EC2 instance of a container instance or "". */
  datatype Aws = Aws(clusters: seq<string>, servicePages: string -> seq<seq<string>>,
                     service: (string, string) -> seq<Service>, hostPages: string -> seq<seq<string>>,
                     host: (string, string) -> string, subnetOf: string -> string,
                     cachePages: seq<seq<CacheCluster>>, groups: string -> seq<SubnetGroup>)

  datatype Resource = Resource(cluster: string, name: string, securityGroups: seq<string>)

  /** A paginator read to its end. */
  function Flat<T>(pages: seq<seq<T>>): seq<T> {
    if pages == [] then [] else Flat(pages[..|pages| - 1]) + pages[|pages| - 1]
  }

  method CollectPages<T>(pages: seq<seq<T>>) returns (all: seq<T>)
    ensures all == Flat(pages)
  {
    all := [];
    for i := 0 to |pages|
      invariant all == Flat(pages[..i])
    {
      assert pages[..i + 1][..i] == pages[..i];
      all := all + pages[i];
    }
    assert pages[..|pages|] == pages;
  }

  // ---------------------------------------------------------------- ECS, declaratively

  function Services(aws: Aws, cluster: string, arns: seq<string>): seq<Service> {
    if arns == [] then []
    else Services(aws, cluster, arns[..|arns| - 1]) + aws.service(cluster, arns[|arns| - 1])
  }

  /** The EC2 instances of container instances; one without an instance gives none. */
  function Hosts(aws: Aws, cluster: string, arns: seq<string>): seq<string> {
    if arns == [] then []
    else
      var id := aws.host(cluster, arns[|arns| - 1]);
      Hosts(aws, cluster, arns[..|arns| - 1]) + (if id != "" then [id] else [])
  }

  function ServicesOf(aws: Aws, cluster: string): seq<Service> {
    Services(aws, cluster, Flat(aws.servicePages(cluster)))
  }

  function HostsOf(aws: Aws, cluster: string): seq<string> { Hosts(aws, cluster, Flat(aws.hostPages(cluster))) }

  /** describe_instances with the subnet filter answers something. */
  predicate AnyIn(aws: Aws, hosts: seq<string>, subnet: string) {
    exists i :: 0 <= i < |hosts| && aws.subnetOf(hosts[i]) == subnet
  }

  /** The services with a network of their own that is in the subnet. */
  function Attached(services: seq<Service>, cluster: string, subnet: string): seq<Resource> {
    if services == [] then []
    else
      var s := services[|services| - 1];
      Attached(services[..|services| - 1], cluster, subnet)
      + (if s.subnets != [] && subnet in s.subnets then [Resource(cluster, s.name, s.securityGroups)] else [])
  }

  function Bridged(services: seq<Service>): seq<Service> {
    if services == [] then []
    else
      var s := services[|services| - 1];
      Bridged(services[..|services| - 1]) + (if s.subnets == [] then [s] else [])
  }

  function BridgeResources(services: seq<Service>, cluster: string): seq<Resource> {
    seq(|services|, i requires 0 <= i < |services| => Resource(cluster, services[i].name, []))
  }

  function ClusterName(arn: string): string
    decreases |arn|
  {
    if '/' in arn then ClusterName(arn[1..]) else arn
  }

  /** The resources of one cluster in a subnet: its attached services there, then its bridge
      services when a host of the cluster is there. */
  function EcsResources(aws: Aws, name: string, services: seq<Service>, hosts: seq<string>, subnet: string)
    : seq<Resource>
  {
    Attached(services, name, subnet)
    + (if AnyIn(aws, hosts, subnet) then BridgeResources(Bridged(services), name) else [])
  }

  function EcsOf(aws: Aws, cluster: string, subnet: string): seq<Resource> {
    EcsResources(aws, ClusterName(cluster), ServicesOf(aws, cluster), HostsOf(aws, cluster), subnet)
  }

  function EcsIn(aws: Aws, clusters: seq<string>, subnet: string): seq<Resource> {
    if clusters == [] then []
    else EcsIn(aws, clusters[..|clusters| - 1], subnet) + EcsOf(aws, clusters[|clusters| - 1], subnet)
  }

  // ---------------------------------------------------------------- chunked calls

  /** describe_services takes at most ten ARNs. */
  function DescribeServices(aws: Aws, cluster: string, batch: seq<string>): seq<Service>
    requires |batch| <= 10
  {
    Services(aws, cluster, batch)
  }

  /** describe_container_instances takes at most a hundred. */
  function DescribeHosts(aws: Aws, cluster: string, batch: seq<string>): seq<string>
    requires |batch| <= 100
  {
    Hosts(aws, cluster, batch)
  }

  lemma {:induction false} ServicesConcat(aws: Aws, cluster: string, a: seq<string>, b: seq<string>)
    ensures Services(aws, cluster, a + b) == Services(aws, cluster, a) + Services(aws, cluster, b)
    decreases |b|
  {
    if b == [] {
      assert a + b == a;
    } else {
      assert (a + b)[..|a + b| - 1] == a + b[..|b| - 1];
      ServicesConcat(aws, cluster, a, b[..|b| - 1]);
    }
  }

  lemma {:induction false} HostsConcat(aws: Aws, cluster: string, a: seq<string>, b: seq<string>)
    ensures Hosts(aws, cluster, a + b) == Hosts(aws, cluster, a) + Hosts(aws, cluster, b)
    decreases |b|
  {
    if b == [] {
      assert a + b == a;
    } else {
      assert (a + b)[..|a + b| - 1] == a + b[..|b| - 1];
      HostsConcat(aws, cluster, a, b[..|b| - 1]);
    }
  }

  /** Chunks of ten give every service, in order. */
  method FetchServices(aws: Aws, cluster: string) returns (services: seq<Service>)
    ensures services == ServicesOf(aws, cluster)
  {
    var arns := CollectPages(aws.servicePages(cluster));
    services := [];
    var i := 0;
    while i < |arns|
      invariant 0 <= i && services == Services(aws, cluster, arns[..if i < |arns| then i else |arns|])
      decreases |arns| - i
    {
      var end := if i + 10 < |arns| then i + 10 else |arns|;
      services := services + DescribeServices(aws, cluster, arns[i..end]);
      ServicesConcat(aws, cluster, arns[..i], arns[i..end]);
      assert arns[..i] + arns[i..end] == arns[..end];
      i := i + 10;
    }
    assert arns[..|arns|] == arns;
  }

  /** Chunks of a hundred give every host, in order. */
  method FetchHosts(aws: Aws, cluster: string) returns (hosts: seq<string>)
    ensures hosts == HostsOf(aws, cluster)
  {
    var arns := CollectPages(aws.hostPages(cluster));
    hosts := [];
    var i := 0;
    while i < |arns|
      invariant 0 <= i && hosts == Hosts(aws, cluster, arns[..if i < |arns| then i else |arns|])
      decreases |arns| - i
    {
      var end := if i + 100 < |arns| then i + 100 else |arns|;
      hosts := hosts + DescribeHosts(aws, cluster, arns[i..end]);
      HostsConcat(aws, cluster, arns[..i], arns[i..end]);
      assert arns[..i] + arns[i..end] == arns[..end];
      i := i + 100;
    }
    assert arns[..|arns|] == arns;
  }

  /** The split both paths make: attached services at once, bridge services collected. */
  method SplitServices(services: seq<Service>, cluster: string, subnet: string)
    returns (attached: seq<Resource>, bridged: seq<Service>)
    ensures attached == Attached(services, cluster, subnet) && bridged == Bridged(services)
  {
    attached, bridged := [], [];
    for i := 0 to |services|
      invariant attached == Attached(services[..i], cluster, subnet) && bridged == Bridged(services[..i])
    {
      assert services[..i + 1][..i] == services[..i];
      var s := services[i];
      if s.subnets != [] {
        if subnet in s.subnets { attached := attached + [Resource(cluster, s.name, s.securityGroups)]; }
      } else {
        bridged := bridged + [s];
      }
    }
    assert services[..|services|] == services;
  }

  // ---------------------------------------------------------------- ECS, directly

  /** One cluster, directly: its hosts are only fetched for bridge services. */
  method EcsOfCluster(aws: Aws, cluster: string, subnet: string) returns (resources: seq<Resource>)
    ensures resources == EcsOf(aws, cluster, subnet)
  {
    var services := FetchServices(aws, cluster);
    var bridged;
    resources, bridged := SplitServices(services, ClusterName(cluster), subnet);
    if bridged != [] {
      var hosts := FetchHosts(aws, cluster);
      if hosts != [] && exists k :: 0 <= k < |hosts| && aws.subnetOf(hosts[k]) == subnet {
        resources := resources + BridgeResources(bridged, ClusterName(cluster));
      }
    }
  }

  method EcsDirect(aws: Aws, subnet: string) returns (resources: seq<Resource>)
    ensures resources == EcsIn(aws, aws.clusters, subnet)
  {
    resources := [];
    for i := 0 to |aws.clusters|
      invariant resources == EcsIn(aws, aws.clusters[..i], subnet)
    {
      assert aws.clusters[..i + 1][..i] == aws.clusters[..i];
      var here := EcsOfCluster(aws, aws.clusters[i], subnet);
      resources := resources + here;
    }
    assert aws.clusters[..|aws.clusters|] == aws.clusters;
  }

  // ---------------------------------------------------------------- ECS, through the cache

  datatype Entry = Entry(arn: string, name: string, services: seq<Service>, hosts: seq<string>)

  function EntryOf(aws: Aws, cluster: string): Entry {
    Entry(cluster, ClusterName(cluster), ServicesOf(aws, cluster), HostsOf(aws, cluster))
  }

  /** dict[arn] = entry: an existing key keeps its place. */
  function Put(cache: seq<Entry>, e: Entry): seq<Entry> {
    if exists i :: 0 <= i < |cache| && cache[i].arn == e.arn
    then seq(|cache|, i requires 0 <= i < |cache| => if cache[i].arn == e.arn then e else cache[i])
    else cache + [e]
  }

  function EcsCache(aws: Aws, clusters: seq<string>): seq<Entry> {
    if clusters == [] then []
    else Put(EcsCache(aws, clusters[..|clusters| - 1]), EntryOf(aws, clusters[|clusters| - 1]))
  }

  method FetchEcs(aws: Aws) returns (cache: seq<Entry>)
    ensures cache == EcsCache(aws, aws.clusters)
  {
    cache := [];
    for i := 0 to |aws.clusters|
      invariant cache == EcsCache(aws, aws.clusters[..i])
    {
      assert aws.clusters[..i + 1][..i] == aws.clusters[..i];
      var cluster := aws.clusters[i];
      var services := FetchServices(aws, cluster);
      var hosts := FetchHosts(aws, cluster);
      cache := Put(cache, Entry(cluster, ClusterName(cluster), services, hosts));
    }
    assert aws.clusters[..|aws.clusters|] == aws.clusters;
  }

  function FromEntries(aws: Aws, cache: seq<Entry>, subnet: string): seq<Resource> {
    if cache == [] then []
    else
      var e := cache[|cache| - 1];
      FromEntries(aws, cache[..|cache| - 1], subnet) + EcsResources(aws, e.name, e.services, e.hosts, subnet)
  }

  /** One cluster, from its cache entry. */
  method ClusterResources(aws: Aws, name: string, services: seq<Service>, hosts: seq<string>, subnet: string)
    returns (resources: seq<Resource>)
    ensures resources == EcsResources(aws, name, services, hosts, subnet)
  {
    var attached, bridged := SplitServices(services, name, subnet);
    resources := attached;
    if bridged != [] {
      if hosts != [] && exists k :: 0 <= k < |hosts| && aws.subnetOf(hosts[k]) == subnet {
        resources := resources + BridgeResources(bridged, name);
      }
    }
  }

  method EcsFromCache(aws: Aws, cache: seq<Entry>, subnet: string) returns (resources: seq<Resource>)
    ensures resources == FromEntries(aws, cache, subnet)
  {
    resources := [];
    for i := 0 to |cache|
      invariant resources == FromEntries(aws, cache[..i], subnet)
    {
      assert cache[..i + 1][..i] == cache[..i];
      var e := cache[i];
      var here := ClusterResources(aws, e.name, e.services, e.hosts, subnet);
      resources := resources + here;
    }
    assert cache[..|cache|] == cache;
  }

  function Entries(aws: Aws, clusters: seq<string>): seq<Entry> {
    seq(|clusters|, i requires 0 <= i < |clusters| => EntryOf(aws, clusters[i]))
  }

  /** Putting an entry that is there changes nothing; a new one goes last. */
  lemma PutEntry(aws: Aws, names: seq<string>, name: string)
    ensures Put(Entries(aws, names), EntryOf(aws, name))
             == Entries(aws, if name in names then names else names + [name])
  {
    var cache := Entries(aws, names);
    assert forall i :: 0 <= i < |cache| ==> cache[i].arn == names[i];
    if name in names {
      var i :| 0 <= i < |names| && names[i] == name;
      assert cache[i].arn == name;
    }
  }

  /** The cache holds the clusters without repetitions. */
  lemma {:induction false} CacheIsDedup(aws: Aws, clusters: seq<string>)
    ensures EcsCache(aws, clusters) == Entries(aws, Dedup(clusters))
    decreases |clusters|
  {
    if clusters != [] {
      var before, last := clusters[..|clusters| - 1], clusters[|clusters| - 1];
      CacheIsDedup(aws, before);
      assert clusters == before + [last];
      DedupAppend(before, last);
      DedupIsSet(before);
      PutEntry(aws, Dedup(before), last);
    }
  }

  lemma {:induction false} FromEntriesOf(aws: Aws, clusters: seq<string>, subnet: string)
    ensures FromEntries(aws, Entries(aws, clusters), subnet) == EcsIn(aws, clusters, subnet)
    decreases |clusters|
  {
    if clusters != [] {
      assert Entries(aws, clusters)[..|clusters| - 1] == Entries(aws, clusters[..|clusters| - 1]);
      FromEntriesOf(aws, clusters[..|clusters| - 1], subnet);
    }
  }

  /** For every subnet the cache gives what the direct path gives on the clusters without
      repetitions; when list_clusters repeats none, exactly what the direct path gives. */
  lemma EcsCacheRefines(aws: Aws, subnet: string)
    ensures FromEntries(aws, EcsCache(aws, aws.clusters), subnet) == EcsIn(aws, Dedup(aws.clusters), subnet)
    ensures NoDuplicates(aws.clusters) ==>
      FromEntries(aws, EcsCache(aws, aws.clusters), subnet) == EcsIn(aws, aws.clusters, subnet)
  {
    CacheIsDedup(aws, aws.clusters);
    FromEntriesOf(aws, Dedup(aws.clusters), subnet);
    if NoDuplicates(aws.clusters) { DedupOfDistinct(aws.clusters); }
  }

  // ---------------------------------------------------------------- which services are listed

  /** How a service comes to be listed in a subnet. */
  predicate ListedAs(s: Service, r: Resource, name: string, subnet: string, hosted: bool) {
    || (s.subnets != [] && subnet in s.subnets && r == Resource(name, s.name, s.securityGroups))
    || (s.subnets == [] && hosted && r == Resource(name, s.name, []))
  }

  lemma {:induction false} AttachedIff(services: seq<Service>, name: string, subnet: string, r: Resource)
    ensures r in Attached(services, name, subnet) <==>
      exists i :: 0 <= i < |services| && ListedAs(services[i], r, name, subnet, false)
    decreases |services|
  {
    if services != [] {
      var before, last := services[..|services| - 1], services[|services| - 1];
      AttachedIff(before, name, subnet, r);
      if i :| 0 <= i < |before| && ListedAs(before[i], r, name, subnet, false) { assert services[i] == before[i]; }
      if i :| 0 <= i < |services| && ListedAs(services[i], r, name, subnet, false) && i < |before| {
        assert before[i] == services[i];
      }
      if ListedAs(last, r, name, subnet, false) { assert services[|services| - 1] == last; }
    }
  }

  lemma {:induction false} BridgedIff(services: seq<Service>, s: Service)
    ensures s in Bridged(services) <==> s in services && s.subnets == []
    decreases |services|
  {
    if services != [] {
      BridgedIff(services[..|services| - 1], s);
      assert services == services[..|services| - 1] + [services[|services| - 1]];
    }
  }

  /** A cluster lists exactly its services with a network of their own in the subnet and, when one of
      its hosts is there, those without. */
  lemma EcsListsIff(aws: Aws, cluster: string, subnet: string, r: Resource)
    ensures var services := ServicesOf(aws, cluster);
      r in EcsOf(aws, cluster, subnet) <==>
        exists i :: 0 <= i < |services|
          && ListedAs(services[i], r, ClusterName(cluster), subnet, AnyIn(aws, HostsOf(aws, cluster), subnet))
  {
    var services, name := ServicesOf(aws, cluster), ClusterName(cluster);
    var hosted := AnyIn(aws, HostsOf(aws, cluster), subnet);
    var bridged := Bridged(services);
    AttachedIff(services, name, subnet, r);
    if r in EcsOf(aws, cluster, subnet) && r !in Attached(services, name, subnet) {
      var k :| 0 <= k < |bridged| && BridgeResources(bridged, name)[k] == r;
      BridgedIff(services, bridged[k]);
      var i :| 0 <= i < |services| && services[i] == bridged[k];
      assert ListedAs(services[i], r, name, subnet, hosted);
    }
    if i :| 0 <= i < |services| && ListedAs(services[i], r, name, subnet, hosted) {
      if services[i].subnets == [] {
        BridgedIff(services, services[i]);
        var k :| 0 <= k < |bridged| && bridged[k] == services[i];
        assert BridgeResources(bridged, name)[k] == r;
      } else {
        assert ListedAs(services[i], r, name, subnet, false);
      }
    }
    if i :| 0 <= i < |services| && ListedAs(services[i], r, name, subnet, false) {
      assert ListedAs(services[i], r, name, subnet, hosted);
    }
  }

  // ---------------------------------------------------------------- ElastiCache

  function InGroup(g: SubnetGroup, subnet: string, vpc: string): bool { subnet in g.subnetIds && g.vpcId == vpc }

  function CacheResource(c: CacheCluster): Resource { Resource(c.id, c.id, c.securityGroups) }

  /** The direct path lists a cluster once for every matching group its name stands for. */
  function FromGroups(c: CacheCluster, groups: seq<SubnetGroup>, subnet: string, vpc: string): seq<Resource> {
    if groups == [] then []
    else
      FromGroups(c, groups[..|groups| - 1], subnet, vpc)
      + (if InGroup(groups[|groups| - 1], subnet, vpc) then [CacheResource(c)] else [])
  }

  function DirectOf(aws: Aws, c: CacheCluster, subnet: string, vpc: string): seq<Resource> {
    if c.subnetGroup == "" then [] else FromGroups(c, aws.groups(c.subnetGroup), subnet, vpc)
  }

  function DirectIn(aws: Aws, clusters: seq<CacheCluster>, subnet: string, vpc: string): seq<Resource> {
    if clusters == [] then []
    else DirectIn(aws, clusters[..|clusters| - 1], subnet, vpc) + DirectOf(aws, clusters[|clusters| - 1], subnet, vpc)
  }

  lemma {:induction false} FromGroupsIff(c: CacheCluster, groups: seq<SubnetGroup>, subnet: string, vpc: string,
                                         r: Resource)
    ensures r in FromGroups(c, groups, subnet, vpc) <==>
      r == CacheResource(c) && exists i :: 0 <= i < |groups| && InGroup(groups[i], subnet, vpc)
    decreases |groups|
  {
    if groups != [] {
      var before := groups[..|groups| - 1];
      FromGroupsIff(c, before, subnet, vpc, r);
      if i :| 0 <= i < |before| && InGroup(before[i], subnet, vpc) { assert groups[i] == before[i]; }
      if i :| 0 <= i < |groups| && InGroup(groups[i], subnet, vpc) && i < |before| { assert before[i] == groups[i]; }
    }
  }

  /** A cluster is listed exactly when one of the groups its name stands for is of this VPC and holds
      the subnet. */
  lemma DirectListsIff(aws: Aws, c: CacheCluster, subnet: string, vpc: string, r: Resource)
    ensures r in DirectOf(aws, c, subnet, vpc) <==>
      && c.subnetGroup != "" && r == Resource(c.id, c.id, c.securityGroups)
      && exists g :: g in aws.groups(c.subnetGroup) && g.vpcId == vpc && subnet in g.subnetIds
  {
    var groups := aws.groups(c.subnetGroup);
    FromGroupsIff(c, groups, subnet, vpc, r);
    if g :| g in groups && g.vpcId == vpc && subnet in g.subnetIds {
      var i :| 0 <= i < |groups| && groups[i] == g;
      assert InGroup(groups[i], subnet, vpc);
    }
    if i :| 0 <= i < |groups| && InGroup(groups[i], subnet, vpc) { assert groups[i] in groups; }
  }

  /** The first answer of describe_cache_clusters. */
  function FirstPage(aws: Aws): seq<CacheCluster> { if aws.cachePages == [] then [] else aws.cachePages[0] }

  method DirectGroups(aws: Aws, c: CacheCluster, subnet: string, vpc: string) returns (resources: seq<Resource>)
    ensures resources == DirectOf(aws, c, subnet, vpc)
  {
    resources := [];
    if c.subnetGroup != "" {
      var groups := aws.groups(c.subnetGroup);
      for j := 0 to |groups|
        invariant resources == FromGroups(c, groups[..j], subnet, vpc)
      {
        assert groups[..j + 1][..j] == groups[..j];
        if InGroup(groups[j], subnet, vpc) { resources := resources + [CacheResource(c)]; }
      }
      assert groups[..|groups|] == groups;
    }
  }

  method CacheDirect(aws: Aws, subnet: string, vpc: string) returns (resources: seq<Resource>)
    ensures resources == DirectIn(aws, FirstPage(aws), subnet, vpc)
  {
    resources := [];
    var clusters := FirstPage(aws);
    for i := 0 to |clusters|
      invariant resources == DirectIn(aws, clusters[..i], subnet, vpc)
    {
      assert clusters[..i + 1][..i] == clusters[..i];
      var here := DirectGroups(aws, clusters[i], subnet, vpc);
      resources := resources + here;
    }
    assert clusters[..|clusters|] == clusters;
  }

  /** A cluster with the group its subnet group name was resolved to. */
  datatype Resolved = Resolved(cluster: CacheCluster, group: SubnetGroup)

  /** The group a name is resolved to: the last one answered. */
  predicate Resolves(aws: Aws, name: string) { name != "" && aws.groups(name) != [] }

  function GroupOf(aws: Aws, name: string): SubnetGroup
    requires Resolves(aws, name)
  {
    aws.groups(name)[|aws.groups(name)| - 1]
  }

  function ResolveAll(aws: Aws, clusters: seq<CacheCluster>): seq<Resolved> {
    if clusters == [] then []
    else
      var c := clusters[|clusters| - 1];
      ResolveAll(aws, clusters[..|clusters| - 1])
      + (if Resolves(aws, c.subnetGroup) then [Resolved(c, GroupOf(aws, c.subnetGroup))] else [])
  }

  /** The map from names to groups knows what the snapshot answers for the names it was asked. */
  ghost predicate Knows(aws: Aws, map0: map<string, SubnetGroup>, asked: set<string>) {
    && (forall name :: name in map0 <==> name in asked && aws.groups(name) != [])
    && (forall name :: name in map0 ==> map0[name] == aws.groups(name)[|aws.groups(name)| - 1])
  }

  method ResolveGroups(aws: Aws, names: set<string>) returns (groupOf: map<string, SubnetGroup>)
    ensures Knows(aws, groupOf, names)
  {
    groupOf := map[];
    var left := names;
    while left != {}
      invariant left <= names && Knows(aws, groupOf, names - left)
    {
      var name :| name in left;
      var groups := aws.groups(name);
      ghost var before := groupOf;
      for j := 0 to |groups|
        invariant groupOf == if j == 0 then before else before[name := groups[j - 1]]
      {
        groupOf := groupOf[name := groups[j]];
      }
      left := left - {name};
    }
  }

  method FetchCacheClusters(aws: Aws) returns (resolved: seq<Resolved>)
    ensures resolved == ResolveAll(aws, Flat(aws.cachePages))
  {
    var clusters := CollectPages(aws.cachePages);
    var names := set i | 0 <= i < |clusters| && clusters[i].subnetGroup != "" :: clusters[i].subnetGroup;
    var groupOf := ResolveGroups(aws, names);
    resolved := [];
    for i := 0 to |clusters|
      invariant resolved == ResolveAll(aws, clusters[..i])
    {
      assert clusters[..i + 1][..i] == clusters[..i];
      var c := clusters[i];
      if c.subnetGroup != "" && c.subnetGroup in groupOf {
        resolved := resolved + [Resolved(c, groupOf[c.subnetGroup])];
      }
    }
    assert clusters[..|clusters|] == clusters;
  }

  function CachedIn(resolved: seq<Resolved>, subnet: string, vpc: string): seq<Resource> {
    if resolved == [] then []
    else
      var r := resolved[|resolved| - 1];
      CachedIn(resolved[..|resolved| - 1], subnet, vpc)
      + (if InGroup(r.group, subnet, vpc) then [CacheResource(r.cluster)] else [])
  }

  method CacheFromCache(resolved: seq<Resolved>, subnet: string, vpc: string) returns (resources: seq<Resource>)
    ensures resources == CachedIn(resolved, subnet, vpc)
  {
    resources := [];
    for i := 0 to |resolved|
      invariant resources == CachedIn(resolved[..i], subnet, vpc)
    {
      assert resolved[..i + 1][..i] == resolved[..i];
      if InGroup(resolved[i].group, subnet, vpc) { resources := resources + [CacheResource(resolved[i].cluster)]; }
    }
    assert resolved[..|resolved|] == resolved;
  }

  /** AWS answers at most one group for a name. */
  ghost predicate OneGroup(aws: Aws) { forall name :: |aws.groups(name)| <= 1 }

  lemma OneGroupAgrees(aws: Aws, c: CacheCluster, subnet: string, vpc: string)
    requires |aws.groups(c.subnetGroup)| <= 1
    ensures DirectOf(aws, c, subnet, vpc) ==
      if Resolves(aws, c.subnetGroup) && InGroup(GroupOf(aws, c.subnetGroup), subnet, vpc)
      then [CacheResource(c)] else []
  {
    if |aws.groups(c.subnetGroup)| == 1 { LastGroup(c, [], aws.groups(c.subnetGroup)[0], subnet, vpc); }
  }

  lemma LastGroup(c: CacheCluster, groups: seq<SubnetGroup>, g: SubnetGroup, subnet: string, vpc: string)
    ensures FromGroups(c, groups + [g], subnet, vpc) ==
      FromGroups(c, groups, subnet, vpc) + (if InGroup(g, subnet, vpc) then [CacheResource(c)] else [])
  {
    assert (groups + [g])[..|groups|] == groups;
  }

  /** On the same clusters cached and direct agree. */
  lemma {:induction false} SameClusters(aws: Aws, clusters: seq<CacheCluster>, subnet: string, vpc: string)
    requires OneGroup(aws)
    ensures CachedIn(ResolveAll(aws, clusters), subnet, vpc) == DirectIn(aws, clusters, subnet, vpc)
    decreases |clusters|
  {
    if clusters != [] {
      var before, c := clusters[..|clusters| - 1], clusters[|clusters| - 1];
      SameClusters(aws, before, subnet, vpc);
      OneGroupAgrees(aws, c, subnet, vpc);
      var r := ResolveAll(aws, before);
      if Resolves(aws, c.subnetGroup) {
        var more := r + [Resolved(c, GroupOf(aws, c.subnetGroup))];
        assert more[..|r|] == r;
      } else {
        assert r + [] == r;
      }
    }
  }

  lemma Reassociate<T>(a: seq<T>, b: seq<T>, c: seq<T>)
    ensures (a + b) + c == a + (b + c)
  {
  }

  lemma {:induction false} DirectConcat(aws: Aws, a: seq<CacheCluster>, b: seq<CacheCluster>, subnet: string,
                                        vpc: string)
    ensures DirectIn(aws, a + b, subnet, vpc) == DirectIn(aws, a, subnet, vpc) + DirectIn(aws, b, subnet, vpc)
    decreases |b|
  {
    if b == [] {
      assert a + b == a;
    } else {
      assert (a + b)[..|a + b| - 1] == a + b[..|b| - 1];
      DirectConcat(aws, a, b[..|b| - 1], subnet, vpc);
      Reassociate(DirectIn(aws, a, subnet, vpc), DirectIn(aws, b[..|b| - 1], subnet, vpc),
                  DirectOf(aws, b[|b| - 1], subnet, vpc));
    }
  }

  lemma {:induction false} FlatFirst<T>(pages: seq<seq<T>>)
    requires pages != []
    ensures Flat(pages) == pages[0] + Flat(pages[1..])
    decreases |pages|
  {
    if |pages| == 1 {
      assert pages[..0] == [] && pages[1..] == [];
    } else {
      FlatFirst(pages[..|pages| - 1]);
      assert pages[..|pages| - 1][1..] == pages[1..][..|pages| - 2];
    }
  }

  function LaterPages(aws: Aws): seq<CacheCluster> { if aws.cachePages == [] then [] else Flat(aws.cachePages[1..]) }

  /** A group that the cluster's name stands for is of the VPC and holds the subnet. */
  ghost predicate IsIn(aws: Aws, c: CacheCluster, subnet: string, vpc: string) {
    c.subnetGroup != "" && exists g :: g in aws.groups(c.subnetGroup) && InGroup(g, subnet, vpc)
  }

  lemma NoneListedIff(aws: Aws, c: CacheCluster, subnet: string, vpc: string)
    ensures DirectOf(aws, c, subnet, vpc) == [] <==> !IsIn(aws, c, subnet, vpc)
  {
    DirectListsIff(aws, c, subnet, vpc, CacheResource(c));
    if DirectOf(aws, c, subnet, vpc) != [] {
      var r := DirectOf(aws, c, subnet, vpc)[0];
      DirectListsIff(aws, c, subnet, vpc, r);
    }
  }

  /** Nothing is listed exactly when no cluster is in the subnet. */
  lemma {:induction false} NothingListedIff(aws: Aws, clusters: seq<CacheCluster>, subnet: string, vpc: string)
    ensures DirectIn(aws, clusters, subnet, vpc) == [] <==> forall c :: c in clusters ==> !IsIn(aws, c, subnet, vpc)
    decreases |clusters|
  {
    if clusters != [] {
      var before, last := clusters[..|clusters| - 1], clusters[|clusters| - 1];
      assert clusters == before + [last];
      NothingListedIff(aws, before, subnet, vpc);
      NoneListedIff(aws, last, subnet, vpc);
    }
  }

  /** The cache reads every page, the direct path only the first: with one group for each name the
      cached list is the direct list followed by the matches on the later pages, so the two are
      equal exactly when no cluster on a later page is in the subnet. */
  lemma ElastiCacheRefines(aws: Aws, subnet: string, vpc: string)
    requires OneGroup(aws)
    ensures var cached := CachedIn(ResolveAll(aws, Flat(aws.cachePages)), subnet, vpc);
      var direct := DirectIn(aws, FirstPage(aws), subnet, vpc);
      && cached == direct + DirectIn(aws, LaterPages(aws), subnet, vpc)
      && (cached == direct <==> forall c :: c in LaterPages(aws) ==> !IsIn(aws, c, subnet, vpc))
  {
    NothingListedIff(aws, LaterPages(aws), subnet, vpc);
    SameClusters(aws, Flat(aws.cachePages), subnet, vpc);
    if aws.cachePages != [] { FlatFirst(aws.cachePages); }
    assert Flat(aws.cachePages) == FirstPage(aws) + LaterPages(aws);
    DirectConcat(aws, FirstPage(aws), LaterPages(aws), subnet, vpc);
  }

  /** A cluster on the second page: only the cache lists it. */
  lemma SecondPageMissed(aws: Aws, c: CacheCluster, g: SubnetGroup, subnet: string, vpc: string)
    requires OneGroup(aws) && aws.cachePages == [[], [c]]
    requires c.subnetGroup != "" && aws.groups(c.subnetGroup) == [g] && InGroup(g, subnet, vpc)
    ensures DirectIn(aws, FirstPage(aws), subnet, vpc) == []
    ensures CachedIn(ResolveAll(aws, Flat(aws.cachePages)), subnet, vpc) != []
  {
    ElastiCacheRefines(aws, subnet, vpc);
    var later: seq<seq<CacheCluster>> := [[c]];
    assert aws.cachePages[1..] == later;
    FlatFirst(later);
    assert c in LaterPages(aws) && g in aws.groups(c.subnetGroup);
  }

  /** Two groups for a name: the direct path can list a cluster the cache does not. */
  lemma TwoGroupsDiffer(aws: Aws, c: CacheCluster, g: SubnetGroup, h: SubnetGroup, subnet: string, vpc: string)
    requires c.subnetGroup != "" && aws.groups(c.subnetGroup) == [g, h]
    requires InGroup(g, subnet, vpc) && !InGroup(h, subnet, vpc) && aws.cachePages == [[c]]
    ensures DirectIn(aws, FirstPage(aws), subnet, vpc) == [CacheResource(c)]
    ensures CachedIn(ResolveAll(aws, Flat(aws.cachePages)), subnet, vpc) == []
  {
    LastGroup(c, [], g, subnet, vpc);
    LastGroup(c, [g], h, subnet, vpc);
    assert [] + [g] == [g] && [g] + [h] == [g, h];
    OnlyCluster(aws, c, subnet, vpc);
    FlatFirst([[c]]);
    assert [[c]][1..] == [] && [c] + [] == [c];
    OnlyResolved(Resolved(c, h), subnet, vpc);
  }

  lemma OnlyCluster(aws: Aws, c: CacheCluster, subnet: string, vpc: string)
    ensures DirectIn(aws, [c], subnet, vpc) == DirectOf(aws, c, subnet, vpc)
    ensures ResolveAll(aws, [c])
             == if Resolves(aws, c.subnetGroup) then [Resolved(c, GroupOf(aws, c.subnetGroup))] else []
  {
    assert [c][..0] == [];
  }

  lemma OnlyResolved(r: Resolved, subnet: string, vpc: string)
    ensures CachedIn([r], subnet, vpc) == if InGroup(r.group, subnet, vpc) then [CacheResource(r.cluster)] else []
  {
    assert [r][..0] == [];
  }
}
