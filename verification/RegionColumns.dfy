/**
  What the ECS and ElastiCache lists of a subnet hold, read off the answers of the AWS calls alone,
  for the direct path and for the cache.
*/
module RegionColumns {
  import opened Sequences
  import opened RegionCache

  // ---------------------------------------------------------------- names, pages

  /** The name of a cluster is what stands behind the last "/" of its ARN. */
  lemma {:induction false} ClusterNameIs(arn: string) returns (front: string)
    ensures arn == front + ClusterName(arn) && '/' !in ClusterName(arn)
    ensures front == "" || front[|front| - 1] == '/'
    decreases |arn|
  {
    if '/' in arn {
      var tail := arn[1..];
      var rest := ClusterNameIs(tail);
      front := [arn[0]] + rest;
      InFront(arn, tail, rest, ClusterName(tail));
    } else {
      front := "";
    }
  }

  lemma InFront(arn: string, tail: string, rest: string, name: string)
    requires '/' in arn && tail == arn[1..] && tail == rest + name && '/' !in name
    ensures arn == [arn[0]] + rest + name && (rest == "" ==> arn[0] == '/')
  {
    assert arn == [arn[0]] + tail;
  }

  /** The item stands on some page. */
  ghost predicate OnPage<T>(pages: seq<seq<T>>, x: T) { exists p :: 0 <= p < |pages| && x in pages[p] }

  lemma {:induction false} FlatIff<T>(pages: seq<seq<T>>, x: T)
    ensures x in Flat(pages) <==> OnPage(pages, x)
    decreases |pages|
  {
    if pages != [] {
      var before, last := pages[..|pages| - 1], pages[|pages| - 1];
      FlatIff(before, x);
      if p :| 0 <= p < |before| && x in before[p] { assert x in pages[p]; }
      if p :| 0 <= p < |pages| && x in pages[p] && p < |before| { assert x in before[p]; }
    }
  }

  /** The items of the first page come first, and so on. */
  lemma {:induction false} FlatOrder<T>(pages: seq<seq<T>>, p: nat, i: nat)
    requires p < |pages| && i < |pages[p]|
    ensures |Flat(pages[..p])| + i < |Flat(pages)| && Flat(pages)[|Flat(pages[..p])| + i] == pages[p][i]
    decreases |pages|
  {
    if p < |pages| - 1 {
      assert pages[..|pages| - 1][..p] == pages[..p];
      FlatOrder(pages[..|pages| - 1], p, i);
    }
  }

  // ---------------------------------------------------------------- ECS

  lemma {:induction false} ServicesIff(aws: Aws, cluster: string, arns: seq<string>, s: Service)
    ensures s in Services(aws, cluster, arns) <==> exists arn :: arn in arns && s in aws.service(cluster, arn)
    decreases |arns|
  {
    if arns != [] {
      var before, last := arns[..|arns| - 1], arns[|arns| - 1];
      assert arns == before + [last];
      ServicesIff(aws, cluster, before, s);
    }
  }

  lemma {:induction false} HostsIff(aws: Aws, cluster: string, arns: seq<string>, host: string)
    ensures host in Hosts(aws, cluster, arns)
       <==> host != "" && exists arn :: arn in arns && aws.host(cluster, arn) == host
    decreases |arns|
  {
    if arns != [] {
      var before, last := arns[..|arns| - 1], arns[|arns| - 1];
      assert arns == before + [last];
      HostsIff(aws, cluster, before, host);
    }
  }

  /** A service the cluster lists on some page and that still exists. */
  ghost predicate HasService(aws: Aws, cluster: string, s: Service) {
    exists arn :: OnPage(aws.servicePages(cluster), arn) && s in aws.service(cluster, arn)
  }

  /** One of the cluster's container instances is an EC2 instance in the subnet. */
  ghost predicate HasHost(aws: Aws, cluster: string, subnet: string) {
    exists arn :: OnPage(aws.hostPages(cluster), arn) && aws.host(cluster, arn) != ""
                  && aws.subnetOf(aws.host(cluster, arn)) == subnet
  }

  lemma ServiceIff(aws: Aws, cluster: string, s: Service)
    ensures s in ServicesOf(aws, cluster) <==> HasService(aws, cluster, s)
  {
    var arns := Flat(aws.servicePages(cluster));
    ServicesIff(aws, cluster, arns, s);
    forall arn ensures arn in arns <==> OnPage(aws.servicePages(cluster), arn) {
      FlatIff(aws.servicePages(cluster), arn);
    }
  }

  lemma HostIff(aws: Aws, cluster: string, subnet: string)
    ensures AnyIn(aws, HostsOf(aws, cluster), subnet) <==> HasHost(aws, cluster, subnet)
  {
    var arns, hosts := Flat(aws.hostPages(cluster)), HostsOf(aws, cluster);
    forall arn ensures arn in arns <==> OnPage(aws.hostPages(cluster), arn) { FlatIff(aws.hostPages(cluster), arn); }
    if i :| 0 <= i < |hosts| && aws.subnetOf(hosts[i]) == subnet {
      HostsIff(aws, cluster, arns, hosts[i]);
      assert hosts[i] in hosts;
    }
    if arn :| OnPage(aws.hostPages(cluster), arn) && aws.host(cluster, arn) != ""
              && aws.subnetOf(aws.host(cluster, arn)) == subnet {
      HostsIff(aws, cluster, arns, aws.host(cluster, arn));
      var i :| 0 <= i < |hosts| && hosts[i] == aws.host(cluster, arn);
    }
  }

  /** The service is listed as r: with a network of its own in the subnet, or without one on a cluster
      with a host there. */
  ghost predicate Lists(aws: Aws, cluster: string, subnet: string, s: Service, r: Resource) {
    && r.cluster == ClusterName(cluster) && r.name == s.name
    && if s.subnets != [] then subnet in s.subnets && r.securityGroups == s.securityGroups
       else HasHost(aws, cluster, subnet) && r.securityGroups == []
  }

  /** A subnet's ECS list holds exactly the services of its clusters that are there. */
  lemma EcsHoldsIff(aws: Aws, cluster: string, subnet: string, r: Resource)
    ensures r in EcsOf(aws, cluster, subnet) <==>
      exists s :: HasService(aws, cluster, s) && Lists(aws, cluster, subnet, s, r)
  {
    var services := ServicesOf(aws, cluster);
    EcsListsIff(aws, cluster, subnet, r);
    HostIff(aws, cluster, subnet);
    forall s ensures s in services <==> HasService(aws, cluster, s) { ServiceIff(aws, cluster, s); }
    if s :| HasService(aws, cluster, s) && Lists(aws, cluster, subnet, s, r) {
      var i :| 0 <= i < |services| && services[i] == s;
      assert ListedAs(services[i], r, ClusterName(cluster), subnet, AnyIn(aws, HostsOf(aws, cluster), subnet));
    }
    if i :| 0 <= i < |services|
            && ListedAs(services[i], r, ClusterName(cluster), subnet, AnyIn(aws, HostsOf(aws, cluster), subnet)) {
      assert services[i] in services && Lists(aws, cluster, subnet, services[i], r);
    }
  }

  lemma {:induction false} ClustersHoldIff(aws: Aws, clusters: seq<string>, subnet: string, r: Resource)
    ensures r in EcsIn(aws, clusters, subnet) <==>
      exists cluster, s :: cluster in clusters && HasService(aws, cluster, s) && Lists(aws, cluster, subnet, s, r)
    decreases |clusters|
  {
    if clusters != [] {
      var before, last := clusters[..|clusters| - 1], clusters[|clusters| - 1];
      assert clusters == before + [last];
      ClustersHoldIff(aws, before, subnet, r);
      EcsHoldsIff(aws, last, subnet, r);
    }
  }

  /** The list read directly and the one read from the cache hold the same: the services of all
      clusters that are in the subnet. */
  lemma EcsListsHold(aws: Aws, subnet: string, r: Resource)
    ensures r in EcsIn(aws, aws.clusters, subnet) <==>
      exists cluster, s :: cluster in aws.clusters && HasService(aws, cluster, s) && Lists(aws, cluster, subnet, s, r)
    ensures r in FromEntries(aws, EcsCache(aws, aws.clusters), subnet) <==> r in EcsIn(aws, aws.clusters, subnet)
  {
    ClustersHoldIff(aws, aws.clusters, subnet, r);
    EcsCacheRefines(aws, subnet);
    ClustersHoldIff(aws, Dedup(aws.clusters), subnet, r);
    DedupIsSet(aws.clusters);
  }

  /** The order: a cluster's services with a network of their own come first, in the order they are
      listed, then those without. */
  lemma EcsOrder(aws: Aws, cluster: string, subnet: string, own: Service -> seq<Resource>,
                 rest: Service -> seq<Resource>)
    requires forall s :: own(s) == if s.subnets != [] && subnet in s.subnets
                                   then [Resource(ClusterName(cluster), s.name, s.securityGroups)] else []
    requires forall s :: rest(s) == if s.subnets == [] then [Resource(ClusterName(cluster), s.name, [])] else []
    ensures EcsOf(aws, cluster, subnet) == FlatMap(ServicesOf(aws, cluster), own)
      + if HasHost(aws, cluster, subnet) then FlatMap(ServicesOf(aws, cluster), rest) else []
  {
    HostIff(aws, cluster, subnet);
    OwnOrder(ServicesOf(aws, cluster), ClusterName(cluster), subnet, own);
    RestOrder(ServicesOf(aws, cluster), ClusterName(cluster), rest);
  }

  lemma {:induction false} OwnOrder(services: seq<Service>, name: string, subnet: string, own: Service -> seq<Resource>)
    requires forall s :: own(s) == if s.subnets != [] && subnet in s.subnets
                                   then [Resource(name, s.name, s.securityGroups)] else []
    ensures Attached(services, name, subnet) == FlatMap(services, own)
    decreases |services|
  {
    if services != [] { OwnOrder(services[..|services| - 1], name, subnet, own); }
  }

  lemma {:induction false} RestOrder(services: seq<Service>, name: string, rest: Service -> seq<Resource>)
    requires forall s :: rest(s) == if s.subnets == [] then [Resource(name, s.name, [])] else []
    ensures BridgeResources(Bridged(services), name) == FlatMap(services, rest)
    decreases |services|
  {
    if services != [] {
      var before, last := services[..|services| - 1], services[|services| - 1];
      RestOrder(before, name, rest);
      if last.subnets == [] {
        assert BridgeResources(Bridged(before) + [last], name) == BridgeResources(Bridged(before), name) + rest(last);
      } else {
        assert Bridged(before) + [] == Bridged(before) && FlatMap(before, rest) + [] == FlatMap(before, rest);
      }
    }
  }

  // ---------------------------------------------------------------- ElastiCache

  /** The last group answered for the cluster's group name is of the VPC and holds the subnet. */
  ghost predicate LastGroupHolds(aws: Aws, c: CacheCluster, subnet: string, vpc: string) {
    && c.subnetGroup != "" && aws.groups(c.subnetGroup) != []
    && var g := aws.groups(c.subnetGroup)[|aws.groups(c.subnetGroup)| - 1]; g.vpcId == vpc && subnet in g.subnetIds
  }

  /** The cached list holds exactly the clusters of all pages whose last group is there. */
  lemma CachedHoldsIff(aws: Aws, subnet: string, vpc: string, r: Resource)
    ensures r in CachedIn(ResolveAll(aws, Flat(aws.cachePages)), subnet, vpc) <==>
      exists c :: OnPage(aws.cachePages, c) && LastGroupHolds(aws, c, subnet, vpc)
                  && r == Resource(c.id, c.id, c.securityGroups)
  {
    ResolvedHoldsIff(aws, Flat(aws.cachePages), subnet, vpc, r);
    forall c ensures c in Flat(aws.cachePages) <==> OnPage(aws.cachePages, c) { FlatIff(aws.cachePages, c); }
  }

  lemma {:induction false} ResolvedHoldsIff(aws: Aws, clusters: seq<CacheCluster>, subnet: string, vpc: string,
                                            r: Resource)
    ensures r in CachedIn(ResolveAll(aws, clusters), subnet, vpc) <==>
      exists c :: c in clusters && LastGroupHolds(aws, c, subnet, vpc) && r == Resource(c.id, c.id, c.securityGroups)
    decreases |clusters|
  {
    if clusters != [] {
      var before, last := clusters[..|clusters| - 1], clusters[|clusters| - 1];
      assert clusters == before + [last];
      ResolvedHoldsIff(aws, before, subnet, vpc, r);
      var resolved := ResolveAll(aws, before);
      if Resolves(aws, last.subnetGroup) {
        var more := resolved + [Resolved(last, GroupOf(aws, last.subnetGroup))];
        assert more[..|resolved|] == resolved;
      } else {
        assert resolved + [] == resolved;
      }
    }
  }

  /** The direct list holds exactly the clusters of the first page with a group that is there. */
  lemma DirectHoldsIff(aws: Aws, subnet: string, vpc: string, r: Resource)
    ensures r in DirectIn(aws, FirstPage(aws), subnet, vpc) <==>
      aws.cachePages != []
      && exists c :: c in aws.cachePages[0] && IsIn(aws, c, subnet, vpc) && r == Resource(c.id, c.id, c.securityGroups)
  {
    ClustersDirectIff(aws, FirstPage(aws), subnet, vpc, r);
  }

  lemma {:induction false} ClustersDirectIff(aws: Aws, clusters: seq<CacheCluster>, subnet: string, vpc: string,
                                             r: Resource)
    ensures r in DirectIn(aws, clusters, subnet, vpc) <==>
      exists c :: c in clusters && IsIn(aws, c, subnet, vpc) && r == Resource(c.id, c.id, c.securityGroups)
    decreases |clusters|
  {
    if clusters != [] {
      var before, last := clusters[..|clusters| - 1], clusters[|clusters| - 1];
      assert clusters == before + [last];
      ClustersDirectIff(aws, before, subnet, vpc, r);
      DirectListsIff(aws, last, subnet, vpc, r);
    }
  }
}
