/** The topology tree builder inside `generate_architecture_diagram`: the
    clusters, leaves and edges the code hands to the diagram renderer, built
    network by network, zone by zone and subnet by subnet. The renderer itself
    is not modelled; what it receives is an abstract tree. */
module Diagram {
  import opened Records
  import opened Tags
  import opened Labels
  import opened Routing
  import opened Complexity
  import opened Counting

  const VpcNameWidth: nat := 20
  const SubnetNameWidth: nat := 15
  const LeafNameWidth: nat := 12

  /** A resource node and the three lines of its label. */
  datatype Leaf =
    | Ec2Leaf(name: string, instanceType: string, state: string)
    | RdsLeaf(name: string, engine: string, status: string)
    | ElbLeaf(name: string, lbType: string, scheme: string)

  /** A subnet cluster: label lines (name, role, CIDR) and its leaves. */
  datatype SubnetCluster = SubnetCluster(name: string, role: Role, cidrBlock: string, leaves: seq<Leaf>)

  /** A zone cluster: its caption shows the zone's last character and the
      resource count; `nats` holds the labels of its NAT gateway nodes. */
  datatype AzCluster = AzCluster(zone: string, resources: nat, subnets: seq<SubnetCluster>, nats: seq<string>)

  /** A node, addressed inside its network's cluster: the shared Internet node,
      the k-th gateway node, a leaf by zone, subnet and position, or a NAT node
      by zone and position. */
  datatype Endpoint =
    | InternetNode
    | IgwNode(index: nat)
    | SubnetLeafNode(az: nat, subnet: nat, leaf: nat)
    | NatNode(az: nat, position: nat)

  /** A directed edge (`a >> b`). */
  datatype Edge = Edge(from: Endpoint, to: Endpoint)

  /** A network cluster: caption (name, CIDR, resource count), its gateway
      nodes (all labelled "IGW"), its zone clusters, and the edges drawn while
      it was open, in drawing order. */
  datatype VpcCluster = VpcCluster(
    name: string,
    cidrBlock: string,
    resources: nat,
    igws: nat,
    azs: seq<AzCluster>,
    edges: seq<Edge>)

  datatype ArchitectureDiagram = ArchitectureDiagram(layout: Layout, vpcs: seq<VpcCluster>)

  // ----- What each cluster holds -----

  function Ec2LeafOf(i: Instance): Leaf
  {
    Ec2Leaf(SafeName(InstanceName(i), LeafNameWidth), i.instanceType, i.state)
  }

  function RdsLeafOf(r: DbInstance): Leaf
  {
    RdsLeaf(SafeName(r.dbInstanceIdentifier, LeafNameWidth), r.engine, r.dbInstanceStatus)
  }

  function ElbLeafOf(l: LoadBalancer): Leaf
  {
    ElbLeaf(SafeName(l.loadBalancerName, LeafNameWidth), l.lbType, l.scheme)
  }

  /** The leaves of subnet `sid`: its instances, then its databases, then its
      load balancers, each group in snapshot order. */
  function LeavesOf(d: Dataset, sid: string): (r: seq<Leaf>)
    ensures |r| == SubnetResourceCount(d, sid)
  {
    var instances := InstancesIn(d, sid);
    var dbs := RdsIn(d, sid);
    var lbs := LbsIn(d, sid);
    seq(|instances|, k requires 0 <= k < |instances| => Ec2LeafOf(instances[k])) +
    seq(|dbs|, k requires 0 <= k < |dbs| => RdsLeafOf(dbs[k])) +
    seq(|lbs|, k requires 0 <= k < |lbs| => ElbLeafOf(lbs[k]))
  }

  function SubnetClusterOf(d: Dataset, tables: seq<RouteTable>, s: Subnet): SubnetCluster
  {
    SubnetCluster(SafeName(SubnetName(s), SubnetNameWidth), ClassifySubnet(s, tables), s.cidrBlock, LeavesOf(d, s.subnetId))
  }

  /** The subnet clusters of a zone: one per subnet with at least one resource. */
  function SubnetClusters(d: Dataset, tables: seq<RouteTable>, group: seq<Subnet>): (r: seq<SubnetCluster>)
    ensures forall c :: c in r ==> |c.leaves| > 0
    ensures forall s :: s in group && SubnetResourceCount(d, s.subnetId) > 0 ==> SubnetClusterOf(d, tables, s) in r
    ensures |r| <= |group|
  {
    if group == [] then []
    else
      var s := group[|group| - 1];
      assert forall x :: x in group <==> x in group[..|group| - 1] || x == s;
      SubnetClusters(d, tables, group[..|group| - 1]) +
        if SubnetResourceCount(d, s.subnetId) > 0 then [SubnetClusterOf(d, tables, s)] else []
  }

  function SubnetIds(group: seq<Subnet>): seq<string>
  {
    seq(|group|, k requires 0 <= k < |group| => group[k].subnetId)
  }

  /** The NAT gateways drawn in a zone: available ones whose (non-empty)
      subnet is one of the zone's subnets, drawn or not. */
  function NatsDrawn(nats: seq<NatGateway>, group: seq<Subnet>): seq<NatGateway>
  {
    Filter(nats, (n: NatGateway) => n.subnetId != "" && n.subnetId in SubnetIds(group) && n.state == Some("available"))
  }

  function NatLabel(n: NatGateway): string
  {
    "NAT-" + Suffix8(n.natGatewayId)
  }

  /** The labels of the NAT nodes drawn, in order. */
  function NatLabelsOf(drawn: seq<NatGateway>): seq<string>
  {
    if drawn == [] then [] else NatLabelsOf(drawn[..|drawn| - 1]) + [NatLabel(drawn[|drawn| - 1])]
  }

  function NatLabels(d: Dataset, group: seq<Subnet>): seq<string>
  {
    NatLabelsOf(NatsDrawn(d.nats, group))
  }

  function AzClusterOf(d: Dataset, tables: seq<RouteTable>, zone: string, group: seq<Subnet>): AzCluster
  {
    AzCluster(zone, SumCounts(d, group), SubnetClusters(d, tables, group), NatLabels(d, group))
  }

  /** The zone clusters of a network, in zone order, leaving out every zone
      whose total is zero. No emitted zone is empty, and no emitted subnet is. */
  function ZoneClusters(d: Dataset, tables: seq<RouteTable>, subnets: seq<Subnet>, zones: seq<string>): (r: seq<AzCluster>)
    ensures forall c :: c in r ==>
      c.resources > 0 && |c.subnets| > 0 && forall sc :: sc in c.subnets ==> |sc.leaves| > 0
  {
    if zones == [] then []
    else
      var zone := zones[|zones| - 1];
      var group := ZoneGroup(subnets, zone);
      var init := ZoneClusters(d, tables, subnets, zones[..|zones| - 1]);
      if SumCounts(d, group) > 0 then
        SubnetClustersNonEmpty(d, tables, group);
        init + [AzClusterOf(d, tables, zone, group)]
      else init
  }

  /** The leaves drawn in a zone's subnet clusters. */
  function SumLeaves(clusters: seq<SubnetCluster>): nat
  {
    if clusters == [] then 0 else SumLeaves(clusters[..|clusters| - 1]) + |clusters[|clusters| - 1].leaves|
  }

  lemma SumLeavesSnoc(clusters: seq<SubnetCluster>, tail: seq<SubnetCluster>)
    requires |tail| <= 1
    ensures SumLeaves(clusters + tail) == SumLeaves(clusters) + SumLeaves(tail)
  {
    if tail == [] {
      assert clusters + tail == clusters;
    } else {
      assert (clusters + tail)[..|clusters + tail| - 1] == clusters;
      assert tail[..0] == [];
    }
  }

  /** The leaves drawn in a zone add up to the zone's total: pruning drops only
      subnets without resources, and each drawn subnet shows all of its own. */
  lemma {:induction false} SubnetLeavesAddUp(d: Dataset, tables: seq<RouteTable>, group: seq<Subnet>)
    ensures SumLeaves(SubnetClusters(d, tables, group)) == SumCounts(d, group)
    decreases |group|
  {
    if group != [] {
      var init := group[..|group| - 1];
      var s := group[|group| - 1];
      SubnetLeavesAddUp(d, tables, init);
      var tail := if SubnetResourceCount(d, s.subnetId) > 0 then [SubnetClusterOf(d, tables, s)] else [];
      SumLeavesSnoc(SubnetClusters(d, tables, init), tail);
      if tail != [] {
        assert tail[..0] == [];
      }
    }
  }

  /** A zone with a positive total has at least one subnet cluster. */
  lemma {:induction false} SubnetClustersNonEmpty(d: Dataset, tables: seq<RouteTable>, group: seq<Subnet>)
    requires SumCounts(d, group) > 0
    ensures |SubnetClusters(d, tables, group)| > 0
    decreases |group|
  {
    var s := group[|group| - 1];
    if SubnetResourceCount(d, s.subnetId) == 0 {
      SubnetClustersNonEmpty(d, tables, group[..|group| - 1]);
    }
  }

  /** The gateways attached to network `vpcId` in state "available". */
  predicate AttachedAvailable(g: InternetGateway, vpcId: string)
  {
    exists a :: a in g.attachments && a.vpcId == Some(vpcId) && a.state == Some("available")
  }

  function AttachedIgws(igws: seq<InternetGateway>, vpcId: string): seq<InternetGateway>
  {
    Filter(igws, (g: InternetGateway) => AttachedAvailable(g, vpcId))
  }

  function SumResources(azs: seq<AzCluster>): nat
  {
    if azs == [] then 0 else SumResources(azs[..|azs| - 1]) + azs[|azs| - 1].resources
  }

  /** Pruning drops only zones whose total is zero, so the drawn zone totals
      sum to the zone sums over all zones. */
  lemma {:induction false} ZoneClustersSum(d: Dataset, tables: seq<RouteTable>, subnets: seq<Subnet>, zones: seq<string>)
    ensures SumResources(ZoneClusters(d, tables, subnets, zones)) == SumOverZones(d, subnets, zones)
    decreases |zones|
  {
    if zones != [] {
      var init := zones[..|zones| - 1];
      var prev := ZoneClusters(d, tables, subnets, init);
      ZoneClustersSum(d, tables, subnets, init);
      var group := ZoneGroup(subnets, zones[|zones| - 1]);
      if SumCounts(d, group) > 0 {
        var c := AzClusterOf(d, tables, zones[|zones| - 1], group);
        assert (prev + [c])[..|prev + [c]| - 1] == prev;
      }
    }
  }

  /** The zone totals of a drawn network add up to the network's total: grouping
      and pruning neither lose nor double-count a resource. */
  lemma ZoneTotalsMatchNetwork(d: Dataset, vpc: Vpc, v: VpcCluster)
    requires VpcDrawn(d, vpc, v)
    ensures SumResources(v.azs) == v.resources
  {
    var subnets := VpcSubnets(d, vpc.vpcId);
    ZoneClustersSum(d, d.routeTables, subnets, ZoneOrder(subnets));
    ZoneTotalsAddUp(d, subnets);
  }

  // ----- Which edges may be drawn -----

  /** `t` is a node of zone cluster `c` (at zone index `a`) that a gateway edge
      may reach: an instance or load balancer of a public subnet, or a NAT node. */
  predicate ZoneTarget(subs: seq<SubnetCluster>, nats: seq<string>, a: nat, t: Endpoint)
  {
    match t
    case SubnetLeafNode(a', s, l) =>
      a' == a && s < |subs| && l < |subs[s].leaves| && subs[s].role == Public && !subs[s].leaves[l].RdsLeaf?
    case NatNode(a', n) => a' == a && n < |nats|
    case _ => false
  }

  /** Every edge of a zone leaves the current gateway node and reaches a zone target. */
  ghost predicate ZoneEdgesSound(subs: seq<SubnetCluster>, nats: seq<string>, edges: seq<Edge>, igw: Option<nat>, a: nat)
  {
    forall e :: e in edges ==> igw.Some? && e.from == IgwNode(igw.value) && ZoneTarget(subs, nats, a, e.to)
  }

  /** With a gateway node present, every zone target gets its edge. */
  ghost predicate ZoneEdgesComplete(subs: seq<SubnetCluster>, nats: seq<string>, edges: seq<Edge>, igw: Option<nat>, a: nat)
  {
    igw.Some? ==>
      (forall s, l :: 0 <= s < |subs| && 0 <= l < |subs[s].leaves| && ZoneTarget(subs, nats, a, SubnetLeafNode(a, s, l)) ==>
        Edge(IgwNode(igw.value), SubnetLeafNode(a, s, l)) in edges) &&
      (forall n :: 0 <= n < |nats| ==> Edge(IgwNode(igw.value), NatNode(a, n)) in edges)
  }

  /** The gateway node edges use: the last one drawn in the network, if any. */
  function LastIgw(igws: nat): Option<nat>
  {
    if igws == 0 then None else Some(igws - 1)
  }

  predicate NetworkTarget(azs: seq<AzCluster>, t: Endpoint)
  {
    (t.SubnetLeafNode? || t.NatNode?) &&
    t.az < |azs| && ZoneTarget(azs[t.az].subnets, azs[t.az].nats, t.az, t)
  }

  /** Every edge of a network is Internet to one of its gateway nodes, or the
      last gateway node to a public instance, a public load balancer or a NAT
      node. In particular no edge reaches a database. */
  ghost predicate VpcEdgesSound(igws: nat, azs: seq<AzCluster>, edges: seq<Edge>)
  {
    forall e :: e in edges ==>
      (e.from == InternetNode && e.to.IgwNode? && e.to.index < igws) ||
      (igws > 0 && e.from == IgwNode(igws - 1) && NetworkTarget(azs, e.to))
  }

  /** Every gateway node has its Internet edge and, when the network has a
      gateway node, every network target has its gateway edge. */
  ghost predicate VpcEdgesComplete(igws: nat, azs: seq<AzCluster>, edges: seq<Edge>)
  {
    (forall k :: 0 <= k < igws ==> Edge(InternetNode, IgwNode(k)) in edges) &&
    (forall a :: 0 <= a < |azs| ==> ZoneEdgesComplete(azs[a].subnets, azs[a].nats, edges, LastIgw(igws), a))
  }

  /** What the builder draws for one network. */
  ghost predicate VpcDrawn(d: Dataset, vpc: Vpc, v: VpcCluster)
  {
    var subnets := VpcSubnets(d, vpc.vpcId);
    v.name == SafeName(VpcName(vpc), VpcNameWidth) &&
    v.cidrBlock == vpc.cidrBlock &&
    v.resources == SumCounts(d, subnets) &&
    v.igws == |AttachedIgws(d.igws, vpc.vpcId)| &&
    v.azs == ZoneClusters(d, d.routeTables, subnets, ZoneOrder(subnets)) &&
    VpcEdgesSound(v.igws, v.azs, v.edges) &&
    VpcEdgesComplete(v.igws, v.azs, v.edges)
  }

  /** A drawn network has no empty zone or subnet cluster, and none of its
      edges reaches a database node. */
  lemma DrawnNetworkShape(d: Dataset, vpc: Vpc, v: VpcCluster)
    requires VpcDrawn(d, vpc, v)
    ensures forall c :: c in v.azs ==> c.resources > 0 && |c.subnets| > 0
    ensures forall c, sc :: c in v.azs && sc in c.subnets ==> |sc.leaves| > 0
    ensures forall e :: e in v.edges && e.to.SubnetLeafNode? ==>
      var t := e.to;
      t.az < |v.azs| && t.subnet < |v.azs[t.az].subnets| && t.leaf < |v.azs[t.az].subnets[t.subnet].leaves| &&
      v.azs[t.az].subnets[t.subnet].role == Public && !v.azs[t.az].subnets[t.subnet].leaves[t.leaf].RdsLeaf?
  {
  }

  // ----- The builder -----

  ghost predicate LeafEdgesSound(leaves: seq<Leaf>, edges: seq<Edge>, connect: bool, igw: Option<nat>, a: nat, s: nat)
  {
    forall e :: e in edges ==>
      connect && igw.Some? && e.from == IgwNode(igw.value) &&
      e.to.SubnetLeafNode? && e.to.az == a && e.to.subnet == s && e.to.leaf < |leaves| && !leaves[e.to.leaf].RdsLeaf?
  }

  ghost predicate LeafEdgesComplete(leaves: seq<Leaf>, edges: seq<Edge>, connect: bool, igw: Option<nat>, a: nat, s: nat)
  {
    connect && igw.Some? ==>
      forall l :: 0 <= l < |leaves| && !leaves[l].RdsLeaf? ==> Edge(IgwNode(igw.value), SubnetLeafNode(a, s, l)) in edges
  }

  /** The body of a subnet cluster: one node per instance, database and load
      balancer of the subnet; in a public subnet, with a gateway node present,
      an edge from it to each instance and load balancer node. */
  method DrawSubnetLeaves(d: Dataset, sid: string, role: Role, igw: Option<nat>, a: nat, s: nat)
    returns (leaves: seq<Leaf>, edges: seq<Edge>)
    ensures leaves == LeavesOf(d, sid)
    ensures LeafEdgesSound(leaves, edges, role == Public, igw, a, s)
    ensures LeafEdgesComplete(leaves, edges, role == Public, igw, a, s)
  {
    var instances := InstancesIn(d, sid);
    var dbs := RdsIn(d, sid);
    var lbs := LbsIn(d, sid);
    var ec2Leaves, ec2Edges := DrawInstances(instances, [], [], role == Public, igw, a, s);
    var rdsLeaves, rdsEdges := DrawDatabases(dbs, ec2Leaves, ec2Edges, role == Public, igw, a, s);
    leaves, edges := DrawLoadBalancers(lbs, rdsLeaves, rdsEdges, role == Public, igw, a, s);
    LeavesOfAt(d, sid, leaves);
  }

  /** An instance node's label: its name (or "EC2-" and its identifier's last
      eight characters) clamped to 12, its type and its state. */
  method InstanceLeaf(instance: Instance) returns (leaf: Leaf)
    ensures leaf == Ec2LeafOf(instance)
    ensures leaf.Ec2Leaf? && |leaf.name| <= 2 * LeafNameWidth + 1
  {
    var name := CalculateTextSafeName(InstanceName(instance), LeafNameWidth);
    leaf := Ec2Leaf(name, instance.instanceType, instance.state);
  }

  /** A database node's label: its identifier clamped to 12, engine and status. */
  method DatabaseLeaf(db: DbInstance) returns (leaf: Leaf)
    ensures leaf == RdsLeafOf(db)
    ensures leaf.RdsLeaf? && |leaf.name| <= 2 * LeafNameWidth + 1
  {
    var name := CalculateTextSafeName(db.dbInstanceIdentifier, LeafNameWidth);
    leaf := RdsLeaf(name, db.engine, db.dbInstanceStatus);
  }

  /** A load balancer node's label: its name clamped to 12, type and scheme. */
  method LoadBalancerLeaf(lb: LoadBalancer) returns (leaf: Leaf)
    ensures leaf == ElbLeafOf(lb)
    ensures leaf.ElbLeaf? && |leaf.name| <= 2 * LeafNameWidth + 1
  {
    var name := CalculateTextSafeName(lb.loadBalancerName, LeafNameWidth);
    leaf := ElbLeaf(name, lb.lbType, lb.scheme);
  }

  /** The instance loop of a subnet cluster. */
  method DrawInstances(instances: seq<Instance>, leaves0: seq<Leaf>, edges0: seq<Edge>,
                       public: bool, igw: Option<nat>, a: nat, s: nat)
    returns (leaves: seq<Leaf>, edges: seq<Edge>)
    requires LeafEdgesSound(leaves0, edges0, public, igw, a, s)
    requires LeafEdgesComplete(leaves0, edges0, public, igw, a, s)
    ensures |leaves| == |leaves0| + |instances|
    ensures forall j :: 0 <= j < |leaves0| ==> leaves[j] == leaves0[j]
    ensures forall j :: 0 <= j < |instances| ==> leaves[|leaves0| + j] == Ec2LeafOf(instances[j])
    ensures LeafEdgesSound(leaves, edges, public, igw, a, s)
    ensures LeafEdgesComplete(leaves, edges, public, igw, a, s)
  {
    leaves, edges := leaves0, edges0;
    var k := 0;
    while k < |instances|
      invariant 0 <= k <= |instances|
      invariant |leaves| == |leaves0| + k
      invariant forall j :: 0 <= j < |leaves0| ==> leaves[j] == leaves0[j]
      invariant forall j :: 0 <= j < k ==> leaves[|leaves0| + j] == Ec2LeafOf(instances[j])
      invariant LeafEdgesSound(leaves, edges, public, igw, a, s)
      invariant LeafEdgesComplete(leaves, edges, public, igw, a, s)
    {
      var leaf := InstanceLeaf(instances[k]);
      var added := if public && igw.Some? then [Edge(IgwNode(igw.value), SubnetLeafNode(a, s, |leaves|))] else [];
      AppendLeaf(leaves, edges, public, igw, a, s, leaf, added);
      AppendInstanceLeaf(leaves0, leaves, instances, k, leaf);
      leaves := leaves + [leaf];
      edges := edges + added;
      k := k + 1;
    }
  }

  /** The database loop of a subnet cluster: database nodes never get an edge. */
  method DrawDatabases(dbs: seq<DbInstance>, leaves0: seq<Leaf>, edges0: seq<Edge>,
                       public: bool, igw: Option<nat>, a: nat, s: nat)
    returns (leaves: seq<Leaf>, edges: seq<Edge>)
    requires LeafEdgesSound(leaves0, edges0, public, igw, a, s)
    requires LeafEdgesComplete(leaves0, edges0, public, igw, a, s)
    ensures |leaves| == |leaves0| + |dbs|
    ensures forall j :: 0 <= j < |leaves0| ==> leaves[j] == leaves0[j]
    ensures forall j :: 0 <= j < |dbs| ==> leaves[|leaves0| + j] == RdsLeafOf(dbs[j])
    ensures edges == edges0
    ensures LeafEdgesSound(leaves, edges, public, igw, a, s)
    ensures LeafEdgesComplete(leaves, edges, public, igw, a, s)
  {
    leaves, edges := leaves0, edges0;
    var k := 0;
    while k < |dbs|
      invariant 0 <= k <= |dbs|
      invariant |leaves| == |leaves0| + k
      invariant forall j :: 0 <= j < |leaves0| ==> leaves[j] == leaves0[j]
      invariant forall j :: 0 <= j < k ==> leaves[|leaves0| + j] == RdsLeafOf(dbs[j])
      invariant edges == edges0
      invariant LeafEdgesSound(leaves, edges, public, igw, a, s)
      invariant LeafEdgesComplete(leaves, edges, public, igw, a, s)
    {
      var leaf := DatabaseLeaf(dbs[k]);
      AppendLeaf(leaves, edges, public, igw, a, s, leaf, []);
      leaves := leaves + [leaf];
      assert edges + [] == edges;
      k := k + 1;
    }
  }

  /** The load-balancer loop of a subnet cluster. */
  method DrawLoadBalancers(lbs: seq<LoadBalancer>, leaves0: seq<Leaf>, edges0: seq<Edge>,
                           public: bool, igw: Option<nat>, a: nat, s: nat)
    returns (leaves: seq<Leaf>, edges: seq<Edge>)
    requires LeafEdgesSound(leaves0, edges0, public, igw, a, s)
    requires LeafEdgesComplete(leaves0, edges0, public, igw, a, s)
    ensures |leaves| == |leaves0| + |lbs|
    ensures forall j :: 0 <= j < |leaves0| ==> leaves[j] == leaves0[j]
    ensures forall j :: 0 <= j < |lbs| ==> leaves[|leaves0| + j] == ElbLeafOf(lbs[j])
    ensures LeafEdgesSound(leaves, edges, public, igw, a, s)
    ensures LeafEdgesComplete(leaves, edges, public, igw, a, s)
  {
    leaves, edges := leaves0, edges0;
    var k := 0;
    while k < |lbs|
      invariant 0 <= k <= |lbs|
      invariant |leaves| == |leaves0| + k
      invariant forall j :: 0 <= j < |leaves0| ==> leaves[j] == leaves0[j]
      invariant forall j :: 0 <= j < k ==> leaves[|leaves0| + j] == ElbLeafOf(lbs[j])
      invariant LeafEdgesSound(leaves, edges, public, igw, a, s)
      invariant LeafEdgesComplete(leaves, edges, public, igw, a, s)
    {
      var leaf := LoadBalancerLeaf(lbs[k]);
      var added := if public && igw.Some? then [Edge(IgwNode(igw.value), SubnetLeafNode(a, s, |leaves|))] else [];
      AppendLeaf(leaves, edges, public, igw, a, s, leaf, added);
      leaves := leaves + [leaf];
      edges := edges + added;
      k := k + 1;
    }
  }

  /** Appending the next instance's leaf extends the leaves drawn so far. */
  lemma AppendInstanceLeaf(leaves0: seq<Leaf>, leaves: seq<Leaf>, instances: seq<Instance>, k: nat, leaf: Leaf)
    requires k < |instances| && |leaves| == |leaves0| + k && leaf == Ec2LeafOf(instances[k])
    requires forall j :: 0 <= j < |leaves0| ==> leaves[j] == leaves0[j]
    requires forall j :: 0 <= j < k ==> leaves[|leaves0| + j] == Ec2LeafOf(instances[j])
    ensures forall j :: 0 <= j < |leaves0| ==> (leaves + [leaf])[j] == leaves0[j]
    ensures forall j :: 0 <= j < k + 1 ==> (leaves + [leaf])[|leaves0| + j] == Ec2LeafOf(instances[j])
  {
    var extended := leaves + [leaf];
    forall j | 0 <= j < |leaves0|
      ensures extended[j] == leaves0[j]
    {
      assert extended[j] == leaves[j];
    }
    forall j | 0 <= j < k + 1
      ensures extended[|leaves0| + j] == Ec2LeafOf(instances[j])
    {
      if j < k {
        assert extended[|leaves0| + j] == leaves[|leaves0| + j];
      } else {
        assert extended[|leaves0| + j] == leaf;
      }
    }
  }

  /** Adding one leaf, and its gateway edge when one is due, keeps a subnet's
      edges sound and complete. */
  lemma AppendLeaf(leaves: seq<Leaf>, edges: seq<Edge>, connect: bool, igw: Option<nat>, a: nat, s: nat,
                   leaf: Leaf, added: seq<Edge>)
    requires LeafEdgesSound(leaves, edges, connect, igw, a, s)
    requires LeafEdgesComplete(leaves, edges, connect, igw, a, s)
    requires added == if connect && igw.Some? && !leaf.RdsLeaf? then [Edge(IgwNode(igw.value), SubnetLeafNode(a, s, |leaves|))] else []
    ensures LeafEdgesSound(leaves + [leaf], edges + added, connect, igw, a, s)
    ensures LeafEdgesComplete(leaves + [leaf], edges + added, connect, igw, a, s)
  {
    var leaves' := leaves + [leaf];
    assert forall l :: 0 <= l < |leaves| ==> leaves'[l] == leaves[l];
  }

  /** A sequence that agrees with `LeavesOf` position by position is `LeavesOf`. */
  lemma LeavesOfAt(d: Dataset, sid: string, leaves: seq<Leaf>)
    requires |leaves| == SubnetResourceCount(d, sid)
    requires forall j :: 0 <= j < |InstancesIn(d, sid)| ==> leaves[j] == Ec2LeafOf(InstancesIn(d, sid)[j])
    requires forall j :: 0 <= j < |RdsIn(d, sid)| ==> leaves[|InstancesIn(d, sid)| + j] == RdsLeafOf(RdsIn(d, sid)[j])
    requires forall j :: 0 <= j < |LbsIn(d, sid)| ==>
      leaves[|InstancesIn(d, sid)| + |RdsIn(d, sid)| + j] == ElbLeafOf(LbsIn(d, sid)[j])
    ensures leaves == LeavesOf(d, sid)
  {
    var instances, dbs, lbs := InstancesIn(d, sid), RdsIn(d, sid), LbsIn(d, sid);
    var ec2 := seq(|instances|, k requires 0 <= k < |instances| => Ec2LeafOf(instances[k]));
    var rds := seq(|dbs|, k requires 0 <= k < |dbs| => RdsLeafOf(dbs[k]));
    var elb := seq(|lbs|, k requires 0 <= k < |lbs| => ElbLeafOf(lbs[k]));
    assert LeavesOf(d, sid) == ec2 + rds + elb;
    assert leaves[..|ec2|] == ec2;
    assert leaves[|ec2|..|ec2| + |rds|] == rds;
    assert leaves[|ec2| + |rds|..] == elb;
    assert leaves == leaves[..|ec2|] + leaves[|ec2|..|ec2| + |rds|] + leaves[|ec2| + |rds|..];
  }

  /** The running total of a list of subnets (`az_resources += ...`, and the
      same loop for a network's total). */
  method TotalResources(d: Dataset, subnets: seq<Subnet>) returns (total: nat)
    ensures total == SumCounts(d, subnets)
  {
    total := 0;
    var k := 0;
    while k < |subnets|
      invariant 0 <= k <= |subnets|
      invariant total == SumCounts(d, subnets[..k])
    {
      assert subnets[..k + 1][..k] == subnets[..k];
      var sid := subnets[k].subnetId;
      total := total + |InstancesIn(d, sid)|;
      total := total + |RdsIn(d, sid)|;
      total := total + |LbsIn(d, sid)|;
      k := k + 1;
    }
    assert subnets[..k] == subnets;
  }

  /** The subnet clusters of a zone: every subnet is named and classified, and
      those with at least one resource get a cluster. */
  method DrawSubnets(d: Dataset, group: seq<Subnet>, igw: Option<nat>, a: nat)
    returns (subs: seq<SubnetCluster>, edges: seq<Edge>)
    ensures subs == SubnetClusters(d, d.routeTables, group)
    ensures ZoneEdgesSound(subs, [], edges, igw, a)
    ensures ZoneEdgesComplete(subs, [], edges, igw, a)
  {
    subs, edges := [], [];
    var k := 0;
    while k < |group|
      invariant 0 <= k <= |group|
      invariant subs == SubnetClusters(d, d.routeTables, group[..k])
      invariant ZoneEdgesSound(subs, [], edges, igw, a)
      invariant ZoneEdgesComplete(subs, [], edges, igw, a)
    {
      assert group[..k + 1][..k] == group[..k];
      var subnet := group[k];
      var tag := GetTagValue(subnet.tags, "Name");
      var name := NameOr(tag, "subnet-" + Suffix8(subnet.subnetId));
      var role := AnalyzeSubnetType(subnet, d.routeTables);
      if SubnetResourceCount(d, subnet.subnetId) != 0 {
        var display := CalculateTextSafeName(name, SubnetNameWidth);
        var leaves, leafEdges := DrawSubnetLeaves(d, subnet.subnetId, role, igw, a, |subs|);
        var cluster := SubnetCluster(display, role, subnet.cidrBlock, leaves);
        AppendSubnetCluster(subs, edges, igw, a, cluster, leafEdges);
        subs := subs + [cluster];
        edges := edges + leafEdges;
      }
      k := k + 1;
    }
    assert group[..k] == group;
  }

  /** One step of the NAT loop: a NAT gateway with a subnet among the zone's
      and in state "available" gets a node, and an edge from the gateway node
      when there is one. */
  method DrawNextNat(group: seq<Subnet>, ids: seq<string>, drawn: seq<NatGateway>, natGateway: NatGateway,
                     subs: seq<SubnetCluster>, nats0: seq<string>, edges0: seq<Edge>, igw: Option<nat>, a: nat)
    returns (nats: seq<string>, edges: seq<Edge>)
    requires ids == SubnetIds(group)
    requires nats0 == NatLabelsOf(NatsDrawn(drawn, group))
    requires ZoneEdgesSound(subs, nats0, edges0, igw, a) && ZoneEdgesComplete(subs, nats0, edges0, igw, a)
    ensures nats == NatLabelsOf(NatsDrawn(drawn + [natGateway], group))
    ensures ZoneEdgesSound(subs, nats, edges, igw, a) && ZoneEdgesComplete(subs, nats, edges, igw, a)
  {
    NatsDrawnSnoc(drawn, natGateway, group);
    nats, edges := nats0, edges0;
    if natGateway.subnetId != "" && natGateway.subnetId in ids {
      if natGateway.state == Some("available") {
        var added := if igw.Some? then [Edge(IgwNode(igw.value), NatNode(a, |nats0|))] else [];
        AppendNat(subs, nats0, edges0, igw, a, NatLabel(natGateway), added);
        NatLabelsOfSnoc(NatsDrawn(drawn, group), natGateway);
        nats, edges := nats0 + [NatLabel(natGateway)], edges0 + added;
        return;
      }
    }
    assert NatsDrawn(drawn, group) + [] == NatsDrawn(drawn, group);
  }

  /** The NAT gateway nodes of a zone, each with an edge from the gateway node
      when there is one. */
  method DrawNats(d: Dataset, group: seq<Subnet>, subs: seq<SubnetCluster>, edges0: seq<Edge>, igw: Option<nat>, a: nat)
    returns (nats: seq<string>, edges: seq<Edge>)
    requires ZoneEdgesSound(subs, [], edges0, igw, a) && ZoneEdgesComplete(subs, [], edges0, igw, a)
    ensures nats == NatLabels(d, group)
    ensures ZoneEdgesSound(subs, nats, edges, igw, a)
    ensures ZoneEdgesComplete(subs, nats, edges, igw, a)
  {
    var ids := SubnetIds(group);
    nats, edges := [], edges0;
    var k := 0;
    while k < |d.nats|
      invariant 0 <= k <= |d.nats|
      invariant nats == NatLabelsOf(NatsDrawn(d.nats[..k], group))
      invariant ZoneEdgesSound(subs, nats, edges, igw, a)
      invariant ZoneEdgesComplete(subs, nats, edges, igw, a)
    {
      assert d.nats[..k + 1] == d.nats[..k] + [d.nats[k]];
      nats, edges := DrawNextNat(group, ids, d.nats[..k], d.nats[k], subs, nats, edges, igw, a);
      k := k + 1;
    }
    assert d.nats[..k] == d.nats;
  }

  /** One zone: its total, then (when positive) its subnet clusters and its
      NAT gateway nodes, with their gateway edges. `a` is the index the zone
      cluster will have among the network's drawn zones. */
  method DrawZone(d: Dataset, zone: string, group: seq<Subnet>, igw: Option<nat>, a: nat)
    returns (cluster: Option<AzCluster>, edges: seq<Edge>)
    ensures cluster.None? <==> SumCounts(d, group) == 0
    ensures cluster.None? ==> edges == []
    ensures cluster.Some? ==> cluster.value == AzClusterOf(d, d.routeTables, zone, group)
    ensures cluster.Some? ==> ZoneEdgesSound(cluster.value.subnets, cluster.value.nats, edges, igw, a)
    ensures cluster.Some? ==> ZoneEdgesComplete(cluster.value.subnets, cluster.value.nats, edges, igw, a)
  {
    var total := TotalResources(d, group);
    if total == 0 {
      return None, [];
    }
    var subs, subnetEdges := DrawSubnets(d, group, igw, a);
    var nats;
    nats, edges := DrawNats(d, group, subs, subnetEdges, igw, a);
    cluster := Some(AzCluster(zone, total, subs, nats));
  }

  /** Adding a subnet cluster with its leaf edges keeps a zone's edges sound and complete. */
  lemma AppendSubnetCluster(subs: seq<SubnetCluster>, edges: seq<Edge>, igw: Option<nat>, a: nat,
                            sc: SubnetCluster, leafEdges: seq<Edge>)
    requires ZoneEdgesSound(subs, [], edges, igw, a) && ZoneEdgesComplete(subs, [], edges, igw, a)
    requires LeafEdgesSound(sc.leaves, leafEdges, sc.role == Public, igw, a, |subs|)
    requires LeafEdgesComplete(sc.leaves, leafEdges, sc.role == Public, igw, a, |subs|)
    ensures ZoneEdgesSound(subs + [sc], [], edges + leafEdges, igw, a)
    ensures ZoneEdgesComplete(subs + [sc], [], edges + leafEdges, igw, a)
  {
    var subs' := subs + [sc];
    assert forall t :: ZoneTarget(subs, [], a, t) ==> ZoneTarget(subs', [], a, t);
    assert subs'[|subs|] == sc;
  }

  /** Adding a NAT node, and its gateway edge when there is a gateway node,
      keeps a zone's edges sound and complete. */
  lemma AppendNat(subs: seq<SubnetCluster>, nats: seq<string>, edges: seq<Edge>, igw: Option<nat>, a: nat,
                  caption: string, added: seq<Edge>)
    requires ZoneEdgesSound(subs, nats, edges, igw, a) && ZoneEdgesComplete(subs, nats, edges, igw, a)
    requires added == if igw.Some? then [Edge(IgwNode(igw.value), NatNode(a, |nats|))] else []
    ensures ZoneEdgesSound(subs, nats + [caption], edges + added, igw, a)
    ensures ZoneEdgesComplete(subs, nats + [caption], edges + added, igw, a)
  {
    assert forall t :: ZoneTarget(subs, nats, a, t) ==> ZoneTarget(subs, nats + [caption], a, t);
  }

  lemma NatLabelsOfSnoc(drawn: seq<NatGateway>, n: NatGateway)
    ensures NatLabelsOf(drawn + [n]) == NatLabelsOf(drawn) + [NatLabel(n)]
  {
    assert (drawn + [n])[..|drawn|] == drawn;
  }

  lemma NatsDrawnSnoc(nats: seq<NatGateway>, n: NatGateway, group: seq<Subnet>)
    ensures NatsDrawn(nats + [n], group) == NatsDrawn(nats, group) +
      if n.subnetId != "" && n.subnetId in SubnetIds(group) && n.state == Some("available") then [n] else []
  {
    assert (nats + [n])[..|nats + [n]| - 1] == nats;
  }

  lemma AttachedIgwsSnoc(igws: seq<InternetGateway>, g: InternetGateway, vpcId: string)
    ensures AttachedIgws(igws + [g], vpcId) == AttachedIgws(igws, vpcId) + if AttachedAvailable(g, vpcId) then [g] else []
  {
    assert (igws + [g])[..|igws + [g]| - 1] == igws;
  }

  /** A network's caption name: its `Name` tag, else "VPC-" and the last eight
      characters of its identifier, clamped to 20. */
  method VpcDisplayName(vpc: Vpc) returns (display: string)
    ensures display == SafeName(VpcName(vpc), VpcNameWidth)
  {
    var tag := GetTagValue(vpc.tags, "Name");
    var name := NameOr(tag, "VPC-" + Suffix8(vpc.vpcId));
    display := CalculateTextSafeName(name, VpcNameWidth);
  }

  /** The gateway nodes of a network with their Internet edges. The `break`
      leaves only the attachment loop, so every attached, available gateway gets
      a node; the last one is the node later edges start from. */
  method DrawGateways(d: Dataset, vpcId: string) returns (igws: nat, edges: seq<Edge>)
    ensures igws == |AttachedIgws(d.igws, vpcId)|
    ensures edges == seq(igws, j requires 0 <= j < igws => Edge(InternetNode, IgwNode(j)))
  {
    igws, edges := 0, [];
    var g := 0;
    while g < |d.igws|
      invariant 0 <= g <= |d.igws|
      invariant igws == |AttachedIgws(d.igws[..g], vpcId)|
      invariant edges == seq(igws, j requires 0 <= j < igws => Edge(InternetNode, IgwNode(j)))
    {
      var gateway := d.igws[g];
      AttachedIgwsSnoc(d.igws[..g], gateway, vpcId);
      assert d.igws[..g + 1] == d.igws[..g] + [gateway];
      var attachments := gateway.attachments;
      var m := 0;
      var found := false;
      while m < |attachments|
        invariant 0 <= m <= |attachments|
        invariant !found
        invariant forall j :: 0 <= j < m ==> !(attachments[j].vpcId == Some(vpcId) && attachments[j].state == Some("available"))
      {
        if attachments[m].vpcId == Some(vpcId) && attachments[m].state == Some("available") {
          assert attachments[m] in gateway.attachments;
          edges := edges + [Edge(InternetNode, IgwNode(igws))];
          igws := igws + 1;
          found := true;
          break;
        }
        m := m + 1;
      }
      assert found <==> AttachedAvailable(gateway, vpcId);
      g := g + 1;
    }
    assert d.igws[..g] == d.igws;
  }

  /** One step of the zone loop: the next zone is drawn, or pruned when its
      total is zero, and its edges follow those already drawn. */
  method DrawNextZone(d: Dataset, subnets: seq<Subnet>, zones: seq<string>, z: nat, group: seq<Subnet>,
    igws: nat, azs0: seq<AzCluster>, edges0: seq<Edge>)
    returns (azs: seq<AzCluster>, edges: seq<Edge>)
    requires z < |zones| && group == ZoneGroup(subnets, zones[z])
    requires azs0 == ZoneClusters(d, d.routeTables, subnets, zones[..z])
    requires VpcEdgesSound(igws, azs0, edges0) && VpcEdgesComplete(igws, azs0, edges0)
    ensures azs == ZoneClusters(d, d.routeTables, subnets, zones[..z + 1])
    ensures VpcEdgesSound(igws, azs, edges) && VpcEdgesComplete(igws, azs, edges)
  {
    assert zones[..z + 1][..z] == zones[..z];
    var cluster, zoneEdges := DrawZone(d, zones[z], group, LastIgw(igws), |azs0|);
    if cluster.Some? {
      AppendZonePreservesEdges(igws, azs0, edges0, cluster.value, zoneEdges);
      azs, edges := azs0 + [cluster.value], edges0 + zoneEdges;
    } else {
      azs, edges := azs0, edges0;
    }
  }

  /** The zones of a network in first-appearance order, each drawn or pruned,
      their edges appended after the gateway edges. */
  method DrawZones(d: Dataset, subnets: seq<Subnet>, igws: nat, edges0: seq<Edge>)
    returns (azs: seq<AzCluster>, edges: seq<Edge>)
    requires VpcEdgesSound(igws, [], edges0) && VpcEdgesComplete(igws, [], edges0)
    ensures azs == ZoneClusters(d, d.routeTables, subnets, ZoneOrder(subnets))
    ensures VpcEdgesSound(igws, azs, edges) && VpcEdgesComplete(igws, azs, edges)
  {
    var zones, groups := GroupByZone(subnets);
    azs, edges := [], edges0;
    var z := 0;
    while z < |zones|
      invariant 0 <= z <= |zones|
      invariant azs == ZoneClusters(d, d.routeTables, subnets, zones[..z])
      invariant VpcEdgesSound(igws, azs, edges)
      invariant VpcEdgesComplete(igws, azs, edges)
    {
      assert zones[z] in groups;
      azs, edges := DrawNextZone(d, subnets, zones, z, groups[zones[z]], igws, azs, edges);
      z := z + 1;
    }
    assert zones[..z] == zones;
  }

  /** Before any zone is drawn, the edges are exactly the Internet edges of the gateway nodes. */
  lemma GatewayEdgesOnly(igws: nat, edges: seq<Edge>)
    requires edges == seq(igws, j requires 0 <= j < igws => Edge(InternetNode, IgwNode(j)))
    ensures VpcEdgesSound(igws, [], edges) && VpcEdgesComplete(igws, [], edges)
  {
    assert forall k :: 0 <= k < igws ==> edges[k] == Edge(InternetNode, IgwNode(k));
  }

  /** One network cluster: its total, its gateway nodes with their Internet
      edges, then its zones in first-appearance order. */
  method DrawVpc(d: Dataset, vpc: Vpc) returns (v: VpcCluster)
    ensures VpcDrawn(d, vpc, v)
  {
    var subnets := VpcSubnets(d, vpc.vpcId);
    var total := TotalResources(d, subnets);
    var display := VpcDisplayName(vpc);
    var igws, igwEdges := DrawGateways(d, vpc.vpcId);
    GatewayEdgesOnly(igws, igwEdges);
    var azs, edges := DrawZones(d, subnets, igws, igwEdges);
    v := VpcCluster(display, vpc.cidrBlock, total, igws, azs, edges);
  }

  /** Appending a zone cluster and its edges keeps a network's edges sound and complete. */
  lemma AppendZonePreservesEdges(igws: nat, azs: seq<AzCluster>, edges: seq<Edge>, c: AzCluster, zoneEdges: seq<Edge>)
    requires VpcEdgesSound(igws, azs, edges) && VpcEdgesComplete(igws, azs, edges)
    requires ZoneEdgesSound(c.subnets, c.nats, zoneEdges, LastIgw(igws), |azs|)
    requires ZoneEdgesComplete(c.subnets, c.nats, zoneEdges, LastIgw(igws), |azs|)
    ensures VpcEdgesSound(igws, azs + [c], edges + zoneEdges)
    ensures VpcEdgesComplete(igws, azs + [c], edges + zoneEdges)
  {
    var azs' := azs + [c];
    assert forall a :: 0 <= a < |azs| ==> azs'[a] == azs[a];
    assert azs'[|azs|] == c;
  }

  /** The clusters drawn so far are those of the first networks of the snapshot. */
  ghost predicate DrawnPrefix(d: Dataset, clusters: seq<VpcCluster>)
    decreases |clusters|
  {
    |clusters| <= |d.vpcs| &&
    (clusters == [] ||
      (DrawnPrefix(d, clusters[..|clusters| - 1]) &&
       VpcDrawn(d, d.vpcs[|clusters| - 1], clusters[|clusters| - 1])))
  }

  lemma {:induction false} DrawnPrefixAt(d: Dataset, clusters: seq<VpcCluster>, k: nat)
    requires DrawnPrefix(d, clusters) && k < |clusters|
    ensures k < |d.vpcs| && VpcDrawn(d, d.vpcs[k], clusters[k])
    decreases |clusters|
  {
    var init := clusters[..|clusters| - 1];
    if k < |init| {
      DrawnPrefixAt(d, init, k);
      VpcDrawnSame(d, d.vpcs[k], init[k], clusters[k]);
    } else {
      assert k == |clusters| - 1;
      DrawnPrefixLast(d, clusters);
    }
  }

  lemma DrawnPrefixLast(d: Dataset, clusters: seq<VpcCluster>)
    requires DrawnPrefix(d, clusters) && clusters != []
    ensures |clusters| <= |d.vpcs|
    ensures VpcDrawn(d, d.vpcs[|clusters| - 1], clusters[|clusters| - 1])
  {
  }

  lemma VpcDrawnSame(d: Dataset, vpc: Vpc, v: VpcCluster, w: VpcCluster)
    requires VpcDrawn(d, vpc, v) && v == w
    ensures VpcDrawn(d, vpc, w)
  {
  }

  /** The whole diagram: the layout profile from the complexity score, then one
      network cluster per network in snapshot order. */
  method GenerateArchitectureDiagram(d: Dataset) returns (diagram: ArchitectureDiagram)
    ensures diagram.layout == AnalyzeComplexity(d)
    ensures |diagram.vpcs| == |d.vpcs|
    ensures forall k :: 0 <= k < |d.vpcs| ==> VpcDrawn(d, d.vpcs[k], diagram.vpcs[k])
  {
    var layout := AnalyzeComplexity(d);
    var vpcs: seq<VpcCluster> := [];
    var k := 0;
    while k < |d.vpcs|
      invariant 0 <= k <= |d.vpcs|
      invariant |vpcs| == k
      invariant DrawnPrefix(d, vpcs)
    {
      var v := DrawVpc(d, d.vpcs[k]);
      assert (vpcs + [v])[..k] == vpcs;
      vpcs := vpcs + [v];
      k := k + 1;
    }
    forall j | 0 <= j < k
      ensures VpcDrawn(d, d.vpcs[j], vpcs[j])
    {
      DrawnPrefixAt(d, vpcs, j);
    }
    diagram := ArchitectureDiagram(layout, vpcs);
  }
}
