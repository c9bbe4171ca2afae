/** The resource aggregator: per-subnet counts matched by identifier, their sums
    over a zone or a network, and the grouping of a network's subnets by zone. */
module Counting {
  import opened Records

  /** The elements of `s` that satisfy `p`, in their original order. */
  function Filter<T(!new)>(s: seq<T>, p: T -> bool): (r: seq<T>)
    ensures |r| <= |s|
    ensures forall x :: x in r <==> x in s && p(x)
  {
    if s == [] then []
    else
      var init := Filter(s[..|s| - 1], p);
      assert forall x :: x in s <==> x in s[..|s| - 1] || x == s[|s| - 1];
      init + if p(s[|s| - 1]) then [s[|s| - 1]] else []
  }

  /** The filter keeps every occurrence of a kept element and drops every
      occurrence of the others, so its length counts matches with repeats. */
  lemma {:induction false} FilterMultiplicity<T(!new)>(s: seq<T>, p: T -> bool)
    ensures forall x :: multiset(Filter(s, p))[x] == if p(x) then multiset(s)[x] else 0
    decreases |s|
  {
    if s != [] {
      var init := s[..|s| - 1];
      var last := s[|s| - 1];
      FilterMultiplicity(init, p);
      assert s == init + [last];
      assert multiset(s) == multiset(init) + multiset{last};
    }
  }

  /** The instances placed in subnet `sid` (single `SubnetId` field). */
  function InstancesIn(d: Dataset, sid: string): seq<Instance>
  {
    Filter(d.instances, (i: Instance) => i.subnetId == Some(sid))
  }

  /** The databases whose subnet group lists `sid`. */
  function RdsIn(d: Dataset, sid: string): seq<DbInstance>
  {
    Filter(d.rdsInstances, (r: DbInstance) => sid in r.subnetIds)
  }

  /** The load balancers whose zones list `sid`. */
  function LbsIn(d: Dataset, sid: string): seq<LoadBalancer>
  {
    Filter(d.loadBalancers, (l: LoadBalancer) => sid in l.subnetIds)
  }

  function SubnetResourceCount(d: Dataset, sid: string): nat
  {
    |InstancesIn(d, sid)| + |RdsIn(d, sid)| + |LbsIn(d, sid)|
  }

  /** A subnet counts no resources exactly when no instance sits in it and no
      database or load balancer lists it. */
  lemma EmptySubnetIff(d: Dataset, sid: string)
    ensures SubnetResourceCount(d, sid) == 0 <==>
      (forall i :: i in d.instances ==> i.subnetId != Some(sid)) &&
      (forall r :: r in d.rdsInstances ==> sid !in r.subnetIds) &&
      (forall l :: l in d.loadBalancers ==> sid !in l.subnetIds)
  {
    if SubnetResourceCount(d, sid) != 0 {
      if |InstancesIn(d, sid)| > 0 {
        assert InstancesIn(d, sid)[0] in InstancesIn(d, sid);
      } else if |RdsIn(d, sid)| > 0 {
        assert RdsIn(d, sid)[0] in RdsIn(d, sid);
      } else {
        assert LbsIn(d, sid)[0] in LbsIn(d, sid);
      }
    }
  }

  /** The subnets of network `vpcId`, in snapshot order. */
  function VpcSubnets(d: Dataset, vpcId: string): seq<Subnet>
  {
    Filter(d.subnets, (s: Subnet) => s.vpcId == vpcId)
  }

  /** The running total `total += count(subnet)` over `subnets`: a database or
      load balancer spanning k of them contributes k. */
  function SumCounts(d: Dataset, subnets: seq<Subnet>): nat
  {
    if subnets == [] then 0
    else SumCounts(d, subnets[..|subnets| - 1]) + SubnetResourceCount(d, subnets[|subnets| - 1].subnetId)
  }

  lemma {:induction false} SumCountsAppend(d: Dataset, a: seq<Subnet>, b: seq<Subnet>)
    ensures SumCounts(d, a + b) == SumCounts(d, a) + SumCounts(d, b)
    decreases |b|
  {
    if b != [] {
      var b' := b[..|b| - 1];
      assert (a + b)[..|a + b| - 1] == a + b';
      SumCountsAppend(d, a, b');
    } else {
      assert a + b == a;
    }
  }

  /** A total is zero exactly when every subnet in it counts zero: a zone is
      pruned only when none of its subnets would be drawn. */
  lemma {:induction false} SumCountsZeroIff(d: Dataset, subnets: seq<Subnet>)
    ensures SumCounts(d, subnets) == 0 <==>
      forall k :: 0 <= k < |subnets| ==> SubnetResourceCount(d, subnets[k].subnetId) == 0
    decreases |subnets|
  {
    if subnets != [] {
      SumCountsZeroIff(d, subnets[..|subnets| - 1]);
    }
  }

  /** The zones of `subnets` in order of first appearance (a `defaultdict`'s key order). */
  function ZoneOrder(subnets: seq<Subnet>): (r: seq<string>)
    ensures forall i, j :: 0 <= i < j < |r| ==> r[i] != r[j]
    ensures forall z :: z in r <==> exists s :: s in subnets && s.availabilityZone == z
  {
    if subnets == [] then []
    else
      var init := subnets[..|subnets| - 1];
      var last := subnets[|subnets| - 1];
      assert forall s :: s in subnets <==> s in init || s == last;
      var r := ZoneOrder(init);
      if last.availabilityZone in r then r else r + [last.availabilityZone]
  }

  /** The zone order of a prefix of the subnets is a prefix of the zone order:
      a zone's place is fixed when its first subnet is met, never moved later. */
  lemma {:induction false} ZoneOrderPrefix(subnets: seq<Subnet>, k: nat)
    requires k <= |subnets|
    ensures ZoneOrder(subnets[..k]) <= ZoneOrder(subnets)
    decreases |subnets|
  {
    if k < |subnets| {
      var init := subnets[..|subnets| - 1];
      assert subnets[..k] == init[..k];
      ZoneOrderPrefix(init, k);
    } else {
      assert subnets[..k] == subnets;
    }
  }

  /** The subnets of `subnets` in zone `zone`, in order. */
  function ZoneGroup(subnets: seq<Subnet>, zone: string): seq<Subnet>
  {
    Filter(subnets, (s: Subnet) => s.availabilityZone == zone)
  }

  lemma ZoneGroupSnoc(subnets: seq<Subnet>, x: Subnet, zone: string)
    ensures ZoneGroup(subnets + [x], zone) ==
      ZoneGroup(subnets, zone) + if x.availabilityZone == zone then [x] else []
  {
    assert (subnets + [x])[..|subnets + [x]| - 1] == subnets;
  }

  /** No subnet of `subnets` lies in a zone missing from its zone order. */
  lemma ZoneGroupOfAbsentZone(subnets: seq<Subnet>, zone: string)
    requires zone !in ZoneOrder(subnets)
    ensures ZoneGroup(subnets, zone) == []
  {
  }

  lemma SumCountsSingle(d: Dataset, x: Subnet)
    ensures SumCounts(d, [x]) == SubnetResourceCount(d, x.subnetId)
  {
    assert [x][..0] == [];
  }

  /** The sum of the zone totals over `zones`. */
  function SumOverZones(d: Dataset, subnets: seq<Subnet>, zones: seq<string>): nat
  {
    if zones == [] then 0
    else SumOverZones(d, subnets, zones[..|zones| - 1]) + SumCounts(d, ZoneGroup(subnets, zones[|zones| - 1]))
  }

  /** Adding one subnet to the end adds its count to the zone sums exactly when
      its zone is among them (once, as zones are distinct). */
  lemma {:induction false} SumOverZonesSnoc(d: Dataset, subnets: seq<Subnet>, x: Subnet, zones: seq<string>)
    requires forall i, j :: 0 <= i < j < |zones| ==> zones[i] != zones[j]
    ensures SumOverZones(d, subnets + [x], zones) ==
      SumOverZones(d, subnets, zones) +
      (if x.availabilityZone in zones then SubnetResourceCount(d, x.subnetId) else 0)
    decreases |zones|
  {
    if zones != [] {
      var init := zones[..|zones| - 1];
      var z := zones[|zones| - 1];
      SumOverZonesSnoc(d, subnets, x, init);
      ZoneGroupSnoc(subnets, x, z);
      if x.availabilityZone == z {
        assert x.availabilityZone !in init;
        SumCountsAppend(d, ZoneGroup(subnets, z), [x]);
        SumCountsSingle(d, x);
      } else {
        assert ZoneGroup(subnets + [x], z) == ZoneGroup(subnets, z) + [];
        assert ZoneGroup(subnets, z) + [] == ZoneGroup(subnets, z);
        assert x.availabilityZone in zones <==> x.availabilityZone in init;
      }
    }
  }

  /** Grouping by zone neither loses nor duplicates a subnet: the zone totals
      add up to the network total. */
  lemma {:induction false} ZoneTotalsAddUp(d: Dataset, subnets: seq<Subnet>)
    ensures SumOverZones(d, subnets, ZoneOrder(subnets)) == SumCounts(d, subnets)
    decreases |subnets|
  {
    if subnets != [] {
      var init := subnets[..|subnets| - 1];
      var x := subnets[|subnets| - 1];
      var z := x.availabilityZone;
      var count := SubnetResourceCount(d, x.subnetId);
      assert init + [x] == subnets;
      assert SumCounts(d, subnets) == SumCounts(d, init) + count;
      ZoneTotalsAddUp(d, init);
      var zones := ZoneOrder(init);
      SumOverZonesSnoc(d, init, x, zones);
      if z in zones {
        assert ZoneOrder(subnets) == zones;
      } else {
        assert SumOverZones(d, subnets, zones) == SumCounts(d, init);
        assert ZoneOrder(subnets) == zones + [z];
        assert (zones + [z])[..|zones|] == zones;
        ZoneGroupOfAbsentZone(init, z);
        ZoneGroupSnoc(init, x, z);
        assert ZoneGroup(subnets, z) == [x];
        SumCountsSingle(d, x);
        assert SumOverZones(d, subnets, zones + [z]) == SumOverZones(d, subnets, zones) + count;
      }
    }
  }

  /** The source's `defaultdict` loop: each subnet is appended to its zone's
      list, a new zone key entering at the end of the key order. */
  method GroupByZone(subnets: seq<Subnet>) returns (zones: seq<string>, groups: map<string, seq<Subnet>>)
    ensures zones == ZoneOrder(subnets)
    ensures forall z :: z in groups <==> z in zones
    ensures forall z :: z in groups ==> groups[z] == ZoneGroup(subnets, z)
  {
    zones := [];
    groups := map[];
    var k := 0;
    while k < |subnets|
      invariant 0 <= k <= |subnets|
      invariant zones == ZoneOrder(subnets[..k])
      invariant forall z :: z in groups <==> z in zones
      invariant forall z :: z in groups ==> groups[z] == ZoneGroup(subnets[..k], z)
    {
      var s := subnets[k];
      var z := s.availabilityZone;
      assert subnets[..k + 1] == subnets[..k] + [s];
      assert subnets[..k + 1][..k] == subnets[..k];
      forall z' ensures ZoneGroup(subnets[..k + 1], z') ==
          ZoneGroup(subnets[..k], z') + if z == z' then [s] else []
      {
        ZoneGroupSnoc(subnets[..k], s, z');
      }
      if z in groups {
        groups := groups[z := groups[z] + [s]];
      } else {
        ZoneGroupOfAbsentZone(subnets[..k], z);
        groups := groups[z := [s]];
        zones := zones + [z];
      }
      k := k + 1;
    }
    assert subnets[..k] == subnets;
  }

  /** A database listing two subnets of one network is counted once under each,
      so the network total is 2 for a single database. */
  lemma MultiSubnetDatabaseCountedTwice()
    ensures
      var a := Subnet("subnet-a", "vpc-1", "10.0.1.0/24", "ap-northeast-2a", []);
      var b := Subnet("subnet-b", "vpc-1", "10.0.2.0/24", "ap-northeast-2c", []);
      var db := DbInstance("orders", "postgres", "available", ["subnet-a", "subnet-b"]);
      var d := Dataset([], [a, b], [], [], [], [], [db], []);
      SumCounts(d, [a, b]) == 2
  {
    var a := Subnet("subnet-a", "vpc-1", "10.0.1.0/24", "ap-northeast-2a", []);
    var b := Subnet("subnet-b", "vpc-1", "10.0.2.0/24", "ap-northeast-2c", []);
    var db := DbInstance("orders", "postgres", "available", ["subnet-a", "subnet-b"]);
    var d := Dataset([], [a, b], [], [], [], [], [db], []);
    assert [a, b][..1] == [a];
    SumCountsSingle(d, a);
    assert [db][..0] == [];
    assert RdsIn(d, "subnet-a") == [db];
    assert RdsIn(d, "subnet-b") == [db];
    assert SubnetResourceCount(d, "subnet-a") == 1;
    assert SubnetResourceCount(d, "subnet-b") == 1;
  }
}
