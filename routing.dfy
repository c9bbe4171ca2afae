/** The route classifier (`analyze_subnet_type`): which route table governs a
    subnet, and what its catch-all route says about the subnet's reachability. */
module Routing {
  import opened Records

  datatype Role = Public | Private | Isolated | Unknown

  /** The two ways a table can govern a subnet: by naming it, or as the main table. */
  datatype Lookup = Explicit | MainTable

  const CatchAll: string := "0.0.0.0/0"

  predicate IsIgwId(gatewayId: string)
  {
    |gatewayId| >= 4 && gatewayId[..4] == "igw-"
  }

  /** A catch-all route that settles the role: one to an internet gateway, or
      one naming a NAT gateway. Other catch-all routes are passed over. */
  predicate Decides(route: Route)
  {
    route.destinationCidrBlock == CatchAll && (IsIgwId(route.gatewayId) || route.natGatewayId != "")
  }

  /** The role a deciding route gives; the gateway test comes before the NAT test. */
  function RoleOf(route: Route): Role
  {
    if IsIgwId(route.gatewayId) then Public else Private
  }

  ghost predicate FirstDecidingAt(routes: seq<Route>, k: int)
  {
    0 <= k < |routes| && Decides(routes[k]) && forall j :: 0 <= j < k ==> !Decides(routes[j])
  }

  /** The route scan: the first deciding route gives the role; with none, the
      subnet is isolated. */
  function ScanRoutes(routes: seq<Route>): (r: Role)
    ensures r != Unknown
    ensures r == Isolated <==> forall k :: 0 <= k < |routes| ==> !Decides(routes[k])
    ensures r != Isolated ==> exists k :: FirstDecidingAt(routes, k) && r == RoleOf(routes[k])
  {
    if routes == [] then Isolated
    else if Decides(routes[0]) then RoleOf(routes[0])
    else
      var r := ScanRoutes(routes[1..]);
      assert forall k :: 1 <= k < |routes| ==> routes[k] == routes[1..][k - 1];
      assert r != Isolated ==> exists k :: FirstDecidingAt(routes[1..], k) && r == RoleOf(routes[1..][k]);
      assert forall k :: FirstDecidingAt(routes[1..], k) ==> FirstDecidingAt(routes, k + 1);
      r
  }

  predicate Governs(table: RouteTable, subnet: Subnet, how: Lookup)
  {
    table.vpcId == subnet.vpcId &&
    exists a :: a in table.associations &&
      match how
      case Explicit => a.subnetId == Some(subnet.subnetId)
      case MainTable => a.main
  }

  /** The index of the first table that governs `subnet` in the given way. */
  function FirstTable(tables: seq<RouteTable>, subnet: Subnet, how: Lookup): (r: Option<nat>)
    ensures r.None? <==> forall k :: 0 <= k < |tables| ==> !Governs(tables[k], subnet, how)
    ensures r.Some? ==>
      r.value < |tables| && Governs(tables[r.value], subnet, how) &&
      forall j :: 0 <= j < r.value ==> !Governs(tables[j], subnet, how)
  {
    if tables == [] then None
    else if Governs(tables[0], subnet, how) then Some(0)
    else
      assert forall k :: 1 <= k < |tables| ==> tables[k] == tables[1..][k - 1];
      match FirstTable(tables[1..], subnet, how)
      case None => None
      case Some(k) => Some(k + 1)
  }

  /** The table that governs the subnet: an explicit association first, the
      network's main table otherwise. */
  function EffectiveTable(subnet: Subnet, tables: seq<RouteTable>): Option<RouteTable>
  {
    match FirstTable(tables, subnet, Explicit)
    case Some(k) => Some(tables[k])
    case None =>
      match FirstTable(tables, subnet, MainTable)
      case Some(k) => Some(tables[k])
      case None => None
  }

  /** The subnet's role: `Unknown` when no table governs it, otherwise what
      the governing table's routes say. */
  function ClassifySubnet(subnet: Subnet, tables: seq<RouteTable>): Role
  {
    match EffectiveTable(subnet, tables)
    case None => Unknown
    case Some(table) => ScanRoutes(table.routes)
  }

  /** The role is `Unknown` exactly when no table of the subnet's network names
      it and none is that network's main table. */
  lemma UnknownIffNoTable(subnet: Subnet, tables: seq<RouteTable>)
    ensures ClassifySubnet(subnet, tables) == Unknown <==>
      forall k :: 0 <= k < |tables| ==>
        !Governs(tables[k], subnet, Explicit) && !Governs(tables[k], subnet, MainTable)
  {
    if EffectiveTable(subnet, tables).Some? {
      assert ScanRoutes(EffectiveTable(subnet, tables).value.routes) != Unknown;
    }
  }

  /** An explicit association wins over the main table, and the first
      explicitly associated table in order is the one whose routes count. */
  lemma ExplicitAssociationWins(subnet: Subnet, tables: seq<RouteTable>, k: nat)
    requires k < |tables| && Governs(tables[k], subnet, Explicit)
    requires forall j :: 0 <= j < k ==> !Governs(tables[j], subnet, Explicit)
    ensures ClassifySubnet(subnet, tables) == ScanRoutes(tables[k].routes)
  {
    var f := FirstTable(tables, subnet, Explicit);
    assert f.Some?;
  }

  /** Without any explicit association, the first main table of the subnet's
      network decides. */
  lemma MainTableFallback(subnet: Subnet, tables: seq<RouteTable>, k: nat)
    requires forall j :: 0 <= j < |tables| ==> !Governs(tables[j], subnet, Explicit)
    requires k < |tables| && Governs(tables[k], subnet, MainTable)
    requires forall j :: 0 <= j < k ==> !Governs(tables[j], subnet, MainTable)
    ensures ClassifySubnet(subnet, tables) == ScanRoutes(tables[k].routes)
  {
    var f := FirstTable(tables, subnet, MainTable);
    assert f.Some?;
  }

  /** A catch-all route that neither goes to an internet gateway nor names a NAT
      gateway does not end the scan: a deciding route after it still counts. */
  lemma NonDecidingCatchAllSkipped(first: Route, rest: seq<Route>)
    requires first.destinationCidrBlock == CatchAll && !Decides(first)
    ensures ScanRoutes([first] + rest) == ScanRoutes(rest)
  {
    assert ([first] + rest)[1..] == rest;
  }

  /** A route to an internet gateway wins over a NAT gateway named on the same route. */
  lemma GatewayBeforeNat(route: Route, rest: seq<Route>)
    requires route.destinationCidrBlock == CatchAll && IsIgwId(route.gatewayId)
    requires route.natGatewayId != ""
    ensures ScanRoutes([route] + rest) == Public
  {
  }

  /** The table found by a lookup: the first one that governs the subnet that way. */
  function TableFound(tables: seq<RouteTable>, subnet: Subnet, how: Lookup): Option<RouteTable>
  {
    match FirstTable(tables, subnet, how)
    case Some(k) => Some(tables[k])
    case None => None
  }

  /** The explicit search: tables of other networks are skipped, and the two
      `break`s stop at the first association naming the subnet. */
  method FindExplicitTable(subnet: Subnet, tables: seq<RouteTable>) returns (associated: Option<RouteTable>)
    ensures associated == TableFound(tables, subnet, Explicit)
  {
    associated := None;
    var k := 0;
    while k < |tables|
      invariant 0 <= k <= |tables|
      invariant associated.None?
      invariant forall j :: 0 <= j < k ==> !Governs(tables[j], subnet, Explicit)
    {
      var table := tables[k];
      if table.vpcId == subnet.vpcId {
        var assocs := table.associations;
        var n := 0;
        while n < |assocs|
          invariant 0 <= n <= |assocs|
          invariant associated.None?
          invariant forall m :: 0 <= m < n ==> assocs[m].subnetId != Some(subnet.subnetId)
        {
          if assocs[n].subnetId == Some(subnet.subnetId) {
            assert assocs[n] in table.associations;
            associated := Some(table);
            break;
          }
          n := n + 1;
        }
      }
      k := k + 1;
      if associated.Some? {
        assert FirstTable(tables, subnet, Explicit) == Some(k - 1);
        return;
      }
    }
  }

  /** The fallback search for the first main table of the subnet's network. */
  method FindMainTable(subnet: Subnet, tables: seq<RouteTable>) returns (associated: Option<RouteTable>)
    ensures associated == TableFound(tables, subnet, MainTable)
  {
    associated := None;
    var k := 0;
    while k < |tables|
      invariant 0 <= k <= |tables|
      invariant associated.None?
      invariant forall j :: 0 <= j < k ==> !Governs(tables[j], subnet, MainTable)
    {
      var table := tables[k];
      if table.vpcId == subnet.vpcId {
        var assocs := table.associations;
        var n := 0;
        while n < |assocs|
          invariant 0 <= n <= |assocs|
          invariant associated.None?
          invariant forall m :: 0 <= m < n ==> !assocs[m].main
        {
          if assocs[n].main {
            assert assocs[n] in table.associations;
            associated := Some(table);
            break;
          }
          n := n + 1;
        }
      }
      k := k + 1;
      if associated.Some? {
        assert FirstTable(tables, subnet, MainTable) == Some(k - 1);
        return;
      }
    }
  }

  /** The route scan with its early returns. */
  method ScanTableRoutes(routes: seq<Route>) returns (role: Role)
    ensures role == ScanRoutes(routes)
  {
    var i := 0;
    while i < |routes|
      invariant 0 <= i <= |routes|
      invariant ScanRoutes(routes) == ScanRoutes(routes[i..])
    {
      assert routes[i..][1..] == routes[i + 1..];
      var route := routes[i];
      if route.destinationCidrBlock == CatchAll {
        if IsIgwId(route.gatewayId) {
          return Public;
        } else if route.natGatewayId != "" {
          return Private;
        }
      }
      i := i + 1;
    }
    return Isolated;
  }

  /** The source's classifier: the explicit search, the main-table fallback
      when it finds nothing, then the scan of the table's routes. */
  method AnalyzeSubnetType(subnet: Subnet, tables: seq<RouteTable>) returns (role: Role)
    ensures role == ClassifySubnet(subnet, tables)
  {
    var associated := FindExplicitTable(subnet, tables);
    if associated.None? {
      associated := FindMainTable(subnet, tables);
    }
    if associated.None? {
      return Unknown;
    }
    role := ScanTableRoutes(associated.value.routes);
  }
}
