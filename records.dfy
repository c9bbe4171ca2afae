/** The cloud records the mapper reads: one immutable snapshot of a region,
    as the collection step hands it over. Each record keeps only the fields
    the topology engine looks at. A field the cloud API may leave out is an
    `Option`, except where the engine only tests it for truthiness or a
    prefix, where an absent value is the empty string. */
module Records {

  datatype Option<T> = None | Some(value: T)

  /** One key/value pair of a resource's tag collection. */
  datatype Tag = Tag(key: string, value: string)

  datatype Vpc = Vpc(vpcId: string, cidrBlock: string, tags: seq<Tag>)

  datatype Subnet = Subnet(
    subnetId: string,
    vpcId: string,
    cidrBlock: string,
    availabilityZone: string,
    tags: seq<Tag>)

  /** A route-table association: the subnet it names, if any, and the
      flag that marks the network's main table. */
  datatype Association = Association(subnetId: Option<string>, main: bool)

  /** A route; `gatewayId` and `natGatewayId` are "" when absent. */
  datatype Route = Route(destinationCidrBlock: string, gatewayId: string, natGatewayId: string)

  datatype RouteTable = RouteTable(vpcId: string, routes: seq<Route>, associations: seq<Association>)

  datatype Attachment = Attachment(vpcId: Option<string>, state: Option<string>)

  datatype InternetGateway = InternetGateway(internetGatewayId: string, attachments: seq<Attachment>)

  /** A NAT gateway; `subnetId` is "" when absent. */
  datatype NatGateway = NatGateway(natGatewayId: string, subnetId: string, state: Option<string>)

  /** A compute instance as collected: `name` is its resolved `Name` tag. */
  datatype Instance = Instance(
    instanceId: string,
    instanceType: string,
    state: string,
    subnetId: Option<string>,
    name: Option<string>)

  /** A database instance and the subnets of its subnet group. */
  datatype DbInstance = DbInstance(
    dbInstanceIdentifier: string,
    engine: string,
    dbInstanceStatus: string,
    subnetIds: seq<string>)

  /** A load balancer and the subnets of its availability zones. */
  datatype LoadBalancer = LoadBalancer(
    loadBalancerName: string,
    lbType: string,
    scheme: string,
    subnetIds: seq<string>)

  /** The whole snapshot, each collection in the order the cloud API returned it. */
  datatype Dataset = Dataset(
    vpcs: seq<Vpc>,
    subnets: seq<Subnet>,
    routeTables: seq<RouteTable>,
    igws: seq<InternetGateway>,
    nats: seq<NatGateway>,
    instances: seq<Instance>,
    rdsInstances: seq<DbInstance>,
    loadBalancers: seq<LoadBalancer>)

  /** The last eight characters of `s`, or all of it when shorter (Python's `s[-8:]`). */
  function Suffix8(s: string): (r: string)
    ensures |r| == if |s| < 8 then |s| else 8
    ensures s == s[..|s| - |r|] + r
  {
    if |s| <= 8 then s else s[|s| - 8..]
  }
}
