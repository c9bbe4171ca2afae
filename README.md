# AWS topology inference, modelled in Dafny

`aws_analyzer.py` reads a snapshot of one AWS region: networks (VPCs), subnets, route tables, internet and NAT gateways, EC2 instances, RDS databases and load balancers. From that snapshot it infers a topology and hands it to a diagram renderer. This project models the decision logic of that inference and proves what it promises:

- **Tag resolution** (`get_tag_value`, module `Tags`). A first-match search over key/value tags, plus the `or` fallbacks that turn a missing `Name` tag into "VPC-", "subnet-" or "EC2-" followed by the last eight characters of the identifier.
- **Label clamping** (`calculate_text_safe_name`, module `Labels`). Empty text becomes "Unknown". Text that fits is kept as it is. Longer text is cut into width-sized chunks, and the first two are joined by a line break.
- **Subnet classification** (`analyze_subnet_type`, module `Routing`):
  - A route table of the subnet's own network governs the subnet. An explicit association wins over the main table, and the first such table in order is the one used.
  - The first catch-all route to an `igw-` gateway or to a NAT gateway then decides between public and private. With no such route the subnet is isolated; with no governing table its role is unknown.
- **Layout complexity** (`analyze_complexity`, module `Complexity`). The score is 3·networks + subnets + 0.5·resources. It is decided in integers as twice the score against 40 and 20, and proved equivalent to the real-valued score against 20 and 10.
- **Resource counting** (module `Counting`). Instances are matched to a subnet by their single subnet field. Databases and load balancers are matched when their subnet list names the subnet. Totals of a zone or a network are sums of per-subnet counts, so a database spanning k subnets counts k times. Subnets are grouped by zone in order of first appearance.
- **The topology tree** (the body of `generate_architecture_diagram`, module `Diagram`). The model builds a nested tree of network, zone, subnet and leaf clusters, together with each network's edge list:
  - Zones and subnets with no resources are pruned.
  - Every attached, available internet gateway gets a node and an Internet edge, and the last one is the node that later edges start from.
  - Instances and load balancers of public subnets get an edge from that gateway; databases never do.
  - Each drawn zone lists the available NAT gateways of its subnets, with their gateway edges.

Records are immutable datatypes (module `Records`). The loops of the source are methods with loop invariants. Each method is proved against a specification function, and lemmas establish the properties of those functions.

## Model

| member | source | states |
|---|---|---|
| Tags.TagValue | aws_analyzer.py:123-128 | None exactly when no tag has the key; otherwise the value of the first tag with that key |
| Tags.GetTagValue | aws_analyzer.py:123-128 | the search loop with its early return yields the first-match value, or None |
| Tags.TagValueIgnoresLaterTags | aws_analyzer.py:125-127 | once a tag matches, tags appended after it never change the result |
| Tags.NameOr | aws_analyzer.py:290-292 | Python's `or` on a name: the fallback exactly when the name is absent, empty or already equal to it; otherwise the name itself |
| Records.Suffix8 | aws_analyzer.py:243 | `id[-8:]`: the last eight characters (all of a shorter id), a true suffix of the id |
| Labels.ChunksPartition | aws_analyzer.py:181-182 | each chunk is non-empty and at most the width long; the chunks laid end to end give back the text |
| Labels.ShortTextUnchanged | aws_analyzer.py:173-177 | empty text becomes "Unknown"; non-empty text within the width is returned unchanged |
| Labels.SafeName | aws_analyzer.py:171-184 | reference definition of the clamp: "Unknown", the text, or the first two chunks joined by a line break (its properties are the lemmas around it) |
| Labels.LongTextClampsToTwoLines | aws_analyzer.py:179-184 | overlong text becomes exactly `text[:w] + "\n" + text[w:2w]`: two lines, nothing beyond the first 2w characters |
| Labels.ChunkText | aws_analyzer.py:180-182 | the slicing loop produces exactly the width-sized chunks of the text |
| Labels.CalculateTextSafeName | aws_analyzer.py:171-184 | the chunking loop computes the clamp: "Unknown", the text itself, or its first two chunks on two lines |
| Labels.ClampExample | aws_analyzer.py:171-184 | "ExactlyFifteenCh" clamped to 15 is "ExactlyFifteenC\nh"; empty text is "Unknown" |
| Routing.ScanRoutes | aws_analyzer.py:162-169 | never unknown; isolated exactly when no catch-all route goes to an `igw-` gateway or names a NAT; otherwise the role given by the first such route |
| Routing.FirstTable | aws_analyzer.py:136-156 | None exactly when no same-network table has the association; otherwise the first index that has it |
| Routing.UnknownIffNoTable | aws_analyzer.py:158-159 | the role is unknown exactly when no table of the subnet's network names the subnet or is its main table |
| Routing.ExplicitAssociationWins | aws_analyzer.py:136-145 | the first table that explicitly names the subnet decides, whatever main tables exist |
| Routing.MainTableFallback | aws_analyzer.py:148-156 | without an explicit association, the first main table of the subnet's network decides |
| Routing.NonDecidingCatchAllSkipped | aws_analyzer.py:162-167 | a catch-all route to neither gateway kind does not stop the scan |
| Routing.GatewayBeforeNat | aws_analyzer.py:163-167 | a catch-all route to an `igw-` gateway that also names a NAT gives public |
| Routing.FindExplicitTable | aws_analyzer.py:136-145 | the explicit search loop, skipping other networks' tables and stopping at the first association naming the subnet, finds the first such table or none |
| Routing.FindMainTable | aws_analyzer.py:148-156 | the fallback loop finds the first main table of the subnet's network, or none |
| Routing.ScanTableRoutes | aws_analyzer.py:162-169 | the route loop with its early returns computes the route scan above |
| Routing.AnalyzeSubnetType | aws_analyzer.py:130-169 | explicit search, main-table fallback only when it finds nothing, unknown without a table, then the route scan: exactly the classification above |
| Routing.ClassifySubnet | aws_analyzer.py:130-169 | reference definition of the classification: unknown without a governing table, otherwise the route scan of the table found (properties in the lemmas above) |
| Complexity.ComplexityOf | aws_analyzer.py:192-199 | high/1.8/LR exactly when the real score exceeds 20, medium/1.4/TB exactly when it lies in (10, 20], low/1.0/TB otherwise |
| Complexity.AnalyzeComplexity | aws_analyzer.py:186-199 | on a snapshot, resources are the raw lengths of the instance, database and load-balancer lists; the level's band is decided by the real score of those three counts |
| Complexity.LevelMonotone | aws_analyzer.py:192-199 | more networks, subnets or resources never lower the level |
| Complexity.BoundaryScores | aws_analyzer.py:194-197 | scores of exactly 20 and exactly 10 fall to the lower band |
| Complexity.ScoreExamples | aws_analyzer.py:186-199 | scores 7, 19 and 35 give the low, medium and high profiles |
| Counting.Filter | aws_analyzer.py:297-299 | a list comprehension keeps exactly the values meeting its condition and is never longer than its input |
| Counting.FilterMultiplicity | aws_analyzer.py:297-301 | every occurrence of a matching record is kept and no other, so the comprehension's `len` counts matches with repeats |
| Counting.EmptySubnetIff | aws_analyzer.py:297-304 | a subnet counts zero exactly when no instance sits in it and no database or load balancer lists it |
| Counting.SubnetResourceCount | aws_analyzer.py:297-301 | reference definition of a subnet's count: matching instances plus databases plus load balancers |
| Counting.SumCounts | aws_analyzer.py:247-251 | reference definition of the running total of per-subnet counts (also the zone total at lines 277-280) |
| Counting.SumCountsAppend | aws_analyzer.py:247-251 | the running total over two runs of subnets is the sum of their totals |
| Counting.SumCountsZeroIff | aws_analyzer.py:276-283 | a zone total is zero exactly when every subnet in it counts zero |
| Counting.ZoneOrder | aws_analyzer.py:267-270 | the zone keys are distinct and are exactly the zones of the subnets |
| Counting.ZoneOrderPrefix | aws_analyzer.py:267-270 | the zone order of the first k subnets is a prefix of the whole zone order: each zone takes its place when its first subnet appears |
| Counting.GroupByZone | aws_analyzer.py:267-270 | the `defaultdict` loop yields the zones in first-appearance order, each mapped to its subnets in order |
| Counting.ZoneTotalsAddUp | aws_analyzer.py:246-283 | summing the zone totals over all zones gives the network total: grouping loses and duplicates nothing |
| Counting.MultiSubnetDatabaseCountedTwice | aws_analyzer.py:248-251 | one database listing two subnets of a network contributes 2 to the network total |
| Diagram.LeavesOf | aws_analyzer.py:297-301 | a subnet has one leaf per counted resource |
| Diagram.SubnetClusters | aws_analyzer.py:288-308 | each drawn subnet cluster has a leaf, and every subnet with a resource gets its cluster; never more clusters than subnets |
| Diagram.SubnetLeavesAddUp | aws_analyzer.py:276-308 | the leaves drawn in a zone's subnet clusters add up to the zone's total |
| Diagram.SubnetClustersNonEmpty | aws_analyzer.py:282-304 | a zone with a positive total has at least one subnet cluster |
| Diagram.ZoneClusters | aws_analyzer.py:273-308 | every emitted zone has a positive total and at least one subnet cluster, and each of those has a leaf |
| Diagram.InstanceLeaf | aws_analyzer.py:311-316 | an instance node carries its clamped name (or "EC2-" fallback), type and state; the name is at most 2·12+1 characters |
| Diagram.DatabaseLeaf | aws_analyzer.py:323-328 | a database node carries its clamped identifier, engine and status |
| Diagram.LoadBalancerLeaf | aws_analyzer.py:331-336 | a load-balancer node carries its clamped name, type and scheme |
| Diagram.DrawInstances | aws_analyzer.py:311-320 | one leaf per instance, in order, each equal to its instance's node; an edge from the gateway node to each when the subnet is public and a gateway node exists; earlier leaves unchanged |
| Diagram.DrawDatabases | aws_analyzer.py:323-328 | one leaf per database, in order, each equal to its database's node; no edge is added |
| Diagram.DrawLoadBalancers | aws_analyzer.py:331-340 | one leaf per load balancer, in order, each equal to its node; an edge from the gateway node to each when the subnet is public and a gateway node exists |
| Diagram.DrawSubnetLeaves | aws_analyzer.py:310-340 | leaves are instances, then databases, then load balancers; edges go from the gateway node to exactly the non-database leaves, and only in a public subnet with a gateway node |
| Diagram.TotalResources | aws_analyzer.py:247-251 | the accumulation loop computes the sum of per-subnet counts |
| Diagram.DrawSubnets | aws_analyzer.py:288-340 | the subnet loop yields the pruned subnet clusters and exactly their gateway edges |
| Diagram.DrawNats | aws_analyzer.py:342-349 | one NAT node per available NAT gateway whose subnet is in the zone, with a gateway edge to each when a gateway node exists |
| Diagram.DrawNextNat | aws_analyzer.py:343-349 | a NAT gateway gets a node exactly when it names a subnet, that subnet is one of the zone's, and its state is available; the gateway edge follows when a gateway node exists |
| Diagram.DrawZone | aws_analyzer.py:273-349 | a zone is skipped exactly when its total is zero; otherwise its cluster and edges are as specified |
| Diagram.VpcDisplayName | aws_analyzer.py:243-253 | the network caption is its `Name` tag or "VPC-" plus the id suffix, clamped to 20 |
| Diagram.DrawGateways | aws_analyzer.py:258-264 | one gateway node and Internet edge per gateway with an available attachment to the network |
| Diagram.DrawNextZone | aws_analyzer.py:273-349 | one more zone in order: appended when its total is positive, skipped otherwise, edges kept sound and complete |
| Diagram.DrawZones | aws_analyzer.py:266-349 | zones drawn in first-appearance order with pruning; every edge sound and every expected edge present |
| Diagram.DrawVpc | aws_analyzer.py:241-349 | a network cluster: caption, total, gateway nodes, zone clusters and edges as specified |
| Diagram.VpcDrawn | aws_analyzer.py:241-349 | reference definition of a drawn network: clamped caption, CIDR, total of per-subnet counts, one gateway node per attached available gateway, the pruned zone clusters in zone order, and an edge set both sound and complete |
| Diagram.ZoneClustersSum | aws_analyzer.py:282-283 | pruning drops only zero totals, so the drawn zone totals equal the zone sums |
| Diagram.ZoneTotalsMatchNetwork | aws_analyzer.py:246-283 | in a drawn network, the zone totals add up to the network's total |
| Diagram.DrawnNetworkShape | aws_analyzer.py:282-340 | no empty zone or subnet cluster is drawn, and no edge reaches a database node |
| Diagram.GenerateArchitectureDiagram | aws_analyzer.py:215-349 | layout from the complexity score, then one cluster per network in snapshot order, each drawn as specified |

## Left out

- Collection of the snapshot through boto3 (`collect_infrastructure_data` and the `get_*` helpers, aws_analyzer.py:13-121). That code does network I/O and swallows exceptions. The model takes the snapshot as input. The input may be any sequences; the source's filtering of terminated instances and deleting databases happens before this core and is not modelled.
- The `diagrams` library: imports, the `Diagram`/`Cluster` context managers and node classes. The model produces the tree and edge list the code hands to it. Clusters and leaves keep their label fields separate instead of formatting f-strings.
- The zone caption shows `az[-1]`, the zone's last character. The model stores the whole zone name. It does not model the crash on an empty zone name.
- Edges are kept per network cluster and address nodes by position (gateway index; zone, subnet and leaf index; zone and NAT index) instead of by object identity. All gateway nodes share the label "IGW", so only their count is kept.
- `graph_attr` and its float formatting. The spacing multiplier is kept in tenths (18, 14, 10) as a tag of the level.
- Timestamps, file names, console output and the returned file name of `generate_architecture_diagram`.
- `generate_summary_report` and `run`. They write a file and print to the console. The report's per-subnet counts (aws_analyzer.py:405-407) are the same comprehensions as `Counting.InstancesIn`, `Counting.RdsIn` and `Counting.LbsIn`.
- test_diagrams.py. It only renders a sample diagram with the external library.
- The complexity score counts raw list lengths, as the source does. It can therefore differ from the per-subnet sums the tree shows, which count a multi-subnet database or load balancer once per subnet.
