/** The complexity scorer (`analyze_complexity`): a weighted count of networks,
    subnets and resources picks one of three layout profiles. */
module Complexity {
  import opened Records

  datatype Level = Low | Medium | High

  /** Graphviz rank direction: "TB" or "LR". */
  datatype Direction = TopToBottom | LeftToRight

  /** A layout profile; the spacing multiplier is kept in tenths (18 stands for 1.8). */
  datatype Layout = Layout(level: Level, spacingTenths: nat, direction: Direction)

  /** The score as the source writes it, with the half weight on resources. */
  function Score(vpcCount: nat, subnetCount: nat, totalResources: nat): real
  {
    (vpcCount * 3) as real + (subnetCount * 1) as real + totalResources as real * 0.5
  }

  function Rank(level: Level): nat
  {
    match level
    case Low => 0
    case Medium => 1
    case High => 2
  }

  /** The profile for the three counts, decided on twice the score so that all
      arithmetic stays in integers: above 40 (score above 20) is high, above 20
      (score above 10) is medium, anything else is low. */
  function ComplexityOf(vpcCount: nat, subnetCount: nat, totalResources: nat): (r: Layout)
    ensures r.level == High <==> Score(vpcCount, subnetCount, totalResources) > 20.0
    ensures r.level == Medium <==> 10.0 < Score(vpcCount, subnetCount, totalResources) <= 20.0
    ensures r.level == Low <==> Score(vpcCount, subnetCount, totalResources) <= 10.0
    ensures r.level == High ==> r.spacingTenths == 18 && r.direction == LeftToRight
    ensures r.level == Medium ==> r.spacingTenths == 14 && r.direction == TopToBottom
    ensures r.level == Low ==> r.spacingTenths == 10 && r.direction == TopToBottom
  {
    var twice := 6 * vpcCount + 2 * subnetCount + totalResources;
    assert twice as real == 2.0 * Score(vpcCount, subnetCount, totalResources);
    if twice > 40 then Layout(High, 18, LeftToRight)
    else if twice > 20 then Layout(Medium, 14, TopToBottom)
    else Layout(Low, 10, TopToBottom)
  }

  /** The source's scorer on a snapshot: resources are the raw lengths of the
      instance, database and load-balancer lists. */
  function AnalyzeComplexity(d: Dataset): (r: Layout)
    ensures var score := Score(|d.vpcs|, |d.subnets|, |d.instances| + |d.rdsInstances| + |d.loadBalancers|);
      (r.level == High <==> score > 20.0) &&
      (r.level == Medium <==> 10.0 < score <= 20.0) &&
      (r.level == Low <==> score <= 10.0)
  {
    ComplexityOf(|d.vpcs|, |d.subnets|, |d.instances| + |d.rdsInstances| + |d.loadBalancers|)
  }

  /** More of anything never lowers the level. */
  lemma LevelMonotone(v: nat, s: nat, t: nat, v': nat, s': nat, t': nat)
    requires v <= v' && s <= s' && t <= t'
    ensures Rank(ComplexityOf(v, s, t).level) <= Rank(ComplexityOf(v', s', t').level)
  {
    assert Score(v, s, t) <= Score(v', s', t');
  }

  /** Scores of exactly 20 and exactly 10 fall to the lower band. */
  lemma BoundaryScores()
    ensures Score(5, 5, 0) == 20.0 && ComplexityOf(5, 5, 0).level == Medium
    ensures Score(2, 4, 0) == 10.0 && ComplexityOf(2, 4, 0).level == Low
  {
  }

  /** Worked examples: scores 7, 19 and 35. */
  lemma ScoreExamples()
    ensures ComplexityOf(1, 2, 4) == Layout(Low, 10, TopToBottom)
    ensures ComplexityOf(3, 5, 10) == Layout(Medium, 14, TopToBottom)
    ensures ComplexityOf(5, 10, 20) == Layout(High, 18, LeftToRight)
  {
  }
}
