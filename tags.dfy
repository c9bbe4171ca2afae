/** The tag resolver (`get_tag_value`) and the display-name fallbacks built on it. */
module Tags {
  import opened Records

  /** The value of the first tag whose key is `key`, or None. */
  function TagValue(tags: seq<Tag>, key: string): (r: Option<string>)
    ensures r.None? <==> forall i :: 0 <= i < |tags| ==> tags[i].key != key
    ensures r.Some? ==>
      exists i :: 0 <= i < |tags| && tags[i].key == key && tags[i].value == r.value &&
        forall j :: 0 <= j < i ==> tags[j].key != key
  {
    if tags == [] then None
    else if tags[0].key == key then Some(tags[0].value)
    else
      var r := TagValue(tags[1..], key);
      assert forall j :: 1 <= j < |tags| ==> tags[j] == tags[1..][j - 1];
      r
  }

  /** The source's search loop, with its early return. */
  method GetTagValue(tags: seq<Tag>, key: string) returns (r: Option<string>)
    ensures r == TagValue(tags, key)
  {
    var k := 0;
    while k < |tags|
      invariant 0 <= k <= |tags|
      invariant TagValue(tags, key) == TagValue(tags[k..], key)
    {
      assert tags[k..][1..] == tags[k + 1..];
      if tags[k].key == key {
        return Some(tags[k].value);
      }
      k := k + 1;
    }
    return None;
  }

  /** Any tag after the first one carrying `key` is ignored: appending tags never
      changes a value already found. */
  lemma {:induction false} TagValueIgnoresLaterTags(tags: seq<Tag>, more: seq<Tag>, key: string)
    requires TagValue(tags, key).Some?
    ensures TagValue(tags + more, key) == TagValue(tags, key)
  {
    if tags[0].key != key {
      assert (tags + more)[1..] == tags[1..] + more;
      TagValueIgnoresLaterTags(tags[1..], more, key);
    }
  }

  /** Python's `value or fallback` on a resolved name: an absent or empty name
      gives the fallback. */
  function NameOr(name: Option<string>, fallback: string): (r: string)
    ensures r == fallback <==> name.None? || name.value == "" || name.value == fallback
    ensures r != fallback ==> name == Some(r)
  {
    if name.Some? && name.value != "" then name.value else fallback
  }

  /** The diagram's name for a VPC: its `Name` tag, else "VPC-" and the last eight
      characters of its identifier. */
  function VpcName(vpc: Vpc): string
  {
    NameOr(TagValue(vpc.tags, "Name"), "VPC-" + Suffix8(vpc.vpcId))
  }

  /** The diagram's name for a subnet: its `Name` tag, else "subnet-" and the last
      eight characters of its identifier. */
  function SubnetName(subnet: Subnet): string
  {
    NameOr(TagValue(subnet.tags, "Name"), "subnet-" + Suffix8(subnet.subnetId))
  }

  /** The diagram's name for an instance: its resolved name, else "EC2-" and the
      last eight characters of its identifier. */
  function InstanceName(instance: Instance): string
  {
    NameOr(instance.name, "EC2-" + Suffix8(instance.instanceId))
  }
}
