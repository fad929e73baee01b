/** findDefaultAmiId (src/functions/findDefaultAmiId.ts): the Ubuntu 16.04
    image used in each region when no snapshot is given. */
module Amis {
  import opened Common

  /** `amisByRegion`, region to image id, in the source's order. */
  const AmisByRegion: seq<(string, string)> := [
    ("ap-south-1", "ami-88d98ae7"),
    ("us-east-1", "ami-0b383171"),
    ("ap-northeast-1", "ami-adceb9cb"),
    ("ap-southeast-2", "ami-e1c43f83"),
    ("eu-west-1", "ami-c1167eb8"),
    ("ap-southeast-1", "ami-a55c1dd9"),
    ("eu-west-2", "ami-e0bc5987"),
    ("ca-central-1", "ami-c7a622a3"),
    ("ap-northeast-2", "ami-35a3015b"),
    ("us-west-2", "ami-c62eaabe"),
    ("us-west-1", "ami-9cb2bdfc"),
    ("eu-central-1", "ami-714f2b1e"),
    ("sa-east-1", "ami-9a2d63f6"),
    ("us-east-2", "ami-4f80b52a"),
    ("eu-west-3", "ami-6bad1b16"),
    ("cn-north-1", "ami-cc4499a1"),
    ("cn-northwest-1", "ami-fd0e1a9f"),
    ("us-gov-west-1", "ami-77199016")
  ]

  /** The value stored under `key` in a table of entries; None (the
      source's `undefined`) when no entry has that key. */
  function Lookup(table: seq<(string, string)>, key: string): (value: Option<string>)
    ensures value.Some? <==> exists i :: 0 <= i < |table| && table[i].0 == key
    ensures value.Some? ==> (key, value.value) in table
  {
    if table == [] then None
    else if table[0].0 == key then Some(table[0].1)
    else
      var rest := Lookup(table[1..], key);
      assert forall i :: 1 <= i < |table| ==> table[i] == table[1..][i - 1];
      rest
  }

  /** `amisByRegion[region]`. */
  function FindDefaultAmiId(region: string): (id: Option<string>)
    ensures id.Some? <==> exists i :: 0 <= i < |AmisByRegion| && AmisByRegion[i].0 == region
    ensures id.Some? ==> (region, id.value) in AmisByRegion
  {
    Lookup(AmisByRegion, region)
  }

  predicate IsAmiId(id: string) {
    |id| >= 4 && id[..4] == "ami-"
  }

  /** The table has 18 regions, no region twice, no image twice, and every
      image id starts with "ami-". */
  lemma TableShape()
    ensures |AmisByRegion| == 18
    ensures forall i, j :: 0 <= i < j < |AmisByRegion| ==> AmisByRegion[i].0 != AmisByRegion[j].0
    ensures forall i, j :: 0 <= i < j < |AmisByRegion| ==> AmisByRegion[i].1 != AmisByRegion[j].1
    ensures forall i :: 0 <= i < |AmisByRegion| ==> IsAmiId(AmisByRegion[i].1)
  {
  }

  /** us-east-1 resolves to its image; a name that is not a region (such as
      "undefined", what a lookup with an undefined region reads) resolves
      to nothing rather than to an error. */
  lemma KnownAndUnknownRegions()
    ensures FindDefaultAmiId("us-east-1") == Some("ami-0b383171")
    ensures FindDefaultAmiId("undefined") == None
  {
    assert AmisByRegion[0].0 != "us-east-1";
    assert AmisByRegion[1..][0] == ("us-east-1", "ami-0b383171");
    assert forall i :: 0 <= i < |AmisByRegion| ==> AmisByRegion[i].0 != "undefined";
  }
}
