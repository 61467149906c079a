/** The IP list of the access policy: validated once by ParseIPs, split again into
    firewall entries by UpdateAccessPolicy. `isIp` stands for net.ParseIP accepting. */
module IpLists {
  import opened Wrappers
  import opened Text
  import opened Store

  function Entries(ips: string): seq<string> {
    var parts := Split(ips, ',');
    seq(|parts|, i requires 0 <= i < |parts| => TrimSpace(parts[i]))
  }

  /** One entry for each part between commas, with the white space around it gone. */
  lemma EntryIsTrimmed(ips: string, k: nat) returns (i: nat, j: nat)
    requires k < Count(ips, ',') + 1
    ensures |Entries(ips)| == |Split(ips, ',')| == Count(ips, ',') + 1
    ensures var part := Split(ips, ',')[k];
            && i <= j <= |part| && Entries(ips)[k] == part[i..j] && ',' !in part
            && (forall m :: 0 <= m < i || j <= m < |part| ==> IsSpace(part[m]))
            && (i < j ==> !IsSpace(part[i]) && !IsSpace(part[j - 1]))
  {
    SplitJoin(ips, ',');
    i, j := TrimmedEnds(Split(ips, ',')[k]);
  }

  /** `picked` lists, in order, the positions of exactly those entries that are non-empty
      and not an IP address. */
  ghost predicate SelectsInvalid(entries: seq<string>, isIp: string -> bool, picked: seq<int>) {
    && (forall a :: 0 <= a < |picked| ==> 0 <= picked[a] < |entries|)
    && (forall a, b :: 0 <= a < b < |picked| ==> picked[a] < picked[b])
    && (forall i :: 0 <= i < |entries| ==> (i in picked <==> entries[i] != "" && !isIp(entries[i])))
  }

  function At(entries: seq<string>, picked: seq<int>): seq<string>
    requires forall a :: 0 <= a < |picked| ==> 0 <= picked[a] < |entries|
  {
    seq(|picked|, a requires 0 <= a < |picked| => entries[picked[a]])
  }

  lemma SelectNext(entries: seq<string>, isIp: string -> bool, picked: seq<int>, i: nat)
    requires i < |entries| && SelectsInvalid(entries[..i], isIp, picked)
    ensures var now := if entries[i] != "" && !isIp(entries[i]) then picked + [i] else picked;
            && SelectsInvalid(entries[..i + 1], isIp, now)
            && At(entries, now) == At(entries, picked)
               + (if entries[i] != "" && !isIp(entries[i]) then [entries[i]] else [])
  {
    var now := if entries[i] != "" && !isIp(entries[i]) then picked + [i] else picked;
    assert entries[..i + 1] == entries[..i] + [entries[i]];
    forall j | 0 <= j <= i
      ensures j in now <==> entries[j] != "" && !isIp(entries[j])
    {
      if j < i {
        assert entries[..i][j] == entries[j];
        assert j in now <==> j in picked;
      } else {
        assert j !in picked;
        assert now == picked + [i] ==> now[|picked|] == i;
      }
    }
  }

  lemma SelectionDecides(ips: string, isIp: string -> bool, picked: seq<int>)
    requires SelectsInvalid(Entries(ips), isIp, picked)
    ensures picked == [] <==> AllValid(ips, isIp)
  {
    var entries := Entries(ips);
    if picked != [] {
      assert picked[0] in picked;
      assert entries[picked[0]] in entries;
    }
  }

  method ParseIPs(ips: string, isIp: string -> bool) returns (valid: bool, invalid: seq<string>)
    ensures exists picked :: SelectsInvalid(Entries(ips), isIp, picked) && invalid == At(Entries(ips), picked)
    ensures valid <==> invalid == []
    ensures valid <==> AllValid(ips, isIp)
  {
    var parts := Split(ips, ',');
    ghost var entries := Entries(ips);
    ghost var picked: seq<int> := [];
    invalid := [];
    for i := 0 to |parts|
      invariant SelectsInvalid(entries[..i], isIp, picked)
      invariant invalid == At(entries, picked)
    {
      var ip := TrimSpace(parts[i]);
      SelectNext(entries, isIp, picked, i);
      if ip != "" {
        if !isIp(ip) {
          invalid := invalid + [ip];
          picked := picked + [i];
        }
      }
    }
    assert entries[..|parts|] == entries;
    SelectionDecides(ips, isIp, picked);
    valid := |invalid| == 0;
  }

  predicate AllValid(ips: string, isIp: string -> bool) {
    forall e :: e in Entries(ips) ==> e == "" || isIp(e)
  }

  class AccessPolicy {
    const cloud: Cloud

    constructor (cloud: Cloud)
      ensures this.cloud == cloud
    {
      this.cloud := cloud;
    }

    method UpdateAccessPolicy(allowedIps: string, bucket: string) returns (err: Option<S3Error>)
      modifies cloud
      ensures (cloud.world, err) == FirewallCall(old(cloud.world), bucket, Entries(allowedIps))
    {
      var parts := Split(allowedIps, ',');
      var list := new string[|parts|](i requires 0 <= i < |parts| => parts[i]);
      for i := 0 to list.Length
        invariant cloud.world == old(cloud.world)
        invariant forall j :: 0 <= j < i ==> list[j] == TrimSpace(parts[j])
        invariant forall j :: i <= j < list.Length ==> list[j] == parts[j]
      {
        list[i] := TrimSpace(list[i]);
      }
      assert list[..] == Entries(allowedIps);
      err := cloud.PatchFirewall(bucket, list[..]);
    }

    method UpdateQuotaLimit(quota: int, bucket: string) returns (err: Option<S3Error>)
      modifies cloud
      ensures (cloud.world, err) == QuotaCall(old(cloud.world), bucket, quota)
    {
      err := cloud.PatchQuota(bucket, quota);
    }
  }
}
