/** The capabilities a contract may require, and what is said of the ones the controller does not have
    (src/model.cpp, src/authority.cpp). */
module Vocabulary {
  import opened Model

  predicate IsKnownCapability(name: string)
  {
    name == "topology-path-binding" || name == "exclusive-path-binding" || name == "failure-domain-diversity"
    || name == "maintenance-exclusion" || name == "capacity-reservation"
  }

  predicate AllKnown(names: seq<string>)
  {
    forall i :: 0 <= i < |names| ==> IsKnownCapability(names[i])
  }

  const HARDWARE: seq<string> := [
    "rdma", "roce", "infiniband", "ib-fabric", "nvlink", "nvswitch", "cuda", "pcie", "optical", "asic", "switch", "serdes",
    "lane", "nic", "dpu", "phy", "transceiver", "fabric-hardware", "qos-hw"]

  const INTER_CLUSTER: seq<string> := ["inter-cluster", "intercluster", "cross-cluster", "wan", "site-to-site"]

  function Lower(s: string): (r: string)
    ensures |r| == |s|
  {
    seq(|s|, i requires 0 <= i < |s| => if 'A' <= s[i] <= 'Z' then (s[i] as int + 32) as char else s[i])
  }

  predicate StandsAt(s: string, i: nat, word: string)
  {
    i + |word| <= |s| && s[i..i + |word|] == word
  }

  predicate Contains(s: string, word: string)
  {
    exists i :: 0 <= i <= |s| && StandsAt(s, i, word)
  }

  /** `contains_marker`. */
  predicate Mentions(name: string, markers: seq<string>)
  {
    exists i :: 0 <= i < |markers| && Contains(Lower(name), markers[i])
  }

  function FirstUnknown(names: seq<string>): string
  {
    if names == [] then "" else if IsKnownCapability(names[0]) then FirstUnknown(names[1..]) else names[0]
  }

  /** Why a contract that requires an unknown capability is not supported: for the first such. */
  function Unsupportable(names: seq<string>): ReasonCode
  {
    var name := FirstUnknown(names);
    if Mentions(name, INTER_CLUSTER) then INTER_CLUSTER_UNSUPPORTED
    else if Mentions(name, HARDWARE) then HARDWARE_SEMANTICS_UNSUPPORTED
    else UNSUPPORTED_CAPABILITY
  }
}
