/**
 * Work-item derivation of `provision_vms` (vm_provision.py): the ordered list
 * of `{name, hostname, ips}` configurations built from either an explicit
 * node list (individual mode) or a prefix, a count and per-NIC base addresses
 * (bulk mode, addresses advanced by the IP allocator).
 */
module WorkItems {
  import opened Wrappers
  import opened Text
  import opened Dicts
  import opened IpAddress

  /** The value under a node's `ips` key: a JSON object, a string, or any other JSON value. */
  datatype IpsValue = DictIps(entries: Dict) | TextIps(text: string) | OtherIps(truthy: bool)

  /** One element of the individual-node list; `None` stands for a missing key. */
  datatype Node = Node(name: Option<string>, hostname: Option<string>, ips: Option<IpsValue>)

  /** One work item: final name, final hostname and one slot per NIC (None = DHCP). */
  datatype VmConfig = VmConfig(name: string, hostname: string, ips: seq<Option<string>>)

  /** Number of NIC slots the provisioning code derives per VM. */
  const NicSlots := 9

  /** `f"net{k}"`. */
  function NicKey(k: nat): string { "net" + Show(k) }

  lemma NicKeyInjective(j: nat, k: nat)
    requires NicKey(j) == NicKey(k)
    ensures j == k
  {
    assert NicKey(j)[3..] == Show(j) && NicKey(k)[3..] == Show(k);
  }

  /** `x or default` for an optional string. */
  function OrElse(x: Option<string>, default: string): string
  {
    if x.Some? && x.value != "" then x.value else default
  }

  /** `ip if ip else None` on `d.get(f"net{k}")`. */
  function Slot(d: Dict, k: nat): (r: Option<string>)
    ensures r.Some? ==> r.value != ""
    ensures r.Some? <==> Get(d, NicKey(k)).Some? && Get(d, NicKey(k)).value != ""
  {
    var v := Get(d, NicKey(k));
    if v.Some? && v.value != "" then v else None
  }

  /** The nine slots, net1 first. */
  function Slots(d: Dict): (r: seq<Option<string>>)
    ensures |r| == NicSlots
    ensures forall k :: 0 <= k < NicSlots ==> r[k] == Slot(d, k + 1)
  {
    seq(NicSlots, k requires 0 <= k < NicSlots => Slot(d, k + 1))
  }

  /** The name a node without one gets: `vm` and its 1-based index, two digits at least. */
  function DefaultName(idx: nat): string
  {
    "vm" + Pad2(idx)
  }

  /** The configuration of the `idx`-th node (1-based), or the error raised when its `ips` is not an object. */
  function IndividualConfig(node: Node, idx: nat): Result<VmConfig, string>
  {
    var name := OrElse(node.name, DefaultName(idx));
    var hostname := OrElse(node.hostname, name);
    match node.ips
    case None => Success(VmConfig(name, hostname, Slots([])))
    case Some(DictIps(d)) => Success(VmConfig(name, hostname, Slots(d)))
    case Some(_) => Failure(IpsNotObject)
  }

  const IpsNotObject := "node 'ips' value has no attribute 'get'"

  /** A truthy `ips` value that is not an object: `ips.items()` on it raises. */
  predicate ItemsRaise(ips: Option<IpsValue>)
  {
    ips.Some? && ((ips.value.TextIps? && ips.value.text != "") || (ips.value.OtherIps? && ips.value.truthy))
  }

  const IpsHasNoItems := "node 'ips' value has no attribute 'items'"

  /** The position of the first node from `i` on whose `ips` makes `.items()` raise, or `|nodes|` when there is none. */
  function FirstItemsRaise(nodes: seq<Node>, i: nat): (k: nat)
    requires i <= |nodes|
    ensures i <= k <= |nodes| && (k < |nodes| ==> ItemsRaise(nodes[k].ips))
    ensures forall j :: i <= j < k ==> !ItemsRaise(nodes[j].ips)
    decreases |nodes| - i
  {
    if i == |nodes| || ItemsRaise(nodes[i].ips) then i else FirstItemsRaise(nodes, i + 1)
  }

  /**
   * What the individual-mode derivation promises: a node's name (or `vmNN`
   * when missing or empty), its hostname (or the name), and slot k holding the
   * node's non-empty `net{k}` value.
   */
  lemma IndividualConfigMeaning(node: Node, idx: nat)
    requires node.ips.None? || node.ips.value.DictIps?
    ensures IndividualConfig(node, idx).Success?
    ensures var c := IndividualConfig(node, idx).value;
      && c.name != "" && c.hostname != ""
      && (node.name.Some? && node.name.value != "" ==> c.name == node.name.value)
      && ((node.name.None? || node.name.value == "") ==> c.name == DefaultName(idx))
      && (node.hostname.Some? && node.hostname.value != "" ==> c.hostname == node.hostname.value)
      && ((node.hostname.None? || node.hostname.value == "") ==> c.hostname == c.name)
      && |c.ips| == NicSlots
      && forall k :: 1 <= k <= NicSlots ==>
           (c.ips[k - 1].Some? <==> node.ips.Some? && Get(node.ips.value.entries, NicKey(k)).Some?
                                    && Get(node.ips.value.entries, NicKey(k)).value != "")
  {
  }

  /** A node list is derivable when every node's `ips` is missing or an object. */
  predicate NodesDerivable(nodes: seq<Node>)
  {
    forall i :: 0 <= i < |nodes| ==> nodes[i].ips.None? || nodes[i].ips.value.DictIps?
  }

  /** The `for nic_idx in range(1, 10)` loop over an `ips` object: `ip if ip else None` per key. */
  method ReadSlots(d: Dict) returns (slots: seq<Option<string>>)
    ensures slots == Slots(d)
  {
    slots := [];
    for nic := 1 to NicSlots + 1
      invariant |slots| == nic - 1
      invariant forall k :: 0 <= k < nic - 1 ==> slots[k] == Slot(d, k + 1)
    {
      var ip := Get(d, NicKey(nic));
      slots := slots + [if ip.Some? && ip.value != "" then ip else None];
    }
  }

  /** One round of the individual-mode loop: the `idx`-th node's configuration, or the error its `ips` raises. */
  method NodeConfig(node: Node, idx: nat) returns (r: Result<VmConfig, string>)
    ensures r == IndividualConfig(node, idx)
  {
    var name := if node.name.Some? && node.name.value != "" then node.name.value else DefaultName(idx);
    var hostname := if node.hostname.Some? && node.hostname.value != "" then node.hostname.value else name;
    var nodeIps: Dict := [];
    if node.ips.Some? {
      if !node.ips.value.DictIps? {
        return Failure(IpsNotObject);
      }
      nodeIps := node.ips.value.entries;
    }
    var ips := ReadSlots(nodeIps);
    r := Success(VmConfig(name, hostname, ips));
  }

  /** Individual mode: one configuration per node, in input order. */
  method IndividualConfigs(nodes: seq<Node>) returns (r: Result<seq<VmConfig>, string>)
    ensures r.Success? <==> NodesDerivable(nodes)
    ensures r.Failure? ==> r.error == IpsNotObject
    ensures r.Success? ==> (|r.value| == |nodes|
      && forall i :: 0 <= i < |nodes| ==> IndividualConfig(nodes[i], i + 1) == Success(r.value[i]))
  {
    var configs: seq<VmConfig> := [];
    var idx := 0;
    while idx < |nodes|
      invariant 0 <= idx <= |nodes|
      invariant |configs| == idx
      invariant forall i :: 0 <= i < idx ==> IndividualConfig(nodes[i], i + 1) == Success(configs[i])
    {
      var c := NodeConfig(nodes[idx], idx + 1);
      if c.Failure? {
        assert !NodesDerivable(nodes) by { assert !(nodes[idx].ips.None? || nodes[idx].ips.value.DictIps?); }
        return Failure(c.error);
      }
      ConfigsExtend(nodes, configs, c.value);
      configs := configs + [c.value];
      idx := idx + 1;
    }
    assert NodesDerivable(nodes) by {
      forall i | 0 <= i < |nodes|
        ensures nodes[i].ips.None? || nodes[i].ips.value.DictIps?
      {
        assert IndividualConfig(nodes[i], i + 1).Success?;
      }
    }
    r := Success(configs);
  }

  /** The loop's invariant carries over to one more node. */
  lemma ConfigsExtend(nodes: seq<Node>, configs: seq<VmConfig>, c: VmConfig)
    requires |configs| < |nodes|
    requires forall i :: 0 <= i < |configs| ==> IndividualConfig(nodes[i], i + 1) == Success(configs[i])
    requires IndividualConfig(nodes[|configs|], |configs| + 1) == Success(c)
    ensures forall i :: 0 <= i < |configs| + 1 ==> IndividualConfig(nodes[i], i + 1) == Success((configs + [c])[i])
  {
    forall i | 0 <= i < |configs| + 1
      ensures IndividualConfig(nodes[i], i + 1) == Success((configs + [c])[i])
    {
      if i < |configs| {
        assert (configs + [c])[i] == configs[i];
      }
    }
  }

  /** Bases are usable when every non-empty `net{k}` value is a dotted quad (the form validator guarantees it). */
  predicate BasesWellFormed(ipMap: Dict)
  {
    forall k :: 1 <= k <= NicSlots ==> Slot(ipMap, k).Some? ==> IsDottedQuad(Slot(ipMap, k).value)
  }

  /** A base advanced by `i`, or DHCP when there is no base. */
  function Advanced(base: Option<string>, i: nat): Option<string>
    requires base.Some? ==> IsDottedQuad(base.value)
  {
    if base.Some? then Some(IncrementedAddress(base.value, i)) else None
  }

  /** Slot `k` (0-based) of the `i`-th (0-based) bulk configuration: base k+1 advanced by i, or DHCP. */
  function BulkSlot(ipMap: Dict, i: nat, k: nat): Option<string>
    requires BasesWellFormed(ipMap) && k < NicSlots
  {
    Advanced(Slot(ipMap, k + 1), i)
  }

  /** The `i`-th (0-based) bulk configuration. */
  function BulkConfig(prefix: string, i: nat, ipMap: Dict): (c: VmConfig)
    requires BasesWellFormed(ipMap)
    ensures |c.ips| == NicSlots
  {
    var name := prefix + Pad2(i + 1);
    VmConfig(name, name, seq(NicSlots, k requires 0 <= k < NicSlots => BulkSlot(ipMap, i, k)))
  }

  /** Advances one base by `i` (`increment_ip`), keeping DHCP as DHCP. */
  method AdvanceBase(base: Option<string>, i: nat) returns (slot: Option<string>)
    requires base.Some? ==> IsDottedQuad(base.value)
    ensures slot == Advanced(base, i)
  {
    slot := None;
    if base.Some? {
      var addr := IncrementIp(base.value, i);
      slot := Some(addr);
    }
  }

  /** The loop over the nine NICs: every base advanced by `i`, DHCP kept as DHCP. */
  method AdvanceAll(bases: seq<Option<string>>, i: nat) returns (ips: seq<Option<string>>)
    requires forall k :: 0 <= k < |bases| ==> bases[k].Some? ==> IsDottedQuad(bases[k].value)
    ensures |ips| == |bases| && forall k :: 0 <= k < |bases| ==> ips[k] == Advanced(bases[k], i)
  {
    ips := [];
    for k := 0 to |bases|
      invariant |ips| == k
      invariant forall j :: 0 <= j < k ==> ips[j] == Advanced(bases[j], i)
    {
      var slot := AdvanceBase(bases[k], i);
      ips := ips + [slot];
    }
  }

  /** One round of the bulk loop: the `i`-th configuration, from the nine bases read once up front. */
  method BulkConfigAt(prefix: string, i: nat, ipMap: Dict, bases: seq<Option<string>>) returns (c: VmConfig)
    requires BasesWellFormed(ipMap) && bases == Slots(ipMap)
    ensures c == BulkConfig(prefix, i, ipMap)
  {
    var name := prefix + Pad2(i + 1);
    var ips := AdvanceAll(bases, i);
    assert ips == BulkConfig(prefix, i, ipMap).ips;
    c := VmConfig(name, name, ips);
  }

  /** Bulk mode: `count` configurations, the i-th with every set base advanced by i. */
  method BulkConfigs(prefix: string, count: int, ipMap: Dict) returns (configs: seq<VmConfig>)
    requires BasesWellFormed(ipMap)
    ensures |configs| == if count > 0 then count else 0
    ensures forall i :: 0 <= i < |configs| ==> configs[i] == BulkConfig(prefix, i, ipMap)
  {
    var bases := ReadSlots(ipMap);
    configs := [];
    var n := if count > 0 then count else 0;
    for i := 0 to n
      invariant |configs| == i
      invariant forall j :: 0 <= j < i ==> configs[j] == BulkConfig(prefix, j, ipMap)
    {
      var c := BulkConfigAt(prefix, i, ipMap, bases);
      configs := configs + [c];
    }
  }

  /** Bulk configurations are named `prefix` + two-digit 1-based index, with hostname = name, and no two share a name. */
  lemma BulkNames(prefix: string, ipMap: Dict, i: nat, j: nat)
    requires BasesWellFormed(ipMap)
    ensures BulkConfig(prefix, i, ipMap).name == prefix + Pad2(i + 1)
    ensures BulkConfig(prefix, i, ipMap).hostname == BulkConfig(prefix, i, ipMap).name
    ensures i != j ==> BulkConfig(prefix, i, ipMap).name != BulkConfig(prefix, j, ipMap).name
  {
    var ni, nj := BulkConfig(prefix, i, ipMap).name, BulkConfig(prefix, j, ipMap).name;
    assert ni[|prefix|..] == Pad2(i + 1);
    assert nj[|prefix|..] == Pad2(j + 1);
  }

  /**
   * Slot k of bulk item i is DHCP exactly when base k is unset; otherwise, for
   * offsets up to 256 without overflow past 2^32, it is a dotted quad exactly
   * i addresses past base k.
   */
  lemma BulkSlotMeaning(prefix: string, ipMap: Dict, i: nat, k: nat)
    requires BasesWellFormed(ipMap)
    requires 1 <= k <= NicSlots
    ensures BulkConfig(prefix, i, ipMap).ips[k - 1].None? <==> Slot(ipMap, k).None?
    ensures Slot(ipMap, k).Some? && i <= 256
            && Value(ParseOctets(Slot(ipMap, k).value)) + i < 0x1_0000_0000 ==>
              var a := BulkConfig(prefix, i, ipMap).ips[k - 1].value;
              IsDottedQuad(a) && Value(ParseOctets(a)) == Value(ParseOctets(Slot(ipMap, k).value)) + i
  {
    assert BulkConfig(prefix, i, ipMap).ips[k - 1] == Advanced(Slot(ipMap, k), i);
    AdvancedMeaning(Slot(ipMap, k), i);
  }

  /** `Advanced` keeps DHCP as DHCP and, without overflow, moves a base `i` addresses on. */
  lemma AdvancedMeaning(base: Option<string>, i: nat)
    requires base.Some? ==> IsDottedQuad(base.value)
    ensures Advanced(base, i).None? <==> base.None?
    ensures base.Some? && i <= 256 && Value(ParseOctets(base.value)) + i < 0x1_0000_0000 ==>
              IsDottedQuad(Advanced(base, i).value)
              && Value(ParseOctets(Advanced(base, i).value)) == Value(ParseOctets(base.value)) + i
  {
    if base.Some? && i <= 256 && Value(ParseOctets(base.value)) + i < 0x1_0000_0000 {
      IncrementedIsValid(base.value, i);
    }
  }

  /**
   * The work items `provision_vms` derives: a non-empty node list selects
   * individual mode (failing as a whole on the first node whose `ips` is not
   * an object), otherwise bulk mode.
   */
  function PlannedConfigs(nodes: seq<Node>, prefix: string, count: int, ipMap: Dict): (r: Result<seq<VmConfig>, string>)
    requires |nodes| == 0 ==> BasesWellFormed(ipMap)
    ensures |nodes| > 0 ==> (r.Success? <==> NodesDerivable(nodes))
    ensures r.Failure? ==> r.error == IpsNotObject
    ensures |nodes| > 0 && r.Success? ==> (|r.value| == |nodes|
      && forall i :: 0 <= i < |nodes| ==> IndividualConfig(nodes[i], i + 1) == Success(r.value[i]))
    ensures |nodes| == 0 ==> (r.Success? && |r.value| == (if count > 0 then count else 0)
      && forall i :: 0 <= i < |r.value| ==> r.value[i] == BulkConfig(prefix, i, ipMap))
  {
    if |nodes| > 0 then
      if NodesDerivable(nodes) then
        Success(seq(|nodes|, i requires 0 <= i < |nodes| => IndividualConfig(nodes[i], i + 1).value))
      else
        Failure(IpsNotObject)
    else
      Success(seq(if count > 0 then count else 0, i requires 0 <= i => BulkConfig(prefix, i, ipMap)))
  }

  /** The derivation step of `provision_vms`, running the loops of the selected mode. */
  method DeriveConfigs(nodes: seq<Node>, prefix: string, count: int, ipMap: Dict)
    returns (r: Result<seq<VmConfig>, string>)
    requires |nodes| == 0 ==> BasesWellFormed(ipMap)
    ensures r == PlannedConfigs(nodes, prefix, count, ipMap)
  {
    if |nodes| > 0 {
      r := IndividualConfigs(nodes);
      if r.Success? {
        assert r.value == PlannedConfigs(nodes, prefix, count, ipMap).value;
      }
    } else {
      var configs := BulkConfigs(prefix, count, ipMap);
      r := Success(configs);
      assert configs == PlannedConfigs(nodes, prefix, count, ipMap).value;
    }
  }

  /** `', '.join(non-empty values)`, or "DHCP" when there is none. */
  function JoinedOrDhcp(d: Dict): (s: string)
    ensures s == "DHCP" <==> NonEmptyValues(d) == [] || Join(", ", NonEmptyValues(d)) == "DHCP"
    ensures NonEmptyValues(d) != [] ==> s == Join(", ", NonEmptyValues(d))
  {
    var vs := NonEmptyValues(d);
    if vs == [] then "DHCP" else Join(", ", vs)
  }
}
