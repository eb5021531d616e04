/**
 * The demo provisioning function of the web front end (`mock_provision_vms`
 * in app.py): one success record per node or per bulk index, the status
 * lines of each VM, and the JSON line that hands each record to the page.
 */
module MockProvision {
  import opened Wrappers
  import opened Text
  import opened Dicts
  import opened WorkItems
  import opened Provision
  import opened DemoMode

  /** One returned record: name, hostname, status and the IP text shown for it. */
  datatype MockVm = MockVm(name: string, hostname: string, status: string, ips: string)

  /** The IP text of a record: "-" unless the IPs are a non-empty object. */
  function MockIpsText(ips: IpsValue): (s: string)
    ensures !(ips.DictIps? && ips.entries != []) ==> s == "-"
    ensures ips.DictIps? && ips.entries != [] ==>
      s == if NonEmptyValues(ips.entries) == [] then "DHCP" else Join(", ", NonEmptyValues(ips.entries))
  {
    if ips.DictIps? && ips.entries != [] then JoinedOrDhcp(ips.entries) else "-"
  }

  /** Wherever the record shows a value other than "-", it is what the status table shows for the same IPs. */
  lemma MockIpsAgreeWithTable(ips: IpsValue)
    requires MockIpsText(ips) != "-"
    ensures MockIpsText(ips) == ProgressTable.IpsDisplay(ips)
  {
  }

  /** The record of the `i`-th (1-based) node. */
  function IndividualMockVm(prefix: string, node: Node, i: nat): MockVm
  {
    var name := if node.name.Some? then node.name.value else prefix + Pad2(i);
    var hostname := if node.hostname.Some? then node.hostname.value else name;
    MockVm(name, hostname, "success", MockIpsText(if node.ips.Some? then node.ips.value else DictIps([])))
  }

  /** The record of the `i`-th (1-based) bulk VM. */
  function BulkMockVm(prefix: string, hostnamePrefix: Option<string>, ipMap: Dict, i: nat): MockVm
  {
    var name := prefix + Pad2(i);
    MockVm(name, if Truthy(hostnamePrefix) then hostnamePrefix.value + Pad2(i) else name, "success", MockIpsText(DictIps(ipMap)))
  }

  /** The `i`-th (1-based) record of the run. */
  function MockVmAt(nodes: seq<Node>, prefix: string, hostnamePrefix: Option<string>, ipMap: Dict, i: nat): (vm: MockVm)
    requires |nodes| > 0 ==> 1 <= i <= |nodes|
    ensures vm.status == "success"
  {
    if |nodes| > 0 then IndividualMockVm(prefix, nodes[i - 1], i) else BulkMockVm(prefix, hostnamePrefix, ipMap, i)
  }

  /** The first `n` records of the run. */
  function MockVms(nodes: seq<Node>, prefix: string, hostnamePrefix: Option<string>, ipMap: Dict, n: nat): (vms: seq<MockVm>)
    requires |nodes| > 0 ==> n <= |nodes|
    ensures |vms| == n
  {
    if n == 0 then []
    else MockVms(nodes, prefix, hostnamePrefix, ipMap, n - 1) + [MockVmAt(nodes, prefix, hostnamePrefix, ipMap, n)]
  }

  /** How many records the run returns: one per node, else one per index 1..count. */
  function MockCount(nodes: seq<Node>, count: int): (n: nat)
  {
    if |nodes| > 0 then |nodes| else if count > 0 then count else 0
  }

  /** The `i`-th record is the one built from the `i`-th node or index, and every record is a success. */
  lemma {:induction false} MockVmsAt(nodes: seq<Node>, prefix: string, hostnamePrefix: Option<string>, ipMap: Dict, n: nat, i: nat)
    requires |nodes| > 0 ==> n <= |nodes|
    requires i < n
    ensures MockVms(nodes, prefix, hostnamePrefix, ipMap, n)[i] == MockVmAt(nodes, prefix, hostnamePrefix, ipMap, i + 1)
    ensures MockVms(nodes, prefix, hostnamePrefix, ipMap, n)[i].status == "success"
  {
    if i < n - 1 {
      MockVmsAt(nodes, prefix, hostnamePrefix, ipMap, n - 1, i);
    }
  }

  /**
   * A node's record takes the node's name, or `prefix` plus the two-digit
   * position when it has none, and the node's hostname, or the name when it
   * has none.
   */
  lemma IndividualDefaults(prefix: string, node: Node, i: nat)
    ensures node.name.None? ==> IndividualMockVm(prefix, node, i).name == prefix + Pad2(i)
    ensures node.name.Some? ==> IndividualMockVm(prefix, node, i).name == node.name.value
    ensures node.hostname.None? ==> IndividualMockVm(prefix, node, i).hostname == IndividualMockVm(prefix, node, i).name
    ensures node.hostname.Some? ==> IndividualMockVm(prefix, node, i).hostname == node.hostname.value
  {
  }

  /**
   * Bulk records are named `prefix` plus two digits, no two alike, with the
   * hostname `hostname_prefix` plus the same digits when that is set, else the
   * name.
   */
  lemma BulkMockNames(prefix: string, hostnamePrefix: Option<string>, ipMap: Dict, i: nat, j: nat)
    requires i != j
    ensures BulkMockVm(prefix, hostnamePrefix, ipMap, i).name == prefix + Pad2(i)
    ensures BulkMockVm(prefix, hostnamePrefix, ipMap, i).name != BulkMockVm(prefix, hostnamePrefix, ipMap, j).name
    ensures BulkMockVm(prefix, hostnamePrefix, ipMap, i).hostname ==
      if Truthy(hostnamePrefix) then hostnamePrefix.value + Pad2(i) else prefix + Pad2(i)
  {
    var ni, nj := prefix + Pad2(i), prefix + Pad2(j);
    assert ni[|prefix|..] == Pad2(i);
    assert nj[|prefix|..] == Pad2(j);
  }

  /** Lower-case hex digit. */
  function HexDigit(d: nat): char
    requires d < 16
  {
    "0123456789abcdef"[d]
  }

  /** Value of a hex digit, either case. */
  function HexValue(c: char): Option<nat>
  {
    if '0' <= c <= '9' then Some(c as int - '0' as int)
    else if 'a' <= c <= 'f' then Some(c as int - 'a' as int + 10)
    else if 'A' <= c <= 'F' then Some(c as int - 'A' as int + 10)
    else None
  }

  /** How `json.dumps(..., ensure_ascii=False)` writes one character inside a string. */
  function EscapeChar(c: char): string
  {
    if c == '"' then "\\\""
    else if c == '\\' then "\\\\"
    else if c == '\n' then "\\n"
    else if c == '\r' then "\\r"
    else if c == '\t' then "\\t"
    else if c as int == 8 then "\\b"
    else if c as int == 12 then "\\f"
    else if c as int < 0x20 then "\\u00" + [HexDigit(c as int / 16), HexDigit(c as int % 16)]
    else [c]
  }

  function JsonEscape(s: string): string
  {
    if s == [] then [] else EscapeChar(s[0]) + JsonEscape(s[1..])
  }

  /** A string as a JSON string literal. */
  function JsonQuote(s: string): string
  {
    "\"" + JsonEscape(s) + "\""
  }

  /** `json.dumps(vm_data, ensure_ascii=False)`: the keys in insertion order, default separators. */
  function JsonRecord(vm: MockVm): string
  {
    "{\"name\": " + JsonQuote(vm.name) + ", \"hostname\": " + JsonQuote(vm.hostname)
      + ", \"status\": " + JsonQuote(vm.status) + ", \"ips\": " + JsonQuote(vm.ips) + "}"
  }

  /** `f"VM{len(vms)}: {vm_json}"`. */
  function JsonLine(k: nat, vm: MockVm): string
  {
    "VM" + Show(k) + ": " + JsonRecord(vm)
  }

  function Prepend(c: char, r: Option<string>): Option<string>
  {
    if r.Some? then Some([c] + r.value) else None
  }

  /** The character a two-character escape stands for. */
  function ShortEscape(e: char): Option<char>
  {
    if e == '"' then Some('"')
    else if e == '\\' then Some('\\')
    else if e == '/' then Some('/')
    else if e == 'b' then Some(8 as char)
    else if e == 'f' then Some(12 as char)
    else if e == 'n' then Some('\n')
    else if e == 'r' then Some('\r')
    else if e == 't' then Some('\t')
    else None
  }

  /**
   * The body of a JSON string literal read back by a reader such as the
   * page's: the short escapes and `\u00XX`; a bare quote or control
   * character is an error.
   */
  function JsonUnescape(t: string): Option<string>
    decreases |t|
  {
    if t == [] then Some([])
    else if t[0] == '\\' then
      if |t| >= 2 && ShortEscape(t[1]).Some? then Prepend(ShortEscape(t[1]).value, JsonUnescape(t[2..]))
      else if |t| >= 6 && t[1] == 'u' && t[2] == '0' && t[3] == '0' && HexValue(t[4]).Some? && HexValue(t[5]).Some? then
        Prepend((16 * HexValue(t[4]).value + HexValue(t[5]).value) as char, JsonUnescape(t[6..]))
      else None
    else if t[0] == '"' || t[0] as int < 0x20 then None
    else Prepend(t[0], JsonUnescape(t[1..]))
  }

  lemma HexRoundTrip(d: nat)
    requires d < 16
    ensures HexValue(HexDigit(d)) == Some(d)
  {
  }

  /** A character written as a two-character escape reads back as itself. */
  lemma UnescapeShort(c: char, e: char, rest: string)
    requires EscapeChar(c) == ['\\', e] && ShortEscape(e) == Some(c)
    ensures JsonUnescape(EscapeChar(c) + rest) == Prepend(c, JsonUnescape(rest))
  {
    var t := EscapeChar(c) + rest;
    assert t[0] == '\\' && t[1] == e && t[2..] == rest;
  }

  /** A control character written as `\u00XX` reads back as itself. */
  lemma UnescapeHex(c: char, rest: string)
    requires c as int < 0x20 && c != '\n' && c != '\r' && c != '\t' && c as int != 8 && c as int != 12
    ensures JsonUnescape(EscapeChar(c) + rest) == Prepend(c, JsonUnescape(rest))
  {
    var hi, lo := c as int / 16, c as int % 16;
    HexRoundTrip(hi);
    HexRoundTrip(lo);
    var t := EscapeChar(c) + rest;
    assert EscapeChar(c) == "\\u00" + [HexDigit(hi), HexDigit(lo)];
    assert t[0] == '\\' && t[1] == 'u' && t[2] == '0' && t[3] == '0' && t[4] == HexDigit(hi) && t[5] == HexDigit(lo);
    assert t[6..] == rest;
    assert (16 * hi + lo) as char == c;
  }

  /** A character written as itself reads back as itself. */
  lemma UnescapePlain(c: char, rest: string)
    requires c as int >= 0x20 && c != '"' && c != '\\'
    ensures JsonUnescape(EscapeChar(c) + rest) == Prepend(c, JsonUnescape(rest))
  {
    var t := EscapeChar(c) + rest;
    assert t[0] == c && t[1..] == rest;
  }

  /** One escaped character reads back as itself. */
  lemma UnescapeChar(c: char, rest: string)
    ensures JsonUnescape(EscapeChar(c) + rest) == Prepend(c, JsonUnescape(rest))
  {
    if c == '"' {
      UnescapeShort(c, '"', rest);
    } else if c == '\\' {
      UnescapeShort(c, '\\', rest);
    } else if c == '\n' {
      UnescapeShort(c, 'n', rest);
    } else if c == '\r' {
      UnescapeShort(c, 'r', rest);
    } else if c == '\t' {
      UnescapeShort(c, 't', rest);
    } else if c as int == 8 {
      UnescapeShort(c, 'b', rest);
    } else if c as int == 12 {
      UnescapeShort(c, 'f', rest);
    } else if c as int < 0x20 {
      UnescapeHex(c, rest);
    } else {
      UnescapePlain(c, rest);
    }
  }

  /** Escaping a string and reading it back gives the string: the page sees the record's text unchanged. */
  lemma {:induction false} JsonRoundTrip(s: string)
    ensures JsonUnescape(JsonEscape(s)) == Some(s)
  {
    if s != [] {
      JsonRoundTrip(s[1..]);
      UnescapeChar(s[0], JsonEscape(s[1..]));
      assert [s[0]] + s[1..] == s;
    }
  }

  /** The lines one VM contributes: its status lines, then its JSON line. */
  function Block(idx: nat, total: nat, vm: MockVm): (lines: seq<string>)
    ensures |lines| == 9
  {
    VmLines(idx, total, vm.name) + [JsonLine(idx, vm)]
  }

  /** Clone progress 25, 50, 75 and 100 in that order, and the JSON line numbered `idx` last. */
  lemma BlockLayout(idx: nat, total: nat, vm: MockVm)
    ensures Block(idx, total, vm)[0] == StartLine(idx, total, vm.name)
    ensures Block(idx, total, vm)[1..5] == [ProgressLine(25, vm.name), ProgressLine(50, vm.name), ProgressLine(75, vm.name), ProgressLine(100, vm.name)]
    ensures Block(idx, total, vm)[7] == ReadyLine(vm.name)
    ensures Block(idx, total, vm)[8] == JsonLine(idx, vm)
  {
    var v := VmLines(idx, total, vm.name);
    assert Block(idx, total, vm) == v + [JsonLine(idx, vm)];
    assert (v + [JsonLine(idx, vm)])[1..5] == v[1..5];
  }

  /** The lines the run prints that carry data, VM by VM. */
  function MockLog(vms: seq<MockVm>, total: nat): (log: seq<string>)
    ensures |log| == 9 * |vms|
  {
    if vms == [] then []
    else MockLog(vms[..|vms| - 1], total) + Block(|vms|, total, vms[|vms| - 1])
  }

  /** The `j`-th VM's block, whose layout `BlockLayout` gives, is lines 9j to 9j+8 of the log. */
  lemma {:induction false} MockLogLayout(vms: seq<MockVm>, total: nat, j: nat)
    requires j < |vms|
    ensures MockLog(vms, total)[9 * j..9 * j + 9] == Block(j + 1, total, vms[j])
  {
    var init := vms[..|vms| - 1];
    var before := MockLog(init, total);
    var last := Block(|vms|, total, vms[|vms| - 1]);
    assert MockLog(vms, total) == before + last;
    if j < |init| {
      MockLogLayout(init, total, j);
      assert init[j] == vms[j];
      SliceOfAppend(before, last, 9 * j, 9 * j + 9);
    } else {
      SliceOfAppend(before, last, |before|, |before| + |last|);
    }
  }

  /** A slice of `a + b` lying within `a` is a slice of `a`; the slice just past `a` is `b`. */
  lemma SliceOfAppend<T>(a: seq<T>, b: seq<T>, lo: nat, hi: nat)
    requires lo <= hi <= |a| + |b|
    ensures hi <= |a| ==> (a + b)[lo..hi] == a[lo..hi]
    ensures lo == |a| && hi == |a| + |b| ==> (a + b)[lo..hi] == b
  {
  }

  /** The message of the run. */
  function MockMessage(n: nat): string
  {
    "DEMO: Provisioned " + Show(n) + " VMs successfully!"
  }

  /** The line that closes a successful run. */
  function CompletionLine(message: string): string
  {
    "\n🎉 " + message
  }

  /** What the run returns when it gets to the end. */
  datatype MockResult = MockResult(vms: seq<MockVm>, message: string)

  /** The lines of the VM whose IPs make `.items()` raise: up to its "cloned" line. */
  function FailedBlock(idx: nat, total: nat, name: string): (lines: seq<string>)
    ensures |lines| == 6 && lines[0] == StartLine(idx, total, name) && lines[5] == ClonedLine(name)
  {
    VmLines(idx, total, name)[..6]
  }

  /** One round of either loop: the record, its status lines and its JSON line. */
  method EmitVm(vms: seq<MockVm>, log: seq<string>, vm: MockVm, total: nat) returns (vms': seq<MockVm>, log': seq<string>)
    requires log == MockLog(vms, total)
    ensures vms' == vms + [vm] && log' == MockLog(vms', total)
  {
    vms' := vms + [vm];
    assert vms'[..|vms'| - 1] == vms;
    log' := log + Block(|vms'|, total, vm);
  }

  /** The individual-mode loop: the records and blocks of the nodes, up to the first whose `ips` makes `.items()` raise. */
  method IndividualRun(prefix: string, ipMap: Dict, nodes: seq<Node>, hostnamePrefix: Option<string>)
    returns (vms: seq<MockVm>, raised: bool, log: seq<string>)
    requires |nodes| > 0
    ensures var k := FirstItemsRaise(nodes, 0);
      && (raised <==> k < |nodes|)
      && (!raised ==> vms == MockVms(nodes, prefix, hostnamePrefix, ipMap, |nodes|) && log == MockLog(vms, |nodes|))
      && (raised ==> log == MockLog(MockVms(nodes, prefix, hostnamePrefix, ipMap, k), |nodes|)
                            + FailedBlock(k + 1, |nodes|, IndividualMockVm(prefix, nodes[k], k + 1).name))
  {
    vms, log := [], [];
    for i := 0 to |nodes|
      invariant vms == MockVms(nodes, prefix, hostnamePrefix, ipMap, i) && log == MockLog(vms, |nodes|)
      invariant i <= FirstItemsRaise(nodes, 0)
    {
      var node := nodes[i];
      var name := if node.name.Some? then node.name.value else prefix + Pad2(i + 1);
      if ItemsRaise(node.ips) {
        FirstItemsRaiseHere(nodes, i);
        assert name == IndividualMockVm(prefix, nodes[i], i + 1).name;
        log := log + FailedBlock(i + 1, |nodes|, name);
        return vms, true, log;
      }
      FirstItemsRaisePast(nodes, i);
      var hostname := if node.hostname.Some? then node.hostname.value else name;
      var ips := if node.ips.Some? then node.ips.value else DictIps([]);
      vms, log := EmitVm(vms, log, MockVm(name, hostname, "success", MockIpsText(ips)), |nodes|);
    }
    raised := false;
  }

  /** A raising node at `i`, with none before it, is the first. */
  lemma FirstItemsRaiseHere(nodes: seq<Node>, i: nat)
    requires i < |nodes| && i <= FirstItemsRaise(nodes, 0) && ItemsRaise(nodes[i].ips)
    ensures FirstItemsRaise(nodes, 0) == i
  {
  }

  /** A node at `i` that does not raise, with none raising before it, moves the first raising position past `i`. */
  lemma FirstItemsRaisePast(nodes: seq<Node>, i: nat)
    requires i < |nodes| && i <= FirstItemsRaise(nodes, 0) && !ItemsRaise(nodes[i].ips)
    ensures i + 1 <= FirstItemsRaise(nodes, 0)
  {
  }

  /** The bulk-mode loop: one record and block per index 1..count. */
  method BulkRun(prefix: string, count: nat, ipMap: Dict, hostnamePrefix: Option<string>)
    returns (vms: seq<MockVm>, log: seq<string>)
    ensures vms == MockVms([], prefix, hostnamePrefix, ipMap, count) && log == MockLog(vms, count)
  {
    vms, log := [], [];
    for i := 1 to count + 1
      invariant vms == MockVms([], prefix, hostnamePrefix, ipMap, i - 1) && log == MockLog(vms, count)
    {
      var name := prefix + Pad2(i);
      var hostname := if Truthy(hostnamePrefix) then hostnamePrefix.value + Pad2(i) else name;
      vms, log := EmitVm(vms, log, MockVm(name, hostname, "success", MockIpsText(DictIps(ipMap))), count);
    }
  }

  /**
   * `mock_provision_vms`: one success record per node (individual mode) or
   * per index 1..count (bulk mode), in order, with the status and JSON lines
   * of each, and the message counting the records. In individual mode a node
   * whose `ips` is truthy but not an object stops the run with an error once
   * its "cloned" line is out, the records before it having been logged.
   */
  method MockProvisionVms(prefix: string, count: int, ipMap: Dict, nodes: seq<Node>, hostnamePrefix: Option<string>)
    returns (r: Result<MockResult, string>, log: seq<string>)
    ensures var k := FirstItemsRaise(nodes, 0);
      && (r.Success? <==> |nodes| == 0 || k == |nodes|)
      && (r.Success? ==>
            && r.value.vms == MockVms(nodes, prefix, hostnamePrefix, ipMap, MockCount(nodes, count))
            && r.value.message == MockMessage(|r.value.vms|)
            && log == MockLog(r.value.vms, |r.value.vms|) + [CompletionLine(r.value.message)])
      && (r.Failure? ==>
            && r.error == IpsHasNoItems
            && log == MockLog(MockVms(nodes, prefix, hostnamePrefix, ipMap, k), |nodes|)
                      + FailedBlock(k + 1, |nodes|, IndividualMockVm(prefix, nodes[k], k + 1).name))
  {
    var vms: seq<MockVm>;
    if |nodes| > 0 {
      var raised;
      vms, raised, log := IndividualRun(prefix, ipMap, nodes, hostnamePrefix);
      if raised {
        return Failure(IpsHasNoItems), log;
      }
    } else {
      vms, log := BulkRun(prefix, MockCount(nodes, count), ipMap, hostnamePrefix);
    }
    var message := MockMessage(|vms|);
    r := Success(MockResult(vms, message));
    log := log + [CompletionLine(message)];
  }
}
