/**
 * The demo-mode provisioning run (`provision_vms_demo_mode` in
 * vm_provision.py): the VM list it plans, the status lines it prints for each
 * VM, and the records it returns once every VM is reported ready.
 */
module DemoMode {
  import opened Wrappers
  import opened Text
  import opened Dicts
  import opened WorkItems
  import opened Provision
  import opened LogParser
  import opened ProgressTable

  /** `hostname_prefix` is set and non-empty. */
  predicate Truthy(x: Option<string>) { x.Some? && x.value != "" }

  /** `str(n)` for a possibly negative count. */
  function IntText(n: int): string
  {
    if n < 0 then "-" + Show(-n) else Show(n)
  }

  /** The addresses made up for the `i`-th (1-based) VM when no IP map was given. */
  function FallbackIps(centos8: bool, i: nat): (d: Dict)
  {
    var host := Show(100 + i);
    if centos8 then
      [("net1", "192.168.1." + host), ("net2", "192.168.2." + host), ("net3", "192.168.3." + host)]
    else
      [("net1", "192.168.1." + host), ("net2", "192.168.2." + host)]
  }

  /** `template.lower() == 'centos-8-template'`. */
  predicate IsCentos8(template: string) { Lower(template) == "centos-8-template" }

  /** The `i`-th (1-based) VM dictionary of bulk mode; `centos8` is the template test. */
  function BulkDemoVm(prefix: string, hostnamePrefix: Option<string>, ipMap: Dict, centos8: bool, i: nat): Node
  {
    var name := prefix + Pad2(i);
    var hostname := if Truthy(hostnamePrefix) then hostnamePrefix.value + Pad2(i) else name + ".local";
    Node(Some(name), Some(hostname), Some(DictIps(if ipMap != [] then ipMap else FallbackIps(centos8, i))))
  }

  /** The first `n` bulk VM dictionaries. */
  function BulkDemoVms(prefix: string, hostnamePrefix: Option<string>, ipMap: Dict, centos8: bool, n: nat): (vms: seq<Node>)
    ensures |vms| == n
  {
    Tabulate(i => BulkDemoVm(prefix, hostnamePrefix, ipMap, centos8, i), n)
  }

  /** `[f(1), ..., f(n)]`, built one element at a time. */
  function Tabulate<T>(f: nat -> T, n: nat): (s: seq<T>)
    ensures |s| == n
  {
    if n == 0 then [] else Tabulate(f, n - 1) + [f(n)]
  }

  /** The element at index `i` of `Tabulate(f, n)` is `f(i + 1)`. */
  lemma {:induction false} TabulateAt<T>(f: nat -> T, n: nat, i: nat)
    requires i < n
    ensures Tabulate(f, n)[i] == f(i + 1)
  {
    if i < n - 1 {
      TabulateAt(f, n - 1, i);
    }
  }

  /** `vms_to_create`: the nodes themselves when there are any, else `count` bulk VMs. */
  function DemoVms(nodes: seq<Node>, prefix: string, count: int, hostnamePrefix: Option<string>, ipMap: Dict, template: string): seq<Node>
  {
    if |nodes| > 0 then nodes
    else BulkDemoVms(prefix, hostnamePrefix, ipMap, IsCentos8(template), if count > 0 then count else 0)
  }

  /** `total_vms`: the number of nodes, or `count` as given. */
  function DemoTotal(nodes: seq<Node>, count: int): int
  {
    if |nodes| > 0 then |nodes| else count
  }

  /**
   * The `i`-th bulk VM is named `prefix` plus two digits, no two alike; its
   * hostname follows `hostname_prefix` when set, else it is the name plus
   * ".local"; its IPs are the IP map as given, or made-up addresses on two
   * NICs (three for the centos-8 template) ending in 100 + i.
   */
  lemma BulkDemoVmMeaning(prefix: string, hostnamePrefix: Option<string>, ipMap: Dict, centos8: bool, i: nat, j: nat)
    requires i != j
    ensures var vm := BulkDemoVm(prefix, hostnamePrefix, ipMap, centos8, i);
      && vm.name == Some(prefix + Pad2(i))
      && vm.name != BulkDemoVm(prefix, hostnamePrefix, ipMap, centos8, j).name
      && vm.hostname == Some(if Truthy(hostnamePrefix) then hostnamePrefix.value + Pad2(i) else prefix + Pad2(i) + ".local")
      && (ipMap != [] ==> vm.ips == Some(DictIps(ipMap)))
      && (ipMap == [] ==>
            && vm.ips.Some? && vm.ips.value.DictIps?
            && |vm.ips.value.entries| == (if centos8 then 3 else 2)
            && Get(vm.ips.value.entries, "net1") == Some("192.168.1." + Show(100 + i)))
  {
    var ni, nj := prefix + Pad2(i), prefix + Pad2(j);
    assert ni[|prefix|..] == Pad2(i);
    assert nj[|prefix|..] == Pad2(j);
  }

  /** Bulk mode plans `count` VMs, none for a count below one. */
  lemma BulkPlanSize(prefix: string, count: int, hostnamePrefix: Option<string>, ipMap: Dict, template: string, i: nat)
    requires i < |DemoVms([], prefix, count, hostnamePrefix, ipMap, template)|
    ensures |DemoVms([], prefix, count, hostnamePrefix, ipMap, template)| == if count > 0 then count else 0
    ensures DemoVms([], prefix, count, hostnamePrefix, ipMap, template)[i] == BulkDemoVm(prefix, hostnamePrefix, ipMap, IsCentos8(template), i + 1)
  {
    TabulateAt(i => BulkDemoVm(prefix, hostnamePrefix, ipMap, IsCentos8(template), i), if count > 0 then count else 0, i);
  }

  /** The bulk loop of the plan: one dictionary per index 1..n. */
  method PlanBulk(prefix: string, n: nat, hostnamePrefix: Option<string>, ipMap: Dict, centos8: bool) returns (vms: seq<Node>)
    ensures vms == BulkDemoVms(prefix, hostnamePrefix, ipMap, centos8, n)
  {
    vms := [];
    for i := 0 to n
      invariant vms == BulkDemoVms(prefix, hostnamePrefix, ipMap, centos8, i)
    {
      vms := vms + [BulkDemoVm(prefix, hostnamePrefix, ipMap, centos8, i + 1)];
    }
  }

  /** The plan of the run: the VMs to create and the total it reports. */
  method PlanDemo(nodes: seq<Node>, prefix: string, count: int, hostnamePrefix: Option<string>, ipMap: Dict, template: string)
    returns (vms: seq<Node>, total: int)
    ensures vms == DemoVms(nodes, prefix, count, hostnamePrefix, ipMap, template)
    ensures total == DemoTotal(nodes, count)
    ensures |vms| > 0 ==> total == |vms|
  {
    if |nodes| > 0 {
      return nodes, |nodes|;
    }
    vms := PlanBulk(prefix, if count > 0 then count else 0, hostnamePrefix, ipMap, IsCentos8(template));
    total := count;
  }

  /** The status lines printed for the `idx`-th of `total` VMs, in order; the other lines are decoration. */
  function VmLines(idx: nat, total: nat, name: string): (lines: seq<string>)
  {
    [StartLine(idx, total, name), ProgressLine(25, name), ProgressLine(50, name), ProgressLine(75, name),
     ProgressLine(100, name), ClonedLine(name), PoweredLine(name), ReadyLine(name)]
  }

  predicate AllNamed(vms: seq<Node>) { forall i :: 0 <= i < |vms| ==> vms[i].name.Some? }

  /** The status lines of the whole run, VM by VM. */
  function DemoLog(vms: seq<Node>, total: nat): seq<string>
    requires AllNamed(vms)
  {
    if vms == [] then []
    else DemoLog(vms[..|vms| - 1], total) + VmLines(|vms|, total, vms[|vms| - 1].name.value)
  }

  lemma DemoLogSnoc(vms: seq<Node>, i: nat, total: nat)
    requires i < |vms| && AllNamed(vms[..i]) && vms[i].name.Some?
    ensures AllNamed(vms[..i + 1])
    ensures DemoLog(vms[..i + 1], total) == DemoLog(vms[..i], total) + VmLines(i + 1, total, vms[i].name.value)
  {
    assert vms[..i + 1][..i] == vms[..i];
  }

  /** The final rewrite of `ips`: an object becomes its display text, a missing value "DHCP", anything else stays. */
  function ShapedIps(ips: Option<IpsValue>): (r: IpsValue)
    ensures !r.DictIps?
    ensures ips.Some? && !ips.value.DictIps? ==> r == ips.value
    ensures ips.None? ==> r == TextIps("DHCP")
    ensures ips.Some? && ips.value.DictIps? ==> r == TextIps(JoinedOrDhcp(ips.value.entries))
  {
    match ips
    case None => TextIps("DHCP")
    case Some(DictIps(d)) => TextIps(JoinedOrDhcp(d))
    case Some(v) => v
  }

  /** One returned VM record, after the final rewrite. */
  datatype DemoRecord = DemoRecord(name: string, hostname: Option<string>, ips: IpsValue, status: string, progress: int)

  function Shaped(name: string, vm: Node): DemoRecord
  {
    DemoRecord(name, vm.hostname, ShapedIps(vm.ips), "success", 100)
  }

  /** Where the work item's IPs were an object or missing, the returned text is what the status table shows for it. */
  lemma ShapedMatchesTable(c: Node)
    requires c.ips.None? || c.ips.value.DictIps?
    ensures ShapedIps(c.ips) == TextIps(InitialEntry(c).ipsDisplay)
  {
  }

  datatype DemoResult = DemoResult(message: string, vms: seq<DemoRecord>)

  function DemoMessage(total: int, template: string, dcName: string, clusterName: string): string
  {
    "Successfully provisioned " + IntText(total) + " VMs using template " + template + " in " + dcName + "/" + clusterName
  }

  /** A VM the per-VM loop cannot get through: it has no name (`KeyError`), or its `ips` is truthy but not an object. */
  predicate DemoStops(vm: Node)
  {
    vm.name.None? || ItemsRaise(vm.ips)
  }

  /** The position of the first VM from `i` on that stops the loop, or `|vms|` when none does. */
  function FirstDemoStop(vms: seq<Node>, i: nat): (k: nat)
    requires i <= |vms|
    ensures i <= k <= |vms| && (k < |vms| ==> DemoStops(vms[k]))
    ensures forall j :: i <= j < k ==> !DemoStops(vms[j])
    decreases |vms| - i
  {
    if i == |vms| || DemoStops(vms[i]) then i else FirstDemoStop(vms, i + 1)
  }

  /** The VMs before the first stop all have names. */
  lemma NamedBeforeStop(vms: seq<Node>)
    ensures AllNamed(vms[..FirstDemoStop(vms, 0)])
  {
    var k := FirstDemoStop(vms, 0);
    forall i | 0 <= i < k
      ensures vms[..k][i].name.Some?
    {
      assert !DemoStops(vms[i]);
    }
  }

  /** What the loop prints for the VM it stops at: nothing without a name, its start line otherwise. */
  function StopLines(idx: nat, total: nat, vm: Node): seq<string>
  {
    if vm.name.Some? then [StartLine(idx, total, vm.name.value)] else []
  }

  /** The error the loop stops with. */
  function StopError(vm: Node): string
  {
    if vm.name.None? then "'name'" else IpsHasNoItems
  }

  /**
   * The per-VM loop: the status lines of each VM in turn, up to the first
   * one without a name (stopped before any line of its own) or with a truthy
   * `ips` that is not an object (stopped after its start line).
   */
  method PrintStatusLines(vms: seq<Node>, total: nat) returns (stop: Option<nat>, log: seq<string>)
    ensures var k := FirstDemoStop(vms, 0);
      && AllNamed(vms[..k])
      && (stop.None? <==> k == |vms|)
      && (stop.None? ==> AllNamed(vms) && log == DemoLog(vms, total))
      && (stop.Some? ==> stop.value == k && log == DemoLog(vms[..k], total) + StopLines(k + 1, total, vms[k]))
  {
    NamedBeforeStop(vms);
    log := [];
    var i := 0;
    while i < |vms| && !DemoStops(vms[i])
      invariant i <= FirstDemoStop(vms, 0)
      invariant AllNamed(vms[..i]) && log == DemoLog(vms[..i], total)
    {
      FirstDemoStopPast(vms, i);
      DemoLogSnoc(vms, i, total);
      log := log + VmLines(i + 1, total, vms[i].name.value);
      i := i + 1;
    }
    if i < |vms| {
      FirstDemoStopHere(vms, i);
      log := log + StopLines(i + 1, total, vms[i]);
      stop := Some(i);
    } else {
      assert vms[..i] == vms;
      stop := None;
    }
  }

  /** A stopping VM at `i`, with none before it, is the first. */
  lemma FirstDemoStopHere(vms: seq<Node>, i: nat)
    requires i < |vms| && i <= FirstDemoStop(vms, 0) && DemoStops(vms[i])
    ensures FirstDemoStop(vms, 0) == i
  {
  }

  /** A VM at `i` that goes through, with none stopping before it, moves the first stop past `i`. */
  lemma FirstDemoStopPast(vms: seq<Node>, i: nat)
    requires i < |vms| && i <= FirstDemoStop(vms, 0) && !DemoStops(vms[i])
    ensures i + 1 <= FirstDemoStop(vms, 0)
  {
  }

  /** The final loop: every VM marked a success at 100%, its IPs rewritten. */
  method ShapeRecords(vms: seq<Node>) returns (records: seq<DemoRecord>)
    requires AllNamed(vms)
    ensures |records| == |vms|
    ensures forall i :: 0 <= i < |vms| ==> records[i] == Shaped(vms[i].name.value, vms[i])
  {
    records := [];
    for i := 0 to |vms|
      invariant |records| == i
      invariant forall j :: 0 <= j < i ==> records[j] == Shaped(vms[j].name.value, vms[j])
    {
      records := records + [Shaped(vms[i].name.value, vms[i])];
    }
  }

  /** The summary printed once every VM is through. */
  function DemoSummary(total: int): seq<string>
  {
    [ "🎉 PROVISIONING COMPLETED SUCCESSFULLY!",
      "✅ All virtual machines are ready for use!",
      "📊 Total VMs provisioned: " + IntText(total),
      "🎭 DEMO MODE: This was a simulation using your actual configuration" ]
  }

  /**
   * `provision_vms_demo_mode`: prints the status lines of every planned VM
   * and the summary, and returns them all as successes at 100%, their IPs
   * rewritten for display. A VM without a name stops the run with a
   * `KeyError`, and one whose `ips` is truthy but not an object with an
   * `AttributeError` after its start line; the lines of the VMs before it
   * are printed.
   */
  method ProvisionVmsDemoMode(template: string, prefix: string, count: int, dcName: string, clusterName: string,
                              ipMap: Dict, nodes: seq<Node>, hostnamePrefix: Option<string>)
    returns (r: Result<DemoResult, string>, log: seq<string>)
    ensures var vms := DemoVms(nodes, prefix, count, hostnamePrefix, ipMap, template);
      var k := FirstDemoStop(vms, 0);
      && AllNamed(vms[..k])
      && (r.Success? <==> k == |vms|)
      && (r.Success? ==>
            && AllNamed(vms)
            && r.value.message == DemoMessage(DemoTotal(nodes, count), template, dcName, clusterName)
            && |r.value.vms| == |vms|
            && (forall i :: 0 <= i < |vms| ==> r.value.vms[i] == Shaped(vms[i].name.value, vms[i]))
            && log == DemoLog(vms, |vms|) + DemoSummary(DemoTotal(nodes, count)))
      && (r.Failure? ==>
            && r.error == StopError(vms[k])
            && log == DemoLog(vms[..k], |vms|) + StopLines(k + 1, |vms|, vms[k]))
  {
    var vms, total := PlanDemo(nodes, prefix, count, hostnamePrefix, ipMap, template);
    var stop;
    stop, log := PrintStatusLines(vms, |vms|);
    if stop.Some? {
      return Failure(StopError(vms[stop.value])), log;
    }
    log := log + DemoSummary(total);
    var records := ShapeRecords(vms);
    r := Success(DemoResult(DemoMessage(total, template, dcName, clusterName), records));
  }

  /** What the parser makes of a VM's status lines: provisioning at 0, 25, 50, 75 and 100, then success at 100 three times. */
  function VmUpdates(name: string): seq<Option<StatusUpdate>>
  {
    [Some(StatusUpdate(name, "provisioning", Some(0))), Some(StatusUpdate(name, "provisioning", Some(25))),
     Some(StatusUpdate(name, "provisioning", Some(50))), Some(StatusUpdate(name, "provisioning", Some(75))),
     Some(StatusUpdate(name, "provisioning", Some(100))), Some(StatusUpdate(name, "success", Some(100))),
     Some(StatusUpdate(name, "success", Some(100))), Some(StatusUpdate(name, "success", Some(100)))]
  }

  /** Line `i` of a VM's block parses to update `i` of its expected updates. */
  lemma VmLineParses(idx: nat, total: nat, name: string, i: nat)
    requires name != [] && NoSpace(name) && i < 8
    ensures ParseLogMessage(VmLines(idx, total, name)[i]) == VmUpdates(name)[i]
  {
    var lines := VmLines(idx, total, name);
    var us := VmUpdates(name);
    if i == 0 {
      assert lines[i] == StartLine(idx, total, name) && us[i] == Some(StatusUpdate(name, "provisioning", Some(0)));
      StartLineParses(idx, total, name);
    } else if i <= 4 {
      var pct := if i == 1 then 25 else if i == 2 then 50 else if i == 3 then 75 else 100;
      assert lines[i] == ProgressLine(pct, name) && us[i] == Some(StatusUpdate(name, "provisioning", Some(pct)));
      ProgressLineParses(pct, name);
    } else {
      assert us[i] == Some(StatusUpdate(name, "success", Some(100)));
      if i == 5 {
        assert lines[i] == ClonedLine(name);
        ClonedLineParses(name);
      } else if i == 6 {
        assert lines[i] == PoweredLine(name);
        PoweredLineParses(name);
      } else {
        assert lines[i] == ReadyLine(name);
        ReadyLineParses(name);
      }
    }
  }

  /** Every status line of a VM parses back to an update about that same VM. */
  lemma VmLinesParse(idx: nat, total: nat, name: string)
    requires name != [] && NoSpace(name)
    ensures LogUpdates(VmLines(idx, total, name)) == VmUpdates(name)
  {
    var lines := VmLines(idx, total, name);
    var us := VmUpdates(name);
    forall i | 0 <= i < |lines|
      ensures ParseLogMessage(lines[i]) == us[i]
    {
      VmLineParses(idx, total, name, i);
    }
    LogUpdatesPointwise(lines, us);
  }

  lemma LogUpdatesPointwise(lines: seq<string>, us: seq<Option<StatusUpdate>>)
    requires |lines| == |us| && forall i :: 0 <= i < |lines| ==> ParseLogMessage(lines[i]) == us[i]
    ensures LogUpdates(lines) == us
  {
  }

  /** What the parser makes of the run's status lines, VM by VM. */
  function DemoUpdates(vms: seq<Node>): seq<Option<StatusUpdate>>
    requires AllNamed(vms)
  {
    if vms == [] then []
    else DemoUpdates(vms[..|vms| - 1]) + VmUpdates(vms[|vms| - 1].name.value)
  }

  /** With names free of whitespace, the run's log parses to the updates of each VM in turn. */
  lemma {:induction false} DemoLogParse(vms: seq<Node>, total: nat)
    requires AllNamed(vms)
    requires forall i :: 0 <= i < |vms| ==> vms[i].name.value != [] && NoSpace(vms[i].name.value)
    ensures LogUpdates(DemoLog(vms, total)) == DemoUpdates(vms)
  {
    if vms != [] {
      var init := vms[..|vms| - 1];
      var name := vms[|vms| - 1].name.value;
      assert forall i :: 0 <= i < |init| ==> init[i] == vms[i];
      DemoLogParse(init, total);
      LogUpdatesAppend(DemoLog(init, total), VmLines(|vms|, total, name));
      VmLinesParse(|vms|, total, name);
    }
  }

  /** The row of `name` shows success at 100%. */
  predicate Done(e: map<string, Entry>, name: string)
  {
    name in e && e[name].status == "success" && e[name].progress == 100
  }

  /** Applied to a non-empty table, one VM's updates leave its row at success, 100%, and every other row as it was. */
  lemma VmUpdatesEffect(entries: map<string, Entry>, name: string, key: string)
    requires entries != map[]
    ensures key == name ==> Done(ApplyUpdates(entries, VmUpdates(name)), key)
    ensures key != name && key in entries ==>
      key in ApplyUpdates(entries, VmUpdates(name)) && ApplyUpdates(entries, VmUpdates(name))[key] == entries[key]
  {
    var us := VmUpdates(name);
    if key == name {
      ApplyUpdatesKeepsKeys(entries, us[..7]);
      assert us[..|us| - 1] == us[..7];
    } else {
      assert AllAbout(us, name);
      UpdatesTouchOnly(entries, us, name, key);
    }
  }

  /** The last VM's updates: its row ends at success, 100%, the rows before are untouched. */
  lemma DemoUpdatesStep(entries: map<string, Entry>, vms: seq<Node>, key: string)
    requires entries != map[] && vms != [] && AllNamed(vms)
    ensures AllNamed(vms[..|vms| - 1])
    ensures key == vms[|vms| - 1].name.value ==> Done(ApplyUpdates(entries, DemoUpdates(vms)), key)
    ensures Done(ApplyUpdates(entries, DemoUpdates(vms[..|vms| - 1])), key) ==> Done(ApplyUpdates(entries, DemoUpdates(vms)), key)
  {
    var init := vms[..|vms| - 1];
    var name := vms[|vms| - 1].name.value;
    assert AllNamed(init);
    ApplyUpdatesAppend(entries, DemoUpdates(init), VmUpdates(name));
    ApplyUpdatesKeepsKeys(entries, DemoUpdates(init));
    VmUpdatesEffect(ApplyUpdates(entries, DemoUpdates(init)), name, key);
  }

  /** Applied to a non-empty table, the run's updates leave every VM it names at success, 100%. */
  lemma {:induction false} DemoUpdatesEndSuccess(entries: map<string, Entry>, vms: seq<Node>)
    requires entries != map[] && AllNamed(vms)
    ensures forall i :: 0 <= i < |vms| ==> Done(ApplyUpdates(entries, DemoUpdates(vms)), vms[i].name.value)
  {
    if vms != [] {
      var init := vms[..|vms| - 1];
      assert forall i :: 0 <= i < |init| ==> init[i] == vms[i];
      DemoUpdatesEndSuccess(entries, init);
      forall i | 0 <= i < |vms|
        ensures Done(ApplyUpdates(entries, DemoUpdates(vms)), vms[i].name.value)
      {
        DemoUpdatesStep(entries, vms, vms[i].name.value);
      }
    }
  }

  /**
   * Read into a non-empty status table, the demo run's log leaves every VM
   * it names at success, 100%, provided the names hold no whitespace.
   */
  lemma DemoLogEndsSuccess(entries: map<string, Entry>, vms: seq<Node>, total: nat)
    requires entries != map[] && AllNamed(vms)
    requires forall i :: 0 <= i < |vms| ==> vms[i].name.value != [] && NoSpace(vms[i].name.value)
    ensures forall i :: 0 <= i < |vms| ==> Done(ApplyLog(entries, DemoLog(vms, total)), vms[i].name.value)
  {
    DemoLogParse(vms, total);
    DemoUpdatesEndSuccess(entries, vms);
  }
}
