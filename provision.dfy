/**
 * The orchestration of `provision_vms` (vm_provision.py): resolve the vCenter
 * objects under a connection/discovery timeout, derive the work items, submit
 * one clone per item, await the submitted tasks in order, and report.
 *
 * vCenter is replaced by values: the inventory the connection would show, a
 * clock read at each timeout checkpoint, and a backend that says, per work
 * item, whether its clone submission raises and how its task ends.
 */
module Provision {
  import opened Wrappers
  import opened Text
  import opened Dicts
  import opened WorkItems
  import opened Customization

  /** A cluster: its datastores, in inventory order. */
  datatype Cluster = Cluster(datastores: seq<string>)

  /** A datacenter: its clusters and networks, by name. */
  datatype Datacenter = Datacenter(clusters: map<string, Cluster>, networks: set<string>)

  /** What connecting yields: the connection error, if any, and the objects found by name. */
  datatype Inventory = Inventory(connectError: Option<string>, templates: map<string, TemplateVm>,
                                 datacenters: map<string, Datacenter>)

  /** The points where the elapsed time is read: five timeout checks and the final report. */
  datatype Phase = AfterConnect | AfterTemplate | AfterDatacenter | AfterCluster | AfterDiscovery | Final

  /** Elapsed time since the start, in tenths of a second, at each reading. */
  type Clock = Phase -> nat

  /** `elapsed_time > timeout_seconds`. */
  predicate TimedOut(clock: Clock, p: Phase, timeout: int)
  {
    clock(p) > timeout * 10
  }

  /** What resolution hands to the cloning phase. */
  datatype Resolved = Resolved(templateVm: TemplateVm, datastore: string)

  /** Every named object exists (template, then datacenter, then its cluster and network). */
  predicate AllFound(inv: Inventory, template: string, dcName: string, clusterName: string, networkName: string)
  {
    && template in inv.templates
    && dcName in inv.datacenters
    && clusterName in inv.datacenters[dcName].clusters
    && networkName in inv.datacenters[dcName].networks
  }

  /** None of the five checkpoints is past the timeout. */
  predicate InTime(clock: Clock, timeout: int)
  {
    && !TimedOut(clock, AfterConnect, timeout)
    && !TimedOut(clock, AfterTemplate, timeout)
    && !TimedOut(clock, AfterDatacenter, timeout)
    && !TimedOut(clock, AfterCluster, timeout)
    && !TimedOut(clock, AfterDiscovery, timeout)
  }

  /**
   * The resolve phase: connect, then look up template, datacenter, cluster and
   * network with a timeout check after each step, then take the cluster's first
   * datastore. The first failing step names the error.
   */
  function Resolve(inv: Inventory, clock: Clock, timeout: int,
                   template: string, dcName: string, clusterName: string, networkName: string): (r: Result<Resolved, string>)
    ensures r.Success? <==>
      inv.connectError.None? && AllFound(inv, template, dcName, clusterName, networkName) && InTime(clock, timeout)
      && |inv.datacenters[dcName].clusters[clusterName].datastores| > 0
    ensures r.Success? ==>
      r.value == Resolved(inv.templates[template], inv.datacenters[dcName].clusters[clusterName].datastores[0])
    ensures inv.connectError.Some? ==> r == Failure("vCenter connection failed: " + inv.connectError.value)
  {
    if inv.connectError.Some? then
      Failure("vCenter connection failed: " + inv.connectError.value)
    else if TimedOut(clock, AfterConnect, timeout) then
      Failure("Operation timed out during vCenter connection")
    else if template !in inv.templates then
      Failure("Template '" + template + "' not found")
    else if TimedOut(clock, AfterTemplate, timeout) then
      Failure("Operation timed out while finding template")
    else if dcName !in inv.datacenters then
      Failure("Datacenter '" + dcName + "' not found")
    else if TimedOut(clock, AfterDatacenter, timeout) then
      Failure("Operation timed out while finding datacenter")
    else if clusterName !in inv.datacenters[dcName].clusters then
      Failure("Cluster '" + clusterName + "' not found")
    else if TimedOut(clock, AfterCluster, timeout) then
      Failure("Operation timed out while finding cluster")
    else if networkName !in inv.datacenters[dcName].networks then
      Failure("Network '" + networkName + "' not found")
    else if TimedOut(clock, AfterDiscovery, timeout) then
      Failure("Operation timed out during resource discovery")
    else
      var datastores := inv.datacenters[dcName].clusters[clusterName].datastores;
      if |datastores| == 0 then Failure("No datastore available in cluster")
      else Success(Resolved(inv.templates[template], datastores[0]))
  }

  /**
   * Lookups happen in a fixed order and the first miss is the one reported:
   * a missing template is reported whatever the datacenter, cluster and network
   * are, as long as the connection came up in time.
   */
  lemma MissingTemplateReportedFirst(inv: Inventory, clock: Clock, timeout: int,
                                     template: string, dcName: string, clusterName: string, networkName: string)
    requires inv.connectError.None? && !TimedOut(clock, AfterConnect, timeout)
    requires template !in inv.templates
    ensures Resolve(inv, clock, timeout, template, dcName, clusterName, networkName)
            == Failure("Template '" + template + "' not found")
  {
  }

  /**
   * The resolve phase as a list of checks in the order they are made, each
   * with the error it raises: connection, then each lookup followed by its
   * timeout checkpoint, then the datastore.
   */
  function ResolveChecks(inv: Inventory, clock: Clock, timeout: int,
                         template: string, dcName: string, clusterName: string, networkName: string): (cs: seq<(bool, string)>)
    ensures |cs| == 11
  {
    var dcs := inv.datacenters;
    var dcFound := dcName in dcs;
    var clusterFound := dcFound && clusterName in dcs[dcName].clusters;
    [ (inv.connectError.Some?, "vCenter connection failed: " + (if inv.connectError.Some? then inv.connectError.value else "")),
      (TimedOut(clock, AfterConnect, timeout), "Operation timed out during vCenter connection"),
      (template !in inv.templates, "Template '" + template + "' not found"),
      (TimedOut(clock, AfterTemplate, timeout), "Operation timed out while finding template"),
      (!dcFound, "Datacenter '" + dcName + "' not found"),
      (TimedOut(clock, AfterDatacenter, timeout), "Operation timed out while finding datacenter"),
      (dcFound && !clusterFound, "Cluster '" + clusterName + "' not found"),
      (TimedOut(clock, AfterCluster, timeout), "Operation timed out while finding cluster"),
      (dcFound && networkName !in dcs[dcName].networks, "Network '" + networkName + "' not found"),
      (TimedOut(clock, AfterDiscovery, timeout), "Operation timed out during resource discovery"),
      (clusterFound && |dcs[dcName].clusters[clusterName].datastores| == 0, "No datastore available in cluster") ]
  }

  /** The error of the first failing check from position `i` on, if any. */
  function FirstFailed(cs: seq<(bool, string)>, i: nat): (r: Option<string>)
    requires i <= |cs|
    ensures r.None? <==> forall j :: i <= j < |cs| ==> !cs[j].0
    ensures r.Some? ==> exists j :: i <= j < |cs| && cs[j].0 && r.value == cs[j].1 && forall k :: i <= k < j ==> !cs[k].0
    decreases |cs| - i
  {
    if i == |cs| then None
    else if cs[i].0 then Some(cs[i].1)
    else FirstFailed(cs, i + 1)
  }

  /**
   * Every lookup and every timeout checkpoint is reported as the source
   * orders them: resolution fails exactly when some check fails, with the
   * error of the first check that does.
   */
  lemma ResolveReportsFirstFailedCheck(inv: Inventory, clock: Clock, timeout: int,
                                       template: string, dcName: string, clusterName: string, networkName: string)
    ensures var r := Resolve(inv, clock, timeout, template, dcName, clusterName, networkName);
      var f := FirstFailed(ResolveChecks(inv, clock, timeout, template, dcName, clusterName, networkName), 0);
      && (r.Failure? <==> f.Some?)
      && (r.Failure? ==> r.error == f.value)
  {
    var cs := ResolveChecks(inv, clock, timeout, template, dcName, clusterName, networkName);
    var dcs := inv.datacenters;
    if inv.connectError.Some? {
      FirstFailedAt(cs, 0, 0);
    } else if TimedOut(clock, AfterConnect, timeout) {
      FirstFailedAt(cs, 0, 1);
    } else if template !in inv.templates {
      FirstFailedAt(cs, 0, 2);
    } else if TimedOut(clock, AfterTemplate, timeout) {
      FirstFailedAt(cs, 0, 3);
    } else if dcName !in dcs {
      FirstFailedAt(cs, 0, 4);
    } else if TimedOut(clock, AfterDatacenter, timeout) {
      FirstFailedAt(cs, 0, 5);
    } else if clusterName !in dcs[dcName].clusters {
      FirstFailedAt(cs, 0, 6);
    } else if TimedOut(clock, AfterCluster, timeout) {
      FirstFailedAt(cs, 0, 7);
    } else if networkName !in dcs[dcName].networks {
      FirstFailedAt(cs, 0, 8);
    } else if TimedOut(clock, AfterDiscovery, timeout) {
      FirstFailedAt(cs, 0, 9);
    } else if |dcs[dcName].clusters[clusterName].datastores| == 0 {
      FirstFailedAt(cs, 0, 10);
    } else {
      FirstFailedAt(cs, 0, 11);
    }
  }

  /** `FirstFailed` reports the check at the first failing position. */
  lemma {:induction false} FirstFailedAt(cs: seq<(bool, string)>, i: nat, k: nat)
    requires i <= k <= |cs| && (k < |cs| ==> cs[k].0) && forall j :: i <= j < k ==> !cs[j].0
    ensures FirstFailed(cs, i) == if k < |cs| then Some(cs[k].1) else None
    decreases k - i
  {
    if i < k {
      FirstFailedAt(cs, i + 1, k);
    }
  }

  /** For instance: connected in time, template found in time, datacenter missing — the datacenter is named. */
  lemma MissingDatacenterReported(inv: Inventory, clock: Clock, timeout: int,
                                  template: string, dcName: string, clusterName: string, networkName: string)
    requires inv.connectError.None? && !TimedOut(clock, AfterConnect, timeout)
    requires template in inv.templates && !TimedOut(clock, AfterTemplate, timeout)
    requires dcName !in inv.datacenters
    ensures Resolve(inv, clock, timeout, template, dcName, clusterName, networkName)
            == Failure("Datacenter '" + dcName + "' not found")
  {
    ResolveReportsFirstFailedCheck(inv, clock, timeout, template, dcName, clusterName, networkName);
  }

  /** The elapsed time read for the final report plays no part in resolution: there is no timeout after it. */
  lemma ResolveIgnoresLaterTime(inv: Inventory, c1: Clock, c2: Clock, timeout: int,
                                template: string, dcName: string, clusterName: string, networkName: string)
    requires forall p :: p != Final ==> c1(p) == c2(p)
    ensures Resolve(inv, c1, timeout, template, dcName, clusterName, networkName)
            == Resolve(inv, c2, timeout, template, dcName, clusterName, networkName)
  {
    assert c1(AfterConnect) == c2(AfterConnect) && c1(AfterTemplate) == c2(AfterTemplate);
    assert c1(AfterDatacenter) == c2(AfterDatacenter) && c1(AfterCluster) == c2(AfterCluster);
    assert c1(AfterDiscovery) == c2(AfterDiscovery);
  }

  /** A longer timeout never turns a successful resolution into a failure, and resolves to the same objects. */
  lemma ResolveTimeoutMonotone(inv: Inventory, clock: Clock, t1: int, t2: int,
                               template: string, dcName: string, clusterName: string, networkName: string)
    requires t1 <= t2
    requires Resolve(inv, clock, t1, template, dcName, clusterName, networkName).Success?
    ensures Resolve(inv, clock, t2, template, dcName, clusterName, networkName)
            == Resolve(inv, clock, t1, template, dcName, clusterName, networkName)
  {
  }

  /** How an awaited clone task ends: success, an error with or without a localized message, or an exception while polling. */
  datatype TaskOutcome = TaskSucceeded | TaskErrored(error: Option<Option<string>>) | MonitorRaised(message: string)

  /** What the backend does with one clone request: raise at submission, or accept it and later end with an outcome. */
  datatype CloneTask = SubmitRaised(message: string) | Submitted(outcome: TaskOutcome)

  /** The clone backend, by 0-based position of the work item. */
  type Backend = nat -> CloneTask

  /** One `template_vm.Clone(...)` call: the VM name, the target datastore, the customization, and power-on. */
  datatype CloneCall = CloneCall(name: string, datastore: string, customization: Specification, powerOn: bool)

  /** The clone call made for work item `c`. */
  function CallFor(res: Resolved, template: string, c: VmConfig): (call: CloneCall)
    ensures call.name == c.name && call.datastore == res.datastore && call.powerOn
    ensures call.customization.identity == IdentityFor(OsTypeOf(template), c.hostname, DefaultDomain)
    ensures |call.customization.nicSettingMap| == Min(|TemplateNics(res.templateVm)|, |c.ips|)
  {
    CloneCall(c.name, res.datastore, TemplateSpec(res.templateVm, c.hostname, c.ips, OsTypeOf(template)), true)
  }

  /** The clone calls made for the first `k` work items, in order, whether or not their submission then raises. */
  function CloneCalls(res: Resolved, template: string, configs: seq<VmConfig>, k: nat): (calls: seq<CloneCall>)
    requires k <= |configs|
    ensures |calls| == k
    ensures forall i :: 0 <= i < k ==> calls[i].name == configs[i].name
  {
    if k == 0 then []
    else CloneCalls(res, template, configs, k - 1) + [CallFor(res, template, configs[k - 1])]
  }

  /** Call `i` clones work item `i` with that item's own hostname and addresses. */
  lemma {:induction false} CloneCallsMeaning(res: Resolved, template: string, configs: seq<VmConfig>, k: nat, i: nat)
    requires i < k <= |configs|
    ensures CloneCalls(res, template, configs, k)[i] == CallFor(res, template, configs[i])
    decreases k
  {
    if i < k - 1 {
      CloneCallsMeaning(res, template, configs, k - 1, i);
    }
  }

  /** Positions among the first `k` work items whose submission did not raise, in submission order. */
  function SubmittedIdx(backend: Backend, k: nat): (ts: seq<nat>)
    ensures |ts| <= k
    ensures forall j :: 0 <= j < |ts| ==> ts[j] < k
  {
    if k == 0 then []
    else SubmittedIdx(backend, k - 1) + (if backend(k - 1).Submitted? then [k - 1] else [])
  }

  /**
   * The tasks awaited are exactly the work items whose submission did not
   * raise, each once, in submission order.
   */
  lemma {:induction false} SubmittedIdxMeaning(backend: Backend, k: nat)
    ensures forall j :: 0 <= j < |SubmittedIdx(backend, k)| ==> backend(SubmittedIdx(backend, k)[j]).Submitted?
    ensures forall j, l :: 0 <= j < l < |SubmittedIdx(backend, k)| ==> SubmittedIdx(backend, k)[j] < SubmittedIdx(backend, k)[l]
    ensures forall i :: 0 <= i < k && backend(i).Submitted? ==> i in SubmittedIdx(backend, k)
  {
    if k > 0 {
      SubmittedIdxMeaning(backend, k - 1);
      var prev, ts := SubmittedIdx(backend, k - 1), SubmittedIdx(backend, k);
      if backend(k - 1).Submitted? {
        assert ts == prev + [k - 1];
        assert forall j :: 0 <= j < |prev| ==> ts[j] == prev[j];
        assert ts[|prev|] == k - 1;
      } else {
        assert ts == prev;
      }
    }
  }

  predicate Succeeds(t: CloneTask) { t == Submitted(TaskSucceeded) }

  /** `success_count` after awaiting the tasks of `tasks`. */
  function SuccessCount(backend: Backend, tasks: seq<nat>): nat
  {
    if tasks == [] then 0
    else SuccessCount(backend, tasks[..|tasks| - 1]) + (if Succeeds(backend(tasks[|tasks| - 1])) then 1 else 0)
  }

  /** `failed_count` after awaiting the tasks of `tasks`: a task error and a polling exception both count here. */
  function FailedCount(backend: Backend, tasks: seq<nat>): nat
  {
    if tasks == [] then 0
    else FailedCount(backend, tasks[..|tasks| - 1]) + (if Succeeds(backend(tasks[|tasks| - 1])) then 0 else 1)
  }

  /** Every awaited task is counted exactly once, as a success or as a failure. */
  lemma {:induction false} CountsPartition(backend: Backend, tasks: seq<nat>)
    ensures SuccessCount(backend, tasks) + FailedCount(backend, tasks) == |tasks|
    decreases |tasks|
  {
    if tasks != [] {
      CountsPartition(backend, tasks[..|tasks| - 1]);
    }
  }

  /** Hence the two counters of a run add up to the number of submitted tasks, which is at most the number of work items. */
  lemma CountsBounded(backend: Backend, n: nat)
    ensures var ts := SubmittedIdx(backend, n);
      SuccessCount(backend, ts) + FailedCount(backend, ts) == |ts| <= n
  {
    CountsPartition(backend, SubmittedIdx(backend, n));
  }

  /**
   * The text reported for a task that ended in error: `str` of the error
   * object's `localizedMessage` when there is an error object (so "None" when
   * that attribute is unset), "Unknown error" when there is none.
   */
  function ErrorText(error: Option<Option<string>>): (s: string)
    ensures error.None? ==> s == "Unknown error"
    ensures error == Some(None) ==> s == "None"
    ensures error.Some? && error.value.Some? ==> s == error.value.value
  {
    match error
    case None => "Unknown error"
    case Some(None) => "None"
    case Some(Some(m)) => m
  }

  /** "Unknown error" is reported only for a task with no error object, or whose message is that very text. */
  lemma UnknownErrorOnlyWithoutError(error: Option<Option<string>>)
    ensures ErrorText(error) == "Unknown error" <==> error.None? || error == Some(Some("Unknown error"))
  {
    if error == Some(None) {
      assert "None"[0] != "Unknown error"[0];
    }
  }

  // The log lines the status table reads back (vm_provision.py:632, 674-683, 687, 713, 734, 737, 746, 749).

  function StartLine(idx: nat, n: nat, name: string): string
  {
    "🚀 Starting VM " + Show(idx) + "/" + Show(n) + ": " + name
  }

  function InitiatedLine(name: string): string { "✅ Clone task initiated for " + name }

  function ProgressLine(pct: nat, name: string): string
  {
    "📈 Clone progress: " + Show(pct) + "% - VM " + name
  }

  function SubmitFailedLine(name: string, msg: string): string
  {
    "❌ Failed to initiate clone for " + name + ": " + msg
  }

  function ClonedLine(name: string): string { "✅ VM " + name + " cloned successfully" }

  function PoweredLine(name: string): string { "🟢 VM " + name + " powered on successfully" }

  function ReadyLine(name: string): string { "✅ Guest OS boot completed - VM " + name + " ready" }

  function CloneFailedLine(name: string, msg: string): string { "❌ " + name + " clone failed: " + msg }

  function MonitorErrorLine(name: string, msg: string): string { "❌ Error monitoring " + name + ": " + msg }

  /** Lines for submitting work item `idx` (1-based) of `n`. */
  function SubmitLines(idx: nat, n: nat, name: string, t: CloneTask): seq<string>
  {
    [StartLine(idx, n, name)]
    + match t
      case SubmitRaised(msg) => [SubmitFailedLine(name, msg)]
      case Submitted(_) =>
        [InitiatedLine(name), ProgressLine(25, name), ProgressLine(50, name), ProgressLine(75, name), ProgressLine(100, name)]
  }

  /** The submission log of the first `k` work items. */
  function SubmitLog(configs: seq<VmConfig>, backend: Backend, k: nat): seq<string>
    requires k <= |configs|
  {
    if k == 0 then []
    else SubmitLog(configs, backend, k - 1) + SubmitLines(k, |configs|, configs[k - 1].name, backend(k - 1))
  }

  /** Lines for awaiting one submitted task. */
  function MonitorLines(name: string, t: CloneTask): seq<string>
  {
    match t
    case Submitted(TaskSucceeded) => [ClonedLine(name), PoweredLine(name), ReadyLine(name)]
    case Submitted(TaskErrored(m)) => [CloneFailedLine(name, ErrorText(m))]
    case Submitted(MonitorRaised(msg)) => [MonitorErrorLine(name, msg)]
    case SubmitRaised(_) => []
  }

  /** The monitoring log of the tasks in `tasks`, in submission order. */
  function MonitorLog(configs: seq<VmConfig>, backend: Backend, tasks: seq<nat>): seq<string>
    requires forall j :: 0 <= j < |tasks| ==> tasks[j] < |configs|
  {
    if tasks == [] then []
    else
      var last := tasks[|tasks| - 1];
      MonitorLog(configs, backend, tasks[..|tasks| - 1]) + MonitorLines(configs[last].name, backend(last))
  }

  /** `{t:.1f}` for a time in tenths of a second. */
  function Tenths(t: nat): string
  {
    Show(t / 10) + "." + Show(t % 10)
  }

  function CompletedMessage(t: nat, success: nat, total: nat): string
  {
    "Provisioning completed in " + Tenths(t) + "s! " + Show(success) + "/" + Show(total) + " VMs created successfully"
  }

  function FailedMessage(t: nat, reason: string): string
  {
    "Provisioning failed after " + Tenths(t) + "s: " + reason
  }

  /** `{t:.2f}` for a time in tenths of a second. */
  function Hundredths(t: nat): string
  {
    Tenths(t) + "0"
  }

  /** The report after the monitoring loop: the counts, the total time and the number of work items. */
  function SummaryLines(t: nat, success: nat, failed: nat, total: nat): seq<string>
  {
    [ "",
      "🎉 PROVISIONING COMPLETED SUCCESSFULLY!",
      "✅ All virtual machines are ready for use!",
      "📊 Total VMs provisioned: " + Show(success),
      "⏱️  Total time: " + Hundredths(t) + " seconds",
      "📊 Results:",
      "   ✅ Successful: " + Show(success),
      "   ❌ Failed: " + Show(failed),
      "   📋 Total requested: " + Show(total),
      "🚀 PRODUCTION MODE: Real vCenter provisioning completed using your configuration" ]
  }

  /** One round of the submission loop: build the clone spec, call Clone, and log either the initiation or the failure. */
  method SubmitOne(c: VmConfig, idx: nat, n: nat, res: Resolved, template: string, t: CloneTask)
    returns (call: CloneCall, lines: seq<string>)
    ensures call == CallFor(res, template, c)
    ensures lines == SubmitLines(idx, n, c.name, t)
  {
    var spec := BuildFromTemplate(res.templateVm, c.hostname, c.ips, OsTypeOf(template));
    call := CloneCall(c.name, res.datastore, spec, true);
    lines := [StartLine(idx, n, c.name)];
    if t.SubmitRaised? {
      lines := lines + [SubmitFailedLine(c.name, t.message)];
    } else {
      lines := lines + [InitiatedLine(c.name), ProgressLine(25, c.name), ProgressLine(50, c.name),
                        ProgressLine(75, c.name), ProgressLine(100, c.name)];
    }
  }

  /** The submission loop: one clone call per work item; a submission that raises is logged and skipped. */
  method SubmitAll(configs: seq<VmConfig>, res: Resolved, template: string, backend: Backend)
    returns (tasks: seq<nat>, calls: seq<CloneCall>, log: seq<string>)
    ensures tasks == SubmittedIdx(backend, |configs|)
    ensures calls == CloneCalls(res, template, configs, |configs|)
    ensures log == SubmitLog(configs, backend, |configs|)
  {
    tasks, calls, log := [], [], [];
    for i := 0 to |configs|
      invariant tasks == SubmittedIdx(backend, i)
      invariant calls == CloneCalls(res, template, configs, i)
      invariant log == SubmitLog(configs, backend, i)
    {
      tasks, calls, log := SubmitNext(configs, res, template, backend, i, tasks, calls, log);
    }
  }

  /** One round of the submission loop: submit work item `i` and extend what the loop has gathered. */
  method SubmitNext(configs: seq<VmConfig>, res: Resolved, template: string, backend: Backend, i: nat,
                    tasks: seq<nat>, calls: seq<CloneCall>, log: seq<string>)
    returns (tasks': seq<nat>, calls': seq<CloneCall>, log': seq<string>)
    requires i < |configs|
    requires tasks == SubmittedIdx(backend, i)
    requires calls == CloneCalls(res, template, configs, i)
    requires log == SubmitLog(configs, backend, i)
    ensures tasks' == SubmittedIdx(backend, i + 1)
    ensures calls' == CloneCalls(res, template, configs, i + 1)
    ensures log' == SubmitLog(configs, backend, i + 1)
  {
    var attempt := backend(i);
    var call, lines := SubmitOne(configs[i], i + 1, |configs|, res, template, attempt);
    calls' := calls + [call];
    tasks' := if attempt.Submitted? then tasks + [i] else tasks;
    log' := log + lines;
  }

  /** The monitoring loop: await each submitted task in order and count it as a success or a failure. */
  method MonitorAll(configs: seq<VmConfig>, backend: Backend, tasks: seq<nat>)
    returns (success: nat, failed: nat, log: seq<string>)
    requires forall j :: 0 <= j < |tasks| ==> tasks[j] < |configs|
    ensures success == SuccessCount(backend, tasks)
    ensures failed == FailedCount(backend, tasks)
    ensures log == MonitorLog(configs, backend, tasks)
  {
    success, failed, log := 0, 0, [];
    for j := 0 to |tasks|
      invariant success == SuccessCount(backend, tasks[..j])
      invariant failed == FailedCount(backend, tasks[..j])
      invariant log == MonitorLog(configs, backend, tasks[..j])
    {
      assert tasks[..j + 1][..j] == tasks[..j];
      var name := configs[tasks[j]].name;
      var t := backend(tasks[j]);
      if t == Submitted(TaskSucceeded) {
        log := log + [ClonedLine(name), PoweredLine(name), ReadyLine(name)];
        success := success + 1;
      } else if t.Submitted? && t.outcome.TaskErrored? {
        log := log + [CloneFailedLine(name, ErrorText(t.outcome.error))];
        failed := failed + 1;
      } else {
        log := log + MonitorLines(name, t);
        failed := failed + 1;
      }
    }
    assert tasks[..|tasks|] == tasks;
  }

  /**
   * `provision_vms`: on a resolution or derivation failure, one error line,
   * no clone call and the "failed after" message; otherwise every work item
   * gets a clone call, the submitted ones are awaited, and the summary and
   * the message count the successes and failures against all work items.
   */
  method ProvisionVms(inv: Inventory, clock: Clock, backend: Backend, timeout: int,
                      template: string, prefix: string, count: int,
                      dcName: string, clusterName: string, networkName: string,
                      ipMap: Dict, nodes: seq<Node>)
    returns (r: Result<string, string>, calls: seq<CloneCall>, log: seq<string>)
    requires |nodes| == 0 ==> BasesWellFormed(ipMap)
    ensures var res := Resolve(inv, clock, timeout, template, dcName, clusterName, networkName);
      var plan := PlannedConfigs(nodes, prefix, count, ipMap);
      && (r.Success? <==> res.Success? && plan.Success?)
      && (res.Failure? ==> r == Failure(FailedMessage(clock(Final), res.error)))
      && (res.Success? && plan.Failure? ==> r == Failure(FailedMessage(clock(Final), plan.error)))
      && (r.Failure? ==> calls == [] && log == ["❌ " + r.error])
      && (r.Success? ==>
            var tasks := SubmittedIdx(backend, |plan.value|);
            && r.value == CompletedMessage(clock(Final), SuccessCount(backend, tasks), |plan.value|)
            && calls == CloneCalls(res.value, template, plan.value, |plan.value|)
            && log == SubmitLog(plan.value, backend, |plan.value|) + MonitorLog(plan.value, backend, tasks)
                      + SummaryLines(clock(Final), SuccessCount(backend, tasks), FailedCount(backend, tasks), |plan.value|))
  {
    var res := Resolve(inv, clock, timeout, template, dcName, clusterName, networkName);
    if res.Failure? {
      var msg := FailedMessage(clock(Final), res.error);
      return Failure(msg), [], ["❌ " + msg];
    }
    var plan := DeriveConfigs(nodes, prefix, count, ipMap);
    if plan.Failure? {
      var msg := FailedMessage(clock(Final), plan.error);
      return Failure(msg), [], ["❌ " + msg];
    }
    var configs := plan.value;
    var tasks, submitLog;
    tasks, calls, submitLog := SubmitAll(configs, res.value, template, backend);
    var success, failed, monitorLog := MonitorAll(configs, backend, tasks);
    r := Success(CompletedMessage(clock(Final), success, |configs|));
    log := submitLog + monitorLog + SummaryLines(clock(Final), success, failed, |configs|);
  }

  /**
   * Once resolution has succeeded, how long cloning takes never turns the run
   * into a failure: two clocks that agree up to discovery give runs that both
   * succeed or both fail.
   */
  lemma NoTimeoutAfterResolve(inv: Inventory, c1: Clock, c2: Clock, timeout: int,
                              template: string, dcName: string, clusterName: string, networkName: string)
    requires forall p :: p != Final ==> c1(p) == c2(p)
    requires Resolve(inv, c1, timeout, template, dcName, clusterName, networkName).Success?
    ensures Resolve(inv, c2, timeout, template, dcName, clusterName, networkName).Success?
  {
    ResolveIgnoresLaterTime(inv, c1, c2, timeout, template, dcName, clusterName, networkName);
  }
}
