/**
 * The VM status table behind the progress view (progress_table_ref.py): a
 * dictionary from VM name to a status entry, built from the work items, then
 * updated in place as provisioning reports on each VM.
 */
module ProgressTable {
  import opened Wrappers
  import opened Text
  import opened Dicts
  import opened WorkItems
  import opened Provision
  import opened LogParser

  /** One row of the table: the entry dictionary with its six keys. */
  datatype Entry = Entry(name: string, hostname: string, ips: IpsValue, ipsDisplay: string, status: string, progress: int)

  /** `vm_config.get('name', 'unknown')`. */
  function NameOf(c: Node): string
  {
    if c.name.Some? then c.name.value else "unknown"
  }

  /**
   * The IP column: the non-empty values of an object joined with ", ", a
   * non-empty string as it is, "DHCP" for anything else.
   */
  function IpsDisplay(v: IpsValue): (r: string)
    ensures r != ""
    ensures v.TextIps? && v.text != "" ==> r == v.text
    ensures v.DictIps? && NonEmptyValues(v.entries) != [] ==> r == Join(", ", NonEmptyValues(v.entries))
    ensures v.OtherIps? || (v.TextIps? && v.text == "") || (v.DictIps? && NonEmptyValues(v.entries) == []) ==> r == "DHCP"
  {
    match v
    case DictIps(d) =>
      JoinNonEmpty(NonEmptyValues(d));
      JoinedOrDhcp(d)
    case TextIps(s) => if s != "" then s else "DHCP"
    case OtherIps(_) => "DHCP"
  }

  lemma JoinNonEmpty(parts: seq<string>)
    requires forall i :: 0 <= i < |parts| ==> parts[i] != ""
    ensures parts != [] ==> Join(", ", parts) != ""
  {
    if |parts| > 1 {
      assert Join(", ", parts) == parts[0] + ", " + Join(", ", parts[1..]);
    }
  }

  /** The default hostname `f"{name}.local"`. */
  function LocalHostname(name: string): string
  {
    name + ".local"
  }

  /** The entry a work item starts with. */
  function InitialEntry(c: Node): Entry
  {
    var name := NameOf(c);
    var ips := if c.ips.Some? then c.ips.value else DictIps([]);
    Entry(name, if c.hostname.Some? then c.hostname.value else LocalHostname(name), ips, IpsDisplay(ips), "pending", 0)
  }

  /** The entry `update_vm_status` adds for a name it has not seen. */
  function DefaultEntry(name: string): Entry
  {
    Entry(name, LocalHostname(name), DictIps([]), "DHCP", "pending", 0)
  }

  /** The names of the first `k` work items. */
  function Names(configs: seq<Node>, k: nat): set<string>
    requires k <= |configs|
  {
    if k == 0 then {} else Names(configs, k - 1) + {NameOf(configs[k - 1])}
  }

  /** The table after the first `k` work items: each writes its entry under its name. */
  function Entries(configs: seq<Node>, k: nat): (r: map<string, Entry>)
    requires k <= |configs|
    ensures r.Keys == Names(configs, k)
  {
    if k == 0 then map[]
    else Entries(configs, k - 1)[NameOf(configs[k - 1]) := InitialEntry(configs[k - 1])]
  }

  /** Every entry of the new table is pending at 0%, under its own name. */
  lemma {:induction false} EntriesPending(configs: seq<Node>, k: nat, key: string)
    requires k <= |configs| && key in Entries(configs, k)
    ensures Entries(configs, k)[key].name == key
    ensures Entries(configs, k)[key].status == "pending" && Entries(configs, k)[key].progress == 0
  {
    if k > 0 {
      var prev, n, last := Entries(configs, k - 1), NameOf(configs[k - 1]), InitialEntry(configs[k - 1]);
      assert Entries(configs, k) == prev[n := last];
      if key != n {
        UpdateDomain(prev, n, last, key);
        EntriesPending(configs, k - 1, key);
        UpdateOther(prev, n, last, key);
      } else {
        UpdateSame(prev, n, last);
        InitialEntryPending(configs[k - 1]);
      }
    }
  }

  lemma InitialEntryPending(c: Node)
    ensures InitialEntry(c).name == NameOf(c) && InitialEntry(c).status == "pending" && InitialEntry(c).progress == 0
  {
  }

  /** The table's key order after the first `k` work items: names in order of first appearance. */
  function Order(configs: seq<Node>, k: nat): seq<string>
    requires k <= |configs|
  {
    if k == 0 then []
    else
      var o := Order(configs, k - 1);
      if NameOf(configs[k - 1]) in o then o else o + [NameOf(configs[k - 1])]
  }

  /** The table holds exactly the names of the work items. */
  lemma EntriesKeys(configs: seq<Node>, k: nat, key: string)
    requires k <= |configs|
    ensures key in Entries(configs, k) <==> exists i :: 0 <= i < k && NameOf(configs[i]) == key
  {
    NamesMeaning(configs, k, key);
  }

  lemma {:induction false} NamesMeaning(configs: seq<Node>, k: nat, key: string)
    requires k <= |configs|
    ensures key in Names(configs, k) <==> exists i :: 0 <= i < k && NameOf(configs[i]) == key
  {
    if k > 0 {
      NamesMeaning(configs, k - 1, key);
      NamedSplit(configs, k, key);
    }
  }

  /** A name among the first `k` work items is among the first `k - 1` or is the `k`-th. */
  lemma NamedSplit(configs: seq<Node>, k: nat, key: string)
    requires 0 < k <= |configs|
    ensures (exists i :: 0 <= i < k && NameOf(configs[i]) == key)
        <==> (exists i :: 0 <= i < k - 1 && NameOf(configs[i]) == key) || NameOf(configs[k - 1]) == key
  {
    if exists i :: 0 <= i < k && NameOf(configs[i]) == key {
      var i :| 0 <= i < k && NameOf(configs[i]) == key;
      if i < k - 1 {
        assert exists i :: 0 <= i < k - 1 && NameOf(configs[i]) == key;
      }
    }
    if exists i :: 0 <= i < k - 1 && NameOf(configs[i]) == key {
      var i :| 0 <= i < k - 1 && NameOf(configs[i]) == key;
      assert 0 <= i < k;
    }
    if NameOf(configs[k - 1]) == key {
      assert 0 <= k - 1 < k;
    }
  }

  /** A name's entry is the one its last work item writes: later items with the same name overwrite earlier ones. */
  lemma {:induction false} LastConfigWins(configs: seq<Node>, k: nat, j: nat)
    requires j < k <= |configs|
    requires forall i :: j < i < k ==> NameOf(configs[i]) != NameOf(configs[j])
    ensures NameOf(configs[j]) in Entries(configs, k)
    ensures Entries(configs, k)[NameOf(configs[j])] == InitialEntry(configs[j])
  {
    var prev, last := Entries(configs, k - 1), InitialEntry(configs[k - 1]);
    assert Entries(configs, k) == prev[NameOf(configs[k - 1]) := last];
    if j < k - 1 {
      LastConfigWins(configs, k - 1, j);
      UpdateOther(prev, NameOf(configs[k - 1]), last, NameOf(configs[j]));
    }
  }

  /** Writing a key adds it and no other. */
  lemma UpdateDomain<K, V>(m: map<K, V>, a: K, v: V, b: K)
    ensures b in m[a := v] <==> b == a || b in m
  {
  }

  /** Writing a key stores the value under it. */
  lemma UpdateSame<K, V>(m: map<K, V>, a: K, v: V)
    ensures a in m[a := v] && m[a := v][a] == v
  {
  }

  /** Writing one key leaves every other key's value alone. */
  lemma UpdateOther<K, V>(m: map<K, V>, a: K, v: V, b: K)
    requires b in m && a != b
    ensures b in m[a := v] && m[a := v][b] == m[b]
  {
  }

  /** The key order lists every name in the table once. */
  lemma {:induction false} OrderMatchesEntries(configs: seq<Node>, k: nat)
    requires k <= |configs|
    ensures forall i, j :: 0 <= i < j < |Order(configs, k)| ==> Order(configs, k)[i] != Order(configs, k)[j]
    ensures forall key :: key in Entries(configs, k) <==> key in Order(configs, k)
  {
    OrderDistinct(configs, k);
    OrderNames(configs, k);
  }

  lemma {:induction false} OrderDistinct(configs: seq<Node>, k: nat)
    requires k <= |configs|
    ensures forall i, j :: 0 <= i < j < |Order(configs, k)| ==> Order(configs, k)[i] != Order(configs, k)[j]
  {
    if k > 0 {
      OrderDistinct(configs, k - 1);
      var o, n := Order(configs, k - 1), NameOf(configs[k - 1]);
      if n !in o {
        assert Order(configs, k) == o + [n];
        assert forall i :: 0 <= i < |o| ==> (o + [n])[i] == o[i];
      }
    }
  }

  lemma {:induction false} OrderNames(configs: seq<Node>, k: nat)
    requires k <= |configs|
    ensures forall key :: key in Names(configs, k) <==> key in Order(configs, k)
  {
    if k > 0 {
      OrderNames(configs, k - 1);
      var o, n := Order(configs, k - 1), NameOf(configs[k - 1]);
      assert Names(configs, k) == Names(configs, k - 1) + {n};
      if n !in o {
        assert Order(configs, k) == o + [n];
        assert forall key :: key in o + [n] <==> key in o || key == n;
      }
    }
  }

  /**
   * `update_vm_status` on the entries: nothing happens to an empty (or absent)
   * table; otherwise the name gets an entry (a default one when new), its
   * status is set, and its progress is set when one is given.
   */
  function Updated(entries: map<string, Entry>, name: string, status: string, progress: Option<int>): map<string, Entry>
  {
    if entries == map[] then entries
    else
      var base := if name in entries then entries[name] else DefaultEntry(name);
      entries[name := base.(status := status, progress := if progress.Some? then progress.value else base.progress)]
  }

  /** An update touches only its own VM: every other entry is kept as it was, and no other name appears. */
  lemma UpdateLeavesOthers(entries: map<string, Entry>, name: string, status: string, progress: Option<int>, other: string)
    requires other != name
    ensures other in Updated(entries, name, status, progress) <==> other in entries
    ensures other in entries ==> Updated(entries, name, status, progress)[other] == entries[other]
  {
  }

  /** What an update does to its own VM's entry. */
  lemma UpdateSetsEntry(entries: map<string, Entry>, name: string, status: string, progress: Option<int>)
    ensures entries == map[] ==> Updated(entries, name, status, progress) == map[]
    ensures entries != map[] ==> name in Updated(entries, name, status, progress)
    ensures entries != map[] ==>
      var e := Updated(entries, name, status, progress)[name];
      && e.status == status
      && (progress.Some? ==> e.progress == progress.value)
      && (progress.None? && name in entries ==> e.progress == entries[name].progress)
      && (progress.None? && name !in entries ==> e.progress == 0)
      && (name in entries ==> e.hostname == entries[name].hostname && e.ipsDisplay == entries[name].ipsDisplay)
      && (name !in entries ==> e.hostname == LocalHostname(name) && e.ipsDisplay == "DHCP")
  {
  }

  /** Repeating an update changes nothing more. */
  lemma UpdateIdempotent(entries: map<string, Entry>, name: string, status: string, progress: Option<int>)
    ensures Updated(Updated(entries, name, status, progress), name, status, progress) == Updated(entries, name, status, progress)
  {
    if entries != map[] {
      var once := Updated(entries, name, status, progress);
      assert once != map[] by {
        assert name in once;
      }
    }
  }

  /** The dictionary `vm_status_data`, updated in place; `order` is its key order. */
  class StatusTable {
    var entries: map<string, Entry>
    var order: seq<string>

    /** Every key appears once in the key order, and the order holds nothing else. */
    ghost predicate Valid()
      reads this
    {
      && (forall i, j :: 0 <= i < j < |order| ==> order[i] != order[j])
      && (forall key :: key in entries <==> key in order)
    }

    constructor ()
      ensures Valid() && entries == map[] && order == []
    {
      entries := map[];
      order := [];
    }

    /** `table[name] = e`: a new name goes last in the key order, an existing one keeps its place. */
    method Put(name: string, e: Entry)
      requires Valid()
      modifies this
      ensures Valid()
      ensures entries == old(entries)[name := e]
      ensures order == if name in old(entries) then old(order) else old(order) + [name]
    {
      if name !in entries {
        order := order + [name];
      }
      entries := entries[name := e];
    }
  }

  /** `create_vm_status_data`: one pending entry per work item name, the last item with a name winning. */
  method CreateVmStatusData(configs: seq<Node>) returns (t: StatusTable)
    ensures fresh(t) && t.Valid()
    ensures t.entries == Entries(configs, |configs|) && t.order == Order(configs, |configs|)
  {
    t := new StatusTable();
    for i := 0 to |configs|
      invariant t.Valid()
      invariant t.entries == Entries(configs, i) && t.order == Order(configs, i)
    {
      OrderMatchesEntries(configs, i);
      t.Put(NameOf(configs[i]), InitialEntry(configs[i]));
    }
  }

  /** `update_vm_status`; a null table stands for `vm_status_data=None`. */
  method UpdateVmStatus(name: string, status: string, progress: Option<int>, t: StatusTable?)
    requires t != null ==> t.Valid()
    modifies t
    ensures t != null ==> t.Valid() && t.entries == Updated(old(t.entries), name, status, progress)
    ensures t != null ==> t.order == if old(t.entries) == map[] || name in old(t.entries) then old(t.order) else old(t.order) + [name]
  {
    if t == null || t.entries == map[] {
      return;
    }
    var base := if name in t.entries then t.entries[name] else DefaultEntry(name);
    var p := if progress.Some? then progress.value else base.progress;
    t.Put(name, base.(status := status, progress := p));
  }

  /** The fixed work items of `demo_provision_with_progress_table`. */
  function DemoConfigs(): seq<Node>
  {
    [ DemoConfig("test01", "192.168.1.101", "192.168.2.101"),
      DemoConfig("test02", "192.168.1.102", "192.168.2.102"),
      DemoConfig("test03", "192.168.1.103", "192.168.2.103") ]
  }

  function DemoConfig(name: string, ip1: string, ip2: string): Node
  {
    Node(Some(name), Some(LocalHostname(name)), Some(DictIps([("net1", ip1), ("net2", ip2)])))
  }

  /** The demo table holds the three demo VMs and nothing else. */
  lemma DemoKeys()
    ensures Entries(DemoConfigs(), 3).Keys == {"test01", "test02", "test03"}
  {
    var configs := DemoConfigs();
    assert Entries(configs, 1).Keys == {"test01"};
    assert Entries(configs, 2).Keys == {"test01", "test02"};
  }

  /** An entry once its VM has run to the end: success at 100, everything else kept. */
  function Finished(e: Entry): Entry
  {
    e.(status := "success", progress := 100)
  }

  /** Every entry of a table finished, under the same names. */
  function AllFinished(m: map<string, Entry>): (r: map<string, Entry>)
    ensures r.Keys == m.Keys
  {
    map key | key in m :: Finished(m[key])
  }

  /** One demo VM's run: 0, 25, 50 and 75 percent provisioning, then success at 100. */
  method ProvisionDemoVm(name: string, t: StatusTable)
    requires t.Valid() && name in t.entries
    modifies t
    ensures t.Valid() && t.order == old(t.order)
    ensures t.entries == old(t.entries)[name := Finished(old(t.entries)[name])]
  {
    Step(name, "provisioning", 0, t);
    Step(name, "provisioning", 25, t);
    Step(name, "provisioning", 50, t);
    Step(name, "provisioning", 75, t);
    Step(name, "success", 100, t);
  }

  /** `update_vm_status` on a VM the table already has. */
  method Step(name: string, status: string, progress: int, t: StatusTable)
    requires t.Valid() && name in t.entries
    modifies t
    ensures t.Valid() && t.order == old(t.order)
    ensures t.entries == old(t.entries)[name := old(t.entries)[name].(status := status, progress := progress)]
  {
    UpdateVmStatus(name, status, Some(progress), t);
  }

  /**
   * The demo's loop over the table's VMs: each one runs to success at 100,
   * and keeps its name, hostname and IPs; the key order is kept.
   */
  method ProvisionAll(t: StatusTable)
    requires t.Valid()
    modifies t
    ensures t.Valid() && t.order == old(t.order)
    ensures t.entries == AllFinished(old(t.entries))
  {
    var names := t.order;
    for i := 0 to |names|
      invariant t.Valid() && t.order == names && t.entries.Keys == old(t.entries).Keys
      invariant forall key :: key in t.entries ==>
        t.entries[key] == if key in names[..i] then Finished(old(t.entries)[key]) else old(t.entries)[key]
    {
      assert names[i] !in names[..i];
      assert names[..i + 1] == names[..i] + [names[i]];
      ProvisionDemoVm(names[i], t);
    }
    assert names[..|names|] == names;
  }

  /** A demo VM's entry at the end of the run. */
  function DemoEntry(name: string, ip1: string, ip2: string): Entry
  {
    Entry(name, name + ".local", DictIps([("net1", ip1), ("net2", ip2)]), ip1 + ", " + ip2, "success", 100)
  }

  /** The finished demo table, written out: host names `test0k.local` and both addresses shown. */
  function DemoFinal(): map<string, Entry>
  {
    map[
      "test01" := DemoEntry("test01", "192.168.1.101", "192.168.2.101"),
      "test02" := DemoEntry("test02", "192.168.1.102", "192.168.2.102"),
      "test03" := DemoEntry("test03", "192.168.1.103", "192.168.2.103")]
  }

  /** A demo work item's initial entry, finished, is its `DemoEntry`. */
  lemma DemoConfigFinished(name: string, ip1: string, ip2: string)
    requires ip1 != "" && ip2 != ""
    ensures Finished(InitialEntry(DemoConfig(name, ip1, ip2))) == DemoEntry(name, ip1, ip2)
  {
    var d := [("net1", ip1), ("net2", ip2)];
    NonEmptyValuesSnoc([("net1", ip1)], "net2", ip2);
    NonEmptyValuesSnoc([], "net1", ip1);
    assert [] + [("net1", ip1)] == [("net1", ip1)];
    assert [("net1", ip1)] + [("net2", ip2)] == d;
    assert NonEmptyValues(d) == [ip1, ip2];
    assert Join(", ", [ip1, ip2]) == ip1 + ", " + ip2;
  }

  /** Running every VM of the new demo table gives `DemoFinal`, in the order test01, test02, test03. */
  lemma DemoTableFinal()
    ensures AllFinished(Entries(DemoConfigs(), 3)) == DemoFinal()
    ensures Order(DemoConfigs(), 3) == ["test01", "test02", "test03"]
  {
    var configs := DemoConfigs();
    DemoConfigFinished("test01", "192.168.1.101", "192.168.2.101");
    DemoConfigFinished("test02", "192.168.1.102", "192.168.2.102");
    DemoConfigFinished("test03", "192.168.1.103", "192.168.2.103");
    DemoKeys();
    assert Entries(configs, 3) == map[
      "test01" := InitialEntry(configs[0]), "test02" := InitialEntry(configs[1]), "test03" := InitialEntry(configs[2])];
  }

  /**
   * `demo_provision_with_progress_table`: every VM goes through 0, 25, 50 and
   * 75 percent and ends a success at 100; the table returned holds test01,
   * test02 and test03 in that order, each with its `.local` host name and
   * its two addresses.
   */
  method DemoProvisionWithProgressTable() returns (t: StatusTable)
    ensures t.Valid()
    ensures t.entries == DemoFinal() && t.order == ["test01", "test02", "test03"]
  {
    t := CreateVmStatusData(DemoConfigs());
    DemoTableFinal();
    ProvisionAll(t);
  }

  /** The table change one parsed log line leads to: its update, or none. */
  function ApplyUpdate(entries: map<string, Entry>, u: Option<StatusUpdate>): map<string, Entry>
  {
    match u
    case Some(v) => Updated(entries, v.name, v.status, v.progress)
    case None => entries
  }

  /** The table after a run of parsed lines, applied in order. */
  function ApplyUpdates(entries: map<string, Entry>, us: seq<Option<StatusUpdate>>): map<string, Entry>
  {
    if us == [] then entries
    else ApplyUpdate(ApplyUpdates(entries, us[..|us| - 1]), us[|us| - 1])
  }

  /** What the parser makes of each line. */
  function LogUpdates(lines: seq<string>): (us: seq<Option<StatusUpdate>>)
    ensures |us| == |lines| && forall i :: 0 <= i < |lines| ==> us[i] == ParseLogMessage(lines[i])
  {
    MapSeq(ParseLogMessage, lines)
  }

  /** `f` applied to each element. */
  function MapSeq<A, B>(f: A -> B, s: seq<A>): (r: seq<B>)
    ensures |r| == |s| && forall i :: 0 <= i < |s| ==> r[i] == f(s[i])
  {
    seq(|s|, i requires 0 <= i < |s| => f(s[i]))
  }

  lemma MapSeqAppend<A, B>(f: A -> B, a: seq<A>, b: seq<A>)
    ensures MapSeq(f, a + b) == MapSeq(f, a) + MapSeq(f, b)
  {
    assert forall i :: 0 <= i < |a| ==> (a + b)[i] == a[i];
    assert forall i :: |a| <= i < |a + b| ==> (a + b)[i] == b[i - |a|];
  }

  /** The table after a run of log lines, each parsed and applied in order. */
  function ApplyLog(entries: map<string, Entry>, lines: seq<string>): map<string, Entry>
  {
    ApplyUpdates(entries, LogUpdates(lines))
  }

  lemma LogUpdatesAppend(a: seq<string>, b: seq<string>)
    ensures LogUpdates(a + b) == LogUpdates(a) + LogUpdates(b)
  {
    MapSeqAppend(ParseLogMessage, a, b);
  }

  /** Applying updates never removes a VM from the table. */
  lemma {:induction false} ApplyUpdatesKeepsKeys(entries: map<string, Entry>, us: seq<Option<StatusUpdate>>)
    ensures entries.Keys <= ApplyUpdates(entries, us).Keys
  {
    if us != [] {
      ApplyUpdatesKeepsKeys(entries, us[..|us| - 1]);
    }
  }

  /** Applying two runs of updates is applying the first, then the second. */
  lemma {:induction false} ApplyUpdatesAppend(entries: map<string, Entry>, a: seq<Option<StatusUpdate>>, b: seq<Option<StatusUpdate>>)
    ensures ApplyUpdates(entries, a + b) == ApplyUpdates(ApplyUpdates(entries, a), b)
  {
    if b != [] {
      ApplyUpdatesAppend(entries, a, b[..|b| - 1]);
      assert (a + b)[..|a + b| - 1] == a + b[..|b| - 1];
    } else {
      assert a + b == a;
    }
  }

  /** Reading two runs of lines is reading the first, then the second. */
  lemma ApplyLogAppend(entries: map<string, Entry>, a: seq<string>, b: seq<string>)
    ensures ApplyLog(entries, a + b) == ApplyLog(ApplyLog(entries, a), b)
  {
    LogUpdatesAppend(a, b);
    ApplyUpdatesAppend(entries, LogUpdates(a), LogUpdates(b));
  }

  /** Every update is about `name`. */
  predicate AllAbout(us: seq<Option<StatusUpdate>>, name: string)
  {
    forall i :: 0 <= i < |us| ==> us[i].Some? ==> us[i].value.name == name
  }

  /** Updates about one VM leave every other VM's row as it was. */
  lemma {:induction false} UpdatesTouchOnly(entries: map<string, Entry>, us: seq<Option<StatusUpdate>>, name: string, other: string)
    requires AllAbout(us, name) && other != name
    ensures other in ApplyUpdates(entries, us) <==> other in entries
    ensures other in entries ==> ApplyUpdates(entries, us)[other] == entries[other]
  {
    if us != [] {
      var init := us[..|us| - 1];
      assert forall i :: 0 <= i < |init| ==> init[i] == us[i];
      UpdatesTouchOnly(entries, init, name, other);
      var u := us[|us| - 1];
      if u.Some? {
        UpdateLeavesOthers(ApplyUpdates(entries, init), u.value.name, u.value.status, u.value.progress, other);
      }
    }
  }

  /**
   * Whatever came before, once the lines a successful clone prints are read,
   * that VM's row shows success at 100%.
   */
  lemma SucceededVmEndsReady(entries: map<string, Entry>, before: seq<string>, name: string)
    requires entries != map[] && name != [] && NoSpace(name)
    ensures var e := ApplyLog(entries, before + MonitorLines(name, Submitted(TaskSucceeded)));
      name in e && e[name].status == "success" && e[name].progress == 100
  {
    var lines := before + MonitorLines(name, Submitted(TaskSucceeded));
    var us := LogUpdates(lines);
    assert |lines| > 0 && lines[|lines| - 1] == ReadyLine(name);
    assert us[|us| - 1] == Some(StatusUpdate(name, "success", Some(100))) by {
      ReadyLineParses(name);
    }
    var prev := ApplyUpdates(entries, us[..|us| - 1]);
    assert prev != map[] by {
      ApplyUpdatesKeepsKeys(entries, us[..|us| - 1]);
      var k :| k in entries;
    }
    assert ApplyLog(entries, lines) == Updated(prev, name, "success", Some(100));
    UpdateSetsEntry(prev, name, "success", Some(100));
  }
}
