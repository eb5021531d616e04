# VM batch provisioning: planning and bookkeeping, in Dafny

This project models the deterministic core of a small vCenter provisioning web tool. The tool takes a batch request, either "bulk" or "individual":

- A bulk request has a name prefix, a count and up to nine per-NIC base addresses.
- An individual request is an explicit list of nodes.

From the request the tool:

1. validates the form;
2. derives the list of VMs to build, with names, host names and nine IP slots each;
3. resolves the vCenter objects it needs, under a timeout;
4. submits one clone per VM, with a guest customization spec;
5. waits for each clone task in turn, counting successes and failures;
6. reports a summary.

The tool also has two simulation paths, which write the same kind of progress log without vCenter:

- `mock_provision_vms` in app.py;
- `provision_vms_demo_mode` in vm_provision.py.

A reference module keeps a per-VM status table that is updated in place. It includes a first-match parser that turns those progress lines back into `(vm, status, progress)` updates.

## Modules

Each module lives in its own `.dfy` file.

- `Wrappers`: `Option` and `Result`.
- `Text`:
  - Python's `str(n)`, `{n:02d}`, `str.split`, `str.join`, `strip` and ASCII `lower`;
  - substring search;
  - decimal digit strings.
- `Dicts`: an insertion-ordered `str -> str` dictionary, as a sequence of pairs.
- `IpAddress`: the `increment_ip` carry loop (a method over four octets), with dotted-quad parsing and formatting.
- `Validation`:
  - `validate_ip`, `validate_hostname`, `mock_get_nic_count`;
  - the form block of `provision()`, which builds `ip_map` in a loop.
- `WorkItems`: the `vm_configs` derivation, in bulk and individual mode.
- `Customization`: `build_customization_spec_from_template` and `build_customization_spec`.
- `Provision`: `provision_vms`:
  - the resolve phase;
  - the submission loop;
  - the monitor loop;
  - the summary string.
- `MockProvision`: `mock_provision_vms` and its `VM{k}: {json}` lines.
- `DemoMode`: `provision_vms_demo_mode`:
  - the plan;
  - the per-VM log;
  - shaping of the returned records.
- `ProgressTable`:
  - the status table, as class `StatusTable` whose `entries` map and key `order` the methods update in place;
  - `create_vm_status_data`, `update_vm_status`, `demo_provision_with_progress_table`;
  - the effect of a whole log on a table.
- `LogParser`: `parse_log_message_for_vm_updates`.
  - It is a small regex matcher: literals plus greedy runs of `\d+` or `[^\s]+`, with backtracking.
  - It uses `re.search` semantics (the match may start anywhere), and patterns are tried in list order.

How the outside world is modelled:

- vCenter is an `Inventory` of maps: templates, and datacenters holding clusters, networks and datastores. A connection error is an optional message.
- Each clone submission is an outcome oracle `Backend`, indexed by the config's position. The outcome is one of:
  - submission raised;
  - the clone task succeeded;
  - the clone task failed, with no error object, or an error object with or without a `localizedMessage`;
  - monitoring raised.
- The clock is an oracle in tenths of a second, with one reading per timeout checkpoint and one final reading.
- The logger is the sequence of lines a method returns.

## Model

| member | source | states |
|---|---|---|
| Text.Show | vm_provision.py:607 | `str(n)` gives a canonical digit string (no leading zero) whose value is `n` |
| Text.ShowOfDigitsValue | vm_provision.py:601-607 | printing the value of a canonical digit string gives the string back (`str(int(f)) == f`) |
| Text.Pad2 | vm_provision.py:613 | `{n:02d}` is at least two digits, has value `n`, and equals `str(n)` from 10 up |
| Text.Pad2Injective | vm_provision.py:613 | distinct indices give distinct padded suffixes |
| Text.Join | vm_provision.py:607 | joining no parts gives the empty string |
| Text.Split | vm_provision.py:601 | `split('.')` returns at least one field, and no field contains the separator |
| Text.JoinSplit | vm_provision.py:601-607 | joining the fields of a split with the separator rebuilds the string |
| Text.SplitJoin | vm_provision.py:601-607 | splitting a join of separator-free parts gives the parts back |
| Text.Lower | vm_provision.py:665 | `lower()` keeps the length and lowers each character |
| Text.Strip | app.py:963-966 | the result of `strip()` neither starts nor ends with whitespace |
| Text.StripMeaning | app.py:963-966 | the result of `strip()` is a slice of the input with only whitespace outside it: exactly the leading and trailing whitespace is removed |
| Text.StripLeftMeaning | app.py:963-966 | the left strip keeps the suffix after the leading whitespace, and everything it drops is whitespace |
| Text.StripRightMeaning | app.py:963-966 | everything the right strip drops is whitespace |
| Dicts.Get | vm_provision.py:593 | `dict.get` is None exactly when no entry has the key; otherwise it returns a stored value, and the stored value whenever keys are distinct |
| Dicts.NonEmptyValues | progress_table_ref.py:26 | the kept values are all non-empty; a string is kept iff it is a non-empty value of the dict; there are none exactly when every value is empty |
| Dicts.NonEmptyValuesAppend | progress_table_ref.py:26 | the values kept from `a + b` are those of `a`, then those of `b`: the comprehension keeps dict order |
| Dicts.NonEmptyValuesSnoc | progress_table_ref.py:26 | adding a pair last adds its value last exactly when the value is non-empty |
| Dicts.Put | app.py:1008 | assignment appends a new key at the end, and the key then maps to the new value |
| IpAddress.CarryAt | vm_provision.py:604-606 | one carry step keeps the 256-radix value, touches only octets i and i-1, and never lowers octet 0 |
| IpAddress.CarryDown | vm_provision.py:603-606 | the carry walk from octet 3 down to 1 keeps the value and non-negativity |
| IpAddress.IncrementValue | vm_provision.py:600-607 | adding n then carrying raises o0·256³+o1·256²+o2·256+o3 by exactly n, and octet 0 is never wrapped |
| IpAddress.IncrementZero | vm_provision.py:600-607 | adding 0 to in-range octets leaves them unchanged |
| IpAddress.IncrementBounds | vm_provision.py:600-607 | for in-range octets and n ≤ 256, octets 1-3 of the result stay in 0..255 and octet 0 grows by at most one |
| IpAddress.LargeOffsetCarriesOnce | vm_provision.py:602-606 | with n = 600 the last octet loses 256 only once, giving 10.0.1.344 from 10.0.0.0 |
| IpAddress.IncrementOctets | vm_provision.py:601-606 | the in-place loop over `parts` computes exactly the add-then-carry octets |
| IpAddress.ParseOctets | vm_provision.py:601 | `map(int, ip.split('.'))` of a valid dotted quad gives octets in 0..255 |
| IpAddress.IncrementIp | vm_provision.py:600-607 | `increment_ip` returns the formatted incremented address |
| IpAddress.FormatParse | vm_provision.py:601-607 | formatting in-range octets gives a dotted quad that parses back to them |
| IpAddress.ParseFormat | vm_provision.py:601-607 | a dotted quad without leading zeros formats back to itself |
| IpAddress.IncrementedZero | vm_provision.py:600-607 | `increment_ip(ip, 0)` returns `ip` when no field has a leading zero |
| IpAddress.IncrementedZeroDropsLeadingZeros | vm_provision.py:600-607 | `increment_ip("10.0.0.07", 0)` returns "10.0.0.7", not its input |
| IpAddress.IncrementedIsValid | vm_provision.py:600-607 | for n ≤ 256 and no overflow past octet 0, the result is a valid dotted quad whose value is the base's plus n |
| Validation.OctetPatternIsOctetField | app.py:120 | the octet alternation `25[0-5]\|2[0-4][0-9]\|[01]?[0-9][0-9]?` accepts exactly 1-3 digits with value ≤ 255 |
| Validation.IpBodyIsDottedQuad | app.py:120 | the pattern body matches exactly four dot-separated octet fields |
| Validation.ValidateIp | app.py:118-121 | `validate_ip` accepts exactly a dotted quad, or a dotted quad followed by one newline |
| Validation.ValidateIpStrict | app.py:118-121 | the corrected check accepts exactly the dotted quads |
| Validation.ValidateIpAcceptsTrailingNewline | app.py:120-121 | a dotted quad plus "\n" passes `validate_ip` but not the corrected check |
| Validation.ValidateIpOnStripped | app.py:1004-1006 | on stripped input, as the form passes it, the two checks agree |
| Validation.LabelPatternIsLabel | app.py:126 | the label pattern accepts exactly 1-63 letters, digits or hyphens that neither start nor end with a hyphen |
| Validation.HostBodyIsHostname | app.py:126 | the pattern body matches exactly one or more dot-separated labels |
| Validation.ValidateHostname | app.py:124-127 | `validate_hostname` accepts exactly a host name, or a host name followed by one newline |
| Validation.ValidateHostnameStrict | app.py:124-127 | the corrected check accepts exactly the host names |
| Validation.ValidateHostnameAcceptsTrailingNewline | app.py:126-127 | a host name plus "\n" passes `validate_hostname` but not the corrected check |
| Validation.DottedQuadIsHostname | app.py:120-127 | every dotted quad is also a valid host name |
| Validation.HostCheckIsHostnameCheck | app.py:118-127 | "host name or IP" accepts the same strings as "host name" |
| Validation.MockNicCount | app.py:159-170 | the NIC count is in 1..3; it is 1 exactly for "Ubuntu" without "Windows", 3 exactly for "Database" without either, and 2 otherwise (the first test wins) |
| Validation.ParseInt | app.py:993 | `int(text)` succeeds exactly for optional surrounding whitespace, an optional sign and at least one digit |
| Validation.ParseIntShow | app.py:993 | `int()` reads back any printed count, positive or negated |
| Validation.IpValues | app.py:1003-1004 | the nine stripped `ip1..ip9` fields, in order |
| Validation.EntryNic | app.py:1003-1008 | each `ip_map` entry comes from a non-empty field k, with key `net{k}` |
| Validation.IpEntriesGet | app.py:1003-1008 | `ip_map` maps `net{k}` to field k exactly when that field is non-empty |
| Validation.IpEntriesStep | app.py:1003-1008 | one loop step puts `net{i}` for a non-empty field and skips an empty one; the fields so far are valid iff the earlier ones are and field i is empty or a dotted quad |
| Validation.CollectIps | app.py:1003-1008 | the loop succeeds iff every non-empty field is a valid address and then returns the `ip_map` above; on failure it names the first bad NIC |
| Validation.ValidateIndividual | app.py:973-1012 | individual mode fails with "data is missing" iff the nodes field is empty, fails when the first node's `ips` is not a mapping, and fails when a resource is missing; otherwise prefix `individual-vm`, count = number of nodes, `ip_map` = the first node's `ips` |
| Validation.FirstBadUnique | app.py:1003-1007 | the first invalid NIC reported is unique |
| Validation.BulkHeader | app.py:992-1002 | bulk checks in source order: count not an integer, empty prefix, count outside 1..50, prefix outside `[A-Za-z0-9_-]`; success iff none applies |
| Validation.ValidateBulk | app.py:992-1012 | each bulk error holds exactly when the earlier checks pass and its own fails; on success the request carries the stripped prefix, count, host name prefix and the `ip_map` of the valid fields |
| Validation.ValidateForm | app.py:963-1012 | the form is accepted iff the chosen mode's checks pass, and an accepted request has a non-empty prefix |
| WorkItems.NicKeyInjective | vm_provision.py:593 | distinct NIC numbers give distinct `net{k}` keys |
| WorkItems.Slot | vm_provision.py:593-594 | a slot holds a value exactly when `net{k}` is present and non-empty |
| WorkItems.Slots | vm_provision.py:592-594 | nine slots, slot k-1 being slot `net{k}` |
| WorkItems.IndividualConfigMeaning | vm_provision.py:587-595 | a node gives its own name, or `vm` plus the two-digit index when the name is missing or empty; its host name, or the name; and nine slots from `net1..net9`, empty values as None |
| WorkItems.ReadSlots | vm_provision.py:591-594 | the slot loop computes the nine slots |
| WorkItems.NodeConfig | vm_provision.py:588-595 | the per-node loop body builds the node's config |
| WorkItems.IndividualConfigs | vm_provision.py:584-596 | one config per node in input order; fails iff some node's `ips` is not a mapping |
| WorkItems.BulkConfig | vm_provision.py:612-621 | every bulk config has nine IP slots |
| WorkItems.AdvanceBase | vm_provision.py:616-620 | a set base gives `increment_ip(base, i)`, an unset one None |
| WorkItems.AdvanceAll | vm_provision.py:616-620 | the slot loop advances every base by i |
| WorkItems.BulkConfigAt | vm_provision.py:613-621 | the loop body builds config i |
| WorkItems.BulkConfigs | vm_provision.py:608-621 | bulk mode yields exactly `count` configs (none when count ≤ 0), config i being the i-th bulk config |
| WorkItems.BulkNames | vm_provision.py:613-614 | config i is named prefix + two-digit i+1, its host name equals its name, and names are distinct |
| WorkItems.BulkSlotMeaning | vm_provision.py:609-620 | slot k is None iff `net{k}` is unset; when set it is the base advanced by i, a valid address whose value is the base's plus i |
| WorkItems.AdvancedMeaning | vm_provision.py:616-620 | an advanced slot is None iff its base is, and otherwise has the base's value plus i |
| WorkItems.PlannedConfigs | vm_provision.py:584-621 | a non-empty node list uses individual mode, and an empty one bulk mode with `count` configs |
| WorkItems.DeriveConfigs | vm_provision.py:584-621 | the mode switch computes the planned configs |
| WorkItems.JoinedOrDhcp | vm_provision.py:441-442 | "DHCP" when no value is non-empty; otherwise the non-empty values joined by ", " |
| WorkItems.FirstItemsRaise | app.py:224-225 | the first node whose `ips` is truthy but not a mapping, so that `ips.items()` raises; no node before it does |
| Customization.OsTypeOf | vm_provision.py:665 | the OS tag is "windows" iff "win" occurs in the lower-cased template name, else "linux" |
| Customization.IdentityFor | vm_provision.py:883-902 | Sysprep (Administrator, Organization, no auto-logon, count 1, zone 190) iff the tag is "windows"; otherwise LinuxPrep with the host name and domain |
| Customization.WindowsTemplateGetsSysprep | vm_provision.py:883-897 | a template named with "Windows" gets a Sysprep identity |
| Customization.EthernetNetworks | vm_provision.py:826-838 | at most one entry per device, and one per device when all are Ethernet cards |
| Customization.EthernetNetworksMeaning | vm_provision.py:826-838 | one entry per Ethernet card, and no others (the count is `CountEthernet`); card i sits at the position given by the number of cards before it and holds its backing network, so the order is device order |
| Customization.CollectTemplateNics | vm_provision.py:826-838 | the device loop collects the template's Ethernet NICs and their networks |
| Customization.TemplateNicSetting | vm_provision.py:847-879 | FixedIp iff the IP is truthy. A backed NIC takes mask and gateway from its network's IP pool when present. An unbacked one takes mask 255.255.255.0. DHCP has no mask |
| Customization.TemplateSpec | vm_provision.py:815-910 | min(#template NICs, #IPs) mappings in `zip` order, no DNS list, identity from the tag and `localdomain` |
| Customization.BuildFromTemplate | vm_provision.py:815-910 | the NIC loop builds the template-based spec |
| Customization.PlainNicSetting | vm_provision.py:926-936 | FixedIp with the given netmask and gateway-or-`[]` iff the IP is truthy, else DHCP |
| Customization.PlainSpec | vm_provision.py:913-961 | exactly one mapping per IP, the given DNS list and the identity |
| Customization.BuildSpec | vm_provision.py:913-961 | the loop builds the plain spec |
| Customization.UnbackedTemplateMatchesPlain | vm_provision.py:869-879 | for a template with no backed NIC, the template-based spec equals the plain spec with default mask and no gateway on the zipped IPs |
| Provision.Resolve | vm_provision.py:486-578 | resolution succeeds iff connected, every object found, no checkpoint past the timeout, and the cluster has a datastore; the first datastore is used; a connection error is reported as such |
| Provision.MissingTemplateReportedFirst | vm_provision.py:518-525 | after a timely connection, a missing template is reported by name before anything else |
| Provision.FirstFailed | vm_provision.py:486-578 | None iff no check fails; otherwise the error of a failing check with none failing before it |
| Provision.ResolveReportsFirstFailedCheck | vm_provision.py:486-578 | resolution fails exactly when one of its eleven checks fails (connection, its timeout, template, its timeout, datacenter, its timeout, cluster, its timeout, network, the discovery timeout, no datastore, in that order), with the error of the first that does |
| Provision.MissingDatacenterReported | vm_provision.py:518-536 | connected and template found in time, a missing datacenter is reported by name |
| Provision.ResolveIgnoresLaterTime | vm_provision.py:481-578 | the outcome of resolution depends only on readings up to discovery |
| Provision.ResolveTimeoutMonotone | vm_provision.py:505-567 | a resolution that succeeds under a timeout also succeeds under a larger one |
| Provision.NoTimeoutAfterResolve | vm_provision.py:581-763 | once resolution has succeeded, later time cannot make it fail: no timeout check follows |
| Provision.CallFor | vm_provision.py:658-672 | each clone call carries the VM name and the first datastore, powers on, and has the OS identity for the host name and the zipped NIC count |
| Provision.CloneCalls | vm_provision.py:626-672 | one call per config, in order, with the config's name |
| Provision.CloneCallsMeaning | vm_provision.py:626-672 | call i is the call for config i |
| Provision.SubmittedIdx | vm_provision.py:670-688 | the submitted tasks are a subset of the configs |
| Provision.SubmittedIdxMeaning | vm_provision.py:670-688 | the tasks are exactly the configs whose submission did not raise, in submission order |
| Provision.CountsPartition | vm_provision.py:692-750 | each awaited task counts exactly once as success or failure |
| Provision.CountsBounded | vm_provision.py:690-760 | success + failed = number of submitted tasks ≤ number of configs |
| Provision.ErrorText | vm_provision.py:743-745 | no error object gives "Unknown error"; an error object without `localizedMessage` gives "None"; otherwise the message |
| Provision.UnknownErrorOnlyWithoutError | vm_provision.py:743-745 | "Unknown error" is reported only when there is no error object, or when the message is that very text |
| Provision.SubmitOne | vm_provision.py:632-688 | one submission builds the VM's clone call and logs start, progress 25-100 or the failure |
| Provision.SubmitAll | vm_provision.py:626-688 | the loop submits every config, skips the ones that raise, and records submitted tasks, calls and log |
| Provision.MonitorAll | vm_provision.py:690-750 | the loop over the tasks in submission order returns the success and failure counts and the monitor log |
| Provision.ProvisionVms | vm_provision.py:457-768 | a resolve or derivation failure gives "Provisioning failed after" with no clone call and that one line; otherwise every config is submitted, the log is the submission lines, the monitor lines and the summary with the success, failure and requested counts and the total time, and the message reports successes / configs |
| MockProvision.MockIpsText | app.py:239-243 | "-" unless `ips` is a non-empty mapping; then the non-empty values joined by ", ", or "DHCP" |
| MockProvision.MockIpsAgreeWithTable | app.py:285-289 | wherever the mock shows something other than "-", it agrees with the status table's display |
| MockProvision.MockVmAt | app.py:245-250 | every record has status "success" |
| MockProvision.MockVms | app.py:198-301 | exactly n records |
| MockProvision.MockVmsAt | app.py:204-297 | record i is the record for node or index i+1, with status "success" |
| MockProvision.IndividualDefaults | app.py:207-208 | the name defaults to prefix plus the two-digit index and the host name to the name; present values are used as given |
| MockProvision.BulkMockNames | app.py:258-260 | bulk names are prefix + NN and distinct; the host name is `hostname_prefix`+NN when given, else the name |
| MockProvision.HexRoundTrip | app.py:254 | a `\u00XX` escape decodes to its code |
| MockProvision.JsonRoundTrip | app.py:254-255 | decoding the JSON escape of a string gives the string back |
| MockProvision.Block | app.py:210-255 | nine status lines per VM |
| MockProvision.BlockLayout | app.py:210-255 | a VM's block opens with its start line, then progress 25, 50, 75, 100, then the ready line and `VM{k}: {json}` |
| MockProvision.MockLog | app.py:204-301 | the log has nine lines per VM |
| MockProvision.MockLogLayout | app.py:204-301 | VM j's block sits at lines 9j..9j+8 with position j+1 |
| MockProvision.EmitVm | app.py:251-255 | appending a record extends the log by its block |
| MockProvision.IndividualRun | app.py:206-255 | the node loop logs each node's block and record, and stops at the first node whose `ips` is truthy but not a mapping, after that node's start, progress and cloned lines |
| MockProvision.BulkRun | app.py:256-301 | the bulk loop logs one block and record per index 1..count |
| MockProvision.FailedBlock | app.py:210-225 | the stopped VM's lines run from its start line to its cloned line |
| MockProvision.MockProvisionVms | app.py:173-305 | one record per node or per index 1..count in order, message "DEMO: Provisioned n VMs successfully!", the block log and the closing line; in individual mode a node whose `ips` is truthy but not a mapping fails the run after the earlier blocks and its own first lines |
| DemoMode.BulkDemoVms | vm_provision.py:324-358 | exactly n planned VMs |
| DemoMode.TabulateAt | vm_provision.py:325-358 | planned VM i is built from index i+1 |
| DemoMode.BulkDemoVmMeaning | vm_provision.py:325-357 | name prefix+NN, distinct; host name `hostname_prefix`+NN or name + ".local"; IPs the `ip_map`, or 2 (3 for centos-8-template) generated addresses 192.168.k.(100+i) |
| DemoMode.BulkPlanSize | vm_provision.py:322-359 | bulk demo plans `count` VMs (none when count ≤ 0) |
| DemoMode.PlanBulk | vm_provision.py:324-358 | the loop builds the bulk plan |
| DemoMode.PlanDemo | vm_provision.py:315-359 | individual when nodes are given, else bulk; the total is the plan's size |
| DemoMode.ShapedIps | vm_provision.py:435-444 | a mapping becomes its joined non-empty values or "DHCP", a missing `ips` becomes "DHCP", other values stay |
| DemoMode.ShapedMatchesTable | vm_provision.py:439-444 | the shaped IPs equal the status table's display for the same node |
| DemoMode.FirstDemoStop | vm_provision.py:365-383 | the first VM without a name or with a truthy non-mapping `ips`; every VM before it has a name and a usable `ips` |
| DemoMode.NamedBeforeStop | vm_provision.py:365-366 | every VM before the first stop has a name |
| DemoMode.PrintStatusLines | vm_provision.py:365-426 | the log loop emits each VM's lines and stops at the first stop: before any line of a VM with no name (`vm_data['name']` raises), after the start line of one whose `ips` is truthy but not a mapping |
| DemoMode.ShapeRecords | vm_provision.py:435-444 | every record gets status success, progress 100 and shaped IPs |
| DemoMode.ProvisionVmsDemoMode | vm_provision.py:249-454 | succeeds iff no planned VM stops the loop, with the summary message, the shaped records, and the log of every VM plus the closing summary; otherwise fails with `'name'` or the `items` error after the earlier VMs' lines and the stopping VM's own |
| DemoMode.VmLineParses | vm_provision.py:370-425 | each status line of a VM parses back to that VM |
| DemoMode.VmLinesParse | vm_provision.py:370-425 | a VM's lines parse to provisioning at 0, 25, 50, 75, 100, then success at 100 |
| DemoMode.DemoLogParse | vm_provision.py:365-426 | the whole demo log parses to the VMs' updates in order |
| DemoMode.VmUpdatesEffect | vm_provision.py:370-425 | a VM's updates leave it done and other entries unchanged |
| DemoMode.DemoUpdatesEndSuccess | vm_provision.py:365-426 | after all updates every VM of the plan is done |
| DemoMode.DemoLogEndsSuccess | vm_provision.py:365-426 | feeding the demo log through the parser into a non-empty table leaves every VM at success and 100 |
| ProgressTable.IpsDisplay | progress_table_ref.py:22-33 | non-empty result: the non-empty values of a mapping joined by ", " or "DHCP", a non-empty string itself, "DHCP" otherwise |
| ProgressTable.Entries | progress_table_ref.py:8-20 | the table's keys are exactly the configs' names |
| ProgressTable.EntriesPending | progress_table_ref.py:14-19 | every entry carries its own name, status "pending" and progress 0 |
| ProgressTable.EntriesKeys | progress_table_ref.py:10-14 | a name is a key iff some config has it, missing names counting as "unknown" |
| ProgressTable.NamesMeaning | progress_table_ref.py:10-14 | the same, for the name set |
| ProgressTable.LastConfigWins | progress_table_ref.py:10-20 | a later config with the same name overwrites the earlier entry |
| ProgressTable.OrderMatchesEntries | progress_table_ref.py:8-20 | the key order has no duplicates and lists exactly the table's keys |
| ProgressTable.UpdateLeavesOthers | progress_table_ref.py:45-61 | an update leaves every other entry unchanged |
| ProgressTable.UpdateSetsEntry | progress_table_ref.py:42-61 | an empty table stays empty; otherwise the entry exists, takes the status, and takes the progress only when one is given, a new name starting from the default entry |
| ProgressTable.UpdateIdempotent | progress_table_ref.py:42-61 | applying the same update twice equals applying it once |
| ProgressTable.StatusTable.Put | progress_table_ref.py:14 | storing an entry sets it and appends a new key to the order |
| ProgressTable.CreateVmStatusData | progress_table_ref.py:4-35 | the loop builds a fresh table with the entries and key order of the configs |
| ProgressTable.UpdateVmStatus | progress_table_ref.py:38-61 | in place: a null or empty table is left alone; otherwise entries become the updated map, with a new key appended to the order |
| ProgressTable.DemoKeys | progress_table_ref.py:171-178 | the demo table has keys test01, test02, test03 |
| ProgressTable.ProvisionDemoVm | progress_table_ref.py:184-201 | the five updates leave the VM's entry as it was but for success and 100, and every other entry and the key order unchanged |
| ProgressTable.ProvisionAll | progress_table_ref.py:183-202 | every entry becomes its old value with status success and progress 100; keys and order are kept |
| ProgressTable.DemoConfigFinished | progress_table_ref.py:171-202 | a demo VM's finished entry has host name `name.local`, its two addresses, display "ip1, ip2", success and 100 |
| ProgressTable.DemoTableFinal | progress_table_ref.py:166-209 | the finished demo table is test01..test03 with those entries, in that key order |
| ProgressTable.DemoProvisionWithProgressTable | progress_table_ref.py:166-209 | the returned table holds test01, test02, test03 in that order, each with host name `test0k.local`, IPs 192.168.1.10k and 192.168.2.10k shown as "192.168.1.10k, 192.168.2.10k", status success and progress 100 |
| ProgressTable.LogUpdates | progress_table_ref.py:123-163 | one parse result per log line |
| ProgressTable.ApplyUpdatesKeepsKeys | progress_table_ref.py:45-54 | applying updates never removes a key |
| ProgressTable.ApplyUpdatesAppend | progress_table_ref.py:38-61 | applying a concatenation applies the two parts in turn |
| ProgressTable.ApplyLogAppend | progress_table_ref.py:123-163 | the same, for log lines fed through the parser |
| ProgressTable.UpdatesTouchOnly | progress_table_ref.py:45-61 | updates for one name leave every other entry as it was |
| ProgressTable.SucceededVmEndsReady | vm_provision.py:713-737 | after a successful task's monitor lines are parsed into a non-empty table, the VM is at success and 100 |
| LogParser.RunLen | progress_table_ref.py:133-143 | a greedy run of `\d` or `[^\s]` is maximal: every character is in class and the next one is not |
| LogParser.MatchAtSound | progress_table_ref.py:147 | any match returns groups that fit the pattern and whose rendering is a prefix of the input there |
| LogParser.SearchFromNone | progress_table_ref.py:147 | the search fails iff no start position matches |
| LogParser.SearchFirst | progress_table_ref.py:147 | the search returns the leftmost match |
| LogParser.MatchRendered | progress_table_ref.py:147 | a pattern matches a rendering of groups that fit it, giving those groups back |
| LogParser.PatternGroups | progress_table_ref.py:131-144 | each pattern's groups: three for the start line (two digit strings and a name), one name for the four name patterns, digits and a name for progress |
| LogParser.Classify | progress_table_ref.py:149-161 | the name is non-empty and space-free; provisioning iff start or progress; success iff cloned, powered or ready; failed iff clone failed |
| LogParser.Find | progress_table_ref.py:147 | a match returns groups that fit the pattern |
| LogParser.ParseFrom | progress_table_ref.py:146-163 | the parse is None iff no remaining pattern matches; first match wins |
| LogParser.PatternsWellFormed | progress_table_ref.py:131-144 | the six patterns alternate literals and groups and end in a form the matcher handles |
| LogParser.StartLineParses | vm_provision.py:632 | the start line parses to (name, provisioning, 0) |
| LogParser.ProgressLineParses | vm_provision.py:677-683 | the progress line parses to (name, provisioning, pct) |
| LogParser.ClonedLineParses | vm_provision.py:713 | the cloned line parses to (name, success, 100) |
| LogParser.PoweredLineParses | vm_provision.py:734 | the powered-on line parses to (name, success, 100) |
| LogParser.ReadyLineParses | vm_provision.py:737 | the ready line parses to (name, success, 100) |
| LogParser.FailedLineParses | vm_provision.py:746 | a clone-failure line whose message has no other pattern's head parses to (name, failed, none) |
| LogParser.FailedLineParsesAnchored | vm_provision.py:746 | with anchored matching every clone-failure line parses to (name, failed, none) |
| LogParser.UnmarkedLineIgnored | progress_table_ref.py:163 | a line with none of the pattern heads gives no update |
| LogParser.FailedLineQuotingSuccessMisread | progress_table_ref.py:147 | a failure whose error text quotes another VM's cloned line is read as that VM's success; anchored matching reads the failure |
| LogParser.QuotedSuccessSearched | progress_table_ref.py:146-158 | the searching parser reports the quoted VM at success and 100 |

## Left out

- vCenter, pyVmomi, Flask, sessions, threads, queues and the SSE stream: not modelled. The inventory is a map and each clone outcome is an oracle. `find_*` lookups are map membership.
- Task polling (vm_provision.py:705-709): the wait loop is folded into the clone task's terminal outcome.
- `time.sleep`, `random.uniform` and float seconds: not modelled. The clock is an integer oracle in tenths of a second, so `{t:.1f}` is exact. Elapsed times in the connection and discovery log lines are not modelled.
- Decorative log lines: the model keeps the lines the status parser reads, the clone-failure and monitor-error lines, the summary of `provision_vms` (vm_provision.py:752-761), the demo summary (vm_provision.py:429-432) and the mock's closing line (app.py:303). It leaves out the header (📋, 🔌, 🔍, 📁, 👥, 📦) lines, the Hostname, Template, NIC and DHCP detail lines, the demo's validation chatter and estimate line, and the mock's DEBUG lines.
- Provision.ProvisionVms: on a failure the log holds only the final `❌ Provisioning failed after …` line. The resolve phase's own ❌, ⏰ and 💡 diagnostic lines before it (vm_provision.py:494-578) are not modelled; several of them print measured durations that the clock does not carry.
- `create_status_table_html`: HTML rendering, not modelled.
- `json.loads` of the individual node data: the decoded node list is a parameter of the form validation.
- Node fields other than name, hostname and ips are not kept. Non-string name or hostname values are not modelled.
- Validation.ParseInt: does not accept `int()`'s underscores or non-ASCII digits.
- Text.Lower: ASCII-only; Python's Unicode case mapping is not modelled.
- LogParser.ParseLogMessage: `\d` is read as an ASCII digit. Python's `\d` in a str pattern, and `int()` after it, accept every Unicode decimal digit.
- Validation.ErrorMessage: the count error quotes the text as `'t'`. Python writes it with `repr`, which differs when the text holds a quote or a backslash.
- Validation.ValidateIndividual: a first node whose `ips` is not a mapping fails with the fixed text "object has no attribute 'items'". Python's AttributeError text also names the value's type.
- MockProvision.MockProvisionVms: a node whose `ips` is truthy but not a mapping fails with the fixed text of `WorkItems.IpsHasNoItems`, not the AttributeError text naming the value's type.
- DemoMode.ProvisionVmsDemoMode: the same fixed text for a truthy non-mapping `ips`; a missing name fails with `'name'`, as `str` of the KeyError.
- MockProvision.JsonRoundTrip: the decoder handles only the escapes `json.dumps` produces here (`\"`, `\\`, `\n` and the like, and `\u00XX` for control characters).
- WorkItems.BulkConfig: requires every set bulk base to be a valid dotted quad. The source's `int()` would raise on other text, but the form block only lets valid addresses through.
- WorkItems.IndividualConfigs: a node whose `ips` is not a mapping fails with one fixed message. The source's AttributeError text is not modelled.
- IpAddress.IncrementBounds: the octet bounds are stated for n ≤ 256 only. For larger n the source carries once per octet, and octet 3 can stay above 255, as LargeOffsetCarriesOnce shows.
- LogParser.FailedLineParses: requires the error text to contain none of the other patterns' head characters. Otherwise the searching parser can pick another pattern, as the second finding shows.
- The status table is updated from log lines only through ProgressTable.ApplyLog. The source defines the parser but never feeds it a log. ApplyLog states what the parser and the update together would do.
- Demo mode's records: the source rewrites the caller's node dicts in place, so the caller's list is changed too. The model returns new records and does not model that aliasing.
- Validation.FirstBadUnique: its proof is by Dafny alone, with no steps of its own.
- config.py reads environment variables only and is not part of this model.

## Findings

| source | as written | input that shows it | evidently intended | confidence | as-written member | corrected member |
|---|---|---|---|---|---|---|
| app.py:118-127 | `re.match` with a trailing `$` also accepts a final newline | `validate_ip("10.0.0.1\n")` and `validate_hostname("host\n")` return True | accept only the address or host name itself (`\Z` or `re.fullmatch`) | not executed; high for the regex semantics; harmless where callers strip first | Validation.ValidateIpAcceptsTrailingNewline | Validation.ValidateIpStrict |
| progress_table_ref.py:146-158 | `re.search` finds a pattern anywhere in the line, so a clone-failure line whose error text quotes a success line is classified as success | `"❌ a clone failed: ✅ VM b cloned successfully"` gives (b, success, 100) | the failure line reports (a, failed, None): match each pattern at the start of the line | not executed; medium, since it needs a backend error that quotes such a line | LogParser.FailedLineQuotingSuccessMisread | LogParser.FailedLineParsesAnchored |
