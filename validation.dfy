/**
 * Input validation of the web front end (app.py): the dotted-quad and
 * host-name regular expressions, the mock NIC-count rule, and the checks of
 * the provisioning form that produce `prefix`, `count` and `ip_map`.
 *
 * A regular expression is modelled by the language it accepts under
 * `re.match`: the dots split the subject into fields, each field is matched
 * by the per-field alternation, and `$` matches at the end of the subject or
 * just before a newline that ends it.
 */
module Validation {
  import opened Wrappers
  import opened Text
  import opened Dicts
  import opened IpAddress
  import opened WorkItems

  /** Where Python's `$` can match besides the very end: before a final newline. */
  predicate EndsWithNewline(s: string)
  {
    |s| > 0 && s[|s| - 1] == '\n'
  }

  // ---------------------------------------------------------------------------
  // validate_ip

  /** The per-field alternation `25[0-5]|2[0-4][0-9]|[01]?[0-9][0-9]?`. */
  predicate OctetPattern(f: string)
  {
    || (|f| == 3 && f[0] == '2' && f[1] == '5' && '0' <= f[2] <= '5')
    || (|f| == 3 && f[0] == '2' && '0' <= f[1] <= '4' && IsDigit(f[2]))
    || (1 <= |f| <= 3 && AllDigits(f) && (|f| == 3 ==> f[0] == '0' || f[0] == '1'))
  }

  lemma DigitsValueThree(f: string)
    requires |f| == 3 && AllDigits(f)
    ensures DigitsValue(f) == 100 * DigitValue(f[0]) + 10 * DigitValue(f[1]) + DigitValue(f[2])
  {
    var a := f[..2];
    assert a[..1] == f[..1] && a[1] == f[1];
    assert DigitsValue(f[..1]) == DigitValue(f[0]) by { assert f[..1][..0] == []; }
    assert DigitsValue(a) == DigitsValue(f[..1]) * 10 + DigitValue(f[1]);
    assert DigitsValue(f) == DigitsValue(a) * 10 + DigitValue(f[2]);
  }

  lemma DigitsValueShort(f: string)
    requires |f| <= 2 && AllDigits(f)
    ensures DigitsValue(f) <= 99
  {
    if |f| == 2 {
      assert f[..1][..0] == [];
    } else if |f| == 1 {
      assert f[..0] == [];
    }
  }

  /** The alternation accepts exactly the one-to-three-digit fields worth at most 255. */
  lemma OctetPatternIsOctetField(f: string)
    ensures OctetPattern(f) <==> IsOctetField(f)
  {
    if 1 <= |f| <= 3 && AllDigits(f) {
      if |f| == 3 {
        DigitsValueThree(f);
      } else {
        DigitsValueShort(f);
      }
    }
  }

  /** The address pattern up to its `$`: `(?:OCTET\.){3}OCTET`. */
  predicate IpBody(t: string)
  {
    var fs := Split(t, '.');
    |fs| == 4 && forall i :: 0 <= i < 4 ==> OctetPattern(fs[i])
  }

  lemma IpBodyIsDottedQuad(t: string)
    ensures IpBody(t) <==> IsDottedQuad(t)
  {
    var fs := Split(t, '.');
    forall i | 0 <= i < |fs| ensures OctetPattern(fs[i]) <==> IsOctetField(fs[i]) {
      OctetPatternIsOctetField(fs[i]);
    }
  }

  /**
   * `validate_ip(ip)` as written: a dotted quad of one-to-three-digit fields
   * worth at most 255 (leading zeros allowed), or such a quad followed by one
   * newline, which `$` lets through.
   */
  function ValidateIp(ip: string): (ok: bool)
    ensures ok <==> IsDottedQuad(ip) || (EndsWithNewline(ip) && IsDottedQuad(ip[..|ip| - 1]))
  {
    IpBodyIsDottedQuad(ip);
    if EndsWithNewline(ip) then
      IpBodyIsDottedQuad(ip[..|ip| - 1]);
      IpBody(ip) || IpBody(ip[..|ip| - 1])
    else
      IpBody(ip)
  }

  /** The address check as evidently intended (a full match): exactly the dotted quads. */
  function ValidateIpStrict(ip: string): (ok: bool)
    ensures ok <==> IsDottedQuad(ip)
  {
    IpBodyIsDottedQuad(ip);
    IpBody(ip)
  }

  /** A dotted quad consists of digits and dots only. */
  lemma DottedQuadHasNoNewline(s: string)
    requires IsDottedQuad(s)
    ensures '\n' !in s
  {
    var fs := Split(s, '.');
    JoinSplit(s, '.');
    forall i | 0 <= i < |fs| ensures '\n' !in fs[i] {
      assert AllDigits(fs[i]);
    }
    JoinAvoids(".", fs, '\n');
  }

  /** Every dotted quad followed by a newline passes `validate_ip` as written, but is no address. */
  lemma ValidateIpAcceptsTrailingNewline(t: string)
    requires IsDottedQuad(t)
    ensures ValidateIp(t + "\n")
    ensures !ValidateIpStrict(t + "\n")
  {
    var s := t + "\n";
    assert s[..|s| - 1] == t;
    assert s[|s| - 1] == '\n';
    if IsDottedQuad(s) {
      DottedQuadHasNoNewline(s);
    }
  }

  /** On stripped input, the only input the application passes, both checks agree. */
  lemma ValidateIpOnStripped(s: string)
    ensures ValidateIp(Strip(s)) == ValidateIpStrict(Strip(s))
  {
  }

  // ---------------------------------------------------------------------------
  // validate_hostname

  predicate IsLabelChar(c: char) { IsAlnum(c) || c == '-' }

  /** The label rule of section 2.1 of RFC 1123: 1 to 63 letters, digits or hyphens, no hyphen at either end. */
  predicate IsLabel(l: string)
  {
    1 <= |l| <= 63 && (forall i :: 0 <= i < |l| ==> IsLabelChar(l[i])) && l[0] != '-' && l[|l| - 1] != '-'
  }

  /** One or more dot-separated labels; no cap on the total length. */
  predicate IsHostname(s: string)
  {
    var ls := Split(s, '.');
    forall i :: 0 <= i < |ls| ==> IsLabel(ls[i])
  }

  /** The per-label pattern `[a-zA-Z0-9]([a-zA-Z0-9\-]{0,61}[a-zA-Z0-9])?`. */
  predicate LabelPattern(l: string)
  {
    || (|l| == 1 && IsAlnum(l[0]))
    || (2 <= |l| <= 63 && IsAlnum(l[0]) && IsAlnum(l[|l| - 1])
        && forall i :: 1 <= i < |l| - 1 ==> IsLabelChar(l[i]))
  }

  lemma LabelPatternIsLabel(l: string)
    ensures LabelPattern(l) <==> IsLabel(l)
  {
  }

  /** The host-name pattern up to its `$`: a label, then any number of `.label`. */
  predicate HostBody(t: string)
  {
    var ls := Split(t, '.');
    forall i :: 0 <= i < |ls| ==> LabelPattern(ls[i])
  }

  lemma HostBodyIsHostname(t: string)
    ensures HostBody(t) <==> IsHostname(t)
  {
    var ls := Split(t, '.');
    forall i | 0 <= i < |ls| ensures LabelPattern(ls[i]) <==> IsLabel(ls[i]) {
      LabelPatternIsLabel(ls[i]);
    }
  }

  /** `validate_hostname(h)` as written: a host name, or a host name followed by one newline. */
  function ValidateHostname(h: string): (ok: bool)
    ensures ok <==> IsHostname(h) || (EndsWithNewline(h) && IsHostname(h[..|h| - 1]))
  {
    HostBodyIsHostname(h);
    if EndsWithNewline(h) then
      HostBodyIsHostname(h[..|h| - 1]);
      HostBody(h) || HostBody(h[..|h| - 1])
    else
      HostBody(h)
  }

  /** The host-name check as evidently intended (a full match). */
  function ValidateHostnameStrict(h: string): (ok: bool)
    ensures ok <==> IsHostname(h)
  {
    HostBodyIsHostname(h);
    HostBody(h)
  }

  /** A host name consists of letters, digits, hyphens and dots only. */
  lemma HostnameHasNoNewline(s: string)
    requires IsHostname(s)
    ensures '\n' !in s
  {
    var ls := Split(s, '.');
    JoinSplit(s, '.');
    forall i | 0 <= i < |ls| ensures '\n' !in ls[i] {
      assert IsLabel(ls[i]);
    }
    JoinAvoids(".", ls, '\n');
  }

  /** Every host name followed by a newline passes `validate_hostname` as written, but is no host name. */
  lemma ValidateHostnameAcceptsTrailingNewline(t: string)
    requires IsHostname(t)
    ensures ValidateHostname(t + "\n")
    ensures !ValidateHostnameStrict(t + "\n")
  {
    var s := t + "\n";
    assert s[..|s| - 1] == t;
    assert s[|s| - 1] == '\n';
    if IsHostname(s) {
      HostnameHasNoNewline(s);
    }
  }

  /** Every dotted quad is also a host name (its fields are short digit labels). */
  lemma DottedQuadIsHostname(s: string)
    requires IsDottedQuad(s)
    ensures IsHostname(s)
  {
    var fs := Split(s, '.');
    forall i | 0 <= i < |fs| ensures IsLabel(fs[i]) {
      assert IsOctetField(fs[i]);
    }
  }

  /** The vCenter host check `validate_hostname(h) or validate_ip(h)` is decided by the host-name test alone. */
  lemma HostCheckIsHostnameCheck(h: string)
    ensures (ValidateHostname(h) || ValidateIp(h)) == ValidateHostname(h)
  {
    if IsDottedQuad(h) {
      DottedQuadIsHostname(h);
    }
    if EndsWithNewline(h) && IsDottedQuad(h[..|h| - 1]) {
      DottedQuadIsHostname(h[..|h| - 1]);
    }
  }

  // ---------------------------------------------------------------------------
  // mock_get_nic_count

  /** NIC count of a template in demo mode: the first of "Windows", "Ubuntu", "Database" found in the name decides. */
  function MockNicCount(template: string): (n: nat)
    ensures 1 <= n <= 3
    ensures n == 1 <==> !Contains(template, "Windows") && Contains(template, "Ubuntu")
    ensures n == 3 <==> !Contains(template, "Windows") && !Contains(template, "Ubuntu") && Contains(template, "Database")
  {
    if Contains(template, "Windows") then 2
    else if Contains(template, "Ubuntu") then 1
    else if Contains(template, "Database") then 3
    else 2
  }

  // ---------------------------------------------------------------------------
  // The provisioning form

  /** The submitted form fields. */
  type Form = map<string, string>

  /** `request.form.get(k, "")`. */
  function Field(form: Form, k: string): string
  {
    if k in form then form[k] else ""
  }

  /** `int(text)` for a decimal literal: surrounding whitespace, an optional sign, at least one digit. */
  function ParseInt(text: string): (r: Option<int>)
    ensures r.Some? <==> var s := Strip(text);
      || (|s| >= 1 && AllDigits(s))
      || (|s| >= 2 && (s[0] == '+' || s[0] == '-') && AllDigits(s[1..]))
  {
    var s := Strip(text);
    if |s| >= 1 && AllDigits(s) then Some(DigitsValue(s))
    else if |s| >= 2 && (s[0] == '+' || s[0] == '-') && AllDigits(s[1..]) then
      var v: int := DigitsValue(s[1..]);
      Some(if s[0] == '-' then -v else v)
    else None
  }

  /** `int()` reads back what `str()` writes, with or without a minus sign. */
  lemma ParseIntShow(n: nat)
    ensures ParseInt(Show(n)) == Some(n)
    ensures ParseInt("-" + Show(n)) == Some(-(n as int))
  {
    var d := Show(n);
    ParseIntDigits(d);
    ParseIntNegated(d, n);
  }

  /** A digit string reads as its value. */
  lemma ParseIntDigits(d: string)
    requires d != [] && AllDigits(d)
    ensures ParseInt(d) == Some(DigitsValue(d))
  {
    StripUnchanged(d);
  }

  /** A digit string after a minus sign reads as the negated value. */
  lemma ParseIntNegated(d: string, v: nat)
    requires d != [] && AllDigits(d) && DigitsValue(d) == v
    ensures ParseInt("-" + d) == Some(-(v as int))
  {
    var m := "-" + d;
    assert Strip(m) == m by {
      assert m[0] == '-' && m[|m| - 1] == d[|d| - 1];
      StripUnchanged(m);
    }
    assert !AllDigits(m) by {
      assert !IsDigit(m[0]);
    }
    assert m[1..] == d;
  }

  /** Why the form was rejected. */
  datatype FormError =
    | NodeDataMissing
    | CountNotInteger(text: string)
    | PrefixRequired
    | CountOutOfRange
    | PrefixCharset
    | InvalidIp(nic: nat)
    | NodeIpsNotMapping
    | ResourcesRequired

  /** The text of the error the form handler reports. */
  function ErrorMessage(e: FormError): string
  {
    match e
    case NodeDataMissing => "Individual node configuration data is missing."
    case CountNotInteger(t) => "invalid literal for int() with base 10: '" + t + "'"
    case PrefixRequired => "VM Name Prefix is required for bulk provisioning"
    case CountOutOfRange => "Number of VMs must be between 1 and 50"
    case PrefixCharset => "Prefix can only contain letters, numbers, hyphens, and underscores"
    case InvalidIp(i) => "Invalid IP address format for NIC " + Show(i)
    case NodeIpsNotMapping => "object has no attribute 'items'"
    case ResourcesRequired => "Template, Datacenter, Cluster, and Network are required"
  }

  /** A validated provisioning request, as handed to the provisioning function. */
  datatype Request = Request(
    individual: bool,
    nodes: seq<Node>,
    prefix: string,
    count: int,
    hostnamePrefix: Option<string>,
    ipMap: Dict,
    template: string,
    datacenter: string,
    cluster: string,
    network: string)

  predicate IsIndividual(form: Form) { Field(form, "individualConfig") == "on" }

  /** `int(request.form.get("count", 1))`: 1 when the field is absent. */
  function FormCount(form: Form): Option<int>
  {
    if "count" in form then ParseInt(form["count"]) else Some(1)
  }

  function BulkPrefix(form: Form): string { Strip(Field(form, "prefix")) }

  /** `re.match(r"^[a-zA-Z0-9\-_]+$", prefix)` on a stripped, non-empty prefix. */
  predicate PrefixChars(p: string)
  {
    forall i :: 0 <= i < |p| ==> IsAlnum(p[i]) || p[i] == '-' || p[i] == '_'
  }

  /** The stripped value of form field `ip{k}`. */
  function IpField(form: Form, k: nat): string { Strip(Field(form, "ip" + Show(k))) }

  /** The stripped values of `ip1`..`ip9`, `ip1` first. */
  function IpValues(form: Form): (vs: seq<string>)
    ensures |vs| == NicSlots
    ensures forall k :: 0 <= k < NicSlots ==> vs[k] == IpField(form, k + 1)
  {
    seq(NicSlots, k requires 0 <= k < NicSlots => IpField(form, k + 1))
  }

  /** An `ip{k}` value the form accepts: empty (DHCP) or a dotted quad. */
  predicate IpValueOk(v: string) { v == "" || IsDottedQuad(v) }

  predicate IpValuesOk(vals: seq<string>, n: nat)
    requires n <= |vals|
  {
    forall k :: 0 <= k < n ==> IpValueOk(vals[k])
  }

  /** The bulk checks up to and including the prefix character set. */
  predicate BulkHeaderOk(form: Form)
  {
    && FormCount(form).Some?
    && BulkPrefix(form) != ""
    && 1 <= FormCount(form).value <= 50
    && PrefixChars(BulkPrefix(form))
  }

  predicate ResourcesGiven(form: Form)
  {
    && Strip(Field(form, "template")) != ""
    && Strip(Field(form, "datacenter")) != ""
    && Strip(Field(form, "cluster")) != ""
    && Strip(Field(form, "network")) != ""
  }

  /** The entries `net{k}` -> `ip{k}` the bulk form contributes for k = 1..n, in that order. */
  function IpEntries(vals: seq<string>, n: nat): Dict
    requires n <= |vals|
  {
    if n == 0 then []
    else if vals[n - 1] != "" then IpEntries(vals, n - 1) + [(NicKey(n), vals[n - 1])]
    else IpEntries(vals, n - 1)
  }

  /** Which field `ip{k}` the i-th entry of `ip_map` came from: it is `net{k}` with that field's non-empty value, k <= n. */
  function EntryNic(vals: seq<string>, n: nat, i: nat): (k: nat)
    requires n <= |vals| && i < |IpEntries(vals, n)|
    ensures 1 <= k <= n && vals[k - 1] != "" && IpEntries(vals, n)[i] == (NicKey(k), vals[k - 1])
  {
    if i < |IpEntries(vals, n - 1)| then EntryNic(vals, n - 1, i) else n
  }

  /** `ip_map.get(f"net{k}")` is the value of field `ip{k}` when k <= n and it is non-empty, and missing otherwise. */
  lemma {:induction false} IpEntriesGet(vals: seq<string>, n: nat, k: nat)
    requires n <= |vals| && 1 <= k <= |vals|
    ensures Get(IpEntries(vals, n), NicKey(k)) == (if k <= n && vals[k - 1] != "" then Some(vals[k - 1]) else None)
  {
    if n > 0 {
      IpEntriesGet(vals, n - 1, k);
      if vals[n - 1] != "" {
        GetAppend(IpEntries(vals, n - 1), NicKey(n), vals[n - 1], NicKey(k));
        if k != n && NicKey(k) == NicKey(n) {
          NicKeyInjective(k, n);
        }
      }
    }
  }

  lemma GetAppend(d: Dict, k: string, v: string, key: string)
    ensures Get(d + [(k, v)], key) == if Get(d, key).Some? then Get(d, key) else if key == k then Some(v) else None
    decreases |d|
  {
    if d != [] {
      assert (d + [(k, v)])[1..] == d[1..] + [(k, v)];
      GetAppend(d[1..], k, v, key);
    }
  }

  /** The first-node `ips` copied into `ip_map` in individual mode, or None when `.items()` fails. */
  function FirstNodeIps(nodes: seq<Node>): Option<Dict>
  {
    if |nodes| == 0 then Some([])
    else match nodes[0].ips
      case None => Some([])
      case Some(DictIps(d)) => Some(d)
      case Some(_) => None
  }

  /** One round of the `ip{i}` loop: `ip_map[f"net{i}"] = ip_val` for a non-empty field, under a new key. */
  lemma IpEntriesStep(vals: seq<string>, i: nat)
    requires 1 <= i <= |vals|
    ensures vals[i - 1] != "" ==> IpEntries(vals, i) == Put(IpEntries(vals, i - 1), NicKey(i), vals[i - 1])
    ensures vals[i - 1] == "" ==> IpEntries(vals, i) == IpEntries(vals, i - 1)
    ensures IpValuesOk(vals, i) <==> IpValuesOk(vals, i - 1) && IpValueOk(vals[i - 1])
  {
    if vals[i - 1] != "" {
      assert Get(IpEntries(vals, i - 1), NicKey(i)).None? by {
        IpEntriesGet(vals, i - 1, i);
      }
    }
  }

  /**
   * The `ip1`..`ip9` loop of the bulk form: each non-empty stripped value must
   * be a dotted quad and is stored under `net{i}`; the first bad field is
   * reported by its number.
   */
  method CollectIps(form: Form) returns (r: Result<Dict, nat>)
    ensures r.Success? <==> IpValuesOk(IpValues(form), NicSlots)
    ensures r.Success? ==> r.value == IpEntries(IpValues(form), NicSlots)
    ensures r.Failure? ==> 1 <= r.error <= NicSlots && IpValuesOk(IpValues(form), r.error - 1)
                           && !IpValueOk(IpValues(form)[r.error - 1])
  {
    ghost var vals := IpValues(form);
    var ipMap: Dict := [];
    for i := 1 to NicSlots + 1
      invariant ipMap == IpEntries(vals, i - 1)
      invariant IpValuesOk(vals, i - 1)
    {
      var ipVal := Strip(Field(form, "ip" + Show(i)));
      assert ipVal == vals[i - 1];
      IpEntriesStep(vals, i);
      if ipVal != "" {
        // `validate_ip` on a stripped value agrees with `ValidateIpStrict` (see `ValidateIpOnStripped`).
        if !ValidateIpStrict(ipVal) {
          r := Failure(i);
          return;
        }
        ipMap := Put(ipMap, NicKey(i), ipVal);
      }
      assert IpValueOk(vals[i - 1]);
    }
    r := Success(ipMap);
  }

  /** The resource fields every mode requires, as `(template, datacenter, cluster, network)`. */
  function Resources(form: Form): (string, string, string, string)
  {
    (Strip(Field(form, "template")), Strip(Field(form, "datacenter")),
     Strip(Field(form, "cluster")), Strip(Field(form, "network")))
  }

  /**
   * The individual-node branch of the form block. `decoded` stands for
   * `json.loads` of the `individual_nodes_data` field.
   */
  method ValidateIndividual(form: Form, decoded: seq<Node>) returns (r: Result<Request, FormError>)
    requires IsIndividual(form)
    ensures r == Failure(NodeDataMissing) <==> Field(form, "individual_nodes_data") == ""
    ensures r == Failure(NodeIpsNotMapping) <==>
      Field(form, "individual_nodes_data") != "" && FirstNodeIps(decoded).None?
    ensures r == Failure(ResourcesRequired) <==>
      Field(form, "individual_nodes_data") != "" && FirstNodeIps(decoded).Some? && !ResourcesGiven(form)
    ensures r.Success? <==>
      Field(form, "individual_nodes_data") != "" && FirstNodeIps(decoded).Some? && ResourcesGiven(form)
    ensures r.Success? ==>
      && r.value.individual && r.value.nodes == decoded
      && r.value.prefix == "individual-vm" && r.value.count == |decoded|
      && r.value.hostnamePrefix.None?
      && Some(r.value.ipMap) == FirstNodeIps(decoded)
      && (r.value.template, r.value.datacenter, r.value.cluster, r.value.network) == Resources(form)
  {
    if Field(form, "individual_nodes_data") == "" {
      r := Failure(NodeDataMissing);
      return;
    }
    var nodes := decoded;
    var ipMap: Dict := [];
    if |nodes| > 0 {
      match nodes[0].ips
      case None =>
      case Some(DictIps(d)) => ipMap := d;
      case Some(_) =>
        r := Failure(NodeIpsNotMapping);
        return;
    }
    var (template, datacenter, cluster, network) := Resources(form);
    if template == "" || datacenter == "" || cluster == "" || network == "" {
      r := Failure(ResourcesRequired);
      return;
    }
    r := Success(Request(true, nodes, "individual-vm", |nodes|, None, ipMap, template, datacenter, cluster, network));
  }

  /** Only one field is the first bad one. */
  lemma FirstBadUnique(vals: seq<string>, i: nat, e: nat)
    requires 1 <= i <= |vals| && 1 <= e <= |vals|
    requires IpValuesOk(vals, i - 1) && !IpValueOk(vals[i - 1])
    requires IpValuesOk(vals, e - 1) && !IpValueOk(vals[e - 1])
    ensures i == e
  {
  }

  /** The count and prefix checks of the bulk branch, in the handler's order. */
  method BulkHeader(form: Form) returns (r: Result<(string, int), FormError>)
    ensures r.Failure? && r.error.CountNotInteger? <==> FormCount(form).None?
    ensures r == Failure(PrefixRequired) <==> FormCount(form).Some? && BulkPrefix(form) == ""
    ensures r == Failure(CountOutOfRange) <==>
      FormCount(form).Some? && BulkPrefix(form) != "" && !(1 <= FormCount(form).value <= 50)
    ensures r == Failure(PrefixCharset) <==>
      FormCount(form).Some? && BulkPrefix(form) != "" && 1 <= FormCount(form).value <= 50
      && !PrefixChars(BulkPrefix(form))
    ensures r.Failure? ==> !r.error.InvalidIp? && r.error != ResourcesRequired
    ensures r.Success? <==> BulkHeaderOk(form)
    ensures r.Success? ==> r.value == (BulkPrefix(form), FormCount(form).value)
  {
    var prefix := Strip(Field(form, "prefix"));
    var parsed := if "count" in form then ParseInt(form["count"]) else Some(1);
    if parsed.None? {
      r := Failure(CountNotInteger(form["count"]));
      return;
    }
    var count := parsed.value;
    if prefix == "" {
      r := Failure(PrefixRequired);
    } else if count < 1 || count > 50 {
      r := Failure(CountOutOfRange);
    } else if !PrefixChars(prefix) {
      r := Failure(PrefixCharset);
    } else {
      r := Success((prefix, count));
    }
  }

  /** The bulk branch of the form block; the checks run in the handler's order and the first that fails is reported. */
  method ValidateBulk(form: Form) returns (r: Result<Request, FormError>)
    ensures r.Failure? && r.error.CountNotInteger? <==> FormCount(form).None?
    ensures r == Failure(PrefixRequired) <==> FormCount(form).Some? && BulkPrefix(form) == ""
    ensures r == Failure(CountOutOfRange) <==>
      FormCount(form).Some? && BulkPrefix(form) != "" && !(1 <= FormCount(form).value <= 50)
    ensures r == Failure(PrefixCharset) <==>
      FormCount(form).Some? && BulkPrefix(form) != "" && 1 <= FormCount(form).value <= 50
      && !PrefixChars(BulkPrefix(form))
    ensures r.Failure? && r.error.InvalidIp? <==> BulkHeaderOk(form) && !IpValuesOk(IpValues(form), NicSlots)
    ensures r.Failure? && r.error.InvalidIp? ==>
      1 <= r.error.nic <= NicSlots && IpValuesOk(IpValues(form), r.error.nic - 1)
      && !IpValueOk(IpValues(form)[r.error.nic - 1])
    ensures r == Failure(ResourcesRequired) <==>
      BulkHeaderOk(form) && IpValuesOk(IpValues(form), NicSlots) && !ResourcesGiven(form)
    ensures r.Success? <==> BulkHeaderOk(form) && IpValuesOk(IpValues(form), NicSlots) && ResourcesGiven(form)
    ensures r.Success? ==>
      && !r.value.individual && r.value.nodes == []
      && r.value.prefix == BulkPrefix(form) && Some(r.value.count) == FormCount(form)
      && r.value.hostnamePrefix == Some(Strip(Field(form, "hostname")))
      && r.value.ipMap == IpEntries(IpValues(form), NicSlots)
      && (r.value.template, r.value.datacenter, r.value.cluster, r.value.network) == Resources(form)
  {
    var header := BulkHeader(form);
    if header.Failure? {
      r := Failure(header.error);
      return;
    }
    var (prefix, count) := header.value;
    var hostnamePrefix := Strip(Field(form, "hostname"));
    var ips := CollectIps(form);
    if ips.Failure? {
      r := Failure(InvalidIp(ips.error));
      return;
    }
    var (template, datacenter, cluster, network) := Resources(form);
    if template == "" || datacenter == "" || cluster == "" || network == "" {
      r := Failure(ResourcesRequired);
      return;
    }
    r := Success(Request(false, [], prefix, count, Some(hostnamePrefix), ips.value, template, datacenter, cluster, network));
  }

  /** The form block of the provisioning handler: `individualConfig == "on"` selects the branch. */
  method ValidateForm(form: Form, decoded: seq<Node>) returns (r: Result<Request, FormError>)
    ensures r.Success? <==>
      (if IsIndividual(form) then Field(form, "individual_nodes_data") != "" && FirstNodeIps(decoded).Some?
       else BulkHeaderOk(form) && IpValuesOk(IpValues(form), NicSlots))
      && ResourcesGiven(form)
    ensures r.Success? ==> r.value.individual == IsIndividual(form) && 1 <= |r.value.prefix|
  {
    if IsIndividual(form) {
      r := ValidateIndividual(form, decoded);
    } else {
      r := ValidateBulk(form);
    }
  }
}
