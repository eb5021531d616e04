/**
 * Guest customization specifications (vm_provision.py): the per-NIC IP
 * settings and the guest identity handed to the clone call, built either from
 * the template's own Ethernet cards (`build_customization_spec_from_template`)
 * or from a plain IP list with fixed mask and gateway
 * (`build_customization_spec`). The vSphere customization objects are plain
 * datatypes here.
 */
module Customization {
  import opened Wrappers
  import opened Text

  datatype IpGenerator = FixedIp(ipAddress: string) | DhcpIpGenerator

  /** One adapter mapping; an unset subnet mask is `None`, an unset gateway list is empty. */
  datatype AdapterMapping = AdapterMapping(ip: IpGenerator, subnetMask: Option<string>, gateway: seq<string>)

  datatype Identity =
    | Sysprep(computerName: string, fullName: string, orgName: string,
              autoLogon: bool, autoLogonCount: nat, timeZone: nat)
    | LinuxPrep(hostName: string, domain: string)

  datatype Specification = Specification(nicSettingMap: seq<AdapterMapping>, dnsServerList: seq<string>, identity: Identity)

  /** The IP pool of a network summary; `None` stands for an attribute the object lacks. */
  datatype IpPool = IpPool(subnetAddress: Option<string>, gateway: Option<string>)

  /** A network a NIC is backed by; `ipPool` is `None` when the summary, the attribute or the pool is missing. */
  datatype Network = Network(ipPool: Option<IpPool>)

  /** A template hardware device: an Ethernet card with the network of its backing (if any), or anything else. */
  datatype Device = EthernetCard(network: Option<Network>) | OtherDevice

  /** The template VM; `devices` is `None` when it has no config or no hardware. */
  datatype TemplateVm = TemplateVm(devices: Option<seq<Device>>)

  const DefaultMask := "255.255.255.0"
  const DefaultDomain := "localdomain"

  /** A truthy IP entry: present and non-empty. */
  predicate IsSet(ip: Option<string>) { ip.Some? && ip.value != "" }

  // ---------------------------------------------------------------------------
  // The guest identity

  /** `'windows' if 'win' in template.lower() else 'linux'`. */
  function OsTypeOf(template: string): (os: string)
    ensures os == "windows" || os == "linux"
    ensures os == "windows" <==> Contains(Lower(template), "win")
  {
    if Contains(Lower(template), "win") then "windows" else "linux"
  }

  /** Sysprep for `os_type == 'windows'`, LinuxPrep for anything else. */
  function IdentityFor(osType: string, hostname: string, domain: string): (id: Identity)
    ensures id.Sysprep? <==> osType == "windows"
    ensures id.Sysprep? ==> id == Sysprep(hostname, "Administrator", "Organization", false, 1, 190)
    ensures id.LinuxPrep? ==> id.hostName == hostname && id.domain == domain
  {
    if osType == "windows" then Sysprep(hostname, "Administrator", "Organization", false, 1, 190)
    else LinuxPrep(hostname, domain)
  }

  lemma {:induction false} ContainsShorterPrefix(s: string, sub: string, pre: string)
    requires pre <= sub && Contains(s, sub)
    ensures Contains(s, pre)
    decreases |s|
  {
    if !(sub <= s) {
      ContainsShorterPrefix(s[1..], sub, pre);
    }
  }

  /** Lower-casing preserves containment. */
  lemma {:induction false} LowerContains(s: string, sub: string)
    requires Contains(s, sub)
    ensures Contains(Lower(s), Lower(sub))
    decreases |s|
  {
    if sub <= s {
      assert Lower(s)[..|sub|] == Lower(sub);
    } else {
      LowerContains(s[1..], sub);
      assert Lower(s)[1..] == Lower(s[1..]);
    }
  }

  /** A template whose name mentions "Windows" is customized with Sysprep. */
  lemma WindowsTemplateGetsSysprep(template: string, hostname: string)
    requires Contains(template, "Windows")
    ensures IdentityFor(OsTypeOf(template), hostname, DefaultDomain).Sysprep?
  {
    LowerContains(template, "Windows");
    assert Lower("Windows") == "windows";
    ContainsShorterPrefix(Lower(template), "windows", "win");
  }

  // ---------------------------------------------------------------------------
  // build_customization_spec_from_template

  /** The backing network of each Ethernet card among `ds`, in device order. */
  function EthernetNetworks(ds: seq<Device>): (nics: seq<Option<Network>>)
    ensures |nics| <= |ds|
    ensures (forall i :: 0 <= i < |ds| ==> ds[i].EthernetCard?) ==> |nics| == |ds|
  {
    if ds == [] then []
    else
      var last := ds[|ds| - 1];
      EthernetNetworks(ds[..|ds| - 1]) + (if last.EthernetCard? then [last.network] else [])
  }

  /** The number of Ethernet cards among `ds`. */
  function CountEthernet(ds: seq<Device>): nat
  {
    if ds == [] then 0 else (if ds[0].EthernetCard? then 1 else 0) + CountEthernet(ds[1..])
  }

  lemma {:induction false} CountEthernetSnoc(ds: seq<Device>, d: Device)
    ensures CountEthernet(ds + [d]) == CountEthernet(ds) + (if d.EthernetCard? then 1 else 0)
  {
    if ds != [] {
      assert (ds + [d])[1..] == ds[1..] + [d];
      CountEthernetSnoc(ds[1..], d);
    }
  }

  /**
   * The scan keeps one entry per Ethernet card and nothing else: card `i`
   * lands at the position given by the number of cards before it, holding
   * its backing network.
   */
  lemma {:induction false} EthernetNetworksMeaning(ds: seq<Device>)
    ensures |EthernetNetworks(ds)| == CountEthernet(ds)
    ensures forall i :: 0 <= i < |ds| && ds[i].EthernetCard? ==>
      CountEthernet(ds[..i]) < |EthernetNetworks(ds)| && EthernetNetworks(ds)[CountEthernet(ds[..i])] == ds[i].network
  {
    if ds != [] {
      var n := |ds|;
      var p := ds[..n - 1];
      var last := ds[n - 1];
      EthernetNetworksMeaning(p);
      assert p + [last] == ds;
      CountEthernetSnoc(p, last);
      forall i | 0 <= i < n && ds[i].EthernetCard?
        ensures CountEthernet(ds[..i]) < |EthernetNetworks(ds)| && EthernetNetworks(ds)[CountEthernet(ds[..i])] == ds[i].network
      {
        if i < n - 1 {
          assert ds[..i] == p[..i];
          assert p[i] == ds[i];
        } else {
          assert ds[..i] == p;
        }
      }
    }
  }

  function TemplateNics(t: TemplateVm): seq<Option<Network>>
  {
    if t.devices.Some? then EthernetNetworks(t.devices.value) else []
  }

  /** The device scan: one entry per Ethernet card, holding the network of its backing. */
  method CollectTemplateNics(t: TemplateVm) returns (nics: seq<Option<Network>>)
    ensures nics == TemplateNics(t)
  {
    nics := [];
    if t.devices.Some? {
      var ds := t.devices.value;
      for i := 0 to |ds|
        invariant nics == EthernetNetworks(ds[..i])
      {
        assert ds[..i + 1][..i] == ds[..i];
        if ds[i].EthernetCard? {
          nics := nics + [ds[i].network];
        }
      }
      assert ds[..|ds|] == ds;
    }
  }

  /**
   * The mapping for one template NIC and its requested IP: a fixed address
   * exactly when the IP is set; on a NIC with a network, the mask and gateway
   * of its IP pool (if any); on a NIC without one, mask 255.255.255.0.
   */
  function TemplateNicSetting(network: Option<Network>, ip: Option<string>): (a: AdapterMapping)
    ensures a.ip.FixedIp? <==> IsSet(ip)
    ensures a.ip.FixedIp? ==> a.ip.ipAddress == ip.value
    ensures !IsSet(ip) ==> a.subnetMask.None? && a.gateway == []
    ensures network.None? && IsSet(ip) ==> a.subnetMask == Some(DefaultMask) && a.gateway == []
    ensures network.Some? && IsSet(ip) ==>
      var pool := network.value.ipPool;
      && a.subnetMask == (if pool.Some? then pool.value.subnetAddress else None)
      && a.gateway == (if pool.Some? && pool.value.gateway.Some? then [pool.value.gateway.value] else [])
  {
    if network.Some? then
      if IsSet(ip) then
        var pool := network.value.ipPool;
        AdapterMapping(
          FixedIp(ip.value),
          if pool.Some? then pool.value.subnetAddress else None,
          if pool.Some? && pool.value.gateway.Some? then [pool.value.gateway.value] else [])
      else AdapterMapping(DhcpIpGenerator, None, [])
    else if IsSet(ip) then AdapterMapping(FixedIp(ip.value), Some(DefaultMask), [])
    else AdapterMapping(DhcpIpGenerator, None, [])
  }

  function Min(a: nat, b: nat): nat { if a <= b then a else b }

  /** The specification built from the template: `zip` pairs NICs with IPs, so the shorter list decides the length. */
  function TemplateSpec(t: TemplateVm, hostname: string, ips: seq<Option<string>>, osType: string): (spec: Specification)
    ensures |spec.nicSettingMap| == Min(|TemplateNics(t)|, |ips|)
    ensures forall i :: 0 <= i < |spec.nicSettingMap| ==>
      spec.nicSettingMap[i] == TemplateNicSetting(TemplateNics(t)[i], ips[i])
    ensures spec.dnsServerList == []
    ensures spec.identity == IdentityFor(osType, hostname, DefaultDomain)
  {
    var nics := TemplateNics(t);
    var n := Min(|nics|, |ips|);
    Specification(
      seq(n, i requires 0 <= i < n => TemplateNicSetting(nics[i], ips[i])),
      [],
      IdentityFor(osType, hostname, DefaultDomain))
  }

  /** `build_customization_spec_from_template`: scan the devices, then map each (NIC, IP) pair in order. */
  method BuildFromTemplate(t: TemplateVm, hostname: string, ips: seq<Option<string>>, osType: string)
    returns (spec: Specification)
    ensures spec == TemplateSpec(t, hostname, ips, osType)
  {
    var templateNics := CollectTemplateNics(t);
    var nicSettings: seq<AdapterMapping> := [];
    var n := Min(|templateNics|, |ips|);
    for i := 0 to n
      invariant |nicSettings| == i
      invariant forall j :: 0 <= j < i ==> nicSettings[j] == TemplateNicSetting(templateNics[j], ips[j])
    {
      nicSettings := nicSettings + [TemplateNicSetting(templateNics[i], ips[i])];
    }
    spec := Specification(nicSettings, [], IdentityFor(osType, hostname, DefaultDomain));
  }

  // ---------------------------------------------------------------------------
  // build_customization_spec

  /** The mapping for one IP: fixed with the given mask and gateway list when set, DHCP otherwise. */
  function PlainNicSetting(ip: Option<string>, netmask: string, gateway: seq<string>): (a: AdapterMapping)
    ensures a.ip.FixedIp? <==> IsSet(ip)
    ensures IsSet(ip) ==> a == AdapterMapping(FixedIp(ip.value), Some(netmask), gateway)
    ensures !IsSet(ip) ==> a == AdapterMapping(DhcpIpGenerator, None, [])
  {
    if IsSet(ip) then AdapterMapping(FixedIp(ip.value), Some(netmask), gateway)
    else AdapterMapping(DhcpIpGenerator, None, [])
  }

  /**
   * The plain specification: one mapping per IP, in order. `gateway` and `dns`
   * stand for the Python values with `None` written as the empty list, which
   * the builder treats alike.
   */
  function PlainSpec(hostname: string, ips: seq<Option<string>>, osType: string, netmask: string,
                     gateway: seq<string>, dns: seq<string>, domain: string): (spec: Specification)
    ensures |spec.nicSettingMap| == |ips|
    ensures forall i :: 0 <= i < |ips| ==> spec.nicSettingMap[i] == PlainNicSetting(ips[i], netmask, gateway)
    ensures spec.dnsServerList == dns
    ensures spec.identity == IdentityFor(osType, hostname, domain)
  {
    Specification(
      seq(|ips|, i requires 0 <= i < |ips| => PlainNicSetting(ips[i], netmask, gateway)),
      dns,
      IdentityFor(osType, hostname, domain))
  }

  /** `build_customization_spec`. */
  method BuildSpec(hostname: string, ips: seq<Option<string>>, osType: string, netmask: string,
                   gateway: seq<string>, dns: seq<string>, domain: string)
    returns (spec: Specification)
    ensures spec == PlainSpec(hostname, ips, osType, netmask, gateway, dns, domain)
  {
    var dnsServerList: seq<string> := [];
    if dns != [] {
      dnsServerList := dns;
    }
    var nicSettings: seq<AdapterMapping> := [];
    for i := 0 to |ips|
      invariant |nicSettings| == i
      invariant forall j :: 0 <= j < i ==> nicSettings[j] == PlainNicSetting(ips[j], netmask, gateway)
    {
      nicSettings := nicSettings + [PlainNicSetting(ips[i], netmask, gateway)];
    }
    spec := Specification(nicSettings, dnsServerList, IdentityFor(osType, hostname, domain));
  }

  /**
   * When no template NIC is backed by a network, the template-based builder
   * agrees with the plain builder (defaults: mask 255.255.255.0, no gateway,
   * no DNS, domain `localdomain`) on the IPs that find a NIC.
   */
  lemma UnbackedTemplateMatchesPlain(t: TemplateVm, hostname: string, ips: seq<Option<string>>, osType: string)
    requires forall i :: 0 <= i < |TemplateNics(t)| ==> TemplateNics(t)[i].None?
    ensures var n := Min(|TemplateNics(t)|, |ips|);
      TemplateSpec(t, hostname, ips, osType) == PlainSpec(hostname, ips[..n], osType, DefaultMask, [], [], DefaultDomain)
  {
    var n := Min(|TemplateNics(t)|, |ips|);
    var a := TemplateSpec(t, hostname, ips, osType);
    var b := PlainSpec(hostname, ips[..n], osType, DefaultMask, [], [], DefaultDomain);
    forall i | 0 <= i < n ensures a.nicSettingMap[i] == b.nicSettingMap[i] {
      assert ips[..n][i] == ips[i];
    }
    assert a.nicSettingMap == b.nicSettingMap;
  }
}
