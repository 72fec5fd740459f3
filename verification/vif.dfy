/** The VMware VIF network-binding resolver: given a VM interface's network
    descriptor, find, create or validate the port group, distributed port
    group or opaque network the interface attaches to.

    Each operation is a pure function of the configuration, one host view and
    the descriptor.  A raised exception is a `Failure`; a port-group creation
    request is a `CreateAction` in the returned outcome; the network the host
    shows when re-queried after a creation is the free input `requery`. */
module Vif {
  import opened Wrappers
  import opened Decimal
  import opened HostState

  /** Values of the `[vmware]` configuration group the resolver reads. */
  datatype Config = Config(vlanInterface: string, integrationBridge: string)

  /** Default of the `vlan_interface` option. */
  const DefaultVlanInterface: string := "vmnic0"

  /** Metadata of the network descriptor; an absent key is `None`. */
  datatype NetworkMeta = NetworkMeta(
    vlan: Option<int>,
    networkType: Option<string>,
    shouldCreateVlan: Option<bool>)

  /** `vif['network']`: the neutron network id, the bridge and the metadata. */
  datatype Network = Network(id: string, bridge: string, meta: NetworkMeta)

  /** The exceptions the resolver raises. */
  datatype VifError =
    | NetworkAdapterNotFound(adapter: string)
    | InvalidVLANPortGroup(bridge: string, expected: Option<string>, actual: Option<string>)
    | InvalidVLANTag(bridge: string, tag: Option<int>, pgroup: Option<int>)
    | NetworkNotFoundForBridge(bridge: string)

  /** A call's result together with the creations it asked the host for. */
  datatype Outcome<T> = Outcome(result: Result<T, VifError>, actions: seq<CreateAction>)

  // ---------------------------------------------------------------------
  // Adapter binding lookup
  // ---------------------------------------------------------------------

  /** `_get_associated_vswitch_for_interface`: the vSwitch serving the
      adapter, `None` when it has none, an error when the adapter is absent. */
  function AssociatedVswitch(h: HostView, adapter: string): (r: Result<Option<string>, VifError>)
    ensures r.Failure? <==> !AdapterExists(h, adapter)
    ensures r.Failure? ==> r.error == NetworkAdapterNotFound(adapter)
    ensures r.Success? && r.value.Some? ==>
      adapter in h.vswitchOf && r.value.value == h.vswitchOf[adapter] != ""
    ensures r.Success? && r.value.None? ==>
      adapter !in h.vswitchOf || h.vswitchOf[adapter] == ""
  {
    if !AdapterExists(h, adapter) then Failure(NetworkAdapterNotFound(adapter))
    else
      var vs := VswitchName(h, adapter);
      if vs == "" then Success(None) else Success(Some(vs))
  }

  /** `_get_associated_dvswitch_for_interface`: never fails, and does not
      check that the adapter exists. */
  function AssociatedDvswitch(h: HostView, adapter: string): (r: Option<string>)
    ensures r.Some? <==> adapter in h.dvswitchOf && h.dvswitchOf[adapter] != ""
    ensures r.Some? ==> r.value == h.dvswitchOf[adapter]
  {
    var dvs := DvswitchName(h, adapter);
    if dvs == "" then None else Some(dvs)
  }

  // ---------------------------------------------------------------------
  // VLAN bridge provisioner
  // ---------------------------------------------------------------------

  /** The `'type' == 'DistributedVirtualPortgroup'` test on a looked-up network. */
  function IsDistributed(found: Option<NetworkRef>): (r: bool)
    // the type-name test singles out exactly the distributed port groups
    ensures r <==> found.Some? && found.value.DistributedPortGroup?
  {
    found.Some? && found.value.TypeName() == DistributedPortgroupType
  }

  /** The VLAN tag a creation uses: the descriptor's vlan when VLANs are
      requested, untagged (0) otherwise. */
  function CreationTag(net: Network, createVlan: bool): (tag: Option<int>)
    ensures createVlan ==> tag == net.meta.vlan
    ensures !createVlan ==> tag == Some(0)
  {
    if createVlan then net.meta.vlan else Some(0)
  }

  /** `ensure_vlan_bridge` */
  function EnsureVlanBridge(cfg: Config, h: HostView, net: Network, createVlan: bool,
                            requery: Option<NetworkRef>): (o: Outcome<Option<NetworkRef>>)
    // at most one creation, only when the bridge was missing, and never alongside an error
    ensures |o.actions| <= 1
    ensures o.result.Failure? ==> o.actions == []
    ensures o.actions != [] ==> NetworkWithName(h, net.bridge).None? && o.actions[0].name == net.bridge
    // an existing distributed port group is returned as found
    ensures IsDistributed(NetworkWithName(h, net.bridge)) ==>
      o == Outcome(Success(NetworkWithName(h, net.bridge)), [])
    // a missing bridge: the adapter must exist; one creation on the vSwitch, else
    // the dvSwitch, else none; the answer is the re-query, possibly None
    ensures NetworkWithName(h, net.bridge).None? ==>
      if !AdapterExists(h, cfg.vlanInterface) then
        o == Outcome(Failure(NetworkAdapterNotFound(cfg.vlanInterface)), [])
      else
        var vs := AssociatedVswitch(h, cfg.vlanInterface).value;
        var dvs := AssociatedDvswitch(h, cfg.vlanInterface);
        var tag := CreationTag(net, createVlan);
        && o.result == Success(requery)
        && o.actions == (if vs.Some? then [CreatePortGroup(net.bridge, vs.value, tag)]
                         else if dvs.Some? then [CreateDvsPortGroup(net.bridge, dvs.value, tag)]
                         else [])
    // an existing standard port group without VLAN enforcement is returned unchecked
    ensures NetworkWithName(h, net.bridge).Some? && !IsDistributed(NetworkWithName(h, net.bridge))
            && !createVlan ==>
      o == Outcome(Success(NetworkWithName(h, net.bridge)), [])
    // with VLAN enforcement: adapter, then vSwitch, then VLAN tag is checked
    ensures NetworkWithName(h, net.bridge).Some? && !IsDistributed(NetworkWithName(h, net.bridge))
            && createVlan ==>
      && o.actions == []
      && var pg := PortGroupInfoFor(h, net.bridge);
         var vs := AssociatedVswitch(h, cfg.vlanInterface);
         if vs.Failure? then o.result == Failure(NetworkAdapterNotFound(cfg.vlanInterface))
         else if pg.vswitch != vs.value then
           o.result == Failure(InvalidVLANPortGroup(net.bridge, vs.value, pg.vswitch))
         else if pg.vlanId != net.meta.vlan then
           o.result == Failure(InvalidVLANTag(net.bridge, net.meta.vlan, pg.vlanId))
         else o.result == Success(NetworkWithName(h, net.bridge))
  {
    var vlanNum := net.meta.vlan;
    var bridge := net.bridge;
    var adapter := cfg.vlanInterface;
    var existing := NetworkWithName(h, bridge);
    if IsDistributed(existing) then
      Outcome(Success(existing), [])
    else if existing.None? then
      match AssociatedVswitch(h, adapter)
      case Failure(e) => Outcome(Failure(e), [])
      case Success(vswitch) =>
        var dvswitch := AssociatedDvswitch(h, adapter);
        var tag := CreationTag(net, createVlan);
        var actions :=
          if vswitch.Some? then [CreatePortGroup(bridge, vswitch.value, tag)]
          else if dvswitch.Some? then [CreateDvsPortGroup(bridge, dvswitch.value, tag)]
          else [];
        Outcome(Success(requery), actions)
    else if createVlan then
      match AssociatedVswitch(h, adapter)
      case Failure(e) => Outcome(Failure(e), [])
      case Success(vswitch) =>
        var pg := PortGroupInfoFor(h, bridge);
        if pg.vswitch != vswitch then
          Outcome(Failure(InvalidVLANPortGroup(bridge, vswitch, pg.vswitch)), [])
        else if pg.vlanId != vlanNum then
          Outcome(Failure(InvalidVLANTag(bridge, vlanNum, pg.vlanId)), [])
        else
          Outcome(Success(existing), [])
    else
      Outcome(Success(existing), [])
  }

  // ---------------------------------------------------------------------
  // Opaque-network matching
  // ---------------------------------------------------------------------

  /** `_is_valid_opaque_network_id`: whether a candidate with `opaqueId` is
      accepted when the host reports `numNetworks` candidates. */
  function IsValidOpaqueNetworkId(opaqueId: string, bridgeId: string, integrationBridge: string,
                                  numNetworks: int): (r: bool)
    // the requested bridge id is always accepted
    ensures opaqueId == bridgeId ==> r
    // the integration bridge is a fallback only for a lone candidate
    ensures opaqueId != bridgeId ==> (r <==> numNetworks == 1 && opaqueId == integrationBridge)
    // so with any other count only an exact match is accepted
    ensures numNetworks != 1 ==> (r <==> opaqueId == bridgeId)
  {
    opaqueId == bridgeId || (numNetworks == 1 && opaqueId == integrationBridge)
  }

  /** Index of the first candidate accepted, scanning in list order. */
  function FirstMatch(cands: seq<OpaqueNetworkInfo>, numNetworks: int, integrationBridge: string,
                      bridge: string): (r: Option<nat>)
    ensures r.Some? ==>
      && r.value < |cands|
      && IsValidOpaqueNetworkId(cands[r.value].opaqueNetworkId, bridge, integrationBridge, numNetworks)
    ensures r.Some? ==> forall j :: 0 <= j < r.value ==>
      !IsValidOpaqueNetworkId(cands[j].opaqueNetworkId, bridge, integrationBridge, numNetworks)
    ensures r.None? ==> forall j :: 0 <= j < |cands| ==>
      !IsValidOpaqueNetworkId(cands[j].opaqueNetworkId, bridge, integrationBridge, numNetworks)
  {
    if |cands| == 0 then None
    else if IsValidOpaqueNetworkId(cands[0].opaqueNetworkId, bridge, integrationBridge, numNetworks) then
      Some(0)
    else
      match FirstMatch(cands[1..], numNetworks, integrationBridge, bridge)
      case None => None
      case Some(k) => Some(k + 1)
  }

  /** The reference built from a host-reported opaque network. */
  function OpaqueRef(c: OpaqueNetworkInfo): NetworkRef {
    OpaqueNetwork(c.opaqueNetworkId, c.opaqueNetworkName, c.opaqueNetworkType)
  }

  /** `_get_network_ref_from_opaque`: the first candidate accepted, as an
      opaque-network reference; `None` when none is. */
  function NetworkRefFromOpaque(cands: seq<OpaqueNetworkInfo>, integrationBridge: string,
                                bridge: string): (r: Option<NetworkRef>)
    ensures r.None? <==> forall j :: 0 <= j < |cands| ==>
      !IsValidOpaqueNetworkId(cands[j].opaqueNetworkId, bridge, integrationBridge, |cands|)
    ensures r.Some? ==>
      exists k ::
        && 0 <= k < |cands| && r.value == OpaqueRef(cands[k])
        && IsValidOpaqueNetworkId(cands[k].opaqueNetworkId, bridge, integrationBridge, |cands|)
        && forall j :: 0 <= j < k ==>
             !IsValidOpaqueNetworkId(cands[j].opaqueNetworkId, bridge, integrationBridge, |cands|)
  {
    match FirstMatch(cands, |cands|, integrationBridge, bridge)
    case None => None
    case Some(k) => Some(OpaqueRef(cands[k]))
  }

  // ---------------------------------------------------------------------
  // Neutron path and dispatcher
  // ---------------------------------------------------------------------

  /** The host's opaque-network list when it reports a non-empty one; an
      unsupported property and an empty list both read as nothing. */
  function ReportedOpaque(h: HostView): (r: seq<OpaqueNetworkInfo>)
    // an unsupported property falls back exactly like an empty list
    ensures r == [] <==> h.opaqueNetworks.Unsupported? || h.opaqueNetworks.networks == []
    ensures r != [] ==> h.opaqueNetworks == Reported(r)
  {
    match h.opaqueNetworks
    case Unsupported => []
    case Reported(l) => l
  }

  /** `get_neutron_network` */
  function NeutronNetwork(cfg: Config, h: HostView, networkName: string, net: Network): (r: Result<NetworkRef, VifError>)
    ensures ReportedOpaque(h) != [] ==>
      match NetworkRefFromOpaque(ReportedOpaque(h), cfg.integrationBridge, net.id)
      case Some(ref) => r == Success(ref)
      case None => r == Failure(NetworkNotFoundForBridge(net.id))
    ensures ReportedOpaque(h) == [] ==>
      match NetworkWithName(h, networkName)
      case Some(ref) => r == Success(ref)
      case None => r == Failure(NetworkNotFoundForBridge(networkName))
  {
    var opaqueNets := ReportedOpaque(h);
    var bridge := if opaqueNets != [] then net.id else networkName;
    var found :=
      if opaqueNets != [] then NetworkRefFromOpaque(opaqueNets, cfg.integrationBridge, bridge)
      else NetworkWithName(h, networkName);
    if found.None? then Failure(NetworkNotFoundForBridge(bridge)) else Success(found.value)
  }

  /** The bridge name synthesised for a neutron VLAN network. */
  function VlanBridgeName(vlan: Option<int>): (name: string)
    ensures |name| > 3 && name[..3] == "br-"
    ensures vlan.None? ==> name == "br-None"
    // the tag can be read back from the name
    ensures vlan.Some? ==> IsIntText(name[3..]) && ParseInt(name[3..]) == vlan.value
  {
    var name := "br-" + OptionalIntToText(vlan);
    assert name[3..] == OptionalIntToText(vlan);
    if vlan.Some? then IntTextRoundTrip(vlan.value); name else name
  }

  /** `get_network_ref`: returns the descriptor as the call leaves it
      (the bridge is rewritten on the neutron VLAN path) and the outcome. */
  function NetworkRefFor(cfg: Config, h: HostView, net: Network, isNeutron: bool,
                         requery: Option<NetworkRef>): (r: (Network, Outcome<Option<NetworkRef>>))
    // only the bridge may change, and only on the neutron VLAN path
    ensures r.0.id == net.id && r.0.meta == net.meta
    ensures r.0.bridge != net.bridge ==> isNeutron && net.meta.networkType == Some("vlan")
    ensures isNeutron && net.meta.networkType == Some("vlan") ==>
      && r.0.bridge == VlanBridgeName(net.meta.vlan)
      && r.1 == EnsureVlanBridge(cfg, h, r.0, true, requery)
    ensures isNeutron && net.meta.networkType != Some("vlan") ==>
      var name := if net.bridge != "" then net.bridge else cfg.integrationBridge;
      && r.1.actions == []
      && match NeutronNetwork(cfg, h, name, net)
         case Success(ref) => r.1.result == Success(Some(ref))
         case Failure(e) => r.1.result == Failure(e)
    ensures !isNeutron ==>
      r.1 == EnsureVlanBridge(cfg, h, net, net.meta.shouldCreateVlan == Some(true), requery)
  {
    if isNeutron then
      if net.meta.networkType == Some("vlan") then
        var bridge := VlanBridgeName(net.meta.vlan);
        var net' := net.(bridge := bridge);
        (net', EnsureVlanBridge(cfg, h, net', true, requery))
      else
        var networkName := if net.bridge != "" then net.bridge else cfg.integrationBridge;
        match NeutronNetwork(cfg, h, networkName, net)
        case Success(ref) => (net, Outcome(Success(Some(ref)), []))
        case Failure(e) => (net, Outcome(Failure(e), []))
    else
      var createVlan := net.meta.shouldCreateVlan.GetOr(false);
      (net, EnsureVlanBridge(cfg, h, net, createVlan, requery))
  }
}
