/** What the host (or the cluster a call is scoped to) reports to the resolver.
    The queries of `network_util`, `vim_util` and `vm_util` become total
    functions over one immutable `HostView`; how they reach the host is not
    part of this model. */
module HostState {
  import opened Wrappers

  /** The network object the resolver hands back to its caller. */
  datatype NetworkRef =
    | StandardPortGroup(name: string)
    | DistributedPortGroup(name: string)
    | OpaqueNetwork(networkId: string, networkName: string, networkType: string)
  {
    /** The managed-object type name the host attaches to the reference. */
    function TypeName(): string {
      match this
      case StandardPortGroup(_) => "Network"
      case DistributedPortGroup(_) => DistributedPortgroupType
      case OpaqueNetwork(_, _, _) => "OpaqueNetwork"
    }
  }

  const DistributedPortgroupType: string := "DistributedVirtualPortgroup"

  /** One entry of the host's `config.network.opaqueNetwork` list. */
  datatype OpaqueNetworkInfo = OpaqueNetworkInfo(
    opaqueNetworkId: string,
    opaqueNetworkName: string,
    opaqueNetworkType: string)

  /** The `config.network.opaqueNetwork` property: either the host does not
      expose it at all, or it reports a (possibly empty) list. */
  datatype OpaqueProperty = Unsupported | Reported(networks: seq<OpaqueNetworkInfo>)

  /** VLAN id and vSwitch recorded for an existing standard port group; a
      port group the host does not describe reads as `(None, None)`. */
  datatype PortGroupInfo = PortGroupInfo(vlanId: Option<int>, vswitch: Option<string>)

  datatype HostView = HostView(
    adapters: set<string>,              // physical adapters present
    vswitchOf: map<string, string>,     // adapter -> standard vSwitch serving it
    dvswitchOf: map<string, string>,    // adapter -> distributed vSwitch serving it
    networks: map<string, NetworkRef>,  // networks visible by name
    portGroups: map<string, PortGroupInfo>,
    opaqueNetworks: OpaqueProperty)

  /** `check_if_vlan_interface_exists` */
  predicate AdapterExists(h: HostView, adapter: string) {
    adapter in h.adapters
  }

  /** `get_vswitch_for_vlan_interface`: the vSwitch name, or `""` for none. */
  function VswitchName(h: HostView, adapter: string): string {
    if adapter in h.vswitchOf then h.vswitchOf[adapter] else ""
  }

  /** `get_dvswitch_for_vlan_interface`: the dvSwitch name, or `""` for none. */
  function DvswitchName(h: HostView, adapter: string): string {
    if adapter in h.dvswitchOf then h.dvswitchOf[adapter] else ""
  }

  /** `get_network_with_the_name` */
  function NetworkWithName(h: HostView, name: string): Option<NetworkRef> {
    if name in h.networks then Some(h.networks[name]) else None
  }

  /** `get_vlanid_and_vswitch_for_portgroup` */
  function PortGroupInfoFor(h: HostView, name: string): PortGroupInfo {
    if name in h.portGroups then h.portGroups[name] else PortGroupInfo(None, None)
  }

  /** A port-group creation the resolver asks the host to perform: on a
      standard vSwitch of every host (`create_port_group_all_hosts`) or on a
      distributed vSwitch (`create_dvs_port_group`). */
  datatype CreateAction =
    | CreatePortGroup(name: string, vswitch: string, vlanTag: Option<int>)
    | CreateDvsPortGroup(name: string, dvswitch: string, vlanTag: Option<int>)

  /** What the host shows once a creation has taken effect.  The resolver
      itself never relies on this; it describes a host that has settled, so
      that a second resolution can be compared with the first. */
  function Settle(h: HostView, actions: seq<CreateAction>): (h': HostView)
    ensures h'.adapters == h.adapters
    ensures h'.vswitchOf == h.vswitchOf && h'.dvswitchOf == h.dvswitchOf
    decreases |actions|
  {
    if |actions| == 0 then h
    else
      var a := actions[0];
      var h1 := match a
        case CreatePortGroup(name, vs, tag) =>
          h.(networks := h.networks[name := StandardPortGroup(name)],
             portGroups := h.portGroups[name := PortGroupInfo(tag, Some(vs))])
        case CreateDvsPortGroup(name, _, _) =>
          h.(networks := h.networks[name := DistributedPortGroup(name)]);
      Settle(h1, actions[1..])
  }
}
