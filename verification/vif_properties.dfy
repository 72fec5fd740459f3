/** Properties relating several resolver calls, or a call to an independent
    description of what it must produce. */
module VifProperties {
  import opened Wrappers
  import opened Decimal
  import opened HostState
  import opened Vif

  // ---------------------------------------------------------------------
  // Opaque-network matching
  // ---------------------------------------------------------------------

  /** A single reported network whose id is the integration bridge is
      chosen whatever bridge id was asked for. */
  lemma SingletonIntegrationBridgeChosen(c: OpaqueNetworkInfo, integrationBridge: string, bridge: string)
    requires c.opaqueNetworkId == integrationBridge
    ensures NetworkRefFromOpaque([c], integrationBridge, bridge)
            == Some(OpaqueNetwork(c.opaqueNetworkId, c.opaqueNetworkName, c.opaqueNetworkType))
  {
  }

  predicate DistinctIds(cands: seq<OpaqueNetworkInfo>) {
    forall i, j :: 0 <= i < j < |cands| ==> cands[i].opaqueNetworkId != cands[j].opaqueNetworkId
  }

  /** When the reported ids are distinct, at most one candidate is accepted. */
  lemma AtMostOneMatch(cands: seq<OpaqueNetworkInfo>, integrationBridge: string, bridge: string,
                       i: nat, j: nat)
    requires DistinctIds(cands)
    requires i < |cands| && j < |cands|
    requires IsValidOpaqueNetworkId(cands[i].opaqueNetworkId, bridge, integrationBridge, |cands|)
    requires IsValidOpaqueNetworkId(cands[j].opaqueNetworkId, bridge, integrationBridge, |cands|)
    ensures i == j
  {
  }

  /** With distinct ids, the result is the accepted element of the
      collection, wherever it stands in the list. */
  lemma MatchIsTheAcceptedElement(cands: seq<OpaqueNetworkInfo>, integrationBridge: string,
                                  bridge: string, c: OpaqueNetworkInfo)
    requires DistinctIds(cands)
    requires c in cands
    requires IsValidOpaqueNetworkId(c.opaqueNetworkId, bridge, integrationBridge, |cands|)
    ensures NetworkRefFromOpaque(cands, integrationBridge, bridge) == Some(OpaqueRef(c))
  {
  }

  /** Reordering a list of distinct-id candidates never changes the match. */
  lemma OpaqueMatchOrderIndependent(s: seq<OpaqueNetworkInfo>, t: seq<OpaqueNetworkInfo>,
                                    integrationBridge: string, bridge: string)
    requires DistinctIds(s)
    requires multiset(s) == multiset(t)
    ensures NetworkRefFromOpaque(s, integrationBridge, bridge)
            == NetworkRefFromOpaque(t, integrationBridge, bridge)
  {
    assert |s| == |multiset(s)| == |multiset(t)| == |t|;
    var rs := NetworkRefFromOpaque(s, integrationBridge, bridge);
    var rt := NetworkRefFromOpaque(t, integrationBridge, bridge);
    if rs.Some? {
      var k :| && 0 <= k < |s| && rs.value == OpaqueRef(s[k])
               && IsValidOpaqueNetworkId(s[k].opaqueNetworkId, bridge, integrationBridge, |s|);
      assert s[k] in multiset(s);
      var j :| 0 <= j < |t| && t[j] == s[k];
      assert IsValidOpaqueNetworkId(t[j].opaqueNetworkId, bridge, integrationBridge, |t|);
    }
    if rt.Some? {
      var k :| && 0 <= k < |t| && rt.value == OpaqueRef(t[k])
               && IsValidOpaqueNetworkId(t[k].opaqueNetworkId, bridge, integrationBridge, |t|);
      assert t[k] in multiset(t);
      assert t[k] in s;
      MatchIsTheAcceptedElement(s, integrationBridge, bridge, t[k]);
    }
  }

  /** Distinct ids are needed for order independence: two candidates sharing
      the requested id are picked by position. */
  lemma DuplicateIdsOrderDependent()
    ensures var a := OpaqueNetworkInfo("x", "A", "nsx.LogicalSwitch");
            var b := OpaqueNetworkInfo("x", "B", "nsx.LogicalSwitch");
            && multiset([a, b]) == multiset([b, a])
            && NetworkRefFromOpaque([a, b], "br-int", "x") == Some(OpaqueNetwork("x", "A", "nsx.LogicalSwitch"))
            && NetworkRefFromOpaque([b, a], "br-int", "x") == Some(OpaqueNetwork("x", "B", "nsx.LogicalSwitch"))
  {
  }

  // ---------------------------------------------------------------------
  // Neutron path
  // ---------------------------------------------------------------------

  /** The neutron lookup does not depend on the order in which the host
      lists distinct-id opaque networks. */
  lemma NeutronOrderIndependent(cfg: Config, h1: HostView, h2: HostView, networkName: string,
                                net: Network)
    requires h1.opaqueNetworks.Reported? && h2.opaqueNetworks.Reported?
    requires DistinctIds(h1.opaqueNetworks.networks)
    requires multiset(h1.opaqueNetworks.networks) == multiset(h2.opaqueNetworks.networks)
    requires h1.networks == h2.networks
    ensures NeutronNetwork(cfg, h1, networkName, net) == NeutronNetwork(cfg, h2, networkName, net)
  {
    var s, t := h1.opaqueNetworks.networks, h2.opaqueNetworks.networks;
    assert |s| == |multiset(s)| == |multiset(t)| == |t|;
    OpaqueMatchOrderIndependent(s, t, cfg.integrationBridge, net.id);
  }

  /** A network found through the opaque list is an opaque network reported
      by the host, whose id is the descriptor's id or, for a lone candidate,
      the integration bridge. */
  lemma NeutronOpaqueResultIdentity(cfg: Config, h: HostView, networkName: string, net: Network)
    requires ReportedOpaque(h) != []
    requires NeutronNetwork(cfg, h, networkName, net).Success?
    ensures var ref := NeutronNetwork(cfg, h, networkName, net).value;
            && ref.OpaqueNetwork?
            && (exists c :: c in ReportedOpaque(h) && ref == OpaqueRef(c))
            && (ref.networkId == net.id
                || (|ReportedOpaque(h)| == 1 && ref.networkId == cfg.integrationBridge))
  {
  }

  // ---------------------------------------------------------------------
  // VLAN bridge provisioner
  // ---------------------------------------------------------------------

  /** An existing standard port group is returned under VLAN enforcement only
      when it sits on the adapter's vSwitch and carries the requested tag. */
  lemma EnsureReturnsOnlyConsistent(cfg: Config, h: HostView, net: Network,
                                    requery: Option<NetworkRef>)
    requires NetworkWithName(h, net.bridge).Some? && !IsDistributed(NetworkWithName(h, net.bridge))
    requires EnsureVlanBridge(cfg, h, net, true, requery).result.Success?
    ensures AssociatedVswitch(h, cfg.vlanInterface).Success?
    ensures PortGroupInfoFor(h, net.bridge)
            == PortGroupInfo(net.meta.vlan, AssociatedVswitch(h, cfg.vlanInterface).value)
  {
  }

  /** A creation never rebinds the adapter: the vSwitch and dvSwitch it
      resolves to are the same before and after the host settles. */
  lemma SettleKeepsAdapterBinding(h: HostView, actions: seq<CreateAction>, adapter: string)
    ensures AssociatedVswitch(Settle(h, actions), adapter) == AssociatedVswitch(h, adapter)
    ensures AssociatedDvswitch(Settle(h, actions), adapter) == AssociatedDvswitch(h, adapter)
  {
  }

  /** Once the host shows what a successful call created, calling again with
      the same descriptor returns the same network, raises nothing and asks
      for no further creation. */
  lemma EnsureStableAfterSettle(cfg: Config, h: HostView, net: Network, createVlan: bool,
                                requery: Option<NetworkRef>, requery2: Option<NetworkRef>)
    requires EnsureVlanBridge(cfg, h, net, createVlan, requery).result.Success?
    requires requery == NetworkWithName(Settle(h, EnsureVlanBridge(cfg, h, net, createVlan, requery).actions), net.bridge)
    requires requery2 == requery
    ensures var o1 := EnsureVlanBridge(cfg, h, net, createVlan, requery);
            var o2 := EnsureVlanBridge(cfg, Settle(h, o1.actions), net, createVlan, requery2);
            o2.result == o1.result && o2.actions == []
  {
  }

  // ---------------------------------------------------------------------
  // Dispatcher
  // ---------------------------------------------------------------------

  /** Different VLAN values (an absent one included) are never given the same
      synthesised bridge name. */
  lemma VlanBridgeNameInjective(a: Option<int>, b: Option<int>)
    requires VlanBridgeName(a) == VlanBridgeName(b)
    ensures a == b
  {
  }

  /** The VLAN tag can be read back from the bridge name the neutron VLAN
      path writes into the descriptor. */
  lemma VlanBridgeNameRoundTrip(cfg: Config, h: HostView, net: Network, requery: Option<NetworkRef>)
    requires net.meta.networkType == Some("vlan") && net.meta.vlan.Some?
    ensures var net' := NetworkRefFor(cfg, h, net, true, requery).0;
            && net'.bridge[..3] == "br-"
            && IsIntText(net'.bridge[3..])
            && ParseInt(net'.bridge[3..]) == net.meta.vlan.value
  {
  }

  // ---------------------------------------------------------------------
  // Concrete scenarios
  // ---------------------------------------------------------------------

  const Vmnic: string := DefaultVlanInterface

  /** An existing port group tagged 5 on the adapter's vSwitch, asked for
      tag 7 with VLAN enforcement, raises the tag mismatch. */
  lemma TagMismatchScenario(requery: Option<NetworkRef>)
    ensures var h := HostView({Vmnic}, map[Vmnic := "vSwitch0"], map[],
                              map["br100" := StandardPortGroup("br100")],
                              map["br100" := PortGroupInfo(Some(5), Some("vSwitch0"))], Unsupported);
            var net := Network("net-1", "br100", NetworkMeta(Some(7), None, None));
            EnsureVlanBridge(Config(Vmnic, "br-int"), h, net, true, requery)
            == Outcome(Failure(InvalidVLANTag("br100", Some(7), Some(5))), [])
  {
  }

  /** Non-neutron, no VLAN requested, bridge missing: one untagged port group
      is created on the adapter's vSwitch and the re-query is returned. */
  lemma UntaggedCreationScenario()
    ensures var h := HostView({Vmnic}, map[Vmnic := "vSwitch0"], map[], map[], map[], Unsupported);
            var net := Network("net-1", "bridge0", NetworkMeta(Some(42), None, None));
            NetworkRefFor(Config(Vmnic, "br-int"), h, net, false, Some(StandardPortGroup("bridge0")))
            == (net, Outcome(Success(Some(StandardPortGroup("bridge0"))),
                             [CreatePortGroup("bridge0", "vSwitch0", Some(0))]))
  {
  }

  /** Neutron VLAN network with tag 42: the bridge becomes `br-42` and a
      port group tagged 42 is created under that name. */
  lemma NeutronVlanScenario()
    ensures var h := HostView({Vmnic}, map[Vmnic := "vSwitch0"], map[], map[], map[], Unsupported);
            var net := Network("net-1", "", NetworkMeta(Some(42), Some("vlan"), None));
            var r := NetworkRefFor(Config(Vmnic, "br-int"), h, net, true, Some(StandardPortGroup("br-42")));
            && r.0.bridge == "br-42"
            && r.1 == Outcome(Success(Some(StandardPortGroup("br-42"))),
                              [CreatePortGroup("br-42", "vSwitch0", Some(42))])
  {
  }

  /** Neutron, two opaque networks, neither with the descriptor's id: the
      lookup fails naming that id. */
  lemma OpaqueNotFoundScenario(requery: Option<NetworkRef>)
    ensures var opaqueNets := [OpaqueNetworkInfo("a", "net-a", "nsx.LogicalSwitch"),
                               OpaqueNetworkInfo("br-int", "net-b", "nsx.LogicalSwitch")];
            var h := HostView({}, map[], map[], map[], map[], Reported(opaqueNets));
            var net := Network("net-1", "", NetworkMeta(None, None, None));
            NetworkRefFor(Config(Vmnic, "br-int"), h, net, true, requery).1
            == Outcome(Failure(NetworkNotFoundForBridge("net-1")), [])
  {
  }
}
