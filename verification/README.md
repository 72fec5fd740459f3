# VMware VIF network-binding resolver

A Dafny model of the network-binding resolver of Nova's VMware driver
(`nova/virt/vmwareapi/vif.py`). Given a VM interface's network descriptor, the
resolver decides which network the interface attaches to: a standard port
group, a distributed port group or an opaque (SDN-managed) network. It creates
the port group when it is missing and checks that an existing one sits on the
right vSwitch with the right VLAN tag.

Layout:

- `wrappers.dfy` (`Wrappers`): `Option` and `Result`. `Failure(e)` stands for exception `e` being raised.
- `decimal.dfy` (`Decimal`): Python's `str()` on the VLAN value, with its inverse. It is used for the synthesised bridge name `br-<vlan>`.
- `host_state.dfy` (`HostState`): what the host reports, as one immutable `HostView`. It holds the adapters present, adapter→vSwitch and adapter→dvSwitch maps, networks by name, recorded port-group VLAN/vSwitch, and the opaque-network property. It also holds the network references and the `CreateAction`s the resolver can request.
- `vif.py` is modelled in `vif.dfy` (`Vif`). Every function there is pure, and each takes only what its Python counterpart reads:
  - the adapter lookups take a host view and an adapter name; the vSwitch lookup returns a `Result`, the dvSwitch lookup an `Option`;
  - the opaque matcher takes the candidate list and the two ids, and returns an `Option`;
  - the neutron lookup takes the configuration, a host view, the network name and the descriptor, and returns a `Result`;
  - the provisioner and the dispatcher also take the re-query input, and return an `Outcome`: a `Result` plus the list of creations issued.
- `vif_properties.dfy` (`VifProperties`): properties that relate several calls:
  - order independence of opaque matching;
  - stability of a second call once the host shows what the first created;
  - injectivity and round trip of the synthesised bridge name;
  - four concrete scenarios: tag mismatch, untagged creation, neutron VLAN, and opaque network not found.

Modelling choices:

- Python falsiness is written out. A vSwitch or dvSwitch name `""` means "none". An empty bridge falls back to the integration bridge. An opaque-network property that is unsupported, or whose list is empty, means "no opaque networks".
- The `vlan` metadata is `Option<int>`, because `get_meta` yields `None` when the key is absent. Equality checks against recorded port-group values compare options, as Python compares `None` with values.
- A port group the host does not describe reads as `(None, None)`.
- The network shown when the host is re-queried after a creation is the free input `requery`, because what the host shows then is outside the code.

## Model

| member | source | states |
|---|---|---|
| Vif.AssociatedVswitch | nova/virt/vmwareapi/vif.py:42-52 | Fails with `NetworkAdapterNotFound(adapter)` exactly when the adapter is not on the host. Otherwise it yields the adapter's vSwitch, or `None` when there is none or the name is empty. |
| Vif.AssociatedDvswitch | nova/virt/vmwareapi/vif.py:55-61 | Never fails and does not check the adapter. Yields the dvSwitch exactly when the adapter has a non-empty one. |
| Vif.EnsureVlanBridge | nova/virt/vmwareapi/vif.py:64-115 | An existing distributed port group is returned as found, with no creation and no checks. A missing bridge needs the adapter to exist. It then issues exactly one creation named after the bridge: on the vSwitch, else on the dvSwitch, else none. The tag is the vlan under `create_vlan`, 0 otherwise. The result is the re-query, possibly None. An existing standard port group is returned unchecked without `create_vlan`. With it, adapter, then vSwitch (`InvalidVLANPortGroup`), then tag (`InvalidVLANTag`) are checked in that order. Errors never come with a creation. |
| Vif.FirstMatch | nova/virt/vmwareapi/vif.py:126-129 | Returns the index of an accepted candidate with no accepted candidate before it, or None when no candidate is accepted. |
| Vif.NetworkRefFromOpaque | nova/virt/vmwareapi/vif.py:125-137 | None exactly when no candidate is accepted. Otherwise an `OpaqueNetwork` carrying the id, name and type of the first accepted candidate. |
| Vif.IsDistributed | nova/virt/vmwareapi/vif.py:72 | The `'type' == 'DistributedVirtualPortgroup'` test holds exactly for a found distributed port group. |
| Vif.CreationTag | nova/virt/vmwareapi/vif.py:86-91 | A creation is tagged with the descriptor's vlan under `create_vlan`, and with 0 otherwise. |
| Vif.ReportedOpaque | nova/virt/vmwareapi/vif.py:142-148 | An unsupported opaque property and an empty list both read as "no opaque networks"; otherwise it is the reported list. |
| Vif.VlanBridgeName | nova/virt/vmwareapi/vif.py:167 | The name starts with `br-`. For an absent vlan it is `br-None`; otherwise the rest parses back to the vlan. |
| Vif.NeutronNetwork | nova/virt/vmwareapi/vif.py:140-159 | With a non-empty opaque list, the match for the descriptor's id, else `NetworkNotFoundForBridge(id)`. Otherwise the lookup by network name, else `NetworkNotFoundForBridge(name)`. |
| Vif.NetworkRefFor | nova/virt/vmwareapi/vif.py:162-180 | Neutron VLAN: the bridge becomes `"br-" + str(vlan)` and is provisioned with `create_vlan` true. Other neutron: the bridge, or the integration bridge when empty, is resolved by the neutron path with no creation. Non-neutron: provisioned with `should_create_vlan`, default false. Only the bridge of the descriptor ever changes. |
| Vif.IsValidOpaqueNetworkId | nova/virt/vmwareapi/vif.py:118-122 | The requested bridge id is always accepted. Another id is accepted iff it is the integration bridge and the host reports exactly one candidate, so with any other count only an exact match is accepted. |
| VifProperties.SingletonIntegrationBridgeChosen | nova/virt/vmwareapi/vif.py:118-133 | A lone candidate whose id is the integration bridge is chosen whatever bridge id was requested. |
| VifProperties.AtMostOneMatch | nova/virt/vmwareapi/vif.py:118-122 | With distinct ids, no two positions are both accepted. |
| VifProperties.MatchIsTheAcceptedElement | nova/virt/vmwareapi/vif.py:125-133 | With distinct ids, the result is the reference of the accepted element, wherever it stands in the list. |
| VifProperties.OpaqueMatchOrderIndependent | nova/virt/vmwareapi/vif.py:125-137 | With distinct ids, any permutation of the candidate list yields the same result. |
| VifProperties.DuplicateIdsOrderDependent | nova/virt/vmwareapi/vif.py:125-133 | Two candidates sharing the requested id give different results in the two orders, so order independence needs distinct ids. |
| VifProperties.NeutronOrderIndependent | nova/virt/vmwareapi/vif.py:140-159 | Two host views whose opaque lists are permutations of one distinct-id list give the same neutron lookup result. |
| VifProperties.NeutronOpaqueResultIdentity | nova/virt/vmwareapi/vif.py:148-152 | A result found through a non-empty opaque list is an opaque network reported by the host. Its id is the descriptor's id, or the integration bridge when the list has exactly one entry. |
| VifProperties.SettleKeepsAdapterBinding | nova/virt/vmwareapi/vif.py:79-84 | A creation never rebinds the adapter: its vSwitch and dvSwitch lookups give the same answers after the host settles. |
| VifProperties.EnsureReturnsOnlyConsistent | nova/virt/vmwareapi/vif.py:97-115 | Under VLAN enforcement, an existing standard port group is returned only when its recorded tag equals the vlan and its vSwitch equals the adapter's. |
| VifProperties.EnsureStableAfterSettle | nova/virt/vmwareapi/vif.py:70-115 | Suppose a call succeeded, and the host now shows what it created. A second call with the same descriptor then gives the same result, raises nothing and creates nothing. |
| Decimal.IntToText | nova/virt/vmwareapi/vif.py:167 | `str(i)` is an optional `-`, present iff `i` is negative, followed by decimal digits. |
| Decimal.OptionalIntToText | nova/virt/vmwareapi/vif.py:167 | `str(None)` is `None`; the text of an int never starts with `N`. |
| Decimal.NatTextRoundTrip | nova/virt/vmwareapi/vif.py:167 | Parsing the decimal text of a natural number gives the number back. |
| Decimal.IntTextRoundTrip | nova/virt/vmwareapi/vif.py:167 | Parsing `str(i)` of any int, negative ones included, gives `i` back. |
| Decimal.OptionalIntTextInjective | nova/virt/vmwareapi/vif.py:167 | `str(v)` is injective on ints and `None`. |
| VifProperties.VlanBridgeNameInjective | nova/virt/vmwareapi/vif.py:166-168 | Distinct VLAN values, an absent one included, never get the same synthesised bridge name. |
| VifProperties.VlanBridgeNameRoundTrip | nova/virt/vmwareapi/vif.py:165-168 | The bridge written into the descriptor starts with `br-`, and its remainder parses back to the VLAN tag. |
| VifProperties.TagMismatchScenario | nova/virt/vmwareapi/vif.py:111-114 | A port group tagged 5 on the right vSwitch, requested with tag 7, raises `InvalidVLANTag(bridge, 7, 5)`. |
| VifProperties.UntaggedCreationScenario | nova/virt/vmwareapi/vif.py:176-179 | Non-neutron without `should_create_vlan` and a missing bridge: one untagged port group is created on the vSwitch. |
| VifProperties.NeutronVlanScenario | nova/virt/vmwareapi/vif.py:165-170 | Neutron VLAN 42 gives bridge `br-42` and a creation tagged 42 under that name. |
| VifProperties.OpaqueNotFoundScenario | nova/virt/vmwareapi/vif.py:148-158 | Two opaque networks, neither with the descriptor's id: `NetworkNotFoundForBridge(id)`. |

## Left out

- The `cluster` argument: each call sees one `HostView`, taken to be the view the cluster-scoped queries return.
- `vm_util.get_host_ref` and the session transport: the opaque-network property is a field of the host view.
- `time.sleep(10)` before the re-query: the re-query result is an unconstrained input.
- The internals of `network_util` (how port groups are found and created) are not part of this model. Creation is an emitted `CreateAction`. `HostState.Settle` is an assumed description of a host after creation, used only by `EnsureStableAfterSettle`.
- Logging of an unmatched opaque list, option registration and message translation: no effect on results.
- An idempotent create-or-fetch, a bounded retry and tolerance of concurrent creators are not in the code, so they are not modelled.
- A network still missing after the re-query is not an error: the code returns None without raising (vif.py:94-96, 115); see `Vif.EnsureVlanBridge`.
- Order independence of opaque matching holds only when the reported ids are distinct. With a repeated id, the first listed candidate wins (`VifProperties.DuplicateIdsOrderDependent`).
- `nova/api/auditlog/middleware.py` (request audit logging): I/O and storage only.
- VLAN metadata values other than an int or absent (a string, say) are not modelled; `str()` is modelled on ints and `None`.
