/**
 * Properties of the wiring: the links one node gets on one plane, which
 * planes apply, how converged mode ignores the per-plane settings, that a
 * disabled plane leaves no trace, and how downstream port names collide
 * across layers but not within one.
 */
module WiringProperties {
  import opened Types
  import opened Decimal
  import opened Generator
  import opened FabricProperties
  import opened TopologyProperties
  import opened LayoutProperties

  /**
   * One node's links on one plane: one per switch of the plane's fabric, at most two;
   * link k goes to switch k from the node's port `<p>k`, into the switch's port `<p>-P<i>`.
   */
  lemma PlaneEdgesShape(nodeId: string, i: nat, plane: NetworkPlane, switchIds: seq<string>, portPrefix: string,
                        speed: string)
    ensures var es := PlaneEdges(nodeId, i, plane, switchIds, portPrefix, speed);
      && |es| == (if |switchIds| < 2 then |switchIds| else 2)
      && forall k :: 0 <= k < |es| ==>
           es[k] == EdgeConfig(nodeId, switchIds[k], plane, portPrefix + [DigitChar(k)], PortName(portPrefix, i), speed)
  {
  }

  /** The out-of-band plane gives each node exactly one link when it is enabled, and none otherwise. */
  lemma IpmiOneLinkPerNode(config: ProjectConfig, kind: LayerKind)
    ensures PlaneDegree(config, Switches(config.network), kind, IpmiPlane) == if config.network.enableIpmi then 1 else 0
  {
  }

  /** Every link of the topology is a stack link between the two switches of a fabric, or a node link on an applicable plane. */
  lemma EdgePlanes(config: ProjectConfig)
    ensures forall e :: e in Topology(config).edges ==>
      if e.plane == StackPlane then e.sourcePort == "Stack-L" && e.targetPort == "Stack-R"
      else PlaneWired(config, ComputeLayer, e.plane) || PlaneWired(config, StorageLayer, e.plane)
  {
    forall e | e in Topology(config).edges
      ensures if e.plane == StackPlane then e.sourcePort == "Stack-L" && e.targetPort == "Stack-R"
              else PlaneWired(config, ComputeLayer, e.plane) || PlaneWired(config, StorageLayer, e.plane)
    {
      EdgeOrigin(config, e);
    }
  }

  // ---------------------------------------------------------------------------
  // Converged mode ignores the per-plane settings
  // ---------------------------------------------------------------------------

  lemma {:induction false} LayerEdgesAgree(c1: ProjectConfig, c2: ProjectConfig, sw: SwitchMap, kind: LayerKind,
                                            prefix: string, n: nat)
    requires forall plane :: PlaneWired(c1, kind, plane) == PlaneWired(c2, kind, plane)
    ensures LayerEdges(c1, sw, kind, prefix, n) == LayerEdges(c2, sw, kind, prefix, n)
  {
    if n > 0 {
      LayerEdgesAgree(c1, c2, sw, kind, prefix, n - 1);
      assert NodeEdges(c1, sw, kind, prefix, n - 1) == NodeEdges(c2, sw, kind, prefix, n - 1);
    }
  }

  /** A layer's nodes depend on the network only through its deployment mode. */
  lemma LayerNodesModeOnly(n1: NetworkConfig, n2: NetworkConfig, kind: LayerKind, prefix: string, baseY: int,
                           startIp: nat, n: nat)
    requires n1.deploymentMode == n2.deploymentMode
    ensures LayerNodes(n1, kind, prefix, baseY, startIp, n) == LayerNodes(n2, kind, prefix, baseY, startIp, n)
  {
    var a := LayerNodes(n1, kind, prefix, baseY, startIp, n);
    var b := LayerNodes(n2, kind, prefix, baseY, startIp, n);
    assert forall k :: 0 <= k < n ==> a[k] == b[k];
  }

  /**
   * In converged mode the four data planes' enable flags and redundancies play no
   * part: two configurations that differ only in them produce the same topology.
   */
  lemma ConvergedIgnoresPlaneSettings(c1: ProjectConfig, c2: ProjectConfig)
    requires c1.network.deploymentMode == Converged == c2.network.deploymentMode
    requires c1.network.coreRedundancy == c2.network.coreRedundancy
    requires c1.network.enableIpmi == c2.network.enableIpmi
    requires c1 == c2.(network := c1.network)
    ensures Topology(c1) == Topology(c2)
  {
    ConvergedFabricsAgree(c1.network, c2.network);
    ConvergedLayersAgree(c1, c2);
    TopologyParts(c1);
    TopologyParts(c2);
  }

  lemma ConvergedFabricsAgree(n1: NetworkConfig, n2: NetworkConfig)
    requires n1.deploymentMode == Converged == n2.deploymentMode
    requires n1.coreRedundancy == n2.coreRedundancy && n1.enableIpmi == n2.enableIpmi
    ensures Switches(n1) == Switches(n2)
    ensures FabricPlans(n1) == FabricPlans(n2)
  {
  }

  lemma ConvergedLayersAgree(c1: ProjectConfig, c2: ProjectConfig)
    requires c1.network.deploymentMode == Converged == c2.network.deploymentMode
    requires c1.network.coreRedundancy == c2.network.coreRedundancy
    requires c1.network.enableIpmi == c2.network.enableIpmi
    requires c1 == c2.(network := c1.network)
    ensures ComputeNodes(c1) == ComputeNodes(c2) && StorageNodes(c1) == StorageNodes(c2)
    ensures ComputeEdges(c1) == ComputeEdges(c2) && StorageEdges(c1) == StorageEdges(c2)
    ensures ComputeGroup(c1) == ComputeGroup(c2) && StorageGroups(c1) == StorageGroups(c2)
  {
    var n1, n2 := c1.network, c2.network;
    assert LayerTop(n1) == LayerTop(n2) && StorageY(c1) == StorageY(c2);
    assert HasStorageLayer(c1) == HasStorageLayer(c2);
    ConvergedEdgesAgree(c1, c2);
    LayerNodesModeOnly(n1, n2, ComputeLayer, "comp", LayerTop(n1), 10, c1.nodeCount);
    LayerNodesModeOnly(n1, n2, StorageLayer, "store", StorageY(c1), 50, c1.storageCount);
  }

  lemma ConvergedEdgesAgree(c1: ProjectConfig, c2: ProjectConfig)
    requires c1.network.deploymentMode == Converged == c2.network.deploymentMode
    requires c1.network.coreRedundancy == c2.network.coreRedundancy
    requires c1.network.enableIpmi == c2.network.enableIpmi
    requires c1 == c2.(network := c1.network)
    ensures ComputeEdges(c1) == ComputeEdges(c2) && StorageEdges(c1) == StorageEdges(c2)
  {
    ConvergedFabricsAgree(c1.network, c2.network);
    var sw := Switches(c1.network);
    ConvergedWiringAgrees(c1, c2, ComputeLayer);
    ConvergedWiringAgrees(c1, c2, StorageLayer);
    LayerEdgesAgree(c1, c2, sw, ComputeLayer, "comp", c1.nodeCount);
    LayerEdgesAgree(c1, c2, sw, StorageLayer, "store", c1.storageCount);
  }

  lemma ConvergedWiringAgrees(c1: ProjectConfig, c2: ProjectConfig, kind: LayerKind)
    requires c1.network.deploymentMode == Converged == c2.network.deploymentMode
    requires c1.network.enableIpmi == c2.network.enableIpmi
    requires c1 == c2.(network := c1.network)
    ensures forall plane :: PlaneWired(c1, kind, plane) == PlaneWired(c2, kind, plane)
  {
  }

  // ---------------------------------------------------------------------------
  // A disabled plane leaves no trace
  // ---------------------------------------------------------------------------

  /** The role of the fabric that carries a plane in physically separated mode. */
  function PlaneRole(plane: NetworkPlane): SwitchRole
  {
    match plane
    case ManagementPlane => MgmtRole
    case BusinessPlane => BusRole
    case StoragePlane => StorRole
    case BackupPlane => BackupRole
    case _ => IpmiRole
  }

  /** The plane gets no fabric and no links: disabled in separated mode, or the disabled out-of-band plane. */
  predicate PlaneOff(net: NetworkConfig, plane: NetworkPlane)
  {
    match plane
    case ManagementPlane => net.deploymentMode == PhysicallySeparated && !net.enableManagement
    case BusinessPlane => net.deploymentMode == PhysicallySeparated && !net.enableBusiness
    case StoragePlane => net.deploymentMode == PhysicallySeparated && !net.enableStorage
    case BackupPlane => net.deploymentMode == PhysicallySeparated && !net.enableBackup
    case IpmiPlane => !net.enableIpmi
    case _ => false
  }

  lemma RoleNameInjective(a: SwitchRole, b: SwitchRole)
    ensures RoleName(a) == RoleName(b) <==> a == b
  {
    if a != b {
      assert RoleName(a)[0] != RoleName(b)[0] || |RoleName(a)| != |RoleName(b)|;
    }
  }

  lemma FabricGroupIdInjective(a: SwitchRole, b: SwitchRole)
    ensures FabricGroupId(a) == FabricGroupId(b) <==> a == b
  {
    if FabricGroupId(a) == FabricGroupId(b) {
      PrefixCancel("grp-sw-", RoleName(a), RoleName(b));
      RoleNameInjective(a, b);
    }
  }

  ghost predicate AvoidsRole(ps: seq<FabricPlan>, r: SwitchRole)
  {
    forall k :: 0 <= k < |ps| ==> ps[k].role != r
  }

  lemma {:induction false} PlaceAvoidsRole(acc: Layout, c: PlaneFabric, r: SwitchRole)
    requires AvoidsRole(acc.plans, r) && (c.enabled ==> c.role != r)
    ensures AvoidsRole(Place(acc, c).plans, r)
  {
    if c.enabled {
      var ps := Place(acc, c).plans;
      assert forall k :: 0 <= k < |acc.plans| ==> ps[k] == acc.plans[k];
    }
  }

  lemma SeparatedRoleAbsent(net: NetworkConfig, plane: NetworkPlane)
    requires net.deploymentMode == PhysicallySeparated && plane != IpmiPlane && PlaneOff(net, plane)
    ensures AvoidsRole(SeparatedLayout(net).plans, PlaneRole(plane))
  {
    var r := PlaneRole(plane);
    var l0 := Layout([], 0);
    var l1 := Place(l0, ManagementFabric(net));
    var l2 := Place(l1, BusinessFabric(net));
    var l3 := Place(l2, StorageFabric(net));
    PlaceAvoidsRole(l0, ManagementFabric(net), r);
    PlaceAvoidsRole(l1, BusinessFabric(net), r);
    PlaceAvoidsRole(l2, StorageFabric(net), r);
    PlaceAvoidsRole(l3, BackupFabric(net), r);
  }

  lemma DisabledPlaneHasNoFabric(net: NetworkConfig, plane: NetworkPlane)
    requires PlaneOff(net, plane)
    ensures forall k :: 0 <= k < |FabricPlans(net)| ==> FabricPlans(net)[k].role != PlaneRole(plane)
    ensures PlaneSwitches(Switches(net), plane) == []
  {
    var main := PlaneFabrics(net);
    var all := FabricPlans(net);
    assert forall k :: 0 <= k < |main| ==> all[k] == main[k];
    if plane == IpmiPlane {
      assert all == main;
      if net.deploymentMode == PhysicallySeparated {
        SeparatedRanksIncrease(net);
      }
      assert RanksBelow(main, 5);
    } else {
      SeparatedRoleAbsent(net, plane);
    }
  }

  lemma DisabledPlaneNoEdges(config: ProjectConfig, plane: NetworkPlane)
    requires PlaneOff(config.network, plane)
    ensures forall e :: e in Topology(config).edges ==> e.plane != plane
  {
    forall e | e in Topology(config).edges
      ensures e.plane != plane
    {
      EdgeOrigin(config, e);
    }
  }

  lemma LayerGroupIdsAreNotFabricIds(r: SwitchRole)
    ensures LayerGroupId("comp") != FabricGroupId(r) && LayerGroupId("store") != FabricGroupId(r)
  {
    var gid := FabricGroupId(r);
    assert gid[4] == 's' && gid[5] == 'w';
    assert LayerGroupId("comp")[4] == 'c' && LayerGroupId("store")[5] == 't';
  }

  lemma DisabledPlaneNoGroup(config: ProjectConfig, plane: NetworkPlane)
    requires PlaneOff(config.network, plane)
    ensures forall g :: g in Topology(config).groups ==> g.id != FabricGroupId(PlaneRole(plane))
  {
    var ps := FabricPlans(config.network);
    var gs := FabricsGroups(ps);
    var all := Topology(config).groups;
    var gid := FabricGroupId(PlaneRole(plane));
    TopologyParts(config);
    assert all == gs + [ComputeGroup(config)] + StorageGroups(config);
    DisabledPlaneHasNoFabric(config.network, plane);
    LayerGroupIdsAreNotFabricIds(PlaneRole(plane));
    forall g | g in all
      ensures g.id != gid
    {
      if g in gs {
        var k :| 0 <= k < |gs| && gs[k] == g;
        FabricGroupIdInjective(ps[k].role, PlaneRole(plane));
      } else {
        assert g == ComputeGroup(config) || g in StorageGroups(config);
      }
    }
  }

  // ---------------------------------------------------------------------------
  // Downstream ports
  // ---------------------------------------------------------------------------

  lemma PortNameInjective(p: string, a: nat, b: nat)
    ensures PortName(p, a) == PortName(p, b) <==> a == b
  {
    if PortName(p, a) == PortName(p, b) {
      PrefixCancel(p + "-P", NatToString(a), NatToString(b));
      NatToStringInjective(a, b);
    }
  }

  /** Within one layer, two links on the same plane with the same switch port come from the same node. */
  lemma LayerDownstreamPortsDistinct(config: ProjectConfig, sw: SwitchMap, kind: LayerKind, prefix: string, n: nat,
                                     e1: EdgeConfig, e2: EdgeConfig)
    requires e1 in LayerEdges(config, sw, kind, prefix, n) && e2 in LayerEdges(config, sw, kind, prefix, n)
    requires e1.plane == e2.plane && e1.targetPort == e2.targetPort
    ensures e1.source == e2.source
  {
    LayerEdgeOrigin(config, sw, kind, prefix, n, e1);
    var i :| 0 <= i < n && e1 in NodeEdges(config, sw, kind, prefix, i);
    LayerEdgeOrigin(config, sw, kind, prefix, n, e2);
    var j :| 0 <= j < n && e2 in NodeEdges(config, sw, kind, prefix, j);
    NodeEdgeShape(config, sw, kind, prefix, i, e1);
    NodeEdgeShape(config, sw, kind, prefix, j, e2);
    PortNameInjective(PortPrefix(e1.plane), i, j);
  }

  lemma {:induction false} LayerEdgesInclude(config: ProjectConfig, sw: SwitchMap, kind: LayerKind, prefix: string,
                                              n: nat, i: nat, e: EdgeConfig)
    requires i < n && e in NodeEdges(config, sw, kind, prefix, i)
    ensures e in LayerEdges(config, sw, kind, prefix, n)
  {
    if i < n - 1 {
      LayerEdgesInclude(config, sw, kind, prefix, n - 1, i, e);
    }
  }

  lemma FirstManagementLink(config: ProjectConfig, kind: LayerKind, prefix: string)
    requires config.network.deploymentMode == Converged
    ensures EdgeConfig(LayerNodeId(prefix, 0), SwitchIdA(CoreRole), ManagementPlane, "Mgmt0", PortName("Mgmt", 0), "1GE")
            in NodeEdges(config, Switches(config.network), kind, prefix, 0)
  {
    var sw := Switches(config.network);
    var id := LayerNodeId(prefix, 0);
    var w := WiredEdges(config, kind, id, 0, ManagementPlane, sw.management, "Mgmt", "1GE");
    assert w == PlaneEdges(id, 0, ManagementPlane, sw.management, "Mgmt", "1GE");
    assert w[0] == EdgeConfig(id, SwitchIdA(CoreRole), ManagementPlane, "Mgmt0", PortName("Mgmt", 0), "1GE");
    var es := NodeEdges(config, sw, kind, prefix, 0);
    assert es[0] == w[0];
  }

  /**
   * Across layers the port names collide: on a shared converged core, compute node 0
   * and storage node 0 are both cabled into port `Mgmt-P0` of the first core switch.
   */
  lemma SharedDownstreamPort(config: ProjectConfig)
    requires config.network.deploymentMode == Converged && config.mode == Standard
    requires config.nodeCount >= 1 && config.storageCount >= 1
    ensures exists e1, e2 ::
              && e1 in Topology(config).edges && e2 in Topology(config).edges
              && e1.source != e2.source && e1.target == e2.target && e1.plane == e2.plane
              && e1.targetPort == e2.targetPort == "Mgmt-P0"
  {
    var sw := Switches(config.network);
    var core := SwitchIdA(CoreRole);
    var port := PortName("Mgmt", 0);
    var c0 := LayerNodeId("comp", 0);
    var s0 := LayerNodeId("store", 0);
    var e1 := EdgeConfig(c0, core, ManagementPlane, "Mgmt0", port, "1GE");
    var e2 := EdgeConfig(s0, core, ManagementPlane, "Mgmt0", port, "1GE");
    FirstManagementLink(config, ComputeLayer, "comp");
    FirstManagementLink(config, StorageLayer, "store");
    LayerEdgesInclude(config, sw, ComputeLayer, "comp", config.nodeCount, 0, e1);
    LayerEdgesInclude(config, sw, StorageLayer, "store", config.storageCount, 0, e2);
    PartEdgesInTopology(config, e1);
    PartEdgesInTopology(config, e2);
    FirstIdsDiffer();
    FirstManagementPort();
  }

  lemma PartEdgesInTopology(config: ProjectConfig, e: EdgeConfig)
    requires e in ComputeEdges(config) || e in StorageEdges(config)
    ensures e in Topology(config).edges
  {
    TopologyParts(config);
  }

  lemma FirstIdsDiffer()
    ensures LayerNodeId("comp", 0) != LayerNodeId("store", 0)
  {
    assert LayerNodeId("comp", 0)[0] != LayerNodeId("store", 0)[0];
  }

  lemma FirstManagementPort()
    ensures PortName("Mgmt", 0) == "Mgmt-P0"
  {
  }
}
