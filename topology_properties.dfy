/**
 * Properties of the whole generated topology: how it decomposes into the
 * switch phase and the node layers, how many devices and links of each kind
 * it holds, and that every link joins two devices that exist.
 */
module TopologyProperties {
  import opened Types
  import opened Decimal
  import opened Generator
  import opened FabricProperties

  // ---------------------------------------------------------------------------
  // Decomposition
  // ---------------------------------------------------------------------------

  /** The switches of the fabrics `ps`, in creation order. */
  function FabricsNodes(ps: seq<FabricPlan>): seq<NodeConfig>
  {
    if ps == [] then [] else FabricsNodes(ps[..|ps| - 1]) + FabricNodes(ps[|ps| - 1])
  }

  /** The stack links of the fabrics `ps`, in creation order. */
  function FabricsEdges(ps: seq<FabricPlan>): seq<EdgeConfig>
  {
    if ps == [] then [] else FabricsEdges(ps[..|ps| - 1]) + FabricEdges(ps[|ps| - 1])
  }

  function FabricsGroups(ps: seq<FabricPlan>): seq<Group>
  {
    seq(|ps|, k requires 0 <= k < |ps| => FabricGroup(ps[k]))
  }

  lemma {:induction false} AddFabricsSplit(t: GeneratedTopology, ps: seq<FabricPlan>)
    ensures AddFabrics(t, ps)
         == GeneratedTopology(t.nodes + FabricsNodes(ps), t.edges + FabricsEdges(ps), t.groups + FabricsGroups(ps))
  {
    if ps == [] {
      assert t.nodes + [] == t.nodes && t.edges + [] == t.edges && t.groups + [] == t.groups;
    } else {
      var init := ps[..|ps| - 1];
      var f := ps[|ps| - 1];
      AddFabricsSplit(t, init);
      AppendAssoc(t.nodes, FabricsNodes(init), FabricNodes(f));
      AppendAssoc(t.edges, FabricsEdges(init), FabricEdges(f));
      AppendAssoc(t.groups, FabricsGroups(init), [FabricGroup(f)]);
      assert FabricsGroups(ps) == FabricsGroups(init) + [FabricGroup(f)];
    }
  }

  /** The compute layer of `config`'s topology. */
  function ComputeNodes(config: ProjectConfig): seq<NodeConfig>
  {
    LayerNodes(config.network, ComputeLayer, "comp", LayerTop(config.network), 10, config.nodeCount)
  }

  function ComputeEdges(config: ProjectConfig): seq<EdgeConfig>
  {
    LayerEdges(config, Switches(config.network), ComputeLayer, "comp", config.nodeCount)
  }

  function ComputeGroup(config: ProjectConfig): Group
  {
    LayerGroup(config.network, config.nodeCount, "comp", LayerTop(config.network), ComputeLabel(config.mode))
  }

  /** The storage layer of `config`'s topology; empty when there is none. */
  function StorageNodes(config: ProjectConfig): seq<NodeConfig>
  {
    if HasStorageLayer(config) then
      LayerNodes(config.network, StorageLayer, "store", StorageY(config), 50, config.storageCount)
    else []
  }

  function StorageEdges(config: ProjectConfig): seq<EdgeConfig>
  {
    if HasStorageLayer(config) then
      LayerEdges(config, Switches(config.network), StorageLayer, "store", config.storageCount)
    else []
  }

  function StorageGroups(config: ProjectConfig): seq<Group>
  {
    if HasStorageLayer(config) then
      [LayerGroup(config.network, config.storageCount, "store", StorageY(config), StorageLabel)]
    else []
  }

  /** The topology is the switch phase's output followed by the compute layer and the optional storage layer. */
  lemma TopologyParts(config: ProjectConfig)
    ensures var t := Topology(config);
      var ps := FabricPlans(config.network);
      && t.nodes == FabricsNodes(ps) + ComputeNodes(config) + StorageNodes(config)
      && t.edges == FabricsEdges(ps) + ComputeEdges(config) + StorageEdges(config)
      && t.groups == FabricsGroups(ps) + [ComputeGroup(config)] + StorageGroups(config)
  {
    var ps := FabricPlans(config.network);
    var empty := GeneratedTopology([], [], []);
    AddFabricsSplit(empty, ps);
    assert [] + FabricsNodes(ps) == FabricsNodes(ps);
    assert [] + FabricsEdges(ps) == FabricsEdges(ps);
    assert [] + FabricsGroups(ps) == FabricsGroups(ps);
  }

  // ---------------------------------------------------------------------------
  // Counting devices
  // ---------------------------------------------------------------------------

  /** The number of nodes of type `t` in `ns`. */
  function CountType(ns: seq<NodeConfig>, t: NodeType): nat
  {
    if ns == [] then 0 else CountType(ns[..|ns| - 1], t) + if ns[|ns| - 1].nodeType == t then 1 else 0
  }

  lemma {:induction false} CountTypeAppend(a: seq<NodeConfig>, b: seq<NodeConfig>, t: NodeType)
    ensures CountType(a + b, t) == CountType(a, t) + CountType(b, t)
    decreases |b|
  {
    if b == [] {
      assert a + b == a;
    } else {
      assert (a + b)[..|a + b| - 1] == a + b[..|b| - 1];
      CountTypeAppend(a, b[..|b| - 1], t);
    }
  }

  /** Every node of `ns` has type `u`. */
  lemma {:induction false} CountTypeUniform(ns: seq<NodeConfig>, u: NodeType, t: NodeType)
    requires forall k :: 0 <= k < |ns| ==> ns[k].nodeType == u
    ensures CountType(ns, t) == if t == u then |ns| else 0
  {
    if ns != [] {
      CountTypeUniform(ns[..|ns| - 1], u, t);
    }
  }

  /** The total number of switches of the fabrics `ps`. */
  function SwitchTotal(ps: seq<FabricPlan>): nat
  {
    if ps == [] then 0 else SwitchTotal(ps[..|ps| - 1]) + |FabricIds(ps[|ps| - 1].role, ps[|ps| - 1].redundancy)|
  }

  lemma {:induction false} FabricsNodesCount(ps: seq<FabricPlan>, t: NodeType)
    ensures |FabricsNodes(ps)| == SwitchTotal(ps)
    ensures CountType(FabricsNodes(ps), t) == if t == Switch then SwitchTotal(ps) else 0
  {
    if ps != [] {
      var init := ps[..|ps| - 1];
      var f := ps[|ps| - 1];
      FabricsNodesCount(init, t);
      CountTypeAppend(FabricsNodes(init), FabricNodes(f), t);
      CountTypeUniform(FabricNodes(f), Switch, t);
    }
  }

  lemma LayerNodesCount(net: NetworkConfig, kind: LayerKind, prefix: string, baseY: int, startIp: nat, n: nat, t: NodeType)
    ensures CountType(LayerNodes(net, kind, prefix, baseY, startIp, n), t) == if t == KindType(kind) then n else 0
  {
    CountTypeUniform(LayerNodes(net, kind, prefix, baseY, startIp, n), KindType(kind), t);
  }

  /**
   * Device conservation: as many switches as the fabrics hold, exactly `nodeCount`
   * compute nodes (the layer is emitted even when empty), and `storageCount` storage
   * nodes when, and only when, the mode is Standard with a positive storage count.
   */
  lemma NodeCounts(config: ProjectConfig)
    ensures var t := Topology(config);
      var switchTotal := SwitchTotal(FabricPlans(config.network));
      var storageTotal := if HasStorageLayer(config) then config.storageCount else 0;
      && CountType(t.nodes, Switch) == switchTotal
      && CountType(t.nodes, Compute) == config.nodeCount
      && CountType(t.nodes, Storage) == storageTotal
      && |t.nodes| == switchTotal + config.nodeCount + storageTotal
  {
    var ps := FabricPlans(config.network);
    var nodes := Topology(config).nodes;
    var fn, cn, sn := FabricsNodes(ps), ComputeNodes(config), StorageNodes(config);
    TopologyParts(config);
    CountPart(nodes, fn, cn, sn, config, Switch);
    CountPart(nodes, fn, cn, sn, config, Compute);
    CountPart(nodes, fn, cn, sn, config, Storage);
    FabricsNodesCount(ps, Switch);
  }

  lemma CountPart(nodes: seq<NodeConfig>, fn: seq<NodeConfig>, cn: seq<NodeConfig>, sn: seq<NodeConfig>,
                  config: ProjectConfig, u: NodeType)
    requires fn == FabricsNodes(FabricPlans(config.network))
    requires cn == ComputeNodes(config) && sn == StorageNodes(config)
    requires nodes == fn + cn + sn
    ensures CountType(nodes, u)
         == (if u == Switch then SwitchTotal(FabricPlans(config.network)) else 0)
          + (if u == Compute then config.nodeCount else 0)
          + (if u == Storage && HasStorageLayer(config) then config.storageCount else 0)
  {
    CountTypeAppend(fn, cn, u);
    CountTypeAppend(fn + cn, sn, u);
    FabricsNodesCount(FabricPlans(config.network), u);
    LayerNodesCount(config.network, ComputeLayer, "comp", LayerTop(config.network), 10, config.nodeCount, u);
    if HasStorageLayer(config) {
      LayerNodesCount(config.network, StorageLayer, "store", StorageY(config), 50, config.storageCount, u);
    }
  }

  // ---------------------------------------------------------------------------
  // Counting links
  // ---------------------------------------------------------------------------

  /** The number of stack links: one per redundant fabric. */
  function StackLinks(ps: seq<FabricPlan>): nat
  {
    if ps == [] then 0 else StackLinks(ps[..|ps| - 1]) + if ps[|ps| - 1].redundancy == Redundant then 1 else 0
  }

  lemma {:induction false} FabricsEdgesCount(ps: seq<FabricPlan>)
    ensures |FabricsEdges(ps)| == StackLinks(ps)
  {
    if ps != [] {
      FabricsEdgesCount(ps[..|ps| - 1]);
    }
  }

  /** The links one node has on one plane: one per switch of the plane's fabric, if the plane applies. */
  function PlaneDegree(config: ProjectConfig, sw: SwitchMap, kind: LayerKind, plane: NetworkPlane): nat
  {
    if !PlaneWired(config, kind, plane) then 0
    else if |PlaneSwitches(sw, plane)| < 2 then |PlaneSwitches(sw, plane)| else 2
  }

  /** The links one node of the layer has in all. */
  function Degree(config: ProjectConfig, sw: SwitchMap, kind: LayerKind): nat
  {
    PlaneDegree(config, sw, kind, ManagementPlane) + PlaneDegree(config, sw, kind, BusinessPlane) +
    PlaneDegree(config, sw, kind, StoragePlane) + PlaneDegree(config, sw, kind, BackupPlane) +
    PlaneDegree(config, sw, kind, IpmiPlane)
  }

  /** The links of one node on one plane: from that node, on that plane, to that plane's switches, one per switch up to two. */
  lemma WiredEdgesShape(config: ProjectConfig, kind: LayerKind, nodeId: string, i: nat, plane: NetworkPlane,
                        ids: seq<string>, portPrefix: string, speed: string)
    ensures var es := WiredEdges(config, kind, nodeId, i, plane, ids, portPrefix, speed);
      && |es| == (if !PlaneWired(config, kind, plane) then 0 else if |ids| < 2 then |ids| else 2)
      && forall e :: e in es ==>
           e.source == nodeId && e.plane == plane && e.target in ids && PlaneWired(config, kind, plane)
           && e.targetPort == PortName(portPrefix, i) && e.speed == speed
  {
  }

  lemma NodeEdgesCount(config: ProjectConfig, sw: SwitchMap, kind: LayerKind, prefix: string, i: nat)
    ensures |NodeEdges(config, sw, kind, prefix, i)| == Degree(config, sw, kind)
  {
    var id := LayerNodeId(prefix, i);
    WiredEdgesShape(config, kind, id, i, ManagementPlane, PlaneSwitches(sw, ManagementPlane), PortPrefix(ManagementPlane), PlaneSpeed(ManagementPlane));
    WiredEdgesShape(config, kind, id, i, BusinessPlane, PlaneSwitches(sw, BusinessPlane), PortPrefix(BusinessPlane), PlaneSpeed(BusinessPlane));
    WiredEdgesShape(config, kind, id, i, StoragePlane, PlaneSwitches(sw, StoragePlane), PortPrefix(StoragePlane), PlaneSpeed(StoragePlane));
    WiredEdgesShape(config, kind, id, i, BackupPlane, PlaneSwitches(sw, BackupPlane), PortPrefix(BackupPlane), PlaneSpeed(BackupPlane));
    WiredEdgesShape(config, kind, id, i, IpmiPlane, PlaneSwitches(sw, IpmiPlane), PortPrefix(IpmiPlane), PlaneSpeed(IpmiPlane));
  }

  lemma {:induction false} LayerEdgesCount(config: ProjectConfig, sw: SwitchMap, kind: LayerKind, prefix: string, n: nat)
    ensures |LayerEdges(config, sw, kind, prefix, n)| == n * Degree(config, sw, kind)
  {
    if n > 0 {
      var d := Degree(config, sw, kind);
      LayerEdgesCount(config, sw, kind, prefix, n - 1);
      NodeEdgesCount(config, sw, kind, prefix, n - 1);
      assert n * d == (n - 1) * d + d;
    }
  }

  /** Link count: one stack link per redundant fabric plus, per node, one link per switch of each applicable plane. */
  lemma EdgeCount(config: ProjectConfig)
    ensures var sw := Switches(config.network);
      |Topology(config).edges|
        == StackLinks(FabricPlans(config.network))
           + config.nodeCount * Degree(config, sw, ComputeLayer)
           + (if HasStorageLayer(config) then config.storageCount * Degree(config, sw, StorageLayer) else 0)
  {
    var sw := Switches(config.network);
    TopologyParts(config);
    FabricsEdgesCount(FabricPlans(config.network));
    LayerEdgesCount(config, sw, ComputeLayer, "comp", config.nodeCount);
    LayerEdgesCount(config, sw, StorageLayer, "store", config.storageCount);
  }

  // ---------------------------------------------------------------------------
  // Where each link comes from
  // ---------------------------------------------------------------------------

  lemma {:induction false} FabricsEdgeOrigin(ps: seq<FabricPlan>, e: EdgeConfig)
    requires e in FabricsEdges(ps)
    ensures exists k :: 0 <= k < |ps| && e in FabricEdges(ps[k])
  {
    var init := ps[..|ps| - 1];
    if e in FabricsEdges(init) {
      FabricsEdgeOrigin(init, e);
      var k :| 0 <= k < |init| && e in FabricEdges(init[k]);
      assert ps[k] == init[k];
    } else {
      assert e in FabricEdges(ps[|ps| - 1]);
    }
  }

  lemma {:induction false} FabricsNodesInclude(ps: seq<FabricPlan>, k: nat, j: nat)
    requires k < |ps| && j < |FabricNodes(ps[k])|
    ensures FabricNodes(ps[k])[j] in FabricsNodes(ps)
  {
    var init := ps[..|ps| - 1];
    if k < |ps| - 1 {
      assert ps[k] == init[k];
      FabricsNodesInclude(init, k, j);
    }
  }

  lemma {:induction false} LayerEdgeOrigin(config: ProjectConfig, sw: SwitchMap, kind: LayerKind, prefix: string,
                                            n: nat, e: EdgeConfig)
    requires e in LayerEdges(config, sw, kind, prefix, n)
    ensures exists i :: 0 <= i < n && e in NodeEdges(config, sw, kind, prefix, i)
  {
    if e !in NodeEdges(config, sw, kind, prefix, n - 1) {
      LayerEdgeOrigin(config, sw, kind, prefix, n - 1, e);
    }
  }

  /** What a link of node `i` looks like: it leaves that node on an applicable plane for one of the plane's switches. */
  lemma NodeEdgeShape(config: ProjectConfig, sw: SwitchMap, kind: LayerKind, prefix: string, i: nat, e: EdgeConfig)
    requires e in NodeEdges(config, sw, kind, prefix, i)
    ensures e.source == LayerNodeId(prefix, i)
    ensures e.target in PlaneSwitches(sw, e.plane)
    ensures PlaneWired(config, kind, e.plane)
    ensures e.plane in {ManagementPlane, BusinessPlane, StoragePlane, BackupPlane, IpmiPlane}
    ensures e.targetPort == PortName(PortPrefix(e.plane), i)
  {
    var id := LayerNodeId(prefix, i);
    WiredEdgesShape(config, kind, id, i, ManagementPlane, PlaneSwitches(sw, ManagementPlane), PortPrefix(ManagementPlane), PlaneSpeed(ManagementPlane));
    WiredEdgesShape(config, kind, id, i, BusinessPlane, PlaneSwitches(sw, BusinessPlane), PortPrefix(BusinessPlane), PlaneSpeed(BusinessPlane));
    WiredEdgesShape(config, kind, id, i, StoragePlane, PlaneSwitches(sw, StoragePlane), PortPrefix(StoragePlane), PlaneSpeed(StoragePlane));
    WiredEdgesShape(config, kind, id, i, BackupPlane, PlaneSwitches(sw, BackupPlane), PortPrefix(BackupPlane), PlaneSpeed(BackupPlane));
    WiredEdgesShape(config, kind, id, i, IpmiPlane, PlaneSwitches(sw, IpmiPlane), PortPrefix(IpmiPlane), PlaneSpeed(IpmiPlane));
  }

  /** Every switch id a plane is wired to belongs to one of the fabrics that were built. */
  ghost predicate Built(ps: seq<FabricPlan>, ids: seq<string>)
  {
    ids == [] || exists k :: 0 <= k < |ps| && ids == FabricIds(ps[k].role, ps[k].redundancy)
  }

  lemma {:induction false} PlaceBuilds(acc: Layout, c: PlaneFabric, ids: seq<string>)
    ensures Built(acc.plans, ids) ==> Built(Place(acc, c).plans, ids)
    ensures Built(Place(acc, c).plans, IdsIfEnabled(c))
  {
    var ps := Place(acc, c).plans;
    assert forall k :: 0 <= k < |acc.plans| ==> ps[k] == acc.plans[k];
    if c.enabled {
      assert ps[|ps| - 1].role == c.role && ps[|ps| - 1].redundancy == c.redundancy;
    }
  }

  lemma SeparatedListsBuilt(net: NetworkConfig)
    ensures var ps := SeparatedLayout(net).plans;
      && Built(ps, IdsIfEnabled(ManagementFabric(net))) && Built(ps, IdsIfEnabled(BusinessFabric(net)))
      && Built(ps, IdsIfEnabled(StorageFabric(net))) && Built(ps, IdsIfEnabled(BackupFabric(net)))
  {
    var m, b, s, k := ManagementFabric(net), BusinessFabric(net), StorageFabric(net), BackupFabric(net);
    var l0 := Layout([], 0);
    var l1 := Place(l0, m);
    var l2 := Place(l1, b);
    var l3 := Place(l2, s);
    PlaceBuilds(l0, m, []);
    PlaceBuilds(l1, b, IdsIfEnabled(m));
    PlaceBuilds(l2, s, IdsIfEnabled(m));
    PlaceBuilds(l2, s, IdsIfEnabled(b));
    PlaceBuilds(l3, k, IdsIfEnabled(m));
    PlaceBuilds(l3, k, IdsIfEnabled(b));
    PlaceBuilds(l3, k, IdsIfEnabled(s));
  }

  lemma {:induction false} BuiltExtend(ps: seq<FabricPlan>, qs: seq<FabricPlan>, ids: seq<string>)
    requires Built(ps, ids)
    ensures Built(ps + qs, ids)
  {
    if ids != [] {
      var k :| 0 <= k < |ps| && ids == FabricIds(ps[k].role, ps[k].redundancy);
      assert (ps + qs)[k] == ps[k];
    }
  }

  /** Each plane's switch list is empty or is the id list of a fabric that was built. */
  lemma SwitchListsBuilt(net: NetworkConfig, plane: NetworkPlane)
    ensures Built(FabricPlans(net), PlaneSwitches(Switches(net), plane))
  {
    var main := PlaneFabrics(net);
    var ipmi := if net.enableIpmi then [IpmiPlan] else [];
    assert FabricPlans(net) == main + ipmi;
    var ids := PlaneSwitches(Switches(net), plane);
    if plane == IpmiPlane {
      if net.enableIpmi {
        assert (main + ipmi)[|main|] == IpmiPlan;
      }
    } else {
      if net.deploymentMode == Converged {
        assert Built(main, ids) by { assert main[0] == CorePlan(net); }
      } else {
        SeparatedListsBuilt(net);
      }
      BuiltExtend(main, ipmi, ids);
    }
  }

  lemma {:induction false} BuiltIdsAreNodes(ps: seq<FabricPlan>, ids: seq<string>, id: string)
    requires Built(ps, ids) && id in ids
    ensures HasNode(FabricsNodes(ps), id)
  {
    var k :| 0 <= k < |ps| && ids == FabricIds(ps[k].role, ps[k].redundancy);
    var j :| 0 <= j < |ids| && ids[j] == id;
    FabricsNodesInclude(ps, k, j);
    var ns := FabricsNodes(ps);
    var m :| 0 <= m < |ns| && ns[m] == FabricNodes(ps[k])[j];
  }

  lemma HasNodeAppend(a: seq<NodeConfig>, b: seq<NodeConfig>, id: string)
    ensures HasNode(a, id) ==> HasNode(a + b, id)
    ensures HasNode(b, id) ==> HasNode(a + b, id)
  {
    if HasNode(b, id) {
      var k :| 0 <= k < |b| && b[k].id == id;
      assert (a + b)[|a| + k] == b[k];
    }
    if HasNode(a, id) {
      var k :| 0 <= k < |a| && a[k].id == id;
      assert (a + b)[k] == a[k];
    }
  }

  lemma LayerEdgeEnds(config: ProjectConfig, nodes: seq<NodeConfig>, kind: LayerKind, prefix: string, baseY: int,
                      startIp: nat, n: nat, e: EdgeConfig)
    requires e in LayerEdges(config, Switches(config.network), kind, prefix, n)
    requires nodes == LayerNodes(config.network, kind, prefix, baseY, startIp, n)
    ensures HasNode(nodes, e.source)
    ensures HasNode(FabricsNodes(FabricPlans(config.network)), e.target)
  {
    var sw := Switches(config.network);
    LayerEdgeOrigin(config, sw, kind, prefix, n, e);
    var i :| 0 <= i < n && e in NodeEdges(config, sw, kind, prefix, i);
    NodeEdgeShape(config, sw, kind, prefix, i, e);
    LayerNodeHasId(config.network, nodes, kind, prefix, baseY, startIp, n, i);
    SwitchListsBuilt(config.network, e.plane);
    BuiltIdsAreNodes(FabricPlans(config.network), PlaneSwitches(sw, e.plane), e.target);
  }

  lemma LayerNodeHasId(net: NetworkConfig, nodes: seq<NodeConfig>, kind: LayerKind, prefix: string, baseY: int,
                       startIp: nat, n: nat, i: nat)
    requires nodes == LayerNodes(net, kind, prefix, baseY, startIp, n) && i < n
    ensures HasNode(nodes, LayerNodeId(prefix, i))
  {
    assert nodes[i].id == LayerNodeId(prefix, i);
  }

  lemma FabricEdgeEnds(ps: seq<FabricPlan>, e: EdgeConfig)
    requires e in FabricsEdges(ps)
    ensures HasNode(FabricsNodes(ps), e.source) && HasNode(FabricsNodes(ps), e.target)
  {
    var fn := FabricsNodes(ps);
    FabricsEdgeOrigin(ps, e);
    var k :| 0 <= k < |ps| && e in FabricEdges(ps[k]);
    FabricsNodesInclude(ps, k, 0);
    FabricsNodesInclude(ps, k, 1);
    var a :| 0 <= a < |fn| && fn[a] == FabricNodes(ps[k])[0];
    var b :| 0 <= b < |fn| && fn[b] == FabricNodes(ps[k])[1];
  }

  /** Closure of a three-part graph: links of each part end at nodes of that part or of the switch part. */
  lemma PartsClosed(nodes: seq<NodeConfig>, edges: seq<EdgeConfig>,
                    fn: seq<NodeConfig>, cn: seq<NodeConfig>, sn: seq<NodeConfig>,
                    fe: seq<EdgeConfig>, ce: seq<EdgeConfig>, se: seq<EdgeConfig>)
    requires nodes == fn + cn + sn && edges == fe + ce + se
    requires forall e :: e in fe ==> HasNode(fn, e.source) && HasNode(fn, e.target)
    requires forall e :: e in ce ==> HasNode(cn, e.source) && HasNode(fn, e.target)
    requires forall e :: e in se ==> HasNode(sn, e.source) && HasNode(fn, e.target)
    ensures forall e :: e in edges ==> HasNode(nodes, e.source) && HasNode(nodes, e.target)
  {
    forall e | e in edges
      ensures HasNode(nodes, e.source) && HasNode(nodes, e.target)
    {
      HasNodeAppend(fn, cn, e.source);
      HasNodeAppend(fn, cn, e.target);
      HasNodeAppend(fn + cn, sn, e.source);
      HasNodeAppend(fn + cn, sn, e.target);
    }
  }

  /** No dangling links: both ends of every link are devices of the topology. */
  lemma NoDanglingEdges(config: ProjectConfig)
    ensures var t := Topology(config);
      forall e :: e in t.edges ==> HasNode(t.nodes, e.source) && HasNode(t.nodes, e.target)
  {
    var t := Topology(config);
    var ps := FabricPlans(config.network);
    var fn, cn, sn := FabricsNodes(ps), ComputeNodes(config), StorageNodes(config);
    var fe, ce, se := FabricsEdges(ps), ComputeEdges(config), StorageEdges(config);
    TopologyParts(config);
    forall e | e in fe
      ensures HasNode(fn, e.source) && HasNode(fn, e.target)
    {
      FabricEdgeEnds(ps, e);
    }
    forall e | e in ce
      ensures HasNode(cn, e.source) && HasNode(fn, e.target)
    {
      LayerEdgeEnds(config, cn, ComputeLayer, "comp", LayerTop(config.network), 10, config.nodeCount, e);
    }
    forall e | e in se
      ensures HasNode(sn, e.source) && HasNode(fn, e.target)
    {
      LayerEdgeEnds(config, sn, StorageLayer, "store", StorageY(config), 50, config.storageCount, e);
    }
    PartsClosed(t.nodes, t.edges, fn, cn, sn, fe, ce, se);
  }

  lemma LayerEdgePlane(config: ProjectConfig, kind: LayerKind, prefix: string, n: nat, e: EdgeConfig)
    requires e in LayerEdges(config, Switches(config.network), kind, prefix, n)
    ensures PlaneWired(config, kind, e.plane) && e.plane != StackPlane
  {
    var sw := Switches(config.network);
    LayerEdgeOrigin(config, sw, kind, prefix, n, e);
    var i :| 0 <= i < n && e in NodeEdges(config, sw, kind, prefix, i);
    NodeEdgeShape(config, sw, kind, prefix, i, e);
  }

  lemma FabricEdgePlane(ps: seq<FabricPlan>, e: EdgeConfig)
    requires e in FabricsEdges(ps)
    ensures e.plane == StackPlane && e.sourcePort == "Stack-L" && e.targetPort == "Stack-R"
  {
    FabricsEdgeOrigin(ps, e);
  }

  /** A link of the topology is a stack link of a fabric, or a node link on a plane that applies to its layer. */
  lemma EdgeOrigin(config: ProjectConfig, e: EdgeConfig)
    requires e in Topology(config).edges
    ensures e.plane == StackPlane <==> e in FabricsEdges(FabricPlans(config.network))
    ensures e.plane == StackPlane ==> e.sourcePort == "Stack-L" && e.targetPort == "Stack-R"
    ensures e.plane != StackPlane ==>
      || (e in ComputeEdges(config) && PlaneWired(config, ComputeLayer, e.plane))
      || (e in StorageEdges(config) && PlaneWired(config, StorageLayer, e.plane))
  {
    var ps := FabricPlans(config.network);
    TopologyParts(config);
    if e in FabricsEdges(ps) {
      FabricEdgePlane(ps, e);
    } else if e in ComputeEdges(config) {
      LayerEdgePlane(config, ComputeLayer, "comp", config.nodeCount, e);
    } else {
      assert HasStorageLayer(config);
      LayerEdgePlane(config, StorageLayer, "store", config.storageCount, e);
    }
  }

  /**
   * A worked case: converged HCI, a redundant core, no out-of-band plane and six
   * nodes give two switches, six compute nodes, one stack link and 6 * 8 node links.
   */
  lemma ConvergedHciSixNodes(config: ProjectConfig)
    requires config.network.deploymentMode == Converged && config.network.coreRedundancy == Redundant
    requires !config.network.enableIpmi && config.mode == Hci && config.nodeCount == 6
    ensures var t := Topology(config);
      && CountType(t.nodes, Switch) == 2 && CountType(t.nodes, Compute) == 6 && |t.nodes| == 8
      && |t.edges| == 49
  {
    RedundantCoreTotals(config.network);
    HciDegree(config);
    NodeCounts(config);
    EdgeCount(config);
  }

  lemma RedundantCoreTotals(net: NetworkConfig)
    requires net.deploymentMode == Converged && net.coreRedundancy == Redundant && !net.enableIpmi
    ensures SwitchTotal(FabricPlans(net)) == 2 && StackLinks(FabricPlans(net)) == 1
  {
    var ps := FabricPlans(net);
    assert ps == [CorePlan(net)];
    assert ps[..0] == [];
  }

  lemma HciDegree(config: ProjectConfig)
    requires config.network.deploymentMode == Converged && config.network.coreRedundancy == Redundant
    requires !config.network.enableIpmi && config.mode == Hci
    ensures Degree(config, Switches(config.network), ComputeLayer) == 8
  {
  }
}
