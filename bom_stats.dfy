/**
 * The bill-of-materials tally: from a generated graph, the number of
 * switches, of servers, of cables of each kind and of optical modules, as a
 * list of items.
 *
 * The tally reads fields as they are at run time: a node's type string and
 * its optional stack fields, an edge's plane string. It is modelled over
 * those views (`BomNode`, `BomEdge`); `View` projects a generated topology
 * onto them, and `BomOfTopology` ties the tally back to the generator.
 */
module BomStats {
  import opened Types
  import opened Generator
  import opened TopologyProperties

  /** What the tally reads of a node: `type`, `isStack`, `stackCount` (0 when absent). */
  datatype BomNode = BomNode(kind: string, isStack: bool, stackCount: int)

  /** What the tally reads of an edge: `plane`. */
  datatype BomEdge = BomEdge(plane: string)

  datatype BomData = BomData(nodes: seq<BomNode>, edges: seq<BomEdge>)

  datatype BomItem = BomItem(category: string, name: string, count: int, unit: string)

  // ---------------------------------------------------------------------------
  // Devices
  // ---------------------------------------------------------------------------

  /** `nodes.filter(n => n.type === 'switch')` */
  function SwitchFilter(nodes: seq<BomNode>): (r: seq<BomNode>)
    ensures |r| <= |nodes|
    ensures forall x :: x in r <==> x in nodes && x.kind == "switch"
    ensures forall x :: multiset(r)[x] == if x.kind == "switch" then multiset(nodes)[x] else 0
  {
    if nodes == [] then []
    else
      var init, last := nodes[..|nodes| - 1], nodes[|nodes| - 1];
      assert nodes == init + [last];
      SwitchFilter(init) + if last.kind == "switch" then [last] else []
  }

  predicate IsServerKind(kind: string)
  {
    kind == "compute" || kind == "storage" || kind == "management"
  }

  /** What one node adds to the server count: its stack size when it is a stack with a non-zero size, else 1. */
  function ServerWeight(n: BomNode): int
  {
    if !IsServerKind(n.kind) then 0
    else if n.isStack && n.stackCount != 0 then n.stackCount
    else 1
  }

  function ServerTotal(nodes: seq<BomNode>): int
  {
    if nodes == [] then 0 else ServerTotal(nodes[..|nodes| - 1]) + ServerWeight(nodes[|nodes| - 1])
  }

  /** The server count, accumulated node by node. */
  method CountServers(nodes: seq<BomNode>) returns (serverCount: int)
    ensures serverCount == ServerTotal(nodes)
  {
    serverCount := 0;
    var i := 0;
    while i < |nodes|
      invariant 0 <= i <= |nodes|
      invariant serverCount == ServerTotal(nodes[..i])
    {
      var n := nodes[i];
      if IsServerKind(n.kind) {
        if n.isStack && n.stackCount != 0 {
          serverCount := serverCount + n.stackCount;
        } else {
          serverCount := serverCount + 1;
        }
      }
      assert nodes[..i + 1][..i] == nodes[..i];
      i := i + 1;
    }
    assert nodes[..i] == nodes;
  }

  /** Without stacks, every compute, storage or management node counts once and every other node not at all. */
  lemma {:induction false} ServerTotalUnstacked(nodes: seq<BomNode>)
    requires forall k :: 0 <= k < |nodes| ==> !nodes[k].isStack
    ensures ServerTotal(nodes) == |ServerFilter(nodes)|
  {
    if nodes != [] {
      ServerTotalUnstacked(nodes[..|nodes| - 1]);
    }
  }

  function ServerFilter(nodes: seq<BomNode>): seq<BomNode>
  {
    if nodes == [] then []
    else ServerFilter(nodes[..|nodes| - 1]) + if IsServerKind(nodes[|nodes| - 1].kind) then [nodes[|nodes| - 1]] else []
  }

  // ---------------------------------------------------------------------------
  // Cables and modules
  // ---------------------------------------------------------------------------

  datatype CableKind = Rj45 | Dac | Fiber

  /** Copper for out-of-band links and for management links in separated mode, DAC for stack and peer links, fibre otherwise. */
  function Classify(plane: string, mode: SwitchDeploymentMode): CableKind
  {
    if plane == "ipmi" || (plane == "management" && mode == PhysicallySeparated) then Rj45
    else if plane == "stack" || plane == "mlag" then Dac
    else Fiber
  }

  datatype CableCounts = CableCounts(optical: nat, rj45: nat, dac: nat, fiber: nat)

  /** One more cable of the given kind; DAC and fibre cables take a module at each end. */
  function Tick(c: CableCounts, kind: CableKind): CableCounts
  {
    match kind
    case Rj45 => c.(rj45 := c.rj45 + 1)
    case Dac => c.(dac := c.dac + 1, optical := c.optical + 2)
    case Fiber => c.(fiber := c.fiber + 1, optical := c.optical + 2)
  }

  function Cables(edges: seq<BomEdge>, mode: SwitchDeploymentMode): CableCounts
  {
    if edges == [] then CableCounts(0, 0, 0, 0)
    else Tick(Cables(edges[..|edges| - 1], mode), Classify(edges[|edges| - 1].plane, mode))
  }

  /** The four counters, accumulated edge by edge. */
  method CountCables(edges: seq<BomEdge>, mode: SwitchDeploymentMode)
    returns (opticalModules: nat, rj45Cables: nat, dacCables: nat, fiberCables: nat)
    ensures CableCounts(opticalModules, rj45Cables, dacCables, fiberCables) == Cables(edges, mode)
  {
    opticalModules, rj45Cables, dacCables, fiberCables := 0, 0, 0, 0;
    var i := 0;
    while i < |edges|
      invariant 0 <= i <= |edges|
      invariant CableCounts(opticalModules, rj45Cables, dacCables, fiberCables) == Cables(edges[..i], mode)
    {
      var plane := edges[i].plane;
      if plane == "ipmi" || (plane == "management" && mode == PhysicallySeparated) {
        rj45Cables := rj45Cables + 1;
      } else if plane == "stack" || plane == "mlag" {
        dacCables := dacCables + 1;
        opticalModules := opticalModules + 2;
      } else {
        fiberCables := fiberCables + 1;
        opticalModules := opticalModules + 2;
      }
      assert edges[..i + 1][..i] == edges[..i];
      i := i + 1;
    }
    assert edges[..i] == edges;
  }

  /** Every edge is exactly one cable, and every DAC or fibre cable takes two modules. */
  lemma {:induction false} CablesPartition(edges: seq<BomEdge>, mode: SwitchDeploymentMode)
    ensures var c := Cables(edges, mode);
      c.rj45 + c.dac + c.fiber == |edges| && c.optical == 2 * (c.dac + c.fiber)
  {
    if edges != [] {
      CablesPartition(edges[..|edges| - 1], mode);
    }
  }

  // ---------------------------------------------------------------------------
  // The item list
  // ---------------------------------------------------------------------------

  const OpticalName: string := "光模块 (SFP+/25G/QSFP)"
  const FiberName: string := "光纤跳线 (LC-LC)"
  const Rj45Name: string := "CAT6 网线"
  const DacName: string := "DAC 高速线缆"

  function SwitchItem(count: int): BomItem
  {
    BomItem("网络设备", "以太网交换机", count, "台")
  }

  function ServerItem(count: int): BomItem
  {
    BomItem("IT基础设施", "x86服务器", count, "台")
  }

  function OpticalItem(count: int): BomItem { BomItem("配件", OpticalName, count, "个") }
  function FiberItem(count: int): BomItem { BomItem("线缆", FiberName, count, "根") }
  function Rj45Item(count: int): BomItem { BomItem("线缆", Rj45Name, count, "根") }
  function DacItem(count: int): BomItem { BomItem("线缆", DacName, count, "根") }

  function ItemIf(count: nat, item: BomItem): seq<BomItem>
  {
    if count > 0 then [item] else []
  }

  function Items(data: BomData, mode: SwitchDeploymentMode): seq<BomItem>
  {
    var c := Cables(data.edges, mode);
    [SwitchItem(|SwitchFilter(data.nodes)|), ServerItem(ServerTotal(data.nodes))] + CableItems(c)
  }

  /** The optional cable items, in the order the component pushes them. */
  function CableItems(c: CableCounts): seq<BomItem>
  {
    ItemIf(c.optical, OpticalItem(c.optical)) + ItemIf(c.fiber, FiberItem(c.fiber))
      + ItemIf(c.rj45, Rj45Item(c.rj45)) + ItemIf(c.dac, DacItem(c.dac))
  }

  /** The tally: nothing while hidden or without a graph, otherwise the item list. */
  function Tally(visible: bool, data: Option<BomData>, mode: SwitchDeploymentMode): Option<seq<BomItem>>
  {
    if !visible || data.None? then None else Some(Items(data.value, mode))
  }

  /** `if (count > 0) items.push(item)` */
  method PushIf(items: seq<BomItem>, count: nat, item: BomItem) returns (r: seq<BomItem>)
    ensures r == items + ItemIf(count, item)
  {
    r := items;
    if count > 0 {
      r := r + [item];
    }
  }

  /** The tally as the component computes it: counters first, then items pushed one by one. */
  method BomItems(visible: bool, data: Option<BomData>, mode: SwitchDeploymentMode) returns (r: Option<seq<BomItem>>)
    ensures r == Tally(visible, data, mode)
  {
    if !visible || data.None? {
      return None;
    }
    var d := data.value;
    var items: seq<BomItem> := [];
    var switches := |SwitchFilter(d.nodes)|;
    items := items + [SwitchItem(switches)];
    var serverCount := CountServers(d.nodes);
    items := items + [ServerItem(serverCount)];
    assert items == [SwitchItem(switches), ServerItem(serverCount)];
    var opticalModules, rj45Cables, dacCables, fiberCables := CountCables(d.edges, mode);
    items := PushIf(items, opticalModules, OpticalItem(opticalModules));
    items := PushIf(items, fiberCables, FiberItem(fiberCables));
    items := PushIf(items, rj45Cables, Rj45Item(rj45Cables));
    items := PushIf(items, dacCables, DacItem(dacCables));
    ghost var o, f, w, c := ItemIf(opticalModules, OpticalItem(opticalModules)), ItemIf(fiberCables, FiberItem(fiberCables)),
                            ItemIf(rj45Cables, Rj45Item(rj45Cables)), ItemIf(dacCables, DacItem(dacCables));
    AppendAssoc([SwitchItem(switches), ServerItem(serverCount)], o + f + w, c);
    AppendAssoc([SwitchItem(switches), ServerItem(serverCount)], o + f, w);
    AppendAssoc([SwitchItem(switches), ServerItem(serverCount)], o, f);
    r := Some(items);
  }

  function Positive(n: nat): nat
  {
    if n > 0 then 1 else 0
  }

  /** Order of the optional items. */
  function ItemRank(name: string): nat
  {
    if name == OpticalName then 0 else if name == FiberName then 1 else if name == Rj45Name then 2 else 3
  }

  /**
   * The item list starts with the switch item and the server item; then come the
   * optical, fibre, copper and DAC items in that order, each exactly when its count
   * is positive; so it holds 2 to 6 items.
   */
  lemma ItemsShape(data: BomData, mode: SwitchDeploymentMode)
    ensures var items := Items(data, mode);
      var c := Cables(data.edges, mode);
      && |items| == 2 + Positive(c.optical) + Positive(c.fiber) + Positive(c.rj45) + Positive(c.dac)
      && 2 <= |items| <= 6
      && items[0] == SwitchItem(|SwitchFilter(data.nodes)|)
      && items[1] == ServerItem(ServerTotal(data.nodes))
      && (forall k :: 2 <= k < |items| ==> items[k].count > 0)
      && (forall j, k :: 2 <= j < k < |items| ==> ItemRank(items[j].name) < ItemRank(items[k].name))
      && (OpticalItem(c.optical) in items <==> c.optical > 0)
      && (FiberItem(c.fiber) in items <==> c.fiber > 0)
      && (Rj45Item(c.rj45) in items <==> c.rj45 > 0)
      && (DacItem(c.dac) in items <==> c.dac > 0)
  {
    var c := Cables(data.edges, mode);
    var head := [SwitchItem(|SwitchFilter(data.nodes)|), ServerItem(ServerTotal(data.nodes))];
    ListShape(head, c);
  }

  lemma ListShape(head: seq<BomItem>, c: CableCounts)
    requires |head| == 2 && head[0].name == "以太网交换机" && head[1].name == "x86服务器"
    ensures var items := head + CableItems(c);
      && |items| == 2 + Positive(c.optical) + Positive(c.fiber) + Positive(c.rj45) + Positive(c.dac)
      && items[0] == head[0] && items[1] == head[1]
      && (forall k :: 2 <= k < |items| ==> items[k].count > 0)
      && (forall j, k :: 2 <= j < k < |items| ==> ItemRank(items[j].name) < ItemRank(items[k].name))
      && (OpticalItem(c.optical) in items <==> c.optical > 0)
      && (FiberItem(c.fiber) in items <==> c.fiber > 0)
      && (Rj45Item(c.rj45) in items <==> c.rj45 > 0)
      && (DacItem(c.dac) in items <==> c.dac > 0)
  {
    var t := CableItems(c);
    CableItemsShape(c);
    HeadNotCable(head, t);
  }

  /** Every item has a positive count and the names come in strictly increasing rank. */
  ghost predicate Ordered(t: seq<BomItem>)
  {
    && (forall k :: 0 <= k < |t| ==> t[k].count > 0)
    && (forall j, k :: 0 <= j < k < |t| ==> ItemRank(t[j].name) < ItemRank(t[k].name))
  }

  ghost predicate ItemRanksBelow(t: seq<BomItem>, bound: nat)
  {
    forall k :: 0 <= k < |t| ==> ItemRank(t[k].name) < bound
  }

  lemma CableNames()
    ensures ItemRank(OpticalName) == 0 && ItemRank(FiberName) == 1
    ensures ItemRank(Rj45Name) == 2 && ItemRank(DacName) == 3
  {
    assert OpticalName[1] != FiberName[1];
    assert OpticalName[0] != Rj45Name[0] && OpticalName[0] != DacName[0];
    assert FiberName[0] != Rj45Name[0] && FiberName[0] != DacName[0];
    assert Rj45Name[0] != DacName[0];
  }

  /** `if (count > 0) items.push(item)` keeps the list ordered, and adds `item` exactly when `count` is positive. */
  lemma PushKeepsOrder(t: seq<BomItem>, count: nat, item: BomItem)
    requires Ordered(t) && ItemRanksBelow(t, ItemRank(item.name)) && item.count == count
    ensures Ordered(t + ItemIf(count, item))
    ensures ItemRanksBelow(t + ItemIf(count, item), ItemRank(item.name) + 1)
    ensures |t + ItemIf(count, item)| == |t| + Positive(count)
    ensures forall x :: x in t + ItemIf(count, item) <==> x in t || (count > 0 && x == item)
    ensures item !in t
  {
    var u := t + ItemIf(count, item);
    assert forall k :: 0 <= k < |t| ==> u[k] == t[k];
  }

  lemma CableItemsShape(c: CableCounts)
    ensures var t := CableItems(c);
      && Ordered(t)
      && |t| == Positive(c.optical) + Positive(c.fiber) + Positive(c.rj45) + Positive(c.dac)
      && (OpticalItem(c.optical) in t <==> c.optical > 0)
      && (FiberItem(c.fiber) in t <==> c.fiber > 0)
      && (Rj45Item(c.rj45) in t <==> c.rj45 > 0)
      && (DacItem(c.dac) in t <==> c.dac > 0)
  {
    CableNames();
    var t0: seq<BomItem> := [];
    var t1 := t0 + ItemIf(c.optical, OpticalItem(c.optical));
    PushKeepsOrder(t0, c.optical, OpticalItem(c.optical));
    var t2 := t1 + ItemIf(c.fiber, FiberItem(c.fiber));
    PushKeepsOrder(t1, c.fiber, FiberItem(c.fiber));
    var t3 := t2 + ItemIf(c.rj45, Rj45Item(c.rj45));
    PushKeepsOrder(t2, c.rj45, Rj45Item(c.rj45));
    var t4 := t3 + ItemIf(c.dac, DacItem(c.dac));
    PushKeepsOrder(t3, c.dac, DacItem(c.dac));
    assert t1 == ItemIf(c.optical, OpticalItem(c.optical));
    assert t4 == CableItems(c);
  }

  /** The switch and server items are not cable items: a cable item is in the list exactly when it is among the cable items. */
  lemma HeadNotCable(head: seq<BomItem>, t: seq<BomItem>)
    requires |head| == 2 && head[0].name == "以太网交换机" && head[1].name == "x86服务器"
    ensures forall k :: 2 <= k < |head + t| ==> (head + t)[k] == t[k - 2]
    ensures forall x: BomItem :: x.name in {OpticalName, FiberName, Rj45Name, DacName} ==> (x in head + t <==> x in t)
  {
    assert "以太网交换机"[0] == '以' && "x86服务器"[0] == 'x';
    assert OpticalName[0] == '光' && FiberName[0] == '光' && Rj45Name[0] == 'C' && DacName[0] == 'D';
  }

  /** Optical modules appear exactly when there is a DAC or fibre cable. */
  lemma OpticalIffDacOrFiber(data: BomData, mode: SwitchDeploymentMode)
    ensures var c := Cables(data.edges, mode);
      c.optical > 0 <==> c.dac + c.fiber > 0
  {
    CablesPartition(data.edges, mode);
  }

  /** Hidden, or with no graph yet, the tally shows nothing. */
  lemma TallyHidden(visible: bool, data: Option<BomData>, mode: SwitchDeploymentMode)
    ensures Tally(visible, data, mode).None? <==> !visible || data.None?
  {
  }

  // ---------------------------------------------------------------------------
  // The tally of a generated topology
  // ---------------------------------------------------------------------------

  function ViewNodes(ns: seq<NodeConfig>): (r: seq<BomNode>)
    ensures |r| == |ns|
  {
    if ns == [] then [] else ViewNodes(ns[..|ns| - 1]) + [BomNode(NodeTypeName(ns[|ns| - 1].nodeType), false, 0)]
  }

  function ViewEdges(es: seq<EdgeConfig>): (r: seq<BomEdge>)
    ensures |r| == |es|
  {
    if es == [] then [] else ViewEdges(es[..|es| - 1]) + [BomEdge(PlaneName(es[|es| - 1].plane))]
  }

  /** A generated topology as the tally reads it: generated nodes are never stacks. */
  function View(t: GeneratedTopology): BomData
  {
    BomData(ViewNodes(t.nodes), ViewEdges(t.edges))
  }

  lemma {:induction false} SwitchFilterView(ns: seq<NodeConfig>)
    ensures |SwitchFilter(ViewNodes(ns))| == CountType(ns, Switch)
  {
    if ns != [] {
      var init := ns[..|ns| - 1];
      SwitchFilterView(init);
      assert ViewNodes(ns)[..|ns| - 1] == ViewNodes(init);
      assert (NodeTypeName(ns[|ns| - 1].nodeType) == "switch") == (ns[|ns| - 1].nodeType == Switch);
    }
  }

  lemma {:induction false} ServerTotalView(ns: seq<NodeConfig>)
    ensures ServerTotal(ViewNodes(ns)) == CountType(ns, Compute) + CountType(ns, Storage)
  {
    if ns != [] {
      var init := ns[..|ns| - 1];
      ServerTotalView(init);
      assert ViewNodes(ns)[..|ns| - 1] == ViewNodes(init);
      var t := ns[|ns| - 1].nodeType;
      assert IsServerKind(NodeTypeName(t)) == (t == Compute || t == Storage);
    }
  }

  /** The number of edges of `es` on plane `p`. */
  function CountPlane(es: seq<EdgeConfig>, p: NetworkPlane): nat
  {
    if es == [] then 0 else CountPlane(es[..|es| - 1], p) + if es[|es| - 1].plane == p then 1 else 0
  }

  lemma {:induction false} CountPlaneAppend(a: seq<EdgeConfig>, b: seq<EdgeConfig>, p: NetworkPlane)
    ensures CountPlane(a + b, p) == CountPlane(a, p) + CountPlane(b, p)
    decreases |b|
  {
    if b == [] {
      assert a + b == a;
    } else {
      assert (a + b)[..|a + b| - 1] == a + b[..|b| - 1];
      CountPlaneAppend(a, b[..|b| - 1], p);
    }
  }

  lemma {:induction false} CountPlaneUniform(es: seq<EdgeConfig>, p: NetworkPlane)
    ensures (forall e :: e in es ==> e.plane == p) ==> CountPlane(es, p) == |es|
    ensures (forall e :: e in es ==> e.plane != p) ==> CountPlane(es, p) == 0
  {
    if es != [] {
      CountPlaneUniform(es[..|es| - 1], p);
    }
  }

  /** DAC cables of a generated graph are its stack links: no generated edge is tagged `mlag`. */
  lemma {:induction false} DacView(es: seq<EdgeConfig>, mode: SwitchDeploymentMode)
    ensures Cables(ViewEdges(es), mode).dac == CountPlane(es, StackPlane)
  {
    if es != [] {
      var init := es[..|es| - 1];
      DacView(init, mode);
      assert ViewEdges(es)[..|es| - 1] == ViewEdges(init);
      var p := es[|es| - 1].plane;
      assert (Classify(PlaneName(p), mode) == Dac) == (p == StackPlane);
    }
  }

  lemma StackEdgesOfTopology(config: ProjectConfig)
    ensures CountPlane(Topology(config).edges, StackPlane) == StackLinks(FabricPlans(config.network))
  {
    var ps := FabricPlans(config.network);
    var sw := Switches(config.network);
    var fe, ce, se := FabricsEdges(ps), ComputeEdges(config), StorageEdges(config);
    TopologyParts(config);
    forall e | e in fe
      ensures e.plane == StackPlane
    {
      FabricEdgePlane(ps, e);
    }
    forall e | e in ce
      ensures e.plane != StackPlane
    {
      LayerEdgePlane(config, ComputeLayer, "comp", config.nodeCount, e);
    }
    forall e | e in se
      ensures e.plane != StackPlane
    {
      LayerEdgePlane(config, StorageLayer, "store", config.storageCount, e);
    }
    CountPlaneUniform(fe, StackPlane);
    CountPlaneUniform(ce, StackPlane);
    CountPlaneUniform(se, StackPlane);
    CountPlaneAppend(fe, ce, StackPlane);
    CountPlaneAppend(fe + ce, se, StackPlane);
    FabricsEdgesCount(ps);
  }

  /**
   * The tally of a generated topology: as many switches as the fabrics hold, one
   * server per compute or storage node, one DAC cable per stack link, and one cable
   * per link in all.
   */
  lemma BomOfTopology(config: ProjectConfig)
    ensures var t := Topology(config);
      var mode := config.network.deploymentMode;
      var items := Tally(true, Some(View(t)), mode);
      var c := Cables(View(t).edges, mode);
      && items.Some?
      && items.value[0] == SwitchItem(SwitchTotal(FabricPlans(config.network)))
      && items.value[1] == ServerItem(config.nodeCount + if HasStorageLayer(config) then config.storageCount else 0)
      && c.dac == StackLinks(FabricPlans(config.network))
      && c.rj45 + c.dac + c.fiber == |t.edges|
  {
    var t := Topology(config);
    var mode := config.network.deploymentMode;
    NodeCounts(config);
    SwitchFilterView(t.nodes);
    ServerTotalView(t.nodes);
    DacView(t.edges, mode);
    StackEdgesOfTopology(config);
    CablesPartition(ViewEdges(t.edges), mode);
    ItemsShape(View(t), mode);
  }
}
