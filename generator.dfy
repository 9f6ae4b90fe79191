/**
 * The topology generator: one project configuration in, one graph of
 * positioned devices, cabled links and group boxes out.
 *
 * The first half of the module states what the generator produces as pure
 * functions (`Topology` and the pieces it is built from); the second half is
 * the generator itself, a builder object whose `nodes`, `edges` and `groups`
 * sequences are appended in place, proved to produce exactly `Topology`.
 */
module Generator {
  import opened Types
  import opened Decimal

  const StartX: int := 100
  const StartY: int := 60
  const ColGap: int := 140
  /** Vertical distance between two rows of a node layer. */
  const RowPitch: int := 160
  /** Horizontal distance between the two switches of a redundant pair. */
  const SwitchGap: int := 120

  /** The `role` argument of a switch fabric; its lower-case name goes into ids. */
  datatype SwitchRole = CoreRole | MgmtRole | BusRole | StorRole | BackupRole | IpmiRole

  function RoleName(r: SwitchRole): string
  {
    match r
    case CoreRole => "core"
    case MgmtRole => "mgmt"
    case BusRole => "bus"
    case StorRole => "stor"
    case BackupRole => "backup"
    case IpmiRole => "ipmi"
  }

  /** Name of a switch's downstream port for the node with index `idx`. */
  function PortName(base: string, idx: nat): string
  {
    base + "-P" + NatToString(idx)
  }

  /** True when the box `g` holds the `w` by `h` rectangle at (x, y) with `pad` to spare on every side. */
  predicate Encloses(g: Group, x: int, y: int, w: int, h: int, pad: int)
  {
    g.x + pad <= x && x + w + pad <= g.x + g.width &&
    g.y + pad <= y && y + h + pad <= g.y + g.height
  }

  // ---------------------------------------------------------------------------
  // Switch fabrics
  // ---------------------------------------------------------------------------

  /** The arguments of one call that creates a switch fabric and its group box. */
  datatype FabricPlan = FabricPlan(
    labelPrefix: string,
    role: SwitchRole,
    redundancy: SwitchRedundancy,
    yPos: int,
    xOffset: int,
    ipBase: string,
    title: string)

  function FabricWidth(redundancy: SwitchRedundancy): int
  {
    (if redundancy == Redundant then SwitchWidth * 2 + SwitchGap else SwitchWidth) + GroupPadding * 2
  }

  function FabricGroupId(role: SwitchRole): string
  {
    "grp-sw-" + RoleName(role)
  }

  function SwitchIdA(role: SwitchRole): string
  {
    "sw-" + RoleName(role) + "-01"
  }

  function SwitchIdB(role: SwitchRole): string
  {
    "sw-" + RoleName(role) + "-02"
  }

  /** The ids of the switches of a fabric, first switch first. */
  function FabricIds(role: SwitchRole, redundancy: SwitchRedundancy): (ids: seq<string>)
    ensures |ids| == if redundancy == Redundant then 2 else 1
  {
    [SwitchIdA(role)] + if redundancy == Redundant then [SwitchIdB(role)] else []
  }

  function FabricGroup(f: FabricPlan): Group
  {
    Group(FabricGroupId(f.role), f.title, StartX + f.xOffset, f.yPos - 50, FabricWidth(f.redundancy), 140)
  }

  /** The switches of a fabric: one, or two side by side; each sits inside the fabric's box. */
  function FabricNodes(f: FabricPlan): (ns: seq<NodeConfig>)
    ensures |ns| == |FabricIds(f.role, f.redundancy)|
    ensures forall k :: 0 <= k < |ns| ==>
      ns[k].id == FabricIds(f.role, f.redundancy)[k] && ns[k].nodeType == Switch &&
      ns[k].groupId == Some(FabricGroupId(f.role)) &&
      Encloses(FabricGroup(f), ns[k].x, ns[k].y, SwitchWidth, SwitchHeight, GroupPadding)
  {
    var innerStartX := StartX + f.xOffset + GroupPadding;
    var gid := Some(FabricGroupId(f.role));
    [NodeConfig(SwitchIdA(f.role), Switch, f.labelPrefix + "-SW-A", Some(f.ipBase + ".1"),
                innerStartX, f.yPos, gid, None)] +
    if f.redundancy == Redundant then
      [NodeConfig(SwitchIdB(f.role), Switch, f.labelPrefix + "-SW-B", Some(f.ipBase + ".2"),
                  innerStartX + SwitchWidth + SwitchGap, f.yPos, gid, None)]
    else []
  }

  /** The stack link between the two switches of a redundant fabric. */
  function FabricEdges(f: FabricPlan): seq<EdgeConfig>
  {
    if f.redundancy == Redundant then
      [EdgeConfig(SwitchIdA(f.role), SwitchIdB(f.role), StackPlane, "Stack-L", "Stack-R", "100GE")]
    else []
  }

  function AddFabric(t: GeneratedTopology, f: FabricPlan): GeneratedTopology
  {
    GeneratedTopology(t.nodes + FabricNodes(f), t.edges + FabricEdges(f), t.groups + [FabricGroup(f)])
  }

  /** `t` after creating the fabrics `fs`, in order. */
  function AddFabrics(t: GeneratedTopology, fs: seq<FabricPlan>): GeneratedTopology
  {
    if fs == [] then t else AddFabric(AddFabrics(t, fs[..|fs| - 1]), fs[|fs| - 1])
  }

  /** One of the four planes that get a fabric of their own in physically separated mode. */
  datatype PlaneFabric = PlaneFabric(
    enabled: bool,
    labelPrefix: string,
    role: SwitchRole,
    redundancy: SwitchRedundancy,
    ipBase: string,
    title: string)

  function ManagementFabric(net: NetworkConfig): PlaneFabric
  {
    PlaneFabric(net.enableManagement, "Mgmt", MgmtRole, net.managementRedundancy, "192.168.0", "管理交换区")
  }

  function BusinessFabric(net: NetworkConfig): PlaneFabric
  {
    PlaneFabric(net.enableBusiness, "Business", BusRole, net.businessRedundancy, "192.168.1", "业务交换区")
  }

  function StorageFabric(net: NetworkConfig): PlaneFabric
  {
    PlaneFabric(net.enableStorage, "Storage", StorRole, net.storageRedundancy, "192.168.2", "存储交换区")
  }

  function BackupFabric(net: NetworkConfig): PlaneFabric
  {
    PlaneFabric(net.enableBackup, "Backup", BackupRole, net.backupRedundancy, "192.168.3", "备份交换区")
  }

  /** How far `switchX` moves on after a fabric of the given redundancy. */
  function Advance(redundancy: SwitchRedundancy): int
  {
    if redundancy == Redundant then 320 else 180
  }

  /** The fabrics placed so far, left to right, and the next free `switchX`. */
  datatype Layout = Layout(plans: seq<FabricPlan>, switchX: int)

  /** Place the fabric of one plane if it is enabled. */
  function Place(acc: Layout, c: PlaneFabric): Layout
  {
    if c.enabled then
      Layout(acc.plans + [FabricPlan(c.labelPrefix, c.role, c.redundancy, StartY, acc.switchX, c.ipBase, c.title)],
             acc.switchX + Advance(c.redundancy))
    else acc
  }

  function SeparatedLayout(net: NetworkConfig): Layout
  {
    Place(Place(Place(Place(Layout([], 0), ManagementFabric(net)), BusinessFabric(net)),
                StorageFabric(net)), BackupFabric(net))
  }

  /** Placing a plane's fabric adds that one fabric to the topology, or nothing when the plane is disabled. */
  lemma PlaceAddsFabric(t: GeneratedTopology, acc: Layout, c: PlaneFabric)
    ensures AddFabrics(t, Place(acc, c).plans)
         == if c.enabled then
              AddFabric(AddFabrics(t, acc.plans),
                        FabricPlan(c.labelPrefix, c.role, c.redundancy, StartY, acc.switchX, c.ipBase, c.title))
            else AddFabrics(t, acc.plans)
  {
    if c.enabled {
      var ps := Place(acc, c).plans;
      assert ps[..|ps| - 1] == acc.plans;
    }
  }

  function CorePlan(net: NetworkConfig): FabricPlan
  {
    FabricPlan("Core", CoreRole, net.coreRedundancy, StartY, ColGap * 5 / 2, "192.168.1", "核心交换区")
  }

  const IpmiPlan: FabricPlan := FabricPlan("IPMI", IpmiRole, Single, StartY, -220, "192.168.9", "带外管理区")

  /** The fabrics of the data planes: the shared core, or one per enabled plane. */
  function PlaneFabrics(net: NetworkConfig): seq<FabricPlan>
  {
    if net.deploymentMode == Converged then [CorePlan(net)] else SeparatedLayout(net).plans
  }

  /** Every fabric the generator creates, in creation order. */
  function FabricPlans(net: NetworkConfig): seq<FabricPlan>
  {
    PlaneFabrics(net) + if net.enableIpmi then [IpmiPlan] else []
  }

  /** The switch ids each plane's nodes are wired to. */
  datatype SwitchMap = SwitchMap(
    management: seq<string>,
    business: seq<string>,
    storage: seq<string>,
    backup: seq<string>,
    ipmi: seq<string>)

  function IdsIfEnabled(c: PlaneFabric): seq<string>
  {
    if c.enabled then FabricIds(c.role, c.redundancy) else []
  }

  function Switches(net: NetworkConfig): SwitchMap
  {
    var ipmi := if net.enableIpmi then FabricIds(IpmiRole, Single) else [];
    if net.deploymentMode == Converged then
      var core := FabricIds(CoreRole, net.coreRedundancy);
      SwitchMap(core, core, core, core, ipmi)
    else
      SwitchMap(IdsIfEnabled(ManagementFabric(net)), IdsIfEnabled(BusinessFabric(net)),
                IdsIfEnabled(StorageFabric(net)), IdsIfEnabled(BackupFabric(net)), ipmi)
  }

  /** The y of the first node row, below the switch row. */
  function LayerTop(net: NetworkConfig): int
  {
    StartY + if net.deploymentMode == Converged then 200 else 250
  }

  // ---------------------------------------------------------------------------
  // Node layers
  // ---------------------------------------------------------------------------

  datatype LayerKind = ComputeLayer | StorageLayer

  function KindType(kind: LayerKind): NodeType
  {
    if kind == ComputeLayer then Compute else Storage
  }

  /** `Math.ceil(count / rowCapacity)` */
  function Rows(count: nat): nat
  {
    (count + RowCapacity - 1) / RowCapacity
  }

  /** `Math.min(count, rowCapacity)` */
  function NodesInRow(count: nat): nat
  {
    if count < RowCapacity then count else RowCapacity
  }

  function LayerGroupId(prefix: string): string
  {
    "grp-" + prefix
  }

  function LayerGroup(net: NetworkConfig, count: nat, prefix: string, baseY: int, groupLabel: string): Group
  {
    var width := if net.deploymentMode == PhysicallySeparated then ColGap * 8
                 else NodesInRow(count) * ColGap + GroupPadding;
    Group(LayerGroupId(prefix), groupLabel, StartX - 40, baseY - 60, width, Rows(count) * RowPitch + GroupPadding)
  }

  /** The extra shift to the right that leaves room for the cables of separated planes. */
  function CenterOffset(net: NetworkConfig): int
  {
    if net.deploymentMode == PhysicallySeparated then ColGap * 3 / 2 else 0
  }

  function LayerNodeId(prefix: string, i: nat): string
  {
    prefix + "-" + Pad2(i + 1)
  }

  function LayerNode(net: NetworkConfig, kind: LayerKind, prefix: string, baseY: int, startIp: nat, i: nat): NodeConfig
  {
    NodeConfig(
      LayerNodeId(prefix, i),
      KindType(kind),
      (if kind == ComputeLayer then "CNA" else "SNA") + "-" + Pad2(i + 1),
      Some("192.168.10." + NatToString(startIp + i)),
      StartX + (i % RowCapacity) * ColGap + CenterOffset(net),
      baseY + (i / RowCapacity) * RowPitch,
      Some(LayerGroupId(prefix)),
      None)
  }

  /** The first `n` nodes of a layer. */
  function LayerNodes(net: NetworkConfig, kind: LayerKind, prefix: string, baseY: int, startIp: nat, n: nat): (ns: seq<NodeConfig>)
    ensures |ns| == n
  {
    seq(n, k requires 0 <= k => LayerNode(net, kind, prefix, baseY, startIp, k))
  }

  lemma LayerNodesGrow(net: NetworkConfig, kind: LayerKind, prefix: string, baseY: int, startIp: nat, i: nat)
    ensures LayerNodes(net, kind, prefix, baseY, startIp, i + 1)
         == LayerNodes(net, kind, prefix, baseY, startIp, i) + [LayerNode(net, kind, prefix, baseY, startIp, i)]
  {
  }

  /** The links from node `nodeId` (index `i` of its layer) to the switches of one plane. */
  function PlaneEdges(nodeId: string, i: nat, plane: NetworkPlane, switchIds: seq<string>,
                      portPrefix: string, speed: string): seq<EdgeConfig>
  {
    if |switchIds| == 0 then []
    else
      [EdgeConfig(nodeId, switchIds[0], plane, portPrefix + "0", PortName(portPrefix, i), speed)] +
      if |switchIds| > 1 then
        [EdgeConfig(nodeId, switchIds[1], plane, portPrefix + "1", PortName(portPrefix, i), speed)]
      else []
  }

  /** Whether a node of the given layer is wired to the given data plane. */
  predicate PlaneWired(config: ProjectConfig, kind: LayerKind, plane: NetworkPlane)
  {
    var net := config.network;
    var converged := net.deploymentMode == Converged;
    match plane
    case ManagementPlane => net.enableManagement || converged
    case BusinessPlane => net.enableBusiness || converged
    case StoragePlane => (kind == StorageLayer || config.mode == Hci) && (net.enableStorage || converged)
    case BackupPlane => net.enableBackup || converged
    case IpmiPlane => net.enableIpmi
    case _ => false
  }

  /** `PlaneWired` plane by plane, as the layer code tests it before each `connectToPlane`. */
  lemma PlaneApplicability(config: ProjectConfig, kind: LayerKind)
    ensures var net := config.network;
      var converged := net.deploymentMode == Converged;
      && (PlaneWired(config, kind, ManagementPlane) <==> net.enableManagement || converged)
      && (PlaneWired(config, kind, BusinessPlane) <==> net.enableBusiness || converged)
      && (PlaneWired(config, kind, StoragePlane) <==>
            (kind == StorageLayer || config.mode == Hci) && (net.enableStorage || converged))
      && (PlaneWired(config, kind, BackupPlane) <==> net.enableBackup || converged)
      && (PlaneWired(config, kind, IpmiPlane) <==> net.enableIpmi)
      && !PlaneWired(config, kind, StackPlane) && !PlaneWired(config, kind, HeartbeatPlane)
  {
  }

  /** The switch list a plane is cabled to. */
  function PlaneSwitches(sw: SwitchMap, plane: NetworkPlane): seq<string>
  {
    match plane
    case ManagementPlane => sw.management
    case BusinessPlane => sw.business
    case StoragePlane => sw.storage
    case BackupPlane => sw.backup
    case IpmiPlane => sw.ipmi
    case _ => []
  }

  /** The port-name stem of a plane's links: `Mgmt`, `Eth`, `Stor`, `Bk`, `BMC`. */
  function PortPrefix(plane: NetworkPlane): string
  {
    match plane
    case ManagementPlane => "Mgmt"
    case BusinessPlane => "Eth"
    case StoragePlane => "Stor"
    case BackupPlane => "Bk"
    case IpmiPlane => "BMC"
    case _ => ""
  }

  /** The link speed of a plane. */
  function PlaneSpeed(plane: NetworkPlane): string
  {
    match plane
    case ManagementPlane => "1GE"
    case BusinessPlane => "10GE"
    case StoragePlane => "25GE"
    case BackupPlane => "10GE"
    case IpmiPlane => "100M"
    case _ => ""
  }

  function WiredEdges(config: ProjectConfig, kind: LayerKind, nodeId: string, i: nat, plane: NetworkPlane,
                      switchIds: seq<string>, portPrefix: string, speed: string): seq<EdgeConfig>
  {
    if PlaneWired(config, kind, plane) then PlaneEdges(nodeId, i, plane, switchIds, portPrefix, speed) else []
  }

  /** The links of node `i` (id `nodeId`) on one plane, with that plane's switches, port stem and speed. */
  function PlaneLinks(config: ProjectConfig, sw: SwitchMap, kind: LayerKind, nodeId: string, i: nat,
                      plane: NetworkPlane): seq<EdgeConfig>
  {
    WiredEdges(config, kind, nodeId, i, plane, PlaneSwitches(sw, plane), PortPrefix(plane), PlaneSpeed(plane))
  }

  /** All links of node `i` of a layer: management, business, storage, backup, IPMI. */
  function NodeEdges(config: ProjectConfig, sw: SwitchMap, kind: LayerKind, prefix: string, i: nat): seq<EdgeConfig>
  {
    var id := LayerNodeId(prefix, i);
    PlaneLinks(config, sw, kind, id, i, ManagementPlane) + PlaneLinks(config, sw, kind, id, i, BusinessPlane) +
    PlaneLinks(config, sw, kind, id, i, StoragePlane) + PlaneLinks(config, sw, kind, id, i, BackupPlane) +
    PlaneLinks(config, sw, kind, id, i, IpmiPlane)
  }

  /** The links of the first `n` nodes of a layer, node by node. */
  function LayerEdges(config: ProjectConfig, sw: SwitchMap, kind: LayerKind, prefix: string, n: nat): seq<EdgeConfig>
  {
    if n == 0 then [] else LayerEdges(config, sw, kind, prefix, n - 1) + NodeEdges(config, sw, kind, prefix, n - 1)
  }

  function AddLayer(t: GeneratedTopology, config: ProjectConfig, sw: SwitchMap, count: nat, kind: LayerKind,
                    prefix: string, baseY: int, groupLabel: string, startIp: nat): GeneratedTopology
  {
    GeneratedTopology(
      t.nodes + LayerNodes(config.network, kind, prefix, baseY, startIp, count),
      t.edges + LayerEdges(config, sw, kind, prefix, count),
      t.groups + [LayerGroup(config.network, count, prefix, baseY, groupLabel)])
  }

  function ComputeLabel(mode: TopologyMode): string
  {
    if mode == Hci then "超融合计算池 (HCI)" else "计算资源池 (Compute)"
  }

  const StorageLabel: string := "专用存储资源池 (Storage)"

  predicate HasStorageLayer(config: ProjectConfig)
  {
    config.mode == Standard && config.storageCount > 0
  }

  /** The y of the first storage row: below every compute row, with a corridor. */
  function StorageY(config: ProjectConfig): int
  {
    LayerTop(config.network) + Rows(config.nodeCount) * RowPitch + 120
  }

  /** The topology after the switch phase. */
  function FabricTopology(net: NetworkConfig): GeneratedTopology
  {
    AddFabrics(GeneratedTopology([], [], []), FabricPlans(net))
  }

  /** The topology after the compute layer. */
  function ComputeTopology(config: ProjectConfig): GeneratedTopology
  {
    AddLayer(FabricTopology(config.network), config, Switches(config.network), config.nodeCount, ComputeLayer,
             "comp", LayerTop(config.network), ComputeLabel(config.mode), 10)
  }

  /** What the generator returns for `config`. */
  function Topology(config: ProjectConfig): GeneratedTopology
  {
    var t := ComputeTopology(config);
    if HasStorageLayer(config) then
      AddLayer(t, config, Switches(config.network), config.storageCount, StorageLayer,
               "store", StorageY(config), StorageLabel, 50)
    else t
  }

  lemma AppendAssoc<T>(a: seq<T>, b: seq<T>, c: seq<T>)
    ensures a + (b + c) == (a + b) + c
  {
  }

  /** Appending a node's links plane by plane, as `createLayer` writes the calls, appends `NodeEdges`. */
  lemma NodeEdgesAppend(e0: seq<EdgeConfig>, config: ProjectConfig, sw: SwitchMap, kind: LayerKind, prefix: string, i: nat)
    ensures
      var id := LayerNodeId(prefix, i);
      e0 + WiredEdges(config, kind, id, i, ManagementPlane, sw.management, "Mgmt", "1GE")
         + WiredEdges(config, kind, id, i, BusinessPlane, sw.business, "Eth", "10GE")
         + WiredEdges(config, kind, id, i, StoragePlane, sw.storage, "Stor", "25GE")
         + WiredEdges(config, kind, id, i, BackupPlane, sw.backup, "Bk", "10GE")
         + WiredEdges(config, kind, id, i, IpmiPlane, sw.ipmi, "BMC", "100M")
      == e0 + NodeEdges(config, sw, kind, prefix, i)
  {
    var id := LayerNodeId(prefix, i);
    var w1 := PlaneLinks(config, sw, kind, id, i, ManagementPlane);
    var w2 := PlaneLinks(config, sw, kind, id, i, BusinessPlane);
    var w3 := PlaneLinks(config, sw, kind, id, i, StoragePlane);
    var w4 := PlaneLinks(config, sw, kind, id, i, BackupPlane);
    var w5 := PlaneLinks(config, sw, kind, id, i, IpmiPlane);
    AppendAssoc(e0, w1 + w2 + w3 + w4, w5);
    AppendAssoc(e0, w1 + w2 + w3, w4);
    AppendAssoc(e0, w1 + w2, w3);
    AppendAssoc(e0, w1, w2);
  }

  // ---------------------------------------------------------------------------
  // The generator
  // ---------------------------------------------------------------------------

  /** The accumulators of one generator run. */
  class TopologyBuilder {
    const config: ProjectConfig
    var nodes: seq<NodeConfig>
    var edges: seq<EdgeConfig>
    var groups: seq<Group>
    var switches: SwitchMap

    function Snapshot(): GeneratedTopology
      reads this
    {
      GeneratedTopology(nodes, edges, groups)
    }

    constructor (config: ProjectConfig)
      ensures this.config == config
      ensures Snapshot() == GeneratedTopology([], [], [])
    {
      this.config := config;
      nodes, edges, groups := [], [], [];
      switches := SwitchMap([], [], [], [], []);
    }

    /** Create one or two switches, the stack link between a pair, and their group box. */
    method CreateSwitchGroup(labelPrefix: string, role: SwitchRole, redundancy: SwitchRedundancy, yPos: int,
                             xOffset: int, ipBase: string, groupTitle: string) returns (swIds: seq<string>)
      modifies this
      ensures Snapshot() == AddFabric(old(Snapshot()), FabricPlan(labelPrefix, role, redundancy, yPos, xOffset, ipBase, groupTitle))
      ensures swIds == FabricIds(role, redundancy)
      ensures switches == old(switches)
    {
      var isRedundant := redundancy == Redundant;
      var contentWidth := if isRedundant then SwitchWidth * 2 + SwitchGap else SwitchWidth;
      var groupWidth := contentWidth + GroupPadding * 2;
      var groupX := StartX + xOffset;
      var groupId := "grp-sw-" + RoleName(role);
      groups := groups + [Group(groupId, groupTitle, groupX, yPos - 50, groupWidth, 140)];

      var innerStartX := groupX + GroupPadding;
      var id1 := "sw-" + RoleName(role) + "-01";
      swIds := [id1];
      nodes := nodes + [NodeConfig(id1, Switch, labelPrefix + "-SW-A", Some(ipBase + ".1"),
                                   innerStartX, yPos, Some(groupId), None)];
      if isRedundant {
        var id2 := "sw-" + RoleName(role) + "-02";
        swIds := swIds + [id2];
        nodes := nodes + [NodeConfig(id2, Switch, labelPrefix + "-SW-B", Some(ipBase + ".2"),
                                     innerStartX + SwitchWidth + SwitchGap, yPos, Some(groupId), None)];
        edges := edges + [EdgeConfig(id1, id2, StackPlane, "Stack-L", "Stack-R", "100GE")];
      }
    }

    /**
     * `if (enabled) { ids = createSwitchGroup(...); switchX += ... }` for one plane of the
     * physically separated layout; a disabled plane keeps its empty switch list.
     */
    method PlaceFabric(c: PlaneFabric, yPos: int, switchX: int) returns (ids: seq<string>, nextX: int)
      modifies this
      ensures Snapshot() == if c.enabled then
                              AddFabric(old(Snapshot()), FabricPlan(c.labelPrefix, c.role, c.redundancy, yPos,
                                                                    switchX, c.ipBase, c.title))
                            else old(Snapshot())
      ensures ids == IdsIfEnabled(c)
      ensures nextX == switchX + if c.enabled then Advance(c.redundancy) else 0
      ensures switches == old(switches)
    {
      ids, nextX := [], switchX;
      if c.enabled {
        ids := CreateSwitchGroup(c.labelPrefix, c.role, c.redundancy, yPos, switchX, c.ipBase, c.title);
        nextX := switchX + (if c.redundancy == Redundant then 320 else 180);
      }
    }

    /** The fabrics of the physically separated mode: one per enabled plane, left to right. */
    method BuildSeparatedFabrics(yPos: int)
      requires yPos == StartY
      modifies this
      ensures Snapshot() == AddFabrics(old(Snapshot()), SeparatedLayout(config.network).plans)
      ensures switches == old(switches).(management := IdsIfEnabled(ManagementFabric(config.network)),
                                         business := IdsIfEnabled(BusinessFabric(config.network)),
                                         storage := IdsIfEnabled(StorageFabric(config.network)),
                                         backup := IdsIfEnabled(BackupFabric(config.network)))
    {
      var net := config.network;
      ghost var start := Snapshot();
      ghost var l0 := Layout([], 0);
      var ids: seq<string>;
      var switchX := 0;
      assert start == AddFabrics(start, l0.plans);

      ids, switchX := PlaceStep(ManagementFabric(net), yPos, switchX, start, l0);
      switches := switches.(management := ids);
      ghost var l1 := Place(l0, ManagementFabric(net));

      ids, switchX := PlaceStep(BusinessFabric(net), yPos, switchX, start, l1);
      switches := switches.(business := ids);
      ghost var l2 := Place(l1, BusinessFabric(net));

      ids, switchX := PlaceStep(StorageFabric(net), yPos, switchX, start, l2);
      switches := switches.(storage := ids);
      ghost var l3 := Place(l2, StorageFabric(net));

      ids, switchX := PlaceStep(BackupFabric(net), yPos, switchX, start, l3);
      switches := switches.(backup := ids);
    }

    /** One plane's step of the separated layout, stated against the layout fold `Place`. */
    method PlaceStep(c: PlaneFabric, yPos: int, switchX: int, ghost start: GeneratedTopology, ghost layout: Layout)
      returns (ids: seq<string>, nextX: int)
      requires yPos == StartY && switchX == layout.switchX
      requires Snapshot() == AddFabrics(start, layout.plans)
      modifies this
      ensures Snapshot() == AddFabrics(start, Place(layout, c).plans)
      ensures nextX == Place(layout, c).switchX
      ensures ids == IdsIfEnabled(c)
      ensures switches == old(switches)
    {
      ids, nextX := PlaceFabric(c, yPos, switchX);
      PlaceAddsFabric(start, layout, c);
    }

    /** The switch phase: build every fabric, fill `switches`, return the y of the first node row. */
    method BuildSwitchFabrics() returns (currentY: int)
      modifies this
      ensures Snapshot() == AddFabrics(old(Snapshot()), FabricPlans(config.network))
      ensures switches == Switches(config.network)
      ensures currentY == LayerTop(config.network)
    {
      var net := config.network;
      ghost var start := Snapshot();
      ghost var plans: seq<FabricPlan> := [];
      switches := SwitchMap([], [], [], [], []);
      currentY := StartY;

      if net.deploymentMode == Converged {
        var core := CreateSwitchGroup("Core", CoreRole, net.coreRedundancy, currentY, ColGap * 5 / 2,
                                      "192.168.1", "核心交换区");
        plans := [CorePlan(net)];
        assert plans[..0] == [];
        switches := switches.(management := core, business := core, storage := core, backup := core);
        currentY := currentY + 200;
      } else {
        BuildSeparatedFabrics(currentY);
        plans := SeparatedLayout(net).plans;
        assert plans == PlaneFabrics(net);
        currentY := currentY + 250;
      }
      assert Snapshot() == AddFabrics(start, plans);

      if net.enableIpmi {
        var ids := CreateSwitchGroup("IPMI", IpmiRole, Single, StartY, -220, "192.168.9", "带外管理区");
        switches := switches.(ipmi := ids);
        assert (plans + [IpmiPlan])[..|plans|] == plans;
        plans := plans + [IpmiPlan];
      } else {
        assert plans + [] == plans;
      }
      assert plans == FabricPlans(net);
    }

    /** Wire node `nodeId`, index `i` of its layer, to every switch of one plane (at most two). */
    method ConnectToPlane(nodeId: string, i: nat, plane: NetworkPlane, switchIds: seq<string>,
                          portPrefix: string, speed: string)
      modifies this`edges
      ensures edges == old(edges) + PlaneEdges(nodeId, i, plane, switchIds, portPrefix, speed)
    {
      if |switchIds| == 0 {
        return;
      }
      edges := edges + [EdgeConfig(nodeId, switchIds[0], plane, portPrefix + "0", PortName(portPrefix, i), speed)];
      if |switchIds| > 1 {
        edges := edges + [EdgeConfig(nodeId, switchIds[1], plane, portPrefix + "1", PortName(portPrefix, i), speed)];
      }
    }

    /** `if (wired) connectToPlane(...)`: wire the node to one plane when the plane applies to it. */
    method ConnectIfWired(wired: bool, kind: LayerKind, nodeId: string, i: nat, plane: NetworkPlane,
                          switchIds: seq<string>, portPrefix: string, speed: string)
      requires wired == PlaneWired(config, kind, plane)
      modifies this`edges
      ensures edges == old(edges) + WiredEdges(config, kind, nodeId, i, plane, switchIds, portPrefix, speed)
    {
      if wired {
        ConnectToPlane(nodeId, i, plane, switchIds, portPrefix, speed);
      }
    }

    /** Wire node `i` of a layer to every plane that applies to it, in the fixed plane order. */
    method WireNode(nodeId: string, kind: LayerKind, prefix: string, i: nat)
      requires nodeId == LayerNodeId(prefix, i)
      modifies this`edges
      ensures edges == old(edges) + NodeEdges(config, switches, kind, prefix, i)
    {
      var net := config.network;
      var converged := net.deploymentMode == Converged;
      var sw := switches;
      ghost var e0 := edges;
      PlaneApplicability(config, kind);
      ConnectIfWired(net.enableManagement || converged,
                     kind, nodeId, i, ManagementPlane, sw.management, "Mgmt", "1GE");
      ConnectIfWired(net.enableBusiness || converged,
                     kind, nodeId, i, BusinessPlane, sw.business, "Eth", "10GE");
      ConnectIfWired((kind == StorageLayer || config.mode == Hci) && (net.enableStorage || converged),
                     kind, nodeId, i, StoragePlane, sw.storage, "Stor", "25GE");
      ConnectIfWired(net.enableBackup || converged,
                     kind, nodeId, i, BackupPlane, sw.backup, "Bk", "10GE");
      ConnectIfWired(net.enableIpmi,
                     kind, nodeId, i, IpmiPlane, sw.ipmi, "BMC", "100M");
      NodeEdgesAppend(e0, config, sw, kind, prefix, i);
    }

    /** Place `count` nodes on the grid under one group box and wire each to its planes. */
    method CreateLayer(count: nat, kind: LayerKind, prefix: string, baseY: int, groupLabel: string, startIp: nat)
      modifies this
      ensures Snapshot() == AddLayer(old(Snapshot()), config, switches, count, kind, prefix, baseY, groupLabel, startIp)
      ensures switches == old(switches)
    {
      var net := config.network;
      var nodesInRow := if count < RowCapacity then count else RowCapacity;
      var rows := (count + RowCapacity - 1) / RowCapacity;
      var groupWidth := if net.deploymentMode == PhysicallySeparated then ColGap * 8
                        else nodesInRow * ColGap + GroupPadding;
      groups := groups + [Group("grp-" + prefix, groupLabel, StartX - 40, baseY - 60, groupWidth,
                                rows * RowPitch + GroupPadding)];

      assert groups == old(groups) + [LayerGroup(net, count, prefix, baseY, groupLabel)];
      AddLayerNodes(count, kind, prefix, baseY, startIp);
    }

    /** The loop of `createLayer`: place and wire nodes `0 .. count - 1`. */
    method AddLayerNodes(count: nat, kind: LayerKind, prefix: string, baseY: int, startIp: nat)
      modifies this`nodes, this`edges
      ensures nodes == old(nodes) + LayerNodes(config.network, kind, prefix, baseY, startIp, count)
      ensures edges == old(edges) + LayerEdges(config, switches, kind, prefix, count)
    {
      var net := config.network;
      ghost var n0, e0 := nodes, edges;
      var i := 0;
      while i < count
        invariant 0 <= i <= count
        invariant nodes == n0 + LayerNodes(net, kind, prefix, baseY, startIp, i)
        invariant edges == e0 + LayerEdges(config, switches, kind, prefix, i)
      {
        ghost var ns, es := LayerNodes(net, kind, prefix, baseY, startIp, i), LayerEdges(config, switches, kind, prefix, i);
        var nodeId := AddNode(kind, prefix, baseY, startIp, i);
        LayerNodesGrow(net, kind, prefix, baseY, startIp, i);
        AppendAssoc(n0, ns, [LayerNode(net, kind, prefix, baseY, startIp, i)]);
        WireNode(nodeId, kind, prefix, i);
        AppendAssoc(e0, es, NodeEdges(config, switches, kind, prefix, i));
        i := i + 1;
      }
    }

    /** Node `i` of a layer: its grid position, its zero-padded id and label, and its management address. */
    method AddNode(kind: LayerKind, prefix: string, baseY: int, startIp: nat, i: nat) returns (nodeId: string)
      modifies this`nodes
      ensures nodes == old(nodes) + [LayerNode(config.network, kind, prefix, baseY, startIp, i)]
      ensures nodeId == LayerNodeId(prefix, i)
    {
      var net := config.network;
      var rowIndex := i / RowCapacity;
      var colIndex := i % RowCapacity;
      var centerOffset := if net.deploymentMode == PhysicallySeparated then ColGap * 3 / 2 else 0;
      var nodeX := StartX + colIndex * ColGap + centerOffset;
      var nodeY := baseY + rowIndex * RowPitch;
      nodeId := prefix + "-" + Pad2(i + 1);
      var nodeLabel := (if kind == ComputeLayer then "CNA" else "SNA") + "-" + Pad2(i + 1);
      var node := NodeConfig(nodeId, KindType(kind), nodeLabel, Some("192.168.10." + NatToString(startIp + i)),
                             nodeX, nodeY, Some("grp-" + prefix), None);
      nodes := nodes + [node];
    }
  }

  /** Build the whole topology for `config`. */
  method GenerateTopology(config: ProjectConfig) returns (t: GeneratedTopology)
    ensures t == Topology(config)
  {
    var b := new TopologyBuilder(config);
    var currentY := b.BuildSwitchFabrics();
    assert b.Snapshot() == FabricTopology(config.network);
    assert (if config.mode == Hci then "超融合计算池 (HCI)" else "计算资源池 (Compute)") == ComputeLabel(config.mode);

    b.CreateLayer(config.nodeCount, ComputeLayer, "comp", currentY,
                  if config.mode == Hci then "超融合计算池 (HCI)" else "计算资源池 (Compute)", 10);
    assert b.Snapshot() == ComputeTopology(config);

    if config.mode == Standard && config.storageCount > 0 {
      var computeRows := (config.nodeCount + RowCapacity - 1) / RowCapacity;
      var storageY := currentY + computeRows * RowPitch + 120;
      assert storageY == StorageY(config);
      b.CreateLayer(config.storageCount, StorageLayer, "store", storageY, "专用存储资源池 (Storage)", 50);
    }

    t := b.Snapshot();
  }
}
