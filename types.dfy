/**
 * The value types shared by the topology generator and the bill-of-materials
 * tally: the enumerations, the device/link/group records, the project
 * configuration and the layout constants.
 */
module Types {

  datatype Option<+T> = None | Some(value: T)

  datatype VendorId = HuaweiCloud | Aws | Azure | Cisco | Custom

  datatype NodeType = Compute | Storage | Switch | Firewall | Router | Vm

  datatype NetworkPlane =
    | ManagementPlane
    | BusinessPlane
    | StoragePlane
    | BackupPlane
    | StackPlane
    | HeartbeatPlane
    | IpmiPlane

  datatype TopologyMode = Hci | Standard

  datatype SwitchRedundancy = Single | Redundant

  datatype SwitchDeploymentMode = Converged | PhysicallySeparated

  /** A positioned device of the generated graph. */
  datatype NodeConfig = NodeConfig(
    id: string,
    nodeType: NodeType,
    labelText: string,
    ip: Option<string>,
    x: int,
    y: int,
    groupId: Option<string>,
    iconUrl: Option<string>)

  /** A cable between a port of `source` and a port of `target`. */
  datatype EdgeConfig = EdgeConfig(
    source: string,
    target: string,
    plane: NetworkPlane,
    sourcePort: string,
    targetPort: string,
    speed: string)

  /** A rectangular box drawn around a switch pair or a node layer. */
  datatype Group = Group(id: string, labelText: string, x: int, y: int, width: int, height: int)

  datatype NetworkConfig = NetworkConfig(
    deploymentMode: SwitchDeploymentMode,
    coreRedundancy: SwitchRedundancy,
    enableManagement: bool,
    managementRedundancy: SwitchRedundancy,
    enableBusiness: bool,
    businessRedundancy: SwitchRedundancy,
    enableStorage: bool,
    storageRedundancy: SwitchRedundancy,
    enableBackup: bool,
    backupRedundancy: SwitchRedundancy,
    enableIpmi: bool)

  datatype ProjectConfig = ProjectConfig(
    projectId: string,
    projectName: string,
    vendorId: VendorId,
    mode: TopologyMode,
    network: NetworkConfig,
    nodeCount: nat,
    storageCount: nat,
    showWatermark: bool,
    showLegend: bool,
    watermarkText: string)

  datatype GeneratedTopology = GeneratedTopology(
    nodes: seq<NodeConfig>,
    edges: seq<EdgeConfig>,
    groups: seq<Group>)

  /** The rendering constants the generator reads (STYLES). */
  const NodeWidth: int := 60
  const NodeHeight: int := 60
  const SwitchWidth: int := 60
  const SwitchHeight: int := 40
  const GroupPadding: int := 40
  const RowCapacity: nat := 8

  /** The string a node type has at run time (the `type` field's value). */
  function NodeTypeName(t: NodeType): string
  {
    match t
    case Compute => "compute"
    case Storage => "storage"
    case Switch => "switch"
    case Firewall => "firewall"
    case Router => "router"
    case Vm => "vm"
  }

  /** The string a plane has at run time (the `plane` field's value). */
  function PlaneName(p: NetworkPlane): string
  {
    match p
    case ManagementPlane => "management"
    case BusinessPlane => "business"
    case StoragePlane => "storage"
    case BackupPlane => "backup"
    case StackPlane => "stack"
    case HeartbeatPlane => "heartbeat"
    case IpmiPlane => "ipmi"
  }

  /** True when `id` is the id of some node of `nodes`. */
  predicate HasNode(nodes: seq<NodeConfig>, id: string)
  {
    exists k :: 0 <= k < |nodes| && nodes[k].id == id
  }

  /** No two nodes share an id. */
  predicate DistinctIds(nodes: seq<NodeConfig>)
  {
    forall i, j :: 0 <= i < j < |nodes| ==> nodes[i].id != nodes[j].id
  }
}
