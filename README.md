# Network topology generator and bill-of-materials tally, modelled in Dafny

This project models the core of a web tool that drafts data-centre network
diagrams. One project configuration (deployment mode, per-plane switch
redundancy, node counts) goes in. The generator `generateTopology` returns a graph of
positioned devices, cabled links and group boxes. The bill-of-materials panel
then counts switches, servers, cables and optical modules in that graph.

The generator works in three phases:

1. **Switch fabrics.** A fabric is one switch, or a redundant pair joined by a stack link, drawn inside one box.
   Converged mode builds a single core fabric that the management, business, storage and backup planes share.
   Physically separated mode builds one fabric per enabled plane, left to right.
   An optional out-of-band (IPMI) fabric is always a single switch, drawn at the far left.
2. **Node layers.** The generator always builds a compute layer. A storage layer follows in Standard mode when there are storage nodes.
   Each layer is a box and a grid eight nodes wide. Every node is cabled to each switch of every plane that applies to it.
3. **Vertical threading.** The first node row sits 200 (converged) or 250 (separated) below the switch row.
   The storage layer starts below the last compute row.

Modules:

- `Types` (types.dfy): the enumerations, the node, link, group and configuration records, and the layout constants.
- `Decimal` (decimal.dfy): `n.toString()` and `padStart(2, '0')`. A parser proves them injective.
- `Generator` (generator.dfy): the first half holds pure specification functions, with `Topology(config)` at the top.
  The second half is the generator itself. The `TopologyBuilder` class keeps `nodes`, `edges` and `groups` as sequence fields that its methods append to.
  Its methods are `CreateSwitchGroup`, the switch phase, `CreateLayer` with its `for` loop (`AddLayerNodes`, with `AddNode` and `WireNode` for the loop body), and `ConnectToPlane`.
  `GenerateTopology` is proved to return exactly `Topology(config)`.
- `FabricProperties`, `TopologyProperties`, `LayoutProperties`, `WiringProperties` and `NamingProperties` hold lemmas about `Topology`.
  They cover fabric shape and layout, device and link counts, no dangling links, geometry, plane policy and id uniqueness.
- `BomStats` (bom_stats.dfy): the tally. The switch count is a pure filter. The server count and the cable counters are loops. The item list is pushed conditionally.
  `BomOfTopology` links the tally of a generated graph back to the generator.

The tally reads node and edge fields as strings at run time (`type`, `plane`, `isStack`, `stackCount`), including values that the
record types do not declare (`'management'`, `'mlag'`). It is therefore modelled over its own view records, `BomNode` and `BomEdge`.

Facts about the code that the model keeps as they are:

- A layer emits exactly `count` nodes. There is no collapsed stacked node, no port bond, no `mlag` peer link and no reuse of compute nodes for management.
  Every peer link between the two switches of a pair is tagged `stack`.
- The compute group is pushed even when `nodeCount` is 0. `VerticalBands` states that this group is present for every configuration.
- In converged HCI mode every node is cabled to the storage plane.
  `TopologyProperties.ConvergedHciSixNodes` states what the code produces for six nodes: 2 switches, 6 compute nodes and 49 links.
  That is 1 stack link plus 6 × (2 management + 2 business + 2 storage + 2 backup).
- Node addresses are unique within a layer only. The compute layer numbers from `.10` and the storage layer from `.50` on the same `192.168.10.` prefix,
  so with more than 40 compute nodes compute node 41 and storage node 1 share an address (`NamingProperties.SharedNodeAddress`).

## Model

| member | source | states |
|---|---|---|
| Decimal.NatToString | utils/generator.ts:223-230 | The decimal rendering is non-empty, all digits, and a single digit exactly for n < 10 |
| Decimal.ParseNatToString | utils/generator.ts:230 | Parsing the rendering of n gives back n |
| Decimal.ParsePad2 | utils/generator.ts:223-224 | Parsing the zero-padded two-digit rendering gives back n |
| Decimal.NatToStringInjective | utils/generator.ts:230 | Two numbers render alike if and only if they are equal |
| Decimal.Pad2Injective | utils/generator.ts:223-224 | Two numbers pad-render alike if and only if they are equal |
| Generator.FabricIds | utils/generator.ts:25-90 | A fabric returns 2 switch ids when Redundant and 1 when Single |
| Generator.FabricNodes | utils/generator.ts:50-77 | Each switch has its fabric's id and type switch, belongs to the fabric's group, and lies inside the group box with 40 to spare on each side |
| Generator.LayerNodes | utils/generator.ts:215-235 | A layer of count n has exactly n nodes |
| Generator.TopologyBuilder.constructor | utils/generator.ts:5-7 | The builder starts with no nodes, edges or groups |
| Generator.TopologyBuilder.CreateSwitchGroup | utils/generator.ts:16-91 | Appends exactly the fabric's group, switches and stack link, returns the fabric's ids, and leaves the switch map unchanged |
| Generator.TopologyBuilder.PlaceFabric | utils/generator.ts:125-171 | An enabled plane gets its fabric at the current switchX, and switchX advances by 320 or 180; a disabled plane adds nothing and returns no ids |
| Generator.TopologyBuilder.PlaceStep | utils/generator.ts:125-171 | One step of the separated switch phase: the builder grows by exactly the fabric that placing the plane adds, the ids are the plane's ids (none when disabled), and switchX moves to the placed layout's |
| Generator.TopologyBuilder.BuildSeparatedFabrics | utils/generator.ts:121-174 | Separated mode appends the fabrics of the enabled planes in the order management, business, storage, backup, and sets each plane's switch list (empty when disabled) |
| Generator.TopologyBuilder.BuildSwitchFabrics | utils/generator.ts:103-186 | The switch phase appends exactly the fabrics `FabricPlans(net)`, leaves the switch map `Switches(net)`, and returns the first node row y |
| Generator.TopologyBuilder.ConnectToPlane | utils/generator.ts:238-260 | Appends one link per switch of the plane, at most two, and nothing for an empty list |
| Generator.TopologyBuilder.ConnectIfWired | utils/generator.ts:262-281 | Cables the plane exactly when the plane applies to the layer |
| Generator.TopologyBuilder.WireNode | utils/generator.ts:262-281 | Appends the node's links on management, business, storage, backup and IPMI, in that order |
| Generator.TopologyBuilder.CreateLayer | utils/generator.ts:190-283 | Appends the layer's group, then for each index its node and its links, and leaves the switch map unchanged |
| Generator.TopologyBuilder.AddLayerNodes | utils/generator.ts:215-282 | The `for` loop appends, index by index, every node of the layer and every link of each node |
| Generator.TopologyBuilder.AddNode | utils/generator.ts:216-235 | Appends node i as the layer's grid, naming and address rules give it, and returns its id `<prefix>-NN` |
| Generator.GenerateTopology | utils/generator.ts:4-294 | The generator returns exactly `Topology(config)` |
| Generator.PlaceAddsFabric | utils/generator.ts:125-171 | Placing a plane adds its fabric when enabled and nothing otherwise |
| Generator.Topology | utils/generator.ts:4-294 | The generated graph as a value: the switch phase, then the compute layer, then the storage layer when separated storage is on; `TopologyParts` splits it into these parts, and `NoDanglingEdges` and `NodeIdsDistinct` state that every link joins two nodes of the graph and that node ids are unique |
| Generator.PortName | utils/generator.ts:13 | A port is named `<base>-P<index>`; `PortNameInjective` states that distinct indices on one base give distinct names, and `FirstManagementPort` that index 0 of `Mgmt` is `Mgmt-P0` |
| Generator.FabricGroup | utils/generator.ts:39-47 | The box of a fabric; `SwitchGroupShape` gives its position, its height of 140 and its width of 320 for a pair or 140 for a single switch |
| Generator.FabricEdges | utils/generator.ts:80-87 | The peer link of a redundant pair; `SwitchGroupShape` states that a pair has exactly one link, -01 to -02 on Stack-L/Stack-R at 100GE, and a single switch none, and `FabricEdgePlane` that it is on the stack plane |
| Generator.LayerGroup | utils/generator.ts:199-213 | The box of a layer; `VerticalBands` states where the compute and storage boxes lie, and `ConvergedLayerEnclosed` that in converged mode it encloses every node of the layer |
| Generator.LayerNode | utils/generator.ts:216-234 | Node i of a layer; `LayerPositionsDistinct` and `LayerNamesDistinct` state that distinct indices give distinct grid positions and names, and `SharedNodeAddress` that addresses are unique within a layer only |
| Generator.PlaneEdges | utils/generator.ts:238-260 | The links from one node to the switches of one plane; `PlaneEdgesShape` states one link per switch, at most two, link k running from the node's port `<prefix><k>` to the port `<prefix>-P<i>` of switch k |
| Generator.PlaneWired | utils/generator.ts:262-281 | Whether a plane is cabled for a layer; `PlaneApplicability` states the rule plane by plane |
| Generator.PlaneLinks | utils/generator.ts:263-281 | The links of one node on one plane, using that plane's switches, port prefix and speed; `WiredEdgesShape` states that they are the plane's links when the plane applies and none otherwise |
| FabricProperties.SwitchGroupShape | utils/generator.ts:28-88 | Gives the box position, its height of 140 and width of 320 or 140, the switch ids, IPs and positions, and the single stack link -01 to -02 (Stack-L/Stack-R, 100GE) of a redundant pair |
| FabricProperties.AdvanceCoversWidth | utils/generator.ts:134-170 | switchX advances by at least the width of the box just placed |
| FabricProperties.SeparatedFabricsApart | utils/generator.ts:121-174 | Separated-mode boxes lie right of x = 100 and do not overlap horizontally |
| FabricProperties.SeparatedFabricOrder | utils/generator.ts:125-171 | Separated mode builds one fabric per enabled plane, in the order management, business, storage, backup |
| FabricProperties.ConvergedFabrics | utils/generator.ts:106-186 | Converged mode builds only the core fabric (plus IPMI), and all four data-plane lists are the core's ids |
| FabricProperties.FabricRanksIncrease | utils/generator.ts:103-186 | No role gets two fabrics: the roles appear in a fixed strictly increasing order |
| FabricProperties.FabricsOnSwitchRow | utils/generator.ts:104-181 | Every fabric is built at y = 60, so every switch box spans y 10 to 150 |
| TopologyProperties.TopologyParts | utils/generator.ts:4-294 | The topology is the switch phase's output, then the compute layer, then the storage layer if there is one |
| TopologyProperties.NodeCounts | utils/generator.ts:215-291 | The topology holds as many switches as the fabrics have, exactly nodeCount compute nodes, and storageCount storage nodes when the mode is Standard with storageCount > 0 (0 otherwise) |
| TopologyProperties.LayerEdgesCount | utils/generator.ts:215-282 | A layer of n nodes has n times the per-node link count |
| TopologyProperties.EdgeCount | utils/generator.ts:80-291 | The link count is one stack link per redundant fabric plus, for each node, one link per switch of each applicable plane |
| TopologyProperties.WiredEdgesShape | utils/generator.ts:238-260 | A node's links on one plane number 0, 1 or 2 as the fabric size says; each comes from that node, targets a switch of that plane, uses port `<p>-P<i>` and the plane's speed |
| TopologyProperties.NodeEdgeShape | utils/generator.ts:238-281 | Every link of node i leaves that node on an applicable data or IPMI plane, for a switch of that plane, into port `<p>-P<i>` |
| TopologyProperties.EdgeOrigin | utils/generator.ts:80-291 | A link is a stack link (Stack-L to Stack-R) exactly when it comes from the switch phase; any other link belongs to the compute or storage layer on a plane that applies to that layer |
| TopologyProperties.SwitchListsBuilt | utils/generator.ts:103-186 | Every plane's switch list is empty or is the id list of a fabric that was built |
| TopologyProperties.NoDanglingEdges | utils/generator.ts:80-258 | The source and the target of every link are nodes of the topology |
| TopologyProperties.ConvergedHciSixNodes | utils/generator.ts:106-281 | Converged HCI with a redundant core, no IPMI and 6 nodes gives 2 switches, 6 compute nodes and 49 links |
| LayoutProperties.SwitchGroupsDisjoint | utils/generator.ts:106-186 | Data-plane switch boxes run left to right from x = 100 without overlap; the IPMI box is last, at x = -120, and ends at x = 20, left of all of them |
| LayoutProperties.VerticalBands | utils/generator.ts:104-291 | Switch boxes span y 10..150; the compute box is always present at y 200 or 250; the storage box exists exactly with the storage layer and starts 80 below the compute box |
| LayoutProperties.ConvergedLayerEnclosed | utils/generator.ts:199-221 | In converged mode every node lies inside its layer box with 40 to spare |
| LayoutProperties.SeparatedLayerOverflow | utils/generator.ts:202-220 | In separated mode a node lies inside its 1120-wide box if and only if its column is at most 5; its x never exceeds 1290 |
| LayoutProperties.LayerPositionsDistinct | utils/generator.ts:216-221 | No two nodes of a layer share a grid position |
| LayoutProperties.LayerNamesDistinct | utils/generator.ts:223-230 | Node ids and IP addresses are distinct within a layer |
| WiringProperties.PlaneEdgesShape | utils/generator.ts:238-260 | Link k goes to switch k from port `<p>k` into port `<p>-P<i>` with the plane's speed, for at most two switches |
| WiringProperties.IpmiOneLinkPerNode | utils/generator.ts:177-281 | The IPMI plane gives each node exactly one link when enabled and none otherwise |
| Generator.PlaneApplicability | utils/generator.ts:262-281 | States when each plane applies: management, business and backup when enabled or converged; storage additionally for storage nodes or HCI; IPMI when enabled; never stack or heartbeat |
| WiringProperties.EdgePlanes | utils/generator.ts:80-281 | Every link is a stack link (Stack-L to Stack-R) or lies on a plane that applies to some layer |
| WiringProperties.ConvergedIgnoresPlaneSettings | utils/generator.ts:106-276 | In converged mode the four data planes' enable flags and redundancies do not affect the topology |
| NamingProperties.DisabledPlaneSilent | utils/generator.ts:121-281 | A plane disabled in separated mode, or IPMI when disabled, gets no switch box, no switch node (neither `-01` nor `-02` id of its role), an empty switch list and no links |
| NamingProperties.DisabledPlaneNoSwitches | utils/generator.ts:121-171 | No node of the graph carries the switch id `-01` or `-02` of a plane disabled in separated mode |
| NamingProperties.SharedNodeAddress | utils/generator.ts:216-290 | With separated storage and more than 40 compute nodes, compute node 41 and storage node 1 are two distinct nodes with the same address 192.168.10.50 |
| WiringProperties.PortNameInjective | utils/generator.ts:13 | `<p>-P<a>` equals `<p>-P<b>` if and only if a = b |
| WiringProperties.LayerDownstreamPortsDistinct | utils/generator.ts:246-256 | Within one layer, two links on one plane into the same port name come from the same node |
| WiringProperties.SharedDownstreamPort | utils/generator.ts:238-290 | On a converged core, compute node 0 and storage node 0 are both cabled into port Mgmt-P0 of the first core switch |
| NamingProperties.SwitchIdsInjective | utils/generator.ts:53-67 | Switch ids determine their role and their position in the pair |
| NamingProperties.NodeIdsDistinct | utils/generator.ts:53-223 | No two nodes of the topology share an id |
| BomStats.SwitchFilter | components/BOMStats.tsx:45 | Keeps exactly the nodes of type switch, in order and each as often as in the input, so the switch count is the number of switch nodes |
| BomStats.CountServers | components/BOMStats.tsx:49-55 | The loop's server count equals `ServerTotal`: a compute, storage or management node adds stackCount when it is a stack with a non-zero count, and 1 otherwise; other nodes add nothing |
| BomStats.ServerWeight | components/BOMStats.tsx:51-54 | What one node adds to the server count; `ServerTotalUnstacked` states that without stacks the server count is the number of compute, storage and management nodes |
| BomStats.Classify | components/BOMStats.tsx:70-79 | The cable kind of one link; `CablesPartition` states that the RJ45, DAC and fibre counts add up to the number of links, and that the optical count is twice DAC plus fibre |
| BomStats.Items | components/BOMStats.tsx:42-85 | The item list of a graph; `ItemsShape` states its order and which items are present |
| BomStats.Tally | components/BOMStats.tsx:39-85 | The whole panel; `TallyHidden` states that it is empty exactly when the panel is hidden or there is no graph, and `BomItems` that otherwise it is `Items` |
| BomStats.ServerTotalUnstacked | components/BOMStats.tsx:49-55 | Without stacks, the server count is the number of compute, storage and management nodes |
| BomStats.CountCables | components/BOMStats.tsx:62-80 | The loop's four counters equal `Cables`: ipmi links, and management links in separated mode, are RJ45; stack and mlag links are DAC; others are fibre; DAC and fibre add two modules |
| BomStats.CablesPartition | components/BOMStats.tsx:67-80 | rj45 + dac + fiber equals the number of edges, and optical equals 2 × (dac + fiber) |
| BomStats.PushIf | components/BOMStats.tsx:82-85 | Pushes the item exactly when its count is positive |
| BomStats.BomItems | components/BOMStats.tsx:39-85 | The tally as computed equals `Tally`: nothing when hidden or without data, otherwise the item list |
| BomStats.ItemsShape | components/BOMStats.tsx:42-85 | The list starts with the switch and server items; then the optical, fibre, RJ45 and DAC items follow in that order, each present exactly when its count is positive; so 2 to 6 items |
| BomStats.CableItemsShape | components/BOMStats.tsx:82-85 | The optional items have positive counts, come in the order optical, fibre, RJ45, DAC, and each is present exactly when its count is positive |
| BomStats.PushKeepsOrder | components/BOMStats.tsx:82-85 | A conditional push keeps the list ordered and positive, grows it by one exactly when the count is positive, and adds nothing but that item |
| BomStats.OpticalIffDacOrFiber | components/BOMStats.tsx:73-78 | Optical modules are counted exactly when there is a DAC or fibre cable |
| BomStats.TallyHidden | components/BOMStats.tsx:39 | The tally is empty exactly when the panel is hidden or there is no graph |
| BomStats.BomOfTopology | components/BOMStats.tsx:45-80 | For a generated topology, the switch item counts the fabrics' switches, the server item counts compute plus storage nodes, DAC cables equal the stack links, and each link is exactly one cable |

## Left out

- The editor, the canvas, the watermark and the panel's rendering and dragging (components/ControlPanel.tsx, components/TopoCanvas.tsx, components/Watermark.tsx, and the JSX of components/BOMStats.tsx): these are UI built on React and a foreign graph library.
- App.tsx: file import and export, browser dialogs, legend dragging, and clock-based ids for dropped nodes. These are I/O and nondeterministic.
- Icon URLs, colours and line styles in constants.ts: display data. The generator never sets `iconUrl`, so it is always `None`.
- Counts are `nat`. The editor limits `nodeCount` to 0..299 and `storageCount` to 2..12. Every lemma holds for all counts, so no lemma requires these ranges.
- `connectToPlane` also guards against a missing switch list. The switch lists always exist, so only the empty-list case is modelled.
- `role.toLowerCase()` is modelled as a fixed lower-case name per role (`RoleName`).
- The tally's `config` argument is reduced to the deployment mode, the only part it reads. Its `stackCount` is an `int`, and 0 stands for "absent". JavaScript truthiness of a missing or NaN count is not modelled.
- BomStats.View: generated nodes carry no stack fields, so the projection sets `isStack` false. Stacked nodes therefore reach the tally only through its own view records, not through the generator.
- Generator.LayerNodes: the per-node coordinates, labels and IP strings are stated by the definition itself. The contracts state the consequences: count, grid distinctness, containment and overflow, and id and IP distinctness.
