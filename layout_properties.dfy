/**
 * Geometry of the generated topology: the switch boxes do not overlap
 * horizontally, the boxes form ordered vertical bands, and the nodes of a
 * layer sit on a grid inside their box, except for the last two columns of
 * a physically separated layer, which stick out of its fixed-width box.
 */
module LayoutProperties {
  import opened Types
  import opened Decimal
  import opened Generator
  import opened FabricProperties
  import opened TopologyProperties

  /** The box `g` ends at or left of where `h` starts. */
  predicate LeftOf(g: Group, h: Group)
  {
    g.x + g.width <= h.x
  }

  /**
   * The switch boxes never overlap horizontally: the data-plane boxes run left to
   * right from x = 100, and the out-of-band box, when present, is the last one
   * created and lies left of all of them, ending at x = 20.
   */
  lemma SwitchGroupsDisjoint(net: NetworkConfig)
    ensures var gs := FabricsGroups(FabricPlans(net));
      var main := |PlaneFabrics(net)|;
      && (forall i, j :: 0 <= i < j < main ==> LeftOf(gs[i], gs[j]))
      && (forall i :: 0 <= i < main ==> 100 <= gs[i].x)
      && (net.enableIpmi ==> |gs| == main + 1 && gs[main].x == -120 && gs[main].x + gs[main].width == 20
                              && forall i :: 0 <= i < main ==> LeftOf(gs[main], gs[i]))
      && (!net.enableIpmi ==> |gs| == main)
  {
    var ps := PlaneFabrics(net);
    var all := FabricPlans(net);
    var gs := FabricsGroups(all);
    assert forall i :: 0 <= i < |ps| ==> all[i] == ps[i];
    if net.deploymentMode != Converged {
      SeparatedFabricsApart(net);
      assert forall i :: 0 <= i < |ps| ==> gs[i].x == 100 + ps[i].xOffset && gs[i].x + gs[i].width == 100 + FabricEnd(ps[i]);
    }
  }

  /**
   * The vertical bands: switch boxes span y 10..150; the compute box, always
   * present, starts at 200 (converged) or 250 (separated); the storage box exists
   * exactly when the mode is Standard with storage nodes, and starts 80 below the
   * bottom of the compute box.
   */
  lemma VerticalBands(config: ProjectConfig)
    ensures var gs := Topology(config).groups;
      var n := |FabricPlans(config.network)|;
      && |gs| == n + 1 + (if HasStorageLayer(config) then 1 else 0)
      && (forall i :: 0 <= i < n ==> gs[i].y == 10 && gs[i].y + gs[i].height == 150)
      && gs[n].id == "grp-comp"
      && gs[n].y == (if config.network.deploymentMode == Converged then 200 else 250)
      && (HasStorageLayer(config) ==> gs[n + 1].id == "grp-store" && gs[n + 1].y == gs[n].y + gs[n].height + 80)
  {
    var ps := FabricPlans(config.network);
    TopologyParts(config);
    FabricsOnSwitchRow(config.network);
    BandsOfParts(ps, ComputeGroup(config), StorageGroups(config));
    LayerBands(config);
  }

  lemma LayerBands(config: ProjectConfig)
    ensures ComputeGroup(config).id == "grp-comp"
    ensures ComputeGroup(config).y == (if config.network.deploymentMode == Converged then 200 else 250)
    ensures |StorageGroups(config)| == (if HasStorageLayer(config) then 1 else 0)
    ensures HasStorageLayer(config) ==>
      var cg := ComputeGroup(config);
      StorageGroups(config)[0].id == "grp-store" && StorageGroups(config)[0].y == cg.y + cg.height + 80
  {
  }

  lemma BandsOfParts(ps: seq<FabricPlan>, cg: Group, sg: seq<Group>)
    requires forall i :: 0 <= i < |ps| ==> FabricGroup(ps[i]).y == 10 && FabricGroup(ps[i]).height == 140
    ensures var gs := FabricsGroups(ps) + [cg] + sg;
      && |gs| == |ps| + 1 + |sg|
      && (forall i :: 0 <= i < |ps| ==> gs[i].y == 10 && gs[i].y + gs[i].height == 150)
      && gs[|ps|] == cg
      && (|sg| > 0 ==> gs[|ps| + 1] == sg[0])
  {
    var gs := FabricsGroups(ps) + [cg] + sg;
    assert forall i :: 0 <= i < |ps| ==> gs[i] == FabricGroup(ps[i]);
  }

  // ---------------------------------------------------------------------------
  // Node layers
  // ---------------------------------------------------------------------------

  lemma RowOfIndex(i: nat, count: nat)
    requires i < count
    ensures i / RowCapacity < Rows(count)
    ensures i % RowCapacity < NodesInRow(count)
  {
  }

  /** Converged mode: every node of a layer lies inside the layer's box with 40 to spare on every side. */
  lemma ConvergedLayerEnclosed(net: NetworkConfig, kind: LayerKind, prefix: string, baseY: int, startIp: nat,
                               count: nat, groupLabel: string, i: nat)
    requires net.deploymentMode == Converged && i < count
    ensures var v := LayerNodes(net, kind, prefix, baseY, startIp, count)[i];
      Encloses(LayerGroup(net, count, prefix, baseY, groupLabel), v.x, v.y, NodeWidth, NodeHeight, GroupPadding)
  {
    RowOfIndex(i, count);
  }

  /**
   * Physically separated mode: the box is 1120 wide while the nodes are shifted 210
   * to the right, so a node lies inside its box exactly when it is in one of the
   * first six columns; columns 6 and 7 stick out on the right.
   */
  lemma SeparatedLayerOverflow(net: NetworkConfig, kind: LayerKind, prefix: string, baseY: int, startIp: nat,
                               count: nat, groupLabel: string, i: nat)
    requires net.deploymentMode == PhysicallySeparated && i < count
    ensures var v := LayerNodes(net, kind, prefix, baseY, startIp, count)[i];
      && (Encloses(LayerGroup(net, count, prefix, baseY, groupLabel), v.x, v.y, NodeWidth, NodeHeight, GroupPadding)
          <==> i % RowCapacity <= 5)
      && v.x <= 1290
  {
    RowOfIndex(i, count);
  }

  /** No two nodes of a layer share a grid position. */
  lemma LayerPositionsDistinct(net: NetworkConfig, kind: LayerKind, prefix: string, baseY: int, startIp: nat,
                               count: nat, i: nat, j: nat)
    requires i < count && j < count && i != j
    ensures var ns := LayerNodes(net, kind, prefix, baseY, startIp, count);
      ns[i].x != ns[j].x || ns[i].y != ns[j].y
  {
    assert i == RowCapacity * (i / RowCapacity) + i % RowCapacity;
    assert j == RowCapacity * (j / RowCapacity) + j % RowCapacity;
  }

  lemma PrefixCancel(a: string, b: string, c: string)
    requires a + b == a + c
    ensures b == c
  {
    assert b == (a + b)[|a|..];
    assert c == (a + c)[|a|..];
  }

  /** Node ids `<prefix>-NN` and addresses `192.168.10.<startIp + i>` are distinct within a layer. */
  lemma LayerNamesDistinct(net: NetworkConfig, kind: LayerKind, prefix: string, baseY: int, startIp: nat,
                           count: nat, i: nat, j: nat)
    requires i < count && j < count && i != j
    ensures var ns := LayerNodes(net, kind, prefix, baseY, startIp, count);
      ns[i].id != ns[j].id && ns[i].ip != ns[j].ip
  {
    var ns := LayerNodes(net, kind, prefix, baseY, startIp, count);
    if ns[i].id == ns[j].id {
      PrefixCancel(prefix + "-", Pad2(i + 1), Pad2(j + 1));
      Pad2Injective(i + 1, j + 1);
    }
    if ns[i].ip == ns[j].ip {
      PrefixCancel("192.168.10.", NatToString(startIp + i), NatToString(startIp + j));
      NatToStringInjective(startIp + i, startIp + j);
    }
  }
}
