/**
 * Node ids are unique across the whole topology: switches are `sw-<role>-01`
 * and `sw-<role>-02` with one fabric per role, compute nodes `comp-NN` and
 * storage nodes `store-NN`.
 */
module NamingProperties {
  import opened Types
  import opened Decimal
  import opened Generator
  import opened FabricProperties
  import opened TopologyProperties
  import opened LayoutProperties
  import opened WiringProperties

  lemma SuffixCancel(a: string, b: string, c: string)
    requires a + c == b + c
    ensures a == b
  {
    assert a == (a + c)[..|a|];
    assert b == (b + c)[..|b|];
  }

  /** Switch ids name their role and their position in the pair, and nothing else. */
  lemma SwitchIdsInjective(r1: SwitchRole, r2: SwitchRole)
    ensures SwitchIdA(r1) != SwitchIdB(r2)
    ensures SwitchIdA(r1) == SwitchIdA(r2) <==> r1 == r2
    ensures SwitchIdB(r1) == SwitchIdB(r2) <==> r1 == r2
  {
    var a1, b2 := SwitchIdA(r1), SwitchIdB(r2);
    assert a1[|a1| - 1] == '1' && b2[|b2| - 1] == '2';
    if SwitchIdA(r1) == SwitchIdA(r2) {
      SuffixCancel("sw-" + RoleName(r1), "sw-" + RoleName(r2), "-01");
      PrefixCancel("sw-", RoleName(r1), RoleName(r2));
      RoleNameInjective(r1, r2);
    }
    if SwitchIdB(r1) == SwitchIdB(r2) {
      SuffixCancel("sw-" + RoleName(r1), "sw-" + RoleName(r2), "-02");
      PrefixCancel("sw-", RoleName(r1), RoleName(r2));
      RoleNameInjective(r1, r2);
    }
  }

  /** The id of a switch of one of the fabrics `ps`. */
  ghost predicate SwitchOf(ps: seq<FabricPlan>, id: string)
  {
    exists k :: 0 <= k < |ps| && (id == SwitchIdA(ps[k].role) || id == SwitchIdB(ps[k].role))
  }

  lemma {:induction false} FabricsNodeIds(ps: seq<FabricPlan>)
    ensures forall m :: 0 <= m < |FabricsNodes(ps)| ==> SwitchOf(ps, FabricsNodes(ps)[m].id)
  {
    if ps != [] {
      var init := ps[..|ps| - 1];
      var f := ps[|ps| - 1];
      var a: seq<NodeConfig>, b: seq<NodeConfig> := FabricsNodes(init), FabricNodes(f);
      FabricsNodeIds(init);
      forall m | 0 <= m < |a + b|
        ensures SwitchOf(ps, (a + b)[m].id)
      {
        if m < |a| {
          var k :| 0 <= k < |init| && (a[m].id == SwitchIdA(init[k].role) || a[m].id == SwitchIdB(init[k].role));
          assert ps[k] == init[k];
        } else {
          assert (a + b)[m] == b[m - |a|];
        }
      }
    }
  }

  lemma DistinctAppend(a: seq<NodeConfig>, b: seq<NodeConfig>)
    requires DistinctIds(a) && DistinctIds(b)
    requires forall i, j :: 0 <= i < |a| && 0 <= j < |b| ==> a[i].id != b[j].id
    ensures DistinctIds(a + b)
  {
    var c := a + b;
    forall i, j | 0 <= i < j < |c|
      ensures c[i].id != c[j].id
    {
      if j < |a| {
        assert c[i] == a[i] && c[j] == a[j];
      } else if i >= |a| {
        assert c[i] == b[i - |a|] && c[j] == b[j - |a|];
      } else {
        assert c[i] == a[i] && c[j] == b[j - |a|];
      }
    }
  }

  /** When no role has two fabrics, no two switches share an id. */
  lemma {:induction false} FabricsIdsDistinct(ps: seq<FabricPlan>, bound: nat)
    requires RanksBelow(ps, bound)
    ensures DistinctIds(FabricsNodes(ps))
  {
    if ps != [] {
      var init := ps[..|ps| - 1];
      var f := ps[|ps| - 1];
      assert RanksBelow(init, bound);
      FabricsIdsDistinct(init, bound);
      FabricsNodeIds(init);
      var a: seq<NodeConfig>, b: seq<NodeConfig> := FabricsNodes(init), FabricNodes(f);
      forall i, j | 0 <= i < |a| && 0 <= j < |b|
        ensures a[i].id != b[j].id
      {
        var k :| 0 <= k < |init| && (a[i].id == SwitchIdA(init[k].role) || a[i].id == SwitchIdB(init[k].role));
        assert Rank(ps[k].role) < Rank(f.role);
        SwitchIdsInjective(init[k].role, f.role);
        SwitchIdsInjective(f.role, init[k].role);
      }
      SwitchIdsInjective(f.role, f.role);
      DistinctAppend(a, b);
    }
  }

  /** The first characters of an id tell its kind: `sw`, `c`, `st`. */
  lemma IdHeads(ps: seq<FabricPlan>, config: ProjectConfig)
    ensures forall m :: 0 <= m < |FabricsNodes(ps)| ==>
      |FabricsNodes(ps)[m].id| >= 2 && FabricsNodes(ps)[m].id[0] == 's' && FabricsNodes(ps)[m].id[1] == 'w'
    ensures forall m :: 0 <= m < |ComputeNodes(config)| ==>
      |ComputeNodes(config)[m].id| >= 2 && ComputeNodes(config)[m].id[0] == 'c'
    ensures forall m :: 0 <= m < |StorageNodes(config)| ==>
      |StorageNodes(config)[m].id| >= 2 && StorageNodes(config)[m].id[0] == 's' && StorageNodes(config)[m].id[1] == 't'
  {
    FabricsNodeIds(ps);
    forall m | 0 <= m < |FabricsNodes(ps)|
      ensures |FabricsNodes(ps)[m].id| >= 2 && FabricsNodes(ps)[m].id[0] == 's' && FabricsNodes(ps)[m].id[1] == 'w'
    {
      var id := FabricsNodes(ps)[m].id;
      var k :| 0 <= k < |ps| && (id == SwitchIdA(ps[k].role) || id == SwitchIdB(ps[k].role));
    }
  }

  lemma LayerIdsDistinct(net: NetworkConfig, kind: LayerKind, prefix: string, baseY: int, startIp: nat, n: nat)
    ensures DistinctIds(LayerNodes(net, kind, prefix, baseY, startIp, n))
  {
    forall i, j | 0 <= i < j < n
      ensures LayerNodes(net, kind, prefix, baseY, startIp, n)[i].id != LayerNodes(net, kind, prefix, baseY, startIp, n)[j].id
    {
      LayerNamesDistinct(net, kind, prefix, baseY, startIp, n, i, j);
    }
  }

  /** No two nodes of the generated topology share an id. */
  lemma NodeIdsDistinct(config: ProjectConfig)
    ensures DistinctIds(Topology(config).nodes)
  {
    var ps := FabricPlans(config.network);
    var fn, cn, sn := FabricsNodes(ps), ComputeNodes(config), StorageNodes(config);
    TopologyParts(config);
    FabricRanksIncrease(config.network);
    FabricsIdsDistinct(ps, 6);
    LayerIdsDistinct(config.network, ComputeLayer, "comp", LayerTop(config.network), 10, config.nodeCount);
    LayerIdsDistinct(config.network, StorageLayer, "store", StorageY(config), 50, config.storageCount);
    IdHeads(ps, config);
    DistinctAppend(fn, cn);
    DistinctAppend(fn + cn, sn);
  }

  /** A disabled plane's role has no switch in the topology: no node carries its `-01` or `-02` id. */
  lemma DisabledPlaneNoSwitches(config: ProjectConfig, plane: NetworkPlane)
    requires PlaneOff(config.network, plane)
    ensures forall n :: n in Topology(config).nodes ==>
      n.id != SwitchIdA(PlaneRole(plane)) && n.id != SwitchIdB(PlaneRole(plane))
  {
    var ps := FabricPlans(config.network);
    var r := PlaneRole(plane);
    TopologyParts(config);
    DisabledPlaneHasNoFabric(config.network, plane);
    FabricsAvoidIds(ps, r);
    IdHeads(ps, config);
    SwitchIdHeads(r);
    PartsAvoidIds(FabricsNodes(ps), ComputeNodes(config), StorageNodes(config), SwitchIdA(r), SwitchIdB(r));
  }

  lemma SwitchIdHeads(r: SwitchRole)
    ensures SwitchIdA(r)[0] == 's' && SwitchIdA(r)[1] == 'w' && SwitchIdA(r)[2] == '-'
    ensures SwitchIdB(r)[0] == 's' && SwitchIdB(r)[1] == 'w' && SwitchIdB(r)[2] == '-'
  {
  }

  /** Fabrics of other roles than `r` hold no switch with `r`'s ids. */
  lemma FabricsAvoidIds(ps: seq<FabricPlan>, r: SwitchRole)
    requires forall k :: 0 <= k < |ps| ==> ps[k].role != r
    ensures forall m :: 0 <= m < |FabricsNodes(ps)| ==>
      FabricsNodes(ps)[m].id != SwitchIdA(r) && FabricsNodes(ps)[m].id != SwitchIdB(r)
  {
    FabricsNodeIds(ps);
    forall m | 0 <= m < |FabricsNodes(ps)|
      ensures FabricsNodes(ps)[m].id != SwitchIdA(r) && FabricsNodes(ps)[m].id != SwitchIdB(r)
    {
      var id := FabricsNodes(ps)[m].id;
      var k :| 0 <= k < |ps| && (id == SwitchIdA(ps[k].role) || id == SwitchIdB(ps[k].role));
      SwitchIdsInjective(ps[k].role, r);
      SwitchIdsInjective(r, ps[k].role);
    }
  }

  lemma PartsAvoidIds(fn: seq<NodeConfig>, cn: seq<NodeConfig>, sn: seq<NodeConfig>, a: string, b: string)
    requires |a| >= 2 && a[0] == 's' && a[1] == 'w' && |b| >= 2 && b[0] == 's' && b[1] == 'w'
    requires forall m :: 0 <= m < |fn| ==> fn[m].id != a && fn[m].id != b
    requires forall m :: 0 <= m < |cn| ==> |cn[m].id| >= 2 && cn[m].id[0] == 'c'
    requires forall m :: 0 <= m < |sn| ==> |sn[m].id| >= 2 && sn[m].id[0] == 's' && sn[m].id[1] == 't'
    ensures forall n :: n in fn + cn + sn ==> n.id != a && n.id != b
  {
    forall n | n in fn + cn + sn
      ensures n.id != a && n.id != b
    {
      if n in fn {
        var m :| 0 <= m < |fn| && fn[m] == n;
      } else if n in cn {
        var m :| 0 <= m < |cn| && cn[m] == n;
      } else {
        var m :| 0 <= m < |sn| && sn[m] == n;
      }
    }
  }

  /**
   * A plane that is disabled in physically separated mode, or the disabled
   * out-of-band plane, gets no switch box, no switch, an empty switch list,
   * and no links.
   */
  lemma DisabledPlaneSilent(config: ProjectConfig, plane: NetworkPlane)
    requires PlaneOff(config.network, plane)
    ensures var t := Topology(config);
      && (forall e :: e in t.edges ==> e.plane != plane)
      && (forall g :: g in t.groups ==> g.id != FabricGroupId(PlaneRole(plane)))
      && (forall n :: n in t.nodes ==> n.id != SwitchIdA(PlaneRole(plane)) && n.id != SwitchIdB(PlaneRole(plane)))
      && PlaneSwitches(Switches(config.network), plane) == []
  {
    DisabledPlaneNoEdges(config, plane);
    DisabledPlaneNoGroup(config, plane);
    DisabledPlaneNoSwitches(config, plane);
    DisabledPlaneHasNoFabric(config.network, plane);
  }

  /**
   * Addresses are unique within a layer only: compute nodes count up from
   * 192.168.10.10 and storage nodes from 192.168.10.50, so with more than 40
   * compute nodes, compute node 41 and storage node 1 share 192.168.10.50.
   */
  lemma SharedNodeAddress(config: ProjectConfig)
    requires HasStorageLayer(config) && config.nodeCount > 40
    ensures exists c, s ::
              && c in Topology(config).nodes && s in Topology(config).nodes
              && c.id != s.id && c.ip == s.ip == Some("192.168.10." + NatToString(50))
  {
    var c := ComputeNodes(config)[40];
    var s := StorageNodes(config)[0];
    PartNodesInTopology(config, c);
    PartNodesInTopology(config, s);
    assert c.id[0] == 'c' && s.id[0] == 's';
  }

  lemma PartNodesInTopology(config: ProjectConfig, n: NodeConfig)
    requires n in ComputeNodes(config) || n in StorageNodes(config)
    ensures n in Topology(config).nodes
  {
    TopologyParts(config);
  }
}
