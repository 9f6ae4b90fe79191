/**
 * Properties of the switch phase: the shape of one switch fabric and its
 * box, the left-to-right layout of the physically separated fabrics, which
 * fabrics exist for which configuration, and the ids they introduce.
 */
module FabricProperties {
  import opened Types
  import opened Generator

  /** A fabric is one switch (Single) or a stacked pair (Redundant) inside one box. */
  lemma SwitchGroupShape(f: FabricPlan)
    ensures var ns := FabricNodes(f);
      var g := FabricGroup(f);
      && g.id == "grp-sw-" + RoleName(f.role)
      && g.x == 100 + f.xOffset && g.y == f.yPos - 50 && g.height == 140
      && g.width == (if f.redundancy == Redundant then 320 else 140)
      && ns[0].id == "sw-" + RoleName(f.role) + "-01" && ns[0].ip == Some(f.ipBase + ".1")
      && ns[0].x == g.x + 40 && ns[0].y == f.yPos
      && (f.redundancy == Single ==> |ns| == 1 && FabricEdges(f) == [])
      && (f.redundancy == Redundant ==>
            |ns| == 2 && ns[1].id == "sw-" + RoleName(f.role) + "-02" && ns[1].ip == Some(f.ipBase + ".2")
            && ns[1].x == g.x + 220 && ns[1].y == f.yPos
            && FabricEdges(f) == [EdgeConfig(ns[0].id, ns[1].id, StackPlane, "Stack-L", "Stack-R", "100GE")])
  {
  }

  // ---------------------------------------------------------------------------
  // Horizontal layout
  // ---------------------------------------------------------------------------

  /** The x just right of a fabric's box, relative to StartX. */
  function FabricEnd(f: FabricPlan): int
  {
    f.xOffset + FabricWidth(f.redundancy)
  }

  /** Fabrics placed left to right without overlap, all at or right of `StartX`, all ending by `x`. */
  ghost predicate PlacedApart(acc: Layout)
  {
    && (forall i :: 0 <= i < |acc.plans| ==> 0 <= acc.plans[i].xOffset && FabricEnd(acc.plans[i]) <= acc.switchX)
    && (forall i, j :: 0 <= i < j < |acc.plans| ==> FabricEnd(acc.plans[i]) <= acc.plans[j].xOffset)
  }

  /** `switchX` advances by at least the width of the box just placed. */
  lemma AdvanceCoversWidth(r: SwitchRedundancy)
    ensures FabricWidth(r) <= Advance(r)
  {
  }

  lemma {:induction false} PlaceKeepsApart(acc: Layout, c: PlaneFabric)
    requires PlacedApart(acc) && 0 <= acc.switchX
    ensures PlacedApart(Place(acc, c)) && 0 <= Place(acc, c).switchX
  {
    if c.enabled {
      var next := Place(acc, c);
      var p := next.plans[|next.plans| - 1];
      assert FabricEnd(p) <= next.switchX;
      assert forall i :: 0 <= i < |acc.plans| ==> next.plans[i] == acc.plans[i];
    }
  }

  /** In physically separated mode no two fabric boxes overlap and all lie right of x = 100. */
  lemma SeparatedFabricsApart(net: NetworkConfig)
    ensures PlacedApart(SeparatedLayout(net))
  {
    var l0 := Layout([], 0);
    var l1 := Place(l0, ManagementFabric(net));
    var l2 := Place(l1, BusinessFabric(net));
    var l3 := Place(l2, StorageFabric(net));
    PlaceKeepsApart(l0, ManagementFabric(net));
    PlaceKeepsApart(l1, BusinessFabric(net));
    PlaceKeepsApart(l2, StorageFabric(net));
    PlaceKeepsApart(l3, BackupFabric(net));
  }

  // ---------------------------------------------------------------------------
  // Which fabrics exist
  // ---------------------------------------------------------------------------

  /** The roles of the fabrics `ps`, in order. */
  function Roles(ps: seq<FabricPlan>): (rs: seq<SwitchRole>)
    ensures |rs| == |ps| && forall k :: 0 <= k < |ps| ==> rs[k] == ps[k].role
  {
    if ps == [] then [] else Roles(ps[..|ps| - 1]) + [ps[|ps| - 1].role]
  }

  function RoleIf(c: PlaneFabric): seq<SwitchRole>
  {
    if c.enabled then [c.role] else []
  }

  /** Separated mode: one fabric per enabled plane, in the order management, business, storage, backup. */
  lemma SeparatedFabricOrder(net: NetworkConfig)
    ensures Roles(SeparatedLayout(net).plans)
         == RoleIf(ManagementFabric(net)) + RoleIf(BusinessFabric(net)) + RoleIf(StorageFabric(net)) + RoleIf(BackupFabric(net))
  {
    var m, b, s, k := ManagementFabric(net), BusinessFabric(net), StorageFabric(net), BackupFabric(net);
    var l0 := Layout([], 0);
    var l1 := Place(l0, m);
    var l2 := Place(l1, b);
    var l3 := Place(l2, s);
    PlaceAddsRole(l0, m);
    assert Roles(l1.plans) == RoleIf(m);
    PlaceAddsRole(l1, b);
    PlaceAddsRole(l2, s);
    PlaceAddsRole(l3, k);
  }

  lemma PlaceAddsRole(acc: Layout, c: PlaneFabric)
    ensures Roles(Place(acc, c).plans) == Roles(acc.plans) + RoleIf(c)
  {
    if c.enabled {
      var ps := Place(acc, c).plans;
      assert ps[..|ps| - 1] == acc.plans;
    }
  }

  /** Converged mode: exactly one core fabric, plus the optional out-of-band one. */
  lemma ConvergedFabrics(net: NetworkConfig)
    requires net.deploymentMode == Converged
    ensures FabricPlans(net) == [CorePlan(net)] + (if net.enableIpmi then [IpmiPlan] else [])
    ensures var sw := Switches(net);
      sw.management == sw.business == sw.storage == sw.backup == FabricIds(CoreRole, net.coreRedundancy)
  {
  }

  /** Order of the roles along the switch row; the fabrics of one run have strictly increasing rank. */
  function Rank(r: SwitchRole): nat
  {
    match r
    case CoreRole => 0
    case MgmtRole => 1
    case BusRole => 2
    case StorRole => 3
    case BackupRole => 4
    case IpmiRole => 5
  }

  ghost predicate RanksBelow(ps: seq<FabricPlan>, bound: nat)
  {
    (forall i, j :: 0 <= i < j < |ps| ==> Rank(ps[i].role) < Rank(ps[j].role)) &&
    (forall i :: 0 <= i < |ps| ==> Rank(ps[i].role) < bound)
  }

  lemma {:induction false} PlaceKeepsRanks(acc: Layout, c: PlaneFabric, bound: nat)
    requires RanksBelow(acc.plans, Rank(c.role)) && Rank(c.role) < bound
    ensures RanksBelow(Place(acc, c).plans, bound)
  {
    if c.enabled {
      var ps := Place(acc, c).plans;
      assert forall i :: 0 <= i < |acc.plans| ==> ps[i] == acc.plans[i];
    }
  }

  lemma SeparatedRanksIncrease(net: NetworkConfig)
    ensures RanksBelow(SeparatedLayout(net).plans, 5)
  {
    var l0 := Layout([], 0);
    var l1 := Place(l0, ManagementFabric(net));
    var l2 := Place(l1, BusinessFabric(net));
    var l3 := Place(l2, StorageFabric(net));
    PlaceKeepsRanks(l0, ManagementFabric(net), 2);
    PlaceKeepsRanks(l1, BusinessFabric(net), 3);
    PlaceKeepsRanks(l2, StorageFabric(net), 4);
    PlaceKeepsRanks(l3, BackupFabric(net), 5);
  }

  /** No role gets two fabrics: the roles of the fabrics strictly increase in rank. */
  lemma FabricRanksIncrease(net: NetworkConfig)
    ensures RanksBelow(FabricPlans(net), 6)
  {
    var ps := PlaneFabrics(net);
    if net.deploymentMode != Converged {
      SeparatedRanksIncrease(net);
    }
    assert RanksBelow(ps, 5);
    var all := FabricPlans(net);
    assert forall i :: 0 <= i < |ps| ==> all[i] == ps[i];
  }

  // ---------------------------------------------------------------------------
  // The switch row
  // ---------------------------------------------------------------------------

  ghost predicate OnSwitchRow(ps: seq<FabricPlan>)
  {
    forall i :: 0 <= i < |ps| ==> ps[i].yPos == StartY
  }

  lemma {:induction false} PlaceKeepsRow(acc: Layout, c: PlaneFabric)
    requires OnSwitchRow(acc.plans)
    ensures OnSwitchRow(Place(acc, c).plans)
  {
    if c.enabled {
      var ps := Place(acc, c).plans;
      assert forall i :: 0 <= i < |acc.plans| ==> ps[i] == acc.plans[i];
    }
  }

  /** Every fabric is created at y = 60, so every switch box spans y 10 to 150. */
  lemma FabricsOnSwitchRow(net: NetworkConfig)
    ensures OnSwitchRow(FabricPlans(net))
    ensures forall i :: 0 <= i < |FabricPlans(net)| ==>
      FabricGroup(FabricPlans(net)[i]).y == 10 && FabricGroup(FabricPlans(net)[i]).height == 140
  {
    var ps := PlaneFabrics(net);
    if net.deploymentMode != Converged {
      var l0 := Layout([], 0);
      var l1 := Place(l0, ManagementFabric(net));
      var l2 := Place(l1, BusinessFabric(net));
      var l3 := Place(l2, StorageFabric(net));
      PlaceKeepsRow(l0, ManagementFabric(net));
      PlaceKeepsRow(l1, BusinessFabric(net));
      PlaceKeepsRow(l2, StorageFabric(net));
      PlaceKeepsRow(l3, BackupFabric(net));
    }
    assert OnSwitchRow(ps);
    var all := FabricPlans(net);
    assert forall i :: 0 <= i < |ps| ==> all[i] == ps[i];
  }
}
