/**
 * The layout helper of the older builder: a left-to-right chain of gates,
 * each one gate rectangle wide, written onto the gates' `layout` fields.
 */
module LegacyLayout {
  import opened Graph
  import Layout

  /** `INDIVIDUAL_GATE_RECT` of the older builder. */
  const GateRect: (nat, nat) := (100, 100)

  /** `LTRChain(*gates)`. */
  datatype LtrChain = LtrChain(gates: seq<GateId>)

  /** `size()`: one gate rectangle per gate across, one high. */
  function ChainSize(c: LtrChain): (nat, nat)
  {
    (GateRect.0 * |c.gates|, GateRect.1)
  }

  /** The x coordinate `apply` gives gate `i`: the left edge of its cell, counting cells from the chain's left edge. */
  function CellX(c: LtrChain, center: (int, int), i: nat): int
  {
    center.0 - ChainSize(c).0 / 2 + GateRect.0 * i
  }

  /** The layouts `apply(center)` writes, in order: gate `i` at its cell's left edge on the centre row, facing `ltr`. */
  function ChainPlacements(c: LtrChain, center: (int, int)): (ps: seq<(GateId, GateLayout)>)
    ensures |ps| == |c.gates|
    ensures forall i :: 0 <= i < |ps| ==> ps[i].0 == c.gates[i]
  {
    seq(|c.gates|, i requires 0 <= i < |c.gates| => (c.gates[i], GateLayout((CellX(c, center, i), center.1), "ltr")))
  }

  /**
   * The positions step one gate width at a time along the centre row, from
   * the left edge of the chain's box to one gate width short of its right
   * edge, and all face left to right.
   */
  lemma ChainSteps(c: LtrChain, center: (int, int))
    ensures var ps := ChainPlacements(c, center);
      (forall i :: 0 <= i < |ps| ==> ps[i].1.position.1 == center.1 && ps[i].1.direction == "ltr") &&
      (|ps| > 0 ==> ps[0].1.position.0 == center.0 - 50 * |c.gates|) &&
      (|ps| > 0 ==> ps[|ps| - 1].1.position.0 + GateRect.0 == center.0 + 50 * |c.gates|) &&
      (forall i :: 0 <= i < |ps| - 1 ==> ps[i + 1].1.position.0 == ps[i].1.position.0 + GateRect.0)
  {
    var n := |c.gates|;
    assert ChainSize(c).0 / 2 == 50 * n;
  }

  /**
   * `LTRChain.apply(center)`: the cursor starts at the chain's left edge;
   * each gate gets the cursor's position on the centre row, facing `ltr`,
   * and the cursor moves one gate width right.
   */
  method Apply(store: Store, c: LtrChain, center: (int, int))
    requires store.Valid()
    requires forall i :: 0 <= i < |c.gates| ==> c.gates[i] < |store.objs|
    modifies store
    ensures store.Valid()
    ensures Layout.PlacedBelow(ChainPlacements(c, center), |old(store.objs)|)
    ensures store.objs == Layout.WriteLayouts(old(store.objs), ChainPlacements(c, center))
    ensures store.nextLeaf == old(store.nextLeaf)
  {
    var ps := ChainPlacements(c, center);
    var size := ChainSize(c);
    var curX := center.0 - size.0 / 2;
    for i := 0 to |c.gates|
      invariant store.Valid() && |store.objs| == |old(store.objs)| && store.nextLeaf == old(store.nextLeaf)
      invariant curX == CellX(c, center, i)
      invariant Layout.PlacedBelow(ps[..i], |old(store.objs)|)
      invariant store.objs == Layout.WriteLayouts(old(store.objs), ps[..i])
    {
      store.SetLayout(c.gates[i], GateLayout((curX, center.1), "ltr"));
      assert ps[..i + 1][..i] == ps[..i];
      curX := curX + GateRect.0;
    }
    assert ps[..|c.gates|] == ps;
  }

  /** An empty chain is zero wide and its `apply` writes nothing. */
  lemma EmptyChain(center: (int, int))
    ensures ChainSize(LtrChain([])) == (0, 100)
    ensures ChainPlacements(LtrChain([]), center) == []
  {
  }
}
