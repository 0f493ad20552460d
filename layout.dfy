/**
 * The layout algebra of the newer builder. A layout is a tree whose
 * leaves stand for single gates and whose inner nodes (`Flow`) line their
 * children up in one of four directions. Sizes are computed bottom-up;
 * `apply` walks a cursor across each flow and writes a `GateLayout` onto
 * every gate.
 */
module Layout {
  import opened Wrappers
  import opened Seqs
  import opened Graph

  /** `INDIVIDUAL_GATE_RECT`: the width and height of every gate. */
  const GateRect: (nat, nat) := (200, 200)

  /** A width and a height. */
  type Extent = (nat, nat)

  datatype Layout =
    | Gate(gate: GateId, direction: string)
    | Flow(direction: string, children: seq<Layout>)

  /** Why `size` (and therefore `apply`) raises. */
  datatype LayoutError =
    | InvalidDirection(direction: string)
    | EmptyFlow

  /** The four direction tokens a flow accepts. */
  predicate IsDirection(d: string)
  {
    d == "ltr" || d == "rtl" || d == "ttb" || d == "btt"
  }

  /** The flows that line their children up along the x axis. */
  predicate Horizontal(d: string)
  {
    d == "ltr" || d == "rtl"
  }

  /** Python's `max` of a non-empty list. */
  function Max(xs: seq<nat>): (m: nat)
    requires xs != []
    ensures m in xs
    ensures forall i :: 0 <= i < |xs| ==> xs[i] <= m
  {
    if |xs| == 1 then xs[0]
    else
      var m := Max(xs[..|xs| - 1]);
      assert forall i :: 0 <= i < |xs| - 1 ==> xs[..|xs| - 1][i] == xs[i];
      if xs[|xs| - 1] <= m then m else xs[|xs| - 1]
  }

  /**
   * `Flow.size` once the children's sizes are known: the sum along the
   * flow's axis and the maximum across it. Any other direction raises;
   * with no children `max` raises.
   */
  function FlowExtent(d: string, ss: seq<Extent>): (r: Result<Extent, LayoutError>)
    ensures !IsDirection(d) ==> r == Err(InvalidDirection(d))
    ensures IsDirection(d) && ss == [] ==> r == Err(EmptyFlow)
  {
    if Horizontal(d) then
      if ss == [] then Err(EmptyFlow) else Ok((Sum(Firsts(ss)), Max(Seconds(ss))))
    else if d == "ttb" || d == "btt" then
      if ss == [] then Err(EmptyFlow) else Ok((Max(Firsts(ss)), Sum(Seconds(ss))))
    else Err(InvalidDirection(d))
  }

  /** `size()`: a gate is `GateRect`; a flow combines its children's sizes, raising on the first error met. */
  function Size(l: Layout): Result<Extent, LayoutError>
    decreases l, 1
  {
    match l
    case Gate(_, _) => Ok(GateRect)
    case Flow(d, cs) =>
      var sizes := ChildSizes(l, |cs|);
      if sizes.Err? then Err(sizes.error) else FlowExtent(d, sizes.value)
  }

  /** The sizes of the first `k` children, computed left to right; the first child that raises decides the error. */
  function ChildSizes(l: Layout, k: nat): (r: Result<seq<Extent>, LayoutError>)
    requires l.Flow? && k <= |l.children|
    ensures r.Ok? ==> |r.value| == k
    decreases l, 0, k
  {
    if k == 0 then Ok([])
    else
      var front := ChildSizes(l, k - 1);
      if front.Err? then Err(front.error)
      else
        var s := Size(l.children[k - 1]);
        if s.Err? then Err(s.error) else Ok(front.value + [s.value])
  }

  /** The children's sizes are known exactly when every child has one, and then they are those sizes in order. */
  lemma {:induction false} ChildSizesOk(l: Layout, k: nat)
    requires l.Flow? && k <= |l.children|
    ensures ChildSizes(l, k).Ok? <==> forall i :: 0 <= i < k ==> Size(l.children[i]).Ok?
    ensures ChildSizes(l, k).Ok? ==> forall i :: 0 <= i < k ==> Size(l.children[i]) == Ok(ChildSizes(l, k).value[i])
  {
    if k > 0 {
      ChildSizesOk(l, k - 1);
      var r := ChildSizes(l, k);
      if r.Ok? {
        var front := ChildSizes(l, k - 1).value;
        assert r.value == front + [Size(l.children[k - 1]).value];
        assert forall i :: 0 <= i < k - 1 ==> r.value[i] == front[i];
      }
    }
  }

  /** When a child raises, the flow's size raises with the error of the first child that does. */
  lemma {:induction false} ChildSizesFirstError(l: Layout, k: nat, i: nat)
    requires l.Flow? && k <= |l.children|
    requires i < k && Size(l.children[i]).Err? && forall j :: 0 <= j < i ==> Size(l.children[j]).Ok?
    ensures ChildSizes(l, k) == Err(Size(l.children[i]).error)
  {
    if k - 1 == i {
      ChildSizesOk(l, i);
    } else {
      ChildSizesFirstError(l, k - 1, i);
    }
  }

  /** Every gate a layout names exists in an arena of `n` objects. */
  predicate GatesBelow(l: Layout, n: nat)
  {
    match l
    case Gate(g, _) => g < n
    case Flow(_, cs) => forall i :: 0 <= i < |cs| ==> GatesBelow(cs[i], n)
  }

  /** Where the cursor starts: the leading edge of the flow's box. */
  function Start(d: string, center: (int, int), total: Extent): int
  {
    if d == "ltr" then center.0 - total.0 / 2
    else if d == "rtl" then center.0 + total.0 / 2
    else if d == "ttb" then center.1 - total.1 / 2
    else center.1 + total.1 / 2
  }

  /** The children's lengths along the flow's axis. */
  function Along(d: string, ss: seq<Extent>): seq<nat>
  {
    if Horizontal(d) then Firsts(ss) else Seconds(ss)
  }

  /** The cursor after `i` children: it has moved by their lengths, forwards for `ltr`/`ttb` and backwards for `rtl`/`btt`. */
  function Cursor(d: string, center: (int, int), total: Extent, ss: seq<Extent>, i: nat): int
    requires i <= |ss|
  {
    if d == "ltr" || d == "ttb" then Start(d, center, total) + Sum(Along(d, ss)[..i])
    else Start(d, center, total) - Sum(Along(d, ss)[..i])
  }

  /** A child of extent `e` met at cursor `cur`: centred half its length past the cursor, on the flow's centre line across the axis. */
  function CenterPast(d: string, cur: int, e: Extent, center: (int, int)): (int, int)
  {
    if d == "ltr" then (cur + e.0 / 2, center.1)
    else if d == "rtl" then (cur - e.0 / 2, center.1)
    else if d == "ttb" then (center.0, cur + e.1 / 2)
    else (center.0, cur - e.1 / 2)
  }

  /** The cursor moved past a child of extent `e`. */
  function Advance(d: string, cur: int, e: Extent): int
  {
    if d == "ltr" then cur + e.0
    else if d == "rtl" then cur - e.0
    else if d == "ttb" then cur + e.1
    else cur - e.1
  }

  /** The centre `apply` gives child `i`. */
  function ChildCenter(d: string, center: (int, int), total: Extent, ss: seq<Extent>, i: nat): (int, int)
    requires i < |ss|
  {
    CenterPast(d, Cursor(d, center, total, ss, i), ss[i], center)
  }

  /** The layouts `apply(center)` writes, in the order it writes them. */
  function Placements(l: Layout, center: (int, int)): seq<(GateId, GateLayout)>
    requires Size(l).Ok?
    decreases l, 1
  {
    match l
    case Gate(g, d) => [(g, GateLayout(center, d))]
    case Flow(d, cs) =>
      var ss := ChildSizes(l, |cs|).value;
      ChildSizesOk(l, |cs|);
      FlowPlacements(l, |cs|, center, Size(l).value, ss)
  }

  /** The layouts written for the first `k` children of a flow. */
  function FlowPlacements(l: Layout, k: nat, center: (int, int), total: Extent, ss: seq<Extent>): seq<(GateId, GateLayout)>
    requires l.Flow? && k <= |l.children| == |ss|
    requires forall i :: 0 <= i < |ss| ==> Size(l.children[i]) == Ok(ss[i])
    decreases l, 0, k
  {
    if k == 0 then []
    else FlowPlacements(l, k - 1, center, total, ss) + Placements(l.children[k - 1], ChildCenter(l.direction, center, total, ss, k - 1))
  }

  /** Every write goes to one of the first `n` gate objects. */
  predicate PlacedBelow(ps: seq<(GateId, GateLayout)>, n: nat)
  {
    forall i :: 0 <= i < |ps| ==> ps[i].0 < n
  }

  /** Setting each `gate.layout` in turn; a later write to the same gate wins. */
  function WriteLayouts(objs: seq<GateObj>, ps: seq<(GateId, GateLayout)>): (r: seq<GateObj>)
    requires PlacedBelow(ps, |objs|)
    ensures |r| == |objs|
  {
    if ps == [] then objs
    else WithLayout(WriteLayouts(objs, ps[..|ps| - 1]), ps[|ps| - 1].0, ps[|ps| - 1].1)
  }

  /** Writing two batches one after the other is writing their concatenation. */
  lemma {:induction false} WriteLayoutsAppend(objs: seq<GateObj>, a: seq<(GateId, GateLayout)>, b: seq<(GateId, GateLayout)>)
    requires PlacedBelow(a, |objs|) && PlacedBelow(b, |objs|)
    ensures PlacedBelow(a + b, |objs|)
    ensures WriteLayouts(objs, a + b) == WriteLayouts(WriteLayouts(objs, a), b)
    decreases |b|
  {
    if b == [] {
      assert a + b == a;
    } else {
      var n := |b| - 1;
      assert (a + b)[..|a + b| - 1] == a + b[..n];
      WriteLayoutsAppend(objs, a, b[..n]);
    }
  }

  /** A layout whose gates all exist only writes to existing gates. */
  lemma {:induction false} PlacementsBelow(l: Layout, center: (int, int), n: nat)
    requires Size(l).Ok? && GatesBelow(l, n)
    ensures PlacedBelow(Placements(l, center), n)
    decreases l, 1
  {
    if l.Flow? {
      ChildSizesOk(l, |l.children|);
      FlowPlacementsBelow(l, |l.children|, center, Size(l).value, ChildSizes(l, |l.children|).value, n);
    }
  }

  lemma {:induction false} FlowPlacementsBelow(l: Layout, k: nat, center: (int, int), total: Extent, ss: seq<Extent>, n: nat)
    requires l.Flow? && k <= |l.children| == |ss|
    requires forall i :: 0 <= i < |ss| ==> Size(l.children[i]) == Ok(ss[i])
    requires GatesBelow(l, n)
    ensures PlacedBelow(FlowPlacements(l, k, center, total, ss), n)
    decreases l, 0, k
  {
    if k > 0 {
      FlowPlacementsBelow(l, k - 1, center, total, ss, n);
      PlacementsBelow(l.children[k - 1], ChildCenter(l.direction, center, total, ss, k - 1), n);
    }
  }

  /** A flow has a size exactly when its direction is one of the four, it has children, and each child has a size. */
  lemma FlowSizeOk(d: string, cs: seq<Layout>)
    ensures Size(Flow(d, cs)).Ok? <==> IsDirection(d) && cs != [] && forall i :: 0 <= i < |cs| ==> Size(cs[i]).Ok?
  {
    ChildSizesOk(Flow(d, cs), |cs|);
  }

  /**
   * The box of a flow that has a size: along its axis it is as long as its
   * children together, and across it as wide as its widest child.
   */
  lemma FlowSizeValue(l: Layout)
    requires l.Flow? && Size(l).Ok?
    ensures IsDirection(l.direction) && l.children != []
    ensures ChildSizes(l, |l.children|).Ok?
    ensures var d, ss, total := l.direction, ChildSizes(l, |l.children|).value, Size(l).value;
      AlongCoord(d, total) == Sum(Along(d, ss)) &&
      (forall i :: 0 <= i < |ss| ==> CrossCoord(d, ss[i]) <= CrossCoord(d, total)) &&
      (exists i :: 0 <= i < |ss| && CrossCoord(d, ss[i]) == CrossCoord(d, total))
  {
    var d, cs := l.direction, l.children;
    FlowSizeOk(d, cs);
    var ss := ChildSizes(l, |cs|).value;
    assert Size(l) == FlowExtent(d, ss);
    var across := if Horizontal(d) then Seconds(ss) else Firsts(ss);
    var j :| 0 <= j < |across| && across[j] == Max(across);
    assert CrossCoord(d, ss[j]) == CrossCoord(d, Size(l).value);
  }

  lemma PlacementsOfFlow(l: Layout, center: (int, int))
    requires l.Flow? && Size(l).Ok?
    ensures ChildSizes(l, |l.children|).Ok?
    ensures var ss := ChildSizes(l, |l.children|).value;
      (forall i :: 0 <= i < |l.children| ==> Size(l.children[i]) == Ok(ss[i])) &&
      Placements(l, center) == FlowPlacements(l, |l.children|, center, Size(l).value, ss)
  {
    ChildSizesOk(l, |l.children|);
  }

  /** Moving past child `i` advances the cursor by that child's length along the axis. */
  lemma CursorStep(d: string, center: (int, int), total: Extent, ss: seq<Extent>, i: nat)
    requires i < |ss|
    ensures Cursor(d, center, total, ss, i + 1) == Advance(d, Cursor(d, center, total, ss, i), ss[i])
  {
    var along := Along(d, ss);
    assert along[..i + 1][..i] == along[..i];
  }

  /**
   * `apply(center)`. A gate gets `GateLayout(center, direction)`. A flow
   * first computes its size and raises, before writing anything, if that
   * fails; otherwise it walks its children as `ApplyFlow` describes.
   */
  method Apply(store: Store, l: Layout, center: (int, int)) returns (r: Outcome<LayoutError>)
    requires store.Valid()
    requires GatesBelow(l, |store.objs|)
    modifies store
    ensures store.Valid()
    ensures r.Pass? <==> Size(l).Ok?
    ensures r.Fail? ==> r.error == Size(l).error && store.objs == old(store.objs)
    ensures r.Pass? ==> PlacedBelow(Placements(l, center), |old(store.objs)|)
    ensures r.Pass? ==> store.objs == WriteLayouts(old(store.objs), Placements(l, center))
    ensures store.nextLeaf == old(store.nextLeaf)
    decreases l, 2
  {
    match l {
      case Gate(g, d) =>
        store.SetLayout(g, GateLayout(center, d));
        assert Placements(l, center)[..0] == [];
        return Pass;
      case Flow(d, cs) =>
        var size := Size(l);
        if size.Err? {
          return Fail(size.error);
        }
        ApplyFlow(store, l, center);
        r := Pass;
    }
  }

  /**
   * The cursor walk of `Flow.apply`: the cursor starts at the flow's
   * leading edge; each child is centred half its length past the cursor,
   * at the flow's centre across the axis, and the cursor then moves by
   * the child's length.
   */
  method ApplyFlow(store: Store, l: Layout, center: (int, int))
    requires store.Valid()
    requires l.Flow? && Size(l).Ok?
    requires GatesBelow(l, |store.objs|)
    modifies store
    ensures store.Valid()
    ensures PlacedBelow(Placements(l, center), |old(store.objs)|)
    ensures store.objs == WriteLayouts(old(store.objs), Placements(l, center))
    ensures store.nextLeaf == old(store.nextLeaf)
    decreases l, 1
  {
    var d, cs := l.direction, l.children;
    ghost var objs0 := store.objs;
    FlowStart(objs0, l, center);
    var ss := ChildSizes(l, |cs|).value;
    var total := Size(l).value;
    var cur := Start(d, center, total);
    for i := 0 to |cs|
      invariant store.Valid() && |store.objs| == |objs0| && store.nextLeaf == old(store.nextLeaf)
      invariant cur == Cursor(d, center, total, ss, i)
      invariant Walked(objs0, store.objs, l, i, center, total, ss)
    {
      cur := ApplyChild(store, l, i, cur, center, objs0, total, ss);
    }
    FlowDone(objs0, store.objs, l, |cs|, center, total, ss);
  }

  /**
   * One turn of the cursor loop: child `i` is centred half its length past
   * the cursor and laid out there, and the cursor moves past it.
   */
  method ApplyChild(store: Store, l: Layout, i: nat, cur: int, center: (int, int),
                    ghost objs0: seq<GateObj>, ghost total: Extent, ghost ss: seq<Extent>) returns (next: int)
    requires store.Valid()
    requires l.Flow? && i < |l.children| == |ss|
    requires forall j :: 0 <= j < |ss| ==> Size(l.children[j]) == Ok(ss[j])
    requires GatesBelow(l.children[i], |objs0|) && |store.objs| == |objs0|
    requires cur == Cursor(l.direction, center, total, ss, i)
    requires Walked(objs0, store.objs, l, i, center, total, ss)
    modifies store
    ensures store.Valid() && |store.objs| == |objs0| && store.nextLeaf == old(store.nextLeaf)
    ensures next == Cursor(l.direction, center, total, ss, i + 1)
    ensures Walked(objs0, store.objs, l, i + 1, center, total, ss)
    decreases l, 0
  {
    var d, child := l.direction, l.children[i];
    var extent := Size(child).value;
    assert extent == ss[i];
    var c := CenterPast(d, cur, extent, center);
    var _ := Apply(store, child, c);
    FlowStep(objs0, old(store.objs), store.objs, l, i, center, total, ss);
    CursorStep(d, center, total, ss, i);
    next := Advance(d, cur, extent);
  }

  /** Before the walk: every child has a size and names existing gates, and nothing has been written. */
  lemma FlowStart(objs0: seq<GateObj>, l: Layout, center: (int, int))
    requires l.Flow? && Size(l).Ok? && GatesBelow(l, |objs0|)
    ensures forall j :: 0 <= j < |l.children| ==> GatesBelow(l.children[j], |objs0|)
    ensures ChildSizes(l, |l.children|).Ok?
    ensures var ss := ChildSizes(l, |l.children|).value;
      (forall j :: 0 <= j < |ss| ==> Size(l.children[j]) == Ok(ss[j])) &&
      Walked(objs0, objs0, l, 0, center, Size(l).value, ss)
  {
    FlowSizeOk(l.direction, l.children);
    ChildSizesOk(l, |l.children|);
  }

  /** After the first `i` children, the arena `objs` holds `objs0` with their writes made, all to existing gates. */
  predicate Walked(objs0: seq<GateObj>, objs: seq<GateObj>, l: Layout, i: nat, center: (int, int), total: Extent, ss: seq<Extent>)
    requires l.Flow? && i <= |l.children| == |ss|
    requires forall j :: 0 <= j < |ss| ==> Size(l.children[j]) == Ok(ss[j])
  {
    PlacedBelow(FlowPlacements(l, i, center, total, ss), |objs0|) &&
    objs == WriteLayouts(objs0, FlowPlacements(l, i, center, total, ss))
  }

  /** One more step of the walk: child `i`'s writes follow those of the children before it. */
  lemma FlowStep(objs0: seq<GateObj>, objs: seq<GateObj>, objs': seq<GateObj>, l: Layout, i: nat, center: (int, int), total: Extent, ss: seq<Extent>)
    requires l.Flow? && i < |l.children| == |ss|
    requires forall j :: 0 <= j < |ss| ==> Size(l.children[j]) == Ok(ss[j])
    requires GatesBelow(l.children[i], |objs0|)
    requires Walked(objs0, objs, l, i, center, total, ss)
    requires PlacedBelow(Placements(l.children[i], ChildCenter(l.direction, center, total, ss, i)), |objs|)
    requires objs' == WriteLayouts(objs, Placements(l.children[i], ChildCenter(l.direction, center, total, ss, i)))
    ensures Walked(objs0, objs', l, i + 1, center, total, ss)
  {
    var c := ChildCenter(l.direction, center, total, ss, i);
    PlacementsBelow(l.children[i], c, |objs0|);
    WriteLayoutsAppend(objs0, FlowPlacements(l, i, center, total, ss), Placements(l.children[i], c));
  }

  /** Once every child has been walked, the flow has made exactly the writes of `apply`. */
  lemma FlowDone(objs0: seq<GateObj>, objs: seq<GateObj>, l: Layout, k: nat, center: (int, int), total: Extent, ss: seq<Extent>)
    requires l.Flow? && Size(l).Ok? && k == |l.children|
    requires total == Size(l).value && ChildSizes(l, k) == Ok(ss)
    requires forall j :: 0 <= j < |ss| ==> Size(l.children[j]) == Ok(ss[j])
    requires Walked(objs0, objs, l, k, center, total, ss)
    ensures PlacedBelow(Placements(l, center), |objs0|)
    ensures objs == WriteLayouts(objs0, Placements(l, center))
  {
    PlacementsOfFlow(l, center);
  }

  /** A sum of multiples of the gate width is one, and no smaller than any of its terms. */
  lemma {:induction false} SumOfMultiples(xs: seq<nat>)
    requires forall i :: 0 <= i < |xs| ==> xs[i] % 200 == 0
    ensures Sum(xs) % 200 == 0
    ensures forall i :: 0 <= i < |xs| ==> xs[i] <= Sum(xs)
    decreases |xs|
  {
    if xs != [] {
      var front, last := xs[..|xs| - 1], xs[|xs| - 1];
      assert forall i :: 0 <= i < |front| ==> front[i] == xs[i];
      SumOfMultiples(front);
      assert Sum(xs) == Sum(front) + last;
      forall i | 0 <= i < |xs| ensures xs[i] <= Sum(xs) {
        if i < |front| {
          assert xs[i] == front[i] <= Sum(front);
        }
      }
    }
  }

  /**
   * Every size is a whole number of gate rectangles in each direction, so
   * the halvings in `apply` are exact and every coordinate it writes is an
   * integer.
   */
  lemma {:induction false} SizeMultiple(l: Layout)
    requires Size(l).Ok?
    ensures Size(l).value.0 % 200 == 0 && Size(l).value.0 >= 200
    ensures Size(l).value.1 % 200 == 0 && Size(l).value.1 >= 200
    decreases l
  {
    if l.Flow? {
      var cs := l.children;
      ChildSizesOk(l, |cs|);
      FlowSizeOk(l.direction, cs);
      var ss := ChildSizes(l, |cs|).value;
      forall i | 0 <= i < |cs|
        ensures ss[i].0 % 200 == 0 && ss[i].0 >= 200 && ss[i].1 % 200 == 0 && ss[i].1 >= 200
      {
        SizeMultiple(cs[i]);
      }
      SumOfMultiples(Firsts(ss));
      SumOfMultiples(Seconds(ss));
    }
  }

  /** A whole number of gate rectangles halves exactly. */
  lemma {:induction false} HalfOfMultiple(x: nat)
    requires x % 200 == 0
    ensures x % 2 == 0
    decreases x
  {
    if x >= 200 {
      HalfOfMultiple(x - 200);
    }
  }

  /** Where the cursor ends: the trailing edge of the flow's box. */
  function End(d: string, center: (int, int), total: Extent): int
  {
    if d == "ltr" then center.0 + total.0 / 2
    else if d == "rtl" then center.0 - total.0 / 2
    else if d == "ttb" then center.1 + total.1 / 2
    else center.1 - total.1 / 2
  }

  /** The coordinate of `p` along a flow's axis. */
  function AlongCoord(d: string, p: (int, int)): int
  {
    if Horizontal(d) then p.0 else p.1
  }

  /** The coordinate of `p` across a flow's axis. */
  function CrossCoord(d: string, p: (int, int)): int
  {
    if Horizontal(d) then p.1 else p.0
  }

  /**
   * The cursor walk over children of even extents whose lengths add up to
   * the flow's length: it runs from the leading edge to the trailing edge,
   * and each child sits halfway between the cursor before it and the
   * cursor after it, on the flow's centre line across the axis.
   */
  lemma CursorWalk(d: string, center: (int, int), total: Extent, ss: seq<Extent>)
    requires AlongCoord(d, total) == Sum(Along(d, ss)) && AlongCoord(d, total) % 2 == 0
    requires forall i :: 0 <= i < |ss| ==> ss[i].0 % 2 == 0 && ss[i].1 % 2 == 0
    ensures Cursor(d, center, total, ss, 0) == Start(d, center, total)
    ensures Cursor(d, center, total, ss, |ss|) == End(d, center, total)
    ensures forall i :: 0 <= i < |ss| ==>
      2 * AlongCoord(d, ChildCenter(d, center, total, ss, i)) == Cursor(d, center, total, ss, i) + Cursor(d, center, total, ss, i + 1)
    ensures forall i :: 0 <= i < |ss| ==> CrossCoord(d, ChildCenter(d, center, total, ss, i)) == CrossCoord(d, center)
  {
    assert Along(d, ss)[..|ss|] == Along(d, ss);
    assert Along(d, ss)[..0] == [];
    forall i | 0 <= i < |ss|
      ensures 2 * AlongCoord(d, ChildCenter(d, center, total, ss, i)) == Cursor(d, center, total, ss, i) + Cursor(d, center, total, ss, i + 1)
    {
      CursorStep(d, center, total, ss, i);
    }
  }

  /** The two edges of a flow's box lie its length apart, symmetric about its centre. */
  lemma EdgesOfBox(d: string, center: (int, int), total: Extent)
    requires AlongCoord(d, total) % 2 == 0
    ensures Start(d, center, total) + End(d, center, total) == 2 * AlongCoord(d, center)
    ensures (if d == "ltr" || d == "ttb" then End(d, center, total) - Start(d, center, total)
             else Start(d, center, total) - End(d, center, total)) == AlongCoord(d, total)
  {
  }

  /** For a flow that has a size, the children tile its box as `CursorWalk` describes. */
  lemma FlowTiles(l: Layout, center: (int, int))
    requires l.Flow? && Size(l).Ok?
    ensures ChildSizes(l, |l.children|).Ok?
    ensures var d, ss, total := l.direction, ChildSizes(l, |l.children|).value, Size(l).value;
      |ss| == |l.children| &&
      Cursor(d, center, total, ss, 0) == Start(d, center, total) &&
      Cursor(d, center, total, ss, |ss|) == End(d, center, total) &&
      forall i :: 0 <= i < |ss| ==>
        2 * AlongCoord(d, ChildCenter(d, center, total, ss, i)) == Cursor(d, center, total, ss, i) + Cursor(d, center, total, ss, i + 1) &&
        CrossCoord(d, ChildCenter(d, center, total, ss, i)) == CrossCoord(d, center)
  {
    var d, cs := l.direction, l.children;
    var ss, total := ChildSizes(l, |cs|).value, Size(l).value;
    assert AlongCoord(d, total) == Sum(Along(d, ss)) && AlongCoord(d, total) % 2 == 0 by {
      SizeMultiple(l);
      assert Size(l) == FlowExtent(d, ss);
      HalfOfMultiple(total.0);
      HalfOfMultiple(total.1);
    }
    assert forall i :: 0 <= i < |ss| ==> ss[i].0 % 2 == 0 && ss[i].1 % 2 == 0 by {
      ChildSizesOk(l, |cs|);
      forall i | 0 <= i < |ss|
        ensures ss[i].0 % 2 == 0 && ss[i].1 % 2 == 0
      {
        SizeMultiple(cs[i]);
        assert Size(cs[i]) == Ok(ss[i]);
        HalfOfMultiple(ss[i].0);
        HalfOfMultiple(ss[i].1);
      }
    }
    CursorWalk(d, center, total, ss);
  }

  /** The gates a layout names, in the order `apply` visits them. */
  function GatesOf(l: Layout): seq<GateId>
    decreases l, 1
  {
    match l
    case Gate(g, _) => [g]
    case Flow(_, cs) => FlowGates(l, |cs|)
  }

  /** The gates the first `k` children of a flow name, one child after another. */
  function FlowGates(l: Layout, k: nat): seq<GateId>
    requires l.Flow? && k <= |l.children|
    decreases l, 0, k
  {
    if k == 0 then [] else FlowGates(l, k - 1) + GatesOf(l.children[k - 1])
  }

  /** `apply` writes to the layout's gates, once per occurrence, in visiting order. */
  lemma {:induction false} PlacementsTargets(l: Layout, center: (int, int))
    requires Size(l).Ok?
    ensures Firsts(Placements(l, center)) == GatesOf(l)
    decreases l, 1
  {
    if l.Flow? {
      PlacementsOfFlow(l, center);
      FlowPlacementsTargets(l, |l.children|, center, Size(l).value, ChildSizes(l, |l.children|).value);
    }
  }

  lemma {:induction false} FlowPlacementsTargets(l: Layout, k: nat, center: (int, int), total: Extent, ss: seq<Extent>)
    requires l.Flow? && k <= |l.children| == |ss|
    requires forall i :: 0 <= i < |ss| ==> Size(l.children[i]) == Ok(ss[i])
    ensures Firsts(FlowPlacements(l, k, center, total, ss)) == FlowGates(l, k)
    decreases l, 0, k
  {
    if k > 0 {
      var c := l.children[k - 1];
      var front := FlowPlacements(l, k - 1, center, total, ss);
      var last := Placements(c, ChildCenter(l.direction, center, total, ss, k - 1));
      FlowPlacementsTargets(l, k - 1, center, total, ss);
      PlacementsTargets(c, ChildCenter(l.direction, center, total, ss, k - 1));
      assert Firsts(front + last) == Firsts(front) + Firsts(last);
    }
  }

  /** The layout the last write to `g` carries, if any write goes to `g`. */
  function LastWrite(ps: seq<(GateId, GateLayout)>, g: GateId): (r: Option<GateLayout>)
    ensures r.None? <==> forall i :: 0 <= i < |ps| ==> ps[i].0 != g
    ensures r.Some? ==> exists i :: 0 <= i < |ps| && ps[i] == (g, r.value) && forall j :: i < j < |ps| ==> ps[j].0 != g
  {
    if ps == [] then None
    else if ps[|ps| - 1].0 == g then Some(ps[|ps| - 1].1)
    else
      var front := ps[..|ps| - 1];
      var r := LastWrite(front, g);
      assert forall i :: 0 <= i < |front| ==> front[i] == ps[i];
      if r.Some? then
        var i :| 0 <= i < |front| && front[i] == (g, r.value) && forall j :: i < j < |front| ==> front[j].0 != g;
        assert ps[i] == (g, r.value) && forall j :: i < j < |ps| ==> ps[j].0 != g;
        r
      else r
  }

  /** After a batch of writes, a gate holds the last layout written to it, and a gate nobody wrote to is as it was. */
  lemma {:induction false} WriteLayoutsAt(objs: seq<GateObj>, ps: seq<(GateId, GateLayout)>, g: GateId)
    requires PlacedBelow(ps, |objs|) && g < |objs|
    ensures LastWrite(ps, g).None? ==> WriteLayouts(objs, ps)[g] == objs[g]
    ensures LastWrite(ps, g).Some? ==> WriteLayouts(objs, ps)[g] == objs[g].(layout := LastWrite(ps, g))
    decreases |ps|
  {
    if ps != [] {
      var front := ps[..|ps| - 1];
      assert PlacedBelow(front, |objs|);
      WriteLayoutsAt(objs, front, g);
    }
  }

  /**
   * `apply` lays out exactly the gates the layout names: each of them ends
   * with a layout and is otherwise unchanged, and every other gate is left
   * as it was.
   */
  lemma ApplyTouchesItsGates(objs: seq<GateObj>, l: Layout, center: (int, int), g: GateId)
    requires Size(l).Ok? && GatesBelow(l, |objs|) && g < |objs|
    ensures PlacedBelow(Placements(l, center), |objs|)
    ensures g !in GatesOf(l) ==> WriteLayouts(objs, Placements(l, center))[g] == objs[g]
    ensures g in GatesOf(l) ==> WriteLayouts(objs, Placements(l, center))[g].layout.Some?
    ensures WriteLayouts(objs, Placements(l, center))[g] == objs[g].(layout := WriteLayouts(objs, Placements(l, center))[g].layout)
  {
    PlacementsBelow(l, center, |objs|);
    PlacementsTargets(l, center);
    var ps := Placements(l, center);
    WriteLayoutsAt(objs, ps, g);
    if g in GatesOf(l) {
      var i :| 0 <= i < |ps| && Firsts(ps)[i] == g;
      assert ps[i].0 == g;
    }
  }

  /** `ltr_flow`, `rtl_flow`, `ttb_flow`, `btt_flow`: a flow in a fixed direction. */
  function LtrFlow(children: seq<Layout>): Layout { Flow("ltr", children) }
  function RtlFlow(children: seq<Layout>): Layout { Flow("rtl", children) }
  function TtbFlow(children: seq<Layout>): Layout { Flow("ttb", children) }
  function BttFlow(children: seq<Layout>): Layout { Flow("btt", children) }

  /** `ltr_gate`, `rtl_gate`, `ttb_gate`, `btt_gate`: a single gate facing a fixed direction. */
  function LtrGate(g: GateId): Layout { Gate(g, "ltr") }
  function RtlGate(g: GateId): Layout { Gate(g, "rtl") }
  function TtbGate(g: GateId): Layout { Gate(g, "ttb") }
  function BttGate(g: GateId): Layout { Gate(g, "btt") }

  /** The four named flows never raise for their direction: they have a size exactly when they have children and every child has a size. */
  lemma NamedFlowSizes(cs: seq<Layout>)
    ensures Size(LtrFlow(cs)).Ok? <==> cs != [] && forall i :: 0 <= i < |cs| ==> Size(cs[i]).Ok?
    ensures Size(RtlFlow(cs)).Ok? <==> cs != [] && forall i :: 0 <= i < |cs| ==> Size(cs[i]).Ok?
    ensures Size(TtbFlow(cs)).Ok? <==> cs != [] && forall i :: 0 <= i < |cs| ==> Size(cs[i]).Ok?
    ensures Size(BttFlow(cs)).Ok? <==> cs != [] && forall i :: 0 <= i < |cs| ==> Size(cs[i]).Ok?
  {
    FlowSizeOk("ltr", cs);
    FlowSizeOk("rtl", cs);
    FlowSizeOk("ttb", cs);
    FlowSizeOk("btt", cs);
  }

  /** A named gate occupies one gate rectangle and `apply` writes its direction at the centre it is given. */
  lemma NamedGatePlacements(g: GateId, center: (int, int))
    ensures Size(LtrGate(g)) == Ok(GateRect) && Placements(LtrGate(g), center) == [(g, GateLayout(center, "ltr"))]
    ensures Size(RtlGate(g)) == Ok(GateRect) && Placements(RtlGate(g), center) == [(g, GateLayout(center, "rtl"))]
    ensures Size(TtbGate(g)) == Ok(GateRect) && Placements(TtbGate(g), center) == [(g, GateLayout(center, "ttb"))]
    ensures Size(BttGate(g)) == Ok(GateRect) && Placements(BttGate(g), center) == [(g, GateLayout(center, "btt"))]
  {
  }

  /** `s[::-1]`: a string read backwards. */
  function Reverse(s: string): (r: string)
    ensures |r| == |s| && forall i :: 0 <= i < |s| ==> r[i] == s[|s| - 1 - i]
  {
    seq(|s|, i requires 0 <= i < |s| => s[|s| - 1 - i])
  }

  /** Reversing twice gives the string back. */
  lemma ReverseInvolution(d: string)
    ensures Reverse(Reverse(d)) == d
  {
    assert forall i :: 0 <= i < |d| ==> Reverse(Reverse(d))[i] == d[i];
  }

  /** Reversing swaps `ltr` with `rtl` and `ttb` with `btt`, so it maps the four directions onto themselves and keeps the axis. */
  lemma ReverseDirections(d: string)
    ensures Reverse("ltr") == "rtl" && Reverse("rtl") == "ltr"
    ensures Reverse("ttb") == "btt" && Reverse("btt") == "ttb"
    ensures IsDirection(d) <==> IsDirection(Reverse(d))
    ensures Horizontal(d) <==> Horizontal(Reverse(d))
  {
    assert Reverse("ltr") == "rtl" && Reverse("rtl") == "ltr";
    assert Reverse("ttb") == "btt" && Reverse("btt") == "ttb";
    ReverseInvolution(d);
  }

  /** Why `snake` raises: `range` refuses a zero step. */
  datatype SnakeError = ZeroRowLength

  /** `[things[n:n + row_len] for n in range(0, len(things), row_len)]` for a positive `row_len`. */
  function Chunks<T>(things: seq<T>, rowLen: nat): seq<seq<T>>
    requires rowLen > 0
    decreases |things|
  {
    if things == [] then []
    else if |things| <= rowLen then [things]
    else [things[..rowLen]] + Chunks(things[rowLen..], rowLen)
  }

  /** Reading the chunks one after the other gives back the things, in order. */
  lemma {:induction false} ChunksConcat<T>(things: seq<T>, rowLen: nat)
    requires rowLen > 0
    ensures Concat(Chunks(things, rowLen)) == things
    decreases |things|
  {
    if things != [] && |things| > rowLen {
      var rest := Chunks(things[rowLen..], rowLen);
      ChunksConcat(things[rowLen..], rowLen);
      ConcatPrepend(things[..rowLen], rest);
      assert things == things[..rowLen] + things[rowLen..];
    } else if things != [] {
      assert Concat([things]) == Concat([things][..0]) + things;
    }
  }

  /** Concatenation of a list with one more part in front. */
  lemma ConcatPrepend<T>(x: seq<T>, xss: seq<seq<T>>)
    ensures Concat([x] + xss) == x + Concat(xss)
  {
    ConcatAppend([x], xss);
    assert Concat([x]) == Concat([x][..0]) + x;
  }

  /** Every chunk is non-empty and at most a row long, and every chunk but the last is exactly a row long. */
  lemma {:induction false} ChunksShape<T>(things: seq<T>, rowLen: nat)
    requires rowLen > 0
    ensures forall k :: 0 <= k < |Chunks(things, rowLen)| ==> 0 < |Chunks(things, rowLen)[k]| <= rowLen
    ensures forall k :: 0 <= k < |Chunks(things, rowLen)| - 1 ==> |Chunks(things, rowLen)[k]| == rowLen
    decreases |things|
  {
    if things != [] && |things| > rowLen {
      ChunksShape(things[rowLen..], rowLen);
      var cs := Chunks(things, rowLen);
      assert forall k :: 1 <= k < |cs| ==> cs[k] == Chunks(things[rowLen..], rowLen)[k - 1];
    }
  }

  /** The direction of row `k`: the first direction, reversed on every other row. */
  function RowDirection(first: string, k: nat): string
  {
    if k % 2 == 0 then first else Reverse(first)
  }

  /** A row of the snake, `Flow(cur_direction, *map(lambda chunk: chunk(cur_direction), chunk))`: each thing asked for its layout in the row's direction. */
  function Row(d: string, chunk: seq<string -> Layout>): (r: Layout)
    ensures r.Flow? && r.direction == d && |r.children| == |chunk|
    ensures forall j :: 0 <= j < |chunk| ==> r.children[j] == chunk[j](d)
  {
    Flow(d, seq(|chunk|, j requires 0 <= j < |chunk| => chunk[j](d)))
  }

  /** The rows `snake` builds from its chunks. */
  function SnakeRows(first: string, chunks: seq<seq<string -> Layout>>): (rows: seq<Layout>)
    ensures |rows| == |chunks|
    ensures forall k :: 0 <= k < |chunks| ==> rows[k] == Row(RowDirection(first, k), chunks[k])
  {
    seq(|chunks|, k requires 0 <= k < |chunks| => Row(RowDirection(first, k), chunks[k]))
  }

  /** Turning the direction over moves it on to the next row's. */
  lemma RowDirectionStep(first: string, k: nat)
    ensures RowDirection(first, k + 1) == Reverse(RowDirection(first, k))
  {
    if k % 2 == 1 {
      assert (k + 1) % 2 == 0;
      ReverseInvolution(first);
    } else {
      assert (k + 1) % 2 == 1;
    }
  }

  /**
   * `snake(first_direction, second_direction, row_len, *things)`: the
   * things cut into rows of `row_len`, the rows alternating between the
   * first direction and its reverse, stacked in a flow of the second
   * direction. A zero row length raises; a negative one gives no rows.
   */
  method Snake(first: string, second: string, rowLen: int, things: seq<string -> Layout>) returns (r: Result<Layout, SnakeError>)
    ensures r.Err? <==> rowLen == 0
    ensures rowLen < 0 ==> r == Ok(Flow(second, []))
    ensures rowLen > 0 ==> r == Ok(Flow(second, SnakeRows(first, Chunks(things, rowLen))))
  {
    if rowLen == 0 {
      return Err(ZeroRowLength);
    }
    var chunked := if rowLen > 0 then Chunks(things, rowLen) else [];
    var cur := first;
    var rows := [];
    for k := 0 to |chunked|
      invariant cur == RowDirection(first, k)
      invariant RowsBuilt(first, chunked, rows, k)
    {
      RowsStep(first, chunked, rows, k);
      rows := rows + [Row(cur, chunked[k])];
      RowDirectionStep(first, k);
      cur := Reverse(cur);
    }
    RowsDone(first, chunked, rows);
    return Ok(Flow(second, rows));
  }

  /** The first `k` rows of the snake have been built. */
  predicate RowsBuilt(first: string, chunks: seq<seq<string -> Layout>>, rows: seq<Layout>, k: nat)
    requires k <= |chunks|
  {
    |rows| == k && forall m :: 0 <= m < k ==> rows[m] == Row(RowDirection(first, m), chunks[m])
  }

  lemma RowsStep(first: string, chunks: seq<seq<string -> Layout>>, rows: seq<Layout>, k: nat)
    requires k < |chunks| && RowsBuilt(first, chunks, rows, k)
    ensures RowsBuilt(first, chunks, rows + [Row(RowDirection(first, k), chunks[k])], k + 1)
  {
  }

  lemma RowsDone(first: string, chunks: seq<seq<string -> Layout>>, rows: seq<Layout>)
    requires RowsBuilt(first, chunks, rows, |chunks|)
    ensures rows == SnakeRows(first, chunks)
  {
  }

  /**
   * The rows of a snake alternate: the first row runs in the first
   * direction, each later row in the reverse of the row before, and row
   * `k` holds the things of chunk `k` asked for that direction.
   */
  lemma SnakeAlternates(first: string, chunks: seq<seq<string -> Layout>>)
    ensures forall k :: 0 <= k < |chunks| ==> SnakeRows(first, chunks)[k].Flow?
    ensures |chunks| > 0 ==> SnakeRows(first, chunks)[0].direction == first
    ensures forall k :: 0 <= k < |chunks| - 1 ==>
      SnakeRows(first, chunks)[k + 1].direction == Reverse(SnakeRows(first, chunks)[k].direction)
    ensures forall k :: 0 <= k < |chunks| ==> |SnakeRows(first, chunks)[k].children| == |chunks[k]|
    ensures forall k, j :: 0 <= k < |chunks| && 0 <= j < |chunks[k]| ==>
      SnakeRows(first, chunks)[k].children[j] == chunks[k][j](SnakeRows(first, chunks)[k].direction)
  {
    var rows := SnakeRows(first, chunks);
    forall k | 0 <= k < |chunks| - 1
      ensures rows[k + 1].direction == Reverse(rows[k].direction)
    {
      RowDirectionStep(first, k);
    }
  }
}
