/**
 * The object graph both circuit builders create: gate objects, each with
 * an input and an output bundle, an optional layout, and (for circuits)
 * an ordered list of child gates. Python's heap is modelled as an arena:
 * a gate object's identity is its index in `Store.objs`, and the store
 * also owns the counter that hands out fresh `bundle.Bit` leaves.
 */
module Graph {
  import opened Wrappers
  import opened Names
  import opened Seqs
  import opened Types
  import opened Bundles

  /** The identity of one gate object: its index in the arena. */
  type GateId = nat

  /**
   * Which class a gate object is an instance of. Circuits of the newer
   * builder carry a name; circuits of the older builder have none.
   */
  datatype Kind =
    | Circuit(name: Option<string>)
    | NandGate
    | FalseGate
    | TrueGate
    | UnerrorGate
    | Button
    | TristateBuffer

  /** `GateLayout(position, direction)`: where a gate is drawn and which way it faces. */
  datatype GateLayout = GateLayout(position: (int, int), direction: string)

  /**
   * One gate object. `layout` is `None` while the object has no `layout`
   * attribute; `gates` is the child list of a circuit and empty otherwise.
   */
  datatype GateObj = GateObj(kind: Kind, inputs: Bundle, outputs: Bundle, layout: Option<GateLayout>, gates: seq<GateId>)

  /** One entry `(a, b)` of a context's connection list. */
  datatype Connection = Connection(start: Bundle, end: Bundle)

  /** Every child of a gate exists and was created after its parent, so the child relation has no cycle. */
  predicate ChildrenAfter(objs: seq<GateObj>)
  {
    forall g, k :: 0 <= g < |objs| && 0 <= k < |objs[g].gates| ==> g < objs[g].gates[k] < |objs|
  }

  /** Only circuits have children. */
  predicate OnlyCircuitsHaveGates(objs: seq<GateObj>)
  {
    forall g :: 0 <= g < |objs| && !objs[g].kind.Circuit? ==> objs[g].gates == []
  }

  /** Every leaf of `b` has been handed out by a counter that now stands at `bound`. */
  predicate LeavesBelow(b: Bundle, bound: LeafId)
  {
    forall x :: x in Leaves(b) ==> x < bound
  }

  /** A gate object's bundles are canonical and hold only leaves handed out below `bound`. */
  predicate Sound(o: GateObj, bound: LeafId)
  {
    LeavesBelow(o.inputs, bound) && LeavesBelow(o.outputs, bound) && CanonicalBundle(o.inputs) && CanonicalBundle(o.outputs)
  }

  /** `objs[parent].gates.append(g)`. */
  function WithChild(objs: seq<GateObj>, parent: GateId, g: GateId): (r: seq<GateObj>)
    requires parent < |objs|
    ensures |r| == |objs|
    ensures r[parent].gates == objs[parent].gates + [g]
    ensures r[parent] == objs[parent].(gates := r[parent].gates)
    ensures forall i :: 0 <= i < |objs| && i != parent ==> r[i] == objs[i]
  {
    objs[parent := objs[parent].(gates := objs[parent].gates + [g])]
  }

  /** `objs[g].layout = l`. */
  function WithLayout(objs: seq<GateObj>, g: GateId, l: GateLayout): (r: seq<GateObj>)
    requires g < |objs|
    ensures |r| == |objs|
    ensures r[g].layout == Some(l)
    ensures r[g] == objs[g].(layout := r[g].layout)
    ensures forall i :: 0 <= i < |objs| && i != g ==> r[i] == objs[i]
  {
    objs[g := objs[g].(layout := Some(l))]
  }

  /** The arena after a primitive of kind `k` is constructed (leaf counter at `n`) and appended to `parent`. */
  function WithPrimitive(objs: seq<GateObj>, parent: GateId, k: Kind, n: LeafId, layout: Option<GateLayout>): (r: seq<GateObj>)
    requires parent < |objs| && !k.Circuit?
    ensures |r| == |objs| + 1
  {
    WithChild(objs + [GateObj(k, PrimitiveInputs(k, n), PrimitiveOutputs(k, n), layout, [])], parent, |objs|)
  }

  /** Appending a newer child to a circuit keeps the child relation acyclic and the circuit-only children rule. */
  lemma WithChildKeepsShape(objs: seq<GateObj>, parent: GateId, g: GateId)
    requires ChildrenAfter(objs) && OnlyCircuitsHaveGates(objs)
    requires parent < g < |objs| && objs[parent].kind.Circuit?
    ensures ChildrenAfter(WithChild(objs, parent, g)) && OnlyCircuitsHaveGates(WithChild(objs, parent, g))
  {
    var r := WithChild(objs, parent, g);
    forall i, k | 0 <= i < |r| && 0 <= k < |r[i].gates| ensures i < r[i].gates[k] < |r| {
      if i == parent && k == |objs[parent].gates| {
        assert r[i].gates[k] == g;
      } else {
        assert r[i].gates[k] == objs[i].gates[k];
      }
    }
  }

  /** The declared input type of each primitive gate class. */
  function InputType(k: Kind): Ty
    requires !k.Circuit?
  {
    match k
    case NandGate => Ty.ListProduct([Ty.Bit, Ty.Bit])
    case FalseGate => Ty.ListProduct([])
    case TrueGate => Ty.ListProduct([])
    case UnerrorGate => Ty.Bit
    case Button => Ty.ListProduct([])
    case TristateBuffer => Ty.DictProduct(["data", "enable"], [Ty.Bit, Ty.Bit])
  }

  /** Every primitive gate has a single output bit. */
  function OutputType(k: Kind): Ty
    requires !k.Circuit?
  {
    Ty.Bit
  }

  /** The input bundle a primitive's constructor builds when the leaf counter stands at `n`. */
  function PrimitiveInputs(k: Kind, n: LeafId): Bundle
    requires !k.Circuit?
  {
    match k
    case NandGate => Bundle.ListProduct([Bundle.Bit(n), Bundle.Bit(n + 1)])
    case FalseGate => Bundle.ListProduct([])
    case TrueGate => Bundle.ListProduct([])
    case UnerrorGate => Bundle.Bit(n)
    case Button => Bundle.ListProduct([])
    case TristateBuffer => Bundle.DictProduct(["data", "enable"], [Bundle.Bit(n), Bundle.Bit(n + 1)])
  }

  /** The output bit a primitive's constructor builds, right after its inputs. */
  function PrimitiveOutputs(k: Kind, n: LeafId): Bundle
    requires !k.Circuit?
  {
    Bundle.Bit(n + Size(InputType(k)))
  }

  /** The tristate buffer's input type is `DictProduct(data=Bit, enable=Bit)`, in canonical form since `data` sorts before `enable`. */
  lemma TristateType()
    ensures InputType(TristateBuffer) == Dict(map["data" := Ty.Bit, "enable" := Ty.Bit])
  {
    var m := map["data" := Ty.Bit, "enable" := Ty.Bit];
    assert m.Keys == {"data", "enable"};
    assert Below("data", "enable");
    SortedPair("data", "enable");
    var ks := SortedKeys(m.Keys);
    assert ks == ["data", "enable"];
    assert Values(m, ks) == [Ty.Bit, Ty.Bit];
  }

  lemma NandInputsMade(n: LeafId)
    ensures PrimitiveInputs(NandGate, n) == MakeBundle(InputType(NandGate), n)
  {
    MakeTwoBits(InputType(NandGate), n);
  }

  lemma TristateInputsMade(n: LeafId)
    ensures PrimitiveInputs(TristateBuffer, n) == MakeBundle(InputType(TristateBuffer), n)
  {
    MakeTwoBits(InputType(TristateBuffer), n);
  }

  /** A primitive's constructor builds the same inputs as `make_bundle` of its declared input type. */
  lemma PrimitiveInputsMade(k: Kind, n: LeafId)
    requires !k.Circuit?
    ensures PrimitiveInputs(k, n) == MakeBundle(InputType(k), n)
  {
    match k
    case NandGate => NandInputsMade(n);
    case TristateBuffer => TristateInputsMade(n);
    case UnerrorGate =>
    case FalseGate =>
    case TrueGate =>
    case Button =>
  }

  /**
   * Primitive gate shapes: the bundles a constructor builds have the
   * declared types, and their leaves are the next fresh identities, inputs
   * first and then the output.
   */
  lemma PrimitiveShapes(k: Kind, n: LeafId)
    requires !k.Circuit?
    ensures TypeOf(PrimitiveInputs(k, n)) == InputType(k)
    ensures TypeOf(PrimitiveOutputs(k, n)) == OutputType(k)
    ensures Leaves(PrimitiveInputs(k, n)) + Leaves(PrimitiveOutputs(k, n)) == Range(n, Size(InputType(k)) + 1)
  {
    PrimitiveInputsMade(k, n);
    MadeShapes(InputType(k), n, PrimitiveInputs(k, n), PrimitiveOutputs(k, n));
  }

  /** Inputs made from `t` and one fresh output bit after them take the next `Size(t) + 1` identities. */
  lemma MadeShapes(t: Ty, n: LeafId, ins: Bundle, outs: Bundle)
    requires ins == MakeBundle(t, n) && outs == Bundle.Bit(n + Size(t))
    ensures TypeOf(ins) == t && TypeOf(outs) == Ty.Bit
    ensures Leaves(ins) + Leaves(outs) == Range(n, Size(t) + 1)
  {
    TypeOfMakeBundle(t, n);
    LeavesOfMakeBundle(t, n);
    assert Leaves(outs) == Range(n + Size(t), 1);
    RangesJoin(n, Size(t), 1);
  }

  /** A primitive's constructor only uses identities below where it leaves the counter. */
  lemma PrimitiveLeavesBelow(k: Kind, n: LeafId)
    requires !k.Circuit?
    ensures LeavesBelow(PrimitiveInputs(k, n), n + Size(InputType(k)) + 1)
    ensures LeavesBelow(PrimitiveOutputs(k, n), n + Size(InputType(k)) + 1)
  {
    var ins, outs := PrimitiveInputs(k, n), PrimitiveOutputs(k, n);
    PrimitiveShapes(k, n);
    RangeMembers(n, Size(InputType(k)) + 1);
    var r := Leaves(ins) + Leaves(outs);
    assert forall x :: x in Leaves(ins) || x in Leaves(outs) ==> x in r;
  }

  /** How many bits each primitive gate class takes as input. */
  lemma InputBits(k: Kind)
    requires !k.Circuit?
    ensures Size(InputType(k)) == if k.NandGate? || k.TristateBuffer? then 2 else if k.UnerrorGate? then 1 else 0
  {
    match k
    case NandGate => SizeOfTwoBits(InputType(k));
    case TristateBuffer => SizeOfTwoBits(InputType(k));
    case UnerrorGate =>
    case FalseGate => SizeOfProduct(InputType(k));
    case TrueGate => SizeOfProduct(InputType(k));
    case Button => SizeOfProduct(InputType(k));
  }

  /** The primitive gate classes declare canonical types, and their constructors build canonical bundles. */
  lemma PrimitiveCanonical(k: Kind, n: LeafId)
    requires !k.Circuit?
    ensures Canonical(InputType(k)) && Canonical(OutputType(k))
    ensures CanonicalBundle(PrimitiveInputs(k, n)) && CanonicalBundle(PrimitiveOutputs(k, n))
  {
    assert Below("data", "enable");
  }

  /** The main circuit's interface must be the empty list product on both sides. */
  predicate EmptyInterface(o: GateObj)
  {
    TypeOf(o.inputs) == Ty.ListProduct([]) && TypeOf(o.outputs) == Ty.ListProduct([])
  }

  /** No primitive gate can be the main circuit: its output is a bit, not an empty product. */
  lemma PrimitiveIsNotMain(k: Kind, n: LeafId, layout: Option<GateLayout>)
    requires !k.Circuit?
    ensures !EmptyInterface(GateObj(k, PrimitiveInputs(k, n), PrimitiveOutputs(k, n), layout, []))
  {
    PrimitiveShapes(k, n);
  }

  class Store {
    /** The gate objects allocated so far, by identity. */
    var objs: seq<GateObj>
    /** The identity the next `bundle.Bit()` will receive. */
    var nextLeaf: LeafId

    /**
     * The arena's invariant: an acyclic child relation, children only under
     * circuits, no leaf from the future, and every bundle in canonical form.
     */
    ghost predicate Valid()
      reads this
    {
      && ChildrenAfter(objs)
      && OnlyCircuitsHaveGates(objs)
      && forall g :: 0 <= g < |objs| ==> Sound(objs[g], nextLeaf)
    }

    constructor()
      ensures Valid()
      ensures objs == [] && nextLeaf == 0
    {
      objs := [];
      nextLeaf := 0;
    }

    /** `bundle.Bit()`: a leaf no existing bundle holds. */
    method NewBit() returns (b: Bundle)
      requires Valid()
      modifies this
      ensures Valid()
      ensures b == Bundle.Bit(old(nextLeaf))
      ensures nextLeaf == old(nextLeaf) + 1 && objs == old(objs)
    {
      b := Bundle.Bit(nextLeaf);
      nextLeaf := nextLeaf + 1;
    }

    /** `t.make_bundle()`: the leaves are the next `Size(t)` identities. */
    method NewBundle(t: Ty) returns (b: Bundle)
      requires Valid()
      modifies this
      ensures Valid()
      ensures b == MakeBundle(t, old(nextLeaf))
      ensures TypeOf(b) == t
      ensures Canonical(t) ==> CanonicalBundle(b)
      ensures forall x :: x in Leaves(b) ==> old(nextLeaf) <= x < nextLeaf
      ensures nextLeaf == old(nextLeaf) + Size(t) && objs == old(objs)
    {
      b := MakeBundle(t, nextLeaf);
      MakeBundleFresh(t, nextLeaf);
      TypeOfMakeBundle(t, nextLeaf);
      if Canonical(t) { MakeBundleCanonical(t, nextLeaf); }
      nextLeaf := nextLeaf + Size(t);
    }

    /** Allocates a gate object that is nobody's child yet; its identity is new. */
    method NewObject(o: GateObj) returns (g: GateId)
      requires Valid()
      requires o.gates == []
      requires Sound(o, nextLeaf)
      modifies this
      ensures Valid()
      ensures g == |old(objs)| && objs == old(objs) + [o]
      ensures nextLeaf == old(nextLeaf)
    {
      g := |objs|;
      objs := objs + [o];
    }

    /** The input bundle a primitive gate class's constructor builds from fresh bits. */
    method NewPrimitiveInputs(k: Kind) returns (ins: Bundle)
      requires Valid()
      requires !k.Circuit?
      modifies this
      ensures Valid()
      ensures ins == PrimitiveInputs(k, old(nextLeaf))
      ensures nextLeaf == old(nextLeaf) + Size(InputType(k)) && objs == old(objs)
    {
      InputBits(k);
      match k {
        case NandGate =>
          var a := NewBit();
          var b := NewBit();
          ins := Bundle.ListProduct([a, b]);
        case UnerrorGate =>
          ins := NewBit();
        case TristateBuffer =>
          var data := NewBit();
          var enable := NewBit();
          ins := Bundle.DictProduct(["data", "enable"], [data, enable]);
        case FalseGate =>
          ins := Bundle.ListProduct([]);
        case TrueGate =>
          ins := Bundle.ListProduct([]);
        case Button =>
          ins := Bundle.ListProduct([]);
      }
    }

    /**
     * The constructor of a primitive gate class: fresh bits for the inputs,
     * then one for the output, and a new object holding them.
     */
    method NewPrimitive(k: Kind, layout: Option<GateLayout>) returns (g: GateId)
      requires Valid()
      requires !k.Circuit?
      modifies this
      ensures Valid()
      ensures g == |old(objs)|
      ensures objs == old(objs) + [GateObj(k, PrimitiveInputs(k, old(nextLeaf)), PrimitiveOutputs(k, old(nextLeaf)), layout, [])]
      ensures nextLeaf == old(nextLeaf) + Size(InputType(k)) + 1
    {
      var n := nextLeaf;
      var ins := NewPrimitiveInputs(k);
      var outs := NewBit();
      PrimitiveLeavesBelow(k, n);
      PrimitiveCanonical(k, n);
      g := NewObject(GateObj(k, ins, outs, layout, []));
    }

    /**
     * The `Circuit` constructor: the input bundle is made from the input
     * type, then the output bundle from the output type; no children yet.
     */
    method NewCircuitObject(name: Option<string>, inputType: Ty, outputType: Ty, layout: Option<GateLayout>) returns (c: GateId)
      requires Valid()
      requires Canonical(inputType) && Canonical(outputType)
      modifies this
      ensures Valid()
      ensures c == |old(objs)|
      ensures objs == old(objs) + [GateObj(Circuit(name), MakeBundle(inputType, old(nextLeaf)), MakeBundle(outputType, old(nextLeaf) + Size(inputType)), layout, [])]
      ensures nextLeaf == old(nextLeaf) + Size(inputType) + Size(outputType)
    {
      var ins := NewBundle(inputType);
      var outs := NewBundle(outputType);
      assert Sound(GateObj(Circuit(name), ins, outs, layout, []), nextLeaf);
      c := NewObject(GateObj(Circuit(name), ins, outs, layout, []));
    }

    /** `parent.gates.append(g)` for a gate created after `parent`. */
    method AppendGate(parent: GateId, g: GateId)
      requires Valid()
      requires parent < g < |objs| && objs[parent].kind.Circuit?
      modifies this
      ensures Valid()
      ensures objs == WithChild(old(objs), parent, g)
      ensures nextLeaf == old(nextLeaf)
    {
      WithChildKeepsShape(objs, parent, g);
      objs := WithChild(objs, parent, g);
    }

    /** `gate.layout = l`. */
    method SetLayout(g: GateId, l: GateLayout)
      requires Valid()
      requires g < |objs|
      modifies this
      ensures Valid()
      ensures objs == WithLayout(old(objs), g, l)
      ensures nextLeaf == old(nextLeaf)
    {
      objs := WithLayout(objs, g, l);
    }
  }
}
