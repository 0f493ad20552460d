/**
 * The older circuit builder. It differs from the newer one in that
 * circuits have no name, gate objects have no layout until one is
 * written, there are only four primitives and they return a `GateNodes`
 * view of the gate, and the main circuit is passed in already built.
 */
module LegacyGates {
  import opened Wrappers
  import opened Types
  import opened Bundles
  import opened Graph

  /** The exceptions and failed assertions of this builder. */
  datatype BuildError =
    | TypeMismatch(left: Ty, right: Ty)
    | MainHasInputs(inputType: Ty)
    /** The outputs assertion's message is a plain string, not an f-string, so it carries no type. */
    | MainHasOutputs

  /** `GateNodes(inputs, outputs)`: the very bundles of a gate, so their leaves are the gate's own. */
  datatype GateNodes = GateNodes(inputs: Bundle, outputs: Bundle)

  /** `parent.new_circuit(input_type, output_type)`: a new circuit, appended to `parent` and returned. */
  method NewCircuit(store: Store, parent: GateId, inputType: Ty, outputType: Ty) returns (c: GateId)
    requires store.Valid()
    requires parent < |store.objs| && store.objs[parent].kind.Circuit?
    requires Canonical(inputType) && Canonical(outputType)
    modifies store
    ensures store.Valid()
    ensures c == |old(store.objs)|
    ensures store.objs == WithChild(old(store.objs) + [GateObj(Circuit(None), MakeBundle(inputType, old(store.nextLeaf)),
      MakeBundle(outputType, old(store.nextLeaf) + Size(inputType)), None, [])], parent, c)
    ensures store.nextLeaf == old(store.nextLeaf) + Size(inputType) + Size(outputType)
  {
    c := store.NewCircuitObject(None, inputType, outputType, None);
    store.AppendGate(parent, c);
  }

  /** `parent.add_gate(gate)` for a gate created after `parent`. */
  method AddGate(store: Store, parent: GateId, g: GateId)
    requires store.Valid()
    requires parent < g < |store.objs| && store.objs[parent].kind.Circuit?
    modifies store
    ensures store.Valid()
    ensures store.objs == WithChild(old(store.objs), parent, g)
    ensures store.nextLeaf == old(store.nextLeaf)
  {
    store.AppendGate(parent, g);
  }

  /** The body shared by the four constructors: build the gate, add it to `parent`, return its bundles. */
  method AddPrimitive(store: Store, parent: GateId, k: Kind) returns (nodes: GateNodes)
    requires store.Valid()
    requires parent < |store.objs| && store.objs[parent].kind.Circuit?
    requires k.NandGate? || k.FalseGate? || k.TrueGate? || k.UnerrorGate?
    modifies store
    ensures store.Valid()
    ensures store.objs == WithPrimitive(old(store.objs), parent, k, old(store.nextLeaf), None)
    ensures store.nextLeaf == old(store.nextLeaf) + Size(InputType(k)) + 1
    ensures nodes == GateNodes(store.objs[|old(store.objs)|].inputs, store.objs[|old(store.objs)|].outputs)
  {
    var g := store.NewPrimitive(k, None);
    AddGate(store, parent, g);
    nodes := GateNodes(store.objs[g].inputs, store.objs[g].outputs);
  }

  /** `nand(context, parent)`: inputs `ListProduct(Bit, Bit)`, output `Bit`. */
  method AddNand(store: Store, parent: GateId) returns (nodes: GateNodes)
    requires store.Valid()
    requires parent < |store.objs| && store.objs[parent].kind.Circuit?
    modifies store
    ensures store.Valid()
    ensures store.objs == WithPrimitive(old(store.objs), parent, NandGate, old(store.nextLeaf), None)
    ensures store.nextLeaf == old(store.nextLeaf) + 3
    ensures nodes == GateNodes(PrimitiveInputs(NandGate, old(store.nextLeaf)), PrimitiveOutputs(NandGate, old(store.nextLeaf)))
  {
    InputBits(NandGate);
    nodes := AddPrimitive(store, parent, NandGate);
  }

  /** `false(context, parent)`: inputs `ListProduct()`, output `Bit`. */
  method AddFalse(store: Store, parent: GateId) returns (nodes: GateNodes)
    requires store.Valid()
    requires parent < |store.objs| && store.objs[parent].kind.Circuit?
    modifies store
    ensures store.Valid()
    ensures store.objs == WithPrimitive(old(store.objs), parent, FalseGate, old(store.nextLeaf), None)
    ensures store.nextLeaf == old(store.nextLeaf) + 1
    ensures nodes == GateNodes(PrimitiveInputs(FalseGate, old(store.nextLeaf)), PrimitiveOutputs(FalseGate, old(store.nextLeaf)))
  {
    InputBits(FalseGate);
    nodes := AddPrimitive(store, parent, FalseGate);
  }

  /** `true(context, parent)`: inputs `ListProduct()`, output `Bit`. */
  method AddTrue(store: Store, parent: GateId) returns (nodes: GateNodes)
    requires store.Valid()
    requires parent < |store.objs| && store.objs[parent].kind.Circuit?
    modifies store
    ensures store.Valid()
    ensures store.objs == WithPrimitive(old(store.objs), parent, TrueGate, old(store.nextLeaf), None)
    ensures store.nextLeaf == old(store.nextLeaf) + 1
    ensures nodes == GateNodes(PrimitiveInputs(TrueGate, old(store.nextLeaf)), PrimitiveOutputs(TrueGate, old(store.nextLeaf)))
  {
    InputBits(TrueGate);
    nodes := AddPrimitive(store, parent, TrueGate);
  }

  /** `unerror(context, parent)`: input `Bit`, output `Bit`. */
  method AddUnerror(store: Store, parent: GateId) returns (nodes: GateNodes)
    requires store.Valid()
    requires parent < |store.objs| && store.objs[parent].kind.Circuit?
    modifies store
    ensures store.Valid()
    ensures store.objs == WithPrimitive(old(store.objs), parent, UnerrorGate, old(store.nextLeaf), None)
    ensures store.nextLeaf == old(store.nextLeaf) + 2
    ensures nodes == GateNodes(PrimitiveInputs(UnerrorGate, old(store.nextLeaf)), PrimitiveOutputs(UnerrorGate, old(store.nextLeaf)))
  {
    InputBits(UnerrorGate);
    nodes := AddPrimitive(store, parent, UnerrorGate);
  }

  class Context {
    /** The connections made so far, in order. */
    var connections: seq<Connection>
    /** `toplevel_gates`: the main circuit, whose `gates` list it is. */
    var toplevel: Option<GateId>

    constructor()
      ensures connections == [] && toplevel == None
    {
      connections := [];
      toplevel := None;
    }

    /** `connect(a, b)`: a pair of bundles of the same type is appended; a pair whose types differ is refused. */
    method Connect(a: Bundle, b: Bundle) returns (r: Outcome<BuildError>)
      requires CanonicalBundle(a) && CanonicalBundle(b)
      modifies this
      ensures r.Pass? <==> TypeOf(a) == TypeOf(b)
      ensures r.Pass? ==> connections == old(connections) + [Connection(a, b)]
      ensures r.Fail? ==> r.error == TypeMismatch(TypeOf(a), TypeOf(b)) && connections == old(connections)
      ensures toplevel == old(toplevel)
    {
      EqualIsStructural(TypeOf(a), TypeOf(b));
      if !Equal(TypeOf(a), TypeOf(b)) {
        return Fail(TypeMismatch(TypeOf(a), TypeOf(b)));
      }
      connections := connections + [Connection(a, b)];
      r := Pass;
    }

    /**
     * `set_main_circuit(c)`: `c` must have empty list products as input
     * and output types; its `gates` list becomes the top level.
     */
    method SetMainCircuit(store: Store, c: GateId) returns (r: Outcome<BuildError>)
      requires c < |store.objs|
      modifies this
      ensures connections == old(connections)
      ensures r.Pass? <==> EmptyInterface(store.objs[c])
      ensures r.Pass? ==> toplevel == Some(c)
      ensures r.Fail? ==> toplevel == old(toplevel)
      ensures TypeOf(store.objs[c].inputs) != Ty.ListProduct([]) ==> r == Fail(MainHasInputs(TypeOf(store.objs[c].inputs)))
      ensures TypeOf(store.objs[c].inputs) == Ty.ListProduct([]) && TypeOf(store.objs[c].outputs) != Ty.ListProduct([]) ==> r == Fail(MainHasOutputs)
    {
      var o := store.objs[c];
      EqualIsStructural(TypeOf(o.inputs), Ty.ListProduct([]));
      EqualIsStructural(TypeOf(o.outputs), Ty.ListProduct([]));
      if !Equal(TypeOf(o.inputs), Ty.ListProduct([])) {
        return Fail(MainHasInputs(TypeOf(o.inputs)));
      }
      if !Equal(TypeOf(o.outputs), Ty.ListProduct([])) {
        return Fail(MainHasOutputs);
      }
      toplevel := Some(c);
      r := Pass;
    }
  }
}
