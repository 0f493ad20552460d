/**
 * The circuit builder: a context collecting connections between bundles,
 * circuits collecting their child gates in creation order, the primitive
 * gate constructors, and the choice of the main circuit. Every gate
 * object of this builder starts with the layout `((0, 0), 'ltr')` and a
 * circuit carries its name.
 */
module Gates {
  import opened Wrappers
  import opened Types
  import opened Bundles
  import opened Graph

  /** The layout every gate object of this builder is created with. */
  const InitialLayout := GateLayout((0, 0), "ltr")

  /** The exceptions and failed assertions of the builder. */
  datatype BuildError =
    | TypeMismatch(left: Ty, right: Ty)
    | SecondMainCircuit
    | NoMainCircuit
    | MainHasInputs(inputType: Ty)
    | MainHasOutputs(outputType: Ty)

  /** `parent.new_circuit(name, input_type, output_type)`: a new named circuit, appended to `parent` and returned. */
  method NewCircuit(store: Store, parent: GateId, name: string, inputType: Ty, outputType: Ty) returns (c: GateId)
    requires store.Valid()
    requires parent < |store.objs| && store.objs[parent].kind.Circuit?
    requires Canonical(inputType) && Canonical(outputType)
    modifies store
    ensures store.Valid()
    ensures c == |old(store.objs)|
    ensures store.objs == WithChild(old(store.objs) + [GateObj(Circuit(Some(name)), MakeBundle(inputType, old(store.nextLeaf)),
      MakeBundle(outputType, old(store.nextLeaf) + Size(inputType)), Some(InitialLayout), [])], parent, c)
    ensures store.nextLeaf == old(store.nextLeaf) + Size(inputType) + Size(outputType)
  {
    c := store.NewCircuitObject(Some(name), inputType, outputType, Some(InitialLayout));
    store.AppendGate(parent, c);
  }

  /** `parent.add_gate(gate)` for a gate created after `parent`. */
  method AddGate(store: Store, parent: GateId, g: GateId)
    requires store.Valid()
    requires parent < g < |store.objs| && store.objs[parent].kind.Circuit?
    modifies store
    ensures store.Valid()
    ensures store.objs == WithChild(old(store.objs), parent, g)
    ensures store.nextLeaf == old(store.nextLeaf)
  {
    store.AppendGate(parent, g);
  }

  /** The body shared by the primitive constructors: build the gate object, add it to `parent`, return it. */
  method AddPrimitive(store: Store, parent: GateId, k: Kind) returns (g: GateId)
    requires store.Valid()
    requires parent < |store.objs| && store.objs[parent].kind.Circuit? && !k.Circuit?
    modifies store
    ensures store.Valid()
    ensures g == |old(store.objs)|
    ensures store.objs == WithPrimitive(old(store.objs), parent, k, old(store.nextLeaf), Some(InitialLayout))
    ensures store.nextLeaf == old(store.nextLeaf) + Size(InputType(k)) + 1
  {
    g := store.NewPrimitive(k, Some(InitialLayout));
    AddGate(store, parent, g);
  }

  /** `nand(context, parent)`: inputs `ListProduct(Bit, Bit)`, output `Bit`. */
  method AddNand(store: Store, parent: GateId) returns (g: GateId)
    requires store.Valid()
    requires parent < |store.objs| && store.objs[parent].kind.Circuit?
    modifies store
    ensures store.Valid()
    ensures g == |old(store.objs)|
    ensures store.objs == WithPrimitive(old(store.objs), parent, NandGate, old(store.nextLeaf), Some(InitialLayout))
    ensures store.nextLeaf == old(store.nextLeaf) + 3
  {
    InputBits(NandGate);
    g := AddPrimitive(store, parent, NandGate);
  }

  /** `false(context, parent)`: inputs `ListProduct()`, output `Bit`. */
  method AddFalse(store: Store, parent: GateId) returns (g: GateId)
    requires store.Valid()
    requires parent < |store.objs| && store.objs[parent].kind.Circuit?
    modifies store
    ensures store.Valid()
    ensures g == |old(store.objs)|
    ensures store.objs == WithPrimitive(old(store.objs), parent, FalseGate, old(store.nextLeaf), Some(InitialLayout))
    ensures store.nextLeaf == old(store.nextLeaf) + 1
  {
    InputBits(FalseGate);
    g := AddPrimitive(store, parent, FalseGate);
  }

  /** `true(context, parent)`: inputs `ListProduct()`, output `Bit`. */
  method AddTrue(store: Store, parent: GateId) returns (g: GateId)
    requires store.Valid()
    requires parent < |store.objs| && store.objs[parent].kind.Circuit?
    modifies store
    ensures store.Valid()
    ensures g == |old(store.objs)|
    ensures store.objs == WithPrimitive(old(store.objs), parent, TrueGate, old(store.nextLeaf), Some(InitialLayout))
    ensures store.nextLeaf == old(store.nextLeaf) + 1
  {
    InputBits(TrueGate);
    g := AddPrimitive(store, parent, TrueGate);
  }

  /** `unerror(context, parent)`: input `Bit`, output `Bit`. */
  method AddUnerror(store: Store, parent: GateId) returns (g: GateId)
    requires store.Valid()
    requires parent < |store.objs| && store.objs[parent].kind.Circuit?
    modifies store
    ensures store.Valid()
    ensures g == |old(store.objs)|
    ensures store.objs == WithPrimitive(old(store.objs), parent, UnerrorGate, old(store.nextLeaf), Some(InitialLayout))
    ensures store.nextLeaf == old(store.nextLeaf) + 2
  {
    InputBits(UnerrorGate);
    g := AddPrimitive(store, parent, UnerrorGate);
  }

  /** `button(context, parent)`: inputs `ListProduct()`, output `Bit`. */
  method AddButton(store: Store, parent: GateId) returns (g: GateId)
    requires store.Valid()
    requires parent < |store.objs| && store.objs[parent].kind.Circuit?
    modifies store
    ensures store.Valid()
    ensures g == |old(store.objs)|
    ensures store.objs == WithPrimitive(old(store.objs), parent, Button, old(store.nextLeaf), Some(InitialLayout))
    ensures store.nextLeaf == old(store.nextLeaf) + 1
  {
    InputBits(Button);
    g := AddPrimitive(store, parent, Button);
  }

  /** `tristate_buffer(context, parent)`: inputs `DictProduct(data=Bit, enable=Bit)`, output `Bit`. */
  method AddTristateBuffer(store: Store, parent: GateId) returns (g: GateId)
    requires store.Valid()
    requires parent < |store.objs| && store.objs[parent].kind.Circuit?
    modifies store
    ensures store.Valid()
    ensures g == |old(store.objs)|
    ensures store.objs == WithPrimitive(old(store.objs), parent, TristateBuffer, old(store.nextLeaf), Some(InitialLayout))
    ensures store.nextLeaf == old(store.nextLeaf) + 3
  {
    InputBits(TristateBuffer);
    g := AddPrimitive(store, parent, TristateBuffer);
  }

  /**
   * The holder `set_main_circuit` passes to the main builder: it can
   * create one circuit, which is then the main circuit.
   */
  class MainCircuitHolder {
    var main: Option<GateId>

    constructor()
      ensures main == None
    {
      main := None;
    }

    /** `holder.new_circuit(...)`: the first call creates the main circuit, a second one fails and changes nothing. */
    method NewCircuit(store: Store, name: string, inputType: Ty, outputType: Ty) returns (r: Result<GateId, BuildError>)
      requires store.Valid()
      requires Canonical(inputType) && Canonical(outputType)
      modifies this, store
      ensures store.Valid()
      ensures old(main).Some? ==> r == Err(SecondMainCircuit) && main == old(main)
      ensures old(main).Some? ==> store.objs == old(store.objs) && store.nextLeaf == old(store.nextLeaf)
      ensures old(main).None? ==> r == Ok(|old(store.objs)|) && main == Some(r.value)
      ensures old(main).None? ==> store.objs == old(store.objs) + [GateObj(Circuit(Some(name)), MakeBundle(inputType, old(store.nextLeaf)),
        MakeBundle(outputType, old(store.nextLeaf) + Size(inputType)), Some(InitialLayout), [])]
      ensures old(main).None? ==> store.nextLeaf == old(store.nextLeaf) + Size(inputType) + Size(outputType)
    {
      if main.Some? {
        return Err(SecondMainCircuit);
      }
      var c := store.NewCircuitObject(Some(name), inputType, outputType, Some(InitialLayout));
      main := Some(c);
      r := Ok(c);
    }
  }

  class Context {
    /** The connections made so far, in order. */
    var connections: seq<Connection>
    /** `toplevel_gates`: the main circuit, whose `gates` list it is. */
    var toplevel: Option<GateId>

    constructor()
      ensures connections == [] && toplevel == None
    {
      connections := [];
      toplevel := None;
    }

    /**
     * `connect(a, b)`: a pair of bundles of the same type is appended;
     * a pair whose types differ is refused. There is no limit on how often
     * a bundle appears.
     */
    method Connect(a: Bundle, b: Bundle) returns (r: Outcome<BuildError>)
      requires CanonicalBundle(a) && CanonicalBundle(b)
      modifies this
      ensures r.Pass? <==> TypeOf(a) == TypeOf(b)
      ensures r.Pass? ==> connections == old(connections) + [Connection(a, b)]
      ensures r.Fail? ==> r.error == TypeMismatch(TypeOf(a), TypeOf(b)) && connections == old(connections)
      ensures toplevel == old(toplevel)
    {
      EqualIsStructural(TypeOf(a), TypeOf(b));
      if !Equal(TypeOf(a), TypeOf(b)) {
        return Fail(TypeMismatch(TypeOf(a), TypeOf(b)));
      }
      connections := connections + [Connection(a, b)];
      r := Pass;
    }

    /**
     * The checks `set_main_circuit` makes once the main builder has run on
     * `holder`: a main circuit must exist and have empty list products as
     * input and output types; it then becomes the top level.
     */
    method SetMainCircuit(store: Store, holder: MainCircuitHolder) returns (r: Outcome<BuildError>)
      requires holder.main.Some? ==> holder.main.value < |store.objs|
      modifies this
      ensures connections == old(connections)
      ensures r.Pass? <==> holder.main.Some? && EmptyInterface(store.objs[holder.main.value])
      ensures r.Pass? ==> toplevel == holder.main
      ensures r.Fail? ==> toplevel == old(toplevel)
      ensures holder.main.None? ==> r == Fail(NoMainCircuit)
      ensures holder.main.Some? ==> var c := store.objs[holder.main.value];
        (TypeOf(c.inputs) != Ty.ListProduct([]) ==> r == Fail(MainHasInputs(TypeOf(c.inputs)))) &&
        (TypeOf(c.inputs) == Ty.ListProduct([]) && TypeOf(c.outputs) != Ty.ListProduct([]) ==> r == Fail(MainHasOutputs(TypeOf(c.outputs))))
    {
      if holder.main.None? {
        return Fail(NoMainCircuit);
      }
      var c := store.objs[holder.main.value];
      EqualIsStructural(TypeOf(c.inputs), Ty.ListProduct([]));
      EqualIsStructural(TypeOf(c.outputs), Ty.ListProduct([]));
      if !Equal(TypeOf(c.inputs), Ty.ListProduct([])) {
        return Fail(MainHasInputs(TypeOf(c.inputs)));
      }
      if !Equal(TypeOf(c.outputs), Ty.ListProduct([])) {
        return Fail(MainHasOutputs(TypeOf(c.outputs)));
      }
      toplevel := holder.main;
      r := Pass;
    }
  }
}
