# Circuit DSL core, modelled in Dafny

This project models the Python circuit-description language that builds
gate-level circuits and exports them as a netlist. It has four parts:

- **Wire types and bundles** (`Types`, `Bundles`). A type is a single
  wire (`Bit`), an ordered product (`ListProduct`) or a named product
  (`DictProduct`). It has Python's structural equality, a size and
  `make_bundle`. A bundle is a tree of wires shaped like a type. Each
  `bundle.Bit` leaf is an object whose identity *is* the wire. Here that
  identity is a number drawn from a counter that never repeats.
- **The object graph and the two circuit builders** (`Graph`, `Gates`,
  `LegacyGates`, `LegacyUtils`). Gate objects live in an arena (`Graph.Store`).
  A gate's identity is its index there, and the arena also owns the leaf
  counter. A context collects connections between bundles and refuses
  pairs of different types. Circuits collect child gates in creation
  order. The primitive constructors build fixed-shape gates. The main
  circuit must have empty list products as input and output types.
  `connect_chain` wires consecutive gates together.
- **The layout algebra** (`Layout`, `LegacyLayout`). Sizes are computed
  bottom-up. `apply` walks a cursor across every flow and writes a
  `GateLayout(position, direction)` onto each gate. `snake` cuts a list of
  items into rows whose directions alternate. The older builder's
  left-to-right chain is modelled too.
- **The netlist flattener** (`Serialize`). A memo numbers leaves in order
  of first appearance. Bundles are flattened with list fields in declared
  order and dict fields in ascending name order. Each connection becomes
  the position-wise pairing of its two flattened sides. Gates become
  records, serialised recursively.

Modelling decisions:

- **Named products are kept in canonical form.** A named product stores
  its field names in ascending order, with the fields in the same order.
  Python compares dict products as dicts, so keyword order is not part of
  a type's value. `Types.Dict` and `Bundles.DictBundle` build the
  canonical form from a dict. `Types.Canonical` and
  `Bundles.CanonicalBundle` say a value is in that form at every depth.
  Every canonical named product is the canonical form of its own field
  dict (`Types.CanonicalIsDict`), so each Python value has exactly one
  model. Two types are the same value exactly when their dicts are equal
  (`Types.DictEqual`, `Types.CanonicalEqual`). Flattening reads a canonical
  named product in `sorted` order (`Serialize.ConvertCanonicalDict`).
- **The imperative builders are classes.** The context, the main-circuit
  holder and the arena are classes whose methods append to `seq` fields.
  - Each method states the whole new state.
  - Each keeps the arena invariant `Store.Valid()`: children were created
    after their parents, only circuits have children, no bundle holds
    a leaf the counter has not yet handed out, and every gate's bundles
    are in canonical form.
- **Shared lists are modelled by shared identities.** In the older
  builder, `set_main_circuit(c)` makes `toplevel_gates` the very list
  `c.gates`. The model stores the main circuit's identity and reads its
  `gates` from the arena when flattening, so later appends stay visible.
- **The flattener is written over an explicit memo value.** It is a set
  of functions over a `Nodes(ids, curNum)` value threaded through every
  call, which is the state Python's `Nodes` object mutates.
- **One flattener for both builders.** The modelled flattener is
  generate/serialize.py. It has no case for buttons or tristate buffers
  (generate/serialize.py:27-37), so a gate tree that contains one reaches
  its `invalid gate` error branch, as `Serialize.GateOk` states. The model
  applies this flattener to the gate graphs of both builders.

## Model

| member | source | states |
|---|---|---|
| Names.SortedKeys | generate/serialize.py:56 | The names of a set in the order `sorted` gives: exactly the members of the set, each once |
| Names.SortedKeysAscending | generate/serialize.py:56 | Those names are in strictly ascending order |
| Names.AscendingIsSorted | generate/serialize.py:56 | A strictly ascending list of names is exactly what `sorted` gives for its own set of names, so the ascending order is unique |
| Types.Dict | project/generate/ty.py:38-40 | `DictProduct(**m)` has exactly the keys of `m` as field names, and under each name the type `m` gives it |
| Types.DictAscending | project/generate/ty.py:38-40 | The field names of a dict product are strictly ascending, whatever order the keywords were supplied in |
| Types.DictEqual | project/generate/ty.py:42-46 | Two dict products are the same type exactly when their field dicts are equal, so keyword order does not matter |
| Types.DictCanonical | project/generate/ty.py:38-40 | `DictProduct(**m)` of canonical field types is canonical |
| Types.CanonicalIsDict | project/generate/ty.py:38-40 | A canonical dict product is `DictProduct(**fields)` of its own field dict, so keyword order leaves no trace |
| Types.CanonicalEqual | project/generate/ty.py:42-46 | Two canonical dict products are the same value exactly when their field dicts are equal |
| Types.Equal | project/generate/ty.py:7-46 | Python's `__eq__` on types; what it means is stated by `Types.EqualIsStructural` |
| Types.Size | project/generate/ty.py:16-55 | `size()`: 1 for a `Bit`, the sum of the fields' sizes for a product; stated by `Types.SizeOfProduct` and `Bundles.LeafCount` |
| Types.EqualIsStructural | project/generate/ty.py:7-46 | Python's `__eq__` is value equality: a `Bit` equals only a `Bit`; a list product equals only a list product with pairwise-equal fields, in order; a dict product equals only a dict product with the same names and equal fields under them |
| Types.SizeOfProduct | project/generate/ty.py:35-55 | A product's size is the sum of its fields' sizes; an empty product has size 0 |
| Bundles.LeafCount | project/generate/ty.py:16-55 | A bundle has as many leaves as its type's size |
| Bundles.MakeBundle | project/generate/ty.py:13-52 | `make_bundle` mirrors the type's shape: same variant, same number of fields, and the same field names for a dict product |
| Bundles.MadeField | project/generate/ty.py:32-52 | Field `i` of `t.make_bundle()` is field `i` of `t` made from the identities right after those used by fields `0..i-1` |
| Bundles.LeavesOfMakeBundle | project/generate/ty.py:13-52 | The leaves of `t.make_bundle()`, in flattening order, are the next `Size(t)` fresh identities, in ascending order |
| Bundles.TypeOf | project/generate/bundle.py:7-28 | `type()`: the same shape with `Bit` at each leaf; stated by `Bundles.TypeOfMakeBundle`, `Bundles.TypeOfDictBundle` and `Bundles.TypeOfCanonical` |
| Bundles.TypeOfMakeBundle | project/generate/bundle.py:7-28 | Round trip: `t.make_bundle().type() == t` for every type |
| Bundles.MakeBundleFresh | project/generate/ty.py:13-14 | Every leaf of a made bundle is new: the leaves are pairwise distinct, there are `Size(t)` of them, and all lie in the counter's next `Size(t)` values, so no later call shares one |
| Bundles.DictBundle | project/generate/bundle.py:20-22 | `bundle.DictProduct(**m)` has exactly the keys of `m` as field names, and under each name the bundle `m` gives it |
| Bundles.DictBundleCanonical | project/generate/bundle.py:20-22 | `bundle.DictProduct(**m)` of canonical fields is canonical |
| Bundles.CanonicalIsDictBundle | project/generate/bundle.py:20-22 | A canonical named bundle is `bundle.DictProduct(**fields)` of its own field dict |
| Bundles.TypeOfDictBundle | project/generate/bundle.py:27-28 | `DictProduct(**m).type()` is `ty.DictProduct` of the dict holding each field's `type()` under its name |
| Bundles.TypeOfCanonical | project/generate/bundle.py:7-28 | `type()` of a canonical bundle is a canonical type |
| Bundles.MakeBundleCanonical | project/generate/ty.py:13-52 | `make_bundle` of a canonical type is a canonical bundle |
| Bundles.GetItem | project/generate/bundle.py:14-25 | Indexing returns the stored sub-bundle itself: a list takes Python indices, negatives counting from the end; a dict takes its field names; anything else (out of range, missing name, wrong key kind, a `Bit`) fails |
| Graph.WithChild | project/generate/gates.py:53-54 | `gates.append(g)` adds `g` at the end of the parent's child list and changes no other object and no other part of the parent |
| Graph.WithLayout | project/generate/layout.py:16-17 | Writing `gate.layout` changes only that gate's layout |
| Graph.WithChildKeepsShape | project/generate/gates.py:48-54 | Appending a newer gate to a circuit keeps the child relation acyclic and keeps children under circuits only |
| Graph.TristateType | project/generate/gates.py:86-90 | The tristate buffer's input type is `DictProduct(data=Bit, enable=Bit)` |
| Graph.PrimitiveInputsMade | project/generate/gates.py:56-90 | Each primitive's constructor builds the same input bundle that `make_bundle` of its declared input type would |
| Graph.PrimitiveShapes | project/generate/gates.py:56-90 | Primitive shapes: nand takes `ListProduct(Bit, Bit)`, false/true/button take `ListProduct()`, unerror takes `Bit`, tristate takes `DictProduct(data=Bit, enable=Bit)`; all output one `Bit`; the leaves are fresh, inputs first |
| Graph.InputBits | project/generate/gates.py:56-90 | nand and tristate take 2 input bits, unerror 1, false/true/button none |
| Graph.PrimitiveCanonical | project/generate/gates.py:56-90 | The primitives' declared types are canonical, and so are the bundles their constructors build |
| Graph.PrimitiveIsNotMain | project/generate/gates.py:25-26 | No primitive gate can pass the main-circuit check, since its output is a bit |
| Graph.Store.NewBit | project/generate/bundle.py:3-5 | `bundle.Bit()` is a leaf no existing bundle holds; the counter moves on by one |
| Graph.Store.NewBundle | project/generate/ty.py:13-52 | `make_bundle` on the heap returns a bundle of type `t` whose leaves are all new, and moves the counter on by `Size(t)` |
| Graph.Store.NewPrimitive | project/generate/gates.py:56-90 | A primitive's constructor allocates one new object holding fresh input bits and then a fresh output bit |
| Graph.Store.NewCircuitObject | project/generate/gates.py:41-46 | The `Circuit` constructor makes the input bundle, then the output bundle, from the declared types, with no children yet |
| Graph.Store.AppendGate | project/generate/gates.py:53-54 | Appends the gate to the parent's list, changes nothing else, and keeps the arena invariant |
| Graph.Store.SetLayout | project/generate/layout.py:16-17 | Writes one gate's layout, changes nothing else, and keeps the arena invariant |
| Gates.NewCircuit | project/generate/gates.py:48-51 | `new_circuit` creates a named circuit whose bundles have the declared types and initial layout `((0, 0), 'ltr')`, appends it as the parent's last child and returns it |
| Gates.AddGate | project/generate/gates.py:53-54 | `add_gate` appends exactly one child and changes nothing else |
| Gates.AddPrimitive | project/generate/gates.py:104-132 | Each primitive constructor function builds the gate, appends it to the parent, and returns that same gate |
| Gates.AddNand | project/generate/gates.py:104-107 | `nand` appends a new nand gate with two fresh input bits and one fresh output bit, and returns it |
| Gates.AddFalse | project/generate/gates.py:109-112 | `false` appends a new false gate with empty inputs and one fresh output bit, and returns it |
| Gates.AddTrue | project/generate/gates.py:114-117 | `true` appends a new true gate with empty inputs and one fresh output bit, and returns it |
| Gates.AddUnerror | project/generate/gates.py:119-122 | `unerror` appends a new unerror gate with one fresh input bit and one fresh output bit, and returns it |
| Gates.AddButton | project/generate/gates.py:124-127 | `button` appends a new button with empty inputs and one fresh output bit, and returns it |
| Gates.AddTristateBuffer | project/generate/gates.py:129-132 | `tristate_buffer` appends a new tristate buffer with fresh `data` and `enable` bits and one fresh output bit, and returns it |
| Gates.MainCircuitHolder.constructor | project/generate/gates.py:13-14 | The holder starts with no main circuit |
| Gates.MainCircuitHolder.NewCircuit | project/generate/gates.py:16-19 | The first call creates the main circuit and records it; a second call fails and changes nothing |
| Gates.Context.constructor | project/generate/gates.py:7-9 | A context starts with no connections and no top level |
| Gates.Context.Connect | project/generate/gates.py:29-33 | `connect(a, b)` appends exactly `(a, b)` when the types are equal, and otherwise raises with both types and leaves the list unchanged; there is no fan-out, fan-in or cycle restriction |
| Gates.Context.SetMainCircuit | project/generate/gates.py:21-27 | Succeeds exactly when a main circuit was created and its input and output types are both the empty list product; the top level is then that circuit's gate list. Non-empty inputs fail with the input type; otherwise non-empty outputs fail with the output type |
| Layout.Size | project/generate/layout.py:13-40 | `size()`: the gate rectangle for a gate, the flow extent of the children's sizes for a flow; stated by `Layout.FlowSizeOk`, `Layout.FlowSizeValue` and `Layout.SizeMultiple` |
| Layout.Placements | project/generate/layout.py:16-69 | The layouts `apply(center)` writes, in order; stated by `Layout.CursorWalk`, `Layout.PlacementsTargets` and `Layout.Apply` |
| Layout.Max | project/generate/layout.py:32-34 | Python's `max`: an element of the list, no smaller than any other |
| Layout.FlowExtent | project/generate/layout.py:29-38 | A direction other than the four tokens raises `InvalidDirection`; a valid flow with no children raises, because `max` of nothing raises |
| Layout.ChildSizesOk | project/generate/layout.py:25 | The children's sizes are known exactly when every child has one, and then they are those sizes in order |
| Layout.ChildSizesFirstError | project/generate/layout.py:25 | When a child raises, the flow raises the error of the first child that does |
| Layout.FlowSizeOk | project/generate/layout.py:24-40 | A flow has a size exactly when its direction is valid, it has children, and every child has a size |
| Layout.FlowSizeValue | project/generate/layout.py:29-40 | A flow's box is as long as its children together along its axis, and as wide as its widest child across it |
| Layout.SizeMultiple | project/generate/layout.py:1-40 | Every size is a positive multiple of 200 in both directions, so the halvings in `apply` are exact |
| Layout.CursorStep | project/generate/layout.py:56-69 | Each child moves the cursor by its own length: forwards for `ltr`/`ttb`, backwards for `rtl`/`btt` |
| Layout.CursorWalk | project/generate/layout.py:46-69 | The cursor runs from the leading edge to the trailing edge; each child is centred halfway between the cursor before and after it, on the flow's centre line across the axis |
| Layout.EdgesOfBox | project/generate/layout.py:46-54 | The cursor's start and end edges are symmetric about the centre and one box length apart |
| Layout.FlowTiles | project/generate/layout.py:42-69 | For a flow that has a size, its children abut along the axis, in order, and exactly fill its box |
| Layout.PlacementsTargets | project/generate/layout.py:56-69 | `apply` writes a layout onto exactly the layout tree's gates, in pre-order |
| Layout.ApplyTouchesItsGates | project/generate/layout.py:16-17 | `apply` changes only the `layout` field, only of the gates the tree names, and gives each of them a layout |
| Layout.Apply | project/generate/layout.py:13-69 | `apply(center)` raises exactly when `size()` does, changing nothing. Otherwise it writes the placements of the cursor walk, in order, and changes nothing else |
| Layout.ApplyFlow | project/generate/layout.py:42-69 | The cursor loop over a flow's children writes, child after child, the placements of each child centred where the cursor walk puts it |
| Layout.NamedFlowSizes | project/generate/layout.py:82-89 | The four named flows never raise for their direction: they have a size exactly when they have children that all have sizes |
| Layout.NamedGatePlacements | project/generate/layout.py:91-98 | The four named gates are one gate rectangle, and `apply` places the gate at the centre facing the named direction |
| Layout.Reverse | project/generate/layout.py:78 | `s[::-1]`: the same characters in the opposite order |
| Layout.ReverseInvolution | project/generate/layout.py:78 | Reversing twice gives back the direction |
| Layout.ReverseDirections | project/generate/layout.py:78 | Reversal swaps `ltr` with `rtl` and `ttb` with `btt`, and keeps validity and the axis |
| Layout.Chunks | project/generate/layout.py:72 | `[things[n:n + row_len] for n in range(0, len(things), row_len)]`; stated by `Layout.ChunksConcat` and `Layout.ChunksShape` |
| Layout.SnakeRows | project/generate/layout.py:74-80 | The rows `snake` builds, each with its direction; stated by `Layout.Snake` and `Layout.SnakeAlternates` |
| Layout.ChunksConcat | project/generate/layout.py:72 | Concatenating the chunks gives back the items in their original order |
| Layout.ChunksShape | project/generate/layout.py:72 | Every chunk is non-empty and holds at most `row_len` items, and every chunk but the last holds exactly `row_len` |
| Layout.RowDirectionStep | project/generate/layout.py:74-78 | Each row's direction is the reverse of the previous row's |
| Layout.Snake | project/generate/layout.py:71-80 | `snake` raises for a zero row length and gives an empty outer flow for a negative one. Otherwise it wraps in `Flow(second_direction)` one row per chunk, each row's items built with that row's direction |
| Layout.SnakeAlternates | project/generate/layout.py:74-80 | The first row uses `first_direction` and each next row the reverse of the previous one; each item of a row is built with its row's direction |
| Serialize.NodeForBit | generate/serialize.py:8-16 | `node_for_bit` records a number for the leaf and keeps every number already given |
| Serialize.NodeForBitNumbering | generate/serialize.py:8-16 | A leaf met again gets its old number and changes nothing; a new leaf gets `cur_num`, which moves on by one; the numbers given stay exactly `0..cur_num-1`, one per leaf |
| Serialize.NumberAllSpec | generate/serialize.py:8-16 | Numbering a sequence of leaves gives each its memo entry, and adds entries only for those leaves |
| Serialize.NumberAllNumbering | generate/serialize.py:8-16 | Numbering any sequence of leaves keeps the numbers exactly `0..cur_num-1`, one per distinct leaf |
| Serialize.ConvertBundle | generate/serialize.py:50-58 | `convert_bundle`; stated by `Serialize.ConvertIsNumbering`, `Serialize.ConvertBundleSpec` and `Serialize.ConvertCanonicalDict` |
| Serialize.ConvertIsNumbering | generate/serialize.py:50-58 | `convert_bundle` is the memo's numbering of the bundle's leaves in stored field order, depth first |
| Serialize.ConvertDict | generate/serialize.py:55-56 | Flattening `bundle.DictProduct(**m)` concatenates, left to right, the flattenings of the fields in `sorted` name order |
| Serialize.ConvertCanonicalDict | generate/serialize.py:55-56 | Every canonical named bundle is flattened in `sorted(b.fields.items())` order of its field dict |
| Serialize.ConvertBundleSpec | generate/serialize.py:50-58 | The flattened list is as long as the bundle's type size, holds the memo numbers of the leaves in order, and keeps earlier numbers |
| Serialize.ConvertAgain | generate/serialize.py:8-16 | Flattening the same bundle again gives the same numbers and leaves the memo unchanged |
| Serialize.SerializeConnection | generate/serialize.py:39-48 | `serialize_connection`; stated by `Serialize.ConnectionOk`, `Serialize.ConnectionRead` and `Serialize.ConnectionNumbering` |
| Serialize.SerializeConnections | generate/serialize.py:21 | The connection list comprehension and its `sum`; stated by `Serialize.ConnectionsOk`, `Serialize.ConnectionsRead` and `Serialize.ConnectionsNumbering` |
| Serialize.ConnectionOk | generate/serialize.py:39-48 | `serialize_connection` succeeds exactly when both sides flatten to the same length, and otherwise fails with both lengths |
| Serialize.ConnectionRead | generate/serialize.py:39-48 | Its result is the position-wise pairing of the numbers of the two sides, start side numbered first |
| Serialize.ConnectionNumbering | generate/serialize.py:39-48 | Serialising a connection keeps the memo a numbering `0..cur_num-1` |
| Serialize.ConnectionsOk | generate/serialize.py:21 | The connection list serialises exactly when every connection's sides have equal length |
| Serialize.ConnectionsRead | generate/serialize.py:21 | The output connections are the concatenation, in connection order, of each connection's pairs |
| Serialize.ConnectionsNumbering | generate/serialize.py:19-21 | Serialising the connection list keeps the memo a numbering `0..cur_num-1`, one number per distinct leaf |
| Serialize.BalancedIffSameSize | generate/serialize.py:46 | The length check passes exactly when the two sides' types have equal size |
| Serialize.WellTypedConnectionsSerialize | generate/serialize.py:39-48 | Connections accepted by `connect` always pass the length check |
| Serialize.FanOut | generate/serialize.py:39-48 | Connecting one bundle to two others yields two runs of pairs with the same source numbers |
| Serialize.SerializeGate | generate/serialize.py:25-37 | `serialize_gate`; stated by `Serialize.GateOk`, `Serialize.GateRead` and `Serialize.GateNumbering` |
| Serialize.SerializeGates | generate/serialize.py:27 | The child list comprehension; stated by `Serialize.GatesOk`, `Serialize.GatesRead` and `Serialize.GatesNumbering` |
| Serialize.RecordOf | generate/serialize.py:25-37 | The record of a gate read off a numbering: its input and output numbers, then a circuit's children's records in order, or a primitive's type name |
| Serialize.RecordStable | generate/serialize.py:8-16 | A numbering that only grows reads the same record off a gate whose leaves, and whose descendants' leaves, it had all seen |
| Serialize.GateIsNumbering | generate/serialize.py:25-37 | `serialize_gate` hands out numbers in pre-order: the memo it leaves is that of numbering the gate's input leaves, then its output leaves, then each child's leaves in turn, recursively |
| Serialize.GatesIsNumbering | generate/serialize.py:27 | Serialising a list of gates numbers their leaves one gate after another, in list order |
| Serialize.ConnectionsIsNumbering | generate/serialize.py:21-48 | Serialising the connection list numbers the leaves connection by connection, start side before end side |
| Serialize.GateOk | generate/serialize.py:25-37 | `serialize_gate` succeeds exactly when the gate and every descendant are circuits or nand/false/true/unerror gates; buttons and tristate buffers raise |
| Serialize.GatesOk | generate/serialize.py:25-27 | A circuit's children serialise exactly when each of them does |
| Serialize.GateRead | generate/serialize.py:25-37 | The emitted record is exactly `RecordOf` the gate under the memo left behind: the numbers of its own leaves, and for a circuit its children's records in order, recursively; earlier numbers are kept |
| Serialize.GatesRead | generate/serialize.py:27 | The list of records is exactly the `RecordOf` each gate in order, all read off the one memo left at the end; earlier numbers are kept |
| Serialize.GateNumbering | generate/serialize.py:25-37 | Serialising a gate keeps the memo a numbering `0..cur_num-1` |
| Serialize.GatesNumbering | generate/serialize.py:25-27 | Serialising a list of gates keeps the memo a numbering `0..cur_num-1` |
| Serialize.SerializeContext | generate/serialize.py:18-23 | `serialize_context` as a value; stated by `Serialize.ContextOk` and `Serialize.ContextRead` |
| Serialize.ContextOk | generate/serialize.py:18-23 | `serialize_context` succeeds exactly when every connection is balanced, there is a top level, and every top-level gate serialises |
| Serialize.ContextRead | generate/serialize.py:18-23 | The final memo is a fresh memo numbering the connections' leaves in order, start side before end side, then the top-level gates' leaves in pre-order. Under that one memo, the output connections are the position-wise pairs of each connection in order, and the top-level records are `RecordOf` each top-level gate in order |
| Serialize.LegacyContextSerializes | generate/serialize.py:18-37 | A context with well-typed connections whose gates are all circuits or the four legacy primitives always serialises |
| LegacyGates.NewCircuit | generate/gates.py:31-34 | `new_circuit` creates an unnamed circuit whose bundles have the declared types, appends it as the parent's last child and returns it |
| LegacyGates.AddGate | generate/gates.py:36-37 | `add_gate` appends exactly one child and changes nothing else |
| LegacyGates.AddPrimitive | generate/gates.py:64-82 | Each constructor function builds the gate, appends it, and returns a `GateNodes` holding the gate's own bundles |
| LegacyGates.AddNand | generate/gates.py:64-67 | `nand` appends a nand gate with two fresh input bits and a fresh output bit, and returns those very bundles |
| LegacyGates.AddFalse | generate/gates.py:69-72 | `false` appends a false gate with empty inputs and a fresh output bit, and returns those very bundles |
| LegacyGates.AddTrue | generate/gates.py:74-77 | `true` appends a true gate with empty inputs and a fresh output bit, and returns those very bundles |
| LegacyGates.AddUnerror | generate/gates.py:79-82 | `unerror` appends an unerror gate with a fresh input bit and a fresh output bit, and returns those very bundles |
| LegacyGates.Context.constructor | generate/gates.py:5-7 | A context starts with no connections and no top level |
| LegacyGates.Context.Connect | generate/gates.py:14-18 | `connect(a, b)` appends exactly `(a, b)` when the types are equal, and otherwise raises and leaves the list unchanged |
| LegacyGates.Context.SetMainCircuit | generate/gates.py:9-12 | Succeeds exactly when `c`'s input and output types are both the empty list product; the top level is then `c`'s own gate list. Non-empty inputs fail with the input type; otherwise non-empty outputs fail with a message that carries no type, since it is not an f-string |
| LegacyLayout.ChainSize | generate/layout.py:23-24 | `size()`: 100 per gate across, 100 high; stated by `LegacyLayout.EmptyChain` and `LegacyLayout.ChainSteps` |
| LegacyLayout.ChainPlacements | generate/layout.py:26-33 | `apply` writes one layout per gate, in the chain's order |
| LegacyLayout.ChainSteps | generate/layout.py:26-33 | All gates face `ltr` on the centre row. x starts at the chain's left edge `center_x - 50n`, rises by 100 per gate, and the last cell ends at the right edge: a cell's left edge, not its centre |
| LegacyLayout.Apply | generate/layout.py:26-33 | The cursor loop writes exactly those layouts, in order, and changes nothing else |
| LegacyLayout.EmptyChain | generate/layout.py:23-24 | An empty chain has size `(0, 100)` and writes no layout |
| LegacyUtils.ChainLinks | generate/utils.py:1-3 | For k things there are k-1 links, link i joining `things[i].outputs` to `things[i+1].inputs`; fewer than two things give none |
| LegacyUtils.AcceptedPrefix | generate/utils.py:2-3 | The links before the first ill-typed link are exactly the ones `connect` accepts |
| LegacyUtils.ConnectChain | generate/utils.py:1-3 | `connect_chain` appends the accepted links in order, and then either succeeds or raises the first mismatch; links before the failing one stay made |

## Left out

- The newer builder's own flattener: project/generate/gates.py:4 and 35-36 export through project/generate/serialize.py, which is not part of this model. The model applies the older flattener, generate/serialize.py, to both builders' gate graphs, so what the newer builder exports for buttons and tristate buffers is not captured.
- File output: `Context.export` and the top-level `export` open a file and write JSON. Only the value `serialize_context` returns is modelled (`Serialize.SerializeContext`).
- `make_circuit`: this decorator runs an arbitrary caller-supplied body between creating a child circuit and returning it. Python code passed as a callback is not modelled. The creation and the return of that same circuit are `Gates.NewCircuit`.
- Gates.Context.SetMainCircuit: `set_main_circuit(make_main)` calls back into the caller's builder. The model splits that call: the caller creates the holder, runs its builder against `Gates.MainCircuitHolder`, and then this method makes the checks. The callback itself is not modelled.
- Gates.AddGate: requires the added gate to be newer than the parent. The primitive constructors are its only callers (project/generate/gates.py:104-132), and each adds the gate it has just created, so every call in the program meets this. Python itself accepts any object, including an older gate already placed elsewhere, which would then be serialised twice.
- LegacyGates.AddGate: requires the added gate to be newer than the parent, for the same reason: its only callers are the primitive constructors (generate/gates.py:64-82), each adding the gate it has just created.
- Bundles.MakeBundle: allocates a dict product's leaves in ascending name order, not in keyword order. Leaf identities are still fresh and distinct; only which name gets the smaller number differs.
- Bundles.GetItem: requires a dict bundle to have as many names as fields. Every bundle the model builds satisfies this.
- Bundles.GetItem: slice keys are not modelled. On a list bundle Python's `self.fields[key]` also accepts a slice such as `b[1:]` and returns a tuple of sub-bundles; a key here is an integer index or a field name only.
- Graph.Store.NewCircuitObject, Gates.NewCircuit, Gates.MainCircuitHolder.NewCircuit and LegacyGates.NewCircuit: require the declared types to be in canonical form. Every Python type has exactly one canonical model (`Types.CanonicalIsDict`), so no Python input is excluded.
- Gates.Context.Connect, LegacyGates.Context.Connect and LegacyUtils.ConnectChain: require the bundles to be in canonical form, for the same reason (`Bundles.CanonicalIsDictBundle`).
- `__str__` of types, and the keyword order of a dict product, are not modelled: a named product is stored in canonical form.
- Positions are integers. Python's `/ 2` yields a float, but every size is a multiple of 200 (or 100 in the older layout), so every halving is exact (`Layout.SizeMultiple`).
- The flattener's `invalid bundle` branch and the `isinstance(b, bundle.Bit)` assertion cannot be reached, because a bundle here is always one of the three variants.
- The Rust consumer, simulator and GUI, and the example circuit libraries, are not part of this model.
- Python object identity for gates is an index into `Graph.Store`; memory reclamation and the dynamic attribute machinery are not modelled.
