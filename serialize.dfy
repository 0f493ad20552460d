/**
 * The netlist flattener of the older builder. Every leaf of every bundle
 * it meets gets a node number, handed out in order of first appearance by
 * a memo (`Nodes`) that one call of `serialize_context` creates fresh and
 * threads through the whole walk. Connections become lists of number
 * pairs; gates become records whose inputs and outputs are number lists.
 */
module Serialize {
  import opened Wrappers
  import opened Names
  import opened Seqs
  import opened Types
  import opened Bundles
  import opened Graph

  /** `Nodes`: the number given to each leaf met so far, and the next number to give. */
  datatype Nodes = Nodes(ids: map<LeafId, nat>, curNum: nat)

  /** The memo every `serialize_context` call starts from. */
  const Fresh: Nodes := Nodes(map[], 0)

  /** The numbers given so far are exactly `0 .. curNum - 1`, one per leaf seen. */
  ghost predicate Numbering(n: Nodes)
  {
    |n.ids.Keys| == n.curNum &&
    (forall b :: b in n.ids ==> n.ids[b] < n.curNum) &&
    (forall a, b :: a in n.ids && b in n.ids && a != b ==> n.ids[a] != n.ids[b]) &&
    (forall k :: 0 <= k < n.curNum ==> k in n.ids.Values)
  }

  /** `m` is `n` after more leaves were met: every number already given stands. */
  ghost predicate Extends(n: Nodes, m: Nodes)
  {
    n.curNum <= m.curNum &&
    forall b :: b in n.ids ==> b in m.ids && m.ids[b] == n.ids[b]
  }

  /** `node_for_bit(b)`: the leaf's number, given now if the leaf is new. */
  function NodeForBit(n: Nodes, b: LeafId): (r: (Nodes, nat))
    ensures b in r.0.ids && r.0.ids[b] == r.1
    ensures r.0.ids.Keys == n.ids.Keys + {b}
    ensures Extends(n, r.0)
  {
    if b in n.ids then (n, n.ids[b])
    else (Nodes(n.ids[b := n.curNum], n.curNum + 1), n.curNum)
  }

  /** A leaf met again keeps its number; a new leaf gets `curNum`, which moves on by one; so the numbers stay `0 .. curNum - 1`. */
  lemma NodeForBitNumbering(n: Nodes, b: LeafId)
    ensures b in n.ids ==> NodeForBit(n, b) == (n, n.ids[b])
    ensures b !in n.ids ==> NodeForBit(n, b).1 == n.curNum && NodeForBit(n, b).0.curNum == n.curNum + 1
    ensures Numbering(n) ==> Numbering(NodeForBit(n, b).0)
  {
    if b !in n.ids && Numbering(n) {
      var m := NodeForBit(n, b).0;
      assert |m.ids.Keys| == |n.ids.Keys| + 1;
      forall k | 0 <= k < m.curNum ensures k in m.ids.Values {
        if k == n.curNum {
          assert m.ids[b] == k;
        } else {
          assert k in n.ids.Values;
          var x :| x in n.ids && n.ids[x] == k;
          assert m.ids[x] == k;
        }
      }
    }
  }

  /** Numbering a list of leaves one after the other. */
  function NumberAll(n: Nodes, xs: seq<LeafId>): (r: (Nodes, seq<nat>))
    ensures |r.1| == |xs|
    decreases |xs|
  {
    if xs == [] then (n, [])
    else
      var front := NumberAll(n, xs[..|xs| - 1]);
      var last := NodeForBit(front.0, xs[|xs| - 1]);
      (last.0, front.1 + [last.1])
  }

  /**
   * Numbering a list of leaves keeps every number already given, gives
   * each leaf of the list a number and no other leaf one, and reports for
   * each position the number its leaf ends up with.
   */
  lemma {:induction false} NumberAllSpec(n: Nodes, xs: seq<LeafId>)
    ensures Extends(n, NumberAll(n, xs).0)
    ensures forall b :: b in NumberAll(n, xs).0.ids ==> b in n.ids || b in xs
    ensures forall i :: 0 <= i < |xs| ==> xs[i] in NumberAll(n, xs).0.ids && NumberAll(n, xs).1[i] == NumberAll(n, xs).0.ids[xs[i]]
    decreases |xs|
  {
    if xs != [] {
      var k := |xs| - 1;
      NumberAllSpec(n, xs[..k]);
      var front := NumberAll(n, xs[..k]);
      var last := NodeForBit(front.0, xs[k]);
      assert NumberAll(n, xs) == (last.0, front.1 + [last.1]);
      forall b | b in last.0.ids ensures b in n.ids || b in xs {
        if b != xs[k] { assert b in front.0.ids; }
      }
    }
  }

  /** Numbering a list keeps the numbers `0 .. curNum - 1`. */
  lemma {:induction false} NumberAllNumbering(n: Nodes, xs: seq<LeafId>)
    requires Numbering(n)
    ensures Numbering(NumberAll(n, xs).0)
    decreases |xs|
  {
    if xs != [] {
      var k := |xs| - 1;
      NumberAllNumbering(n, xs[..k]);
      NodeForBitNumbering(NumberAll(n, xs[..k]).0, xs[k]);
    }
  }

  /** Numbering two lists one after the other is numbering their concatenation. */
  lemma {:induction false} NumberAllAppend(n: Nodes, xs: seq<LeafId>, ys: seq<LeafId>)
    ensures var a := NumberAll(n, xs); var b := NumberAll(a.0, ys);
      NumberAll(n, xs + ys) == (b.0, a.1 + b.1)
    decreases |ys|
  {
    var a := NumberAll(n, xs);
    if ys == [] {
      assert xs + ys == xs;
      assert a.1 + [] == a.1;
    } else {
      var k := |ys| - 1;
      assert (xs + ys)[..|xs + ys| - 1] == xs + ys[..k];
      NumberAllAppend(n, xs, ys[..k]);
      var c := NumberAll(a.0, ys[..k]);
      var last := NodeForBit(c.0, ys[k]);
      assert NumberAll(n, xs + ys) == (last.0, (a.1 + c.1) + [last.1]);
      assert NumberAll(a.0, ys) == (last.0, c.1 + [last.1]);
      assert (a.1 + c.1) + [last.1] == a.1 + (c.1 + [last.1]);
    }
  }

  /** Leaves that already have numbers get them again and the memo is left as it was. */
  lemma {:induction false} NumberAllKnown(n: Nodes, xs: seq<LeafId>)
    requires forall i :: 0 <= i < |xs| ==> xs[i] in n.ids
    ensures NumberAll(n, xs).0 == n
    ensures forall i :: 0 <= i < |xs| ==> NumberAll(n, xs).1[i] == n.ids[xs[i]]
    decreases |xs|
  {
    if xs != [] {
      NumberAllKnown(n, xs[..|xs| - 1]);
    }
  }

  /**
   * `convert_bundle(nodes, b)`: a bit gives its number; a product concatenates
   * its fields', list fields in order and dict fields by sorted name, which
   * is the order a canonical named product keeps them in.
   */
  function ConvertBundle(n: Nodes, b: Bundle): (r: (Nodes, seq<nat>))
    decreases b, 1
  {
    match b
    case Bit(x) =>
      var r := NodeForBit(n, x);
      (r.0, [r.1])
    case ListProduct(fs) => ConvertFields(n, b, |fs|)
    case DictProduct(_, fs) => ConvertFields(n, b, |fs|)
  }

  /** `sum([convert_bundle(nodes, subb) for subb in ...], [])` over the first `k` fields, converted left to right with the memo threaded through. */
  function ConvertFields(n: Nodes, b: Bundle, k: nat): (Nodes, seq<nat>)
    requires !b.Bit? && k <= |b.fields|
    decreases b, 0, k
  {
    if k == 0 then (n, [])
    else
      var front := ConvertFields(n, b, k - 1);
      var last := ConvertBundle(front.0, b.fields[k - 1]);
      (last.0, front.1 + last.1)
  }

  /** Converting a bundle numbers its leaves in order, as `NumberAll` does. */
  lemma {:induction false} ConvertIsNumbering(n: Nodes, b: Bundle)
    ensures ConvertBundle(n, b) == NumberAll(n, Leaves(b))
    decreases b, 1
  {
    if b.Bit? {
      var r := NodeForBit(n, b.leaf);
      assert Leaves(b) == [b.leaf];
      assert [b.leaf][..0] == [];
      assert ConvertBundle(n, b) == (r.0, [r.1]);
      assert NumberAll(n, []) == (n, []);
      assert NumberAll(n, [b.leaf]) == (r.0, [] + [r.1]);
      assert [] + [r.1] == [r.1];
    } else {
      ConvertFieldsIsNumbering(n, b, |b.fields|);
    }
  }

  lemma {:induction false} ConvertFieldsIsNumbering(n: Nodes, b: Bundle, k: nat)
    requires !b.Bit? && k <= |b.fields|
    ensures ConvertFields(n, b, k) == NumberAll(n, LeavesOf(b, k))
    decreases b, 0, k
  {
    if k > 0 {
      ConvertFieldsIsNumbering(n, b, k - 1);
      var front := ConvertFields(n, b, k - 1);
      ConvertIsNumbering(front.0, b.fields[k - 1]);
      NumberAllAppend(n, LeavesOf(b, k - 1), Leaves(b.fields[k - 1]));
    }
  }

  /**
   * `convert_bundle` gives one number per leaf, `b.type().size()` of them;
   * position `i` carries the number leaf `i` ends up with; numbers already
   * given stand; and the numbers stay `0 .. curNum - 1`.
   */
  lemma ConvertBundleSpec(n: Nodes, b: Bundle)
    ensures |ConvertBundle(n, b).1| == |Leaves(b)| == Size(TypeOf(b))
    ensures Extends(n, ConvertBundle(n, b).0)
    ensures forall x :: x in ConvertBundle(n, b).0.ids ==> x in n.ids || x in Leaves(b)
    ensures forall i :: 0 <= i < |Leaves(b)| ==> Leaves(b)[i] in ConvertBundle(n, b).0.ids && ConvertBundle(n, b).1[i] == ConvertBundle(n, b).0.ids[Leaves(b)[i]]
    ensures Numbering(n) ==> Numbering(ConvertBundle(n, b).0)
  {
    ConvertIsNumbering(n, b);
    NumberAllSpec(n, Leaves(b));
    if Numbering(n) { NumberAllNumbering(n, Leaves(b)); }
    LeafCount(b);
  }

  /** Converting the same bundle again gives the same numbers and leaves the memo as it was. */
  lemma ConvertAgain(n: Nodes, b: Bundle)
    ensures ConvertBundle(ConvertBundle(n, b).0, b) == ConvertBundle(n, b)
  {
    var m := ConvertBundle(n, b);
    ConvertIsNumbering(n, b);
    NumberAllSpec(n, Leaves(b));
    ConvertIsNumbering(m.0, b);
    NumberAllKnown(m.0, Leaves(b));
    assert NumberAll(m.0, Leaves(b)).1 == m.1;
  }

  /** `sum([convert_bundle(nodes, subb) for subb in bs], [])`: the bundles converted left to right with the memo threaded through. */
  function ConvertList(n: Nodes, bs: seq<Bundle>): (Nodes, seq<nat>)
    decreases |bs|
  {
    if bs == [] then (n, [])
    else
      var front := ConvertList(n, bs[..|bs| - 1]);
      var last := ConvertBundle(front.0, bs[|bs| - 1]);
      (last.0, front.1 + last.1)
  }

  /** Converting the first `k` fields of a product is converting the list of those fields. */
  lemma {:induction false} ConvertFieldsList(n: Nodes, b: Bundle, k: nat)
    requires !b.Bit? && k <= |b.fields|
    ensures ConvertFields(n, b, k) == ConvertList(n, b.fields[..k])
    decreases k
  {
    if k > 0 {
      ConvertFieldsList(n, b, k - 1);
      assert b.fields[..k][..k - 1] == b.fields[..k - 1];
    }
  }

  /**
   * `convert_bundle` on `bundle.DictProduct(**m)` converts the fields in
   * the order `sorted(m.items())` lists them, so the keyword order the
   * product was built with makes no difference.
   */
  lemma ConvertDict(n: Nodes, m: map<string, Bundle>)
    ensures ConvertBundle(n, DictBundle(m)) == ConvertList(n, Values(m, SortedKeys(m.Keys)))
  {
    var b := DictBundle(m);
    ConvertFieldsList(n, b, |b.fields|);
    assert b.fields[..|b.fields|] == b.fields;
  }

  /** Every canonical named product is flattened in the order `sorted(b.fields.items())` gives its fields. */
  lemma ConvertCanonicalDict(n: Nodes, b: Bundle)
    requires CanonicalBundle(b) && b.DictProduct?
    ensures var m := ZipMap(b.names, b.fields); ConvertBundle(n, b) == ConvertList(n, Values(m, SortedKeys(m.Keys)))
  {
    CanonicalIsDictBundle(b);
    ConvertDict(n, ZipMap(b.names, b.fields));
  }

  /** Why `serialize_context` raises. */
  datatype SerializeError =
    | LengthMismatch(startLength: nat, endLength: nat)
    | InvalidGate(kind: Kind)
    | NoToplevel

  /** `zip(start_bundle, end_bundle)` of two lists of the same length, as `[a, b]` pairs. */
  function Zip(s: seq<nat>, e: seq<nat>): (ps: seq<(nat, nat)>)
    requires |s| == |e|
    ensures |ps| == |s| && forall i :: 0 <= i < |s| ==> ps[i] == (s[i], e[i])
  {
    seq(|s|, i requires 0 <= i < |s| => (s[i], e[i]))
  }

  /** `serialize_connection`: both sides converted, start first; sides of different lengths fail the assertion; otherwise the numbers are paired by position. */
  function SerializeConnection(n: Nodes, c: Connection): Result<(Nodes, seq<(nat, nat)>), SerializeError>
  {
    var s := ConvertBundle(n, c.start);
    var e := ConvertBundle(s.0, c.end);
    if |s.1| != |e.1| then Err(LengthMismatch(|s.1|, |e.1|))
    else Ok((e.0, Zip(s.1, e.1)))
  }

  /** `sum([serialize_connection(nodes, c) for c in context.connections], [])`: in order, the first failure raising. */
  function SerializeConnections(n: Nodes, cs: seq<Connection>): Result<(Nodes, seq<(nat, nat)>), SerializeError>
    decreases |cs|
  {
    if cs == [] then Ok((n, []))
    else
      var front := SerializeConnections(n, cs[..|cs| - 1]);
      if front.Err? then Err(front.error)
      else
        var last := SerializeConnection(front.value.0, cs[|cs| - 1]);
        if last.Err? then Err(last.error)
        else Ok((last.value.0, front.value.1 + last.value.1))
  }

  /** Every leaf of `b` has a number in `m`. */
  ghost predicate Seen(m: Nodes, b: Bundle)
  {
    forall i :: 0 <= i < |Leaves(b)| ==> Leaves(b)[i] in m.ids
  }

  /** A connection whose sides have as many leaves each. */
  ghost predicate Balanced(c: Connection)
  {
    |Leaves(c.start)| == |Leaves(c.end)|
  }

  /** Both sides of `c` have as many leaves, and all of them have numbers in `m`. */
  ghost predicate Read(m: Nodes, c: Connection)
  {
    Balanced(c) && Seen(m, c.start) && Seen(m, c.end)
  }

  /** Every connection of `cs` is `Read` under `m`. */
  ghost predicate AllRead(m: Nodes, cs: seq<Connection>)
  {
    forall i :: 0 <= i < |cs| ==> Read(m, cs[i])
  }

  /** The pairs a connection stands for under the numbering `m`: leaf `i` of the start with leaf `i` of the end. */
  ghost function LeafPairs(m: Nodes, c: Connection): seq<(nat, nat)>
    requires Read(m, c)
  {
    seq(|Leaves(c.start)|, i requires 0 <= i < |Leaves(c.start)| => (m.ids[Leaves(c.start)[i]], m.ids[Leaves(c.end)[i]]))
  }

  /** The pairs of a list of connections under the numbering `m`, in connection order. */
  ghost function ConnectionsPairs(m: Nodes, cs: seq<Connection>): seq<(nat, nat)>
    requires AllRead(m, cs)
    decreases |cs|
  {
    if cs == [] then []
    else
      AllReadFront(m, cs);
      ConnectionsPairs(m, cs[..|cs| - 1]) + LeafPairs(m, cs[|cs| - 1])
  }

  /** The connections before the last are read when all are. */
  lemma AllReadFront(m: Nodes, cs: seq<Connection>)
    requires AllRead(m, cs) && cs != []
    ensures AllRead(m, cs[..|cs| - 1])
  {
    var front := cs[..|cs| - 1];
    forall i | 0 <= i < |front| ensures Read(m, front[i]) { assert front[i] == cs[i]; }
  }

  /** Reading one more connection after the others reads them all, and adds its pairs after theirs. */
  lemma AllReadSnoc(m: Nodes, cs: seq<Connection>)
    requires cs != [] && AllRead(m, cs[..|cs| - 1]) && Read(m, cs[|cs| - 1])
    ensures AllRead(m, cs)
    ensures ConnectionsPairs(m, cs) == ConnectionsPairs(m, cs[..|cs| - 1]) + LeafPairs(m, cs[|cs| - 1])
  {
    var front := cs[..|cs| - 1];
    forall i | 0 <= i < |front| ensures Read(m, cs[i]) {
      assert cs[i] == front[i];
    }
  }

  /** A numbering that only grows reads the same pairs off connections it had already seen. */
  lemma {:induction false} ConnectionsPairsStable(m: Nodes, m': Nodes, cs: seq<Connection>)
    requires Extends(m, m')
    requires AllRead(m, cs)
    ensures AllRead(m', cs)
    ensures ConnectionsPairs(m', cs) == ConnectionsPairs(m, cs)
    decreases |cs|
  {
    if cs != [] {
      AllReadFront(m, cs);
      ConnectionsPairsStable(m, m', cs[..|cs| - 1]);
      assert Read(m', cs[|cs| - 1]);
      AllReadSnoc(m', cs);
    }
  }

  /** `serialize_connection` fails exactly when the two sides have different numbers of leaves, and reports the two numbers. */
  lemma ConnectionOk(n: Nodes, c: Connection)
    ensures SerializeConnection(n, c).Ok? <==> Balanced(c)
    ensures SerializeConnection(n, c).Err? ==> SerializeConnection(n, c).error == LengthMismatch(|Leaves(c.start)|, |Leaves(c.end)|)
  {
    var s := ConvertBundle(n, c.start);
    ConvertBundleSpec(n, c.start);
    ConvertBundleSpec(s.0, c.end);
  }

  /**
   * When `serialize_connection` succeeds it emits one pair per leaf,
   * pairing the final numbers of the start's and the end's leaves
   * position by position, and numbers given before stand.
   */
  lemma ConnectionRead(n: Nodes, c: Connection)
    requires SerializeConnection(n, c).Ok?
    ensures var m := SerializeConnection(n, c).value.0;
      Extends(n, m) && Read(m, c) &&
      SerializeConnection(n, c).value.1 == LeafPairs(m, c)
  {
    var s := ConvertBundle(n, c.start);
    var e := ConvertBundle(s.0, c.end);
    ConvertBundleSpec(n, c.start);
    ConvertBundleSpec(s.0, c.end);
    var m := e.0;
    assert Extends(n, m);
    assert Seen(m, c.start);
    assert Seen(m, c.end);
    assert Zip(s.1, e.1) == LeafPairs(m, c);
  }

  /** `serialize_connection` keeps the numbers `0 .. curNum - 1`. */
  lemma ConnectionNumbering(n: Nodes, c: Connection)
    requires Numbering(n) && SerializeConnection(n, c).Ok?
    ensures Numbering(SerializeConnection(n, c).value.0)
  {
    var s := ConvertBundle(n, c.start);
    ConvertBundleSpec(n, c.start);
    ConvertBundleSpec(s.0, c.end);
  }

  /** Serialising the connections fails exactly when the sides of some connection have different numbers of leaves. */
  lemma {:induction false} ConnectionsOk(n: Nodes, cs: seq<Connection>)
    ensures SerializeConnections(n, cs).Ok? <==> forall i :: 0 <= i < |cs| ==> Balanced(cs[i])
    decreases |cs|
  {
    if cs != [] {
      var k := |cs| - 1;
      var front := SerializeConnections(n, cs[..k]);
      assert front.Ok? <==> forall i :: 0 <= i < k ==> Balanced(cs[i]) by {
        ConnectionsOk(n, cs[..k]);
        assert forall i :: 0 <= i < k ==> cs[..k][i] == cs[i];
      }
      if front.Ok? {
        assert SerializeConnections(n, cs).Ok? <==> Balanced(cs[k]) by {
          ConnectionOk(front.value.0, cs[k]);
        }
      }
    }
  }

  /**
   * When serialising the connections succeeds, the pairs are those of each
   * connection in turn, read with the final numbering, and numbers given
   * before stand.
   */
  lemma {:induction false} ConnectionsRead(n: Nodes, cs: seq<Connection>)
    requires SerializeConnections(n, cs).Ok?
    ensures var m := SerializeConnections(n, cs).value.0;
      Extends(n, m) &&
      AllRead(m, cs) &&
      SerializeConnections(n, cs).value.1 == ConnectionsPairs(m, cs)
    decreases |cs|
  {
    if cs != [] {
      var k := |cs| - 1;
      var front := SerializeConnections(n, cs[..k]);
      ConnectionsRead(n, cs[..k]);
      var m1 := front.value.0;
      var last := SerializeConnection(m1, cs[k]);
      var m2 := last.value.0;
      ConnectionRead(m1, cs[k]);
      ConnectionsPairsStable(m1, m2, cs[..k]);
      AllReadSnoc(m2, cs);
      ExtendsTransitive(n, m1, m2);
    }
  }

  /** A numbering that extends one that extends `n` extends `n`. */
  lemma ExtendsTransitive(n: Nodes, m1: Nodes, m2: Nodes)
    requires Extends(n, m1) && Extends(m1, m2)
    ensures Extends(n, m2)
  {
  }

  /** Serialising connections keeps the numbers `0 .. curNum - 1`. */
  lemma {:induction false} ConnectionsNumbering(n: Nodes, cs: seq<Connection>)
    requires Numbering(n) && SerializeConnections(n, cs).Ok?
    ensures Numbering(SerializeConnections(n, cs).value.0)
    decreases |cs|
  {
    if cs != [] {
      var k := |cs| - 1;
      ConnectionsNumbering(n, cs[..k]);
      ConnectionNumbering(SerializeConnections(n, cs[..k]).value.0, cs[k]);
    }
  }

  /** A connection's sides have as many leaves each exactly when their types have one size. */
  lemma BalancedIffSameSize(c: Connection)
    ensures Balanced(c) <==> Size(TypeOf(c.start)) == Size(TypeOf(c.end))
  {
    LeafCount(c.start);
    LeafCount(c.end);
  }

  /** Connections made through `connect` have sides of one type, so serialising them never fails. */
  lemma WellTypedConnectionsSerialize(n: Nodes, cs: seq<Connection>)
    requires forall i :: 0 <= i < |cs| ==> TypeOf(cs[i].start) == TypeOf(cs[i].end)
    ensures SerializeConnections(n, cs).Ok?
  {
    assert forall i :: 0 <= i < |cs| ==> Balanced(cs[i]) by {
      forall i | 0 <= i < |cs| ensures Balanced(cs[i]) {
        BalancedIffSameSize(cs[i]);
      }
    }
    ConnectionsOk(n, cs);
  }

  /** One output feeding two inputs: both connections' pairs carry the same source numbers. */
  lemma FanOut(n: Nodes, a: Bundle, b1: Bundle, b2: Bundle)
    requires SerializeConnections(n, [Connection(a, b1), Connection(a, b2)]).Ok?
    ensures var ps := SerializeConnections(n, [Connection(a, b1), Connection(a, b2)]).value.1;
      |ps| == 2 * Size(TypeOf(a)) &&
      forall i :: 0 <= i < Size(TypeOf(a)) ==> ps[i].0 == ps[Size(TypeOf(a)) + i].0
  {
    var cs := [Connection(a, b1), Connection(a, b2)];
    ConnectionsRead(n, cs);
    LeafCount(a);
    var m := SerializeConnections(n, cs).value.0;
    PairsOfTwo(m, cs);
  }

  /** The pairs of two connections are those of the first, then those of the second. */
  lemma PairsOfTwo(m: Nodes, cs: seq<Connection>)
    requires |cs| == 2 && AllRead(m, cs)
    ensures ConnectionsPairs(m, cs) == LeafPairs(m, cs[0]) + LeafPairs(m, cs[1])
  {
    AllReadFront(m, cs);
    var front := cs[..1];
    AllReadFront(m, front);
    assert front[..0] == [];
    assert ConnectionsPairs(m, front) == LeafPairs(m, cs[0]);
  }

  /** The record `serialize_gate` emits: a sub-circuit with its children, or a primitive with its `type`. */
  datatype GateRecord =
    | Subcircuit(inputs: seq<nat>, outputs: seq<nat>, gates: seq<GateRecord>)
    | Primitive(typ: string, inputs: seq<nat>, outputs: seq<nat>)

  /** The `type` a primitive is recorded with, for the four kinds the serializer knows. */
  function PrimitiveName(k: Kind): Option<string>
  {
    match k
    case NandGate => Some("nand")
    case FalseGate => Some("false")
    case TrueGate => Some("true")
    case UnerrorGate => Some("unerror")
    case _ => None
  }

  /**
   * `serialize_gate`: a circuit converts its inputs, then its outputs, then
   * serialises its children in order; the four known primitives convert
   * inputs then outputs; any other gate raises before converting anything.
   */
  function SerializeGate(objs: seq<GateObj>, n: Nodes, g: GateId): Result<(Nodes, GateRecord), SerializeError>
    requires ChildrenAfter(objs) && g < |objs|
    decreases |objs| - g, 1
  {
    var o := objs[g];
    if o.kind.Circuit? then
      var ins := ConvertBundle(n, o.inputs);
      var outs := ConvertBundle(ins.0, o.outputs);
      var kids := SerializeGates(objs, outs.0, o.gates, g);
      if kids.Err? then Err(kids.error)
      else Ok((kids.value.0, Subcircuit(ins.1, outs.1, kids.value.1)))
    else if PrimitiveName(o.kind).Some? then
      var ins := ConvertBundle(n, o.inputs);
      var outs := ConvertBundle(ins.0, o.outputs);
      Ok((outs.0, Primitive(PrimitiveName(o.kind).value, ins.1, outs.1)))
    else Err(InvalidGate(o.kind))
  }

  /** `[serialize_gate(nodes, gate) for gate in gates]`: in order, the first failure raising. */
  function SerializeGates(objs: seq<GateObj>, n: Nodes, gs: seq<GateId>, parent: GateId): Result<(Nodes, seq<GateRecord>), SerializeError>
    requires ChildrenAfter(objs) && parent < |objs|
    requires forall i :: 0 <= i < |gs| ==> parent < gs[i] < |objs|
    decreases |objs| - parent, 0, |gs|
  {
    if gs == [] then Ok((n, []))
    else
      var front := SerializeGates(objs, n, gs[..|gs| - 1], parent);
      if front.Err? then Err(front.error)
      else
        var last := SerializeGate(objs, front.value.0, gs[|gs| - 1]);
        if last.Err? then Err(last.error)
        else Ok((last.value.0, front.value.1 + [last.value.1]))
  }

  /** A gate the serializer accepts: a circuit all of whose children it accepts, or one of the four known primitives. */
  predicate Serializable(objs: seq<GateObj>, g: GateId)
    requires ChildrenAfter(objs) && g < |objs|
    decreases |objs| - g
  {
    if objs[g].kind.Circuit? then forall k :: 0 <= k < |objs[g].gates| ==> Serializable(objs, objs[g].gates[k])
    else PrimitiveName(objs[g].kind).Some?
  }

  /** `serialize_gate` succeeds exactly on the gates whose whole subtree is made of circuits and the four known primitives. */
  lemma {:induction false} GateOk(objs: seq<GateObj>, n: Nodes, g: GateId)
    requires ChildrenAfter(objs) && g < |objs|
    ensures SerializeGate(objs, n, g).Ok? <==> Serializable(objs, g)
    decreases |objs| - g, 1
  {
    var o := objs[g];
    if o.kind.Circuit? {
      var ins := ConvertBundle(n, o.inputs);
      var outs := ConvertBundle(ins.0, o.outputs);
      GatesOk(objs, outs.0, o.gates, g);
    }
  }

  lemma {:induction false} GatesOk(objs: seq<GateObj>, n: Nodes, gs: seq<GateId>, parent: GateId)
    requires ChildrenAfter(objs) && parent < |objs|
    requires forall i :: 0 <= i < |gs| ==> parent < gs[i] < |objs|
    ensures SerializeGates(objs, n, gs, parent).Ok? <==> forall i :: 0 <= i < |gs| ==> Serializable(objs, gs[i])
    decreases |objs| - parent, 0, |gs|
  {
    if gs != [] {
      var k := |gs| - 1;
      var front := SerializeGates(objs, n, gs[..k], parent);
      assert front.Ok? <==> forall i :: 0 <= i < k ==> Serializable(objs, gs[i]) by {
        GatesOk(objs, n, gs[..k], parent);
        assert forall i :: 0 <= i < k ==> gs[..k][i] == gs[i];
      }
      if front.Ok? {
        GateOk(objs, front.value.0, gs[k]);
      }
    }
  }

  /** The numbers `m` gives the leaves of `b`, in order. */
  ghost function Numbers(m: Nodes, b: Bundle): (ns: seq<nat>)
    requires Seen(m, b)
    ensures |ns| == |Leaves(b)|
  {
    seq(|Leaves(b)|, i requires 0 <= i < |Leaves(b)| => m.ids[Leaves(b)[i]])
  }

  /** A numbering that only grows gives a bundle it had seen the same numbers. */
  lemma NumbersStable(m: Nodes, m': Nodes, b: Bundle)
    requires Extends(m, m') && Seen(m, b)
    ensures Seen(m', b) && Numbers(m', b) == Numbers(m, b)
  {
  }

  /** `convert_bundle` gives the numbers of the bundle's leaves under the memo it leaves behind. */
  lemma ConvertReads(n: Nodes, b: Bundle)
    ensures Extends(n, ConvertBundle(n, b).0)
    ensures Seen(ConvertBundle(n, b).0, b) && ConvertBundle(n, b).1 == Numbers(ConvertBundle(n, b).0, b)
  {
    ConvertBundleSpec(n, b);
  }

  /** Every leaf of gate `g` and, for a circuit, of every gate below it has a number in `m`. */
  ghost predicate TreeSeen(objs: seq<GateObj>, m: Nodes, g: GateId)
    requires ChildrenAfter(objs) && g < |objs|
    decreases |objs| - g
  {
    Seen(m, objs[g].inputs) && Seen(m, objs[g].outputs) &&
    (objs[g].kind.Circuit? ==> forall k :: 0 <= k < |objs[g].gates| ==> TreeSeen(objs, m, objs[g].gates[k]))
  }

  /**
   * The record of gate `g` read off the numbering `m`: the numbers of its
   * input and output leaves, then for a circuit the records of its
   * children in order, and for a primitive its `type`.
   */
  ghost function RecordOf(objs: seq<GateObj>, m: Nodes, g: GateId): GateRecord
    requires ChildrenAfter(objs) && g < |objs|
    requires Serializable(objs, g) && TreeSeen(objs, m, g)
    decreases |objs| - g, 1
  {
    var o := objs[g];
    if o.kind.Circuit? then Subcircuit(Numbers(m, o.inputs), Numbers(m, o.outputs), RecordsOf(objs, m, o.gates, g))
    else Primitive(PrimitiveName(o.kind).value, Numbers(m, o.inputs), Numbers(m, o.outputs))
  }

  /** The records of the gates `gs` read off `m`, in order. */
  ghost function RecordsOf(objs: seq<GateObj>, m: Nodes, gs: seq<GateId>, parent: GateId): (rs: seq<GateRecord>)
    requires ChildrenAfter(objs) && parent < |objs|
    requires forall i :: 0 <= i < |gs| ==> parent < gs[i] < |objs| && Serializable(objs, gs[i]) && TreeSeen(objs, m, gs[i])
    decreases |objs| - parent, 0
  {
    seq(|gs|, i requires 0 <= i < |gs| => RecordOf(objs, m, gs[i]))
  }

  /** A numbering that only grows reads the same record off a gate whose leaves it had all seen. */
  lemma {:induction false} RecordStable(objs: seq<GateObj>, m: Nodes, m': Nodes, g: GateId)
    requires ChildrenAfter(objs) && g < |objs| && Serializable(objs, g)
    requires Extends(m, m') && TreeSeen(objs, m, g)
    ensures TreeSeen(objs, m', g) && RecordOf(objs, m', g) == RecordOf(objs, m, g)
    decreases |objs| - g
  {
    var o := objs[g];
    NumbersStable(m, m', o.inputs);
    NumbersStable(m, m', o.outputs);
    if o.kind.Circuit? {
      forall k | 0 <= k < |o.gates| ensures TreeSeen(objs, m', o.gates[k]) && RecordOf(objs, m', o.gates[k]) == RecordOf(objs, m, o.gates[k]) {
        RecordStable(objs, m, m', o.gates[k]);
      }
      assert RecordsOf(objs, m', o.gates, g) == RecordsOf(objs, m, o.gates, g);
    }
  }

  /**
   * `serialize_gate` emits exactly the gate's record read off the memo it
   * leaves behind: its inputs and outputs are the final numbers of its own
   * leaves, a circuit's children are their own records in order, recursively,
   * and numbers given before stand.
   */
  lemma {:induction false} GateRead(objs: seq<GateObj>, n: Nodes, g: GateId)
    requires ChildrenAfter(objs) && g < |objs|
    requires SerializeGate(objs, n, g).Ok?
    ensures Serializable(objs, g)
    ensures var m := SerializeGate(objs, n, g).value.0;
      Extends(n, m) && TreeSeen(objs, m, g) && SerializeGate(objs, n, g).value.1 == RecordOf(objs, m, g)
    decreases |objs| - g, 1
  {
    GateOk(objs, n, g);
    var o := objs[g];
    var ins := ConvertBundle(n, o.inputs);
    var outs := ConvertBundle(ins.0, o.outputs);
    ConvertReads(n, o.inputs);
    ConvertReads(ins.0, o.outputs);
    NumbersStable(ins.0, outs.0, o.inputs);
    if o.kind.Circuit? {
      var kids := SerializeGates(objs, outs.0, o.gates, g);
      GatesRead(objs, outs.0, o.gates, g);
      var m := kids.value.0;
      NumbersStable(outs.0, m, o.inputs);
      NumbersStable(outs.0, m, o.outputs);
      assert TreeSeen(objs, m, g);
    }
  }

  /**
   * Serialising a list of gates emits, in order, each gate's record read
   * off the one memo left at the end, and keeps the numbers given before.
   */
  lemma {:induction false} GatesRead(objs: seq<GateObj>, n: Nodes, gs: seq<GateId>, parent: GateId)
    requires ChildrenAfter(objs) && parent < |objs|
    requires forall i :: 0 <= i < |gs| ==> parent < gs[i] < |objs|
    requires SerializeGates(objs, n, gs, parent).Ok?
    ensures forall i :: 0 <= i < |gs| ==> Serializable(objs, gs[i])
    ensures var m := SerializeGates(objs, n, gs, parent).value.0;
      Extends(n, m) && (forall i :: 0 <= i < |gs| ==> TreeSeen(objs, m, gs[i])) &&
      SerializeGates(objs, n, gs, parent).value.1 == RecordsOf(objs, m, gs, parent)
    decreases |objs| - parent, 0, |gs|
  {
    if gs != [] {
      var k := |gs| - 1;
      var front := gs[..k];
      GatesRead(objs, n, front, parent);
      var m1 := SerializeGates(objs, n, front, parent).value.0;
      GateRead(objs, m1, gs[k]);
      var m := SerializeGate(objs, m1, gs[k]).value.0;
      assert SerializeGates(objs, n, gs, parent).value ==
        (m, SerializeGates(objs, n, front, parent).value.1 + [SerializeGate(objs, m1, gs[k]).value.1]);
      RecordsStable(objs, m1, m, front, parent);
      forall i | 0 <= i < |gs| ensures Serializable(objs, gs[i]) && TreeSeen(objs, m, gs[i]) {
        if i < k {
          assert front[i] == gs[i];
        }
      }
      RecordsSnoc(objs, m, gs, parent);
      ExtendsTransitive(n, m1, m);
    }
  }

  /** A numbering that only grows reads the same records off gates whose leaves it had all seen. */
  lemma RecordsStable(objs: seq<GateObj>, m: Nodes, m': Nodes, gs: seq<GateId>, parent: GateId)
    requires ChildrenAfter(objs) && parent < |objs| && Extends(m, m')
    requires forall i :: 0 <= i < |gs| ==> parent < gs[i] < |objs| && Serializable(objs, gs[i]) && TreeSeen(objs, m, gs[i])
    ensures forall i :: 0 <= i < |gs| ==> TreeSeen(objs, m', gs[i])
    ensures RecordsOf(objs, m', gs, parent) == RecordsOf(objs, m, gs, parent)
  {
    forall i | 0 <= i < |gs| ensures TreeSeen(objs, m', gs[i]) && RecordOf(objs, m', gs[i]) == RecordOf(objs, m, gs[i]) {
      RecordStable(objs, m, m', gs[i]);
    }
  }

  /** The records of all but the last gate, then the last one's, are the records of the whole list. */
  lemma RecordsSnoc(objs: seq<GateObj>, m: Nodes, gs: seq<GateId>, parent: GateId)
    requires ChildrenAfter(objs) && parent < |objs| && gs != []
    requires forall i :: 0 <= i < |gs| ==> parent < gs[i] < |objs| && Serializable(objs, gs[i]) && TreeSeen(objs, m, gs[i])
    ensures RecordsOf(objs, m, gs[..|gs| - 1], parent) + [RecordOf(objs, m, gs[|gs| - 1])] == RecordsOf(objs, m, gs, parent)
  {
    var k := |gs| - 1;
    var front := RecordsOf(objs, m, gs[..k], parent);
    var all := RecordsOf(objs, m, gs, parent);
    forall i | 0 <= i < k ensures front[i] == all[i] {
      assert gs[..k][i] == gs[i];
    }
  }

  /** Serialising a gate keeps the numbers `0 .. curNum - 1`. */
  lemma {:induction false} GateNumbering(objs: seq<GateObj>, n: Nodes, g: GateId)
    requires ChildrenAfter(objs) && g < |objs|
    requires Numbering(n) && SerializeGate(objs, n, g).Ok?
    ensures Numbering(SerializeGate(objs, n, g).value.0)
    decreases |objs| - g, 1
  {
    var o := objs[g];
    var ins := ConvertBundle(n, o.inputs);
    ConvertBundleSpec(n, o.inputs);
    ConvertBundleSpec(ins.0, o.outputs);
    if o.kind.Circuit? {
      GatesNumbering(objs, ConvertBundle(ins.0, o.outputs).0, o.gates, g);
    }
  }

  lemma {:induction false} GatesNumbering(objs: seq<GateObj>, n: Nodes, gs: seq<GateId>, parent: GateId)
    requires ChildrenAfter(objs) && parent < |objs|
    requires forall i :: 0 <= i < |gs| ==> parent < gs[i] < |objs|
    requires Numbering(n) && SerializeGates(objs, n, gs, parent).Ok?
    ensures Numbering(SerializeGates(objs, n, gs, parent).value.0)
    decreases |objs| - parent, 0, |gs|
  {
    if gs != [] {
      var k := |gs| - 1;
      GatesNumbering(objs, n, gs[..k], parent);
      GateNumbering(objs, SerializeGates(objs, n, gs[..k], parent).value.0, gs[k]);
    }
  }

  /**
   * The leaves of a gate in the order the walk meets them: its inputs, its
   * outputs, then for a circuit the leaves of each child in turn.
   */
  function TreeLeaves(objs: seq<GateObj>, g: GateId): seq<LeafId>
    requires ChildrenAfter(objs) && g < |objs|
    decreases |objs| - g, 1
  {
    var o := objs[g];
    Leaves(o.inputs) + Leaves(o.outputs) + (if o.kind.Circuit? then ForestLeaves(objs, o.gates, g) else [])
  }

  /** The leaves of the gates `gs`, one gate after another. */
  function ForestLeaves(objs: seq<GateObj>, gs: seq<GateId>, parent: GateId): seq<LeafId>
    requires ChildrenAfter(objs) && parent < |objs|
    requires forall i :: 0 <= i < |gs| ==> parent < gs[i] < |objs|
    decreases |objs| - parent, 0, |gs|
  {
    if gs == [] then [] else ForestLeaves(objs, gs[..|gs| - 1], parent) + TreeLeaves(objs, gs[|gs| - 1])
  }

  /**
   * `serialize_gate` hands out numbers in pre-order: the gate's inputs,
   * its outputs, then each child's leaves in turn, recursively.
   */
  lemma {:induction false} GateIsNumbering(objs: seq<GateObj>, n: Nodes, g: GateId)
    requires ChildrenAfter(objs) && g < |objs|
    requires SerializeGate(objs, n, g).Ok?
    ensures SerializeGate(objs, n, g).value.0 == NumberAll(n, TreeLeaves(objs, g)).0
    decreases |objs| - g, 1
  {
    var o := objs[g];
    var ins := ConvertBundle(n, o.inputs);
    var outs := ConvertBundle(ins.0, o.outputs);
    ConvertIsNumbering(n, o.inputs);
    ConvertIsNumbering(ins.0, o.outputs);
    NumberAllAppend(n, Leaves(o.inputs), Leaves(o.outputs));
    if o.kind.Circuit? {
      GatesIsNumbering(objs, outs.0, o.gates, g);
      NumberAllAppend(n, Leaves(o.inputs) + Leaves(o.outputs), ForestLeaves(objs, o.gates, g));
    } else {
      assert TreeLeaves(objs, g) == Leaves(o.inputs) + Leaves(o.outputs);
    }
  }

  /** Serialising a list of gates numbers their leaves one gate after another. */
  lemma {:induction false} GatesIsNumbering(objs: seq<GateObj>, n: Nodes, gs: seq<GateId>, parent: GateId)
    requires ChildrenAfter(objs) && parent < |objs|
    requires forall i :: 0 <= i < |gs| ==> parent < gs[i] < |objs|
    requires SerializeGates(objs, n, gs, parent).Ok?
    ensures SerializeGates(objs, n, gs, parent).value.0 == NumberAll(n, ForestLeaves(objs, gs, parent)).0
    decreases |objs| - parent, 0, |gs|
  {
    if gs != [] {
      var k := |gs| - 1;
      GatesIsNumbering(objs, n, gs[..k], parent);
      var m1 := SerializeGates(objs, n, gs[..k], parent).value.0;
      GateIsNumbering(objs, m1, gs[k]);
      NumberAllAppend(n, ForestLeaves(objs, gs[..k], parent), TreeLeaves(objs, gs[k]));
    }
  }

  /** The leaves of the connections `cs` in the order the walk meets them: per connection, start side then end side. */
  function ConnectionsLeaves(cs: seq<Connection>): seq<LeafId>
    decreases |cs|
  {
    if cs == [] then [] else ConnectionsLeaves(cs[..|cs| - 1]) + (Leaves(cs[|cs| - 1].start) + Leaves(cs[|cs| - 1].end))
  }

  /** Serialising the connection list numbers their leaves in connection order, start side before end side. */
  lemma {:induction false} ConnectionsIsNumbering(n: Nodes, cs: seq<Connection>)
    requires SerializeConnections(n, cs).Ok?
    ensures SerializeConnections(n, cs).value.0 == NumberAll(n, ConnectionsLeaves(cs)).0
    decreases |cs|
  {
    if cs != [] {
      var k := |cs| - 1;
      ConnectionsIsNumbering(n, cs[..k]);
      var m1 := SerializeConnections(n, cs[..k]).value.0;
      var c := cs[k];
      ConvertIsNumbering(m1, c.start);
      ConvertIsNumbering(ConvertBundle(m1, c.start).0, c.end);
      NumberAllAppend(m1, Leaves(c.start), Leaves(c.end));
      NumberAllAppend(n, ConnectionsLeaves(cs[..k]), Leaves(c.start) + Leaves(c.end));
    }
  }

  /** What `serialize_context` returns: the connection pairs and the top-level gate records. */
  datatype Netlist = Netlist(connections: seq<(nat, nat)>, toplevelGates: seq<GateRecord>)

  /**
   * `serialize_context(context)`: a fresh memo; the connections first, in
   * order; then the gates of the main circuit. Without a main circuit the
   * iteration over `toplevel_gates` raises.
   */
  function SerializeContext(objs: seq<GateObj>, connections: seq<Connection>, toplevel: Option<GateId>): Result<Netlist, SerializeError>
    requires ChildrenAfter(objs)
    requires toplevel.Some? ==> toplevel.value < |objs|
  {
    var cs := SerializeConnections(Fresh, connections);
    if cs.Err? then Err(cs.error)
    else if toplevel.None? then Err(NoToplevel)
    else
      var top := toplevel.value;
      var gs := SerializeGates(objs, cs.value.0, objs[top].gates, top);
      if gs.Err? then Err(gs.error)
      else Ok(Netlist(cs.value.1, gs.value.1))
  }

  /**
   * `serialize_context` succeeds exactly when every connection's sides have
   * as many leaves, there is a main circuit, and every gate under it is a
   * circuit or one of the four known primitives.
   */
  lemma ContextOk(objs: seq<GateObj>, connections: seq<Connection>, toplevel: Option<GateId>)
    requires ChildrenAfter(objs)
    requires toplevel.Some? ==> toplevel.value < |objs|
    ensures SerializeContext(objs, connections, toplevel).Ok? <==>
      (forall i :: 0 <= i < |connections| ==> Balanced(connections[i])) &&
      toplevel.Some? &&
      forall k :: 0 <= k < |objs[toplevel.value].gates| ==> Serializable(objs, objs[toplevel.value].gates[k])
  {
    ConnectionsOk(Fresh, connections);
    var cs := SerializeConnections(Fresh, connections);
    if cs.Ok? && toplevel.Some? {
      GatesOk(objs, cs.value.0, objs[toplevel.value].gates, toplevel.value);
    }
  }

  /**
   * When `serialize_context` succeeds, one memo, fresh at the start and
   * threaded through the whole walk, ends as a numbering `0 .. k - 1` of
   * the k leaves met; the connection pairs and the top-level gate records
   * are both read off that final numbering, the pairs in connection order
   * and one record per top-level gate, in order. So a leaf has the same
   * number wherever it appears in the output. The numbers are handed out
   * in the order the walk meets the leaves: the connections' first, each
   * start side before its end side, then each top-level gate's in pre-order.
   */
  lemma ContextRead(objs: seq<GateObj>, connections: seq<Connection>, toplevel: Option<GateId>)
    requires ChildrenAfter(objs)
    requires toplevel.Some? ==> toplevel.value < |objs|
    requires SerializeContext(objs, connections, toplevel).Ok?
    ensures toplevel.Some? && SerializeConnections(Fresh, connections).Ok?
    ensures var top := toplevel.value; var m := SerializeConnections(Fresh, connections).value.0;
      SerializeGates(objs, m, objs[top].gates, top).Ok? &&
      forall k :: 0 <= k < |objs[top].gates| ==> Serializable(objs, objs[top].gates[k])
    ensures var top := toplevel.value; var m := SerializeConnections(Fresh, connections).value.0;
      var mF := SerializeGates(objs, m, objs[top].gates, top).value.0;
      var net := SerializeContext(objs, connections, toplevel).value;
      Numbering(mF) && Extends(m, mF) && AllRead(mF, connections) &&
      (forall k :: 0 <= k < |objs[top].gates| ==> TreeSeen(objs, mF, objs[top].gates[k])) &&
      net.connections == ConnectionsPairs(mF, connections) &&
      net.toplevelGates == RecordsOf(objs, mF, objs[top].gates, top)
    ensures var top := toplevel.value; var m := SerializeConnections(Fresh, connections).value.0;
      SerializeGates(objs, m, objs[top].gates, top).value.0 ==
        NumberAll(Fresh, ConnectionsLeaves(connections) + ForestLeaves(objs, objs[top].gates, top)).0
  {
    var top := toplevel.value;
    ConnectionsRead(Fresh, connections);
    ConnectionsNumbering(Fresh, connections);
    var m := SerializeConnections(Fresh, connections).value.0;
    GatesRead(objs, m, objs[top].gates, top);
    GatesNumbering(objs, m, objs[top].gates, top);
    var mF := SerializeGates(objs, m, objs[top].gates, top).value.0;
    ConnectionsPairsStable(m, mF, connections);
    ConnectionsIsNumbering(Fresh, connections);
    GatesIsNumbering(objs, m, objs[top].gates, top);
    NumberAllAppend(Fresh, ConnectionsLeaves(connections), ForestLeaves(objs, objs[top].gates, top));
  }

  /** A context built with `connect` and the older builder's gates serialises without error once a main circuit is set. */
  lemma LegacyContextSerializes(objs: seq<GateObj>, connections: seq<Connection>, top: GateId)
    requires ChildrenAfter(objs) && top < |objs|
    requires forall i :: 0 <= i < |connections| ==> TypeOf(connections[i].start) == TypeOf(connections[i].end)
    requires forall g :: top < g < |objs| ==> objs[g].kind.Circuit? || PrimitiveName(objs[g].kind).Some?
    ensures SerializeContext(objs, connections, Some(top)).Ok?
  {
    WellTypedConnectionsSerialize(Fresh, connections);
    ConnectionsOk(Fresh, connections);
    forall k | 0 <= k < |objs[top].gates| ensures Serializable(objs, objs[top].gates[k]) {
      AllSerializable(objs, top, objs[top].gates[k]);
    }
    ContextOk(objs, connections, Some(top));
  }

  /** Every gate after `top` is accepted when all of them are circuits or known primitives. */
  lemma {:induction false} AllSerializable(objs: seq<GateObj>, top: GateId, g: GateId)
    requires ChildrenAfter(objs) && top < g < |objs|
    requires forall h :: top < h < |objs| ==> objs[h].kind.Circuit? || PrimitiveName(objs[h].kind).Some?
    ensures Serializable(objs, g)
    decreases |objs| - g
  {
    if objs[g].kind.Circuit? {
      forall k | 0 <= k < |objs[g].gates| ensures Serializable(objs, objs[g].gates[k]) {
        AllSerializable(objs, top, objs[g].gates[k]);
      }
    }
  }
}
