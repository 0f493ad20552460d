/**
 * Bundles: trees of wire handles shaped like a type. A `Bit` leaf is an
 * object whose identity is the wire; here that identity is a number drawn
 * from a counter that never hands out the same number twice.
 */
module Bundles {
  import opened Wrappers
  import opened Names
  import opened Seqs
  import opened Types

  /** The identity of one `bundle.Bit` object. */
  type LeafId = nat

  /** A bundle; a named product is kept in canonical form, as `Ty.DictProduct` is. */
  datatype Bundle = Bit(leaf: LeafId) | ListProduct(fields: seq<Bundle>) | DictProduct(names: seq<string>, fields: seq<Bundle>)

  /** `b.type()`: the type with the same shape, field order and field names. */
  function TypeOf(b: Bundle): (t: Ty)
  {
    match b
    case Bit(_) => Ty.Bit
    case ListProduct(fs) => Ty.ListProduct(TypesOf(b, fs))
    case DictProduct(ns, fs) => Ty.DictProduct(ns, TypesOf(b, fs))
  }

  /** The types of the fields `fs` of `b`, position by position. */
  function TypesOf(b: Bundle, fs: seq<Bundle>): (ts: seq<Ty>)
    requires !b.Bit? && fs == b.fields
    ensures |ts| == |fs| && forall i :: 0 <= i < |fs| ==> ts[i] == TypeOf(fs[i])
    decreases b, 0
  {
    seq(|fs|, i requires 0 <= i < |fs| => TypeOf(fs[i]))
  }

  /** The sub-bundles in the order a flattening visits them: declared order, or ascending name. */
  function Children(b: Bundle): seq<Bundle>
  {
    if b.Bit? then [] else b.fields
  }

  /** The leaf identities of a bundle, list fields in declared order and dict fields by ascending name. */
  function Leaves(b: Bundle): seq<LeafId>
    decreases b, 1
  {
    if b.Bit? then [b.leaf] else LeavesOf(b, |b.fields|)
  }

  /** The leaves of the first `k` fields of `b`, one field after another. */
  function LeavesOf(b: Bundle, k: nat): seq<LeafId>
    requires !b.Bit? && k <= |b.fields|
    decreases b, 0, k
  {
    if k == 0 then [] else LeavesOf(b, k - 1) + Leaves(b.fields[k - 1])
  }

  /** The number of leaves of a bundle is the size of its type. */
  lemma {:induction false} LeafCount(b: Bundle)
    ensures |Leaves(b)| == Size(TypeOf(b))
    decreases b, 1
  {
    if !b.Bit? {
      LeafCountUpTo(b, |b.fields|);
    }
  }

  lemma {:induction false} LeafCountUpTo(b: Bundle, k: nat)
    requires !b.Bit? && k <= |b.fields|
    ensures |LeavesOf(b, k)| == SizeUpTo(TypeOf(b), k)
    decreases b, 0, k
  {
    if k > 0 {
      LeafCountUpTo(b, k - 1);
      LeafCount(b.fields[k - 1]);
    }
  }

  /**
   * `t.make_bundle()`: a bundle of the shape of `t` whose leaves are fresh
   * identities `next`, `next + 1`, ... allocated field after field, list
   * fields in declared order and dict fields by ascending name.
   */
  function MakeBundle(t: Ty, next: LeafId): (b: Bundle)
    ensures t.Bit? <==> b.Bit?
    ensures t.ListProduct? <==> b.ListProduct?
    ensures t.DictProduct? ==> b.DictProduct? && b.names == t.names
    ensures !t.Bit? ==> |b.fields| == |t.fields|
    decreases t, 1
  {
    match t
    case Bit => Bundle.Bit(next)
    case ListProduct(fs) => Bundle.ListProduct(MakeFields(t, next, |fs|))
    case DictProduct(ns, fs) => Bundle.DictProduct(ns, MakeFields(t, next, |fs|))
  }

  /** The bundles for the first `k` fields of `t`, one after another, allocated from `next` on. */
  function MakeFields(t: Ty, next: LeafId, k: nat): (bs: seq<Bundle>)
    requires !t.Bit? && k <= |t.fields|
    ensures |bs| == k
    decreases t, 0, k
  {
    if k == 0 then []
    else MakeFields(t, next, k - 1) + [MakeBundle(t.fields[k - 1], next + SizeUpTo(t, k - 1))]
  }

  /** Field `i` is made of the block of identities after those of the fields before it. */
  lemma {:induction false} MakeFieldsAt(t: Ty, next: LeafId, k: nat, i: nat)
    requires !t.Bit? && i < k <= |t.fields|
    ensures MakeFields(t, next, k)[i] == MakeBundle(t.fields[i], next + SizeUpTo(t, i))
    decreases k
  {
    if i < k - 1 {
      MakeFieldsAt(t, next, k - 1, i);
    }
  }

  /** Field `i` of `t.make_bundle()` is field `i` of `t` made from the identities after those of the fields before it. */
  lemma MadeField(t: Ty, next: LeafId, i: nat)
    requires !t.Bit? && i < |t.fields|
    ensures MakeBundle(t, next).fields[i] == MakeBundle(t.fields[i], next + SizeUpTo(t, i))
  {
    MakeFieldsAt(t, next, |t.fields|, i);
  }

  /**
   * Round trip: the leaves of `t.make_bundle()`, in flattening order, are
   * the `Size(t)` identities from `next` on.
   */
  lemma {:induction false} LeavesOfMakeBundle(t: Ty, next: LeafId)
    ensures Leaves(MakeBundle(t, next)) == Range(next, Size(t))
    decreases t, 1
  {
    if !t.Bit? {
      LeavesOfMade(t, next, |t.fields|);
    }
  }

  lemma {:induction false} LeavesOfMade(t: Ty, next: LeafId, k: nat)
    requires !t.Bit? && k <= |t.fields|
    ensures LeavesOf(MakeBundle(t, next), k) == Range(next, SizeUpTo(t, k))
    decreases t, 0, k
  {
    if k > 0 {
      var f, a := t.fields[k - 1], SizeUpTo(t, k - 1);
      LeavesOfMade(t, next, k - 1);
      MadeField(t, next, k - 1);
      LeavesOfMakeBundle(f, next + a);
      LeavesStep(MakeBundle(t, next), k, next, a, Size(f));
    } else {
      assert LeavesOf(MakeBundle(t, next), 0) == [];
    }
  }

  /** Appending field `k - 1`'s block of identities to the blocks before it. */
  lemma LeavesStep(b: Bundle, k: nat, start: nat, a: nat, c: nat)
    requires !b.Bit? && 0 < k <= |b.fields|
    requires LeavesOf(b, k - 1) == Range(start, a)
    requires Leaves(b.fields[k - 1]) == Range(start + a, c)
    ensures LeavesOf(b, k) == Range(start, a + c)
  {
    RangesJoin(start, a, c);
  }

  /** Round trip: `t.make_bundle().type() == t`. */
  lemma {:induction false} TypeOfMakeBundle(t: Ty, next: LeafId)
    ensures TypeOf(MakeBundle(t, next)) == t
    decreases t
  {
    if !t.Bit? {
      var b := MakeBundle(t, next);
      forall i | 0 <= i < |t.fields| ensures TypeOf(b.fields[i]) == t.fields[i] {
        MadeField(t, next, i);
        TypeOfMakeBundle(t.fields[i], next + SizeUpTo(t, i));
      }
      assert TypeOf(b).fields == t.fields;
    }
  }

  /** A product of two bits is made of the next two leaves. */
  lemma MakeTwoBits(t: Ty, next: LeafId)
    requires !t.Bit? && t.fields == [Ty.Bit, Ty.Bit]
    ensures MakeBundle(t, next).fields == [Bundle.Bit(next), Bundle.Bit(next + 1)]
  {
    MakeFieldsAt(t, next, 2, 0);
    MakeFieldsAt(t, next, 2, 1);
    assert SizeUpTo(t, 1) == 1;
  }

  /**
   * `make_bundle` allocates a new leaf for every `Bit`: the leaves are
   * pairwise distinct, there are `Size(t)` of them, and all lie in
   * `[next, next + Size(t))`, so a later call starting from
   * `next + Size(t)` shares none of them.
   */
  lemma MakeBundleFresh(t: Ty, next: LeafId)
    ensures |Leaves(MakeBundle(t, next))| == Size(t)
    ensures forall i, j :: 0 <= i < j < Size(t) ==> Leaves(MakeBundle(t, next))[i] != Leaves(MakeBundle(t, next))[j]
    ensures forall x :: x in Leaves(MakeBundle(t, next)) ==> next <= x < next + Size(t)
  {
    LeavesOfMakeBundle(t, next);
    var r := Range(next, Size(t));
    forall i | 0 <= i < Size(t) ensures r[i] == next + i { RangeAt(next, Size(t), i); }
  }

  /**
   * The canonical form of a bundle, as `Types.Canonical` is for types: a
   * named product has one field per name and its names strictly ascending.
   */
  predicate CanonicalBundle(b: Bundle)
    decreases b
  {
    match b
    case Bit(_) => true
    case ListProduct(fs) => forall i :: 0 <= i < |fs| ==> CanonicalBundle(fs[i])
    case DictProduct(ns, fs) => |ns| == |fs| && Ascending(ns) && forall i :: 0 <= i < |fs| ==> CanonicalBundle(fs[i])
  }

  /** `bundle.DictProduct(**m)`: the named product holding `m[k]` under each name `k`, in canonical form. */
  function DictBundle(m: map<string, Bundle>): (b: Bundle)
    ensures b.DictProduct? && |b.names| == |b.fields| == |m|
    ensures forall k :: k in b.names <==> k in m
    ensures forall i :: 0 <= i < |b.names| ==> b.fields[i] == m[b.names[i]]
  {
    var ks := SortedKeys(m.Keys);
    Bundle.DictProduct(ks, Values(m, ks))
  }

  /** `bundle.DictProduct(**m)` of canonical fields is canonical. */
  lemma DictBundleCanonical(m: map<string, Bundle>)
    requires forall k :: k in m ==> CanonicalBundle(m[k])
    ensures CanonicalBundle(DictBundle(m))
  {
    SortedKeysAscending(m.Keys);
  }

  /** A canonical named bundle is `bundle.DictProduct(**fields)` of its own field dict. */
  lemma CanonicalIsDictBundle(b: Bundle)
    requires CanonicalBundle(b) && b.DictProduct?
    ensures b == DictBundle(ZipMap(b.names, b.fields))
  {
    AscendingDistinct(b.names);
    ZipMapValues(b.names, b.fields);
    AscendingIsSorted(b.names);
  }

  /** `b.type()` of a canonical bundle is a canonical type. */
  lemma {:induction false} TypeOfCanonical(b: Bundle)
    requires CanonicalBundle(b)
    ensures Canonical(TypeOf(b))
    decreases b
  {
    if !b.Bit? {
      forall i | 0 <= i < |b.fields| ensures Canonical(TypeOf(b).fields[i]) {
        TypeOfCanonical(b.fields[i]);
      }
    }
  }

  /** `{name: field.type() for (name, field) in m.items()}`. */
  function FieldTypes(m: map<string, Bundle>): (mt: map<string, Ty>)
    ensures mt.Keys == m.Keys
    ensures forall k :: k in m ==> mt[k] == TypeOf(m[k])
  {
    map k | k in m :: TypeOf(m[k])
  }

  /** `DictProduct(**fields).type()` is `ty.DictProduct(**{name: field.type()})`. */
  lemma TypeOfDictBundle(m: map<string, Bundle>)
    ensures TypeOf(DictBundle(m)) == Dict(FieldTypes(m))
  {
    var mt := FieldTypes(m);
    var b, t := DictBundle(m), Dict(mt);
    var tb := TypeOf(b);
    assert tb.names == b.names == t.names;
    forall i | 0 <= i < |t.fields| ensures tb.fields[i] == t.fields[i] {
      assert tb.fields[i] == TypeOf(b.fields[i]);
      assert t.fields[i] == mt[t.names[i]];
    }
    assert tb.fields == t.fields;
  }

  /** `t.make_bundle()` of a canonical type is a canonical bundle. */
  lemma {:induction false} MakeBundleCanonical(t: Ty, next: LeafId)
    requires Canonical(t)
    ensures CanonicalBundle(MakeBundle(t, next))
    decreases t
  {
    if !t.Bit? {
      forall i | 0 <= i < |t.fields| ensures CanonicalBundle(MakeBundle(t, next).fields[i]) {
        MadeField(t, next, i);
        MakeBundleCanonical(t.fields[i], next + SizeUpTo(t, i));
      }
    }
  }

  /** The key of `bundle[key]`: a position into a list product, or a field name of a dict product. */
  datatype Key = Index(i: int) | Name(name: string)

  /** The first position of `name` in `ns`, if any. */
  function Find(ns: seq<string>, name: string): (r: Option<nat>)
    ensures r.Some? <==> name in ns
    ensures r.Some? ==> r.value < |ns| && ns[r.value] == name && name !in ns[..r.value]
  {
    if ns == [] then None
    else if ns[0] == name then Some(0)
    else match Find(ns[1..], name)
      case None => None
      case Some(i) => assert ns[1..][..i] == ns[1..i + 1]; Some(i + 1)
  }

  /**
   * `b[key]`: the stored sub-bundle itself. A list product takes Python
   * indices, negative ones counting from the end; a dict product takes its
   * field names. Anything else raises (`None`).
   */
  function GetItem(b: Bundle, key: Key): (r: Option<Bundle>)
    requires b.DictProduct? ==> |b.names| == |b.fields|
    ensures r.Some? <==>
      (b.ListProduct? && key.Index? && -|b.fields| <= key.i < |b.fields|) ||
      (b.DictProduct? && key.Name? && key.name in b.names)
    ensures b.ListProduct? && r.Some? ==> r.value == b.fields[if key.i < 0 then |b.fields| + key.i else key.i]
    ensures b.DictProduct? && r.Some? ==> exists i :: 0 <= i < |b.names| && b.names[i] == key.name && r.value == b.fields[i]
  {
    match b
    case Bit(_) => None
    case ListProduct(fs) =>
      if key.Index? && 0 <= key.i < |fs| then Some(fs[key.i])
      else if key.Index? && -|fs| <= key.i < 0 then Some(fs[|fs| + key.i])
      else None
    case DictProduct(ns, fs) =>
      if key.Name? then
        match Find(ns, key.name)
        case Some(i) => Some(fs[i])
        case None => None
      else None
  }
}
