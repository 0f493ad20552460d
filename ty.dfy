/**
 * Wire types: a single wire (`Bit`), an ordered product (`ListProduct`) or a
 * named product (`DictProduct`).
 */
module Types {
  import opened Names
  import opened Seqs

  /**
   * A wire type. A named product is kept in its canonical form: its field
   * names in ascending order, and the field types in the same order. Python
   * compares two dicts as maps, so the order in which keyword fields were
   * supplied is not part of the value; `Dict` builds the canonical form.
   */
  datatype Ty = Bit | ListProduct(fields: seq<Ty>) | DictProduct(names: seq<string>, fields: seq<Ty>)

  /** `DictProduct(**m)`: the named product whose field under each name of `m` is the type `m` gives it. */
  function Dict(m: map<string, Ty>): (t: Ty)
    ensures t.DictProduct? && |t.names| == |t.fields| == |m|
    ensures forall k :: k in t.names <==> k in m
    ensures forall i :: 0 <= i < |t.names| ==> t.fields[i] == m[t.names[i]]
  {
    var ks := SortedKeys(m.Keys);
    DictProduct(ks, Values(m, ks))
  }

  /** The names of a named product built from a dict are in strictly ascending order: the canonical form. */
  lemma DictAscending(m: map<string, Ty>)
    ensures forall i, j :: 0 <= i < j < |Dict(m).names| ==> Below(Dict(m).names[i], Dict(m).names[j])
  {
    SortedKeysAscending(m.Keys);
  }

  /** Two named products built from dicts are the same value exactly when the dicts are equal. */
  lemma DictEqual(m1: map<string, Ty>, m2: map<string, Ty>)
    ensures Dict(m1) == Dict(m2) <==> m1 == m2
  {
    if Dict(m1) == Dict(m2) {
      DictKeys(m1, m2);
      forall k | k in m1 ensures m1[k] == m2[k] {
        DictValue(m1, m2, k);
      }
    }
  }

  lemma DictKeys(m1: map<string, Ty>, m2: map<string, Ty>)
    requires Dict(m1) == Dict(m2)
    ensures m1.Keys == m2.Keys
  {
    forall k ensures k in m1 <==> k in m2 {
      assert k in m1 <==> k in Dict(m1).names;
    }
  }

  lemma DictValue(m1: map<string, Ty>, m2: map<string, Ty>, k: string)
    requires Dict(m1) == Dict(m2) && k in m1 && k in m2
    ensures m1[k] == m2[k]
  {
    var t := Dict(m1);
    var i :| 0 <= i < |t.names| && t.names[i] == k;
    assert t.fields[i] == m1[k];
  }

  /**
   * The canonical form at every depth: a named product has one field per
   * name and its names strictly ascending. Every type a Python program can
   * build has exactly one canonical value (`CanonicalIsDict`).
   */
  predicate Canonical(t: Ty)
    decreases t
  {
    match t
    case Bit => true
    case ListProduct(fs) => forall i :: 0 <= i < |fs| ==> Canonical(fs[i])
    case DictProduct(ns, fs) => |ns| == |fs| && Ascending(ns) && forall i :: 0 <= i < |fs| ==> Canonical(fs[i])
  }

  /** `DictProduct(**m)` of canonical field types is canonical. */
  lemma DictCanonical(m: map<string, Ty>)
    requires forall k :: k in m ==> Canonical(m[k])
    ensures Canonical(Dict(m))
  {
    SortedKeysAscending(m.Keys);
  }

  /** A canonical named product is `DictProduct(**fields)` of its own field dict: keyword order leaves no trace. */
  lemma CanonicalIsDict(t: Ty)
    requires Canonical(t) && t.DictProduct?
    ensures t == Dict(ZipMap(t.names, t.fields))
  {
    AscendingDistinct(t.names);
    ZipMapValues(t.names, t.fields);
    AscendingIsSorted(t.names);
  }

  /** Two canonical named products are the same value exactly when their field dicts are equal, as Python compares them. */
  lemma CanonicalEqual(a: Ty, b: Ty)
    requires Canonical(a) && Canonical(b) && a.DictProduct? && b.DictProduct?
    ensures a == b <==> ZipMap(a.names, a.fields) == ZipMap(b.names, b.fields)
  {
    CanonicalIsDict(a);
    CanonicalIsDict(b);
    DictEqual(ZipMap(a.names, a.fields), ZipMap(b.names, b.fields));
  }

  /**
   * Python's `__eq__`: a `Bit` equals only a `Bit`; list products compare
   * their field tuples position by position; dict products compare their
   * field dicts, which on canonical forms means the same names and equal
   * types under each of them.
   */
  predicate Equal(a: Ty, b: Ty)
    decreases a
  {
    match a
    case Bit => b.Bit?
    case ListProduct(fs) =>
      b.ListProduct? && |fs| == |b.fields| &&
      forall i :: 0 <= i < |fs| ==> Equal(fs[i], b.fields[i])
    case DictProduct(ns, fs) =>
      b.DictProduct? && ns == b.names && |fs| == |b.fields| &&
      forall i :: 0 <= i < |fs| ==> Equal(fs[i], b.fields[i])
  }

  /** Python's equality of types is exactly structural equality of the values. */
  lemma {:induction false} EqualIsStructural(a: Ty, b: Ty)
    ensures Equal(a, b) <==> a == b
    decreases a
  {
    if !a.Bit? && !b.Bit? && |a.fields| == |b.fields| {
      forall i | 0 <= i < |a.fields| ensures Equal(a.fields[i], b.fields[i]) <==> a.fields[i] == b.fields[i] {
        EqualIsStructural(a.fields[i], b.fields[i]);
      }
      if Equal(a, b) {
        assert a.fields == b.fields;
      }
    }
  }

  /** The fields of a type in the order a flattening visits them: declared order, or ascending name. */
  function Fields(t: Ty): seq<Ty>
  {
    if t.Bit? then [] else t.fields
  }

  /** `t.size()`: the number of `Bit` leaves reachable in a type. */
  function Size(t: Ty): nat
    decreases t, 1
  {
    if t.Bit? then 1 else SizeUpTo(t, |t.fields|)
  }

  /** The number of leaves in the first `k` fields of `t`, in flattening order. */
  function SizeUpTo(t: Ty, k: nat): nat
    requires !t.Bit? && k <= |t.fields|
    decreases t, 0, k
  {
    if k == 0 then 0 else SizeUpTo(t, k - 1) + Size(t.fields[k - 1])
  }

  /** The sizes of a sequence of types, position by position. */
  function Sizes(fs: seq<Ty>): (ss: seq<nat>)
    ensures |ss| == |fs| && forall i :: 0 <= i < |fs| ==> ss[i] == Size(fs[i])
  {
    seq(|fs|, i requires 0 <= i < |fs| => Size(fs[i]))
  }

  lemma {:induction false} SizeUpToSum(t: Ty, k: nat)
    requires !t.Bit? && k <= |t.fields|
    ensures SizeUpTo(t, k) == Sum(Sizes(t.fields)[..k])
    decreases k
  {
    if k > 0 {
      SizeUpToSum(t, k - 1);
      SumStep(Sizes(t.fields), k);
    }
  }

  /** The size of a product is the sum of the sizes of its fields; an empty product has size 0. */
  lemma SizeOfProduct(t: Ty)
    requires !t.Bit?
    ensures Size(t) == Sum(Sizes(t.fields))
    ensures t.fields == [] ==> Size(t) == 0
  {
    SizeUpToSum(t, |t.fields|);
    assert Sizes(t.fields)[..|t.fields|] == Sizes(t.fields);
  }

  /** A product of two bits has size 2. */
  lemma SizeOfTwoBits(t: Ty)
    requires !t.Bit? && t.fields == [Ty.Bit, Ty.Bit]
    ensures Size(t) == 2
  {
    assert SizeUpTo(t, 1) == 1;
  }
}
