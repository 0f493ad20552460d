/** Sums, concatenations and ranges of sequences, as Python's `sum` builds them. */
module Seqs {

  /** Python's `sum` of a list of naturals. */
  function Sum(xs: seq<nat>): nat
  {
    if xs == [] then 0 else Sum(xs[..|xs| - 1]) + xs[|xs| - 1]
  }

  /** The sum of the first `k` elements adds element `k - 1` to the sum of the first `k - 1`. */
  lemma SumStep(xs: seq<nat>, k: nat)
    requires 0 < k <= |xs|
    ensures Sum(xs[..k]) == Sum(xs[..k - 1]) + xs[k - 1]
  {
    assert xs[..k][..k - 1] == xs[..k - 1];
  }

  /** Python's `sum(xss, [])`: the lists one after the other. */
  function Concat<T>(xss: seq<seq<T>>): seq<T>
  {
    if xss == [] then [] else Concat(xss[..|xss| - 1]) + xss[|xss| - 1]
  }

  /** The `len` consecutive naturals from `start`. */
  function Range(start: nat, len: nat): (r: seq<nat>)
    ensures |r| == len
  {
    if len == 0 then [] else Range(start, len - 1) + [start + len - 1]
  }

  /** Element `i` of a range is `start + i`. */
  lemma {:induction false} RangeAt(start: nat, len: nat, i: nat)
    requires i < len
    ensures Range(start, len)[i] == start + i
    decreases len
  {
    if i < len - 1 {
      RangeAt(start, len - 1, i);
    }
  }

  /** Concatenating two lists of parts concatenates their concatenations. */
  lemma {:induction false} ConcatAppend<T>(xss: seq<seq<T>>, yss: seq<seq<T>>)
    ensures Concat(xss + yss) == Concat(xss) + Concat(yss)
    decreases |yss|
  {
    if yss == [] {
      assert xss + yss == xss;
    } else {
      var ys, y := yss[..|yss| - 1], yss[|yss| - 1];
      assert (xss + yss)[..|xss + yss| - 1] == xss + ys;
      ConcatAppend(xss, ys);
      assert Concat(yss) == Concat(ys) + y;
    }
  }

  /** A range holds exactly the naturals from `start` below `start + len`. */
  lemma RangeMembers(start: nat, len: nat)
    ensures forall x :: x in Range(start, len) <==> start <= x < start + len
  {
    var r := Range(start, len);
    forall i | 0 <= i < len ensures r[i] == start + i { RangeAt(start, len, i); }
    forall x | start <= x < start + len ensures x in r { assert r[x - start] == x; }
  }

  /** Two adjacent ranges join into one. */
  lemma {:induction false} RangesJoin(start: nat, a: nat, b: nat)
    ensures Range(start, a) + Range(start + a, b) == Range(start, a + b)
    decreases b
  {
    if b > 0 {
      RangesJoin(start, a, b - 1);
      calc {
        Range(start, a) + Range(start + a, b);
        Range(start, a) + (Range(start + a, b - 1) + [start + a + b - 1]);
        (Range(start, a) + Range(start + a, b - 1)) + [start + a + b - 1];
        Range(start, a + b - 1) + [start + a + b - 1];
        Range(start, a + b);
      }
    }
  }

  /** The values of `m` under the keys `ks`, in the order of `ks`. */
  function Values<K, V>(m: map<K, V>, ks: seq<K>): (vs: seq<V>)
    requires forall i :: 0 <= i < |ks| ==> ks[i] in m
    ensures |vs| == |ks|
    ensures forall i :: 0 <= i < |ks| ==> vs[i] == m[ks[i]]
  {
    if ks == [] then [] else Values(m, ks[..|ks| - 1]) + [m[ks[|ks| - 1]]]
  }

  /** The first components of a list of pairs, in order: the widths of sizes, the gates of writes. */
  function Firsts<A, B>(ps: seq<(A, B)>): (xs: seq<A>)
    ensures |xs| == |ps| && forall i :: 0 <= i < |ps| ==> xs[i] == ps[i].0
  {
    seq(|ps|, i requires 0 <= i < |ps| => ps[i].0)
  }

  /** The second components of a list of pairs, in order: the heights of sizes. */
  function Seconds<A, B>(ps: seq<(A, B)>): (ys: seq<B>)
    ensures |ys| == |ps| && forall i :: 0 <= i < |ps| ==> ys[i] == ps[i].1
  {
    seq(|ps|, i requires 0 <= i < |ps| => ps[i].1)
  }

  /** No element occurs twice. */
  predicate Distinct<K(==)>(ks: seq<K>)
  {
    forall i, j :: 0 <= i < j < |ks| ==> ks[i] != ks[j]
  }

  /** `dict(zip(ks, vs))`: key `ks[i]` maps to `vs[i]`, a later equal key overriding an earlier one. */
  function ZipMap<K(==, !new), V>(ks: seq<K>, vs: seq<V>): (m: map<K, V>)
    requires |ks| == |vs|
    ensures forall k :: k in m <==> k in ks
    decreases |ks|
  {
    if ks == [] then map[] else ZipMap(ks[..|ks| - 1], vs[..|vs| - 1])[ks[|ks| - 1] := vs[|vs| - 1]]
  }

  /** With distinct keys, key `ks[i]` maps to `vs[i]`. */
  lemma {:induction false} ZipMapAt<K(!new), V>(ks: seq<K>, vs: seq<V>, i: nat)
    requires |ks| == |vs| && Distinct(ks) && i < |ks|
    ensures ZipMap(ks, vs)[ks[i]] == vs[i]
    decreases |ks|
  {
    var n := |ks| - 1;
    if i < n {
      var ks', vs' := ks[..n], vs[..n];
      DistinctPrefix(ks, n);
      ZipMapAt(ks', vs', i);
      assert ks'[i] == ks[i] && vs'[i] == vs[i];
      assert ks[n] != ks[i];
    }
  }

  /** Reading the zipped map back along its keys gives the values, in order. */
  lemma ZipMapValues<K(!new), V>(ks: seq<K>, vs: seq<V>)
    requires |ks| == |vs| && Distinct(ks)
    ensures ZipMap(ks, vs).Keys == set k | k in ks
    ensures Values(ZipMap(ks, vs), ks) == vs
  {
    forall i | 0 <= i < |ks| ensures ZipMap(ks, vs)[ks[i]] == vs[i] {
      ZipMapAt(ks, vs, i);
    }
  }

  /** A prefix of a list without repeats has none either. */
  lemma DistinctPrefix<K>(ks: seq<K>, n: nat)
    requires Distinct(ks) && n <= |ks|
    ensures Distinct(ks[..n])
  {
    forall a, b | 0 <= a < b < n ensures ks[..n][a] != ks[..n][b] {
      assert ks[..n][a] == ks[a] && ks[..n][b] == ks[b];
    }
  }
}
