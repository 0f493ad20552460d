/**
 * Python's ordering of `str` values and the sorted list of a dict's keys, which
 * `sorted(d.items())` visits when the keys are distinct.
 */
module Names {
  /** Python's `a < b` on strings: lexicographic by code point, a proper prefix first. */
  predicate Below(a: string, b: string)
    decreases |a|
  {
    if a == [] then b != []
    else if b == [] then false
    else if a[0] != b[0] then a[0] < b[0]
    else Below(a[1..], b[1..])
  }

  lemma {:induction false} BelowIrreflexive(a: string)
    ensures !Below(a, a)
    decreases |a|
  {
    if a != [] { BelowIrreflexive(a[1..]); }
  }

  lemma {:induction false} BelowAsymmetric(a: string, b: string)
    ensures !(Below(a, b) && Below(b, a))
    decreases |a|
  {
    if a != [] && b != [] && a[0] == b[0] { BelowAsymmetric(a[1..], b[1..]); }
  }

  lemma {:induction false} BelowTransitive(a: string, b: string, c: string)
    requires Below(a, b) && Below(b, c)
    ensures Below(a, c)
    decreases |a|
  {
    if a != [] && b != [] && c != [] && a[0] == b[0] && b[0] == c[0] {
      BelowTransitive(a[1..], b[1..], c[1..]);
    }
  }

  /** Any two different strings are ordered one way or the other. */
  lemma {:induction false} BelowTotal(a: string, b: string)
    ensures a == b || Below(a, b) || Below(b, a)
    decreases |a|
  {
    if a != [] && b != [] && a[0] == b[0] {
      BelowTotal(a[1..], b[1..]);
      if a[1..] == b[1..] {
        assert a == [a[0]] + a[1..] && b == [b[0]] + b[1..];
      }
    }
  }

  predicate IsLeast(k: string, s: set<string>) {
    k in s && forall j :: j in s ==> !Below(j, k)
  }

  lemma {:induction false} LeastOf(s: set<string>) returns (k: string)
    requires s != {}
    ensures IsLeast(k, s)
    decreases |s|
  {
    var x :| x in s;
    BelowIrreflexive(x);
    if s == {x} { return x; }
    var y := LeastOf(s - {x});
    BelowAsymmetric(x, y);
    if Below(x, y) {
      forall j | j in s ensures !Below(j, x) {
        if j != x && Below(j, x) { BelowTransitive(j, x, y); }
      }
      return x;
    }
    BelowIrreflexive(y);
    BelowTotal(x, y);
    return y;
  }

  /** The least name of a non-empty set exists and is unique. */
  lemma LeastUnique(s: set<string>)
    requires s != {}
    ensures exists k :: IsLeast(k, s)
    ensures forall a, b :: IsLeast(a, s) && IsLeast(b, s) ==> a == b
  {
    var k := LeastOf(s);
    forall a, b | IsLeast(a, s) && IsLeast(b, s) ensures a == b { BelowTotal(a, b); }
  }

  /** The names of `s` in ascending order, each once (the order is `SortedKeysAscending`). */
  function SortedKeys(s: set<string>): (ks: seq<string>)
    ensures |ks| == |s|
    ensures forall k :: k in ks <==> k in s
    decreases |s|
  {
    if s == {} then []
    else
      LeastUnique(s);
      var k :| IsLeast(k, s);
      var rest := SortedKeys(s - {k});
      [k] + rest
  }

  /** A non-empty set's sorted names start with its least name, followed by the sorted rest. */
  lemma SortedKeysUnfold(s: set<string>)
    requires s != {}
    ensures IsLeast(SortedKeys(s)[0], s)
    ensures SortedKeys(s) == [SortedKeys(s)[0]] + SortedKeys(s - {SortedKeys(s)[0]})
  {
  }

  /** The least name is below every other name of the set. */
  lemma LeastBelowOthers(k: string, s: set<string>, x: string)
    requires IsLeast(k, s) && x in s && x != k
    ensures Below(k, x)
  {
    BelowTotal(k, x);
  }

  /** `SortedKeys` lists the names in strictly ascending order. */
  lemma {:induction false} SortedKeysAscending(s: set<string>)
    ensures forall i, j :: 0 <= i < j < |SortedKeys(s)| ==> Below(SortedKeys(s)[i], SortedKeys(s)[j])
    decreases |s|
  {
    if s != {} {
      var ks := SortedKeys(s);
      SortedKeysUnfold(s);
      var k := ks[0];
      var rest := SortedKeys(s - {k});
      SortedKeysAscending(s - {k});
      assert forall j :: 0 < j < |ks| ==> ks[j] == rest[j - 1];
      forall j | 0 < j < |ks| ensures Below(k, ks[j]) {
        LeastBelowOthers(k, s, rest[j - 1]);
      }
    }
  }

  /** Two names in order are sorted as that pair. */
  lemma SortedPair(a: string, b: string)
    requires Below(a, b)
    ensures SortedKeys({a, b}) == [a, b]
  {
    BelowIrreflexive(a);
    SortedKeysAscending({a, b});
    var ks := SortedKeys({a, b});
    assert |{a, b}| == 2;
    assert ks[0] in {a, b} && ks[1] in {a, b};
    if ks[0] == b {
      BelowAsymmetric(a, b);
    }
  }

  /** Names in strictly ascending order, as `sorted` lists the distinct keys of a dict. */
  predicate Ascending(ns: seq<string>)
  {
    forall i, j :: 0 <= i < j < |ns| ==> Below(ns[i], ns[j])
  }

  /** A strictly ascending list of names is the sorted list of its own names: the canonical order is unique. */
  lemma {:induction false} AscendingIsSorted(ns: seq<string>)
    requires Ascending(ns)
    ensures SortedKeys(set x | x in ns) == ns
    decreases |ns|
  {
    if ns != [] {
      var s := set x | x in ns;
      var k, rest := ns[0], ns[1..];
      AscendingHead(ns);
      SortedKeysUnfold(s);
      LeastUnique(s);
      assert SortedKeys(s) == [k] + SortedKeys(s - {k});
      AscendingTail(ns);
      AscendingIsSorted(rest);
      assert ns == [k] + rest;
    }
  }

  /** The first of ascending names is the least of them. */
  lemma AscendingHead(ns: seq<string>)
    requires Ascending(ns) && ns != []
    ensures IsLeast(ns[0], set x | x in ns)
  {
    var k := ns[0];
    BelowIrreflexive(k);
    forall j | j in (set x | x in ns) ensures !Below(j, k) {
      if j != k {
        var i :| 0 <= i < |ns| && ns[i] == j;
        BelowAsymmetric(k, j);
      }
    }
  }

  /** Dropping the first of ascending names leaves ascending names, and removes exactly that name. */
  lemma AscendingTail(ns: seq<string>)
    requires Ascending(ns) && ns != []
    ensures Ascending(ns[1..])
    ensures (set x | x in ns) - {ns[0]} == set x | x in ns[1..]
  {
    var k, rest := ns[0], ns[1..];
    BelowIrreflexive(k);
    forall x | x in rest ensures x != k {
      var i :| 0 <= i < |rest| && rest[i] == x;
      assert ns[i + 1] == x;
    }
    forall x | x in ns && x != k ensures x in rest {
      var i :| 0 <= i < |ns| && ns[i] == x;
      assert rest[i - 1] == x;
    }
    forall i, j | 0 <= i < j < |rest| ensures Below(rest[i], rest[j]) {
      assert rest[i] == ns[i + 1] && rest[j] == ns[j + 1];
    }
  }

  /** Ascending names are distinct. */
  lemma AscendingDistinct(ns: seq<string>)
    requires Ascending(ns)
    ensures forall i, j :: 0 <= i < j < |ns| ==> ns[i] != ns[j]
  {
    forall i, j | 0 <= i < j < |ns| ensures ns[i] != ns[j] {
      BelowIrreflexive(ns[i]);
    }
  }
}
