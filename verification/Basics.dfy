/** Small types and counting facts shared by every component model. */
module Basics {

  datatype Option<+T> = None | Some(value: T)

  /** The integers `lo..hi-1`. */
  function Range(lo: int, hi: int): (s: set<int>)
    ensures lo <= hi ==> |s| == hi - lo
    ensures forall p :: p in s <==> lo <= p < hi
    decreases hi - lo
  {
    if lo >= hi then {} else
      assert hi - 1 !in Range(lo, hi - 1);
      Range(lo, hi - 1) + {hi - 1}
  }

  /** A subset is no larger than the set it lies in. */
  lemma {:induction false} SubsetSize<T>(a: set<T>, b: set<T>)
    requires a <= b
    ensures |a| <= |b|
    decreases a
  {
    if a != {} {
      var x :| x in a;
      SubsetSize(a - {x}, b - {x});
    }
  }

  /** Removing a key does not make a map larger. */
  lemma RemoveSize<K, V>(m: map<K, V>, k: K)
    ensures |m - {k}| <= |m|
  {
    assert (m - {k}).Keys == m.Keys - {k};
    SubsetSize(m.Keys - {k}, m.Keys);
  }

  /** A map has at least as many keys as values. */
  lemma {:induction false} ValuesSize<K, V>(m: map<K, V>)
    ensures |m.Values| <= |m|
    decreases |m|
  {
    if m == map[] {
      assert m.Values == {};
    } else {
      var k :| k in m;
      var rest := m - {k};
      ValuesSize(rest);
      assert m.Values <= rest.Values + {m[k]} by {
        forall v | v in m.Values ensures v in rest.Values + {m[k]} {
          var j :| j in m && m[j] == v;
          if j != k { assert j in rest && rest[j] == v; }
        }
      }
      SubsetSize(m.Values, rest.Values + {m[k]});
    }
  }

  /** A set mapped one-to-one into another is no larger than it. */
  lemma {:induction false} InjectionSize<K, V>(m: map<K, V>, target: set<V>)
    requires forall k :: k in m ==> m[k] in target
    requires forall j, k :: j in m && k in m && m[j] == m[k] ==> j == k
    ensures |m| <= |target|
    decreases |m|
  {
    if m != map[] {
      var k :| k in m;
      InjectionSize(m - {k}, target - {m[k]});
    }
  }

  /** More entries than values: two entries agree. */
  lemma Pigeonhole(f: seq<int>, n: nat) returns (i: nat, j: nat)
    requires |f| > n && forall k :: 0 <= k < |f| ==> 0 <= f[k] < n
    ensures i < j < |f| && f[i] == f[j]
  {
    var m := map k | 0 <= k < |f| :: f[k];
    assert m.Keys == Range(0, |f|);
    if forall a, b :: a in m && b in m && m[a] == m[b] ==> a == b {
      InjectionSize(m, Range(0, n));
      assert false;
    }
    var a, b :| a in m && b in m && m[a] == m[b] && a != b;
    i, j := if a < b then a else b, if a < b then b else a;
  }

  lemma {:induction false} LongerThanAll(names: set<string>) returns (n: nat)
    ensures forall x :: x in names ==> |x| < n
    decreases |names|
  {
    n := 0;
    if names != {} {
      var x :| x in names;
      n := LongerThanAll(names - {x});
      if n <= |x| { n := |x| + 1; }
    }
  }

  /** There is always another name. */
  lemma FreshName(names: set<string>) returns (x: string)
    ensures x !in names && x != ""
  {
    var n := LongerThanAll(names);
    x := seq(n + 1, _ => 'x');
  }

  lemma Overwrite<K, V>(m: map<K, V>, k: K, a: V, b: V)
    ensures m[k := a][k := b] == m[k := b]
  {}

  lemma OverwriteOnly<K, V>(k: K, a: V, b: V)
    ensures map[k := a][k := b] == map[k := b]
  {}
}
