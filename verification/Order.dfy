/** Byte-wise key order, as a bbolt bucket iterates. */
module Order {

  /** Lexicographic order on keys. */
  predicate Less(a: string, b: string) {
    if b == "" then false
    else if a == "" then true
    else if a[0] != b[0] then a[0] < b[0]
    else Less(a[1..], b[1..])
  }

  lemma {:induction false} LessTotal(a: string, b: string)
    ensures Less(a, b) || a == b || Less(b, a)
    ensures !Less(a, a)
  {
    if a != "" { LessTotal(a[1..], if b == "" then "" else b[1..]); }
    if a != "" && b != "" && a[0] == b[0] && a[1..] == b[1..] {
      assert a == [a[0]] + a[1..] && b == [b[0]] + b[1..];
    }
  }

  lemma {:induction false} LessTransitive(a: string, b: string, c: string)
    requires Less(a, b) && Less(b, c)
    ensures Less(a, c)
  {
    if a != "" && a[0] == b[0] && b[0] == c[0] { LessTransitive(a[1..], b[1..], c[1..]); }
  }

  /** Strictly ascending, hence free of duplicates. */
  ghost predicate Ascending(keys: seq<string>) {
    forall i, j :: 0 <= i < j < |keys| ==> Less(keys[i], keys[j])
  }

  /** `keys` lists the set `s` in key order. */
  ghost predicate Lists(keys: seq<string>, s: set<string>) {
    && Ascending(keys)
    && (forall k :: k in keys <==> k in s)
  }

  /** A set has one listing. */
  lemma {:induction false} ListingUnique(a: seq<string>, b: seq<string>, s: set<string>)
    requires Lists(a, s) && Lists(b, s)
    ensures a == b
    decreases |a|
  {
    ListingSize(a, s);
    ListingSize(b, s);
    if a != [] {
      assert a[0] in b;
      var i :| 0 <= i < |b| && b[i] == a[0];
      assert b[0] in a;
      var j :| 0 <= j < |a| && a[j] == b[0];
      LessTotal(a[0], a[0]);
      if i > 0 && j > 0 {
        LessTransitive(a[0], a[j], b[i]);
        assert false;
      }
      LessTotal(b[0], b[0]);
      assert a[0] == b[0];
      Tail(a, s);
      Tail(b, s);
      ListingUnique(a[1..], b[1..], s - {a[0]});
    }
  }

  lemma Tail(a: seq<string>, s: set<string>)
    requires Lists(a, s) && a != []
    ensures Lists(a[1..], s - {a[0]})
  {
    LessTotal(a[0], a[0]);
    assert a == [a[0]] + a[1..];
  }

  lemma {:induction false} ListingSize(keys: seq<string>, s: set<string>)
    requires Lists(keys, s)
    ensures |keys| == |s|
    decreases |keys|
  {
    if keys == [] {
      assert s == {};
    } else {
      Tail(keys, s);
      assert keys[0] in s;
      ListingSize(keys[1..], s - {keys[0]});
    }
  }

  /** Every set has a listing. */
  lemma {:induction false} ListingExists(s: set<string>)
    ensures exists keys :: Lists(keys, s)
    decreases s
  {
    if s == {} {
      assert Lists([], s);
    } else {
      var least := LeastExists(s);
      ListingExists(s - {least});
      var rest :| Lists(rest, s - {least});
      var keys := [least] + rest;
      forall i, j | 0 <= i < j < |keys| ensures Less(keys[i], keys[j]) {
        assert keys[j] == rest[j - 1] && rest[j - 1] in rest;
      }
      assert Lists(keys, s);
    }
  }

  lemma {:induction false} LeastExists(s: set<string>) returns (least: string)
    requires s != {}
    ensures least in s && forall k :: k in s && k != least ==> Less(least, k)
    decreases s
  {
    least :| least in s;
    if s != {least} {
      var other := LeastExists(s - {least});
      LessTotal(least, other);
      if Less(other, least) {
        least := other;
      } else {
        forall k | k in s && k != least ensures Less(least, k) {
          if k != other { LessTransitive(least, other, k); }
        }
      }
    }
  }

  /** The least key of a non-empty set. */
  method Least(s: set<string>) returns (least: string)
    requires s != {}
    ensures least in s
    ensures forall k :: k in s && k != least ==> Less(least, k)
  {
    least :| least in s;
    var todo := s - {least};
    while todo != {}
      invariant todo <= s && least in s && least !in todo
      invariant forall k :: k in s && k !in todo && k != least ==> Less(least, k)
      decreases |todo|
    {
      var k :| k in todo;
      LessTotal(k, least);
      if Less(k, least) {
        forall x | x in s && x !in todo && x != least ensures Less(k, x) { LessTransitive(k, least, x); }
        least := k;
      }
      todo := todo - {k};
    }
  }

  /** A bucket's keys in iteration order. */
  method SortedKeys(s: set<string>) returns (keys: seq<string>)
    ensures Lists(keys, s)
  {
    var todo := s;
    keys := [];
    while todo != {}
      invariant todo <= s
      invariant Lists(keys, s - todo)
      invariant forall i, k :: 0 <= i < |keys| && k in todo ==> Less(keys[i], k)
      decreases |todo|
    {
      var k := Least(todo);
      keys := keys + [k];
      todo := todo - {k};
    }
  }
}
