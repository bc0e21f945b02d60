/** Reading team ids out of provider claims, and the lenient walk the role check uses on the same claims. */
module TeamClaims {
  import opened Basics
  import opened JsonPointer
  import Split = Text

  datatype Result<+T> = Ok(value: T) | Err(reason: string)

  datatype Kind = StringArray | ObjectArray | Unsupported(name: string)

  datatype Adapter = Adapter(kind: Kind, pointer: string, idField: string, nameField: string)

  predicate IsSpace(c: char) { c == ' ' || '\t' <= c <= '\r' }

  predicate Blank(s: string) { forall i :: 0 <= i < |s| ==> IsSpace(s[i]) }

  predicate Valid(a: Adapter) {
    && !a.kind.Unsupported?
    && Tokens(a.pointer).Some?
    && (a.kind.StringArray? ==> a.idField == "" && a.nameField == "")
    && (a.kind.ObjectArray? ==> !Blank(a.idField))
  }

  // ----- following a pointer

  /** Every step must land on a present, non-null member. */
  function Strict(v: Value, tokens: seq<string>): Result<Value>
    decreases |tokens|
  {
    if tokens == [] then Ok(v)
    else if !v.Object? then Err("traverses a non-object")
    else if tokens[0] !in v.members || v.members[tokens[0]].Null? then Err("missing or null")
    else Strict(v.members[tokens[0]], tokens[1..])
  }

  /** A null member is followed like any other value. */
  function Lenient(v: Value, tokens: seq<string>): Result<Value>
    decreases |tokens|
  {
    if tokens == [] then Ok(v)
    else if !v.Object? then Err("invalid token")
    else if tokens[0] !in v.members then Err("claim missing")
    else Lenient(v.members[tokens[0]], tokens[1..])
  }

  method ResolvePointer(claims: map<string, Value>, pointer: string) returns (r: Result<Value>)
    ensures r.Ok? <==> Tokens(pointer).Some? && Strict(Object(claims), Tokens(pointer).value).Ok?
    ensures r.Ok? ==> r == Strict(Object(claims), Tokens(pointer).value)
  {
    var parsed := ParsePointer(pointer);
    if parsed.None? { return Err("pointer"); }
    var tokens, current, i := parsed.value, Object(claims), 0;
    assert tokens[0..] == tokens;
    while i < |tokens|
      invariant 0 <= i <= |tokens|
      invariant Strict(current, tokens[i..]) == Strict(Object(claims), tokens)
    {
      if !current.Object? { return Err("traverses a non-object"); }
      if tokens[i] !in current.members || current.members[tokens[i]].Null? { return Err("missing or null"); }
      assert tokens[i..][1..] == tokens[i + 1..];
      current, i := current.members[tokens[i]], i + 1;
    }
    r := Ok(current);
  }

  /** The strings of an array, provided all are non-empty strings. */
  function Strings(items: seq<Value>): Option<seq<string>> {
    if items == [] then Some([])
    else
      var last, front := items[|items| - 1], Strings(items[..|items| - 1]);
      if last.Text? && last.text != "" && front.Some? then Some(front.value + [last.text]) else None
  }

  function ValuesAt(claims: map<string, Value>, pointer: string): Result<seq<string>> {
    if !Rooted(pointer) then Err("pointer")
    else match Lenient(Object(claims), ReplacedAll(Split.Split(pointer[1..], '/')))
      case Err(reason) => Err(reason)
      case Ok(v) =>
        if !v.Array? || Strings(v.items).None? then Err("invalid token") else Ok(Strings(v.items).value)
  }

  lemma {:induction false} ReplacedAllAt(raw: seq<string>, i: nat)
    requires i < |raw|
    ensures |ReplacedAll(raw)| == |raw| && ReplacedAll(raw)[i] == Replaced(raw[i])
  {
    if |raw| > 1 { ReplacedAllAt(raw[..|raw| - 1], if i < |raw| - 1 then i else 0); }
  }

  lemma {:induction false} StringsFail(items: seq<Value>, n: nat)
    requires n <= |items| && Strings(items[..n]).None?
    ensures Strings(items).None?
  {
    if n < |items| {
      assert items[..|items| - 1][..n] == items[..n];
      StringsFail(items[..|items| - 1], n);
    } else {
      assert items[..n] == items;
    }
  }

  method ValuesAtPointer(claims: map<string, Value>, pointer: string) returns (r: Result<seq<string>>)
    ensures r == ValuesAt(claims, pointer)
  {
    if !Rooted(pointer) { return Err("pointer"); }
    var raw, current, i := Split.Split(pointer[1..], '/'), Object(claims), 0;
    ghost var tokens := ReplacedAll(raw);
    ReplacedAllAt(raw, 0);
    assert tokens[0..] == tokens;
    while i < |raw|
      invariant 0 <= i <= |raw| == |tokens|
      invariant Lenient(current, tokens[i..]) == Lenient(Object(claims), tokens)
    {
      var token := Replaced(raw[i]);
      ReplacedAllAt(raw, i);
      if !current.Object? { return Err("invalid token"); }
      if token !in current.members { return Err("claim missing"); }
      assert tokens[i..][1..] == tokens[i + 1..];
      current, i := current.members[token], i + 1;
    }
    if !current.Array? { return Err("invalid token"); }
    r := CollectStrings(current.items);
  }

  method CollectStrings(items: seq<Value>) returns (r: Result<seq<string>>)
    ensures r == if Strings(items).None? then Err("invalid token") else Ok(Strings(items).value)
  {
    var result, i := [], 0;
    while i < |items|
      invariant 0 <= i <= |items|
      invariant Strings(items[..i]) == Some(result)
    {
      assert items[..i + 1][..i] == items[..i];
      if !items[i].Text? || items[i].text == "" {
        StringsFail(items, i + 1);
        return Err("invalid token");
      }
      result, i := result + [items[i].text], i + 1;
    }
    assert items[..i] == items;
    r := Ok(result);
  }

  lemma {:induction false} StrictIsLenient(v: Value, tokens: seq<string>, target: Value)
    requires !v.Null?
    ensures Strict(v, tokens) == Ok(target) <==> Lenient(v, tokens) == Ok(target) && !target.Null?
    decreases |tokens|
  {
    if tokens != [] && v.Object? && tokens[0] in v.members {
      var next := v.members[tokens[0]];
      if next.Null? {
        assert Lenient(next, tokens[1..]).Ok? ==> tokens[1..] == [];
      } else {
        StrictIsLenient(next, tokens[1..], target);
      }
    }
  }

  /** On accepted pointers the two walks reach the same value; only a null target tells them apart. */
  lemma WalksAgree(claims: map<string, Value>, pointer: string, target: Value)
    requires Tokens(pointer).Some?
    ensures Strict(Object(claims), Tokens(pointer).value) == Ok(target) <==>
      Lenient(Object(claims), ReplacedAll(Split.Split(pointer[1..], '/'))) == Ok(target) && !target.Null?
  {
    ReadingsAgree(pointer);
    StrictIsLenient(Object(claims), Tokens(pointer).value, target);
  }

  // ----- normalizing team ids

  function IdOf(a: Adapter, item: Value): Option<string> {
    var found :=
      if a.kind.StringArray? then item
      else if item.Object? && a.idField in item.members then item.members[a.idField]
      else Null;
    if found.Text? && found.text != "" then Some(found.text) else None
  }

  predicate AllHaveIds(a: Adapter, items: seq<Value>) {
    forall i :: 0 <= i < |items| ==> IdOf(a, items[i]).Some?
  }

  function Ids(a: Adapter, items: seq<Value>): (ids: seq<string>)
    requires AllHaveIds(a, items)
    ensures |ids| == |items| && forall i :: 0 <= i < |ids| ==> ids[i] == IdOf(a, items[i]).value
  {
    if items == [] then []
    else Ids(a, items[..|items| - 1]) + [IdOf(a, items[|items| - 1]).value]
  }

  /** First occurrences, in order. */
  function Distinct(ids: seq<string>): seq<string> {
    if ids == [] then []
    else
      var front, last := ids[..|ids| - 1], ids[|ids| - 1];
      if last in front then Distinct(front) else Distinct(front) + [last]
  }

  /** The array a valid adapter selects. */
  function Selected(a: Adapter, claims: map<string, Value>): Option<seq<Value>>
    requires Valid(a)
  {
    match Strict(Object(claims), Tokens(a.pointer).value)
    case Ok(Array(items)) => Some(items)
    case _ => None
  }

  /** When Normalize succeeds, and with what. */
  predicate Normalizable(a: Adapter, claims: map<string, Value>) {
    Valid(a) && Selected(a, claims).Some? && AllHaveIds(a, Selected(a, claims).value)
  }

  function Normalized(a: Adapter, claims: map<string, Value>): seq<string>
    requires Normalizable(a, claims)
  {
    Distinct(Ids(a, Selected(a, claims).value))
  }

  lemma NextId(a: Adapter, items: seq<Value>, i: nat)
    requires i < |items| && AllHaveIds(a, items[..i]) && IdOf(a, items[i]).Some?
    ensures AllHaveIds(a, items[..i + 1])
    ensures var ids, id := Ids(a, items[..i]), IdOf(a, items[i]).value;
      && Ids(a, items[..i + 1]) == ids + [id]
      && Distinct(ids + [id]) == if id in ids then Distinct(ids) else Distinct(ids) + [id]
  {
    assert items[..i + 1][..i] == items[..i];
    var ids, id := Ids(a, items[..i]), IdOf(a, items[i]).value;
    assert (ids + [id])[..|ids|] == ids;
  }

  method Collect(a: Adapter, items: seq<Value>) returns (r: Result<seq<string>>)
    requires !a.kind.Unsupported?
    ensures r.Ok? <==> AllHaveIds(a, items)
    ensures r.Ok? ==> r.value == Distinct(Ids(a, items))
  {
    var result: seq<string> := [];
    var seen: set<string> := {};
    var i := 0;
    while i < |items|
      invariant 0 <= i <= |items| && AllHaveIds(a, items[..i])
      invariant result == Distinct(Ids(a, items[..i]))
      invariant forall id :: id in seen <==> id in Ids(a, items[..i])
    {
      var id := IdOf(a, items[i]);
      if id.None? { return Err("no non-empty identifier"); }
      NextId(a, items, i);
      if id.value !in seen {
        seen, result := seen + {id.value}, result + [id.value];
      }
      i := i + 1;
    }
    assert items[..i] == items;
    r := Ok(result);
  }

  method Select(a: Adapter, claims: map<string, Value>) returns (r: Result<seq<Value>>)
    requires Valid(a)
    ensures r.Ok? <==> Selected(a, claims).Some?
    ensures r.Ok? ==> r.value == Selected(a, claims).value
  {
    var value := ResolvePointer(claims, a.pointer);
    if value.Err? { return Err(value.reason); }
    if !value.value.Array? { return Err("team claim must be an array"); }
    r := Ok(value.value.items);
  }

  method Normalize(a: Adapter, claims: map<string, Value>) returns (r: Result<seq<string>>)
    ensures r.Ok? <==> Normalizable(a, claims)
    ensures r.Ok? ==> r.value == Normalized(a, claims)
  {
    if !Valid(a) { return Err("adapter"); }
    var items := Select(a, claims);
    if items.Err? { return Err(items.reason); }
    r := Collect(a, items.value);
  }

  /** Where a value first occurs. */
  ghost function FirstAt(ids: seq<string>, id: string): (i: nat)
    requires id in ids
    ensures i < |ids| && ids[i] == id && id !in ids[..i]
  {
    if id in ids[..|ids| - 1] then
      var i := FirstAt(ids[..|ids| - 1], id);
      assert ids[..|ids| - 1][..i] == ids[..i];
      i
    else |ids| - 1
  }

  lemma FirstAtFront(ids: seq<string>, id: string)
    requires ids != [] && id in ids[..|ids| - 1]
    ensures FirstAt(ids, id) == FirstAt(ids[..|ids| - 1], id)
  {}

  predicate NoDuplicates(s: seq<string>) { forall i, j :: 0 <= i < j < |s| ==> s[i] != s[j] }

  /** Distinct keeps exactly the values, each once, ... */
  lemma {:induction false} DistinctExact(ids: seq<string>)
    ensures forall id :: id in Distinct(ids) <==> id in ids
    ensures NoDuplicates(Distinct(ids))
  {
    if ids != [] {
      var front, last := ids[..|ids| - 1], ids[|ids| - 1];
      DistinctExact(front);
      assert ids == front + [last];
      var d, before := Distinct(ids), Distinct(front);
      forall i, j | 0 <= i < j < |d| ensures d[i] != d[j] {
        assert d[i] == before[i] && before[i] in before;
        if j < |before| {
          assert d[j] == before[j];
        } else {
          assert d[j] == last && last !in front;
        }
      }
    }
  }

  /** ... in the order of their first occurrences. */
  lemma {:induction false} DistinctOrder(ids: seq<string>, i: nat, j: nat)
    requires i < j < |Distinct(ids)|
    ensures var d := Distinct(ids); d[i] in ids && d[j] in ids && FirstAt(ids, d[i]) < FirstAt(ids, d[j])
  {
    DistinctExact(ids);
    var front, d := ids[..|ids| - 1], Distinct(ids);
    DistinctExact(front);
    assert d[i] in front && d[i] in d && d[j] in d;
    FirstAtFront(ids, d[i]);
    if j < |Distinct(front)| {
      DistinctOrder(front, i, j);
      FirstAtFront(ids, d[j]);
    } else {
      assert d[j] !in front;
    }
  }

  lemma IdsMember(a: Adapter, items: seq<Value>, id: string)
    requires AllHaveIds(a, items)
    ensures id in Ids(a, items) <==> exists i :: 0 <= i < |items| && IdOf(a, items[i]) == Some(id)
  {
    var ids := Ids(a, items);
    if i :| 0 <= i < |items| && IdOf(a, items[i]) == Some(id) { assert ids[i] == id; }
  }

  /** What Normalize returns has no duplicates and no empty id, ... */
  lemma NormalizedDistinct(a: Adapter, claims: map<string, Value>)
    requires Normalizable(a, claims)
    ensures NoDuplicates(Normalized(a, claims)) && "" !in Normalized(a, claims)
  {
    DistinctExact(Ids(a, Selected(a, claims).value));
  }

  /** ... and is exactly the ids the claim lists. */
  lemma NormalizedMembers(a: Adapter, claims: map<string, Value>, id: string)
    requires Normalizable(a, claims)
    ensures var items := Selected(a, claims).value;
      id in Normalized(a, claims) <==> exists i :: 0 <= i < |items| && IdOf(a, items[i]) == Some(id)
  {
    var items := Selected(a, claims).value;
    DistinctExact(Ids(a, items));
    IdsMember(a, items, id);
  }
}
