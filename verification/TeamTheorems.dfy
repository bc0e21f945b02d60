/** What the gateway reads out of provider claims, said about the claims themselves. */
module TeamTheorems {
  import opened Basics
  import opened JsonPointer
  import opened TeamClaims

  // ----- where a pointer leads

  /** The values passed on the way: each token names a member of the object before it. */
  predicate Leads(path: seq<Value>, tokens: seq<string>) {
    && |path| == |tokens| + 1
    && forall i :: 0 <= i < |tokens| ==>
      path[i].Object? && tokens[i] in path[i].members && path[i + 1] == path[i].members[tokens[i]]
  }

  lemma LeadsOn(v: Value, path: seq<Value>, tokens: seq<string>)
    requires tokens != []
    ensures Leads([v] + path, tokens) <==>
      && path != [] && v.Object? && tokens[0] in v.members && path[0] == v.members[tokens[0]]
      && Leads(path, tokens[1..])
  {
    var whole := [v] + path;
    if Leads(whole, tokens) {
      assert path[0] == whole[1];
      forall i | 0 <= i < |tokens| - 1
        ensures path[i].Object? && tokens[i + 1] in path[i].members && path[i + 1] == path[i].members[tokens[i + 1]]
      {
        assert path[i] == whole[i + 1] && path[i + 1] == whole[i + 1 + 1];
      }
    }
    if path != [] && v.Object? && tokens[0] in v.members && path[0] == v.members[tokens[0]]
      && Leads(path, tokens[1..])
    {
      forall i | 0 < i < |tokens|
        ensures whole[i].Object? && tokens[i] in whole[i].members && whole[i + 1] == whole[i].members[tokens[i]]
      {
        assert whole[i] == path[i - 1] && tokens[i] == tokens[1..][i - 1] && whole[i + 1] == path[i - 1 + 1];
      }
    }
  }

  lemma {:induction false} Followed(v: Value, tokens: seq<string>, path: seq<Value>)
    requires Leads(path, tokens) && path[0] == v
    ensures Lenient(v, tokens) == Ok(path[|tokens|])
    decreases |tokens|
  {
    if tokens != [] {
      assert path == [v] + path[1..];
      LeadsOn(v, path[1..], tokens);
      Followed(v.members[tokens[0]], tokens[1..], path[1..]);
    }
  }

  lemma {:induction false} Traced(v: Value, tokens: seq<string>) returns (path: seq<Value>)
    requires Lenient(v, tokens).Ok?
    ensures Leads(path, tokens) && path[0] == v
    decreases |tokens|
  {
    if tokens == [] { return [v]; }
    var rest := Traced(v.members[tokens[0]], tokens[1..]);
    LeadsOn(v, rest, tokens);
    path := [v] + rest;
  }

  /** The tokens lead from `v` to `target`. */
  ghost predicate Reaches(v: Value, tokens: seq<string>, target: Value) {
    exists path :: Leads(path, tokens) && path[0] == v && path[|tokens|] == target
  }

  /** A walk ends where the tokens lead, if they lead anywhere; the strict one also refuses to end at null. */
  lemma WalksExact(v: Value, tokens: seq<string>, target: Value)
    ensures Lenient(v, tokens) == Ok(target) <==> Reaches(v, tokens, target)
    ensures !v.Null? ==> (Strict(v, tokens) == Ok(target) <==> Reaches(v, tokens, target) && !target.Null?)
  {
    if path :| Leads(path, tokens) && path[0] == v && path[|tokens|] == target {
      Followed(v, tokens, path);
    }
    if Lenient(v, tokens) == Ok(target) {
      var path := Traced(v, tokens);
      Followed(v, tokens, path);
    }
    if !v.Null? { StrictIsLenient(v, tokens, target); }
  }

  // ----- roles

  /** The array holds exactly these texts, none empty. */
  predicate Texts(items: seq<Value>, texts: seq<string>) {
    |items| == |texts| && forall i :: 0 <= i < |items| ==> items[i] == Value.Text(texts[i]) && texts[i] != ""
  }

  lemma {:induction false} StringsExact(items: seq<Value>, texts: seq<string>)
    ensures Strings(items) == Some(texts) <==> Texts(items, texts)
  {
    if items == [] {
    } else if texts == [] {
      assert Strings(items).Some? ==> |Strings(items).value| > 0;
    } else {
      var front, rest := items[..|items| - 1], texts[..|texts| - 1];
      StringsExact(front, rest);
      assert texts == rest + [texts[|texts| - 1]];
      if Strings(items) == Some(texts) {
        assert Strings(front) == Some(rest);
        assert forall i :: 0 <= i < |front| ==> items[i] == front[i] && texts[i] == rest[i];
      }
      if Texts(items, texts) { assert Texts(front, rest); }
    }
  }

  /** The lenient reading of a well-escaped pointer returns exactly the non-empty strings of the array it leads to. */
  lemma ValuesExact(claims: map<string, Value>, tokens: seq<string>, texts: seq<string>)
    requires tokens != []
    ensures ValuesAt(claims, Pointer(tokens)) == Ok(texts) <==>
      exists items :: Reaches(Object(claims), tokens, Array(items)) && Texts(items, texts)
  {
    PointerRoundTrip(tokens);
    ReadingsAgree(Pointer(tokens));
    if items :| Reaches(Object(claims), tokens, Array(items)) && Texts(items, texts) {
      WalksExact(Object(claims), tokens, Array(items));
      StringsExact(items, texts);
    }
    if ValuesAt(claims, Pointer(tokens)) == Ok(texts) {
      var items := Lenient(Object(claims), tokens).value.items;
      WalksExact(Object(claims), tokens, Array(items));
      StringsExact(items, texts);
    }
  }

  // ----- team ids

  /** The element carries this id: it is the text itself, or an object with that text in the id field. */
  predicate Lists(a: Adapter, item: Value, id: string) {
    && id != ""
    && (a.kind.StringArray? ==> item == Value.Text(id))
    && (a.kind.ObjectArray? ==>
          item.Object? && a.idField in item.members && item.members[a.idField] == Value.Text(id))
  }

  /** The adapter's own settings: a known kind, and an id field for objects only. */
  predicate Configured(a: Adapter) {
    match a.kind
    case StringArray => a.idField == "" && a.nameField == ""
    case ObjectArray => exists i :: 0 <= i < |a.idField| && a.idField[i] as int !in {9, 10, 11, 12, 13, 32}
    case Unsupported(_) => false
  }

  /** The claim the adapter's pointer spells is this array. */
  ghost predicate Claims(a: Adapter, claims: map<string, Value>, items: seq<Value>) {
    exists tokens :: tokens != [] && a.pointer == Pointer(tokens) && Reaches(Object(claims), tokens, Array(items))
  }

  lemma ListsId(a: Adapter, item: Value, id: string)
    requires !a.kind.Unsupported?
    ensures IdOf(a, item) == Some(id) <==> Lists(a, item, id)
  {}

  lemma ValidExact(a: Adapter)
    ensures Valid(a) <==> Configured(a) && exists tokens :: tokens != [] && a.pointer == Pointer(tokens)
  {
    if Tokens(a.pointer).Some? { PointerCanonical(a.pointer); }
    if tokens :| tokens != [] && a.pointer == Pointer(tokens) { PointerRoundTrip(tokens); }
    assert forall c: char :: IsSpace(c) <==> c as int in {9, 10, 11, 12, 13, 32};
  }

  lemma SelectedExact(a: Adapter, claims: map<string, Value>, items: seq<Value>)
    requires Valid(a)
    ensures Selected(a, claims) == Some(items) <==> Claims(a, claims, items)
  {
    var tokens := Tokens(a.pointer).value;
    PointerCanonical(a.pointer);
    WalksExact(Object(claims), tokens, Array(items));
    if other :| other != [] && a.pointer == Pointer(other) && Reaches(Object(claims), other, Array(items)) {
      PointerRoundTrip(other);
    }
  }

  ghost predicate ListsSome(a: Adapter, item: Value) { exists id :: Lists(a, item, id) }

  ghost predicate AllList(a: Adapter, items: seq<Value>) { forall i :: 0 <= i < |items| ==> ListsSome(a, items[i]) }

  lemma AllListExact(a: Adapter, items: seq<Value>)
    requires !a.kind.Unsupported?
    ensures AllHaveIds(a, items) <==> AllList(a, items)
  {
    forall i | 0 <= i < |items| ensures IdOf(a, items[i]).Some? <==> ListsSome(a, items[i]) {
      if id :| Lists(a, items[i], id) { ListsId(a, items[i], id); }
      if IdOf(a, items[i]).Some? { ListsId(a, items[i], IdOf(a, items[i]).value); }
    }
  }

  /** Normalize succeeds exactly for a configured adapter whose claim is an array of elements that all carry an id. */
  lemma NormalizeExact(a: Adapter, claims: map<string, Value>)
    ensures Normalizable(a, claims) <==> Configured(a) && exists items :: Claims(a, claims, items) && AllList(a, items)
  {
    ValidExact(a);
    if Normalizable(a, claims) {
      var items := Selected(a, claims).value;
      SelectedExact(a, claims, items);
      AllListExact(a, items);
    }
    if items :| Configured(a) && Claims(a, claims, items) && AllList(a, items) {
      SelectedExact(a, claims, items);
      AllListExact(a, items);
    }
  }

  /** The first element carrying `id` comes before every element carrying `later`. */
  ghost predicate Precedes(a: Adapter, items: seq<Value>, id: string, later: string) {
    exists k :: 0 <= k < |items| && Lists(a, items[k], id) && forall m :: 0 <= m <= k ==> !Lists(a, items[m], later)
  }

  lemma InOrder(a: Adapter, items: seq<Value>, i: nat, j: nat)
    requires !a.kind.Unsupported? && AllHaveIds(a, items) && i < j < |Distinct(Ids(a, items))|
    ensures var out := Distinct(Ids(a, items)); Precedes(a, items, out[i], out[j])
  {
    var ids, out := Ids(a, items), Distinct(Ids(a, items));
    DistinctOrder(ids, i, j);
    var k, l := FirstAt(ids, out[i]), FirstAt(ids, out[j]);
    ListsId(a, items[k], out[i]);
    forall m | 0 <= m <= k ensures !Lists(a, items[m], out[j]) {
      ListsId(a, items[m], out[j]);
      assert ids[..l][m] == ids[m];
    }
  }

  /** What it returns: each id some element carries, once, in the order they first appear. */
  lemma NormalizedExact(a: Adapter, claims: map<string, Value>, items: seq<Value>)
    requires Normalizable(a, claims) && Claims(a, claims, items)
    ensures forall id :: id in Normalized(a, claims) <==> exists i :: 0 <= i < |items| && Lists(a, items[i], id)
    ensures var out := Normalized(a, claims);
      forall i, j :: 0 <= i < j < |out| ==> out[i] != out[j] && Precedes(a, items, out[i], out[j])
  {
    SelectedExact(a, claims, items);
    forall id ensures id in Normalized(a, claims) <==> exists i :: 0 <= i < |items| && Lists(a, items[i], id) {
      NormalizedMembers(a, claims, id);
      forall i | 0 <= i < |items| { ListsId(a, items[i], id); }
    }
    NormalizedDistinct(a, claims);
    var out := Normalized(a, claims);
    forall i, j | 0 <= i < j < |out| ensures out[i] != out[j] && Precedes(a, items, out[i], out[j]) {
      InOrder(a, items, i, j);
    }
  }
}
