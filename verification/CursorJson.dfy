/** The cursor envelope as JSON: field names, order, omitted positions, sorted filter keys; and how long it can get. */
module CursorJson {
  import opened Basics
  import opened Cursor
  import opened Json
  import Order

  // ----- writing

  /** A map's keys in the order json.Marshal writes them. */
  ghost function Listing(s: set<string>): (keys: seq<string>)
    ensures Order.Lists(keys, s)
  {
    Order.ListingExists(s);
    var keys :| Order.Lists(keys, s); keys
  }

  function FilterFields(keys: seq<string>, filters: map<string, string>): Fields
    requires forall i :: 0 <= i < |keys| ==> keys[i] in filters
  {
    if keys == [] then End else Field(keys[0], Str(filters[keys[0]]), FilterFields(keys[1..], filters))
  }

  /** A pointer field with omitempty. */
  function Omit(name: string, value: Option<Json>, rest: Fields): Fields {
    if value.None? then rest else Field(name, value.value, rest)
  }

  function TagJson(p: Option<TagPosition>): Option<Json> {
    if p.None? then None
    else
      var tag := p.value;
      Some(Obj(Field("t", Str(tag.team), Field("e", Str(tag.tag), Field("y", Str(tag.taskType), End)))))
  }

  function StampJson(at: string, id: string, p: Option<Stamp>): Option<Json> {
    if p.None? then None else Some(Obj(Field(at, Num(p.value.at), Field(id, Str(p.value.id), End))))
  }

  function LaterFields(p: Positions): Fields {
    Omit("enp", StampJson("c", "e", p.environment),
      Omit("sep", StampJson("c", "s", p.secret),
        Omit("svp", StampJson("v", "s", p.secretVersion), End)))
  }

  function PositionFields(p: Positions): Fields {
    Omit("tp", TagJson(p.tag),
      Omit("kp", StampJson("i", "t", p.task),
        Omit("ap", StampJson("o", "a", p.audit), LaterFields(p))))
  }

  ghost function FilterJson(filters: map<string, string>): Json {
    Obj(FilterFields(Listing(filters.Keys), filters))
  }

  ghost function ToJson(env: Envelope): Json {
    Obj(Field("ep", Str(env.endpoint), Field("sc", Str(env.scope), Field("or", Str(env.ordering),
      Field("dr", Str(env.direction), Field("ft", FilterJson(env.filters), PositionFields(env.positions)))))))
  }

  ghost function Marshal(env: Envelope): string
    requires AsciiEnvelope(env)
  {
    EnvelopeAscii(env);
    Render(ToJson(env))
  }

  // ----- reading

  function Lookup(fields: Fields, name: string): Option<Json> {
    match fields
    case End => None
    case Field(n, value, rest) => if n == name then Some(value) else Lookup(rest, name)
  }

  /** A missing string is empty; a value of another type fails the whole decode. */
  function TextAt(fields: Fields, name: string): Option<string> {
    match Lookup(fields, name)
    case None => Some("")
    case Some(Str(text)) => Some(text)
    case Some(_) => None
  }

  function NumAt(fields: Fields, name: string): Option<int> {
    match Lookup(fields, name)
    case None => Some(0)
    case Some(Num(n)) => Some(n)
    case Some(_) => None
  }

  function FilterMap(fields: Fields): Option<map<string, string>> {
    match fields
    case End => Some(map[])
    case Field(name, value, rest) =>
      match FilterMap(rest)
      case None => None
      case Some(m) => if value.Str? then Some(m[name := value.text]) else None
  }

  function FiltersAt(fields: Fields, name: string): Option<map<string, string>> {
    match Lookup(fields, name)
    case None => Some(map[])
    case Some(Obj(members)) => FilterMap(members)
    case Some(_) => None
  }

  function TagAt(fields: Fields, name: string): Option<Option<TagPosition>> {
    match Lookup(fields, name)
    case None => Some(None)
    case Some(Obj(m)) =>
      var t, e, y := TextAt(m, "t"), TextAt(m, "e"), TextAt(m, "y");
      if t.Some? && e.Some? && y.Some? then Some(Some(TagPosition(t.value, e.value, y.value))) else None
    case Some(_) => None
  }

  function StampAt(fields: Fields, name: string, at: string, id: string): Option<Option<Stamp>> {
    match Lookup(fields, name)
    case None => Some(None)
    case Some(Obj(m)) =>
      var n, text := NumAt(m, at), TextAt(m, id);
      if n.Some? && text.Some? then Some(Some(Stamp(n.value, text.value))) else None
    case Some(_) => None
  }

  function PositionsAt(fields: Fields): Option<Positions> {
    var tag := TagAt(fields, "tp");
    var task, audit := StampAt(fields, "kp", "i", "t"), StampAt(fields, "ap", "o", "a");
    var env, secret := StampAt(fields, "enp", "c", "e"), StampAt(fields, "sep", "c", "s");
    var version := StampAt(fields, "svp", "v", "s");
    if tag.Some? && task.Some? && audit.Some? && env.Some? && secret.Some? && version.Some? then
      Some(Positions(tag.value, task.value, audit.value, env.value, secret.value, version.value))
    else None
  }

  function FromFields(f: Fields): Option<Envelope> {
    var endpoint, scope, ordering, direction := TextAt(f, "ep"), TextAt(f, "sc"), TextAt(f, "or"), TextAt(f, "dr");
    var filters, positions := FiltersAt(f, "ft"), PositionsAt(f);
    if endpoint.Some? && scope.Some? && ordering.Some? && direction.Some? && filters.Some? && positions.Some? then
      Some(Envelope(
        endpoint.value, scope.value, ordering.value, direction.value, filters.value, positions.value))
    else None
  }

  function Unmarshal(s: string): Option<Envelope> {
    match Read(s)
    case Some(Obj(fields)) => FromFields(fields)
    case _ => None
  }

  // ----- what is read

  /** The field is this string, or is missing and reads as empty. */
  predicate Says(f: Fields, name: string, text: string) {
    Lookup(f, name) == Some(Str(text)) || (Lookup(f, name) == None && text == "")
  }

  predicate Counts(f: Fields, name: string, n: int) {
    Lookup(f, name) == Some(Num(n)) || (Lookup(f, name) == None && n == 0)
  }

  /** The stamp is the object of this name, and none where there is no such field. */
  predicate Stamps(f: Fields, name: string, at: string, id: string, p: Option<Stamp>) {
    match p
    case None => Lookup(f, name) == None
    case Some(stamp) =>
      && Lookup(f, name).Some? && Lookup(f, name).value.Obj?
      && var m := Lookup(f, name).value.fields; Counts(m, at, stamp.at) && Says(m, id, stamp.id)
  }

  predicate Tags(f: Fields, name: string, p: Option<TagPosition>) {
    match p
    case None => Lookup(f, name) == None
    case Some(tag) =>
      && Lookup(f, name).Some? && Lookup(f, name).value.Obj?
      && var m := Lookup(f, name).value.fields;
        Says(m, "t", tag.team) && Says(m, "e", tag.tag) && Says(m, "y", tag.taskType)
  }

  lemma StampExact(f: Fields, name: string, at: string, id: string, p: Option<Stamp>)
    ensures StampAt(f, name, at, id) == Some(p) <==> Stamps(f, name, at, id, p)
  {}

  lemma TagExact(f: Fields, name: string, p: Option<TagPosition>)
    ensures TagAt(f, name) == Some(p) <==> Tags(f, name, p)
  {}

  /** Positions are read field by field, each under its own name. */
  lemma PositionsExact(f: Fields, p: Positions)
    ensures PositionsAt(f) == Some(p) <==>
      && Tags(f, "tp", p.tag) && Stamps(f, "kp", "i", "t", p.task) && Stamps(f, "ap", "o", "a", p.audit)
      && Stamps(f, "enp", "c", "e", p.environment) && Stamps(f, "sep", "c", "s", p.secret)
      && Stamps(f, "svp", "v", "s", p.secretVersion)
  {
    TagExact(f, "tp", p.tag);
    StampExact(f, "kp", "i", "t", p.task);
    StampExact(f, "ap", "o", "a", p.audit);
    StampExact(f, "enp", "c", "e", p.environment);
    StampExact(f, "sep", "c", "s", p.secret);
    StampExact(f, "svp", "v", "s", p.secretVersion);
  }

  /** An envelope's texts are read under their own names, a wrong type fails, and a missing field is empty. */
  lemma TextsExact(f: Fields, env: Envelope)
    ensures FromFields(f) == Some(env) <==>
      && Says(f, "ep", env.endpoint) && Says(f, "sc", env.scope) && Says(f, "or", env.ordering)
      && Says(f, "dr", env.direction) && FiltersAt(f, "ft") == Some(env.filters)
      && PositionsAt(f) == Some(env.positions)
  {
    TextExact(f, "ep", env.endpoint);
    TextExact(f, "sc", env.scope);
    TextExact(f, "or", env.ordering);
    TextExact(f, "dr", env.direction);
  }

  lemma TextExact(f: Fields, name: string, text: string)
    ensures TextAt(f, name) == Some(text) <==> Says(f, name, text)
  {}

  // ----- round trip

  lemma {:induction false} FiltersBack(keys: seq<string>, filters: map<string, string>)
    requires forall i :: 0 <= i < |keys| ==> keys[i] in filters
    ensures var m := FilterMap(FilterFields(keys, filters));
      m.Some? && m.value == (map k | k in keys :: filters[k])
  {
    if keys != [] {
      FiltersBack(keys[1..], filters);
      assert keys == [keys[0]] + keys[1..];
    }
  }

  lemma FilterJsonBack(filters: map<string, string>)
    ensures FilterMap(FilterJson(filters).fields) == Some(filters)
  {
    var keys := Listing(filters.Keys);
    FiltersBack(keys, filters);
    assert forall k :: k in keys <==> k in filters;
    assert (map k | k in keys :: filters[k]) == filters;
  }

  lemma OmitLookup(name: string, value: Option<Json>, rest: Fields, wanted: string)
    ensures Lookup(Omit(name, value, rest), wanted) ==
      if name == wanted && value.Some? then value else Lookup(rest, wanted)
  {}

  lemma PositionLookup(p: Positions, name: string)
    ensures Lookup(PositionFields(p), name) ==
      if name == "tp" then TagJson(p.tag)
      else if name == "kp" then StampJson("i", "t", p.task)
      else if name == "ap" then StampJson("o", "a", p.audit)
      else if name == "enp" then StampJson("c", "e", p.environment)
      else if name == "sep" then StampJson("c", "s", p.secret)
      else if name == "svp" then StampJson("v", "s", p.secretVersion)
      else None
  {
    var f6 := Omit("svp", StampJson("v", "s", p.secretVersion), End);
    var f5 := Omit("sep", StampJson("c", "s", p.secret), f6);
    var f4 := Omit("enp", StampJson("c", "e", p.environment), f5);
    var f3 := Omit("ap", StampJson("o", "a", p.audit), f4);
    var f2 := Omit("kp", StampJson("i", "t", p.task), f3);
    OmitLookup("svp", StampJson("v", "s", p.secretVersion), End, name);
    OmitLookup("sep", StampJson("c", "s", p.secret), f6, name);
    OmitLookup("enp", StampJson("c", "e", p.environment), f5, name);
    OmitLookup("ap", StampJson("o", "a", p.audit), f4, name);
    OmitLookup("kp", StampJson("i", "t", p.task), f3, name);
    OmitLookup("tp", TagJson(p.tag), f2, name);
  }

  lemma StampBack(fields: Fields, name: string, at: string, id: string, p: Option<Stamp>)
    requires Lookup(fields, name) == StampJson(at, id, p) && at != id
    ensures StampAt(fields, name, at, id) == Some(p)
  {
    if p.Some? {
      var second := Field(id, Str(p.value.id), End);
      assert Lookup(second, id) == Some(Str(p.value.id));
      assert Lookup(Field(at, Num(p.value.at), second), id) == Lookup(second, id);
    }
  }

  lemma TagBack(fields: Fields, name: string, p: Option<TagPosition>)
    requires Lookup(fields, name) == TagJson(p)
    ensures TagAt(fields, name) == Some(p)
  {
    if p.Some? {
      var third := Field("y", Str(p.value.taskType), End);
      var second := Field("e", Str(p.value.tag), third);
      var first := Field("t", Str(p.value.team), second);
      assert Lookup(third, "y") == Some(Str(p.value.taskType));
      assert Lookup(second, "y") == Lookup(third, "y") && Lookup(second, "e") == Some(Str(p.value.tag));
      assert Lookup(first, "y") == Lookup(second, "y") && Lookup(first, "e") == Lookup(second, "e");
    }
  }

  const POSITION_NAMES := {"tp", "kp", "ap", "enp", "sep", "svp"}

  /** The members before the positions do not hide a position. */
  predicate SamePositions(f: Fields, p: Positions) {
    forall name :: name in POSITION_NAMES ==> Lookup(f, name) == Lookup(PositionFields(p), name)
  }

  lemma PositionsBack(f: Fields, p: Positions)
    requires SamePositions(f, p)
    ensures PositionsAt(f) == Some(p)
  {
    forall name | name in POSITION_NAMES { PositionLookup(p, name); }
    TagBack(f, "tp", p.tag);
    StampBack(f, "kp", "i", "t", p.task);
    StampBack(f, "ap", "o", "a", p.audit);
    StampBack(f, "enp", "c", "e", p.environment);
    StampBack(f, "sep", "c", "s", p.secret);
    StampBack(f, "svp", "v", "s", p.secretVersion);
  }

  lemma HeadLookup(env: Envelope, name: string)
    ensures Lookup(ToJson(env).fields, name) ==
      if name == "ep" then Some(Str(env.endpoint))
      else if name == "sc" then Some(Str(env.scope))
      else if name == "or" then Some(Str(env.ordering))
      else if name == "dr" then Some(Str(env.direction))
      else if name == "ft" then Some(FilterJson(env.filters))
      else Lookup(PositionFields(env.positions), name)
  {
    var f5 := Field("ft", FilterJson(env.filters), PositionFields(env.positions));
    var f4 := Field("dr", Str(env.direction), f5);
    var f3 := Field("or", Str(env.ordering), f4);
    var f2 := Field("sc", Str(env.scope), f3);
    assert name != "ft" ==> Lookup(f5, name) == Lookup(f5.rest, name);
    assert name != "dr" ==> Lookup(f4, name) == Lookup(f5, name);
    assert name != "or" ==> Lookup(f3, name) == Lookup(f4, name);
    assert name != "sc" ==> Lookup(f2, name) == Lookup(f3, name);
  }

  ghost predicate Heads(f: Fields, env: Envelope) {
    && Lookup(f, "ep") == Some(Str(env.endpoint)) && Lookup(f, "sc") == Some(Str(env.scope))
    && Lookup(f, "or") == Some(Str(env.ordering)) && Lookup(f, "dr") == Some(Str(env.direction))
    && Lookup(f, "ft") == Some(FilterJson(env.filters))
  }

  lemma HeadsHold(env: Envelope)
    ensures Heads(ToJson(env).fields, env)
  {
    HeadLookup(env, "ep");
    HeadLookup(env, "sc");
    HeadLookup(env, "or");
    HeadLookup(env, "dr");
    HeadLookup(env, "ft");
  }

  lemma NotHead(name: string)
    requires name in POSITION_NAMES
    ensures name != "ep" && name != "sc" && name != "or" && name != "dr" && name != "ft"
  {}

  lemma PositionsHold(env: Envelope)
    ensures SamePositions(ToJson(env).fields, env.positions)
  {
    forall name | name in POSITION_NAMES
      ensures Lookup(ToJson(env).fields, name) == Lookup(PositionFields(env.positions), name)
    {
      NotHead(name);
      HeadLookup(env, name);
    }
  }

  lemma FromLookups(f: Fields, env: Envelope)
    requires Heads(f, env) && SamePositions(f, env.positions)
    ensures FromFields(f) == Some(env)
  {
    PositionsBack(f, env.positions);
    FilterJsonBack(env.filters);
  }

  lemma FieldsBackToEnvelope(env: Envelope)
    ensures FromFields(ToJson(env).fields) == Some(env)
  {
    HeadsHold(env);
    PositionsHold(env);
    FromLookups(ToJson(env).fields, env);
  }

  // ----- ASCII envelopes

  predicate AsciiStamp(p: Option<Stamp>) { p.Some? ==> Ascii(p.value.id) }

  predicate AsciiTag(p: Option<TagPosition>) {
    p.Some? ==> Ascii(p.value.team) && Ascii(p.value.tag) && Ascii(p.value.taskType)
  }

  predicate AsciiPositions(p: Positions) {
    && AsciiTag(p.tag) && AsciiStamp(p.task) && AsciiStamp(p.audit)
    && AsciiStamp(p.environment) && AsciiStamp(p.secret) && AsciiStamp(p.secretVersion)
  }

  predicate AsciiFilters(filters: map<string, string>) {
    forall k :: k in filters ==> Ascii(k) && Ascii(filters[k])
  }

  predicate AsciiEnvelope(env: Envelope) {
    && Ascii(env.endpoint) && Ascii(env.scope) && Ascii(env.ordering) && Ascii(env.direction)
    && AsciiFilters(env.filters) && AsciiPositions(env.positions)
  }

  lemma {:induction false} FilterFieldsAscii(keys: seq<string>, filters: map<string, string>)
    requires forall i :: 0 <= i < |keys| ==> keys[i] in filters
    requires AsciiFilters(filters)
    ensures AsciiFields(FilterFields(keys, filters))
  {
    if keys != [] { FilterFieldsAscii(keys[1..], filters); }
  }

  lemma TextAscii(name: string, text: string, rest: Fields)
    requires Ascii(name) && Ascii(text) && AsciiFields(rest)
    ensures AsciiFields(Field(name, Str(text), rest))
  {
    assert AsciiJson(Str(text));
  }

  lemma OmitAscii(name: string, value: Option<Json>, rest: Fields)
    requires Ascii(name) && (value.Some? ==> AsciiJson(value.value)) && AsciiFields(rest)
    ensures AsciiFields(Omit(name, value, rest))
  {}

  lemma StampAscii(at: string, id: string, p: Option<Stamp>)
    requires Ascii(at) && Ascii(id) && AsciiStamp(p)
    ensures StampJson(at, id, p).Some? ==> AsciiJson(StampJson(at, id, p).value)
  {
    if p.Some? {
      TextAscii(id, p.value.id, End);
      var second := Field(id, Str(p.value.id), End);
      assert AsciiJson(Num(p.value.at));
      assert AsciiFields(Field(at, Num(p.value.at), second));
    }
  }

  lemma TagAscii(p: Option<TagPosition>)
    requires AsciiTag(p)
    ensures TagJson(p).Some? ==> AsciiJson(TagJson(p).value)
  {
    if p.Some? {
      var y := Field("y", Str(p.value.taskType), End);
      var e := Field("e", Str(p.value.tag), y);
      TextAscii("y", p.value.taskType, End);
      TextAscii("e", p.value.tag, y);
      TextAscii("t", p.value.team, e);
    }
  }

  lemma LaterAscii(p: Positions)
    requires AsciiPositions(p)
    ensures AsciiFields(LaterFields(p))
  {
    var f6 := Omit("svp", StampJson("v", "s", p.secretVersion), End);
    var f5 := Omit("sep", StampJson("c", "s", p.secret), f6);
    StampAscii("v", "s", p.secretVersion);
    OmitAscii("svp", StampJson("v", "s", p.secretVersion), End);
    StampAscii("c", "s", p.secret);
    OmitAscii("sep", StampJson("c", "s", p.secret), f6);
    StampAscii("c", "e", p.environment);
    OmitAscii("enp", StampJson("c", "e", p.environment), f5);
  }

  lemma PositionsAscii(p: Positions)
    requires AsciiPositions(p)
    ensures AsciiFields(PositionFields(p))
  {
    LaterAscii(p);
    var f4 := LaterFields(p);
    var f3 := Omit("ap", StampJson("o", "a", p.audit), f4);
    var f2 := Omit("kp", StampJson("i", "t", p.task), f3);
    StampAscii("o", "a", p.audit);
    OmitAscii("ap", StampJson("o", "a", p.audit), f4);
    StampAscii("i", "t", p.task);
    OmitAscii("kp", StampJson("i", "t", p.task), f3);
    TagAscii(p.tag);
    OmitAscii("tp", TagJson(p.tag), f2);
  }

  lemma EnvelopeAscii(env: Envelope)
    requires AsciiEnvelope(env)
    ensures AsciiJson(ToJson(env))
  {
    PositionsAscii(env.positions);
    FilterFieldsAscii(Listing(env.filters.Keys), env.filters);
    assert AsciiJson(FilterJson(env.filters));
    var f5 := Field("ft", FilterJson(env.filters), PositionFields(env.positions));
    var f4 := Field("dr", Str(env.direction), f5);
    var f3 := Field("or", Str(env.ordering), f4);
    var f2 := Field("sc", Str(env.scope), f3);
    TextAscii("dr", env.direction, f5);
    TextAscii("or", env.ordering, f4);
    TextAscii("sc", env.scope, f3);
    TextAscii("ep", env.endpoint, f2);
  }

  /** Every envelope of ASCII strings survives the wire. */
  lemma EnvelopeRoundTrip(env: Envelope)
    requires AsciiEnvelope(env)
    ensures Unmarshal(Marshal(env)) == Some(env)
  {
    EnvelopeAscii(env);
    ReadBack(ToJson(env));
    FieldsBackToEnvelope(env);
  }
}
