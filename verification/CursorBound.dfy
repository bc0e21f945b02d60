/** The admin tag listing's cursors: how long the envelope is to the byte, and that the token always fits. */
module CursorBound {
  import opened Basics
  import opened Cursor
  import opened CursorJson
  import opened Json
  import Base64Url
  import CursorTheorems
  import Order

  const ENDPOINT_ADMIN_TAGS := "GET:/admin/tags"
  const ORDERING_ADMIN_TAGS := "team_id_asc__" + "execution_tag_asc__" + "task_type_id_asc"

  predicate Alphanumeric(c: char) { 'a' <= c <= 'z' || 'A' <= c <= 'Z' || '0' <= c <= '9' }

  /** The identifier pattern with a length limit. */
  predicate ValidIdentifier(s: string, max: nat) {
    && 1 <= |s| <= max && Alphanumeric(s[0])
    && forall i :: 0 <= i < |s| ==> Alphanumeric(s[i]) || s[i] == '.' || s[i] == '_' || s[i] == ':' || s[i] == '-'
  }

  /** A listing filter may also be left empty. */
  predicate ValidFilter(s: string, max: nat) { s == "" || ValidIdentifier(s, max) }

  predicate ValidTagPosition(p: TagPosition) {
    ValidIdentifier(p.team, 128) && ValidIdentifier(p.tag, 256) && ValidIdentifier(p.taskType, 128)
  }

  /** What the admin tag listing seals for the next page. */
  function AdminTagsIssue(admin: Identity, team: string, tag: string, after: TagPosition): Issue {
    Issue(ENDPOINT_ADMIN_TAGS, admin, ORDERING_ADMIN_TAGS, map["team_id" := team, "tag" := tag],
      Positions(Some(after), None, None, None, None, None))
  }

  // ----- bytes

  lemma {:induction false} DecimalBytes(n: nat)
    ensures Base64Url.IsBytes(Decimal(n))
  {
    if n >= 10 { DecimalBytes(n / 10); }
  }

  lemma {:induction false} EscapedBytes(text: string)
    requires Ascii(text)
    ensures Base64Url.IsBytes(Escaped(text))
  {
    if text != "" { EscapedBytes(text[1..]); }
  }

  lemma {:induction false} PutBytes(j: Json, rest: string)
    requires AsciiJson(j) && Base64Url.IsBytes(rest)
    ensures Base64Url.IsBytes(Put(j, rest))
    decreases j
  {
    match j
    case Str(text) => EscapedBytes(text);
    case Num(n) => DecimalBytes(if n < 0 then -n else n);
    case Obj(fields) => PutFieldsBytes(fields, rest);
  }

  lemma {:induction false} PutFieldsBytes(f: Fields, rest: string)
    requires AsciiFields(f) && Base64Url.IsBytes(rest)
    ensures Base64Url.IsBytes(PutFields(f, rest))
    decreases f
  {
    if f.Field? {
      EscapedBytes(f.name);
      PutFieldsBytes(f.rest, rest);
      PutBytes(f.value, if f.rest.End? then "}" + rest else "," + PutFields(f.rest, rest));
    }
  }

  /** Go's JSON encoder and decoder on envelopes of ASCII strings, with any MAC function. */
  ghost function WithJson(hmac: (string, string) -> string): Library {
    Library(hmac, e => if AsciiEnvelope(e) then Marshal(e) else "", s => Unmarshal(s))
  }

  ghost predicate MacBytes(hmac: (string, string) -> string) {
    forall key, message :: |hmac(key, message)| == 32 && Base64Url.IsBytes(hmac(key, message))
  }

  /** On ASCII envelopes the JSON encoding is faithful, so the cursor theorems apply to it. */
  lemma AsciiIsFaithful(hmac: (string, string) -> string, env: Envelope)
    requires MacBytes(hmac) && AsciiEnvelope(env)
    ensures CursorTheorems.Faithful(WithJson(hmac), env)
  {
    EnvelopeRoundTrip(env);
    EnvelopeAscii(env);
    PutBytes(ToJson(env), "");
  }

  // ----- length

  lemma TextSize(name: string, text: string, rest: Fields)
    requires Verbatim(name) && Verbatim(text) && AsciiFields(rest)
    ensures AsciiFields(Field(name, Str(text), rest))
    ensures SizeFields(Field(name, Str(text), rest)) == |name| + 6 + |text| + if rest.End? then 0 else SizeFields(rest)
  {
    EscapedVerbatim(name);
    EscapedVerbatim(text);
    assert AsciiJson(Str(text)) && Size(Str(text)) == |text| + 2;
  }

  lemma ObjSize(name: string, fields: Fields, rest: Fields)
    requires Verbatim(name) && AsciiFields(fields) && AsciiFields(rest)
    ensures AsciiFields(Field(name, Obj(fields), rest))
    ensures SizeFields(Field(name, Obj(fields), rest)) ==
      |name| + 5 + SizeFields(fields) + if rest.End? then 0 else SizeFields(rest)
  {
    EscapedVerbatim(name);
    assert AsciiJson(Obj(fields)) && Size(Obj(fields)) == 1 + SizeFields(fields);
  }

  lemma FilterOrder()
    ensures Listing({"team_id", "tag"}) == ["tag", "team_id"]
  {
    var keys := ["tag", "team_id"];
    assert "tag"[1..] == "ag" && "team_id"[1..] == "eam_id";
    assert Order.Less("ag", "eam_id") && Order.Less("tag", "team_id");
    assert Order.Lists(keys, {"team_id", "tag"});
    Order.ListingUnique(keys, Listing({"team_id", "tag"}), {"team_id", "tag"});
  }

  lemma FilterText(team: string, tag: string)
    ensures FilterJson(map["team_id" := team, "tag" := tag]) ==
      Obj(Field("tag", Str(tag), Field("team_id", Str(team), End)))
  {
    var filters := map["team_id" := team, "tag" := tag];
    assert filters.Keys == {"team_id", "tag"};
    FilterOrder();
    assert ["tag", "team_id"][1..] == ["team_id"];
    assert FilterFields(["team_id"], filters) == Field("team_id", Str(team), End);
  }

  lemma FilterSize(team: string, tag: string)
    requires Verbatim(team) && Verbatim(tag)
    ensures var fields := FilterJson(map["team_id" := team, "tag" := tag]).fields;
      AsciiFields(fields) && SizeFields(fields) == |team| + |tag| + 22
  {
    var second := Field("team_id", Str(team), End);
    FilterText(team, tag);
    TextSize("team_id", team, End);
    TextSize("tag", tag, second);
  }

  lemma TagSize(p: TagPosition)
    requires Verbatim(p.team) && Verbatim(p.tag) && Verbatim(p.taskType)
    ensures var fields := TagJson(Some(p)).value.fields;
      AsciiFields(fields) && SizeFields(fields) == |p.team| + |p.tag| + |p.taskType| + 21
  {
    var third := Field("y", Str(p.taskType), End);
    var second := Field("e", Str(p.tag), third);
    TextSize("y", p.taskType, End);
    TextSize("e", p.tag, third);
    TextSize("t", p.team, second);
  }

  /** The texts an admin tag cursor carries are written as they stand. */
  predicate VerbatimTags(team: string, tag: string, after: TagPosition) {
    && Verbatim(team) && Verbatim(tag)
    && Verbatim(after.team) && Verbatim(after.tag) && Verbatim(after.taskType)
  }

  lemma TailSize(filters: map<string, string>, team: string, tag: string, after: TagPosition)
    requires filters == map["team_id" := team, "tag" := tag] && VerbatimTags(team, tag, after)
    ensures var f6 := Field("tp", TagJson(Some(after)).value, End);
      var f5 := Field("ft", FilterJson(filters), f6);
      AsciiFields(f5) && SizeFields(f5) == |team| + |tag| + |after.team| + |after.tag| + |after.taskType| + 57
  {
    TagSize(after);
    ObjSize("tp", TagJson(Some(after)).value.fields, End);
    FilterSize(team, tag);
    ObjSize("ft", FilterJson(filters).fields, Field("tp", TagJson(Some(after)).value, End));
  }

  lemma LabelsVerbatim()
    ensures Verbatim(ENDPOINT_ADMIN_TAGS) && Verbatim("admin|admin") && Verbatim(DIRECTION)
  {}

  lemma OrderingVerbatim()
    ensures Verbatim(ORDERING_ADMIN_TAGS)
  {
    VerbatimJoin("team_id_asc__", "execution_tag_asc__", "task_type_id_asc");
  }

  lemma VerbatimJoin(a: string, b: string, c: string)
    requires Verbatim(a) && Verbatim(b) && Verbatim(c)
    ensures Verbatim(a + b + c)
  {}

  lemma AdminTagsSize(env: Envelope, team: string, tag: string, after: TagPosition)
    requires env.filters == map["team_id" := team, "tag" := tag] && VerbatimTags(team, tag, after)
    requires env.positions == Positions(Some(after), None, None, None, None, None)
    requires Verbatim(env.endpoint) && Verbatim(env.scope) && Verbatim(env.ordering) && Verbatim(env.direction)
    ensures AsciiJson(ToJson(env))
    ensures Size(ToJson(env)) == |env.endpoint| + |env.scope| + |env.ordering| + |env.direction|
      + |team| + |tag| + |after.team| + |after.tag| + |after.taskType| + 90
  {
    TailSize(env.filters, team, tag, after);
    var f6 := PositionFields(env.positions);
    assert f6 == Field("tp", TagJson(Some(after)).value, End);
    var f5 := Field("ft", FilterJson(env.filters), f6);
    var f4 := Field("dr", Str(env.direction), f5);
    TextSize("dr", env.direction, f5);
    var f3 := Field("or", Str(env.ordering), f4);
    TextSize("or", env.ordering, f4);
    var f2 := Field("sc", Str(env.scope), f3);
    TextSize("sc", env.scope, f3);
    TextSize("ep", env.endpoint, f2);
  }

  /** The envelope is 171 bytes of frame plus the five texts it carries. */
  lemma AdminTagsLength(admin: Identity, team: string, tag: string, after: TagPosition)
    requires admin.kind == "admin" && VerbatimTags(team, tag, after)
    ensures var env := Sealed(AdminTagsIssue(admin, team, tag, after));
      && AsciiEnvelope(env)
      && |Marshal(env)| == 171 + |team| + |tag| + |after.team| + |after.tag| + |after.taskType|
  {
    var env := Sealed(AdminTagsIssue(admin, team, tag, after));
    LabelsVerbatim();
    OrderingVerbatim();
    AdminTagsAscii(env, team, tag, after);
    AdminTagsSize(env, team, tag, after);
    PutSize(ToJson(env), "");
  }

  lemma AdminTagsAscii(env: Envelope, team: string, tag: string, after: TagPosition)
    requires env.filters == map["team_id" := team, "tag" := tag] && VerbatimTags(team, tag, after)
    requires env.positions == Positions(Some(after), None, None, None, None, None)
    requires Verbatim(env.endpoint) && Verbatim(env.scope) && Verbatim(env.ordering) && Verbatim(env.direction)
    ensures AsciiEnvelope(env)
  {
    var filters := env.filters;
    assert Ascii("team_id") && Ascii("tag");
    forall k | k in filters ensures Ascii(k) && Ascii(filters[k]) {
      assert k == "team_id" || k == "tag";
    }
  }

  lemma TokenLength(keyId: string, envelope: string, mac: string)
    requires Base64Url.IsBytes(envelope) && Base64Url.IsBytes(mac) && |mac| == 32
    ensures |Token(keyId, envelope, mac)| == |keyId| + 45 + (4 * |envelope| + 2) / 3
  {
    Base64Url.Digits(envelope);
    Base64Url.Digits(mac);
  }

  lemma ValidVerbatim(team: string, tag: string, after: TagPosition)
    requires ValidFilter(team, 128) && ValidFilter(tag, 256) && ValidTagPosition(after)
    ensures VerbatimTags(team, tag, after)
  {}

  /**
   * With a key id of at most 64 bytes every valid admin tag page gets a cursor: the envelope has at most 1067 bytes
   * and the token at most 1532, below the limit of 1536.
   */
  lemma AdminTagsFits(
      hmac: (string, string) -> string, ring: Keyring, admin: Identity, team: string, tag: string, after: TagPosition)
    requires MacBytes(hmac)
    requires |ring.active| <= MAX_KEY_ID_LENGTH && ring.active in ring.keys && ring.keys[ring.active] != ""
    requires admin.kind == "admin" && ValidFilter(team, 128) && ValidFilter(tag, 256) && ValidTagPosition(after)
    ensures var issue := AdminTagsIssue(admin, team, tag, after);
      var token := Encode(WithJson(hmac), Some(ring), issue);
      AsciiEnvelope(Sealed(issue)) && |Marshal(Sealed(issue))| <= 1067 && token.Ok? && |token.value| <= 1532
  {
    var lib, issue := WithJson(hmac), AdminTagsIssue(admin, team, tag, after);
    ValidVerbatim(team, tag, after);
    AdminTagsLength(admin, team, tag, after);
    AsciiIsFaithful(hmac, Sealed(issue));
    var envelope := lib.marshal(Sealed(issue));
    TokenLength(ring.active, envelope, ComputeMac(lib, ring.keys[ring.active], ring.active, envelope));
  }
}
