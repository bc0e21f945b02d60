/** What a cursor binds: which requests an issued token answers, under the same keyring and across rotations. */
module CursorTheorems {
  import opened Basics
  import opened Cursor
  import Base64Url
  import Json
  import Text

  /** What sealing needs of the libraries: bytes out, and JSON that reads back. */
  ghost predicate Faithful(lib: Library, env: Envelope) {
    && (forall key, message :: |lib.hmac(key, message)| == 32 && Base64Url.IsBytes(lib.hmac(key, message)))
    && Base64Url.IsBytes(lib.marshal(env))
    && lib.unmarshal(lib.marshal(env)) == Some(env)
  }

  lemma FiltersEqualExact(a: map<string, string>, b: map<string, string>)
    ensures FiltersEqual(a, b) <==> a == b
  {
    if FiltersEqual(a, b) {
      assert a.Keys <= b.Keys;
      if a.Keys != b.Keys {
        var k :| k in b.Keys && k !in a.Keys;
        SubsetSize(a.Keys, b.Keys - {k});
        assert false;
      }
    }
  }

  // ----- scopes

  /** `o` moves a `|`-separated piece of `i`'s operator into its team. */
  predicate Shifted(i: Identity, o: Identity) {
    && i.kind == "gateway" && o.kind == "gateway"
    && |i.team| < |o.team|
    && var mid := o.team[|i.team| + 1..];
      o.team == i.team + "|" + mid && i.operator == mid + "|" + o.operator
  }

  lemma SameJoin(a: string, x: string, b: string, y: string)
    requires |a| < |b|
    ensures a + "|" + x == b + "|" + y <==> b == a + "|" + b[|a| + 1..] && x == b[|a| + 1..] + "|" + y
  {
    var l, r := a + "|" + x, b + "|" + y;
    if l == r {
      assert a == l[..|a|] == r[..|a|] == b[..|a|];
      assert l[|a|] == r[|a|];
      assert b == b[..|a|] + [b[|a|]] + b[|a| + 1..];
      assert x == l[|a| + 1..] == r[|a| + 1..] == b[|a| + 1..] + "|" + y;
    }
    var mid := b[|a| + 1..];
    if b == a + "|" + mid && x == mid + "|" + y {
      assert a + "|" + (mid + "|" + y) == (a + "|" + mid) + "|" + y;
    }
  }

  lemma SameJoinAligned(a: string, x: string, b: string, y: string)
    requires |a| == |b|
    ensures a + "|" + x == b + "|" + y <==> a == b && x == y
  {
    var l, r := a + "|" + x, b + "|" + y;
    if l == r {
      assert a == l[..|a|] == r[..|a|] == b;
      assert x == l[|a| + 1..] == r[|a| + 1..] == y;
    }
  }

  lemma GatewayScope(i: Identity, o: Identity)
    requires i.kind == "gateway"
    ensures Scope(i) == Scope(o) <==> o.kind == "gateway" && i.team + "|" + i.operator == o.team + "|" + o.operator
  {
    assert Scope(i)[0] == 'g' && (o.kind != "gateway" ==> Scope(o)[0] != 'g');
    if o.kind == "gateway" {
      assert Scope(i) == "gateway|" + (i.team + "|" + i.operator);
      assert Scope(o) == "gateway|" + (o.team + "|" + o.operator);
      assert Scope(i)[8..] == i.team + "|" + i.operator;
      assert Scope(o)[8..] == o.team + "|" + o.operator;
    }
  }

  /** For an issuing identity, scopes collide beyond Equal in exactly one way. */
  lemma ScopeExact(i: Identity, o: Identity)
    requires i.kind == "gateway" || i.kind == "admin"
    ensures Scope(i) == Scope(o) <==> Equal(i, o) || Shifted(i, o) || Shifted(o, i)
  {
    if i.kind == "admin" {
      assert Scope(i)[0] == 'a' && (o.kind != "admin" ==> Scope(o)[0] != 'a');
    } else {
      GatewayScope(i, o);
      if |i.team| < |o.team| {
        SameJoin(i.team, i.operator, o.team, o.operator);
      } else if |o.team| < |i.team| {
        SameJoin(o.team, o.operator, i.team, i.operator);
      } else {
        SameJoinAligned(i.team, i.operator, o.team, o.operator);
      }
    }
  }

  lemma ShiftedPipes(i: Identity, o: Identity)
    ensures Shifted(i, o) ==> '|' in o.team && '|' in i.operator
  {
    if Shifted(i, o) {
      assert o.team[|i.team|] == '|';
      assert i.operator[|o.team| - |i.team| - 1] == '|';
    }
  }

  /** Team ids without `|` leave no collision. */
  lemma ScopeBinds(i: Identity, o: Identity)
    requires i.kind == "gateway" || i.kind == "admin"
    requires '|' !in i.team && '|' !in o.team
    ensures Scope(i) == Scope(o) <==> Equal(i, o)
  {
    ScopeExact(i, o);
    ShiftedPipes(i, o);
    ShiftedPipes(o, i);
  }

  /** A gateway identity's scope text is its own exactly when neither of its ids contains `|`. */
  lemma ScopeUnique(i: Identity)
    requires i.kind == "gateway"
    ensures (forall o :: Scope(i) == Scope(o) ==> Equal(i, o)) <==> '|' !in i.team && '|' !in i.operator
  {
    if '|' !in i.team && '|' !in i.operator {
      forall o | Scope(i) == Scope(o) ensures Equal(i, o) {
        ScopeExact(i, o);
        ShiftedPipes(i, o);
        ShiftedPipes(o, i);
      }
    } else {
      var o := SameScope(i);
      assert !(Scope(i) == Scope(o) ==> Equal(i, o));
    }
  }

  lemma SameScope(i: Identity) returns (o: Identity)
    requires i.kind == "gateway" && ('|' in i.team || '|' in i.operator)
    ensures Scope(i) == Scope(o) && !Equal(i, o)
  {
    if '|' in i.team {
      var k :| 0 <= k < |i.team| && i.team[k] == '|';
      var mid := i.team[k + 1..];
      o := Identity("gateway", i.team[..k], mid + "|" + i.operator);
      assert i.team == o.team + "|" + mid;
    } else {
      var k :| 0 <= k < |i.operator| && i.operator[k] == '|';
      var mid := i.operator[..k];
      o := Identity("gateway", i.team + "|" + mid, i.operator[k + 1..]);
      assert o.team[|i.team| + 1..] == mid;
      assert i.operator == mid + "|" + o.operator;
    }
    ScopeExact(i, o);
  }

  // ----- tokens

  /** The token carries its three parts exactly when the key id has no dot. */
  lemma TokenParts(keyId: string, envelope: string, mac: string)
    requires Base64Url.IsBytes(envelope) && Base64Url.IsBytes(mac)
    ensures '.' !in keyId ==>
      Text.Split(Token(keyId, envelope, mac), '.') ==
      [keyId, Base64Url.Encode(envelope), Base64Url.Encode(mac)]
    ensures '.' in keyId ==> |Text.Split(Token(keyId, envelope, mac), '.')| > 3
  {
    var e, m := Base64Url.Encode(envelope), Base64Url.Encode(mac);
    Base64Url.Digits(envelope);
    Base64Url.Digits(mac);
    assert '.' !in e && '.' !in m;
    Text.SplitFirst(e, m, '.');
    Text.SplitWhole(m, '.');
    if '.' in keyId {
      Text.SplitCount(Token(keyId, envelope, mac), '.');
    } else {
      Text.SplitFirst(keyId, e + "." + m, '.');
    }
  }

  // ----- what Encode and Decode accept, spelt out

  /** The scope text of an identity. */
  predicate Names(scope: string, i: Identity) {
    && (i.kind == "gateway" ==> scope == "gateway|" + i.team + "|" + i.operator)
    && (i.kind == "admin" ==> scope == "admin|admin")
    && (i.kind != "gateway" && i.kind != "admin" ==> scope == "unknown|" + i.kind)
  }

  /** What the MAC covers: the protocol version, the key id and the envelope bytes, apart by zero bytes. */
  function Message(keyId: string, envelope: string): string {
    "v0002-cursor/v1" + [0 as char] + keyId + [0 as char] + envelope
  }

  /** The text is three dot-free parts, the last of them the MAC of the middle one under the key the first one names. */
  predicate SealedText(lib: Library, keys: map<string, string>, text: string, id: string, body: string, mac: string) {
    && |text| <= 1536 && text == id + "." + body + "." + mac
    && '.' !in id && '.' !in body && '.' !in mac
    && 1 <= |id| <= 64 && id in keys && keys[id] != ""
    && Base64Url.Decode(body).Some?
    && Base64Url.Decode(mac) == Some(lib.hmac(keys[id], Message(id, Base64Url.Decode(body).value)))
  }

  /** The envelope is the one this request may resume from. */
  predicate Answers(env: Envelope, req: Request) {
    && env.endpoint == req.endpoint && Names(env.scope, req.identity)
    && env.ordering == req.ordering && env.direction == "forward" && env.filters == req.filters
  }

  lemma ThreeParts(text: string)
    ensures |Text.Split(text, '.')| == 3 ==>
      var p := Text.Split(text, '.');
      text == p[0] + "." + p[1] + "." + p[2] && '.' !in p[0] && '.' !in p[1] && '.' !in p[2]
  {
    var p := Text.Split(text, '.');
    Text.JoinSplit(text, '.');
    if |p| == 3 {
      assert Text.Join(p[1..], '.') == p[1] + "." + p[2] by { assert p[1..][1..] == [p[2]]; }
      assert p[0] + "." + (p[1] + "." + p[2]) == p[0] + "." + p[1] + "." + p[2];
    }
  }

  lemma PartsOf(id: string, body: string, mac: string)
    requires '.' !in id && '.' !in body && '.' !in mac
    ensures Text.Split(id + "." + body + "." + mac, '.') == [id, body, mac]
  {
    Text.SplitFirst(body, mac, '.');
    Text.SplitWhole(mac, '.');
    Text.SplitFirst(id, body + "." + mac, '.');
    assert id + "." + (body + "." + mac) == id + "." + body + "." + mac;
  }

  /** Opening and checking the seal succeeds exactly on sealed texts whose bytes parse, with the parsed envelope. */
  lemma UnsealExact(lib: Library, keys: map<string, string>, text: string, env: Envelope)
    ensures (exists id, body, mac ::
               && SealedText(lib, keys, text, id, body, mac)
               && lib.unmarshal(Base64Url.Decode(body).value) == Some(env)) <==>
            && Open(keys, text).Ok?
            && var (id, body, mac) := Open(keys, text).value;
              Unseal(lib, keys[id], id, body, mac) == Ok(env)
  {
    if id, body, mac :|
      (SealedText(lib, keys, text, id, body, mac) && lib.unmarshal(Base64Url.Decode(body).value) == Some(env))
    {
      PartsOf(id, body, mac);
    }
    if Open(keys, text).Ok? {
      var (id, body, mac) := Open(keys, text).value;
      ThreeParts(text);
      if Unseal(lib, keys[id], id, body, mac) == Ok(env) {
        assert SealedText(lib, keys, text, id, body, mac);
      }
    }
  }

  /**
   * Decode returns an envelope exactly when the token is a sealed text, for a key of this ring, of bytes that parse
   * to it, and it is one this request may resume from.
   */
  lemma DecodeExact(lib: Library, keyring: Option<Keyring>, req: Request, env: Envelope)
    ensures Decode(lib, keyring, req) == Ok(env) <==>
      && keyring.Some? && Answers(env, req)
      && exists id, body, mac ::
        && SealedText(lib, keyring.value.keys, req.token, id, body, mac)
        && lib.unmarshal(Base64Url.Decode(body).value) == Some(env)
  {
    if keyring.Some? {
      UnsealExact(lib, keyring.value.keys, req.token, env);
      FiltersEqualExact(env.filters, req.filters);
    }
  }

  /** The envelope says what was issued, field by field. */
  predicate Carries(env: Envelope, issue: Issue) {
    && env.endpoint == issue.endpoint && Names(env.scope, issue.identity) && env.ordering == issue.ordering
    && env.direction == "forward" && env.filters == issue.filters && env.positions == issue.positions
  }

  /**
   * Encode succeeds exactly for a complete issue by a gateway or admin identity under an active key, if the token
   * fits; the token is the key id, the envelope of the issue and its MAC.
   */
  lemma EncodeExact(lib: Library, keyring: Option<Keyring>, issue: Issue, token: string)
    ensures Encode(lib, keyring, issue) == Ok(token) <==>
      && keyring.Some? && keyring.value.active in keyring.value.keys
      && issue.endpoint != "" && issue.ordering != "" && issue.identity.kind in ["gateway", "admin"]
      && var (id, key) := (keyring.value.active, keyring.value.keys[keyring.value.active]);
        && key != "" && |token| <= 1536
        && exists env ::
          && Carries(env, issue)
          && token == id + "." + Base64Url.Encode(lib.marshal(env)) + "."
            + Base64Url.Encode(lib.hmac(key, Message(id, lib.marshal(env))))
  {
    var env := Sealed(issue);
    assert forall e :: Carries(e, issue) ==> e == env;
    if keyring.Some? && keyring.value.active in keyring.value.keys {
      var (id, key) := (keyring.value.active, keyring.value.keys[keyring.value.active]);
      var (body, mac) := (lib.marshal(env), lib.hmac(key, Message(id, lib.marshal(env))));
      assert Token(id, body, mac) == id + "." + Base64Url.Encode(body) + "." + Base64Url.Encode(mac);
    }
  }

  /** With no zero byte in the key ids, the message fixes the key id and the envelope bytes. */
  lemma MessageBinds(a: string, x: string, b: string, y: string)
    requires 0 as char !in a && 0 as char !in b
    ensures Message(a, x) == Message(b, y) <==> a == b && x == y
  {
    var l, r := Message(a, x), Message(b, y);
    if l == r {
      assert l[16..] == a + [0 as char] + x && r[16..] == b + [0 as char] + y;
      var la, rb := a + [0 as char] + x, b + [0 as char] + y;
      Text.SplitFirst(a, x, 0 as char);
      Text.SplitFirst(b, y, 0 as char);
      assert a == Text.Split(la, 0 as char)[0] == b;
      assert x == la[|a| + 1..] == rb[|a| + 1..] == y;
    }
  }

  /** Two tokens with the same key id and MAC part seal the same envelope, unless the MAC collides on two messages. */
  lemma OneSealOneEnvelope(
      lib: Library, keys: map<string, string>, t: string, u: string, id: string, b: string, c: string, mac: string)
    requires SealedText(lib, keys, t, id, b, mac) && SealedText(lib, keys, u, id, c, mac)
    ensures Base64Url.Decode(b) == Base64Url.Decode(c) ||
      exists m, n :: m != n && lib.hmac(keys[id], m) == lib.hmac(keys[id], n)
  {
    var x, y := Base64Url.Decode(b).value, Base64Url.Decode(c).value;
    var m, n := Message(id, x), Message(id, y);
    assert x == m[17 + |id|..] && y == n[17 + |id|..];
    assert lib.hmac(keys[id], m) == lib.hmac(keys[id], n);
  }

  /** What Open needs of the key id and the keyring. */
  predicate KeyUsable(keyId: string, keys: map<string, string>) {
    && keyId != "" && |keyId| <= MAX_KEY_ID_LENGTH && '.' !in keyId
    && keyId in keys && keys[keyId] != ""
  }

  lemma OpenIssued(keyId: string, envelope: string, mac: string, keys: map<string, string>)
    requires Base64Url.IsBytes(envelope) && Base64Url.IsBytes(mac)
    requires |Token(keyId, envelope, mac)| <= MAX_TOKEN_LENGTH
    ensures Open(keys, Token(keyId, envelope, mac)) ==
      (if KeyUsable(keyId, keys) then Ok((keyId, Base64Url.Encode(envelope), Base64Url.Encode(mac)))
       else Err(if '.' in keyId then "malformed token"
                else if keyId == "" || |keyId| > MAX_KEY_ID_LENGTH then "missing key_id" else "unknown key_id"))
  {
    TokenParts(keyId, envelope, mac);
  }

  lemma MatchSealed(issue: Issue, req: Request)
    ensures Match(Sealed(issue), req).Ok? <==>
      && issue.endpoint == req.endpoint && Scope(issue.identity) == Scope(req.identity)
      && issue.ordering == req.ordering && issue.filters == req.filters
    ensures Match(Sealed(issue), req).Ok? ==> Match(Sealed(issue), req).value == Sealed(issue)
  {
    FiltersEqualExact(issue.filters, req.filters);
  }

  /** The issued MAC is also the one `key` computes. */
  predicate MacAgrees(lib: Library, issued: Keyring, issue: Issue, key: string)
    requires issued.active in issued.keys
  {
    var envelope := lib.marshal(Sealed(issue));
    ComputeMac(lib, key, issued.active, envelope) ==
    ComputeMac(lib, issued.keys[issued.active], issued.active, envelope)
  }

  /**
   * Decode under any keyring accepts an issued token exactly when the issuing key id is usable there, its key computes
   * the issued MAC, and the request matches; it then returns the sealed envelope, position included.
   */
  lemma DecodeIssued(lib: Library, issued: Keyring, issue: Issue, ring: Keyring, req: Request)
    requires Faithful(lib, Sealed(issue))
    requires Encode(lib, Some(issued), issue) == Ok(req.token)
    ensures var out := Decode(lib, Some(ring), req);
      && (out.Ok? <==>
          && KeyUsable(issued.active, ring.keys)
          && MacAgrees(lib, issued, issue, ring.keys[issued.active])
          && issue.endpoint == req.endpoint && issue.ordering == req.ordering && issue.filters == req.filters
          && Scope(issue.identity) == Scope(req.identity))
      && (out.Ok? ==> out.value == Sealed(issue))
  {
    var envelope := lib.marshal(Sealed(issue));
    var mac := ComputeMac(lib, issued.keys[issued.active], issued.active, envelope);
    OpenIssued(issued.active, envelope, mac, ring.keys);
    Base64Url.RoundTrip(envelope);
    Base64Url.RoundTrip(mac);
    MatchSealed(issue, req);
  }

  /** With `|`-free teams and a usable dot-free key id, a token answers exactly the requests it was issued for. */
  lemma AcceptsExactly(lib: Library, ring: Keyring, issue: Issue, req: Request)
    requires Faithful(lib, Sealed(issue))
    requires Encode(lib, Some(ring), issue) == Ok(req.token)
    requires '.' !in ring.active && 1 <= |ring.active| <= MAX_KEY_ID_LENGTH
    requires '|' !in issue.identity.team && '|' !in req.identity.team
    ensures var out := Decode(lib, Some(ring), req);
      && (out.Ok? <==>
          && issue.endpoint == req.endpoint && issue.ordering == req.ordering && issue.filters == req.filters
          && Equal(issue.identity, req.identity))
      && (out.Ok? ==> out.value.positions == issue.positions)
  {
    DecodeIssued(lib, ring, issue, ring, req);
    ScopeBinds(issue.identity, req.identity);
  }

  /** The request that asks for the next page of what was issued. */
  function Resume(issue: Issue, token: string): Request {
    Request(token, issue.endpoint, issue.identity, issue.ordering, issue.filters)
  }

  /** The issuer can read its own token back exactly when its key id is short enough and has no dot. */
  lemma ReadsOwnToken(lib: Library, ring: Keyring, issue: Issue, token: string)
    requires Faithful(lib, Sealed(issue))
    requires Encode(lib, Some(ring), issue) == Ok(token)
    ensures Decode(lib, Some(ring), Resume(issue, token)).Ok? <==>
      '.' !in ring.active && 1 <= |ring.active| <= MAX_KEY_ID_LENGTH
    ensures '.' in ring.active ==>
      forall req: Request, other: Option<Keyring> :: req.token == token ==> Decode(lib, other, req).Err?
  {
    DecodeIssued(lib, ring, issue, ring, Resume(issue, token));
    forall req: Request, other: Option<Keyring> | '.' in ring.active && req.token == token
      ensures Decode(lib, other, req).Err?
    {
      if other.Some? { DecodeIssued(lib, ring, issue, other.value, req); }
    }
  }

  /** A rotation that keeps the old key for verification keeps its cursors; one that drops it rejects them all. */
  lemma Rotation(lib: Library, before: Keyring, after: Keyring, issue: Issue, req: Request)
    requires Faithful(lib, Sealed(issue))
    requires Encode(lib, Some(before), issue) == Ok(req.token)
    ensures before.active in after.keys && after.keys[before.active] == before.keys[before.active] ==>
      Decode(lib, Some(after), req) == Decode(lib, Some(before), req)
    ensures before.active !in after.keys ==> Decode(lib, Some(after), req).Err?
  {
    DecodeIssued(lib, before, issue, after, req);
    if before.active in after.keys && after.keys[before.active] == before.keys[before.active] {
      var envelope := lib.marshal(Sealed(issue));
      var mac := ComputeMac(lib, before.keys[before.active], before.active, envelope);
      OpenIssued(before.active, envelope, mac, after.keys);
      OpenIssued(before.active, envelope, mac, before.keys);
    }
  }

  // ----- page size

  lemma {:induction false} DecimalOfValue(s: string)
    requires IsCanonicalDecimal(s)
    ensures Json.ValueOf(s) > 0 && Json.Decimal(Json.ValueOf(s)) == s
  {
    var front, last := s[..|s| - 1], s[|s| - 1] as int - '0' as int;
    assert s == front + [s[|s| - 1]];
    if |s| > 1 {
      DecimalOfValue(front);
      assert Json.ValueOf(s) / 10 == Json.ValueOf(front) && Json.ValueOf(s) % 10 == last;
    }
  }

  /** No value means fifty; several are refused. */
  lemma LimitShape(values: Option<seq<string>>)
    ensures values.None? || |values.value| == 0 ==> ParseLimit(values) == Ok(50)
    ensures values.Some? && |values.value| > 1 ==> ParseLimit(values).Err?
  {}

  /** One value is accepted exactly when it is the decimal of a number from 1 to 200. */
  lemma LimitExact(raw: string, n: int)
    ensures ParseLimit(Some([raw])) == Ok(n) <==> 1 <= n <= 200 && raw == Json.Decimal(n)
  {
    if 1 <= n <= MAX_LIMIT && raw == Json.Decimal(n) {
      Json.DecimalDigits(n);
    }
    if IsCanonicalDecimal(raw) {
      DecimalOfValue(raw);
    }
  }
}
