/**
 * The State Registry's opaque pagination cursor: an envelope sealed under a rotating key. HMAC-SHA-256 and the JSON
 * library come in as functions; strings are byte strings.
 */
module Cursor {
  import opened Basics
  import Base64Url
  import Json
  import Text

  const DIRECTION := "forward"
  const MAX_TOKEN_LENGTH := 1536
  const MAX_KEY_ID_LENGTH := 64
  const PROTOCOL_HEADER := "v0002-cursor/v1"
  const DEFAULT_LIMIT := 50
  const MAX_LIMIT := 200
  const MAX_INT := 0x7fff_ffff_ffff_ffff

  datatype Result<+T> = Ok(value: T) | Err(reason: string)

  datatype Identity = Identity(kind: string, team: string, operator: string)

  datatype TagPosition = TagPosition(team: string, tag: string, taskType: string)
  /** A time (or a secret version) with the id that breaks ties. */
  datatype Stamp = Stamp(at: int, id: string)

  datatype Positions = Positions(
    tag: Option<TagPosition>,
    task: Option<Stamp>,
    audit: Option<Stamp>,
    environment: Option<Stamp>,
    secret: Option<Stamp>,
    secretVersion: Option<Stamp>)

  datatype Envelope = Envelope(
    endpoint: string, scope: string, ordering: string, direction: string,
    filters: map<string, string>, positions: Positions)

  datatype Issue = Issue(
    endpoint: string, identity: Identity, ordering: string, filters: map<string, string>, positions: Positions)

  datatype Request = Request(
    token: string, endpoint: string, identity: Identity, ordering: string, filters: map<string, string>)

  datatype Keyring = Keyring(active: string, keys: map<string, string>)

  datatype Library = Library(
    hmac: (string, string) -> string,
    marshal: Envelope -> string,
    unmarshal: string -> Option<Envelope>)

  function Scope(i: Identity): string {
    if i.kind == "gateway" then "gateway|" + i.team + "|" + i.operator
    else if i.kind == "admin" then "admin|admin"
    else "unknown|" + i.kind
  }

  predicate Equal(i: Identity, o: Identity) {
    && i.kind == o.kind
    && (i.kind == "admin" || (i.kind == "gateway" && i.team == o.team && i.operator == o.operator))
  }

  predicate FiltersEqual(a: map<string, string>, b: map<string, string>) {
    |a| == |b| && forall k :: k in a ==> k in b && a[k] == b[k]
  }

  function ComputeMac(lib: Library, key: string, keyId: string, envelope: string): string {
    lib.hmac(key, PROTOCOL_HEADER + [0 as char] + keyId + [0 as char] + envelope)
  }

  /** The envelope an issue is sealed as. */
  function Sealed(issue: Issue): Envelope {
    Envelope(issue.endpoint, Scope(issue.identity), issue.ordering, DIRECTION, issue.filters, issue.positions)
  }

  function Token(keyId: string, envelope: string, mac: string): string {
    keyId + "." + (Base64Url.Encode(envelope) + "." + Base64Url.Encode(mac))
  }

  function Encode(lib: Library, keyring: Option<Keyring>, issue: Issue): Result<string> {
    if keyring.None? then Err("nil keyring")
    else if issue.endpoint == "" || issue.ordering == "" then Err("missing endpoint or ordering")
    else if issue.identity.kind != "gateway" && issue.identity.kind != "admin" then Err("identity kind")
    else
      var ring := keyring.value;
      if ring.active !in ring.keys || ring.keys[ring.active] == "" then Err("keyring missing key")
      else
        var envelope := lib.marshal(Sealed(issue));
        var token := Token(ring.active, envelope, ComputeMac(lib, ring.keys[ring.active], ring.active, envelope));
        if |token| > MAX_TOKEN_LENGTH then Err("encoded token exceeds maximum length") else Ok(token)
  }

  /** Splits the token and looks the key up. */
  function Open(keys: map<string, string>, token: string): Result<(string, string, string)> {
    if token == "" then Err("empty token")
    else if |token| > MAX_TOKEN_LENGTH then Err("token too long")
    else
      var parts := Text.Split(token, '.');
      if |parts| != 3 then Err("malformed token")
      else if parts[0] == "" || |parts[0]| > MAX_KEY_ID_LENGTH then Err("missing key_id")
      else if parts[0] !in keys || keys[parts[0]] == "" then Err("unknown key_id")
      else Ok((parts[0], parts[1], parts[2]))
  }

  /** Checks the seal before anything inside is looked at. */
  function Unseal(lib: Library, key: string, keyId: string, envelope: string, mac: string): Result<Envelope> {
    match Base64Url.Decode(envelope)
    case None => Err("envelope decode")
    case Some(bytes) =>
      match Base64Url.Decode(mac)
      case None => Err("mac decode")
      case Some(macBytes) =>
        if ComputeMac(lib, key, keyId, bytes) != macBytes then Err("mac mismatch")
        else match lib.unmarshal(bytes)
          case None => Err("envelope parse")
          case Some(env) => Ok(env)
  }

  function Match(env: Envelope, req: Request): Result<Envelope> {
    if env.endpoint != req.endpoint then Err("endpoint mismatch")
    else if env.scope != Scope(req.identity) then Err("scope mismatch")
    else if env.ordering != req.ordering then Err("ordering mismatch")
    else if env.direction != DIRECTION then Err("direction mismatch")
    else if !FiltersEqual(env.filters, req.filters) then Err("filter mismatch")
    else Ok(env)
  }

  function Decode(lib: Library, keyring: Option<Keyring>, req: Request): Result<Envelope> {
    if keyring.None? then Err("nil keyring")
    else match Open(keyring.value.keys, req.token)
      case Err(reason) => Err(reason)
      case Ok((keyId, envelope, mac)) =>
        assert keyId in keyring.value.keys;
        match Unseal(lib, keyring.value.keys[keyId], keyId, envelope, mac)
        case Err(reason) => Err(reason)
        case Ok(env) => Match(env, req)
  }

  // ----- page size

  predicate IsSpace(c: char) { c == ' ' || '\t' <= c <= '\r' }

  predicate IsCanonicalDecimal(s: string) {
    && s != ""
    && (forall i :: 0 <= i < |s| ==> Json.IsDigit(s[i]))
    && s[0] != '0'
  }

  /** The `limit` query values; `None` when the key is absent. */
  function ParseLimit(values: Option<seq<string>>): Result<int> {
    if values.None? || values.value == [] then Ok(DEFAULT_LIMIT)
    else if |values.value| > 1 then Err("limit multiple values")
    else
      var raw := values.value[0];
      if raw == "" then Err("limit empty")
      else if IsSpace(raw[0]) || IsSpace(raw[|raw| - 1]) then Err("limit whitespace")
      else if !IsCanonicalDecimal(raw) then Err("limit not canonical decimal")
      else
        var n := Json.ValueOf(raw);
        if n > MAX_INT then Err("limit not integer")
        else if n < 1 || n > MAX_LIMIT then Err("limit out of range")
        else Ok(n)
  }
}
