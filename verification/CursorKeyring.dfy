/** Loading the rotating cursor keyring: one signing key and the previous keys that still verify. */
module CursorKeyring {
  import opened Basics
  import opened Cursor
  import Base64Url
  import CursorTheorems

  const CURSOR_KEY_SINGLE := "state-registry-cursor-v1"
  const MAX_KEY_COUNT := 8

  /** The optional JSON object of previous keys: unset, not a string map, or decoded. */
  datatype Previous = Absent | Malformed | Keys(keys: map<string, string>)

  datatype Settings = Settings(activeId: string, activeHex: string, previous: Previous)

  // ----- hexadecimal keys

  predicate IsHex(c: char) { '0' <= c <= '9' || 'a' <= c <= 'f' || 'A' <= c <= 'F' }

  function Nibble(c: char): (n: int)
    requires IsHex(c)
    ensures 0 <= n < 16
  {
    if c <= '9' then c as int - '0' as int
    else if 'a' <= c then c as int - 'a' as int + 10
    else c as int - 'A' as int + 10
  }

  function HexDecode(s: string): Option<string> {
    if s == "" then Some("")
    else if |s| == 1 || !IsHex(s[0]) || !IsHex(s[1]) then None
    else match HexDecode(s[2..])
      case None => None
      case Some(rest) => Some([(Nibble(s[0]) * 16 + Nibble(s[1])) as char] + rest)
  }

  lemma {:induction false} HexShape(s: string)
    ensures HexDecode(s).Some? <==> |s| % 2 == 0 && forall i :: 0 <= i < |s| ==> IsHex(s[i])
    ensures HexDecode(s).Some? ==> 2 * |HexDecode(s).value| == |s| && Base64Url.IsBytes(HexDecode(s).value)
  {
    if |s| >= 2 {
      HexShape(s[2..]);
      assert s == s[..2] + s[2..];
    }
  }

  function DecodeKey(hex: string): Option<string> {
    if hex == "" then None
    else match HexDecode(hex)
      case None => None
      case Some(key) => if |key| != 32 then None else Some(key)
  }

  function HexDigit(n: int): (c: char)
    requires 0 <= n < 16
    ensures IsHex(c) && Nibble(c) == n
  {
    if n < 10 then ('0' as int + n) as char else ('a' as int + n - 10) as char
  }

  function HexEncode(key: string): string
    requires Base64Url.IsBytes(key)
  {
    if key == "" then ""
    else [HexDigit(key[0] as int / 16), HexDigit(key[0] as int % 16)] + HexEncode(key[1..])
  }

  lemma {:induction false} HexRoundTrip(key: string)
    requires Base64Url.IsBytes(key)
    ensures HexDecode(HexEncode(key)) == Some(key)
  {
    if key != "" {
      HexRoundTrip(key[1..]);
      assert HexEncode(key)[2..] == HexEncode(key[1..]);
      assert [key[0]] + key[1..] == key;
    }
  }

  /** Every 32-byte key can be configured. */
  lemma KeyConfigurable(key: string)
    requires |key| == 32 && Base64Url.IsBytes(key)
    ensures DecodeKey(HexEncode(key)) == Some(key)
  {
    HexRoundTrip(key);
    HexShape(HexEncode(key));
  }

  /** A key setting is usable exactly when it is 64 hexadecimal digits. */
  lemma KeyShape(hex: string)
    ensures DecodeKey(hex).Some? <==> |hex| == 64 && forall i :: 0 <= i < |hex| ==> IsHex(hex[i])
  {
    HexShape(hex);
  }

  // ----- loading

  predicate KeyIdChar(c: char) {
    || 'a' <= c <= 'z' || 'A' <= c <= 'Z' || '0' <= c <= '9'
    || c == '.' || c == '_' || c == ':' || c == '-'
  }

  predicate ValidKeyId(id: string) {
    1 <= |id| <= MAX_KEY_ID_LENGTH && forall i :: 0 <= i < |id| ==> KeyIdChar(id[i])
  }

  function ActiveId(s: Settings): string { if s.activeId == "" then CURSOR_KEY_SINGLE else s.activeId }

  function PreviousKeys(s: Settings): map<string, string> { if s.previous.Keys? then s.previous.keys else map[] }

  predicate PreviousOk(s: Settings, id: string)
    requires id in PreviousKeys(s)
  {
    ValidKeyId(id) && id != ActiveId(s) && DecodeKey(PreviousKeys(s)[id]).Some?
  }

  function PreviousKey(s: Settings, id: string): string
    requires id in PreviousKeys(s) && PreviousOk(s, id)
  {
    DecodeKey(PreviousKeys(s)[id]).value
  }

  predicate Loadable(s: Settings) {
    && ValidKeyId(ActiveId(s)) && DecodeKey(s.activeHex).Some?
    && !s.previous.Malformed? && |PreviousKeys(s)| + 1 <= MAX_KEY_COUNT
    && AllOk(s, PreviousKeys(s).Keys)
  }

  /** The previous keys among `ids`, decoded. */
  ghost function Decoded(s: Settings, ids: set<string>): map<string, string>
    requires AllOk(s, ids)
  {
    map id | id in ids :: PreviousKey(s, id)
  }

  /** The keys loaded once `ids` have been visited. */
  ghost function Visited(s: Settings, key: string, ids: set<string>): map<string, string>
    requires AllOk(s, ids)
  {
    map[ActiveId(s) := key] + Decoded(s, ids)
  }

  predicate AllOk(s: Settings, ids: set<string>) {
    forall id :: id in ids ==> id in PreviousKeys(s) && PreviousOk(s, id)
  }

  lemma VisitedStep(s: Settings, key: string, ids: set<string>, id: string)
    requires AllOk(s, ids + {id})
    ensures Visited(s, key, ids + {id}) == Visited(s, key, ids)[id := PreviousKey(s, id)]
  {}

  ghost function Loaded(s: Settings): Keyring
    requires Loadable(s)
  {
    Keyring(ActiveId(s), Visited(s, DecodeKey(s.activeHex).value, PreviousKeys(s).Keys))
  }

  method DecodePrevious(s: Settings, id: string) returns (r: Result<string>)
    requires id in PreviousKeys(s)
    ensures r.Ok? <==> PreviousOk(s, id)
    ensures r.Ok? ==> r.value == PreviousKey(s, id)
  {
    if !ValidKeyId(id) { return Err("previous key id"); }
    if id == ActiveId(s) { return Err("repeats active key id"); }
    var key := DecodeKey(PreviousKeys(s)[id]);
    r := if key.Some? then Ok(key.value) else Err("previous key");
  }

  /** Map iteration order is arbitrary; whether loading succeeds, and with which keys, does not depend on it. */
  method LoadPrevious(s: Settings, key: string) returns (r: Result<map<string, string>>)
    ensures r.Ok? <==> AllOk(s, PreviousKeys(s).Keys)
    ensures r.Ok? ==> r.value == Visited(s, key, PreviousKeys(s).Keys)
  {
    var all := PreviousKeys(s).Keys;
    var keys, todo := map[ActiveId(s) := key], all;
    while todo != {}
      invariant todo <= all && AllOk(s, all - todo)
      invariant keys == Visited(s, key, all - todo)
      decreases |todo|
    {
      var id :| id in todo;
      var decoded := DecodePrevious(s, id);
      if decoded.Err? { return Err(decoded.reason); }
      assert all - (todo - {id}) == all - todo + {id};
      VisitedStep(s, key, all - todo, id);
      keys, todo := keys[id := decoded.value], todo - {id};
    }
    assert all - todo == all;
    r := Ok(keys);
  }

  method LoadRotating(s: Settings) returns (r: Result<Keyring>)
    ensures r.Ok? <==> Loadable(s)
    ensures r.Ok? ==> r.value == Loaded(s)
  {
    if !ValidKeyId(ActiveId(s)) { return Err("key id"); }
    var key := DecodeKey(s.activeHex);
    if key.None? { return Err("active key"); }
    if s.previous.Malformed? { return Err("previous keys json"); }
    if |PreviousKeys(s)| + 1 > MAX_KEY_COUNT { return Err("too many keys"); }
    var keys := LoadPrevious(s, key.value);
    r := if keys.Ok? then Ok(Keyring(ActiveId(s), keys.value)) else Err(keys.reason);
  }

  // ----- the settings, spelt out

  /** One hexadecimal digit of this value, in either case. */
  predicate Writes(c: char, n: int) {
    0 <= n < 16 && (c == "0123456789abcdef"[n] || c == "0123456789ABCDEF"[n])
  }

  /** Two digits for every byte of the key, the high half first. */
  predicate Spells(hex: string, key: string) {
    && |hex| == 2 * |key|
    && forall i :: 0 <= i < |key| ==> SpellsByte(hex, key, i)
  }

  predicate SpellsByte(hex: string, key: string, i: nat)
    requires |hex| == 2 * |key| && i < |key|
  {
    key[i] as int < 256 && Writes(hex[2 * i], key[i] as int / 16) && Writes(hex[2 * i + 1], key[i] as int % 16)
  }

  lemma NibbleChars(n: int)
    requires 0 <= n < 16
    ensures "0123456789abcdef"[n] as int == if n < 10 then '0' as int + n else 'a' as int + n - 10
    ensures "0123456789ABCDEF"[n] as int == if n < 10 then '0' as int + n else 'A' as int + n - 10
  {}

  lemma NibbleExact(c: char, n: int)
    ensures IsHex(c) && Nibble(c) == n <==> Writes(c, n)
  {
    if 0 <= n < 16 { NibbleChars(n); }
  }

  lemma SpellsOn(hex: string, key: string)
    requires |hex| == 2 * |key| && key != ""
    ensures Spells(hex, key) <==> SpellsByte(hex, key, 0) && Spells(hex[2..], key[1..])
  {
    var h, k := hex[2..], key[1..];
    assert forall i :: 0 <= i < |k| ==> (SpellsByte(h, k, i) <==> SpellsByte(hex, key, i + 1));
    assert forall i :: 0 < i < |key| ==> (SpellsByte(hex, key, i) <==> SpellsByte(h, k, i - 1));
  }

  /** A setting decodes to exactly the bytes its digits spell. */
  lemma {:induction false} HexExact(hex: string, key: string)
    ensures HexDecode(hex) == Some(key) <==> Spells(hex, key)
  {
    HexShape(hex);
    if |hex| == 2 * |key| && key != "" {
      HexExact(hex[2..], key[1..]);
      SpellsOn(hex, key);
      HexStep(hex, key);
    }
  }

  lemma HexStep(hex: string, key: string)
    requires |hex| == 2 * |key| && key != ""
    ensures HexDecode(hex) == Some(key) <==> SpellsByte(hex, key, 0) && HexDecode(hex[2..]) == Some(key[1..])
  {
    var b := key[0] as int;
    NibbleExact(hex[0], b / 16);
    NibbleExact(hex[1], b % 16);
    assert key == [key[0]] + key[1..];
    if IsHex(hex[0]) && IsHex(hex[1]) { HalvesExact(Nibble(hex[0]), Nibble(hex[1]), b); }
  }

  lemma HalvesExact(high: int, low: int, b: int)
    requires 0 <= high < 16 && 0 <= low < 16
    ensures high * 16 + low == b <==> high == b / 16 && low == b % 16
  {}

  /** A key id: 1 to 64 letters, digits, dots, underscores, colons and hyphens. */
  predicate AllowedId(id: string) {
    && 1 <= |id| <= 64
    && forall i :: 0 <= i < |id| ==>
      var c := id[i] as int;
      97 <= c <= 122 || 65 <= c <= 90 || 48 <= c <= 57 || c in [45, 46, 58, 95]
  }

  /** The setting spells 32 bytes. */
  ghost predicate KeyText(hex: string) { exists key :: |key| == 32 && Spells(hex, key) }

  lemma KeyExact(hex: string)
    ensures DecodeKey(hex).Some? <==> KeyText(hex)
    ensures DecodeKey(hex).Some? ==> Spells(hex, DecodeKey(hex).value)
  {
    if key :| |key| == 32 && Spells(hex, key) { HexExact(hex, key); }
    if HexDecode(hex).Some? { HexExact(hex, HexDecode(hex).value); }
  }

  /** The settings load exactly when ids are allowed and distinct, keys spell 32 bytes and at most seven are old. */
  lemma LoadableExact(s: Settings)
    ensures var active := if s.activeId == "" then "state-registry-cursor-v1" else s.activeId;
      Loadable(s) <==>
        && AllowedId(active) && KeyText(s.activeHex) && !s.previous.Malformed?
        && (s.previous.Keys? ==>
              && |s.previous.keys| <= 7
              && forall id :: id in s.previous.keys ==>
                AllowedId(id) && id != active && KeyText(s.previous.keys[id]))
  {
    KeyExact(s.activeHex);
    forall id | id in PreviousKeys(s)
      ensures PreviousOk(s, id) <==> AllowedId(id) && id != ActiveId(s) && KeyText(PreviousKeys(s)[id])
    {
      KeyExact(PreviousKeys(s)[id]);
    }
  }

  /** What is loaded: the active key and the previous ones, each the bytes its setting spells. */
  lemma LoadedExact(s: Settings)
    requires Loadable(s)
    ensures var ring := Loaded(s);
      && ring.active == (if s.activeId == "" then "state-registry-cursor-v1" else s.activeId)
      && ring.keys.Keys == PreviousKeys(s).Keys + {ring.active}
      && Spells(s.activeHex, ring.keys[ring.active])
      && forall id :: id in PreviousKeys(s) ==> Spells(PreviousKeys(s)[id], ring.keys[id])
  {
    var ring := Loaded(s);
    KeyExact(s.activeHex);
    forall id | id in PreviousKeys(s) ensures Spells(PreviousKeys(s)[id], ring.keys[id]) {
      KeyExact(PreviousKeys(s)[id]);
      assert PreviousOk(s, id);
    }
    assert ActiveId(s) !in PreviousKeys(s);
  }

  /** Every loaded keyring has the active key, at most eight keys, and only 32-byte keys under valid ids. */
  lemma LoadedShape(s: Settings)
    requires Loadable(s)
    ensures var ring := Loaded(s);
      && ring.active in ring.keys && |ring.keys| <= MAX_KEY_COUNT
      && (forall id :: id in ring.keys ==> ValidKeyId(id) && |ring.keys[id]| == 32)
  {
    var ring := Loaded(s);
    var all := PreviousKeys(s).Keys + {ActiveId(s)};
    assert ring.keys.Keys == all;
    assert |all| <= |PreviousKeys(s)| + 1;
    forall id | id in ring.keys ensures ValidKeyId(id) && |ring.keys[id]| == 32 {
      if id in PreviousKeys(s) { assert PreviousOk(s, id); }
    }
  }

  /** Loaded keyrings can always sign, and can read their own cursors exactly when the active id has no dot. */
  lemma LoadedReadsOwn(lib: Library, s: Settings, issue: Issue, token: string)
    requires Loadable(s) && CursorTheorems.Faithful(lib, Sealed(issue))
    requires Encode(lib, Some(Loaded(s)), issue) == Ok(token)
    ensures Decode(lib, Some(Loaded(s)), CursorTheorems.Resume(issue, token)).Ok? <==> '.' !in ActiveId(s)
  {
    LoadedShape(s);
    CursorTheorems.ReadsOwnToken(lib, Loaded(s), issue, token);
  }

  /**
   * Rotating the settings: while the old key stays listed its cursors decode as before, once its id is gone from the
   * settings they are all rejected.
   */
  lemma RotatedSettings(lib: Library, before: Settings, after: Settings, issue: Issue, req: Request)
    requires Loadable(before) && Loadable(after) && CursorTheorems.Faithful(lib, Sealed(issue))
    requires Encode(lib, Some(Loaded(before)), issue) == Ok(req.token)
    ensures var id := ActiveId(before);
      && (id in PreviousKeys(after) && DecodeKey(PreviousKeys(after)[id]) == DecodeKey(before.activeHex) ==>
          Decode(lib, Some(Loaded(after)), req) == Decode(lib, Some(Loaded(before)), req))
      && (id !in PreviousKeys(after) && id != ActiveId(after) ==> Decode(lib, Some(Loaded(after)), req).Err?)
  {
    CursorTheorems.Rotation(lib, Loaded(before), Loaded(after), issue, req);
    var id := ActiveId(before);
    assert id in PreviousKeys(before) ==> PreviousOk(before, id);
    assert id in PreviousKeys(after) ==> PreviousOk(after, id);
  }
}
