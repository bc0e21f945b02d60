/** JSON pointers (RFC 6901) as the gateway reads them: once byte by byte, once by splitting and replacing. */
module JsonPointer {
  import opened Basics
  import Text

  datatype Value =
    | Null
    | Bool(b: bool)
    | Number(n: real)
    | Text(text: string)
    | Array(items: seq<Value>)
    | Object(members: map<string, Value>)

  // ----- the byte-wise parser

  function Unescape(token: string): Option<string> {
    if token == "" then Some("")
    else if token[0] != '~' then
      match Unescape(token[1..])
      case None => None
      case Some(rest) => Some([token[0]] + rest)
    else if |token| == 1 || (token[1] != '0' && token[1] != '1') then None
    else
      match Unescape(token[2..])
      case None => None
      case Some(rest) => Some([if token[1] == '0' then '~' else '/'] + rest)
  }

  /** Every token unescaped, if all can be. */
  function UnescapeAll(raw: seq<string>): Option<seq<string>> {
    if raw == [] then Some([])
    else
      var last, front := Unescape(raw[|raw| - 1]), UnescapeAll(raw[..|raw| - 1]);
      if last.Some? && front.Some? then Some(front.value + [last.value]) else None
  }

  predicate Rooted(pointer: string) { pointer != "" && pointer[0] == '/' }

  function Tokens(pointer: string): Option<seq<string>> {
    if !Rooted(pointer) then None else UnescapeAll(Text.Split(pointer[1..], '/'))
  }

  /** What is still to be read, put behind what has been built. */
  function Prefixed(built: string, rest: Option<string>): Option<string> {
    if rest.Some? then Some(built + rest.value) else None
  }

  lemma UnescapePlain(s: string, j: nat, built: string)
    requires j < |s| && s[j] != '~'
    ensures Prefixed(built, Unescape(s[j..])) == Prefixed(built + [s[j]], Unescape(s[j + 1..]))
  {
    assert s[j..][1..] == s[j + 1..];
    var rest := Unescape(s[j + 1..]);
    if rest.Some? { assert built + ([s[j]] + rest.value) == built + [s[j]] + rest.value; }
  }

  lemma UnescapePair(s: string, j: nat, built: string)
    requires j + 1 < |s| && s[j] == '~' && (s[j + 1] == '0' || s[j + 1] == '1')
    ensures Prefixed(built, Unescape(s[j..])) ==
      Prefixed(built + [if s[j + 1] == '0' then '~' else '/'], Unescape(s[j + 2..]))
  {
    assert s[j..][2..] == s[j + 2..];
    var c, rest := if s[j + 1] == '0' then '~' else '/', Unescape(s[j + 2..]);
    if rest.Some? { assert built + ([c] + rest.value) == built + [c] + rest.value; }
  }

  method UnescapeToken(token: string) returns (r: Option<string>)
    ensures r == Unescape(token)
  {
    var built, j := "", 0;
    assert token[0..] == token;
    assert Prefixed("", Unescape(token)) == Unescape(token) by {
      if Unescape(token).Some? { assert "" + Unescape(token).value == Unescape(token).value; }
    }
    while j < |token|
      invariant 0 <= j <= |token|
      invariant Prefixed(built, Unescape(token[j..])) == Unescape(token)
    {
      if token[j] != '~' {
        UnescapePlain(token, j, built);
        built, j := built + [token[j]], j + 1;
      } else if j + 1 >= |token| || (token[j + 1] != '0' && token[j + 1] != '1') {
        return None;
      } else {
        UnescapePair(token, j, built);
        built, j := built + [if token[j + 1] == '0' then '~' else '/'], j + 2;
      }
    }
    assert built + "" == built;
    r := Some(built);
  }

  method ParsePointer(pointer: string) returns (r: Option<seq<string>>)
    ensures r == Tokens(pointer)
  {
    if !Rooted(pointer) { return None; }
    var raw := Text.Split(pointer[1..], '/');
    var tokens, i := [], 0;
    while i < |raw|
      invariant 0 <= i <= |raw|
      invariant UnescapeAll(raw[..i]) == Some(tokens)
    {
      var token := UnescapeToken(raw[i]);
      assert raw[..i + 1][..i] == raw[..i];
      if token.None? {
        StopsAt(raw, i + 1);
        return None;
      }
      tokens, i := tokens + [token.value], i + 1;
    }
    assert raw[..i] == raw;
    r := Some(tokens);
  }

  lemma {:induction false} StopsAt(raw: seq<string>, n: nat)
    requires n <= |raw| && UnescapeAll(raw[..n]).None?
    ensures UnescapeAll(raw).None?
  {
    if n < |raw| {
      assert raw[..|raw| - 1][..n] == raw[..n];
      StopsAt(raw[..|raw| - 1], n);
    } else {
      assert raw[..n] == raw;
    }
  }

  // ----- splitting and replacing

  /** Go's strings.ReplaceAll for a two-byte pattern and a one-byte replacement. */
  function ReplaceAll(s: string, first: char, second: char, put: char): string {
    if |s| < 2 then s
    else if s[0] == first && s[1] == second then [put] + ReplaceAll(s[2..], first, second, put)
    else [s[0]] + ReplaceAll(s[1..], first, second, put)
  }

  function Replaced(raw: string): string { ReplaceAll(ReplaceAll(raw, '~', '1', '/'), '~', '0', '~') }

  lemma ReplacePlain(c: char, s: string, second: char, put: char)
    requires c != '~'
    ensures ReplaceAll([c] + s, '~', second, put) == [c] + ReplaceAll(s, '~', second, put)
  {
    assert ([c] + s)[1..] == s;
    if s == "" { assert ReplaceAll(s, '~', second, put) == ""; }
  }

  lemma ReplacePair(s: string, second: char, put: char)
    ensures ReplaceAll(['~', second] + s, '~', second, put) == [put] + ReplaceAll(s, '~', second, put)
  {
    assert (['~', second] + s)[2..] == s;
  }

  lemma ReplaceOther(s: string, other: char, second: char, put: char)
    requires other != second && other != '~'
    ensures ReplaceAll(['~', other] + s, '~', second, put) == ['~', other] + ReplaceAll(s, '~', second, put)
  {
    assert (['~', other] + s)[1..] == [other] + s;
    ReplacePlain(other, s, second, put);
  }

  /** On every token the strict parser accepts, replacing gives the same text. */
  lemma {:induction false} ReplacedAgrees(token: string)
    requires Unescape(token).Some?
    ensures Replaced(token) == Unescape(token).value
  {
    if token != "" && token[0] != '~' {
      var rest := token[1..];
      ReplacedAgrees(rest);
      assert token == [token[0]] + rest;
      ReplacePlain(token[0], rest, '1', '/');
      ReplacePlain(token[0], ReplaceAll(rest, '~', '1', '/'), '0', '~');
    } else if token != "" {
      var rest := token[2..];
      ReplacedAgrees(rest);
      assert token == ['~', token[1]] + rest;
      var once := ReplaceAll(rest, '~', '1', '/');
      if token[1] == '1' {
        ReplacePair(rest, '1', '/');
        ReplacePlain('/', once, '0', '~');
      } else {
        ReplaceOther(rest, '0', '1', '/');
        ReplacePair(once, '0', '~');
      }
    }
  }

  function ReplacedAll(raw: seq<string>): seq<string> {
    if raw == [] then [] else ReplacedAll(raw[..|raw| - 1]) + [Replaced(raw[|raw| - 1])]
  }

  lemma {:induction false} ReplacedAllAgrees(raw: seq<string>)
    requires UnescapeAll(raw).Some?
    ensures ReplacedAll(raw) == UnescapeAll(raw).value
  {
    if raw != [] {
      ReplacedAllAgrees(raw[..|raw| - 1]);
      ReplacedAgrees(raw[|raw| - 1]);
    }
  }

  /** The two readings agree on every pointer the strict one accepts. */
  lemma ReadingsAgree(pointer: string)
    requires Tokens(pointer).Some?
    ensures ReplacedAll(Text.Split(pointer[1..], '/')) == Tokens(pointer).value
  {
    ReplacedAllAgrees(Text.Split(pointer[1..], '/'));
  }

  // ----- escaping

  /** Section 3 of RFC 6901: `~` is written `~0` and `/` is written `~1`. */
  function Escape(token: string): string {
    if token == "" then ""
    else (if token[0] == '~' then "~0" else if token[0] == '/' then "~1" else [token[0]]) + Escape(token[1..])
  }

  function EscapeAll(tokens: seq<string>): (raw: seq<string>)
    ensures |raw| == |tokens|
  {
    if tokens == [] then [] else EscapeAll(tokens[..|tokens| - 1]) + [Escape(tokens[|tokens| - 1])]
  }

  function Pointer(tokens: seq<string>): string
    requires tokens != []
  {
    "/" + Text.Join(EscapeAll(tokens), '/')
  }

  lemma {:induction false} UnescapeEscape(token: string)
    ensures '/' !in Escape(token) && Unescape(Escape(token)) == Some(token)
  {
    if token != "" {
      UnescapeEscape(token[1..]);
      var rest := Escape(token[1..]);
      assert Escape(token)[if token[0] == '~' || token[0] == '/' then 2 else 1..] == rest;
      assert [token[0]] + token[1..] == token;
    }
  }

  lemma {:induction false} EscapeUnescape(raw: string)
    requires '/' !in raw && Unescape(raw).Some?
    ensures Escape(Unescape(raw).value) == raw
  {
    if raw != "" {
      var n := if raw[0] == '~' then 2 else 1;
      EscapeUnescape(raw[n..]);
      var out := Unescape(raw).value;
      assert out[1..] == Unescape(raw[n..]).value;
      assert raw == raw[..n] + raw[n..];
    }
  }

  lemma {:induction false} UnescapeEscapeAll(tokens: seq<string>)
    ensures Text.Free(EscapeAll(tokens), '/') && UnescapeAll(EscapeAll(tokens)) == Some(tokens)
  {
    if tokens != [] {
      var front, last := tokens[..|tokens| - 1], tokens[|tokens| - 1];
      UnescapeEscapeAll(front);
      UnescapeEscape(last);
      UnescapeOneMore(EscapeAll(front), Escape(last));
      assert front + [last] == tokens;
    }
  }

  lemma UnescapeOneMore(raw: seq<string>, last: string)
    requires UnescapeAll(raw).Some? && Unescape(last).Some?
    ensures UnescapeAll(raw + [last]) == Some(UnescapeAll(raw).value + [Unescape(last).value])
  {
    assert (raw + [last])[..|raw|] == raw;
  }

  lemma {:induction false} EscapeUnescapeAll(raw: seq<string>)
    requires Text.Free(raw, '/') && UnescapeAll(raw).Some?
    ensures EscapeAll(UnescapeAll(raw).value) == raw
  {
    if raw != [] {
      var front := raw[..|raw| - 1];
      EscapeUnescapeAll(front);
      EscapeUnescape(raw[|raw| - 1]);
      var out := UnescapeAll(raw).value;
      assert out[..|out| - 1] == UnescapeAll(front).value;
      assert front + [raw[|raw| - 1]] == raw;
    }
  }

  /** Any non-empty token list, escaped, parses back to itself. */
  lemma PointerRoundTrip(tokens: seq<string>)
    requires tokens != []
    ensures Tokens(Pointer(tokens)) == Some(tokens)
  {
    UnescapeEscapeAll(tokens);
    Text.SplitJoin(EscapeAll(tokens), '/');
    assert Pointer(tokens)[1..] == Text.Join(EscapeAll(tokens), '/');
  }

  /** Every accepted pointer is the escaped form of its tokens, so no two accepted pointers mean the same path. */
  lemma PointerCanonical(pointer: string)
    requires Tokens(pointer).Some?
    ensures Tokens(pointer).value != [] && Pointer(Tokens(pointer).value) == pointer
  {
    var raw := Text.Split(pointer[1..], '/');
    Text.JoinSplit(pointer[1..], '/');
    EscapeUnescapeAll(raw);
    assert "/" + pointer[1..] == pointer;
  }
}
