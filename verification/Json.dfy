/**
 * The part of JSON a cursor envelope uses: objects, integers and ASCII strings with the escapes Go's encoder writes,
 * in the compact form json.Marshal produces.
 */
module Json {
  import opened Basics

  datatype Json = Str(text: string) | Num(value: int) | Obj(fields: Fields)
  datatype Fields = End | Field(name: string, value: Json, rest: Fields)

  /** Written as it stands; the angle brackets and the ampersand are escaped for HTML. */
  predicate VerbatimChar(c: char) {
    ' ' <= c && c as int < 128 && c != '"' && c != '\\' && c != '<' && c != '>' && c != '&'
  }

  predicate Verbatim(s: string) { forall i :: 0 <= i < |s| ==> VerbatimChar(s[i]) }

  predicate Ascii(s: string) { forall i :: 0 <= i < |s| ==> s[i] as int < 128 }

  predicate AsciiJson(j: Json) {
    match j
    case Str(text) => Ascii(text)
    case Num(_) => true
    case Obj(fields) => AsciiFields(fields)
  }

  predicate AsciiFields(f: Fields) {
    match f
    case End => true
    case Field(name, value, rest) => Ascii(name) && AsciiJson(value) && AsciiFields(rest)
  }

  // ----- writing

  predicate IsDigit(c: char) { '0' <= c <= '9' }

  function Decimal(n: nat): string {
    if n < 10 then [('0' as int + n) as char] else Decimal(n / 10) + [('0' as int + n % 10) as char]
  }

  function HexDigit(n: int): char
    requires 0 <= n < 16
  {
    if n < 10 then ('0' as int + n) as char else ('a' as int + n - 10) as char
  }

  /** The letter of a two-character escape. */
  function ShortEscape(c: char): Option<char> {
    match c as int
    case 8 => Some('b')
    case 9 => Some('t')
    case 10 => Some('n')
    case 12 => Some('f')
    case 13 => Some('r')
    case 34 => Some('"')
    case 92 => Some('\\')
    case _ => None
  }

  function PutChar(c: char): (s: string)
    requires c as int < 128
    ensures 1 <= |s| <= 6
  {
    if VerbatimChar(c) then [c]
    else match ShortEscape(c)
      case Some(letter) => ['\\', letter]
      case None => ['\\', 'u', '0', '0', HexDigit(c as int / 16), HexDigit(c as int % 16)]
  }

  function Escaped(text: string): string
    requires Ascii(text)
  {
    if text == "" then "" else PutChar(text[0]) + Escaped(text[1..])
  }

  /** A value followed by `rest`. */
  function Put(j: Json, rest: string): string
    requires AsciiJson(j)
  {
    match j
    case Str(text) => "\"" + (Escaped(text) + "\"" + rest)
    case Num(n) => if n < 0 then "-" + (Decimal(-n) + rest) else Decimal(n) + rest
    case Obj(fields) => "{" + PutFields(fields, rest)
  }

  /** The members, the closing brace and `rest`. */
  function PutFields(f: Fields, rest: string): string
    requires AsciiFields(f)
  {
    match f
    case End => "}" + rest
    case Field(name, value, more) =>
      "\"" + (Escaped(name) + "\"" + (":" + Put(value, if more.End? then "}" + rest else "," + PutFields(more, rest))))
  }

  function Render(j: Json): string
    requires AsciiJson(j)
  {
    Put(j, "")
  }

  // ----- reading

  function HexValue(c: char): Option<int> {
    if '0' <= c <= '9' then Some(c as int - '0' as int)
    else if 'a' <= c <= 'f' then Some(c as int - 'a' as int + 10)
    else if 'A' <= c <= 'F' then Some(c as int - 'A' as int + 10)
    else None
  }

  function ShortMeaning(letter: char): Option<char> {
    match letter
    case 'b' => Some(8 as char)
    case 't' => Some(9 as char)
    case 'n' => Some(10 as char)
    case 'f' => Some(12 as char)
    case 'r' => Some(13 as char)
    case '"' => Some('"')
    case '\\' => Some('\\')
    case '/' => Some('/')
    case _ => None
  }

  /** The character a four-digit escape stands for, within ASCII. */
  function TakeHex(s: string): Option<char> {
    if |s| < 6 || s[2] != '0' || s[3] != '0' || HexValue(s[4]).None? || HexValue(s[5]).None? then None
    else
      var code := HexValue(s[4]).value * 16 + HexValue(s[5]).value;
      if 0 <= code < 128 then Some(code as char) else None
  }

  /** The next character of a string and how much of the text it takes. */
  function TakeChar(s: string): (r: Option<(char, nat)>)
    ensures r.Some? ==> 1 <= r.value.1 <= |s|
  {
    if s == "" || s[0] < ' ' || s[0] as int >= 128 then None
    else if s[0] != '\\' then Some((s[0], 1))
    else if |s| == 1 then None
    else if s[1] == 'u' then
      match TakeHex(s)
      case None => None
      case Some(c) => Some((c, 6))
    else
      match ShortMeaning(s[1])
      case None => None
      case Some(c) => Some((c, 2))
  }

  /** The text before the closing quote and what follows the quote. */
  function TakeText(s: string): (r: Option<(string, string)>)
    ensures r.Some? ==> |r.value.1| < |s|
  {
    if s == "" then None
    else if s[0] == '"' then Some(("", s[1..]))
    else match TakeChar(s)
      case None => None
      case Some((c, n)) =>
        match TakeText(s[n..])
        case None => None
        case Some((text, rest)) => Some(([c] + text, rest))
  }

  function TakeDigits(s: string): (r: (string, string))
    ensures |r.0| + |r.1| == |s|
    ensures forall i :: 0 <= i < |r.0| ==> IsDigit(r.0[i])
  {
    if s == "" || !IsDigit(s[0]) then ("", s)
    else var (digits, rest) := TakeDigits(s[1..]); ([s[0]] + digits, rest)
  }

  function ValueOf(digits: string): int
    requires forall i :: 0 <= i < |digits| ==> IsDigit(digits[i])
  {
    if digits == "" then 0
    else ValueOf(digits[..|digits| - 1]) * 10 + (digits[|digits| - 1] as int - '0' as int)
  }

  function ParseNat(s: string): (r: Option<(int, string)>)
    ensures r.Some? ==> |r.value.1| < |s|
  {
    var (digits, rest) := TakeDigits(s);
    if digits == "" || (digits[0] == '0' && |digits| > 1) then None else Some((ValueOf(digits), rest))
  }

  function Parse(s: string): (r: Option<(Json, string)>)
    ensures r.Some? ==> |r.value.1| < |s|
    decreases |s|
  {
    if s == "" then None
    else if s[0] == '"' then
      match TakeText(s[1..])
      case None => None
      case Some((text, rest)) => Some((Str(text), rest))
    else if s[0] == '{' then
      if |s| > 1 && s[1] == '}' then Some((Obj(End), s[2..]))
      else match ParseFields(s[1..])
        case None => None
        case Some((fields, rest)) => Some((Obj(fields), rest))
    else if s[0] == '-' then
      match ParseNat(s[1..])
      case None => None
      case Some((n, rest)) => Some((Num(-n), rest))
    else
      match ParseNat(s)
      case None => None
      case Some((n, rest)) => Some((Num(n), rest))
  }

  function ParseFields(s: string): (r: Option<(Fields, string)>)
    ensures r.Some? ==> |r.value.1| < |s|
    decreases |s|
  {
    match ParseField(s)
    case None => None
    case Some((name, value, rest)) =>
      if rest == "" then None
      else if rest[0] == '}' then Some((Field(name, value, End), rest[1..]))
      else if rest[0] != ',' then None
      else match ParseFields(rest[1..])
        case None => None
        case Some((fields, after)) => Some((Field(name, value, fields), after))
  }

  function ParseField(s: string): (r: Option<(string, Json, string)>)
    ensures r.Some? ==> |r.value.2| < |s|
    decreases |s|, 0
  {
    if s == "" || s[0] != '"' then None
    else match TakeText(s[1..])
      case None => None
      case Some((name, rest)) =>
        if rest == "" || rest[0] != ':' then None
        else match Parse(rest[1..])
          case None => None
          case Some((value, after)) => Some((name, value, after))
  }

  function Read(s: string): Option<Json> {
    match Parse(s)
    case None => None
    case Some((j, rest)) => if rest == "" then Some(j) else None
  }

  // ----- reading back what was written

  predicate NoDigit(rest: string) { rest == "" || !IsDigit(rest[0]) }

  lemma HexBack(n: int)
    requires 0 <= n < 16
    ensures HexValue(HexDigit(n)) == Some(n)
  {}

  lemma LongBack(c: char, rest: string)
    requires c as int < 128
    ensures TakeHex(['\\', 'u', '0', '0', HexDigit(c as int / 16), HexDigit(c as int % 16)] + rest) == Some(c)
  {
    HexBack(c as int / 16);
    HexBack(c as int % 16);
  }

  lemma ShortBack(c: char)
    requires ShortEscape(c).Some?
    ensures ShortEscape(c).value != 'u' && ShortMeaning(ShortEscape(c).value) == Some(c)
  {}

  lemma CharBack(c: char, rest: string)
    requires c as int < 128
    ensures TakeChar(PutChar(c) + rest) == Some((c, |PutChar(c)|)) && PutChar(c)[0] != '"'
  {
    if !VerbatimChar(c) {
      if ShortEscape(c).Some? { ShortBack(c); } else { LongBack(c, rest); }
    }
  }

  lemma {:induction false} TextBack(text: string, rest: string)
    requires Ascii(text)
    ensures TakeText(Escaped(text) + "\"" + rest) == Some((text, rest))
  {
    if text == "" {
      assert ("" + "\"" + rest)[1..] == rest;
    } else {
      var more := Escaped(text[1..]) + "\"" + rest;
      TextBack(text[1..], rest);
      CharBack(text[0], more);
      var s := PutChar(text[0]) + more;
      assert Escaped(text) + "\"" + rest == s;
      assert s[|PutChar(text[0])|..] == more;
      assert [text[0]] + text[1..] == text;
    }
  }

  lemma {:induction false} EscapedVerbatim(text: string)
    requires Verbatim(text)
    ensures Ascii(text) && Escaped(text) == text
  {
    if text != "" {
      EscapedVerbatim(text[1..]);
      assert [text[0]] + text[1..] == text;
    }
  }

  lemma {:induction false} DigitsBack(digits: string, rest: string)
    requires forall i :: 0 <= i < |digits| ==> IsDigit(digits[i])
    requires NoDigit(rest)
    ensures TakeDigits(digits + rest) == (digits, rest)
  {
    if digits == "" {
      assert digits + rest == rest;
    } else {
      DigitsBack(digits[1..], rest);
      assert (digits + rest)[1..] == digits[1..] + rest;
      assert [digits[0]] + digits[1..] == digits;
    }
  }

  lemma {:induction false} DecimalDigits(n: nat)
    ensures var d := Decimal(n);
      |d| > 0 && (forall i :: 0 <= i < |d| ==> IsDigit(d[i])) && ValueOf(d) == n && (d[0] == '0' ==> n == 0 && |d| == 1)
  {
    if n >= 10 {
      DecimalDigits(n / 10);
      var d := Decimal(n);
      assert d[..|d| - 1] == Decimal(n / 10);
    }
  }

  lemma NatBack(n: nat, rest: string)
    requires NoDigit(rest)
    ensures ParseNat(Decimal(n) + rest) == Some((n, rest))
  {
    DecimalDigits(n);
    DigitsBack(Decimal(n), rest);
  }

  lemma MinusBack(n: int, rest: string)
    requires n < 0 && NoDigit(rest)
    ensures Parse("-" + (Decimal(-n) + rest)) == Some((Num(n), rest))
  {
    NatBack(-n, rest);
    assert ("-" + (Decimal(-n) + rest))[1..] == Decimal(-n) + rest;
  }

  lemma PlusBack(n: nat, rest: string)
    requires NoDigit(rest)
    ensures Parse(Decimal(n) + rest) == Some((Num(n), rest))
  {
    NatBack(n, rest);
    DecimalDigits(n);
  }

  lemma StrBack(text: string, rest: string)
    requires Ascii(text)
    ensures Parse("\"" + (Escaped(text) + "\"" + rest)) == Some((Str(text), rest))
  {
    TextBack(text, rest);
    assert ("\"" + (Escaped(text) + "\"" + rest))[1..] == Escaped(text) + "\"" + rest;
  }

  lemma {:induction false} ParseBack(j: Json, rest: string)
    requires AsciiJson(j) && NoDigit(rest)
    ensures Parse(Put(j, rest)) == Some((j, rest))
    decreases j, 1
  {
    match j
    case Str(text) => StrBack(text, rest);
    case Num(n) => if n < 0 { MinusBack(n, rest); } else { PlusBack(n, rest); }
    case Obj(fields) => ObjBack(fields, rest);
  }

  lemma {:induction false} ObjBack(f: Fields, rest: string)
    requires AsciiFields(f)
    ensures Parse("{" + PutFields(f, rest)) == Some((Obj(f), rest))
    decreases f, 1
  {
    var s := "{" + PutFields(f, rest);
    assert s[1..] == PutFields(f, rest);
    if f.End? {
      assert s[2..] == rest;
    } else {
      FieldsBack(f, rest);
    }
  }

  lemma {:induction false} FieldBack(name: string, value: Json, rest: string)
    requires Ascii(name) && AsciiJson(value) && NoDigit(rest)
    ensures ParseField("\"" + (Escaped(name) + "\"" + (":" + Put(value, rest)))) == Some((name, value, rest))
    decreases value, 2
  {
    var after := ":" + Put(value, rest);
    TextBack(name, after);
    assert ("\"" + (Escaped(name) + "\"" + after))[1..] == Escaped(name) + "\"" + after;
    ParseBack(value, rest);
    assert after[1..] == Put(value, rest);
  }

  lemma {:induction false} FieldsBack(f: Fields, rest: string)
    requires AsciiFields(f) && f.Field?
    ensures ParseFields(PutFields(f, rest)) == Some((f, rest))
    decreases f, 0
  {
    if f.rest.End? {
      FieldBack(f.name, f.value, "}" + rest);
      assert ("}" + rest)[1..] == rest;
    } else {
      FieldBack(f.name, f.value, "," + PutFields(f.rest, rest));
      FieldsBack(f.rest, rest);
      assert ("," + PutFields(f.rest, rest))[1..] == PutFields(f.rest, rest);
    }
  }

  lemma ReadBack(j: Json)
    requires AsciiJson(j)
    ensures Read(Render(j)) == Some(j)
  {
    ParseBack(j, "");
  }

  // ----- size

  function Size(j: Json): nat
    requires AsciiJson(j)
  {
    match j
    case Str(text) => |Escaped(text)| + 2
    case Num(n) => if n < 0 then 1 + |Decimal(-n)| else |Decimal(n)|
    case Obj(fields) => 1 + SizeFields(fields)
  }

  function SizeFields(f: Fields): nat
    requires AsciiFields(f)
  {
    match f
    case End => 1
    case Field(name, value, more) => |Escaped(name)| + 3 + Size(value) + 1 + if more.End? then 0 else SizeFields(more)
  }

  lemma {:induction false} PutSize(j: Json, rest: string)
    requires AsciiJson(j)
    ensures |Put(j, rest)| == Size(j) + |rest|
    decreases j
  {
    if j.Obj? { PutFieldsSize(j.fields, rest); }
  }

  lemma {:induction false} PutFieldsSize(f: Fields, rest: string)
    requires AsciiFields(f)
    ensures |PutFields(f, rest)| == SizeFields(f) + |rest|
    decreases f
  {
    if f.Field? {
      PutFieldsSize(f.rest, rest);
      PutSize(f.value, if f.rest.End? then "}" + rest else "," + PutFields(f.rest, rest));
    }
  }
}
