/** Unpadded base64url (section 5 of RFC 4648) as Go's RawURLEncoding has it. A byte is a char below 256. */
module Base64Url {
  import opened Basics

  predicate IsBytes(s: string) { forall i :: 0 <= i < |s| ==> s[i] as int < 256 }

  predicate IsDigit(c: char) {
    'A' <= c <= 'Z' || 'a' <= c <= 'z' || '0' <= c <= '9' || c == '-' || c == '_'
  }

  function Digit(n: int): (c: char)
    requires 0 <= n < 64
    ensures IsDigit(c)
  {
    if n < 26 then ('A' as int + n) as char
    else if n < 52 then ('a' as int + n - 26) as char
    else if n < 62 then ('0' as int + n - 52) as char
    else if n == 62 then '-' else '_'
  }

  function Value(c: char): (n: int)
    requires IsDigit(c)
    ensures 0 <= n < 64
  {
    if 'A' <= c <= 'Z' then c as int - 'A' as int
    else if 'a' <= c <= 'z' then c as int - 'a' as int + 26
    else if '0' <= c <= '9' then c as int - '0' as int + 52
    else if c == '-' then 62 else 63
  }

  lemma ValueOfDigit(n: int)
    requires 0 <= n < 64
    ensures Value(Digit(n)) == n
  {}

  function First(a: char, b: char): char
    requires IsDigit(a) && IsDigit(b)
  {
    (Value(a) * 4 + Value(b) / 16) as char
  }

  function Second(b: char, c: char): char
    requires IsDigit(b) && IsDigit(c)
  {
    (Value(b) % 16 * 16 + Value(c) / 4) as char
  }

  function Third(c: char, d: char): char
    requires IsDigit(c) && IsDigit(d)
  {
    (Value(c) % 4 * 64 + Value(d)) as char
  }

  /** Up to three bytes become one more digit than bytes. */
  function EncodeQuantum(b: string): (s: string)
    ensures IsBytes(b) && 1 <= |b| <= 3 ==> |s| == |b| + 1
    ensures forall i :: 0 <= i < |s| ==> IsDigit(s[i])
  {
    if !IsBytes(b) then ""
    else if |b| == 1 then
      var x := b[0] as int;
      [Digit(x / 4), Digit(x % 4 * 16)]
    else if |b| == 2 then
      var x, y := b[0] as int, b[1] as int;
      [Digit(x / 4), Digit(x % 4 * 16 + y / 16), Digit(y % 16 * 4)]
    else if |b| == 3 then
      var x, y, z := b[0] as int, b[1] as int, b[2] as int;
      [Digit(x / 4), Digit(x % 4 * 16 + y / 16), Digit(y % 16 * 4 + z / 64), Digit(z % 64)]
    else ""
  }

  /** Two to four digits; spare low bits are not checked. */
  function DecodeQuantum(q: string): Option<string> {
    if |q| < 2 || !IsDigit(q[0]) || !IsDigit(q[1]) then None
    else if |q| == 2 then Some([First(q[0], q[1])])
    else if !IsDigit(q[2]) then None
    else if |q| == 3 then Some([First(q[0], q[1]), Second(q[1], q[2])])
    else if !IsDigit(q[3]) || |q| > 4 then None
    else Some([First(q[0], q[1]), Second(q[1], q[2]), Third(q[2], q[3])])
  }

  /** Applies a quantum encoder to every three bytes, the last group possibly shorter. */
  function EncodeGroups(enc: string -> string, b: string): string {
    if |b| <= 3 then (if b == "" then "" else enc(b)) else enc(b[..3]) + EncodeGroups(enc, b[3..])
  }

  /** Applies a quantum decoder to every four digits, the last group possibly shorter. */
  function DecodeGroups(dec: string -> Option<string>, s: string): Option<string> {
    if |s| <= 4 then (if s == "" then Some("") else dec(s))
    else
      var head, tail := dec(s[..4]), DecodeGroups(dec, s[4..]);
      if head.Some? && tail.Some? then Some(head.value + tail.value) else None
  }

  function Encode(b: string): string { EncodeGroups(EncodeQuantum, b) }

  /** The decoder skips carriage returns and line feeds. */
  function SkipNewlines(s: string): string {
    if s == "" then ""
    else (if s[0] == '\n' || s[0] == '\r' then "" else [s[0]]) + SkipNewlines(s[1..])
  }

  function Decode(s: string): Option<string> { DecodeGroups(DecodeQuantum, SkipNewlines(s)) }

  lemma {:induction false} NothingSkipped(s: string)
    requires forall i :: 0 <= i < |s| ==> IsDigit(s[i])
    ensures SkipNewlines(s) == s
  {
    if s != "" {
      NothingSkipped(s[1..]);
      assert s == [s[0]] + s[1..];
    }
  }

  lemma FirstBack(x: int, low: int)
    requires 0 <= x < 256 && 0 <= low < 16
    ensures First(Digit(x / 4), Digit(x % 4 * 16 + low)) == x as char
  {
    ValueOfDigit(x / 4);
    ValueOfDigit(x % 4 * 16 + low);
  }

  lemma SecondBack(high: int, y: int, low: int)
    requires 0 <= high < 4 && 0 <= y < 256 && 0 <= low < 4
    ensures Second(Digit(high * 16 + y / 16), Digit(y % 16 * 4 + low)) == y as char
  {
    var h, l := y / 16, y % 16;
    ValueOfDigit(high * 16 + h);
    ValueOfDigit(l * 4 + low);
    assert (high * 16 + h) % 16 == h && (l * 4 + low) / 4 == l;
  }

  lemma ThirdBack(high: int, z: int)
    requires 0 <= high < 16 && 0 <= z < 256
    ensures Third(Digit(high * 4 + z / 64), Digit(z % 64)) == z as char
  {
    ValueOfDigit(high * 4 + z / 64);
    ValueOfDigit(z % 64);
  }

  lemma QuantumRoundTrip1(b: string)
    requires IsBytes(b) && |b| == 1
    ensures DecodeQuantum(EncodeQuantum(b)) == Some(b)
  {
    FirstBack(b[0] as int, 0);
    assert [b[0]] == b;
  }

  lemma QuantumRoundTrip2(b: string)
    requires IsBytes(b) && |b| == 2
    ensures DecodeQuantum(EncodeQuantum(b)) == Some(b)
  {
    var x, y := b[0] as int, b[1] as int;
    FirstBack(x, y / 16);
    SecondBack(x % 4, y, 0);
    assert [b[0], b[1]] == b;
  }

  lemma DecodesTo(q: string, b: string)
    requires |q| == 4 && forall i :: 0 <= i < 4 ==> IsDigit(q[i])
    requires |b| == 3 && b[0] == First(q[0], q[1]) && b[1] == Second(q[1], q[2]) && b[2] == Third(q[2], q[3])
    ensures DecodeQuantum(q) == Some(b)
  {
    assert [b[0], b[1], b[2]] == b;
  }

  lemma QuantumRoundTrip3(b: string)
    requires IsBytes(b) && |b| == 3
    ensures DecodeQuantum(EncodeQuantum(b)) == Some(b)
  {
    var x, y, z := b[0] as int, b[1] as int, b[2] as int;
    FirstBack(x, y / 16);
    SecondBack(x % 4, y, z / 64);
    ThirdBack(y % 16, z);
    DecodesTo(EncodeQuantum(b), b);
  }

  lemma QuantumRoundTrip(b: string)
    requires IsBytes(b) && 1 <= |b| <= 3
    ensures DecodeQuantum(EncodeQuantum(b)) == Some(b)
  {
    if |b| == 1 { QuantumRoundTrip1(b); } else if |b| == 2 { QuantumRoundTrip2(b); } else { QuantumRoundTrip3(b); }
  }

  ghost predicate Inverse(enc: string -> string, dec: string -> Option<string>) {
    forall b :: IsBytes(b) && 1 <= |b| <= 3 ==> |enc(b)| == |b| + 1 && dec(enc(b)) == Some(b)
  }

  lemma {:induction false} GroupsRoundTrip(enc: string -> string, dec: string -> Option<string>, b: string)
    requires IsBytes(b) && Inverse(enc, dec)
    ensures DecodeGroups(dec, EncodeGroups(enc, b)) == Some(b)
  {
    if |b| > 3 {
      var head, tail := enc(b[..3]), EncodeGroups(enc, b[3..]);
      GroupsRoundTrip(enc, dec, b[3..]);
      assert tail != "";
      assert (head + tail)[..4] == head && (head + tail)[4..] == tail;
      assert b == b[..3] + b[3..];
    }
  }

  lemma {:induction false} GroupsDigits(enc: string -> string, dec: string -> Option<string>, b: string)
    requires IsBytes(b) && Inverse(enc, dec)
    requires forall q, i :: 0 <= i < |enc(q)| ==> IsDigit(enc(q)[i])
    ensures var s := EncodeGroups(enc, b);
      |s| == (4 * |b| + 2) / 3 && forall i :: 0 <= i < |s| ==> IsDigit(s[i])
  {
    if |b| > 3 {
      GroupsDigits(enc, dec, b[3..]);
    }
  }

  lemma QuantaInverse()
    ensures Inverse(EncodeQuantum, DecodeQuantum)
  {
    forall b | IsBytes(b) && 1 <= |b| <= 3
      ensures |EncodeQuantum(b)| == |b| + 1 && DecodeQuantum(EncodeQuantum(b)) == Some(b)
    {
      QuantumRoundTrip(b);
    }
  }

  lemma Digits(b: string)
    requires IsBytes(b)
    ensures |Encode(b)| == (4 * |b| + 2) / 3
    ensures forall i :: 0 <= i < |Encode(b)| ==> IsDigit(Encode(b)[i])
  {
    QuantaInverse();
    GroupsDigits(EncodeQuantum, DecodeQuantum, b);
  }

  lemma RoundTrip(b: string)
    requires IsBytes(b)
    ensures Decode(Encode(b)) == Some(b)
  {
    Digits(b);
    NothingSkipped(Encode(b));
    QuantaInverse();
    GroupsRoundTrip(EncodeQuantum, DecodeQuantum, b);
  }

  // ----- what the decoder accepts

  predicate AllDigits(s: string) { forall i :: 0 <= i < |s| ==> IsDigit(s[i]) }

  lemma DigitOfValue(c: char)
    requires IsDigit(c)
    ensures Digit(Value(c)) == c
  {}

  lemma FirstBits(a: char, b: char)
    requires IsDigit(a) && IsDigit(b)
    ensures var x := First(a, b) as int; x < 256 && x / 4 == Value(a) && x % 4 == Value(b) / 16
  {}

  lemma SecondBits(b: char, c: char)
    requires IsDigit(b) && IsDigit(c)
    ensures var y := Second(b, c) as int; y < 256 && y / 16 == Value(b) % 16 && y % 16 == Value(c) / 4
  {}

  lemma ThirdBits(c: char, d: char)
    requires IsDigit(c) && IsDigit(d)
    ensures var z := Third(c, d) as int; z < 256 && z / 64 == Value(c) % 4 && z % 64 == Value(d)
  {}

  lemma Recombined(b: char, c: char)
    requires IsDigit(b) && IsDigit(c)
    ensures Value(b) / 16 * 16 + Value(b) % 16 == Value(b) && Value(c) / 4 * 4 + Value(c) % 4 == Value(c)
  {}

  /** `s` is `q` up to the spare bits of its last digit. */
  predicate SameBits(s: string, q: string) {
    |s| == |q| && (forall i :: 0 <= i < |q| - 1 ==> s[i] == q[i]) && (|q| % 4 == 0 ==> s == q)
  }

  lemma Again2(q: string)
    requires |q| == 2 && AllDigits(q)
    ensures DecodeQuantum(q) == Some([First(q[0], q[1])])
    ensures IsBytes([First(q[0], q[1])]) && SameBits(EncodeQuantum([First(q[0], q[1])]), q)
  {
    FirstBits(q[0], q[1]);
    DigitOfValue(q[0]);
  }

  lemma Again3(q: string)
    requires |q| == 3 && AllDigits(q)
    ensures DecodeQuantum(q) == Some([First(q[0], q[1]), Second(q[1], q[2])])
    ensures var b := [First(q[0], q[1]), Second(q[1], q[2])]; IsBytes(b) && SameBits(EncodeQuantum(b), q)
  {
    FirstBits(q[0], q[1]);
    SecondBits(q[1], q[2]);
    Recombined(q[1], q[2]);
    DigitOfValue(q[0]);
    DigitOfValue(q[1]);
  }

  lemma Again4(q: string)
    requires |q| == 4 && AllDigits(q)
    ensures DecodeQuantum(q) == Some([First(q[0], q[1]), Second(q[1], q[2]), Third(q[2], q[3])])
    ensures var b := [First(q[0], q[1]), Second(q[1], q[2]), Third(q[2], q[3])];
      IsBytes(b) && SameBits(EncodeQuantum(b), q)
  {
    FirstBits(q[0], q[1]);
    SecondBits(q[1], q[2]);
    ThirdBits(q[2], q[3]);
    Recombined(q[1], q[2]);
    DigitOfValue(q[0]);
    DigitOfValue(q[1]);
    DigitOfValue(q[2]);
    DigitOfValue(q[3]);
  }

  /** A quantum decodes exactly when it is two to four digits, and then encodes back up to its spare bits. */
  ghost predicate ExactAt(enc: string -> string, dec: string -> Option<string>, q: string) {
    && (dec(q).Some? <==> |q| >= 2 && AllDigits(q))
    && (dec(q).Some? ==> |dec(q).value| == |q| - 1 && IsBytes(dec(q).value) && SameBits(enc(dec(q).value), q))
  }

  ghost predicate Exact(enc: string -> string, dec: string -> Option<string>) {
    forall q :: 1 <= |q| <= 4 ==> ExactAt(enc, dec, q)
  }

  lemma Refused(q: string)
    requires 1 <= |q| <= 4 && (|q| == 1 || !AllDigits(q))
    ensures DecodeQuantum(q).None?
  {}

  lemma QuantumExact(q: string)
    requires 1 <= |q| <= 4
    ensures ExactAt(EncodeQuantum, DecodeQuantum, q)
  {
    if |q| == 1 || !AllDigits(q) { Refused(q); }
    else if |q| == 2 { Again2(q); }
    else if |q| == 3 { Again3(q); }
    else { Again4(q); }
  }

  lemma QuantaExact()
    ensures Exact(EncodeQuantum, DecodeQuantum)
  {
    forall q | 1 <= |q| <= 4 ensures ExactAt(EncodeQuantum, DecodeQuantum, q) {
      QuantumExact(q);
    }
  }

  ghost predicate GroupsAt(enc: string -> string, dec: string -> Option<string>, s: string) {
    && (DecodeGroups(dec, s).Some? <==> AllDigits(s) && |s| % 4 != 1)
    && (DecodeGroups(dec, s).Some? ==>
          var b := DecodeGroups(dec, s).value;
          |b| == |s| * 3 / 4 && IsBytes(b) && SameBits(EncodeGroups(enc, b), s))
  }

  lemma ShortGroups(enc: string -> string, dec: string -> Option<string>, s: string)
    requires Exact(enc, dec) && |s| <= 4
    ensures GroupsAt(enc, dec, s)
  {
    if s != "" { assert ExactAt(enc, dec, s); }
  }

  lemma DigitsSplit(s: string, n: nat)
    requires n <= |s|
    ensures AllDigits(s) <==> AllDigits(s[..n]) && AllDigits(s[n..])
  {
    assert forall i :: n <= i < |s| ==> s[i] == s[n..][i - n];
  }

  lemma GroupsStep(enc: string -> string, dec: string -> Option<string>, s: string)
    requires |s| > 4 && ExactAt(enc, dec, s[..4]) && GroupsAt(enc, dec, s[4..])
    ensures GroupsAt(enc, dec, s)
  {
    var head, tail := dec(s[..4]), DecodeGroups(dec, s[4..]);
    DigitsSplit(s, 4);
    assert (|s| - 4) % 4 == |s| % 4;
    if head.Some? && tail.Some? { GroupsJoin(enc, head.value, tail.value, s); }
  }

  lemma {:induction false} GroupsExact(enc: string -> string, dec: string -> Option<string>, s: string)
    requires Exact(enc, dec)
    ensures GroupsAt(enc, dec, s)
  {
    if |s| <= 4 {
      ShortGroups(enc, dec, s);
    } else {
      GroupsExact(enc, dec, s[4..]);
      GroupsStep(enc, dec, s);
    }
  }

  lemma GroupsJoin(enc: string -> string, head: string, tail: string, s: string)
    requires |s| > 4 && |head| == 3 && tail != "" && SameBits(enc(head), s[..4])
    requires SameBits(EncodeGroups(enc, tail), s[4..])
    ensures SameBits(EncodeGroups(enc, head + tail), s)
  {
    assert (head + tail)[..3] == head && (head + tail)[3..] == tail;
    var out := enc(head) + EncodeGroups(enc, tail);
    assert s == s[..4] + s[4..];
    forall i | 0 <= i < |s| - 1 ensures out[i] == s[i] {
      if i >= 4 { assert s[i] == s[4..][i - 4]; }
    }
  }

  // ----- against RFC 4648, section 5

  /** The alphabet: `A` to `Z`, `a` to `z`, `0` to `9`, then `-` and `_`. */
  lemma Alphabet(n: int)
    requires 0 <= n < 63
    ensures Digit(0) == 'A' && Digit(25) == 'Z' && Digit(26) == 'a' && Digit(51) == 'z'
    ensures Digit(52) == '0' && Digit(61) == '9' && Digit(62) == '-' && Digit(63) == '_'
    ensures n !in {25, 51, 61, 62} ==> Digit(n + 1) as int == Digit(n) as int + 1
  {}

  /** The digits of a quantum spell, in base 64, the number its bytes spell in base 256, shifted left to fill them. */
  lemma QuantumNumber(b: string)
    requires IsBytes(b) && 1 <= |b| <= 3
    ensures var s := EncodeQuantum(b);
      && (|b| == 1 ==> Value(s[0]) * 64 + Value(s[1]) == b[0] as int * 16)
      && (|b| == 2 ==> (Value(s[0]) * 64 + Value(s[1])) * 64 + Value(s[2]) == (b[0] as int * 256 + b[1] as int) * 4)
      && (|b| == 3 ==> ((Value(s[0]) * 64 + Value(s[1])) * 64 + Value(s[2])) * 64 + Value(s[3])
                       == (b[0] as int * 256 + b[1] as int) * 256 + b[2] as int)
  {
    var x := b[0] as int;
    ValueOfDigit(x / 4);
    if |b| == 1 {
      ValueOfDigit(x % 4 * 16);
    } else {
      var y := b[1] as int;
      ValueOfDigit(x % 4 * 16 + y / 16);
      if |b| == 2 {
        ValueOfDigit(y % 16 * 4);
      } else {
        var z := b[2] as int;
        ValueOfDigit(y % 16 * 4 + z / 64);
        ValueOfDigit(z % 64);
      }
    }
  }

  /**
   * The decoder accepts exactly base64url digits, newlines aside, in a number that is not one more than a multiple of
   * four; what it returns encodes back to the same digits, up to the spare bits of a last short group.
   */
  lemma DecodeExact(s: string)
    ensures Decode(s).Some? <==> AllDigits(SkipNewlines(s)) && |SkipNewlines(s)| % 4 != 1
    ensures Decode(s).Some? ==> IsBytes(Decode(s).value) && SameBits(Encode(Decode(s).value), SkipNewlines(s))
  {
    QuantaExact();
    GroupsExact(EncodeQuantum, DecodeQuantum, SkipNewlines(s));
  }
}
