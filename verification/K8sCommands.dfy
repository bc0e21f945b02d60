/** The Kubernetes Executor's command ids. */
module K8sCommands {
  import opened Basics

  type Byte = b: int | 0 <= b < 256

  const Charset := "0123456789abcdef"

  /** Digit `i` of the id: byte addition wraps, then the low four bits pick the character. */
  function Digit(seed: Byte, i: nat): char { Charset[(seed + 13 * i % 256) % 256 % 16] }

  function StableId(seed: Byte): string { "cmd-" + seq(12, i requires 0 <= i < 12 => Digit(seed, i)) }

  method CommandIDForStable(seed: Byte) returns (id: string)
    ensures id == StableId(seed)
  {
    id := "cmd-";
    for i := 0 to 12
      invariant id == "cmd-" + seq(i, j requires 0 <= j < i => Digit(seed, j))
    {
      id := id + [Charset[(seed + 13 * i % 256) % 256 % 16]];
    }
  }

  lemma CharsetDistinct(i: nat, j: nat)
    requires i < 16 && j < 16 && Charset[i] == Charset[j]
    ensures i == j
  {
    CharsetAt(i);
    CharsetAt(j);
  }

  lemma CharsetAt(i: nat)
    requires i < 16
    ensures Charset[i] as int == if i < 10 then '0' as int + i else 'a' as int + i - 10
  {}

  lemma DigitAt(seed: Byte, i: nat)
    requires i < 12
    ensures (seed + 13 * i % 256) % 256 % 16 == (seed % 16 + 13 * i) % 16
  {
    var q, r, step := seed / 16, seed % 16, 13 * i;
    assert step % 256 == step;
    Mod16(q, r + step);
    Mod16(q - 16, r + step);
    assert seed + step == 16 * q + (r + step);
    assert (seed + step) % 256 == if seed + step < 256 then seed + step else seed + step - 256;
  }

  lemma Mod16(q: int, r: int)
    ensures (16 * q + r) % 16 == r % 16
  {}

  /** The id is `cmd-` and twelve hexadecimal digits, thirteen apart modulo 16 from the seed on. */
  lemma IdText(seed: Byte, i: nat)
    requires i < 12
    ensures |StableId(seed)| == 16 && StableId(seed)[..4] == "cmd-"
    ensures StableId(seed)[4 + i] == "0123456789abcdef"[(seed + 13 * i) % 16]
  {
    DigitAt(seed, i);
    assert StableId(seed)[4 + i] == Digit(seed, i);
    Mod16(seed / 16, seed % 16 + 13 * i);
  }

  lemma SameDigits(a: Byte, b: Byte)
    requires a % 16 == b % 16
    ensures StableId(a) == StableId(b)
  {
    forall i | 0 <= i < 12 ensures Digit(a, i) == Digit(b, i) {
      DigitAt(a, i);
      DigitAt(b, i);
    }
  }

  lemma FirstDigit(seed: Byte)
    ensures StableId(seed)[4] == Charset[seed % 16]
  {
    DigitAt(seed, 0);
    assert StableId(seed)[4] == Digit(seed, 0);
  }

  /** Two seeds give one id exactly when they agree modulo 16. */
  lemma SeedModulo16(a: Byte, b: Byte)
    ensures StableId(a) == StableId(b) <==> a % 16 == b % 16
  {
    if a % 16 == b % 16 { SameDigits(a, b); }
    FirstDigit(a);
    FirstDigit(b);
    if StableId(a) == StableId(b) { CharsetDistinct(a % 16, b % 16); }
  }

  /** Any seventeen tasks include two with one command id. */
  lemma SeventeenCollide(seeds: seq<Byte>)
    requires |seeds| >= 17
    ensures exists i, j :: 0 <= i < j < |seeds| && StableId(seeds[i]) == StableId(seeds[j])
  {
    var residues := seq(|seeds|, i requires 0 <= i < |seeds| => seeds[i] % 16);
    var i, j := Pigeonhole(residues, 16);
    SeedModulo16(seeds[i], seeds[j]);
  }

  /** All sixteen ids occur, and no two of them are equal. */
  lemma SixteenIds(m: nat, n: nat)
    requires m < 16 && n < 16
    ensures StableId(n)[4] == Charset[n]
    ensures StableId(m) == StableId(n) <==> m == n
  {
    SmallMod16(m);
    SmallMod16(n);
    FirstDigit(n);
    SeedModulo16(m, n);
  }

  lemma SmallMod16(n: nat)
    requires n < 16
    ensures n % 16 == n
  {}

  /** The seeds drawn so far, by task. */
  class CommandBook {
    var lastSeen: map<string, Byte>

    constructor ()
      ensures lastSeen == map[]
    {
      lastSeen := map[];
    }

    /** `commandIDFor`: a stored zero counts as no seed; `clock` is the low byte of the current time. */
    method CommandIDFor(t: string, clock: Byte) returns (id: string)
      modifies this
      ensures lastSeen == old(lastSeen)[t := Seed(old(lastSeen), t, clock)]
      ensures id == StableId(lastSeen[t])
    {
      if t in lastSeen && lastSeen[t] != 0 {
        id := CommandIDForStable(lastSeen[t]);
        return;
      }
      lastSeen := lastSeen[t := clock];
      id := CommandIDForStable(clock);
    }
  }

  function Seed(seen: map<string, Byte>, t: string, clock: Byte): Byte {
    if t in seen && seen[t] != 0 then seen[t] else clock
  }

  /** A retry carries the first call's id exactly when the first seed was not zero or the clock repeats it modulo 16. */
  lemma RetryKeepsId(seen: map<string, Byte>, t: string, clock: Byte, clock': Byte)
    ensures var first := Seed(seen, t, clock);
            var second := Seed(seen[t := first], t, clock');
            StableId(second) == StableId(first) <==> first != 0 || clock' % 16 == 0
  {
    var first := Seed(seen, t, clock);
    SeedModulo16(Seed(seen[t := first], t, clock'), first);
  }
}
