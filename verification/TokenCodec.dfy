// Enrollment token text: internal/token/token.go.
module TokenCodec {
  import opened Base

  type Byte = b: int | 0 <= b < 256

  const ALPHABET: string := "0123456789ABCDEFGHJKMNPQRSTVWXYZ"
  const PREFIX: string := "PRAETOR-"

  // SHA-256 is kept uninterpreted and injective.
  datatype Digest = Sha256(input: string)

  datatype Token = Token(id: string, plain: string, hash: Digest)

  // ---------- the reference encoding ----------

  // The eight five-bit groups of five bytes, most significant bit first (section 6 of RFC 4648).
  function Groups(a: Byte, b: Byte, c: Byte, d: Byte, e: Byte): (g: seq<int>)
    ensures |g| == 8 && forall k :: 0 <= k < 8 ==> 0 <= g[k] < 32
  {
    [ a / 8,
      a % 8 * 4 + b / 64,
      b / 2 % 32,
      b % 2 * 16 + c / 16,
      c % 16 * 2 + d / 128,
      d / 4 % 32,
      d % 4 * 8 + e / 32,
      e % 32 ]
  }

  function EncodeBlock(b: seq<Byte>): (s: string)
    requires |b| == 5
    ensures |s| == 8
  {
    var g := Groups(b[0], b[1], b[2], b[3], b[4]);
    seq(8, k requires 0 <= k < 8 => ALPHABET[g[k]])
  }

  // Only whole blocks of five bytes are encoded; a shorter tail is dropped.
  function Encode(b: seq<Byte>): (s: string)
    ensures |s| == |b| / 5 * 8
    decreases |b|
  {
    if |b| < 5 then "" else EncodeBlock(b[..5]) + Encode(b[5..])
  }

  lemma {:induction false} EncodeAppend(b: seq<Byte>, block: seq<Byte>)
    requires |b| % 5 == 0 && |block| == 5
    ensures Encode(b + block) == Encode(b) + EncodeBlock(block)
    decreases |b|
  {
    if b == [] {
      assert (b + block)[..5] == block && (b + block)[5..] == [];
    } else {
      assert (b + block)[..5] == b[..5] && (b + block)[5..] == b[5..] + block;
      EncodeAppend(b[5..], block);
    }
  }

  lemma EncodeNext(b: seq<Byte>, n: nat)
    requires n % 5 == 0 && n + 5 <= |b|
    ensures Encode(b[..n]) + EncodeBlock(b[n..n + 5]) == Encode(b[..n + 5])
  {
    EncodeAppend(b[..n], b[n..n + 5]);
    assert b[..n] + b[n..n + 5] == b[..n + 5];
  }

  // The whole blocks of an input.
  function Whole(b: seq<Byte>): (w: seq<Byte>)
    ensures w <= b && |w| % 5 == 0 && |b| - 5 < |w|
  {
    b[..|b| - |b| % 5]
  }

  lemma {:induction false} EncodeWhole(b: seq<Byte>)
    ensures Encode(Whole(b)) == Encode(b)
    decreases |b|
  {
    if |b| >= 5 {
      assert Whole(b)[..5] == b[..5] && Whole(b)[5..] == Whole(b[5..]);
      EncodeWhole(b[5..]);
    }
  }

  lemma EncodeAll(b: seq<Byte>, n: nat)
    requires n % 5 == 0 && n <= |b| < n + 5
    ensures Encode(b[..n]) == Encode(b)
  {
    WholeIs(b, n);
    EncodeWhole(b);
  }

  lemma WholeIs(b: seq<Byte>, n: nat)
    requires n % 5 == 0 && n <= |b| < n + 5
    ensures Whole(b) == b[..n]
  {
  }

  // ---------- the encoder's arithmetic ----------

  // The big-endian 40-bit word the source assembles with shifts and ors; the five bytes occupy
  // disjoint bits, so the ors add.
  function Word(a: Byte, b: Byte, c: Byte, d: Byte, e: Byte): int {
    a * 0x1_0000_0000 + b * 0x100_0000 + c * 0x1_0000 + d * 0x100 + e
  }

  // v >> 5j
  function ShiftRight(v: int, j: nat): int
    requires j < 8
  {
    if j == 0 then v
    else if j == 1 then v / 0x20
    else if j == 2 then v / 0x400
    else if j == 3 then v / 0x8000
    else if j == 4 then v / 0x10_0000
    else if j == 5 then v / 0x200_0000
    else if j == 6 then v / 0x4000_0000
    else v / 0x8_0000_0000
  }

  lemma HighShifts(a: Byte, b: Byte, c: Byte, d: Byte, e: Byte)
    ensures ShiftRight(Word(a, b, c, d, e), 7) == a / 8
    ensures ShiftRight(Word(a, b, c, d, e), 6) == a * 4 + b / 64
    ensures ShiftRight(Word(a, b, c, d, e), 5) == a * 0x80 + b / 2
    ensures ShiftRight(Word(a, b, c, d, e), 4) == a * 0x1000 + b * 0x10 + c / 16
  {
  }

  lemma LowShifts(a: Byte, b: Byte, c: Byte, d: Byte, e: Byte)
    ensures ShiftRight(Word(a, b, c, d, e), 3) == a * 0x2_0000 + b * 0x200 + c * 2 + d / 128
    ensures ShiftRight(Word(a, b, c, d, e), 2) == a * 0x40_0000 + b * 0x4000 + c * 0x40 + d / 4
    ensures ShiftRight(Word(a, b, c, d, e), 1) == a * 0x800_0000 + b * 0x8_0000 + c * 0x800 + d * 8 + e / 32
  {
  }

  lemma Mask(v: int, q: int, r: int)
    requires v == 32 * q + r && 0 <= r < 32
    ensures v % 32 == r
  {
  }

  lemma HighGroups(a: Byte, b: Byte, c: Byte, d: Byte, e: Byte)
    ensures ShiftRight(Word(a, b, c, d, e), 7) % 32 == a / 8
    ensures ShiftRight(Word(a, b, c, d, e), 6) % 32 == a % 8 * 4 + b / 64
    ensures ShiftRight(Word(a, b, c, d, e), 5) % 32 == b / 2 % 32
    ensures ShiftRight(Word(a, b, c, d, e), 4) % 32 == b % 2 * 16 + c / 16
  {
    HighShifts(a, b, c, d, e);
    Mask(a / 8, 0, a / 8);
    Mask(a * 4 + b / 64, a / 8, a % 8 * 4 + b / 64);
    Mask(a * 0x80 + b / 2, a * 4 + b / 2 / 32, b / 2 % 32);
    Mask(a * 0x1000 + b * 0x10 + c / 16, a * 0x80 + b / 2, b % 2 * 16 + c / 16);
  }

  lemma LowGroups(a: Byte, b: Byte, c: Byte, d: Byte, e: Byte)
    ensures ShiftRight(Word(a, b, c, d, e), 3) % 32 == c % 16 * 2 + d / 128
    ensures ShiftRight(Word(a, b, c, d, e), 2) % 32 == d / 4 % 32
    ensures ShiftRight(Word(a, b, c, d, e), 1) % 32 == d % 4 * 8 + e / 32
    ensures ShiftRight(Word(a, b, c, d, e), 0) % 32 == e % 32
  {
    LowShifts(a, b, c, d, e);
    Mask(a * 0x2_0000 + b * 0x200 + c * 2 + d / 128, a * 0x1000 + b * 0x10 + c / 16, c % 16 * 2 + d / 128);
    Mask(a * 0x40_0000 + b * 0x4000 + c * 0x40 + d / 4, a * 0x2_0000 + b * 0x200 + c * 2 + d / 4 / 32, d / 4 % 32);
    Mask(a * 0x800_0000 + b * 0x8_0000 + c * 0x800 + d * 8 + e / 32,
         a * 0x40_0000 + b * 0x4000 + c * 0x40 + d / 4, d % 4 * 8 + e / 32);
    Mask(Word(a, b, c, d, e), a * 0x800_0000 + b * 0x8_0000 + c * 0x800 + d * 8 + e / 32, e % 32);
  }

  // Shifting and masking the word picks out the five-bit groups, last group first.
  lemma ShiftedWord(a: Byte, b: Byte, c: Byte, d: Byte, e: Byte, j: nat)
    requires j < 8
    ensures ShiftRight(Word(a, b, c, d, e), j) % 32 == Groups(a, b, c, d, e)[7 - j]
  {
    HighGroups(a, b, c, d, e);
    LowGroups(a, b, c, d, e);
  }

  lemma ShiftedSymbol(b: seq<Byte>, i: nat, j: nat)
    requires i + 5 <= |b| && j < 8
    ensures
      var x := ShiftRight(Word(b[i], b[i + 1], b[i + 2], b[i + 3], b[i + 4]), j) % 32;
      0 <= x < 32 && ALPHABET[x] == EncodeBlock(b[i..i + 5])[7 - j]
  {
    ShiftedWord(b[i], b[i + 1], b[i + 2], b[i + 3], b[i + 4], j);
  }

  // The source's two loops compute the reference encoding, for inputs of every length.
  method Base32Encode(b: seq<Byte>) returns (result: string)
    ensures result == Encode(b)
  {
    result := "";
    var i := 0;
    while i + 4 < |b|
      invariant 0 <= i <= |b| && i % 5 == 0
      invariant result == Encode(b[..i])
    {
      var v := Word(b[i], b[i + 1], b[i + 2], b[i + 3], b[i + 4]);
      ghost var head, tail := result, EncodeBlock(b[i..i + 5]);
      var j := 7;
      while j >= 0
        invariant -1 <= j <= 7
        invariant result == head + tail[..7 - j]
      {
        ShiftedSymbol(b, i, j);
        result := result + [ALPHABET[ShiftRight(v, j) % 32]];
        j := j - 1;
      }
      EncodeNext(b, i);
      i := i + 5;
    }
    EncodeAll(b, i);
  }

  lemma {:induction false} EncodedBlock(b: seq<Byte>, i: nat, j: nat)
    requires 5 * i + 5 <= |b| && j < 8 && 8 * i + j < |Encode(b)|
    ensures Encode(b)[8 * i + j] == EncodeBlock(b[5 * i..5 * i + 5])[j]
  {
    var block, rest := b[..5], b[5..];
    assert Encode(b) == EncodeBlock(block) + Encode(rest);
    if i > 0 {
      EncodedBlock(rest, i - 1, j);
      assert rest[5 * (i - 1)..5 * i] == b[5 * i..5 * i + 5];
    }
  }

  // The digits and the capital letters except I, L, O and U.
  predicate Crockford(c: char) {
    '0' <= c <= '9' || ('A' <= c <= 'Z' && c != 'I' && c != 'L' && c != 'O' && c != 'U')
  }

  // The six runs of the alphabet.
  function Nth(k: nat): char
    requires k < 32
  {
    if k < 10 then ('0' as int + k) as char
    else if k < 18 then ('A' as int + k - 10) as char
    else if k < 20 then ('J' as int + k - 18) as char
    else if k < 22 then ('M' as int + k - 20) as char
    else if k < 27 then ('P' as int + k - 22) as char
    else ('V' as int + k - 27) as char
  }

  lemma AlphabetAt(k: nat)
    requires k < 32
    ensures ALPHABET[k] == Nth(k)
  {
  }

  lemma NthIsCrockford(k: nat)
    requires k < 32
    ensures Crockford(Nth(k))
  {
  }

  lemma PlaceOf(c: char) returns (k: nat)
    requires Crockford(c)
    ensures k < 32 && Nth(k) == c
  {
    var n := c as int;
    k := if c <= '9' then n - '0' as int
         else if c <= 'H' then n - 'A' as int + 10
         else if c <= 'K' then n - 'J' as int + 18
         else if c <= 'N' then n - 'M' as int + 20
         else if c <= 'T' then n - 'P' as int + 22
         else n - 'V' as int + 27;
  }

  lemma SymbolsAre(c: char)
    ensures IsSymbol(c) <==> Crockford(c)
  {
    if IsSymbol(c) {
      var k :| 0 <= k < |ALPHABET| && ALPHABET[k] == c;
      AlphabetAt(k);
      NthIsCrockford(k);
    }
    if Crockford(c) {
      var k := PlaceOf(c);
      AlphabetAt(k);
    }
  }

  // Bytes read as one big-endian number.
  function BigEndian(b: seq<Byte>): int {
    if b == [] then 0 else 256 * BigEndian(b[..|b| - 1]) + b[|b| - 1]
  }

  function Power32(n: nat): (p: int)
    ensures p > 0
  {
    if n == 0 then 1 else 32 * Power32(n - 1)
  }

  lemma WordIsBigEndian(b: seq<Byte>)
    requires |b| == 5
    ensures BigEndian(b) == Word(b[0], b[1], b[2], b[3], b[4])
  {
    var b4, b3, b2, b1 := b[..4], b[..3], b[..2], b[..1];
    assert b4[..3] == b3 && b3[..2] == b2 && b2[..1] == b1 && b1[..0] == [];
    assert BigEndian(b1) == b[0];
    assert BigEndian(b2) == 256 * BigEndian(b1) + b[1];
    assert BigEndian(b3) == 256 * BigEndian(b2) + b[2];
    assert BigEndian(b4) == 256 * BigEndian(b3) + b[3];
  }

  lemma ShiftIsDivision(v: int, k: nat)
    requires k < 8
    ensures ShiftRight(v, k) == v / Power32(k)
  {
    assert Power32(1) == 0x20 && Power32(2) == 0x400;
    assert Power32(3) == 32 * Power32(2) && Power32(4) == 32 * Power32(3);
    assert Power32(5) == 32 * Power32(4) && Power32(6) == 32 * Power32(5) && Power32(7) == 32 * Power32(6);
  }

  // Bits 5j to 5j + 4 of the 40 of a block.
  function FiveBits(block: seq<Byte>, j: nat): (r: int)
    requires |block| == 5 && j < 8
    ensures 0 <= r < 32
  {
    BigEndian(block) / Power32(7 - j) % 32
  }

  lemma BlockSymbol(block: seq<Byte>, j: nat)
    requires |block| == 5 && j < 8
    ensures EncodeBlock(block)[j] == Nth(FiveBits(block, j))
  {
    ShiftedSymbol(block, 0, 7 - j);
    assert block[0..5] == block;
    WordIsBigEndian(block);
    ShiftIsDivision(Word(block[0], block[1], block[2], block[3], block[4]), 7 - j);
    AlphabetAt(FiveBits(block, j));
  }

  // Main result: symbol j of block i stands for the five bits 5j to 5j + 4 of the block's 40, read as
  // one big-endian number, in Crockford's alphabet.
  lemma EncodedSymbol(b: seq<Byte>, i: nat, j: nat)
    requires 5 * i + 5 <= |b| && j < 8
    ensures 8 * i + j < |Encode(b)| && Encode(b)[8 * i + j] == Nth(FiveBits(b[5 * i..5 * i + 5], j))
  {
    assert i < |b| / 5;
    EncodedBlock(b, i, j);
    BlockSymbol(b[5 * i..5 * i + 5], j);
  }

  // ---------- the left inverse ----------

  lemma {:induction false} AlphabetIncreases(i: nat, j: nat)
    requires i < j < 32
    ensures ALPHABET[i] < ALPHABET[j]
    decreases j
  {
    if i < j - 1 {
      AlphabetIncreases(i, j - 1);
    }
    var k := j - 1;
    assert ALPHABET[k] < ALPHABET[k + 1];
  }

  predicate IsSymbol(c: char) {
    c in ALPHABET
  }

  predicate AllSymbols(s: string) {
    forall i :: 0 <= i < |s| ==> IsSymbol(s[i])
  }

  function Index(c: char): (i: nat)
    requires IsSymbol(c)
    ensures i < 32 && ALPHABET[i] == c
  {
    IndexFrom(c, 0)
  }

  function IndexFrom(c: char, from: nat): (i: nat)
    requires from <= 32 && c in ALPHABET[from..]
    ensures i < 32 && ALPHABET[i] == c
    decreases 32 - from
  {
    assert ALPHABET[from..] == [ALPHABET[from]] + ALPHABET[from + 1..];
    if ALPHABET[from] == c then from else IndexFrom(c, from + 1)
  }

  lemma IndexOfSymbol(i: nat)
    requires i < 32
    ensures IsSymbol(ALPHABET[i]) && Index(ALPHABET[i]) == i
  {
    var k := Index(ALPHABET[i]);
    if k < i {
      AlphabetIncreases(k, i);
    } else if i < k {
      AlphabetIncreases(i, k);
    }
  }

  // Eight five-bit groups back to five bytes.
  function JoinGroups(g: seq<int>): (b: seq<Byte>)
    requires |g| == 8 && forall k :: 0 <= k < 8 ==> 0 <= g[k] < 32
    ensures |b| == 5
  {
    [ g[0] * 8 + g[1] / 4,
      g[1] % 4 * 64 + g[2] * 2 + g[3] / 16,
      g[3] % 16 * 16 + g[4] / 2,
      g[4] % 2 * 128 + g[5] * 4 + g[6] / 8,
      g[6] % 8 * 32 + g[7] ]
  }

  function DecodeBlock(s: string): (b: seq<Byte>)
    requires |s| == 8 && AllSymbols(s)
    ensures |b| == 5
  {
    JoinGroups([Index(s[0]), Index(s[1]), Index(s[2]), Index(s[3]), Index(s[4]), Index(s[5]), Index(s[6]), Index(s[7])])
  }

  function Decode(s: string): (b: seq<Byte>)
    requires AllSymbols(s)
  {
    if |s| < 8 then [] else DecodeBlock(s[..8]) + Decode(s[8..])
  }

  // x * m + y with y < m, taken apart again.
  lemma Unpack(x: int, y: int, m: int)
    requires 0 <= x && 0 <= y < m && (m == 2 || m == 4 || m == 8 || m == 16)
    ensures (x * m + y) / m == x && (x * m + y) % m == y
  {
    if m == 2 {
    } else if m == 4 {
    } else if m == 8 {
    }
  }

  lemma JoinInvertsGroups(a: Byte, b: Byte, c: Byte, d: Byte, e: Byte)
    ensures JoinGroups(Groups(a, b, c, d, e)) == [a, b, c, d, e]
  {
    Unpack(a % 8, b / 64, 4);
    Unpack(b % 2, c / 16, 16);
    Unpack(c % 16, d / 128, 2);
    Unpack(d % 4, e / 32, 8);
    assert b == b / 64 * 64 + b / 2 % 32 * 2 + b % 2;
    assert d == d / 128 * 128 + d / 4 % 32 * 4 + d % 4;
  }

  lemma DecodeInvertsBlock(b: seq<Byte>)
    requires |b| == 5
    ensures AllSymbols(EncodeBlock(b)) && DecodeBlock(EncodeBlock(b)) == b
  {
    var s, g := EncodeBlock(b), Groups(b[0], b[1], b[2], b[3], b[4]);
    forall k | 0 <= k < 8 ensures IsSymbol(s[k]) && Index(s[k]) == g[k] {
      IndexOfSymbol(g[k]);
    }
    assert [Index(s[0]), Index(s[1]), Index(s[2]), Index(s[3]),
            Index(s[4]), Index(s[5]), Index(s[6]), Index(s[7])] == g;
    JoinInvertsGroups(b[0], b[1], b[2], b[3], b[4]);
  }

  lemma DecodeFirst(block: string, rest: string)
    requires |block| == 8 && AllSymbols(block) && AllSymbols(rest)
    ensures AllSymbols(block + rest) && Decode(block + rest) == DecodeBlock(block) + Decode(rest)
  {
    var s := block + rest;
    assert s[..8] == block && s[8..] == rest;
  }

  lemma WholeFirst(b: seq<Byte>)
    requires |b| >= 5
    ensures Whole(b) == b[..5] + Whole(b[5..])
  {
  }

  // Every input is recovered from its encoding, up to the tail that is not encoded.
  lemma {:induction false} RoundTrip(b: seq<Byte>)
    ensures AllSymbols(Encode(b)) && Decode(Encode(b)) == Whole(b)
    decreases |b|
  {
    if |b| >= 5 {
      var block, rest := b[..5], b[5..];
      RoundTrip(rest);
      DecodeInvertsBlock(block);
      DecodeFirst(EncodeBlock(block), Encode(rest));
      WholeFirst(b);
    }
  }

  // Two inputs have one encoding exactly when they agree on their whole blocks.
  lemma EncodeInjective(a: seq<Byte>, b: seq<Byte>)
    ensures Encode(a) == Encode(b) <==> Whole(a) == Whole(b)
  {
    if Encode(a) == Encode(b) {
      RoundTrip(a);
      RoundTrip(b);
    } else {
      EncodeWhole(a);
      EncodeWhole(b);
    }
  }

  // ---------- tokens ----------

  // Groups of five characters, separated by dashes.
  function Dashed(chars: string): string {
    if |chars| <= 5 then chars else chars[..5] + "-" + Dashed(chars[5..])
  }

  lemma {:induction false} DashedInjective(a: string, b: string)
    requires |a| == |b| && Dashed(a) == Dashed(b)
    ensures a == b
  {
    if |a| > 5 {
      assert Dashed(a)[..5] == a[..5] && Dashed(b)[..5] == b[..5];
      assert Dashed(a)[6..] == Dashed(a[5..]) && Dashed(b)[6..] == Dashed(b[5..]);
      DashedInjective(a[5..], b[5..]);
      assert a == a[..5] + a[5..] && b == b[..5] + b[5..];
    }
  }

  lemma FiveGroups(c: string)
    requires |c| == 25
    ensures Dashed(c) == c[0..5] + "-" + c[5..10] + "-" + c[10..15] + "-" + c[15..20] + "-" + c[20..25]
  {
    assert c[5..][5..] == c[10..] && c[10..][5..] == c[15..] && c[15..][5..] == c[20..];
    assert c[20..] == c[20..25] && c[15..][..5] == c[15..20] && c[10..][..5] == c[10..15] && c[5..][..5] == c[5..10];
    assert Dashed(c[15..]) == c[15..20] + "-" + c[20..25];
    assert Dashed(c[10..]) == c[10..15] + "-" + Dashed(c[15..]);
    assert Dashed(c[5..]) == c[5..10] + "-" + Dashed(c[10..]);
    assert Dashed(c) == c[0..5] + "-" + Dashed(c[5..]);
  }

  // The token text of 25 random bytes: the first 25 of their 40 symbols, in groups.
  function Plain(random: seq<Byte>): (s: string)
    requires |random| == 25
  {
    PREFIX + Dashed(Encode(random)[..25])
  }

  // Fails only when the random source fails.
  method Generate(random: Option<seq<Byte>>, id: string) returns (token: Option<Token>)
    requires random.Some? ==> |random.value| == 25
    ensures token == if random.None? then None
                     else Some(Token(id, Plain(random.value), Sha256(Plain(random.value))))
  {
    if random.None? {
      return None;
    }
    var encoded := Base32Encode(random.value);
    var chars := encoded[..25];
    var groups := chars[0..5] + "-" + chars[5..10] + "-" + chars[10..15] + "-" + chars[15..20] + "-" + chars[20..25];
    FiveGroups(chars);
    return Some(Token(id, PREFIX + groups, Sha256(PREFIX + groups)));
  }

  // The text of a token, spelled out.
  lemma PlainShows(random: seq<Byte>)
    requires |random| == 25
    ensures
      var e := Encode(random);
      Plain(random) == "PRAETOR-" + (e[0..5] + "-" + e[5..10] + "-" + e[10..15] + "-" + e[15..20] + "-" + e[20..25])
  {
    var c := Encode(random)[..25];
    FiveGroups(c);
    assert c[0..5] == Encode(random)[0..5] && c[5..10] == Encode(random)[5..10] && c[10..15] == Encode(random)[10..15];
    assert c[15..20] == Encode(random)[15..20] && c[20..25] == Encode(random)[20..25];
  }

  lemma FirstSymbols(b: seq<Byte>)
    requires |b| == 25
    ensures Encode(b)[..32] == Encode(b[..15]) + EncodeBlock(b[15..20])
  {
    EncodeNext(b, 15);
    EncodeNext(b, 20);
    assert b[..25] == b;
  }

  lemma TokenShows(b: seq<Byte>)
    requires |b| == 25
    ensures Encode(b)[..25] == Encode(b[..15]) + [ALPHABET[b[15] / 8]]
  {
    FirstSymbols(b);
    var head, next := Encode(b[..15]), EncodeBlock(b[15..20]);
    assert next[0] == ALPHABET[b[15] / 8];
    assert Encode(b)[..25] == Encode(b)[..32][..25];
    assert (head + next)[..25] == head + [next[0]];
  }

  // Of the 200 random bits a token shows exactly the first 125: the first 15 bytes and the top five
  // bits of the sixteenth decide it, and nothing else does.
  lemma SameTokenIff(a: seq<Byte>, b: seq<Byte>)
    requires |a| == 25 && |b| == 25
    ensures Plain(a) == Plain(b) <==> a[..15] == b[..15] && a[15] / 8 == b[15] / 8
  {
    TokenShows(a);
    TokenShows(b);
    if Plain(a) == Plain(b) {
      var x, y := Encode(a)[..25], Encode(b)[..25];
      assert Plain(a)[8..] == Dashed(x) && Plain(b)[8..] == Dashed(y);
      DashedInjective(x, y);
      assert x[..24] == Encode(a[..15]) && y[..24] == Encode(b[..15]);
      EncodeInjective(a[..15], b[..15]);
      IndexOfSymbol(a[15] / 8);
      IndexOfSymbol(b[15] / 8);
    }
  }

  // ---------- validation ----------

  // Dash-separated groups of five symbols.
  predicate GroupsOfFive(s: string) {
    if |s| <= 5 then |s| == 5 && AllSymbols(s)
    else AllSymbols(s[..5]) && s[5] == '-' && GroupsOfFive(s[6..])
  }

  // The accepted form: "PRAETOR-" and five groups.
  predicate WellFormed(s: string) {
    |s| == 37 && PREFIX <= s && GroupsOfFive(s[|PREFIX|..])
  }

  // strings.Split(s, "-")
  function Split(s: string): (parts: seq<string>)
    ensures |parts| >= 1
  {
    if s == [] then [[]]
    else if s[0] == '-' then [[]] + Split(s[1..])
    else
      var rest := Split(s[1..]);
      [[s[0]] + rest[0]] + rest[1..]
  }

  lemma {:induction false} SplitAtDash(part: string, rest: string)
    requires '-' !in part
    ensures Split(part + "-" + rest) == [part] + Split(rest)
  {
    var s := part + "-" + rest;
    if part == [] {
      assert s[1..] == rest;
    } else {
      assert s[1..] == part[1..] + "-" + rest && s[0] == part[0];
      SplitAtDash(part[1..], rest);
      assert [part[0]] + part[1..] == part;
    }
  }

  // The first part of a split is the whole string, or it is followed by a dash and the rest.
  lemma {:induction false} SplitFirst(s: string)
    ensures '-' !in Split(s)[0]
    ensures |Split(s)| == 1 ==> Split(s)[0] == s
    ensures |Split(s)| > 1 ==>
              && |s| > |Split(s)[0]| && s[|Split(s)[0]|] == '-'
              && s == Split(s)[0] + "-" + s[|Split(s)[0]| + 1..]
              && Split(s)[1..] == Split(s[|Split(s)[0]| + 1..])
  {
    if s != [] {
      SplitFirst(s[1..]);
      if s[0] != '-' {
        var rest, n := Split(s[1..]), |Split(s)[0]|;
        assert [s[0]] + s[1..] == s;
        assert Split(s)[1..] == rest[1..];
        if |rest| > 1 {
          assert s[1..][n..] == s[n + 1..];
        }
      }
    }
  }

  lemma NoDashInSymbols(s: string)
    requires AllSymbols(s)
    ensures '-' !in s
  {
    assert !IsSymbol('-');
  }

  // What the source's loops check of the parts after the first.
  predicate AllGroups(parts: seq<string>) {
    forall i :: 0 <= i < |parts| ==> |parts[i]| == 5 && AllSymbols(parts[i])
  }

  lemma {:induction false} SplitIntoGroups(s: string, n: nat)
    requires n >= 1
    ensures |Split(s)| == n && AllGroups(Split(s)) <==> |s| == 6 * n - 1 && GroupsOfFive(s)
    decreases n
  {
    SplitFirst(s);
    if |s| == 6 * n - 1 && GroupsOfFive(s) {
      NoDashInSymbols(s[..if n == 1 then |s| else 5]);
      if n > 1 {
        SplitIntoGroups(s[6..], n - 1);
        assert s == s[..5] + "-" + s[6..];
        SplitAtDash(s[..5], s[6..]);
      }
    }
    if n > 1 && |Split(s)| == n && AllGroups(Split(s)) {
      var parts := Split(s);
      assert parts[0] == s[..5] && s[5] == '-';
      SplitIntoGroups(s[6..], n - 1);
      assert forall i :: 0 <= i < n - 1 ==> parts[1..][i] == parts[i + 1];
    }
  }

  lemma SplitOfPrefixed(s: string)
    requires PREFIX <= s
    ensures Split(s) == ["PRAETOR"] + Split(s[8..])
  {
    SplitAtDash("PRAETOR", s[8..]);
    assert s == "PRAETOR" + "-" + s[8..];
  }

  lemma SplitDecides(s: string)
    requires PREFIX <= s
    ensures WellFormed(s) <==> |Split(s)| == 6 && AllGroups(Split(s)[1..])
  {
    SplitOfPrefixed(s);
    SplitIntoGroups(s[8..], 5);
    assert Split(s)[1..] == Split(s[8..]);
  }

  // The source's nested loops over the parts after the first.
  method CheckGroups(groups: seq<string>) returns (ok: bool)
    ensures ok <==> AllGroups(groups)
  {
    var i := 0;
    while i < |groups|
      invariant 0 <= i <= |groups|
      invariant forall k :: 0 <= k < i ==> |groups[k]| == 5 && AllSymbols(groups[k])
    {
      var p := groups[i];
      if |p| != 5 {
        return false;
      }
      var j := 0;
      while j < |p|
        invariant 0 <= j <= |p|
        invariant forall k :: 0 <= k < j ==> IsSymbol(p[k])
      {
        if !IsSymbol(p[j]) {
          return false;
        }
        j := j + 1;
      }
      i := i + 1;
    }
    return true;
  }

  // Accepts exactly the well-formed strings.
  method ParseAndValidate(s: string) returns (ok: bool)
    ensures ok <==> WellFormed(s)
  {
    if !(PREFIX <= s) {
      return false;
    }
    SplitDecides(s);
    var parts := Split(s);
    if |parts| != 6 {
      return false;
    }
    ok := CheckGroups(parts[1..]);
  }

  lemma {:induction false} DashedHasGroups(chars: string, n: nat)
    requires n >= 1 && |chars| == 5 * n && AllSymbols(chars)
    ensures |Dashed(chars)| == 6 * n - 1 && GroupsOfFive(Dashed(chars))
    decreases n
  {
    if n > 1 {
      DashedHasGroups(chars[5..], n - 1);
      assert Dashed(chars)[6..] == Dashed(chars[5..]);
      assert Dashed(chars)[..5] == chars[..5];
    }
  }

  lemma {:induction false} GroupsAreDashed(s: string, n: nat) returns (chars: string)
    requires n >= 1 && |s| == 6 * n - 1 && GroupsOfFive(s)
    ensures |chars| == 5 * n && AllSymbols(chars) && s == Dashed(chars)
    decreases n
  {
    if n == 1 {
      chars := s;
    } else {
      var rest := GroupsAreDashed(s[6..], n - 1);
      chars := s[..5] + rest;
      assert chars[..5] == s[..5] && chars[5..] == rest;
    }
  }

  // The accepted strings are exactly the texts a token could have: any 25 symbols, formatted.
  lemma {:induction false} AcceptedIffTokenText(s: string)
    ensures WellFormed(s) <==> exists chars :: |chars| == 25 && AllSymbols(chars) && s == PREFIX + Dashed(chars)
  {
    if WellFormed(s) {
      var chars := GroupsAreDashed(s[8..], 5);
      assert s == PREFIX + Dashed(chars);
    }
    forall chars: string | |chars| == 25 && AllSymbols(chars) && s == PREFIX + Dashed(chars) ensures WellFormed(s) {
      DashedHasGroups(chars, 5);
      assert s[8..] == Dashed(chars);
    }
  }

  // Every sixth character is a dash, the others are symbols.
  predicate LaidOut(s: string) {
    forall i :: 0 <= i < |s| ==> if i % 6 == 5 then s[i] == '-' else IsSymbol(s[i])
  }

  lemma SixLater(i: nat)
    ensures (i + 6) % 6 == i % 6
  {
  }

  lemma LaidOutSplits(s: string)
    requires |s| >= 6 && LaidOut(s)
    ensures AllSymbols(s[..5]) && s[5] == '-' && LaidOut(s[6..])
  {
    forall i | 0 <= i < |s| - 6 ensures if i % 6 == 5 then s[6..][i] == '-' else IsSymbol(s[6..][i]) {
      SixLater(i);
      assert s[6..][i] == s[i + 6];
    }
  }

  lemma LaidOutJoins(s: string)
    requires |s| >= 6 && AllSymbols(s[..5]) && s[5] == '-' && LaidOut(s[6..])
    ensures LaidOut(s)
  {
    forall i | 0 <= i < |s| ensures if i % 6 == 5 then s[i] == '-' else IsSymbol(s[i]) {
      if i >= 6 {
        SixLater(i - 6);
        assert s[6..][i - 6] == s[i];
      } else if i < 5 {
        assert s[..5][i] == s[i];
      }
    }
  }

  lemma {:induction false} GroupsLayout(s: string, n: nat)
    requires n >= 1 && |s| == 6 * n - 1
    ensures GroupsOfFive(s) <==> LaidOut(s)
    decreases n
  {
    if n > 1 {
      GroupsLayout(s[6..], n - 1);
      if LaidOut(s) {
        LaidOutSplits(s);
      } else if GroupsOfFive(s) {
        LaidOutJoins(s);
      }
    } else {
      assert forall i :: 0 <= i < 5 ==> i % 6 != 5;
    }
  }

  // Main result: the accepted strings, character by character: PRAETOR- and 29 more, of which every sixth
  // is a dash and the others are digits and capital letters except I, L, O and U.
  lemma AcceptedIffLayout(s: string)
    ensures WellFormed(s) <==> |s| == 37 && s[..8] == "PRAETOR-" && LaidOut(s[8..])
    ensures forall c :: c in s ==> (IsSymbol(c) <==> Crockford(c))
  {
    forall c | c in s ensures IsSymbol(c) <==> Crockford(c) {
      SymbolsAre(c);
    }
    if |s| == 37 {
      GroupsLayout(s[8..], 5);
    }
  }

  // Every token that Generate can build is accepted, whatever the random bytes.
  lemma GeneratedTokensAreValid(random: seq<Byte>)
    requires |random| == 25
    ensures WellFormed(Plain(random))
  {
    var chars := Encode(random)[..25];
    RoundTrip(random);
    DashedHasGroups(chars, 5);
    assert Plain(random)[8..] == Dashed(chars);
  }
}
