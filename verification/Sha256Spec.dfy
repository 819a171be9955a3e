/** SHA-256 as sections 4.1.2, 5.1.1, 5.2.1, 5.3.3 and 6.2.2 of FIPS 180-4 define it, on whole messages. */
module Sha256Spec {
  type Word = bv32

  type Octets = seq<bv8>

  const K: seq<Word> := [
    0x428a2f98, 0x71374491, 0xb5c0fbcf, 0xe9b5dba5, 0x3956c25b, 0x59f111f1, 0x923f82a4, 0xab1c5ed5,
    0xd807aa98, 0x12835b01, 0x243185be, 0x550c7dc3, 0x72be5d74, 0x80deb1fe, 0x9bdc06a7, 0xc19bf174,
    0xe49b69c1, 0xefbe4786, 0x0fc19dc6, 0x240ca1cc, 0x2de92c6f, 0x4a7484aa, 0x5cb0a9dc, 0x76f988da,
    0x983e5152, 0xa831c66d, 0xb00327c8, 0xbf597fc7, 0xc6e00bf3, 0xd5a79147, 0x06ca6351, 0x14292967,
    0x27b70a85, 0x2e1b2138, 0x4d2c6dfc, 0x53380d13, 0x650a7354, 0x766a0abb, 0x81c2c92e, 0x92722c85,
    0xa2bfe8a1, 0xa81a664b, 0xc24b8b70, 0xc76c51a3, 0xd192e819, 0xd6990624, 0xf40e3585, 0x106aa070,
    0x19a4c116, 0x1e376c08, 0x2748774c, 0x34b0bcb5, 0x391c0cb3, 0x4ed8aa4a, 0x5b9cca4f, 0x682e6ff3,
    0x748f82ee, 0x78a5636f, 0x84c87814, 0x8cc70208, 0x90befffa, 0xa4506ceb, 0xbef9a3f7, 0xc67178f2]

  /** The eight working variables, and equally the eight words of a hash value. */
  datatype Hash = Hash(a: Word, b: Word, c: Word, d: Word, e: Word, f: Word, g: Word, h: Word)

  const InitialHash: Hash :=
    Hash(0x6a09e667, 0xbb67ae85, 0x3c6ef372, 0xa54ff53a, 0x510e527f, 0x9b05688c, 0x1f83d9ab, 0x5be0cd19)

  // ----- Section 4.1.2 -------------------------------------------------------------------------

  function Rotr(x: Word, n: nat): Word
    requires 0 < n < 32
  {
    (x >> n) | (x << (32 - n))
  }

  function Ch(x: Word, y: Word, z: Word): Word {
    (x & y) ^ (!x & z)
  }

  function Maj(x: Word, y: Word, z: Word): Word {
    (x & y) ^ (x & z) ^ (y & z)
  }

  function BigSigma0(x: Word): Word {
    Rotr(x, 2) ^ Rotr(x, 13) ^ Rotr(x, 22)
  }

  function BigSigma1(x: Word): Word {
    Rotr(x, 6) ^ Rotr(x, 11) ^ Rotr(x, 25)
  }

  function SmallSigma0(x: Word): Word {
    Rotr(x, 7) ^ Rotr(x, 18) ^ (x >> 3)
  }

  function SmallSigma1(x: Word): Word {
    Rotr(x, 17) ^ Rotr(x, 19) ^ (x >> 10)
  }

  // ----- Sections 5.1.1 and 5.2.1 --------------------------------------------------------------

  function Zeros(n: nat): (z: Octets)
    ensures |z| == n && forall i :: 0 <= i < n ==> z[i] == 0
  {
    seq(n, _ => 0)
  }

  predicate AreBytes(values: seq<nat>) {
    forall i :: 0 <= i < |values| ==> values[i] < 256
  }

  function ToOctets(values: seq<nat>): (o: Octets)
    requires AreBytes(values)
    ensures |o| == |values|
  {
    seq(|values|, i requires 0 <= i < |values| => values[i] as bv8)
  }

  /** The low `count` digits of a number to the base 256, most significant first. */
  function BigEndian(n: nat, count: nat): (values: seq<nat>)
    ensures |values| == count && AreBytes(values)
  {
    if count == 0 then [] else BigEndian(n / 256, count - 1) + [n % 256]
  }

  /** The message length in bits as a 64-bit block. */
  function LengthBlock(octets: nat): (o: Octets)
    ensures |o| == 8
  {
    ToOctets(BigEndian(octets * 8, 8))
  }

  /** In octets: the zeros between the octet 0x80 and the length block. */
  function PadZeros(length: nat): (k: nat)
    ensures k < 64 && (length + 1 + k) % 64 == 56 && (length + k + 9) % 64 == 0
  {
    (119 - length % 64) % 64
  }

  // ----- Section 6.2.2 -------------------------------------------------------------------------

  function Load(b0: bv8, b1: bv8, b2: bv8, b3: bv8): Word {
    ((b0 as bv32) << 24) | ((b1 as bv32) << 16) | ((b2 as bv32) << 8) | (b3 as bv32)
  }

  /** The word functions, as values that the schedule and the rounds are written over. */
  datatype Steps = Steps(
    load: (bv8, bv8, bv8, bv8) -> Word,
    ch: (Word, Word, Word) -> Word,
    maj: (Word, Word, Word) -> Word,
    bigSigma0: Word -> Word,
    bigSigma1: Word -> Word,
    smallSigma0: Word -> Word,
    smallSigma1: Word -> Word,
    plus: (Word, Word) -> Word,
    ks: seq<Word>,
    lengthBlock: nat -> Octets)

  const Fips: Steps := Steps(
    (b0, b1, b2, b3) => Load(b0, b1, b2, b3),
    (x, y, z) => Ch(x, y, z),
    (x, y, z) => Maj(x, y, z),
    x => BigSigma0(x),
    x => BigSigma1(x),
    x => SmallSigma0(x),
    x => SmallSigma1(x),
    (x, y) => x + y,
    K,
    (length: nat) => LengthBlock(length))

  /** W_t from W_(t-16), W_(t-15), W_(t-7) and W_(t-2). */
  function Expand(steps: Steps, w16: Word, w15: Word, w7: Word, w2: Word): Word {
    steps.plus(steps.plus(steps.plus(w16, steps.smallSigma0(w15)), w7), steps.smallSigma1(w2))
  }

  function T1(steps: Steps, v: Hash, k: Word, w: Word): Word {
    steps.plus(steps.plus(steps.plus(steps.plus(v.h, steps.bigSigma1(v.e)), steps.ch(v.e, v.f, v.g)), k), w)
  }

  function T2(steps: Steps, v: Hash): Word {
    steps.plus(steps.bigSigma0(v.a), steps.maj(v.a, v.b, v.c))
  }

  ghost predicate StepsOk(steps: Steps) {
    |steps.ks| >= 16 && forall n: nat :: |steps.lengthBlock(n)| == 8
  }

  lemma FipsOk()
    ensures StepsOk(Fips) && |Fips.ks| == 64
  {
  }

  /** Section 5.1.1 wants the least such number. */
  lemma PadZerosIsLeast(length: nat, j: nat)
    requires (length + 1 + j) % 64 == 56
    ensures PadZeros(length) <= j
  {
  }

  function Padding(steps: Steps, length: nat): (p: Octets)
    requires StepsOk(steps)
    ensures |p| == PadZeros(length) + 9
  {
    [0x80] + Zeros(PadZeros(length)) + steps.lengthBlock(length)
  }

  function Padded(steps: Steps, message: Octets): (p: Octets)
    requires StepsOk(steps)
    ensures |p| % 64 == 0
  {
    assert |message + Padding(steps, |message|)| == |message| + PadZeros(|message|) + 9;
    message + Padding(steps, |message|)
  }

  /** Step 1, the message schedule, from its first sixteen words. */
  function W(steps: Steps, first: seq<Word>, t: nat): Word
    requires |first| == 16
  {
    if t < 16 then first[t]
    else Expand(steps, W(steps, first, t - 16), W(steps, first, t - 15), W(steps, first, t - 7), W(steps, first, t - 2))
  }

  /** One turn of step 3. */
  function Round(steps: Steps, v: Hash, k: Word, w: Word): Hash {
    var t1 := T1(steps, v, k, w);
    Hash(steps.plus(t1, T2(steps, v)), v.a, v.b, v.c, steps.plus(v.d, t1), v.e, v.f, v.g)
  }

  function Rounds(steps: Steps, v: Hash, ws: seq<Word>, t: nat): Hash
    requires t <= |steps.ks| && t <= |ws|
  {
    if t == 0 then v else Round(steps, Rounds(steps, v, ws, t - 1), steps.ks[t - 1], ws[t - 1])
  }

  function WordAt(steps: Steps, block: Octets, i: nat): Word
    requires |block| == 64 && i < 16
  {
    steps.load(block[4 * i], block[4 * i + 1], block[4 * i + 2], block[4 * i + 3])
  }

  function BlockWords(steps: Steps, block: Octets): (ws: seq<Word>)
    requires |block| == 64
    ensures |ws| == 16
  {
    seq(16, i requires 0 <= i < 16 => WordAt(steps, block, i))
  }

  /** The schedule as a sequence that grows by one word at a time. */
  function Grown(steps: Steps, ws: seq<Word>, count: nat): (r: seq<Word>)
    requires 16 <= |ws| <= count
    ensures |r| == count
    decreases count - |ws|
  {
    if |ws| == count then ws
    else
      var t := |ws|;
      Grown(steps, ws + [Expand(steps, ws[t - 16], ws[t - 15], ws[t - 7], ws[t - 2])], count)
  }

  /** It is the schedule of the standard. */
  lemma {:induction false} GrownIsW(steps: Steps, first: seq<Word>, ws: seq<Word>, count: nat)
    requires |first| == 16 <= |ws| <= count && forall t :: 0 <= t < |ws| ==> ws[t] == W(steps, first, t)
    ensures forall t :: 0 <= t < count ==> Grown(steps, ws, count)[t] == W(steps, first, t)
    decreases count - |ws|
  {
    if |ws| < count {
      var t := |ws|;
      GrownIsW(steps, first, ws + [Expand(steps, ws[t - 16], ws[t - 15], ws[t - 7], ws[t - 2])], count);
    }
  }

  /** Step 4. */
  function Add(steps: Steps, x: Hash, y: Hash): Hash {
    Hash(steps.plus(x.a, y.a), steps.plus(x.b, y.b), steps.plus(x.c, y.c), steps.plus(x.d, y.d),
         steps.plus(x.e, y.e), steps.plus(x.f, y.f), steps.plus(x.g, y.g), steps.plus(x.h, y.h))
  }

  /** Steps 1 to 4 for one block. */
  function Compressed(steps: Steps, v: Hash, block: Octets): Hash
    requires |block| == 64 && |steps.ks| >= 16
  {
    Add(steps, v, Rounds(steps, v, Grown(steps, BlockWords(steps, block), |steps.ks|), |steps.ks|))
  }

  type Compression = (Hash, Octets) -> Hash

  /** The whole blocks of the input in turn. */
  function HashBlocks(compress: Compression, v: Hash, input: Octets): Hash
    decreases |input|
  {
    if |input| < 64 then v else HashBlocks(compress, compress(v, input[..64]), input[64..])
  }

  function Digest(compress: Compression, steps: Steps, message: Octets): Hash
    requires StepsOk(steps)
  {
    HashBlocks(compress, InitialHash, Padded(steps, message))
  }

  function CompressionOf(steps: Steps): Compression
    requires |steps.ks| >= 16
  {
    (v, block) => if |block| == 64 then Compressed(steps, v, block) else v
  }

  function Sha256(message: Octets): Hash {
    FipsOk();
    Digest(CompressionOf(Fips), Fips, message)
  }

  // ----- Digests in hexadecimal ----------------------------------------------------------------

  const HexWidth: nat := 8

  function HexChar(n: nat): char
    requires n < 16
  {
    "0123456789abcdef"[n]
  }

  /** The low `width` hexadecimal digits, most significant first. */
  function HexText(n: nat, width: nat): (s: string)
    ensures |s| == width
  {
    if width == 0 then "" else HexText(n / 16, width - 1) + [HexChar(n % 16)]
  }

  function WordHex(w: Word): (s: string)
    ensures |s| == 8
  {
    HexText(w as nat, HexWidth)
  }

  function HexOf(words: seq<Word>): string {
    if words == [] then "" else HexOf(words[..|words| - 1]) + WordHex(words[|words| - 1])
  }

  function Hex(v: Hash): string {
    HexOf([v.a, v.b, v.c, v.d, v.e, v.f, v.g, v.h])
  }

  lemma {:induction false} HashBlocksAppend(compress: Compression, v: Hash, a: Octets, b: Octets)
    requires |a| % 64 == 0
    ensures HashBlocks(compress, v, a + b) == HashBlocks(compress, HashBlocks(compress, v, a), b)
    decreases |a|
  {
    if a == [] {
      assert a + b == b;
    } else {
      assert (a + b)[..64] == a[..64] && (a + b)[64..] == a[64..] + b;
      HashBlocksAppend(compress, compress(v, a[..64]), a[64..], b);
    }
  }

  lemma HashOneMore(compress: Compression, v: Hash, a: Octets, block: Octets)
    requires |a| % 64 == 0 && |block| == 64
    ensures HashBlocks(compress, v, a + block) == compress(HashBlocks(compress, v, a), block)
  {
    HashBlocksAppend(compress, v, a, block);
    assert block[..64] == block && block[64..] == [];
  }
}
