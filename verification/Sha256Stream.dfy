/** The streaming SHA-256 of cloudflare/web/public/sha256.js, over its own buffers. */
module Sha256Stream {
  import opened Common
  import opened Sha256Spec

  const RoundConstants: seq<Word> := [
    0x428a2f98, 0x71374491, 0xb5c0fbcf, 0xe9b5dba5, 0x3956c25b, 0x59f111f1, 0x923f82a4, 0xab1c5ed5,
    0xd807aa98, 0x12835b01, 0x243185be, 0x550c7dc3, 0x72be5d74, 0x80deb1fe, 0x9bdc06a7, 0xc19bf174,
    0xe49b69c1, 0xefbe4786, 0x0fc19dc6, 0x240ca1cc, 0x2de92c6f, 0x4a7484aa, 0x5cb0a9dc, 0x76f988da,
    0x983e5152, 0xa831c66d, 0xb00327c8, 0xbf597fc7, 0xc6e00bf3, 0xd5a79147, 0x06ca6351, 0x14292967,
    0x27b70a85, 0x2e1b2138, 0x4d2c6dfc, 0x53380d13, 0x650a7354, 0x766a0abb, 0x81c2c92e, 0x92722c85,
    0xa2bfe8a1, 0xa81a664b, 0xc24b8b70, 0xc76c51a3, 0xd192e819, 0xd6990624, 0xf40e3585, 0x106aa070,
    0x19a4c116, 0x1e376c08, 0x2748774c, 0x34b0bcb5, 0x391c0cb3, 0x4ed8aa4a, 0x5b9cca4f, 0x682e6ff3,
    0x748f82ee, 0x78a5636f, 0x84c87814, 0x8cc70208, 0x90befffa, 0xa4506ceb, 0xbef9a3f7, 0xc67178f2]

  // The expressions of `update`, `compress` and `digestHex`, as the program writes them.

  function Rotated(value: Word, bits: nat): Word
    requires 0 < bits < 32
  {
    (value >> bits) | (value << (32 - bits))
  }

  /** `view.getUint32(index, false)` */
  function GetUint32(b0: bv8, b1: bv8, b2: bv8, b3: bv8): Word {
    ((((((b0 as bv32) << 8) | (b1 as bv32)) << 8) | (b2 as bv32)) << 8) | (b3 as bv32)
  }

  /** `view.setUint32(index, value, false)` */
  function SetUint32(value: nat): (values: seq<nat>)
    requires value < 0x1_0000_0000
    ensures |values| == 4 && AreBytes(values)
  {
    [value / 0x100_0000, value / 0x1_0000 % 0x100, value / 0x100 % 0x100, value % 0x100]
  }

  function ScheduleS0(x: Word): Word {
    Rotated(x, 7) ^ Rotated(x, 18) ^ (x >> 3)
  }

  function ScheduleS1(y: Word): Word {
    Rotated(y, 17) ^ Rotated(y, 19) ^ (y >> 10)
  }

  function RoundS0(a: Word): Word {
    Rotated(a, 2) ^ Rotated(a, 13) ^ Rotated(a, 22)
  }

  function RoundS1(e: Word): Word {
    Rotated(e, 6) ^ Rotated(e, 11) ^ Rotated(e, 25)
  }

  function Choice(e: Word, f: Word, g: Word): Word {
    (e & f) ^ (!e & g)
  }

  function Majority(a: Word, b: Word, c: Word): Word {
    (a & b) ^ (a & c) ^ (b & c)
  }

  const Program: Steps := Steps(
    (b0, b1, b2, b3) => GetUint32(b0, b1, b2, b3),
    (e, f, g) => Choice(e, f, g),
    (a, b, c) => Majority(a, b, c),
    a => RoundS0(a),
    e => RoundS1(e),
    x => ScheduleS0(x),
    y => ScheduleS1(y),
    (x, y) => x + y,
    RoundConstants,
    (bytesHashed: nat) => WrittenLength(bytesHashed * 8))

  /** The two halves of the bit length, each masked to thirty-two bits. */
  function WrittenLength(bitLength: nat): (o: Octets)
    ensures |o| == 8
  {
    ToOctets(SetUint32(bitLength / 0x1_0000_0000 % 0x1_0000_0000) + SetUint32(bitLength % 0x1_0000_0000))
  }

  // ----- The program's expressions are the standard's ------------------------------------------

  ghost predicate Same1(f: Word -> Word, g: Word -> Word) {
    forall x :: f(x) == g(x)
  }

  ghost predicate Same2(f: (Word, Word) -> Word, g: (Word, Word) -> Word) {
    forall x, y :: f(x, y) == g(x, y)
  }

  ghost predicate Same3(f: (Word, Word, Word) -> Word, g: (Word, Word, Word) -> Word) {
    forall x, y, z :: f(x, y, z) == g(x, y, z)
  }

  ghost predicate SameLoad(f: (bv8, bv8, bv8, bv8) -> Word, g: (bv8, bv8, bv8, bv8) -> Word) {
    forall b0, b1, b2, b3 :: f(b0, b1, b2, b3) == g(b0, b1, b2, b3)
  }

  ghost predicate SameWords(s: Steps, t: Steps) {
    && s.ks == t.ks && SameLoad(s.load, t.load)
    && Same3(s.ch, t.ch) && Same3(s.maj, t.maj) && Same2(s.plus, t.plus)
    && Same1(s.bigSigma0, t.bigSigma0) && Same1(s.bigSigma1, t.bigSigma1)
    && Same1(s.smallSigma0, t.smallSigma0) && Same1(s.smallSigma1, t.smallSigma1)
  }

  ghost predicate SameLengths(s: Steps, t: Steps) {
    forall n: nat :: s.lengthBlock(n) == t.lengthBlock(n)
  }

  lemma SameConstants()
    ensures RoundConstants == K && |K| == 64
  {
  }

  lemma RoundS0IsBigSigma0(x: Word)
    ensures RoundS0(x) == BigSigma0(x)
  {
  }

  lemma RoundS1IsBigSigma1(x: Word)
    ensures RoundS1(x) == BigSigma1(x)
  {
  }

  lemma ScheduleS0IsSmallSigma0(x: Word)
    ensures ScheduleS0(x) == SmallSigma0(x)
  {
  }

  lemma ScheduleS1IsSmallSigma1(x: Word)
    ensures ScheduleS1(x) == SmallSigma1(x)
  {
  }

  lemma ChoiceIsCh(x: Word, y: Word, z: Word)
    ensures Choice(x, y, z) == Ch(x, y, z)
  {
  }

  lemma MajorityIsMaj(x: Word, y: Word, z: Word)
    ensures Majority(x, y, z) == Maj(x, y, z)
  {
  }

  lemma SameSigmas()
    ensures Same1(Program.bigSigma0, Fips.bigSigma0) && Same1(Program.bigSigma1, Fips.bigSigma1)
    ensures Same1(Program.smallSigma0, Fips.smallSigma0) && Same1(Program.smallSigma1, Fips.smallSigma1)
  {
    forall x ensures Program.bigSigma0(x) == Fips.bigSigma0(x) { RoundS0IsBigSigma0(x); }
    forall x ensures Program.bigSigma1(x) == Fips.bigSigma1(x) { RoundS1IsBigSigma1(x); }
    forall x ensures Program.smallSigma0(x) == Fips.smallSigma0(x) { ScheduleS0IsSmallSigma0(x); }
    forall x ensures Program.smallSigma1(x) == Fips.smallSigma1(x) { ScheduleS1IsSmallSigma1(x); }
  }

  lemma SameChoices()
    ensures Same3(Program.ch, Fips.ch) && Same3(Program.maj, Fips.maj)
  {
    forall x, y, z ensures Program.ch(x, y, z) == Fips.ch(x, y, z) { ChoiceIsCh(x, y, z); }
    forall x, y, z ensures Program.maj(x, y, z) == Fips.maj(x, y, z) { MajorityIsMaj(x, y, z); }
  }

  lemma SameLoads()
    ensures SameLoad(Program.load, Fips.load)
  {
  }

  lemma ProgramWords()
    ensures SameWords(Program, Fips)
  {
    SameConstants();
    SameLoads();
    SameChoices();
    SameSigmas();
  }

  lemma OneMore(n: nat, m: nat, d: nat, count: nat)
    requires d < 0x100 && n == m * 0x100 + d
    ensures BigEndian(n, count + 1) == BigEndian(m, count) + [d]
  {
    assert n / 0x100 == m && n % 0x100 == d;
  }

  lemma TwoMore(n: nat, m1: nat, m: nat, d1: nat, d0: nat, count: nat)
    requires d1 < 0x100 && d0 < 0x100 && m1 == m * 0x100 + d1 && n == m1 * 0x100 + d0
    ensures BigEndian(n, count + 2) == BigEndian(m, count) + [d1, d0]
  {
    OneMore(m1, m, d1, count);
    OneMore(n, m1, d0, count + 1);
  }

  lemma FourOctets(n: nat, count: nat)
    ensures BigEndian(n, count + 4) == BigEndian(n / 0x1_0000_0000, count) + SetUint32(n % 0x1_0000_0000)
  {
    var m, low := n / 0x1_0000_0000, n % 0x1_0000_0000;
    var d3, d2, d1, d0 := low / 0x100_0000, low / 0x1_0000 % 0x100, low / 0x100 % 0x100, low % 0x100;
    DigitsOf(low);
    var m2 := (m * 0x100 + d3) * 0x100 + d2;
    TwoMore(m2, m * 0x100 + d3, m, d3, d2, count);
    TwoMore(n, m2 * 0x100 + d1, m2, d1, d0, count + 2);
  }

  lemma DigitsOf(low: nat)
    requires low < 0x1_0000_0000
    ensures ((low / 0x100_0000 * 0x100 + low / 0x1_0000 % 0x100) * 0x100 + low / 0x100 % 0x100) * 0x100 + low % 0x100
      == low
  {
  }

  lemma HalvesAgree(bits: nat)
    ensures BigEndian(bits, 8)
      == SetUint32(bits / 0x1_0000_0000 % 0x1_0000_0000) + SetUint32(bits % 0x1_0000_0000)
  {
    FourOctets(bits, 4);
    FourOctets(bits / 0x1_0000_0000, 0);
  }

  lemma LengthsAgree(length: nat)
    ensures WrittenLength(length * 8) == LengthBlock(length)
  {
    HalvesAgree(length * 8);
  }

  lemma ProgramLengths()
    ensures SameLengths(Program, Fips)
  {
    forall length: nat ensures Program.lengthBlock(length) == Fips.lengthBlock(length) { LengthsAgree(length); }
  }

  lemma {:induction false} SameGrown(s: Steps, t: Steps, ws: seq<Word>, count: nat)
    requires SameWords(s, t) && 16 <= |ws| <= count
    ensures Grown(s, ws, count) == Grown(t, ws, count)
    decreases count - |ws|
  {
    if |ws| < count {
      var i := |ws|;
      SameGrown(s, t, ws + [Expand(s, ws[i - 16], ws[i - 15], ws[i - 7], ws[i - 2])], count);
    }
  }

  lemma SameRound(s: Steps, t: Steps, v: Hash, k: Word, w: Word)
    requires SameWords(s, t)
    ensures Round(s, v, k, w) == Round(t, v, k, w)
  {
  }

  lemma SameAdd(s: Steps, t: Steps, x: Hash, y: Hash)
    requires SameWords(s, t)
    ensures Add(s, x, y) == Add(t, x, y)
  {
  }

  lemma {:induction false} SameRounds(s: Steps, t: Steps, v: Hash, ws: seq<Word>, n: nat)
    requires SameWords(s, t) && n <= |s.ks| && n <= |ws|
    ensures Rounds(s, v, ws, n) == Rounds(t, v, ws, n)
  {
    if n > 0 {
      SameRounds(s, t, v, ws, n - 1);
      SameRound(s, t, Rounds(s, v, ws, n - 1), s.ks[n - 1], ws[n - 1]);
    }
  }

  lemma SameWordAt(s: Steps, t: Steps, block: Octets, i: nat)
    requires SameWords(s, t) && |block| == 64 && i < 16
    ensures WordAt(s, block, i) == WordAt(t, block, i)
  {
    var b0, b1, b2, b3 := block[4 * i], block[4 * i + 1], block[4 * i + 2], block[4 * i + 3];
    assert s.load(b0, b1, b2, b3) == t.load(b0, b1, b2, b3);
  }

  lemma SameBlockWords(s: Steps, t: Steps, block: Octets)
    requires SameWords(s, t) && |block| == 64
    ensures BlockWords(s, block) == BlockWords(t, block)
  {
    forall i: nat | i < 16 ensures BlockWords(s, block)[i] == BlockWords(t, block)[i] { SameWordAt(s, t, block, i); }
  }

  lemma SameCompressed(s: Steps, t: Steps, v: Hash, block: Octets)
    requires SameWords(s, t) && |block| == 64 && |s.ks| >= 16
    ensures Compressed(s, v, block) == Compressed(t, v, block)
  {
    SameBlockWords(s, t, block);
    SameGrown(s, t, BlockWords(s, block), |s.ks|);
    SameRounds(s, t, v, Grown(s, BlockWords(s, block), |s.ks|), |s.ks|);
    SameAdd(s, t, v, Rounds(s, v, Grown(s, BlockWords(s, block), |s.ks|), |s.ks|));
  }

  lemma SameDigest(s: Steps, t: Steps, compress: Compression, message: Octets)
    requires StepsOk(s) && StepsOk(t) && SameLengths(s, t)
    ensures Digest(compress, s, message) == Digest(compress, t, message)
  {
  }

  function HashOf(s: seq<Word>): Hash
    requires |s| == 8
  {
    Hash(s[0], s[1], s[2], s[3], s[4], s[5], s[6], s[7])
  }

  /** `value.toString(16)` */
  function ToString16(n: nat): string {
    if n < 16 then [HexChar(n)] else ToString16(n / 16) + [HexChar(n % 16)]
  }

  function PadStart(s: string, width: nat): string
    decreases width - |s|
  {
    if |s| >= width then s else PadStart("0" + s, width)
  }

  function Pow16(k: nat): nat {
    if k == 0 then 1 else 16 * Pow16(k - 1)
  }

  /** The block's own words, big-endian. */
  method LoadWords(steps: Steps, block: Octets, words: array<Word>)
    requires |block| == 64 && words.Length >= 16
    modifies words
    ensures words[..16] == BlockWords(steps, block)
  {
    for index := 0 to 16
      invariant words[..index] == BlockWords(steps, block)[..index]
    {
      words[index] := steps.load(block[index * 4], block[index * 4 + 1], block[index * 4 + 2], block[index * 4 + 3]);
    }
  }

  /** The rest of the message schedule, in place. */
  method ExpandWords(steps: Steps, words: array<Word>)
    requires words.Length == |steps.ks| >= 16
    modifies words
    ensures words[..] == Grown(steps, old(words[..16]), |steps.ks|)
  {
    ghost var whole := Grown(steps, words[..16], |steps.ks|);
    for index := 16 to |steps.ks|
      invariant whole == Grown(steps, words[..index], |steps.ks|)
    {
      ghost var ws := words[..index];
      var s0, s1 := steps.smallSigma0(words[index - 15]), steps.smallSigma1(words[index - 2]);
      words[index] := steps.plus(steps.plus(steps.plus(words[index - 16], s0), words[index - 7]), s1);
      assert words[..index + 1] == ws + [words[index]];
    }
    assert words[..|steps.ks|] == words[..];
  }

  /** The sixty-four rounds, eight variables shifted along one by one. */
  method RunRounds(steps: Steps, start: Hash, words: array<Word>) returns (v: Hash)
    requires words.Length == |steps.ks| >= 16
    ensures v == Rounds(steps, start, words[..], |steps.ks|)
  {
    var a, b, c, d, e, f, g, h := start.a, start.b, start.c, start.d, start.e, start.f, start.g, start.h;
    for index := 0 to |steps.ks|
      invariant Hash(a, b, c, d, e, f, g, h) == Rounds(steps, start, words[..], index)
    {
      var s1, choice := steps.bigSigma1(e), steps.ch(e, f, g);
      var t1 := steps.plus(steps.plus(steps.plus(steps.plus(h, s1), choice), steps.ks[index]), words[index]);
      var t2 := steps.plus(steps.bigSigma0(a), steps.maj(a, b, c));
      h := g;
      g := f;
      f := e;
      e := steps.plus(d, t1);
      d := c;
      c := b;
      b := a;
      a := steps.plus(t1, t2);
    }
    v := Hash(a, b, c, d, e, f, g, h);
  }

  method AddInto(steps: Steps, state: array<Word>, v: Hash)
    requires state.Length == 8
    modifies state
    ensures HashOf(state[..]) == Add(steps, HashOf(old(state[..])), v)
  {
    var values := [v.a, v.b, v.c, v.d, v.e, v.f, v.g, v.h];
    for index := 0 to 8
      invariant forall i :: 0 <= i < index ==> state[i] == steps.plus(old(state[i]), values[i])
      invariant forall i :: index <= i < 8 ==> state[i] == old(state[i])
    {
      state[index] := steps.plus(state[index], values[index]);
    }
  }

  method CopyInto(buffer: array<bv8>, at: nat, piece: Octets)
    requires at + |piece| <= buffer.Length
    modifies buffer
    ensures buffer[..at] == old(buffer[..at]) && buffer[at..at + |piece|] == piece
  {
    for i := 0 to |piece|
      invariant buffer[..at] == old(buffer[..at]) && buffer[at..at + i] == piece[..i]
    {
      buffer[at + i] := piece[i];
    }
  }

  /** The whole buffer, once its tail is written. */
  method FillFrom(buffer: array<bv8>, at: nat, tail: Octets)
    requires at + |tail| == buffer.Length
    modifies buffer
    ensures buffer[..] == old(buffer[..at]) + tail
  {
    CopyInto(buffer, at, tail);
    assert buffer[..] == buffer[..at] + buffer[at..];
    assert buffer[at..] == buffer[at..at + |tail|];
  }

  /** The block function that contracts speak of is the one the loops compute. */
  ghost predicate LinkedTo(steps: Steps, compress: Compression) {
    && StepsOk(steps)
    && (forall v, block {:trigger Compressed(steps, v, block)} ::
          |block| == 64 ==> compress(v, block) == Compressed(steps, v, block))
  }

  lemma NothingHashed(compress: Compression, message: Octets, kept: Octets)
    requires message == [] && kept == []
    ensures message[|message| - |kept|..] == kept
      && HashBlocks(compress, InitialHash, message[..|message| - |kept|]) == InitialHash
  {
  }

  /** The program's word arithmetic gives the standard's compression. */
  lemma ProgramIsLinked()
    ensures LinkedTo(Program, CompressionOf(Fips)) && StepsOk(Fips) && SameLengths(Program, Fips)
  {
    ProgramWords();
    ProgramLengths();
    FipsOk();
    forall v, block | |block| == 64 ensures CompressionOf(Fips)(v, block) == Compressed(Program, v, block) {
      SameCompressed(Program, Fips, v, block);
    }
  }

  class Sha256Hasher {
    const steps: Steps
    const state: array<Word>
    const buffer: array<bv8>
    var bufferLength: nat
    var bytesHashed: nat
    var finished: bool
    ghost var message: Octets
    ghost const compress: Compression

    ghost predicate Linked() {
      LinkedTo(steps, compress)
    }

    /** The whole blocks of the message are in the state, the rest of it is in the buffer. */
    ghost predicate Buffered()
      reads this, state, buffer
    {
      && state.Length == 8 && buffer.Length == 64 && Linked()
      && bufferLength < 64 && bufferLength == |message| % 64
      && buffer[..bufferLength] == message[|message| - bufferLength..]
      && HashOf(state[..]) == HashBlocks(compress, InitialHash, message[..|message| - bufferLength])
    }

    ghost predicate Counted(length: nat)
      reads this, state, buffer
    {
      Buffered() && bytesHashed == length
    }

    /** The trigger keeps the details out of proofs that only pass a hasher along. */
    ghost predicate Valid()
      reads this, state, buffer
    {
      StepsOk(steps) && forall length {:trigger Counted(length)} :: length == |message| ==> Counted(length)
    }

    /** An empty message, over given word arithmetic; see `NewSha256`. */
    constructor (steps: Steps, ghost compress: Compression)
      requires LinkedTo(steps, compress)
      ensures Valid() && !finished && message == [] && this.steps == steps && this.compress == compress
      ensures fresh(state) && fresh(buffer)
    {
      state := new Word[8]
        [0x6a09e667, 0xbb67ae85, 0x3c6ef372, 0xa54ff53a, 0x510e527f, 0x9b05688c, 0x1f83d9ab, 0x5be0cd19];
      this.steps, this.compress := steps, compress;
      buffer := new bv8[64];
      bufferLength, bytesHashed, finished, message := 0, 0, false, [];
      new;
      assert HashOf(state[..]) == InitialHash;
      NothingHashed(compress, message, buffer[..bufferLength]);
      assert Counted(0);
    }

    /** One block into the state. */
    method Compress()
      requires state.Length == 8 && buffer.Length == 64 && Linked()
      modifies state
      ensures HashOf(state[..]) == compress(HashOf(old(state[..])), buffer[..])
    {
      var words := new Word[|steps.ks|];
      LoadWords(steps, buffer[..], words);
      ExpandWords(steps, words);
      var v := RunRounds(steps, HashOf(state[..]), words);
      assert Compressed(steps, HashOf(old(state[..])), buffer[..]) == Add(steps, HashOf(old(state[..])), v);
      AddInto(steps, state, v);
    }

    /** A full buffer, one block of the message, goes into the state. */
    method Flush(ghost done: Octets)
      requires state.Length == 8 && buffer.Length == 64 && Linked()
      requires |done| % 64 == 0 && HashOf(state[..]) == HashBlocks(compress, InitialHash, done)
      modifies this`bufferLength, state
      ensures bufferLength == 0 && HashOf(state[..]) == HashBlocks(compress, InitialHash, done + buffer[..])
    {
      HashOneMore(compress, InitialHash, done, buffer[..]);
      Compress();
      bufferLength := 0;
    }

    /** As much of the piece as the buffer has room for. */
    method Absorb(piece: Octets)
      requires Buffered() && 1 <= |piece| <= 64 - bufferLength
      modifies this`bufferLength, this`message, state, buffer
      ensures Buffered() && message == old(message) + piece
    {
      ghost var done := message[..|message| - bufferLength];
      ghost var kept := buffer[..bufferLength];
      assert done + kept == message;
      CopyInto(buffer, bufferLength, piece);
      assert buffer[..bufferLength + |piece|] == kept + piece;
      message := message + piece;
      bufferLength := bufferLength + |piece|;
      assert done + (kept + piece) == message;
      if bufferLength == 64 {
        assert buffer[..] == kept + piece;
        Flush(done);
      }
      LastPiece(done, kept + piece, message);
    }

    /** A finished hasher takes nothing more. */
    method Update(data: Octets) returns (accepted: bool)
      requires finished || Valid()
      modifies this`bufferLength, this`bytesHashed, this`message, state, buffer
      ensures accepted == !finished
      ensures if accepted then Valid() && message == old(message) + data
              else message == old(message) && state[..] == old(state[..]) && buffer[..] == old(buffer[..])
    {
      if finished {
        return false;
      }
      assert Counted(|message|);
      bytesHashed := bytesHashed + |data|;
      ghost var start := message;
      var offset := 0;
      assert start + data[..0] == start;
      while offset < |data|
        invariant 0 <= offset <= |data|
        invariant Buffered() && message == start + data[..offset]
        invariant bytesHashed == |start| + |data|
      {
        var take := if 64 - bufferLength < |data| - offset then 64 - bufferLength else |data| - offset;
        NextSlice(start, data, offset, take);
        Absorb(data[offset..offset + take]);
        offset := offset + take;
      }
      assert data[..offset] == data;
      assert Counted(|message|);
      return true;
    }

    /** Zeros up to the last eight octets of the buffer, and the length in bits there. */
    method FinishBlock(length: nat)
      requires buffer.Length == 64 && bufferLength <= 56 && Linked()
      modifies buffer
      ensures buffer[..] == old(buffer[..bufferLength]) + (Zeros(56 - bufferLength) + steps.lengthBlock(length))
    {
      CopyInto(buffer, bufferLength, Zeros(56 - bufferLength));
      ghost var upTo := buffer[..56];
      assert upTo == old(buffer[..bufferLength]) + Zeros(56 - bufferLength);
      CopyInto(buffer, 56, steps.lengthBlock(length));
      assert buffer[..] == upTo + steps.lengthBlock(length);
    }

    /** The padded end of the message: one more block, or two when the length does not fit. */
    method Finish()
      requires Valid() && !finished
      modifies this`bufferLength, this`finished, state, buffer
      ensures finished && state.Length == 8 && HashOf(state[..]) == Digest(compress, steps, message)
    {
      assert Counted(|message|);
      finished := true;
      DigestTail(compress, steps, message, buffer[..bufferLength], HashOf(state[..]));
      WriteTail(bytesHashed);
    }

    method WriteTail(length: nat)
      requires state.Length == 8 && buffer.Length == 64 && Linked() && bufferLength < 64
      modifies this`bufferLength, state, buffer
      ensures HashOf(state[..])
        == TailHash(compress, steps, HashOf(old(state[..])), old(buffer[..bufferLength]), length)
    {
      ghost var kept := buffer[..bufferLength];
      CopyInto(buffer, bufferLength, [0x80]);
      bufferLength := bufferLength + 1;
      assert buffer[..bufferLength] == kept + [0x80];
      if bufferLength > 56 {
        FillOut();
      }
      FinishBlock(length);
      Compress();
    }

    /** No room for the length: the buffer goes out filled with zeros. */
    method FillOut()
      requires state.Length == 8 && buffer.Length == 64 && Linked() && 56 < bufferLength <= 64
      modifies this`bufferLength, state, buffer
      ensures bufferLength == 0
      ensures HashOf(state[..])
              == compress(HashOf(old(state[..])), old(buffer[..bufferLength]) + Zeros(64 - old(bufferLength)))
    {
      FillFrom(buffer, bufferLength, Zeros(64 - bufferLength));
      Compress();
      bufferLength := 0;
    }

    method DigestHex() returns (hex: Option<string>)
      requires finished || Valid()
      modifies this`bufferLength, this`finished, state, buffer
      ensures finished
      ensures hex == if old(finished) then None else Some(Hex(Digest(compress, steps, message)))
    {
      if finished {
        return None;
      }
      Finish();
      assert state[..] == [state[0], state[1], state[2], state[3], state[4], state[5], state[6], state[7]];
      var text := HexWords(state[..]);
      hex := Some(text);
    }
  }

  /** `[...state].map((value) => value.toString(16).padStart(8, "0")).join("")` */
  method HexWords(words: seq<Word>) returns (hex: string)
    ensures hex == HexOf(words)
  {
    hex := "";
    for i := 0 to |words|
      invariant hex == HexOf(words[..i])
    {
      assert words[..i + 1][..i] == words[..i];
      var digits := PaddedWord(words[i]);
      hex := hex + digits;
    }
    assert words[..|words|] == words;
  }

  method PaddedWord(w: Word) returns (digits: string)
    ensures digits == WordHex(w)
  {
    var n := w as nat;
    assert Pow16(4) == 0x1_0000;
    assert Pow16(HexWidth) == 0x1_0000_0000;
    PaddedHex(n, HexWidth);
    digits := PadStart(ToString16(n), HexWidth);
  }

  lemma {:induction false} PadPush(s: string, d: char, width: nat)
    requires width >= 1
    ensures PadStart(s + [d], width) == PadStart(s, width - 1) + [d]
    decreases width - |s|
  {
    if |s| < width - 1 {
      assert "0" + (s + [d]) == ("0" + s) + [d];
      PadPush("0" + s, d, width);
    }
  }

  lemma {:induction false} ZeroText(width: nat)
    ensures PadStart("", width) == HexText(0, width)
  {
    if width > 0 {
      assert "0" + "" == "" + ['0'];
      PadPush("", '0', width);
      ZeroText(width - 1);
    }
  }

  /** toString(16) with zeros in front is the fixed-width text. */
  lemma {:induction false} PaddedHex(n: nat, width: nat)
    requires width >= 1 && n < Pow16(width)
    ensures PadStart(ToString16(n), width) == HexText(n, width)
  {
    if n < 16 {
      assert [HexChar(n)] == "" + [HexChar(n)];
      PadPush("", HexChar(n), width);
      ZeroText(width - 1);
    } else {
      PadPush(ToString16(n / 16), HexChar(n % 16), width);
      PaddedHex(n / 16, width - 1);
    }
  }

  lemma ZerosJoin(m: nat, n: nat)
    ensures Zeros(m) + Zeros(n) == Zeros(m + n)
  {
  }

  lemma PadCount(whole: nat, kept: nat)
    requires whole % 64 == 0 && kept < 64
    ensures PadZeros(whole + kept) == if kept <= 55 then 55 - kept else 119 - kept
  {
  }

  /** The length fits in the last block. */
  lemma PaddedOnce(steps: Steps, message: Octets, done: Octets, kept: Octets)
    requires StepsOk(steps) && |kept| <= 55 && |done| % 64 == 0 && message == done + kept
    ensures done + OneBlock(kept, steps.lengthBlock(|message|)) == Padded(steps, message)
  {
    var zeros, length := Zeros(56 - |kept + [0x80]|), steps.lengthBlock(|message|);
    PadCount(|done|, |kept|);
    Regroup(done, kept, [0x80], zeros, length);
  }

  lemma Regroup2(a: Octets, b: Octets, c: Octets, d: Octets, e: Octets)
    ensures a + (b + c) + ([] + (d + e)) == a + (b + ((c + d) + e))
  {
  }

  /** It needs a block of its own. */
  lemma PaddedTwice(steps: Steps, message: Octets, done: Octets, kept: Octets)
    requires StepsOk(steps) && 56 <= |kept| < 64 && |done| % 64 == 0 && message == done + kept
    ensures done + FullBlock(kept) + ([] + (Zeros(56) + steps.lengthBlock(|message|))) == Padded(steps, message)
  {
    var fill, length := 64 - |kept + [0x80]|, steps.lengthBlock(|message|);
    PadCount(|done|, |kept|);
    ZerosJoin(fill, 56);
    Regroup(done, kept, [0x80], Zeros(fill + 56), length);
    Regroup2(done, kept + [0x80], Zeros(fill), Zeros(56), length);
  }

  lemma Regroup(a: Octets, b: Octets, c: Octets, d: Octets, e: Octets)
    ensures a + ((b + c) + (d + e)) == (a + b) + (c + d + e)
  {
  }

  /** The last one or two blocks, from the state after the whole blocks of the message. */
  ghost function TailHash(compress: Compression, steps: Steps, v: Hash, kept: Octets, length: nat): Hash
    requires StepsOk(steps) && |kept| < 64
  {
    if |kept| <= 55 then compress(v, OneBlock(kept, steps.lengthBlock(length)))
    else compress(compress(v, FullBlock(kept)), [] + (Zeros(56) + steps.lengthBlock(length)))
  }

  ghost function OneBlock(kept: Octets, length: Octets): (b: Octets)
    requires |kept| <= 55 && |length| == 8
    ensures |b| == 64
  {
    (kept + [0x80]) + (Zeros(56 - |kept + [0x80]|) + length)
  }

  ghost function FullBlock(kept: Octets): (b: Octets)
    requires 56 <= |kept| < 64
    ensures |b| == 64
  {
    (kept + [0x80]) + Zeros(64 - |kept + [0x80]|)
  }

  lemma DigestTail(compress: Compression, steps: Steps, message: Octets, kept: Octets, v: Hash)
    requires StepsOk(steps) && |kept| == |message| % 64 && kept == message[|message| - |kept|..]
    requires v == HashBlocks(compress, InitialHash, message[..|message| - |kept|])
    ensures Digest(compress, steps, message) == TailHash(compress, steps, v, kept, |message|)
  {
    var done := message[..|message| - |kept|];
    assert done + kept == message;
    if |kept| <= 55 {
      PaddedOnce(steps, message, done, kept);
      HashOneMore(compress, InitialHash, done, OneBlock(kept, steps.lengthBlock(|message|)));
    } else {
      PaddedTwice(steps, message, done, kept);
      HashTwoMore(compress, done, FullBlock(kept), [] + (Zeros(56) + steps.lengthBlock(|message|)));
    }
  }

  lemma OneMoreBlock(length: nat)
    requires length % 64 == 0
    ensures (length + 64) % 64 == 0
  {
  }

  lemma HashTwoMore(compress: Compression, done: Octets, a: Octets, b: Octets)
    requires |done| % 64 == 0 && |a| == 64 && |b| == 64
    ensures HashBlocks(compress, InitialHash, done + a + b)
            == compress(compress(HashBlocks(compress, InitialHash, done), a), b)
  {
    HashOneMore(compress, InitialHash, done, a);
    OneMoreBlock(|done|);
    HashOneMore(compress, InitialHash, done + a, b);
  }

  lemma NextSlice(start: Octets, data: Octets, offset: nat, take: nat)
    requires offset + take <= |data|
    ensures start + data[..offset] + data[offset..offset + take] == start + data[..offset + take]
  {
  }

  /** Whole blocks, then fewer than sixty-four octets or exactly one more block. */
  lemma LastPiece(done: Octets, last: Octets, message: Octets)
    requires |done| % 64 == 0 && |last| <= 64 && message == done + last
    ensures |last| < 64 ==>
      |message| % 64 == |last| && message[|message| - |last|..] == last && message[..|message| - |last|] == done
    ensures |last| == 64 ==> |message| % 64 == 0 && message[..|message|] == done + last && message[|message|..] == []
  {
  }

  /** `new Sha256()` */
  method NewSha256() returns (hasher: Sha256Hasher)
    ensures fresh(hasher) && fresh(hasher.state) && fresh(hasher.buffer)
    ensures hasher.Valid() && !hasher.finished && hasher.message == []
    ensures hasher.steps == Program && hasher.compress == CompressionOf(Fips)
    ensures StepsOk(Program) && StepsOk(Fips) && SameLengths(Program, Fips)
  {
    ProgramIsLinked();
    hasher := new Sha256Hasher(Program, CompressionOf(Fips));
  }

  /** `blob.slice(offset, offset + chunkSize)` */
  function Slice(blob: Octets, offset: nat, chunkSize: nat): Octets {
    blob[Clamp(offset, |blob|)..Clamp(offset + chunkSize, |blob|)]
  }

  /** The slices up to an offset, joined. */
  ghost function Fed(blob: Octets, chunkSize: nat, offset: nat): Octets
    requires chunkSize >= 1
    decreases offset
  {
    if offset < chunkSize then []
      else Fed(blob, chunkSize, offset - chunkSize) + Slice(blob, offset - chunkSize, chunkSize)
  }

  ghost predicate Reached(chunkSize: nat, offset: nat)
    requires chunkSize >= 1
    decreases offset
  {
    offset == 0 || (offset >= chunkSize && Reached(chunkSize, offset - chunkSize))
  }

  lemma {:induction false} FedIsPrefix(blob: Octets, chunkSize: nat, offset: nat)
    requires chunkSize >= 1 && Reached(chunkSize, offset)
    ensures Fed(blob, chunkSize, offset) == blob[..Clamp(offset, |blob|)]
    decreases offset
  {
    if offset >= chunkSize {
      FedIsPrefix(blob, chunkSize, offset - chunkSize);
      var from, to := Clamp(offset - chunkSize, |blob|), Clamp(offset, |blob|);
      assert blob[..from] + blob[from..to] == blob[..to];
    }
  }

  method DigestOfSlices(blob: Octets, chunkSize: nat) returns (hex: string, ghost end: nat)
    requires chunkSize >= 1
    ensures end >= |blob| && Reached(chunkSize, end) && hex == Hex(Sha256(Fed(blob, chunkSize, end)))
  {
    var hasher := NewSha256();
    var offset := 0;
    while offset < |blob|
      invariant 0 <= offset && Reached(chunkSize, offset)
      invariant fresh(hasher) && fresh(hasher.state) && fresh(hasher.buffer)
      invariant hasher.Valid() && !hasher.finished && hasher.message == Fed(blob, chunkSize, offset)
      decreases |blob| - offset
    {
      var _ := hasher.Update(Slice(blob, offset, chunkSize));
      offset := offset + chunkSize;
    }
    end := offset;
    SameDigest(Program, Fips, CompressionOf(Fips), hasher.message);
    var digest := hasher.DigestHex();
    hex := digest.value;
  }

  /** `sha256Blob`: slices of any size, the last one clamped; the digest is that of the whole. */
  method Sha256Blob(blob: Octets, chunkSize: nat) returns (hex: string)
    requires chunkSize >= 1
    ensures hex == Hex(Sha256(blob))
  {
    ghost var end;
    hex, end := DigestOfSlices(blob, chunkSize);
    FedIsPrefix(blob, chunkSize, end);
    assert blob[..Clamp(end, |blob|)] == blob;
  }

  function Clamp(i: nat, length: nat): nat {
    if i < length then i else length
  }

  /** However a message is cut into updates, the digest is that of the whole. */
  method DigestOfPieces(pieces: seq<Octets>) returns (hex: string)
    ensures hex == Hex(Sha256(Joined(pieces)))
  {
    var hasher := NewSha256();
    for i := 0 to |pieces|
      invariant fresh(hasher) && fresh(hasher.state) && fresh(hasher.buffer)
      invariant hasher.Valid() && !hasher.finished
      invariant hasher.message == Joined(pieces[..i])
    {
      assert pieces[..i + 1][..i] == pieces[..i];
      var _ := hasher.Update(pieces[i]);
    }
    assert pieces[..|pieces|] == pieces;
    SameDigest(Program, Fips, CompressionOf(Fips), hasher.message);
    var digest := hasher.DigestHex();
    hex := digest.value;
  }

  function Joined(pieces: seq<Octets>): Octets {
    if pieces == [] then [] else Joined(pieces[..|pieces| - 1]) + pieces[|pieces| - 1]
  }
}
