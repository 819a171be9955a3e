/** Bytes, big-endian words, and byte streams as sequences of chunks. */
module Bytes {
  import opened Common

  type byte = x: int | 0 <= x < 256

  type ByteString = seq<byte>

  /** `DataView.setUint32(0, value)` and struct format ">I". */
  function U32(value: nat): (b: ByteString)
    requires value < 0x1_0000_0000
    ensures |b| == 4 && FromU32(b) == value
  {
    var q1 := value / 256;
    var q2 := q1 / 256;
    var q3 := q2 / 256;
    [q3, q2 % 256, q1 % 256, value % 256]
  }

  function FromU32(b: ByteString): (value: nat)
    requires |b| == 4
    ensures value < 0x1_0000_0000
  {
    var b0: int, b1: int, b2: int, b3: int := b[0], b[1], b[2], b[3];
    ((b0 * 256 + b1) * 256 + b2) * 256 + b3
  }

  const WordBits: nat := 32

  /** Exclusive or of the n low bits. */
  function Xor(a: nat, b: nat, n: nat): (x: nat)
    ensures x < Pow2(n)
  {
    if n == 0 then 0 else 2 * Xor(a / 2, b / 2, n - 1) + (a + b) % 2
  }

  function Pow2(n: nat): (p: nat)
    ensures p >= 1
  {
    if n == 0 then 1 else 2 * Pow2(n - 1)
  }

  lemma Parity(word: nat, a: nat)
    ensures ((word + a) % 2 + word) % 2 == a % 2
  {
    assert (word + a) % 2 + word == a + 2 * (word - (word + a) / 2);
  }

  lemma XorStep(high: nat, low: nat, word: nat, n: nat)
    requires n > 0 && low < 2
    ensures Xor(2 * high + low, word, n) == 2 * Xor(high, word / 2, n - 1) + (low + word) % 2
  {
    assert (2 * high + low) / 2 == high;
    assert (2 * high + low + word) % 2 == (low + word) % 2;
  }

  /** Exclusive or with a word is undone by doing it again. */
  lemma {:induction false} XorTwice(word: nat, a: nat, n: nat)
    requires a < Pow2(n)
    ensures Xor(Xor(word, a, n), word, n) == a
  {
    if n > 0 {
      XorTwice(word / 2, a / 2, n - 1);
      XorStep(Xor(word / 2, a / 2, n - 1), (word + a) % 2, word, n);
      Parity(word, a);
    }
  }

  lemma XorIsInjective(word: nat, a: nat, b: nat, n: nat)
    requires a < Pow2(n) && b < Pow2(n) && Xor(word, a, n) == Xor(word, b, n)
    ensures a == b
  {
    XorTwice(word, a, n);
    XorTwice(word, b, n);
  }

  lemma WordSize()
    ensures Pow2(WordBits) == 0x1_0000_0000
  {
    assert Pow2(8) == 0x100;
    assert Pow2(12) == 0x1000;
    assert Pow2(16) == 0x1_0000;
    assert Pow2(20) == 0x10_0000;
    assert Pow2(24) == 0x100_0000;
    assert Pow2(28) == 0x1000_0000;
  }

  lemma Associate(a: ByteString, b: ByteString, c: ByteString)
    ensures a + b + c == a + (b + c)
  {
  }

  /** What a stream of chunks delivers in all; chunks may be empty. */
  function Flatten(chunks: seq<ByteString>): (all: ByteString) {
    if chunks == [] then [] else chunks[0] + Flatten(chunks[1..])
  }

  lemma {:induction false} FlattenAppend(a: seq<ByteString>, b: seq<ByteString>)
    ensures Flatten(a + b) == Flatten(a) + Flatten(b)
  {
    if a == [] {
      assert a + b == b;
    } else {
      assert (a + b)[1..] == a[1..] + b;
      FlattenAppend(a[1..], b);
      assert a[0] + (Flatten(a[1..]) + Flatten(b)) == a[0] + Flatten(a[1..]) + Flatten(b);
    }
  }

  lemma FlattenPush(chunks: seq<ByteString>, c: ByteString)
    ensures Flatten(chunks + [c]) == Flatten(chunks) + c
  {
    FlattenAppend(chunks, [c]);
    assert [c][1..] == [];
  }

  function Min(a: nat, b: nat): nat {
    if a < b then a else b
  }

  /** "SQLite format 3\0". */
  const SqliteHeader: ByteString := [83, 81, 76, 105, 116, 101, 32, 102, 111, 114, 109, 97, 116, 32, 51, 0]

  predicate StartsWith(b: ByteString, prefix: ByteString) {
    |prefix| <= |b| && b[..|prefix|] == prefix
  }
}
