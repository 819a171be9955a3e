/** What FIPS 180-4 says of words and of a padded message, octets read as a number most significant first. */
module Sha256Facts {
  import opened Sha256Spec

  /** The number that octets spell, most significant first. */
  function Folded(o: Octets): nat {
    if o == [] then 0 else Folded(o[..|o| - 1]) * 256 + o[|o| - 1] as nat
  }

  function Pow256(k: nat): (p: nat)
    ensures p >= 1
  {
    if k == 0 then 1 else 256 * Pow256(k - 1)
  }

  lemma NextOctet(b: bv8)
    requires b != 255
    ensures (b + 1) as nat == b as nat + 1
  {
  }

  lemma OctetOfValue(b: bv8)
    ensures (b as nat) as bv8 == b
  {
  }

  lemma {:induction false} OctetWith(n: nat) returns (b: bv8)
    requires n < 256
    ensures b as nat == n
  {
    if n == 0 {
      b := 0;
    } else {
      b := OctetWith(n - 1);
      NextOctet(b);
      b := b + 1;
    }
  }

  lemma OctetValue(n: nat)
    requires n < 256
    ensures (n as bv8) as nat == n
  {
    var b := OctetWith(n);
    OctetOfValue(b);
  }

  lemma {:induction false} BigEndianFolds(n: nat, count: nat)
    requires n < Pow256(count)
    ensures Folded(ToOctets(BigEndian(n, count))) == n
  {
    if count > 0 {
      BigEndianFolds(n / 256, count - 1);
      OctetValue(n % 256);
      var o := ToOctets(BigEndian(n, count));
      assert o[..|o| - 1] == ToOctets(BigEndian(n / 256, count - 1));
    }
  }

  lemma EightOctets()
    ensures Pow256(8) == 0x1_0000_0000_0000_0000
  {
    assert Pow256(4) == 0x1_0000_0000;
  }

  /**
   Section 5.1.1: the message, the octet 0x80, zeros, and in the last eight octets eight times the
   message's length, as few octets as fill whole blocks.
   */
  lemma PaddedMessage(message: Octets)
    requires |message| < 0x2000_0000_0000_0000
    ensures StepsOk(Fips)
    ensures var p := Padded(Fips, message);
      && |p| % 64 == 0 && |message| + 9 <= |p| < |message| + 9 + 64
      && p[..|message|] == message && p[|message|] == 0x80
      && (forall i :: |message| < i < |p| - 8 ==> p[i] == 0)
      && Folded(p[|p| - 8..]) == 8 * |message|
  {
    FipsOk();
    var p, length := Padded(Fips, message), LengthBlock(|message|);
    assert p == message + ([0x80] + Zeros(PadZeros(|message|)) + length);
    assert p[|p| - 8..] == length;
    EightOctets();
    BigEndianFolds(8 * |message|, 8);
  }

  lemma AppendOctet(high: Word, low: bv8)
    requires high < 0x100_0000
    ensures ((high << 8) | (low as bv32)) as nat == high as nat * 256 + low as nat
  {
  }

  lemma Widened(b: bv8)
    ensures (b as bv32) as nat == b as nat
  {
  }

  lemma LoadByOctets(b0: bv8, b1: bv8, b2: bv8, b3: bv8)
    ensures Load(b0, b1, b2, b3) == ((((((b0 as bv32) << 8) | (b1 as bv32)) << 8) | (b2 as bv32)) << 8) | (b3 as bv32)
    ensures ((b0 as bv32) << 8) | (b1 as bv32) < 0x1_0000
    ensures (((((b0 as bv32) << 8) | (b1 as bv32)) << 8) | (b2 as bv32)) < 0x100_0000
  {
  }

  lemma FoldPush(o: Octets, b: bv8)
    ensures Folded(o + [b]) == Folded(o) * 256 + b as nat
  {
    assert (o + [b])[..|o + [b]| - 1] == o;
  }

  lemma FoldedFour(b0: bv8, b1: bv8, b2: bv8, b3: bv8)
    ensures Folded([b0, b1, b2, b3]) == ((b0 as nat * 256 + b1 as nat) * 256 + b2 as nat) * 256 + b3 as nat
  {
    FoldPush([], b0);
    FoldPush([b0], b1);
    FoldPush([b0, b1], b2);
    FoldPush([b0, b1, b2], b3);
    assert [] + [b0] == [b0] && [b0] + [b1] == [b0, b1];
    assert [b0, b1] + [b2] == [b0, b1, b2] && [b0, b1, b2] + [b3] == [b0, b1, b2, b3];
  }

  /** Section 3.1: a word's first octet is its most significant. */
  lemma LoadIsBigEndian(b0: bv8, b1: bv8, b2: bv8, b3: bv8)
    ensures Load(b0, b1, b2, b3) as nat == Folded([b0, b1, b2, b3])
  {
    LoadByOctets(b0, b1, b2, b3);
    FoldedFour(b0, b1, b2, b3);
    var two := ((b0 as bv32) << 8) | (b1 as bv32);
    Widened(b0);
    AppendOctet(b0 as bv32, b1);
    AppendOctet(two, b2);
    AppendOctet((two << 8) | (b2 as bv32), b3);
  }
}
