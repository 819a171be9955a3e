/**
 The encrypted object format of cloudflare/worker/src/upload-protocol.ts: what a part's plaintext
 becomes in the bucket, and what the two readers make of any stored bytes.  This module is the
 specification on whole byte strings; EnvelopeStreams has the streaming code.
 */
module Frames {
  import opened Common
  import opened Bytes

  type Key = nat

  /** The associated data of a frame; only equality of the whole matters. */
  datatype FrameId = FrameId(scope: nat, fileSha256: Digest, keyVersion: nat, part: nat, frame: nat)

  /** The ASCII bytes of a digest in hexadecimal. */
  type Digest = ByteString

  /** AES-GCM with a 128-bit tag as a pair of functions. */
  datatype Cipher = Cipher(
    enc: (Key, ByteString, FrameId, ByteString) -> ByteString,
    dec: (Key, ByteString, FrameId, ByteString) -> Option<ByteString>)

  const TagBytes: nat := 16

  ghost predicate Lawful(c: Cipher) {
    forall k, nonce, id, plain ::
      |c.enc(k, nonce, id, plain)| == |plain| + TagBytes
        && c.dec(k, nonce, id, c.enc(k, nonce, id, plain)) == Some(plain)
  }

  /** The encryption metadata of one object, its data key already unwrapped. */
  datatype Envelope = Envelope(key: Key, scope: nat, fileSha256: Digest, keyVersion: nat, baseNonce: ByteString,
                               frameSize: nat)

  /** Metadata as `createObjectMetadata` makes it, for any frame size that fits its length field. */
  predicate ValidEnvelope(e: Envelope) {
    |e.baseNonce| == 12 && 1 <= e.frameSize < 0x1_0000_0000
  }

  // ----- Nonces --------------------------------------------------------------------------------

  /** `((partNumber & 0xffff) << 16) | (frameNumber & 0xffff)` of numbers that fit. */
  function Counter(part: nat, frame: nat): (c: nat)
    requires part <= 0xffff && frame <= 0xffff
    ensures c < 0x1_0000_0000
  {
    part * 0x1_0000 + frame
  }

  function NonceForFrame(base: ByteString, part: nat, frame: nat): (nonce: Option<ByteString>)
    ensures nonce.None? <==> |base| != 12 || part < 1 || part > 0xffff || frame > 0xffff
    ensures nonce.Some? ==> |nonce.value| == 12
  {
    if |base| != 12 || part < 1 || part > 0xffff || frame > 0xffff then None
    else
      WordSize();
      Some(base[..8] + U32(Xor(FromU32(base[8..]), Counter(part, frame), WordBits)))
  }

  /** The nonce is the base with part and frame number, big-endian in two octets each, xored into its last four. */
  lemma NonceTellsFrame(base: ByteString, part: nat, frame: nat)
    requires NonceForFrame(base, part, frame).Some?
    ensures var nonce := NonceForFrame(base, part, frame).value;
      && nonce[..8] == base[..8]
      && Xor(FromU32(nonce[8..]), FromU32(base[8..]), WordBits) == part * 0x1_0000 + frame
  {
    WordSize();
    var word := FromU32(base[8..]);
    XorTwice(word, Counter(part, frame), WordBits);
    var last := U32(Xor(word, Counter(part, frame), WordBits));
    assert (base[..8] + last)[..8] == base[..8] && (base[..8] + last)[8..] == last;
  }

  /** Within one object no two frames share a nonce. */
  lemma NoncesDiffer(base: ByteString, part: nat, frame: nat, part': nat, frame': nat)
    requires NonceForFrame(base, part, frame).Some? && NonceForFrame(base, part', frame').Some?
    requires (part, frame) != (part', frame')
    ensures NonceForFrame(base, part, frame) != NonceForFrame(base, part', frame')
  {
    WordSize();
    if NonceForFrame(base, part, frame) == NonceForFrame(base, part', frame') {
      SameNonceSameCounter(base, Counter(part, frame), Counter(part', frame'));
    }
  }

  lemma SameNonceSameCounter(base: ByteString, a: nat, b: nat)
    requires |base| == 12 && a < 0x1_0000_0000 && b < 0x1_0000_0000 && Pow2(WordBits) == 0x1_0000_0000
    requires base[..8] + U32(Xor(FromU32(base[8..]), a, WordBits))
      == base[..8] + U32(Xor(FromU32(base[8..]), b, WordBits))
    ensures a == b
  {
    var x, y := Xor(FromU32(base[8..]), a, WordBits), Xor(FromU32(base[8..]), b, WordBits);
    assert (base[..8] + U32(x))[8..] == U32(x) && (base[..8] + U32(y))[8..] == U32(y);
    assert FromU32(U32(x)) == x && FromU32(U32(y)) == y;
    XorIsInjective(FromU32(base[8..]), a, b, WordBits);
  }

  // ----- Writing -------------------------------------------------------------------------------

  const MaxFrames: nat := 0xffff

  /** MAX_R2_PARTS */
  const MaxParts: nat := 10_000

  function IdOf(e: Envelope, part: nat, frame: nat): FrameId {
    FrameId(e.scope, e.fileSha256, e.keyVersion, part, frame)
  }

  /** A frame as stored: plaintext length, then ciphertext and tag. */
  function SealFrame(c: Cipher, e: Envelope, part: nat, frame: nat, plain: ByteString): Option<ByteString>
    requires |plain| < 0x1_0000_0000
  {
    var nonce := NonceForFrame(e.baseNonce, part, frame);
    if nonce.None? then None
    else Some(U32(|plain|) + c.enc(e.key, nonce.value, IdOf(e, part, frame), plain))
  }

  function FirstFrame(e: Envelope, plain: ByteString): ByteString {
    plain[..Min(e.frameSize, |plain|)]
  }

  /** A whole part from this frame on; None when its frames run out of numbers. */
  function SealPart(c: Cipher, e: Envelope, part: nat, frame: nat, plain: ByteString): Option<ByteString>
    requires ValidEnvelope(e)
    decreases |plain|
  {
    if plain == [] then Some([])
    else if frame + 1 > MaxFrames then None
    else
      var f := FirstFrame(e, plain);
      var sealed := SealFrame(c, e, part, frame, f);
      var others := SealPart(c, e, part, frame + 1, plain[|f|..]);
      if sealed.None? || others.None? then None else Some(sealed.value + others.value)
  }

  /** The bucket's completed object: the encrypted parts in part-number order. */
  function SealParts(c: Cipher, e: Envelope, number: nat, plains: seq<ByteString>): Option<ByteString>
    requires ValidEnvelope(e)
    decreases |plains|
  {
    if plains == [] then Some([])
    else
      var first := SealPart(c, e, number, 0, plains[0]);
      var others := SealParts(c, e, number + 1, plains[1..]);
      if first.None? || others.None? then None else Some(first.value + others.value)
  }

  // ----- Reading -------------------------------------------------------------------------------

  datatype PartRecord = PartRecord(partNumber: nat, sizeBytes: nat, sha256: Digest)

  datatype FileRecord = FileRecord(sizeBytes: nat, sha256: Digest, parts: seq<PartRecord>)

  type Hash = ByteString -> Digest

  type Opened = Option<(ByteString, ByteString)>

  /** One frame off the front of the body: its plaintext and the bytes after it. */
  function OpenFrame(c: Cipher, e: Envelope, part: nat, frame: nat, remaining: nat, body: ByteString): (r: Opened)
    ensures r.Some? ==> 1 <= |r.value.0| <= remaining && |r.value.0| <= e.frameSize && |r.value.1| < |body|
  {
    if |body| < 4 then None
    else
      var size := FromU32(body[..4]);
      if size < 1 || size > e.frameSize || size > remaining || |body| < 4 + size + TagBytes then None
      else
        var nonce := NonceForFrame(e.baseNonce, part, frame);
        if nonce.None? then None
        else
          var plain := c.dec(e.key, nonce.value, IdOf(e, part, frame), body[4..4 + size + TagBytes]);
          if plain.None? || |plain.value| != size then None
          else Some((plain.value, body[4 + size + TagBytes..]))
  }

  function Prefixed(plain: ByteString, r: Opened): (p: Opened)
  {
    if r.None? then None else Some((plain + r.value.0, r.value.1))
  }

  /** `verifyEncryptedObject` is strict: it allows MaxFrames frames in a part and no empty part. */
  function OpenPart(c: Cipher, e: Envelope, part: nat, frame: nat, remaining: nat, body: ByteString,
                    strict: bool): Opened
    decreases remaining
  {
    if remaining == 0 then Some(([], body))
    else
      var first := OpenFrame(c, e, part, frame, remaining, body);
      if first.None? || (strict && frame + 1 > MaxFrames) then None
      else Prefixed(first.value.0, OpenPart(c, e, part, frame + 1, remaining - |first.value.0|, first.value.1, strict))
  }

  function OpenParts(c: Cipher, e: Envelope, hash: Hash, parts: seq<PartRecord>, body: ByteString, strict: bool): Opened
    decreases |parts|
  {
    if parts == [] then Some(([], body))
    else
      var first := OpenPart(c, e, parts[0].partNumber, 0, parts[0].sizeBytes, body, strict);
      if first.None? || hash(first.value.0) != parts[0].sha256 || (strict && parts[0].sizeBytes < 1) then None
      else Prefixed(first.value.0, OpenParts(c, e, hash, parts[1..], first.value.1, strict))
  }

  predicate WholeFile(hash: Hash, file: FileRecord, plain: ByteString) {
    |plain| == file.sizeBytes && hash(plain) == file.sha256
  }

  /** `decryptCompletedUploadObject`: the plaintext that ends in a clean end of stream, if any. */
  function Decrypted(c: Cipher, e: Envelope, hash: Hash, file: FileRecord, body: ByteString): Option<ByteString> {
    var r := OpenParts(c, e, hash, Sorted(file.parts), body, false);
    if file.parts == [] || r.None? || r.value.1 != [] || !WholeFile(hash, file, r.value.0) then None
    else Some(r.value.0)
  }

  datatype Verdict = Verified | MetadataInvalid | IntegrityFailed | HeaderRequired

  /** `verifyEncryptedObject` checks the SQLite header before it checks the whole. */
  function Verification(c: Cipher, e: Envelope, hash: Hash, file: FileRecord, body: ByteString): Verdict {
    var r := OpenParts(c, e, hash, Sorted(file.parts), body, true);
    if r.None? || r.value.1 != [] then IntegrityFailed
    else if !StartsWith(r.value.0, SqliteHeader) then HeaderRequired
    else if !WholeFile(hash, file, r.value.0) then IntegrityFailed
    else Verified
  }

  // ----- Part order ----------------------------------------------------------------------------

  function Inserted(part: PartRecord, parts: seq<PartRecord>): (r: seq<PartRecord>)
    ensures multiset(r) == multiset(parts) + multiset{part}
  {
    if parts == [] || part.partNumber < parts[0].partNumber then
      [part] + parts
    else
      assert parts == [parts[0]] + parts[1..];
      [parts[0]] + Inserted(part, parts[1..])
  }

  /** `[...parts].sort((left, right) => left.partNumber - right.partNumber)` */
  function Sorted(parts: seq<PartRecord>): (r: seq<PartRecord>)
    ensures multiset(r) == multiset(parts)
  {
    if parts == [] then []
    else
      var last := |parts| - 1;
      assert parts == parts[..last] + [parts[last]];
      Inserted(parts[last], Sorted(parts[..last]))
  }

  ghost predicate InOrder(parts: seq<PartRecord>) {
    forall i, j :: 0 <= i < j < |parts| ==> parts[i].partNumber <= parts[j].partNumber
  }

  /** No two records with one number. */
  ghost predicate DistinctNumbers(parts: seq<PartRecord>) {
    forall i, j :: 0 <= i < j < |parts| ==> parts[i].partNumber != parts[j].partNumber
  }

  ghost predicate AllFrom(least: nat, parts: seq<PartRecord>) {
    forall i :: 0 <= i < |parts| ==> least <= parts[i].partNumber
  }

  lemma {:induction false} InsertedFrom(least: nat, part: PartRecord, parts: seq<PartRecord>)
    requires AllFrom(least, parts) && least <= part.partNumber
    ensures AllFrom(least, Inserted(part, parts))
  {
    if parts != [] && part.partNumber >= parts[0].partNumber {
      InsertedFrom(least, part, parts[1..]);
    }
  }

  lemma PrependInOrder(part: PartRecord, parts: seq<PartRecord>)
    requires AllFrom(part.partNumber, parts) && InOrder(parts)
    ensures InOrder([part] + parts)
  {
  }

  lemma {:induction false} InsertedInOrder(part: PartRecord, parts: seq<PartRecord>)
    requires InOrder(parts)
    ensures InOrder(Inserted(part, parts))
  {
    if parts == [] || part.partNumber < parts[0].partNumber {
      PrependInOrder(part, parts);
    } else {
      InsertedInOrder(part, parts[1..]);
      InsertedFrom(parts[0].partNumber, part, parts[1..]);
      PrependInOrder(parts[0], Inserted(part, parts[1..]));
    }
  }

  lemma {:induction false} SortedInOrder(parts: seq<PartRecord>)
    ensures InOrder(Sorted(parts))
  {
    if parts != [] {
      SortedInOrder(parts[..|parts| - 1]);
      InsertedInOrder(parts[|parts| - 1], Sorted(parts[..|parts| - 1]));
    }
  }

  lemma SameHead(a: seq<PartRecord>, b: seq<PartRecord>)
    requires a != [] && b != [] && InOrder(a) && InOrder(b) && DistinctNumbers(b) && multiset(a) == multiset(b)
    ensures a[0] == b[0]
  {
    assert a[0] in multiset(b) && b[0] in multiset(a);
    var i :| 0 <= i < |b| && b[i] == a[0];
    var k :| 0 <= k < |a| && a[k] == b[0];
  }

  lemma TailsOf(a: seq<PartRecord>)
    requires a != []
    ensures multiset(a[1..]) == multiset(a) - multiset{a[0]}
  {
    assert a == [a[0]] + a[1..];
  }

  /** In whatever order parts were recorded, the readers take them in the one ascending order. */
  lemma {:induction false} OneOrder(a: seq<PartRecord>, b: seq<PartRecord>)
    requires InOrder(a) && InOrder(b) && DistinctNumbers(b) && multiset(a) == multiset(b)
    ensures a == b
  {
    assert |a| == |multiset(a)| == |multiset(b)| == |b|;
    if a != [] {
      SameHead(a, b);
      TailsOf(a);
      TailsOf(b);
      OneOrder(a[1..], b[1..]);
      assert a == [a[0]] + a[1..] && b == [b[0]] + b[1..];
    }
  }

  lemma SortedIsTheOrder(parts: seq<PartRecord>, ordered: seq<PartRecord>)
    requires multiset(parts) == multiset(ordered) && InOrder(ordered) && DistinctNumbers(ordered)
    ensures Sorted(parts) == ordered
  {
    SortedInOrder(parts);
    OneOrder(Sorted(parts), ordered);
  }

  // ----- What a written object reads back as ---------------------------------------------------

  lemma OneFrameLess(frames: nat, size: nat, length: nat)
    requires frames >= 1
    ensures length <= frames * size <==> length - Min(size, length) <= (frames - 1) * size
  {
  }

  /** One frame of a nonempty part, in a frame number that is free. */
  lemma SealStep(c: Cipher, e: Envelope, part: nat, frame: nat, plain: ByteString)
    requires ValidEnvelope(e) && 1 <= part <= 0xffff && frame < MaxFrames && plain != []
    ensures var f := FirstFrame(e, plain);
      && SealFrame(c, e, part, frame, f).Some?
      && SealPart(c, e, part, frame, plain)
         == (var others := SealPart(c, e, part, frame + 1, plain[|f|..]);
             if others.None? then None else Some(SealFrame(c, e, part, frame, f).value + others.value))
  {
  }

  /** The writer refuses exactly the parts that need more than MaxFrames frames. */
  lemma {:induction false} WriterBound(c: Cipher, e: Envelope, part: nat, frame: nat, plain: ByteString, left: nat)
    requires ValidEnvelope(e) && 1 <= part <= 0xffff && frame + left == MaxFrames
    ensures SealPart(c, e, part, frame, plain).Some? <==> |plain| <= left * e.frameSize
    decreases |plain|
  {
    if plain != [] && left > 0 {
      OneFrameLess(left, e.frameSize, |plain|);
      SealStep(c, e, part, frame, plain);
      WriterBound(c, e, part, frame + 1, plain[|FirstFrame(e, plain)|..], left - 1);
    }
  }

  lemma FrameRoundTrip(c: Cipher, e: Envelope, part: nat, frame: nat, plain: ByteString, remaining: nat,
                       rest: ByteString)
    requires Lawful(c) && ValidEnvelope(e) && 1 <= |plain| <= remaining && |plain| <= e.frameSize
    requires SealFrame(c, e, part, frame, plain).Some?
    ensures OpenFrame(c, e, part, frame, remaining, SealFrame(c, e, part, frame, plain).value + rest)
      == Some((plain, rest))
  {
  }

  /** Opening continues after a frame that opened. */
  lemma OpenStep(c: Cipher, e: Envelope, part: nat, frame: nat, f: ByteString, remaining: nat, body: ByteString,
                 rest: ByteString, strict: bool)
    requires remaining > 0 && OpenFrame(c, e, part, frame, remaining, body) == Some((f, rest)) && frame + 1 <= MaxFrames
    ensures |f| <= remaining
    ensures OpenPart(c, e, part, frame, remaining, body, strict)
            == Prefixed(f, OpenPart(c, e, part, frame + 1, remaining - |f|, rest, strict))
  {
  }

  /** A frame that opens in front of a part that opens. */
  lemma FrameThenPart(c: Cipher, e: Envelope, part: nat, frame: nat, f: ByteString, plain: ByteString,
                      sealed: ByteString,
                      others: ByteString, rest: ByteString, strict: bool)
    requires frame + 1 <= MaxFrames && |f| >= 1
    requires OpenFrame(c, e, part, frame, |f + plain|, sealed + (others + rest)) == Some((f, others + rest))
    requires OpenPart(c, e, part, frame + 1, |plain|, others + rest, strict) == Some((plain, rest))
    ensures OpenPart(c, e, part, frame, |f + plain|, (sealed + others) + rest, strict) == Some((f + plain, rest))
  {
    assert (sealed + others) + rest == sealed + (others + rest);
    OpenStep(c, e, part, frame, f, |f + plain|, sealed + (others + rest), others + rest, strict);
  }

  lemma {:induction false} PartRoundTrip(c: Cipher, e: Envelope, part: nat, frame: nat, plain: ByteString,
                                         rest: ByteString, strict: bool)
    requires Lawful(c) && ValidEnvelope(e) && 1 <= part <= 0xffff && SealPart(c, e, part, frame, plain).Some?
    ensures OpenPart(c, e, part, frame, |plain|, SealPart(c, e, part, frame, plain).value + rest, strict)
            == Some((plain, rest))
    decreases |plain|
  {
    if plain == [] {
      assert SealPart(c, e, part, frame, plain).value + rest == rest;
    } else {
      var f := FirstFrame(e, plain);
      SealStep(c, e, part, frame, plain);
      var sealed := SealFrame(c, e, part, frame, f).value;
      var others := SealPart(c, e, part, frame + 1, plain[|f|..]).value;
      FrameRoundTrip(c, e, part, frame, f, |plain|, others + rest);
      PartRoundTrip(c, e, part, frame + 1, plain[|f|..], rest, strict);
      assert f + plain[|f|..] == plain;
      FrameThenPart(c, e, part, frame, f, plain[|f|..], sealed, others, rest, strict);
    }
  }

  /** The records `uploadPart` keeps for these parts. */
  function RecordsOf(hash: Hash, number: nat, plains: seq<ByteString>): (r: seq<PartRecord>)
    ensures |r| == |plains|
    ensures forall i :: 0 <= i < |r| ==> r[i] == PartRecord(number + i, |plains[i]|, hash(plains[i]))
    decreases |plains|
  {
    if plains == [] then []
    else [PartRecord(number, |plains[0]|, hash(plains[0]))] + RecordsOf(hash, number + 1, plains[1..])
  }

  lemma {:induction false} PartsRoundTrip(c: Cipher, e: Envelope, hash: Hash, number: nat, plains: seq<ByteString>,
                                          rest: ByteString, strict: bool)
    requires Lawful(c) && ValidEnvelope(e) && 1 <= number && number + |plains| <= 0x1_0000
    requires SealParts(c, e, number, plains).Some?
    requires strict ==> forall i :: 0 <= i < |plains| ==> plains[i] != []
    ensures OpenParts(c, e, hash, RecordsOf(hash, number, plains), SealParts(c, e, number, plains).value + rest, strict)
            == Some((Flatten(plains), rest))
    decreases |plains|
  {
    if plains == [] {
      assert SealParts(c, e, number, plains).value + rest == rest;
    } else {
      var first := SealPart(c, e, number, 0, plains[0]).value;
      var others := SealParts(c, e, number + 1, plains[1..]).value;
      assert (first + others) + rest == first + (others + rest);
      PartRoundTrip(c, e, number, 0, plains[0], others + rest, strict);
      PartsRoundTrip(c, e, hash, number + 1, plains[1..], rest, strict);
      assert RecordsOf(hash, number, plains)[1..] == RecordsOf(hash, number + 1, plains[1..]);
    }
  }

  /**
   Round trip: whatever the split into parts and the order in which the parts were recorded, the
   completed object decrypts to the plaintext with a clean end, and verifies exactly when it is a
   SQLite file.
   */
  lemma ObjectRoundTrip(c: Cipher, e: Envelope, hash: Hash, plains: seq<ByteString>, parts: seq<PartRecord>)
    requires Lawful(c) && ValidEnvelope(e) && 1 <= |plains| <= MaxParts
    requires SealParts(c, e, 1, plains).Some? && multiset(parts) == multiset(RecordsOf(hash, 1, plains))
    requires forall i :: 0 <= i < |plains| ==> plains[i] != []
    ensures var plain := Flatten(plains);
      var file := FileRecord(|plain|, hash(plain), parts);
      var body := SealParts(c, e, 1, plains).value;
      && Decrypted(c, e, hash, file, body) == Some(plain)
      && Verification(c, e, hash, file, body) == if StartsWith(plain, SqliteHeader) then Verified else HeaderRequired
  {
    var records := RecordsOf(hash, 1, plains);
    SortedIsTheOrder(parts, records);
    assert |parts| == |multiset(parts)| == |plains|;
    var body := SealParts(c, e, 1, plains).value;
    PartsRoundTrip(c, e, hash, 1, plains, [], true);
    PartsRoundTrip(c, e, hash, 1, plains, [], false);
    assert body + [] == body;
  }

  // ----- What any bytes that are read without error must be ------------------------------------

  /** Each part's slice of the plaintext has its recorded size and digest, and the parts cover it. */
  predicate SlicesMatch(hash: Hash, parts: seq<PartRecord>, plain: ByteString)
    decreases |parts|
  {
    if parts == [] then plain == []
    else
      && parts[0].sizeBytes <= |plain|
      && hash(plain[..parts[0].sizeBytes]) == parts[0].sha256
      && SlicesMatch(hash, parts[1..], plain[parts[0].sizeBytes..])
  }

  lemma {:induction false} OpenedPartSize(c: Cipher, e: Envelope, part: nat, frame: nat, remaining: nat,
                                          body: ByteString, strict: bool)
    ensures var r := OpenPart(c, e, part, frame, remaining, body, strict); r.Some? ==> |r.value.0| == remaining
    decreases remaining
  {
    if remaining > 0 {
      var first := OpenFrame(c, e, part, frame, remaining, body);
      if first.Some? {
        OpenedPartSize(c, e, part, frame + 1, remaining - |first.value.0|, first.value.1, strict);
      }
    }
  }

  lemma {:induction false} OpenedPartsMatch(c: Cipher, e: Envelope, hash: Hash, parts: seq<PartRecord>,
                                            body: ByteString, strict: bool)
    ensures var r := OpenParts(c, e, hash, parts, body, strict); r.Some? ==> SlicesMatch(hash, parts, r.value.0)
    decreases |parts|
  {
    if parts != [] {
      var first := OpenPart(c, e, parts[0].partNumber, 0, parts[0].sizeBytes, body, strict);
      OpenedPartSize(c, e, parts[0].partNumber, 0, parts[0].sizeBytes, body, strict);
      if first.Some? {
        var others := OpenParts(c, e, hash, parts[1..], first.value.1, strict);
        OpenedPartsMatch(c, e, hash, parts[1..], first.value.1, strict);
        if others.Some? {
          assert (first.value.0 + others.value.0)[..parts[0].sizeBytes] == first.value.0;
          assert (first.value.0 + others.value.0)[parts[0].sizeBytes..] == others.value.0;
        }
      }
    }
  }

  /** Verified end of stream, for any cipher and any stored bytes. */
  lemma VerifiedEnd(c: Cipher, e: Envelope, hash: Hash, file: FileRecord, body: ByteString)
    ensures var r := Decrypted(c, e, hash, file, body);
      r.Some? ==> WholeFile(hash, file, r.value) && SlicesMatch(hash, Sorted(file.parts), r.value)
  {
    OpenedPartsMatch(c, e, hash, Sorted(file.parts), body, false);
  }

  lemma {:induction false} StrictPartOpens(c: Cipher, e: Envelope, part: nat, frame: nat, remaining: nat,
                                           body: ByteString)
    ensures var r := OpenPart(c, e, part, frame, remaining, body, true);
      r.Some? ==> OpenPart(c, e, part, frame, remaining, body, false) == r
    decreases remaining
  {
    if remaining > 0 {
      var first := OpenFrame(c, e, part, frame, remaining, body);
      if first.Some? {
        StrictPartOpens(c, e, part, frame + 1, remaining - |first.value.0|, first.value.1);
      }
    }
  }

  lemma {:induction false} StrictPartsOpen(c: Cipher, e: Envelope, hash: Hash, parts: seq<PartRecord>, body: ByteString)
    ensures var r := OpenParts(c, e, hash, parts, body, true);
      r.Some? ==> OpenParts(c, e, hash, parts, body, false) == r
    decreases |parts|
  {
    if parts != [] {
      var first := OpenPart(c, e, parts[0].partNumber, 0, parts[0].sizeBytes, body, true);
      StrictPartOpens(c, e, parts[0].partNumber, 0, parts[0].sizeBytes, body);
      if first.Some? {
        StrictPartsOpen(c, e, hash, parts[1..], first.value.1);
      }
    }
  }

  /** An object that passed verification decrypts later, to a SQLite file. */
  lemma VerifiedDecrypts(c: Cipher, e: Envelope, hash: Hash, file: FileRecord, body: ByteString)
    requires Verification(c, e, hash, file, body) == Verified
    ensures Decrypted(c, e, hash, file, body).Some?
    ensures StartsWith(Decrypted(c, e, hash, file, body).value, SqliteHeader)
  {
    StrictPartsOpen(c, e, hash, Sorted(file.parts), body);
  }
}
