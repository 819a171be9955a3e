/**
 The streaming writer and readers of cloudflare/worker/src/upload-protocol.ts.  A source is the
 sequence of chunks it has not delivered yet; a hasher is the bytes it has absorbed.
 */
module EnvelopeStreams {
  import opened Common
  import opened Bytes
  import opened Frames

  lemma FlattenRead(buffered: ByteString, source: seq<ByteString>)
    requires source != []
    ensures buffered + Flatten(source) == (buffered + source[0]) + Flatten(source[1..])
  {
  }

  /** `firstBytes` after one more frame: still the start of everything seen. */
  function GrowFirst(firstBytes: ByteString, ghost seen: ByteString, frame: ByteString): (r: ByteString)
    requires firstBytes == seen[..Min(|SqliteHeader|, |seen|)]
    ensures r == (seen + frame)[..Min(|SqliteHeader|, |seen + frame|)]
  {
    if |firstBytes| < |SqliteHeader| then (firstBytes + frame)[..Min(|SqliteHeader|, |firstBytes + frame|)]
      else firstBytes
  }

  predicate HasHeader(firstBytes: ByteString) {
    |firstBytes| >= |SqliteHeader| && firstBytes[..|SqliteHeader|] == SqliteHeader
  }

  lemma HeaderOfFirst(firstBytes: ByteString, all: ByteString)
    requires firstBytes == all[..Min(|SqliteHeader|, |all|)]
    ensures HasHeader(firstBytes) <==> StartsWith(all, SqliteHeader)
  {
  }

  // ----- prepareEncryptedPart ------------------------------------------------------------------

  /** The frame under the next frame number, if there is one. */
  ghost function NextSealed(c: Cipher, e: Envelope, part: nat, frame: nat, f: ByteString): Option<ByteString>
    requires |f| < 0x1_0000_0000
  {
    if frame + 1 > MaxFrames then None else SealFrame(c, e, part, frame, f)
  }

  datatype Pulled = Chunk(bytes: ByteString) | Closed | Errored

  class EncryptedPart {
    const cipher: Cipher
    const envelope: Envelope
    const part: nat
    var source: seq<ByteString>
    var buffered: ByteString
    var frameNumber: nat
    var hashed: ByteString
    var sizeBytes: nat
    var firstBytes: ByteString
    var settled: bool

    constructor (cipher: Cipher, envelope: Envelope, part: nat, source: seq<ByteString>)
      requires ValidEnvelope(envelope)
      ensures Valid() && Pending() == Flatten(source) && hashed == [] && frameNumber == 0 && !settled
      ensures this.cipher == cipher && this.envelope == envelope && this.part == part
    {
      this.cipher, this.envelope, this.part, this.source := cipher, envelope, part, source;
      buffered, frameNumber, hashed, sizeBytes, firstBytes, settled := [], 0, [], 0, [], false;
    }

    ghost predicate Valid()
      reads this
    {
      && ValidEnvelope(envelope)
      && sizeBytes == |hashed|
      && firstBytes == hashed[..Min(|SqliteHeader|, |hashed|)]
    }

    /** Plaintext that has not gone into a frame yet. */
    ghost function Pending(): ByteString
      reads this
    {
      buffered + Flatten(source)
    }

    /** `nextFrame`: a full frame, or what is left before the end; None at the end. */
    method NextFrame() returns (frame: ByteString)
      requires Valid()
      modifies this`source, this`buffered
      ensures frame == FirstFrame(envelope, old(Pending())) && Pending() == old(Pending())[|frame|..]
      ensures Valid()
    {
      while source != [] && |buffered| < envelope.frameSize
        invariant Pending() == old(Pending())
        decreases |source|
      {
        FlattenRead(buffered, source);
        buffered, source := buffered + source[0], source[1..];
      }
      frame := buffered[..Min(envelope.frameSize, |buffered|)];
      buffered := buffered[|frame|..];
    }

    /** The hasher, the size and the first bytes take a frame. */
    method Absorb(frame: ByteString)
      requires Valid()
      modifies this`hashed, this`sizeBytes, this`firstBytes
      ensures Valid() && hashed == old(hashed) + frame
    {
      firstBytes := GrowFirst(firstBytes, hashed, frame);
      hashed := hashed + frame;
      sizeBytes := sizeBytes + |frame|;
    }

    /** A frame under the next number; there are only so many numbers. */
    method EncryptNext(frame: ByteString) returns (r: Pulled)
      requires Valid() && |frame| < 0x1_0000_0000
      modifies this`hashed, this`sizeBytes, this`firstBytes, this`frameNumber, this`settled
      ensures Valid() && hashed == old(hashed) + frame && frameNumber == old(frameNumber) + 1
      ensures var sealed := NextSealed(cipher, envelope, part, old(frameNumber), frame);
        r == (if sealed.None? then Errored else Chunk(sealed.value)) && settled == (sealed.None? || old(settled))
    {
      Absorb(frame);
      frameNumber := frameNumber + 1;
      if frameNumber > MaxFrames {
        settled := true;
        return Errored;
      }
      var encrypted := SealFrame(cipher, envelope, part, frameNumber - 1, frame);
      if encrypted.None? {
        settled := true;
        return Errored;
      }
      return Chunk(encrypted.value);
    }

    /** One pull: the next sealed frame, the end, or an error when the frame numbers run out. */
    method Pull() returns (r: Pulled)
      requires Valid()
      modifies this
      ensures Valid()
      ensures old(settled) ==> r == Closed && settled
      ensures !old(settled) && old(Pending()) == [] ==>
        r == Closed && settled && hashed == old(hashed) && Pending() == []
      ensures !old(settled) && old(Pending()) != [] ==>
        var f := FirstFrame(envelope, old(Pending()));
        var sealed := NextSealed(cipher, envelope, part, old(frameNumber), f);
        && r == (if sealed.None? then Errored else Chunk(sealed.value)) && settled == sealed.None?
        && frameNumber == old(frameNumber) + 1
        && hashed == old(hashed) + f && Pending() == old(Pending())[|f|..]
    {
      if settled {
        return Closed;
      }
      var frame := NextFrame();
      if frame == [] {
        settled := true;
        return Closed;
      }
      r := EncryptNext(frame);
    }

    /** One turn of the bucket's reading: what is left of the part is left to the later pulls. */
    method PullNext() returns (r: Pulled)
      requires Valid() && !settled
      modifies this
      ensures Valid() && settled == !r.Chunk?
      ensures r.Closed? ==> Pending() == []
      ensures r.Chunk? ==> |Pending()| < |old(Pending())|
      ensures hashed + Pending() == old(hashed + Pending()) || r.Errored?
      ensures SealPart(cipher, envelope, part, old(frameNumber), old(Pending()))
              == LeftBy(r)
    {
      SealNext(cipher, envelope, part, frameNumber, Pending());
      SplitFirst(envelope, hashed, Pending());
      r := Pull();
    }

    /** What the bucket reads from the stream: the sealed part and its statistics, or an error. */
    method Drain() returns (body: Option<seq<ByteString>>, size: nat, sqliteHeader: bool)
      requires Valid() && !settled && hashed == [] && frameNumber == 0
      modifies this
      ensures Valid()
      ensures var sealed := SealPart(cipher, envelope, part, 0, old(Pending()));
        && (body.Some? <==> sealed.Some?)
        && (body.Some? ==>
              && Flatten(body.value) == sealed.value
              && hashed == old(Pending()) && size == |hashed|
              && (sqliteHeader <==> StartsWith(hashed, SqliteHeader)))
    {
      ghost var plain := Pending();
      ghost var whole := SealPart(cipher, envelope, part, 0, plain);
      var out: seq<ByteString> := [];
      AfterNothing(whole);
      var r := PullNext();
      while r.Chunk?
        invariant Valid() && settled == !r.Chunk?
        invariant r.Errored? || hashed + Pending() == plain
        invariant r.Closed? ==> Pending() == []
        invariant whole == After(Flatten(out), LeftBy(r))
        decreases r.Chunk?, |Pending()|
      {
        After2(Flatten(out), r.bytes, SealPart(cipher, envelope, part, frameNumber, Pending()));
        FlattenPush(out, r.bytes);
        out := out + [r.bytes];
        r := PullNext();
      }
      size := sizeBytes;
      HeaderOfFirst(firstBytes, hashed);
      sqliteHeader := HasHeader(firstBytes);
      body := if r.Closed? then Some(out) else None;
      assert hashed + [] == hashed && Flatten(out) + [] == Flatten(out);
    }

    /** What a pull's answer and the bytes still pending come to. */
    ghost function LeftBy(r: Pulled): Option<ByteString>
      requires Valid()
      reads this
    {
      match r
      case Closed => Some([])
      case Errored => None
      case Chunk(bytes) => After(bytes, SealPart(cipher, envelope, part, frameNumber, Pending()))
    }
  }

  lemma SplitFirst(e: Envelope, before: ByteString, plain: ByteString)
    ensures var f := FirstFrame(e, plain); before + f + plain[|f|..] == before + plain
  {
  }

  /** The part from one frame on, in terms of that frame and the rest. */
  lemma SealNext(c: Cipher, e: Envelope, part: nat, frame: nat, plain: ByteString)
    requires ValidEnvelope(e)
    ensures plain != [] ==>
      var f := FirstFrame(e, plain);
      var sealed := NextSealed(c, e, part, frame, f);
      SealPart(c, e, part, frame, plain)
      == if sealed.None? then None
         else After(sealed.value, SealPart(c, e, part, frame + 1, plain[|f|..]))
  {
  }

  ghost function After(sealed: ByteString, others: Option<ByteString>): Option<ByteString> {
    if others.None? then None else Some(sealed + others.value)
  }

  lemma AfterNothing(others: Option<ByteString>)
    ensures After(Flatten([]), others) == others
  {
    if others.Some? { assert [] + others.value == others.value; }
  }

  lemma After2(a: ByteString, b: ByteString, others: Option<ByteString>)
    ensures After(a, After(b, others)) == After(a + b, others)
  {
    if others.Some? { assert a + (b + others.value) == a + b + others.value; }
  }

  // ----- StreamByteReader ----------------------------------------------------------------------

  class StreamByteReader {
    var source: seq<ByteString>
    var buffered: ByteString

    constructor (source: seq<ByteString>)
      ensures Rest() == Flatten(source)
    {
      this.source, buffered := source, [];
    }

    /** Everything the stream still holds. */
    ghost function Rest(): ByteString
      reads this
    {
      buffered + Flatten(source)
    }

    method ReadExact(length: nat) returns (r: Option<ByteString>)
      modifies this
      ensures |old(Rest())| < length ==> r.None?
      ensures |old(Rest())| >= length ==> r == Some(old(Rest())[..length]) && Rest() == old(Rest())[length..]
    {
      while source != [] && |buffered| < length
        invariant Rest() == old(Rest())
        decreases |source|
      {
        FlattenRead(buffered, source);
        buffered, source := buffered + source[0], source[1..];
      }
      if |buffered| < length {
        return None;
      }
      assert old(Rest())[..length] == buffered[..length];
      assert old(Rest())[length..] == buffered[length..] + Flatten(source);
      r := Some(buffered[..length]);
      buffered := buffered[length..];
    }

    method AssertEof() returns (ok: bool)
      modifies this
      ensures ok <==> old(Rest()) == []
    {
      if |buffered| > 0 {
        assert |Rest()| > 0;
        return false;
      }
      assert Rest() == Flatten(source);
      while source != []
        invariant Flatten(source) == old(Rest())
        decreases |source|
      {
        if |source[0]| > 0 {
          assert |Flatten(source)| > 0;
          return false;
        }
        source := source[1..];
      }
      assert Flatten(source) == [];
      return true;
    }
  }

  // ----- The two readers of an object ----------------------------------------------------------

  datatype StoredObject = StoredObject(body: Option<seq<ByteString>>, envelope: Option<Envelope>, metadataMatches: bool)

  /** One frame: its header, its bounds, its ciphertext, its plaintext. */
  method ReadFrame(reader: StreamByteReader, c: Cipher, e: Envelope, part: nat, frame: nat, remaining: nat)
    returns (plain: Option<ByteString>)
    modifies reader
    ensures var r := OpenFrame(c, e, part, frame, remaining, old(reader.Rest()));
      && (plain.None? <==> r.None?)
      && (plain.Some? ==> plain.value == r.value.0 && reader.Rest() == r.value.1)
  {
    ghost var body := reader.Rest();
    var header := reader.ReadExact(4);
    if header.None? {
      return None;
    }
    var frameSize := FromU32(header.value);
    if frameSize < 1 || frameSize > e.frameSize || frameSize > remaining {
      return None;
    }
    var encrypted := reader.ReadExact(frameSize + TagBytes);
    if encrypted.None? {
      return None;
    }
    assert encrypted.value == body[4..4 + frameSize + TagBytes];
    var nonce := NonceForFrame(e.baseNonce, part, frame);
    if nonce.None? {
      return None;
    }
    plain := c.dec(e.key, nonce.value, IdOf(e, part, frame), encrypted.value);
    if plain.Some? && |plain.value| != frameSize {
      return None;
    }
  }

  lemma PrefixedNothing(r: Opened)
    ensures Prefixed([], r) == r
  {
    if r.Some? { assert [] + r.value.0 == r.value.0; }
  }

  lemma Prefixed2(a: ByteString, b: ByteString, r: Opened)
    ensures Prefixed(a, Prefixed(b, r)) == Prefixed(a + b, r)
  {
    if r.Some? { assert a + (b + r.value.0) == a + b + r.value.0; }
  }

  /** What is left of a part from a frame on, as a value; see `Opens`. */
  type PartOpener = (nat, nat, ByteString) -> Opened

  /** The trigger keeps the frame format out of proofs that only count frames. */
  ghost predicate Opens(o: PartOpener, c: Cipher, e: Envelope, part: nat, strict: bool) {
    forall frame: nat, remaining: nat,
      body: ByteString {:trigger OpenPart(c, e, part, frame, remaining, body, strict)} ::
      o(frame, remaining, body) == OpenPart(c, e, part, frame, remaining, body, strict)
  }

  /** One turn of the frame loop: what is left of the part is left to its later frames. */
  method NextPlain(reader: StreamByteReader, c: Cipher, e: Envelope, part: nat, frame: nat, remaining: nat,
                   strict: bool,
                   ghost o: PartOpener)
    returns (plain: ByteString, ok: bool)
    requires remaining > 0 && Opens(o, c, e, part, strict)
    modifies reader
    ensures ok ==> 1 <= |plain| <= remaining
    ensures o(frame, remaining, old(reader.Rest()))
            == if ok then Prefixed(plain, o(frame + 1, remaining - |plain|, reader.Rest())) else None
  {
    assert o(frame, remaining, reader.Rest()) == OpenPart(c, e, part, frame, remaining, reader.Rest(), strict);
    var r := ReadFrame(reader, c, e, part, frame, remaining);
    if r.None? || (strict && frame + 1 > MaxFrames) {
      return [], false;
    }
    assert o(frame + 1, remaining - |r.value|, reader.Rest())
           == OpenPart(c, e, part, frame + 1, remaining - |r.value|, reader.Rest(), strict);
    return r.value, true;
  }

  /** The frames of one part, each handed on as soon as it is read. */
  method ReadPart(reader: StreamByteReader, c: Cipher, e: Envelope, part: PartRecord, strict: bool)
    returns (frames: seq<ByteString>, ok: bool)
    modifies reader
    ensures var r := OpenPart(c, e, part.partNumber, 0, part.sizeBytes, old(reader.Rest()), strict);
      && (ok <==> r.Some?)
      && (ok ==> Flatten(frames) == r.value.0 && reader.Rest() == r.value.1)
  {
    ghost var o: PartOpener := (frame, remaining, body) =>
      OpenPart(c, e, part.partNumber, frame, remaining, body, strict);
    frames, ok := ReadFrames(reader, c, e, part, strict, o);
  }

  method ReadFrames(reader: StreamByteReader, c: Cipher, e: Envelope, part: PartRecord, strict: bool,
                    ghost o: PartOpener)
    returns (frames: seq<ByteString>, ok: bool)
    requires Opens(o, c, e, part.partNumber, strict)
    modifies reader
    ensures var r := o(0, part.sizeBytes, old(reader.Rest()));
      && (ok <==> r.Some?)
      && (ok ==> Flatten(frames) == r.value.0 && reader.Rest() == r.value.1)
  {
    var remaining: nat := part.sizeBytes;
    var frameNumber: nat := 0;
    frames := [];
    ghost var whole := o(0, part.sizeBytes, reader.Rest());
    PrefixedNothing(whole);
    while remaining > 0
      invariant whole == Prefixed(Flatten(frames), o(frameNumber, remaining, reader.Rest()))
      decreases remaining
    {
      var plain, read := NextPlain(reader, c, e, part.partNumber, frameNumber, remaining, strict, o);
      if !read {
        return frames, false;
      }
      remaining := remaining - |plain|;
      frameNumber := frameNumber + 1;
      frames := Pushed(frames, plain, o(frameNumber, remaining, reader.Rest()));
    }
    NothingRemains(c, e, part.partNumber, frameNumber, reader.Rest(), strict, o);
    AllOpened(Flatten(frames), reader.Rest());
    ok := true;
  }

  lemma NothingRemains(c: Cipher, e: Envelope, part: nat, frame: nat, rest: ByteString, strict: bool, o: PartOpener)
    requires Opens(o, c, e, part, strict)
    ensures o(frame, 0, rest) == Some(([], rest))
  {
    assert o(frame, 0, rest) == OpenPart(c, e, part, frame, 0, rest, strict);
  }

  lemma AllOpened(plain: ByteString, rest: ByteString)
    ensures Prefixed(plain, Some(([], rest))) == Some((plain, rest))
  {
    assert plain + [] == plain;
  }

  function Pushed(frames: seq<ByteString>, plain: ByteString, ghost left: Opened): (r: seq<ByteString>)
    ensures r == frames + [plain]
    ensures Prefixed(Flatten(frames), Prefixed(plain, left)) == Prefixed(Flatten(r), left)
  {
    Prefixed2(Flatten(frames), plain, left);
    FlattenPush(frames, plain);
    frames + [plain]
  }

  /** One part and its digest; what is left of the object is left to the later parts. */
  method CheckPart(reader: StreamByteReader, c: Cipher, e: Envelope, hash: Hash, parts: seq<PartRecord>, i: nat,
                   strict: bool)
    returns (frames: seq<ByteString>, ok: bool)
    requires i < |parts|
    modifies reader
    ensures OpenParts(c, e, hash, parts[i..], old(reader.Rest()), strict)
            == if ok then Prefixed(Flatten(frames), OpenParts(c, e, hash, parts[i + 1..], reader.Rest(), strict))
              else None
  {
    assert parts[i..][0] == parts[i] && parts[i..][1..] == parts[i + 1..];
    frames, ok := ReadPart(reader, c, e, parts[i], strict);
    ok := ok && hash(Flatten(frames)) == parts[i].sha256 && (strict ==> parts[i].sizeBytes >= 1);
  }

  /** The plaintext as it is handed out, and how the stream ended. */
  method DecryptCompletedUploadObject(stored: StoredObject, file: FileRecord, c: Cipher, hash: Hash)
    returns (yielded: seq<ByteString>, ok: bool)
    ensures ok <==>
      && stored.envelope.Some? && stored.body.Some? && stored.metadataMatches
      && Decrypted(c, stored.envelope.value, hash, file, Flatten(stored.body.value)).Some?
    ensures ok ==>
      Some(Flatten(yielded)) == Decrypted(c, stored.envelope.value, hash, file, Flatten(stored.body.value))
  {
    if stored.envelope.None? || stored.body.None? || !stored.metadataMatches {
      return [], false;
    }
    var e := stored.envelope.value;
    var reader := new StreamByteReader(stored.body.value);
    ghost var body := reader.Rest();
    var parts := Sorted(file.parts);
    yielded := [];
    if |parts| == 0 {
      return [], false;
    }
    PrefixedNothing(OpenParts(c, e, hash, parts, body, false));
    var i := 0;
    while i < |parts|
      invariant 0 <= i <= |parts|
      invariant OpenParts(c, e, hash, parts, body, false)
                == Prefixed(Flatten(yielded), OpenParts(c, e, hash, parts[i..], reader.Rest(), false))
    {
      var frames, complete := CheckPart(reader, c, e, hash, parts, i, false);
      Prefixed2(Flatten(yielded), Flatten(frames), OpenParts(c, e, hash, parts[i + 1..], reader.Rest(), false));
      FlattenAppend(yielded, frames);
      yielded := yielded + frames;
      if !complete {
        return yielded, false;
      }
      i := i + 1;
    }
    AllRead(c, e, hash, parts[i..], Flatten(yielded), reader.Rest(), false);
    var total := Flatten(yielded);
    ok := reader.AssertEof();
    ok := ok && WholeFile(hash, file, total);
  }

  lemma AllRead(c: Cipher, e: Envelope, hash: Hash, none: seq<PartRecord>, plain: ByteString, rest: ByteString,
                strict: bool)
    requires none == []
    ensures Prefixed(plain, OpenParts(c, e, hash, none, rest, strict)) == Some((plain, rest))
  {
    AllOpened(plain, rest);
  }

  /** The first bytes, grown by a part's frames one by one. */
  method GrowFrames(firstBytes: ByteString, ghost seen: ByteString, frames: seq<ByteString>) returns (r: ByteString)
    requires firstBytes == seen[..Min(|SqliteHeader|, |seen|)]
    ensures r == (seen + Flatten(frames))[..Min(|SqliteHeader|, |seen + Flatten(frames)|)]
  {
    r := firstBytes;
    ghost var whole := seen;
    assert seen + Flatten([]) == seen;
    for i := 0 to |frames|
      invariant whole == seen + Flatten(frames[..i]) && r == whole[..Min(|SqliteHeader|, |whole|)]
    {
      r := GrowFirst(r, whole, frames[i]);
      FlattenPush(frames[..i], frames[i]);
      assert frames[..i + 1] == frames[..i] + [frames[i]];
      assert seen + Flatten(frames[..i]) + frames[i] == seen + (Flatten(frames[..i]) + frames[i]);
      whole := whole + frames[i];
    }
    assert frames[..|frames|] == frames;
  }

  method VerifyEncryptedObject(stored: StoredObject, file: FileRecord, c: Cipher, hash: Hash) returns (v: Verdict)
    ensures v == if stored.envelope.None? || stored.body.None? || !stored.metadataMatches then MetadataInvalid
                 else Verification(c, stored.envelope.value, hash, file, Flatten(stored.body.value))
  {
    if stored.envelope.None? || stored.body.None? || !stored.metadataMatches {
      return MetadataInvalid;
    }
    var e := stored.envelope.value;
    var reader := new StreamByteReader(stored.body.value);
    ghost var body := reader.Rest();
    var parts := Sorted(file.parts);
    var total: ByteString := [];
    var firstBytes: ByteString := [];
    PrefixedNothing(OpenParts(c, e, hash, parts, body, true));
    var i := 0;
    while i < |parts|
      invariant 0 <= i <= |parts|
      invariant firstBytes == total[..Min(|SqliteHeader|, |total|)]
      invariant OpenParts(c, e, hash, parts, body, true)
                == Prefixed(total, OpenParts(c, e, hash, parts[i..], reader.Rest(), true))
    {
      var frames, complete := CheckPart(reader, c, e, hash, parts, i, true);
      var plain := Flatten(frames);
      if !complete {
        return IntegrityFailed;
      }
      Prefixed2(total, plain, OpenParts(c, e, hash, parts[i + 1..], reader.Rest(), true));
      firstBytes := GrowFrames(firstBytes, total, frames);
      total := total + plain;
      i := i + 1;
    }
    AllRead(c, e, hash, parts[i..], total, reader.Rest(), true);
    var ended := reader.AssertEof();
    if !ended {
      return IntegrityFailed;
    }
    HeaderOfFirst(firstBytes, total);
    if !HasHeader(firstBytes) {
      return HeaderRequired;
    }
    return if WholeFile(hash, file, total) then Verified else IntegrityFailed;
  }
}
