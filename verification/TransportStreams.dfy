/**
 Both ends of the framed transport as they run: the Worker's generator over encrypted objects
 (cloudflare/worker/src/container-bridge.ts:129-203) and the container's bounded reader over a socket
 that may deliver any number of bytes at a time (cloudflare/container/entrypoint.py:47-144).
 */
module TransportStreams {
  import opened Common
  import opened Bytes
  import opened Frames
  import opened EnvelopeStreams
  import opened CanonicalJson
  import opened TransportHeaders
  import opened Framing

  // ----- The Worker ----------------------------------------------------------------------------

  /** One of the five files: its name, the session's record of it, and its object in the bucket. */
  datatype UploadedFile = UploadedFile(name: ByteString, record: FileRecord, stored: StoredObject)

  /** `transportLength`, from the recorded sizes alone. */
  function TransportLength(env: Env, files: seq<UploadedFile>, context: ByteString): nat {
    |Magic| + FilesLength(env, files)
    + 4 + |env.codec.write(ContextName, env.hash(context), |context|)| + |context|
  }

  function FilesLength(env: Env, files: seq<UploadedFile>): nat {
    if files == [] then 0
    else
      4 + |env.codec.write(files[0].name, files[0].record.sha256, files[0].record.sizeBytes)|
      + files[0].record.sizeBytes
      + FilesLength(env, files[1..])
  }

  /** What an object decrypts to, when it does so with a clean end. */
  ghost function PlaintextOf(c: Cipher, hash: Hash, f: UploadedFile): Option<ByteString> {
    if f.stored.envelope.None? || f.stored.body.None? || !f.stored.metadataMatches then None
    else Decrypted(c, f.stored.envelope.value, hash, f.record, Flatten(f.stored.body.value))
  }

  ghost predicate AllDecrypt(c: Cipher, hash: Hash, files: seq<UploadedFile>) {
    forall i :: 0 <= i < |files| ==> PlaintextOf(c, hash, files[i]).Some?
  }

  ghost function ItemsOf(c: Cipher, hash: Hash, files: seq<UploadedFile>): (items: seq<Item>)
    requires AllDecrypt(c, hash, files)
    ensures |items| == |files|
    ensures forall i :: 0 <= i < |files| ==> items[i] == Item(files[i].name, PlaintextOf(c, hash, files[i]).value)
  {
    if files == [] then []
    else [Item(files[0].name, PlaintextOf(c, hash, files[0]).value)] + ItemsOf(c, hash, files[1..])
  }

  /** Files whose session rows are within limits. */
  ghost predicate Recorded(files: seq<UploadedFile>) {
    forall i :: 0 <= i < |files| ==>
      && Plain(files[i].name) && |files[i].name| <= 64
      && IsHexDigest(files[i].record.sha256) && 1 <= files[i].record.sizeBytes <= MaxFileSize
  }

  lemma {:induction false} SectionsPush(section: Item -> ByteString, items: seq<Item>, item: Item)
    ensures Sections(section, items + [item]) == Sections(section, items) + section(item)
  {
    if items == [] {
      assert items + [item] == [item] && [item][1..] == [];
    } else {
      assert (items + [item])[1..] == items[1..] + [item];
      SectionsPush(section, items[1..], item);
      Associate(section(items[0]), Sections(section, items[1..]), section(item));
    }
  }

  lemma {:induction false} ItemsPush(c: Cipher, hash: Hash, files: seq<UploadedFile>, f: UploadedFile)
    requires AllDecrypt(c, hash, files) && PlaintextOf(c, hash, f).Some?
    ensures AllDecrypt(c, hash, files + [f])
    ensures ItemsOf(c, hash, files + [f]) == ItemsOf(c, hash, files) + [Item(f.name, PlaintextOf(c, hash, f).value)]
  {
    forall i | 0 <= i < |files + [f]| ensures PlaintextOf(c, hash, (files + [f])[i]).Some? {}
  }

  /** A decrypted file's section, from its row's size and digest. */
  lemma RecordedSection(env: Env, c: Cipher, f: UploadedFile)
    requires LawfulEnv(env) && PlaintextOf(c, env.hash, f).Some? && Recorded([f])
    ensures var plain := PlaintextOf(c, env.hash, f).value;
      var header := env.codec.write(f.name, f.record.sha256, f.record.sizeBytes);
      && 1 <= |header| <= MaxHeaderSize
      && |plain| == f.record.sizeBytes && SectionOk(Item(f.name, plain))
      && Section(env, Item(f.name, plain)) == U32(|header|) + header + plain
  {
    VerifiedEnd(c, f.stored.envelope.value, env.hash, f.record, Flatten(f.stored.body.value));
    assert [f][0] == f;
    assert HeaderParts(f.name, f.record.sha256, f.record.sizeBytes);
  }

  /** Header length, header, then the plaintext frame by frame; an error ends the stream. */
  method EmitFile(env: Env, c: Cipher, f: UploadedFile) returns (out: seq<ByteString>, ok: bool)
    requires LawfulEnv(env) && Recorded([f])
    ensures ok <==> PlaintextOf(c, env.hash, f).Some?
    ensures ok ==> Flatten(out) == Section(env, Item(f.name, PlaintextOf(c, env.hash, f).value))
  {
    var header := env.codec.write(f.name, f.record.sha256, f.record.sizeBytes);
    assert [f][0] == f;
    assert HeaderParts(f.name, f.record.sha256, f.record.sizeBytes);
    var frames, complete := DecryptCompletedUploadObject(f.stored, f.record, c, env.hash);
    out, ok := [U32(|header|), header] + frames, complete;
    if ok {
      RecordedSection(env, c, f);
      FlattenAppend([U32(|header|), header], frames);
      FlattenTwo(U32(|header|), header);
    }
  }

  lemma FlattenTwo(a: ByteString, b: ByteString)
    ensures Flatten([a, b]) == a + b
  {
    assert [a, b] == [a] + [b] && [] + [a] == [a];
    FlattenPush([], a);
    FlattenPush([a], b);
  }

  /** `framedStream`, read to its end. */
  method FramedStream(env: Env, c: Cipher, files: seq<UploadedFile>, context: ByteString)
    returns (out: seq<ByteString>, ok: bool)
    requires LawfulEnv(env) && Recorded(files) && 1 <= |context| <= MaxContextSize
    ensures ok <==> AllDecrypt(c, env.hash, files)
    ensures ok ==> Flatten(out) == Emission(env, ItemsOf(c, env.hash, files), Item(ContextName, context))
  {
    out := [Magic];
    FlattenPush([], Magic);
    assert [] + [Magic] == [Magic];
    var i := 0;
    while i < |files|
      invariant 0 <= i <= |files| && Emitted(env, c, files[..i], out)
    {
      assert Recorded([files[i]]);
      var chunks, complete := EmitFile(env, c, files[i]);
      if !complete {
        return out, false;
      }
      NextEmitted(env, c, files, i, out, chunks);
      out := out + chunks;
      i := i + 1;
    }
    assert files[..i] == files;
    var tail := EmitContext(env, context);
    FlattenAppend(out, tail);
    out := out + tail;
    ok := true;
  }

  /** So far the magic and the sections of these files have been emitted. */
  ghost predicate Emitted(env: Env, c: Cipher, files: seq<UploadedFile>, out: seq<ByteString>) {
    AllDecrypt(c, env.hash, files) && Flatten(out) == Magic + Sections(SectionOf(env), ItemsOf(c, env.hash, files))
  }

  lemma NextEmitted(env: Env, c: Cipher, files: seq<UploadedFile>, i: nat, out: seq<ByteString>,
                    chunks: seq<ByteString>)
    requires i < |files| && Emitted(env, c, files[..i], out) && PlaintextOf(c, env.hash, files[i]).Some?
    requires Flatten(chunks) == Section(env, Item(files[i].name, PlaintextOf(c, env.hash, files[i]).value))
    ensures Emitted(env, c, files[..i + 1], out + chunks)
  {
    FlattenAppend(out, chunks);
    NextSection(env, c, files, i);
  }

  method EmitContext(env: Env, context: ByteString) returns (out: seq<ByteString>)
    requires LawfulEnv(env) && 1 <= |context| <= MaxContextSize
    ensures Flatten(out) == Section(env, Item(ContextName, context))
  {
    ContextSection(env, context);
    var header := env.codec.write(ContextName, env.hash(context), |context|);
    FlattenThree(U32(|header|), header, context);
    out := [U32(|header|), header, context];
  }

  lemma ContextSection(env: Env, context: ByteString)
    requires LawfulEnv(env) && 1 <= |context| <= MaxContextSize
    ensures var header := env.codec.write(ContextName, env.hash(context), |context|);
      && 1 <= |header| <= MaxHeaderSize
      && SectionOk(Item(ContextName, context))
      && Section(env, Item(ContextName, context)) == U32(|header|) + header + context
  {
  }

  lemma FlattenThree(a: ByteString, b: ByteString, c: ByteString)
    ensures Flatten([a, b, c]) == a + b + c
  {
    assert [a, b, c] == [a, b] + [c];
    FlattenTwo(a, b);
    FlattenPush([a, b], c);
  }

  lemma NextSection(env: Env, c: Cipher, files: seq<UploadedFile>, i: nat)
    requires i < |files| && AllDecrypt(c, env.hash, files[..i]) && PlaintextOf(c, env.hash, files[i]).Some?
    ensures AllDecrypt(c, env.hash, files[..i + 1])
    ensures Magic + Sections(SectionOf(env), ItemsOf(c, env.hash, files[..i + 1]))
            == Magic + Sections(SectionOf(env), ItemsOf(c, env.hash, files[..i]))
               + Section(env, Item(files[i].name, PlaintextOf(c, env.hash, files[i]).value))
  {
    var item := Item(files[i].name, PlaintextOf(c, env.hash, files[i]).value);
    assert files[..i + 1] == files[..i] + [files[i]];
    ItemsPush(c, env.hash, files[..i], files[i]);
    SectionsPush(SectionOf(env), ItemsOf(c, env.hash, files[..i]), item);
    Associate(Magic, Sections(SectionOf(env), ItemsOf(c, env.hash, files[..i])), Section(env, item));
  }

  // ----- Length, and both ends together ----------------------------------------------------------

  lemma SectionLength(env: Env, c: Cipher, f: UploadedFile)
    requires LawfulEnv(env) && PlaintextOf(c, env.hash, f).Some? && Recorded([f])
    ensures |Section(env, Item(f.name, PlaintextOf(c, env.hash, f).value))|
            == 4 + |env.codec.write(f.name, f.record.sha256, f.record.sizeBytes)| + f.record.sizeBytes
  {
    RecordedSection(env, c, f);
  }

  lemma SectionsSplit(section: Item -> ByteString, items: seq<Item>)
    requires items != []
    ensures |Sections(section, items)| == |section(items[0])| + |Sections(section, items[1..])|
  {
  }

  lemma {:induction false} FilesLengthIsSections(env: Env, c: Cipher, files: seq<UploadedFile>)
    requires LawfulEnv(env) && Recorded(files) && AllDecrypt(c, env.hash, files)
    ensures FilesLength(env, files) == |Sections(SectionOf(env), ItemsOf(c, env.hash, files))|
  {
    if files != [] {
      assert PlaintextOf(c, env.hash, files[0]).Some?;
      SectionLength(env, c, files[0]);
      SectionsSplit(SectionOf(env), ItemsOf(c, env.hash, files));
      assert ItemsOf(c, env.hash, files)[1..] == ItemsOf(c, env.hash, files[1..]);
      FilesLengthIsSections(env, c, files[1..]);
    }
  }

  /** `transportLength`, computed before a byte is decrypted, is the number of bytes emitted. */
  lemma TransportLengthIsExact(env: Env, c: Cipher, files: seq<UploadedFile>, context: ByteString)
    requires LawfulEnv(env) && Recorded(files) && AllDecrypt(c, env.hash, files) && 1 <= |context| <= MaxContextSize
    ensures TransportLength(env, files, context)
            == |Emission(env, ItemsOf(c, env.hash, files), Item(ContextName, context))|
  {
    FilesLengthIsSections(env, c, files);
    ContextSection(env, context);
  }

  /** A file of the session, sealed part by part and stored in any chunks, with its parts in any order. */
  ghost predicate Sealed(c: Cipher, hash: Hash, f: UploadedFile, plains: seq<ByteString>) {
    && f.stored.envelope.Some? && ValidEnvelope(f.stored.envelope.value)
    && f.stored.body.Some? && f.stored.metadataMatches
    && 1 <= |plains| <= MaxParts && (forall i :: 0 <= i < |plains| ==> plains[i] != [])
    && SealParts(c, f.stored.envelope.value, 1, plains) == Some(Flatten(f.stored.body.value))
    && multiset(f.record.parts) == multiset(RecordsOf(hash, 1, plains))
    && f.record.sizeBytes == |Flatten(plains)| && f.record.sha256 == hash(Flatten(plains))
  }

  lemma SealedDecrypts(c: Cipher, hash: Hash, f: UploadedFile, plains: seq<ByteString>)
    requires Lawful(c) && Sealed(c, hash, f, plains)
    ensures PlaintextOf(c, hash, f) == Some(Flatten(plains))
  {
    ObjectRoundTrip(c, f.stored.envelope.value, hash, plains, f.record.parts);
    assert f.record == FileRecord(|Flatten(plains)|, hash(Flatten(plains)), f.record.parts);
  }

  lemma AllSealedDecrypt(env: Env, c: Cipher, files: seq<UploadedFile>, plains: seq<seq<ByteString>>)
    requires Lawful(c) && |files| == |plains|
    requires forall i :: 0 <= i < |files| ==> Sealed(c, env.hash, files[i], plains[i])
    ensures AllDecrypt(c, env.hash, files)
    ensures forall i :: 0 <= i < |files| ==>
              ItemsOf(c, env.hash, files)[i] == Item(files[i].name, Flatten(plains[i]))
              && |Flatten(plains[i])| == files[i].record.sizeBytes
  {
    forall i | 0 <= i < |files|
      ensures PlaintextOf(c, env.hash, files[i]) == Some(Flatten(plains[i]))
        && |Flatten(plains[i])| == files[i].record.sizeBytes
    {
      SealedDecrypts(c, env.hash, files[i], plains[i]);
    }
  }

  /**
   End to end: from the five plaintexts, however split into parts and chunks, through encryption,
   storage, decryption and the wire, to the five files the container writes.
   */
  lemma EndToEnd(env: Env, c: Cipher, files: seq<UploadedFile>, plains: seq<seq<ByteString>>, context: ByteString,
                 next: ByteString)
    requires Lawful(c) && LawfulEnv(env) && Recorded(files) && |files| == |plains| == |env.names|
    requires forall i :: 0 <= i < |files| ==> files[i].name == env.names[i] && Sealed(c, env.hash, files[i], plains[i])
    requires 1 <= |context| <= MaxContextSize && env.isObject(context)
    ensures AllDecrypt(c, env.hash, files)
    ensures var body := Emission(env, ItemsOf(c, env.hash, files), Item(ContextName, context));
      var r := ReadFramed(body + next, TransportLength(env, files, context), env);
      && r.Some? && r.value.1.bytes == next && r.value.0.context == Some(context)
      && forall i :: 0 <= i < |files| ==>
        files[i].name in r.value.0.files && r.value.0.files[files[i].name] == Flatten(plains[i])
  {
    AllSealedDecrypt(env, c, files, plains);
    var items := ItemsOf(c, env.hash, files);
    assert EveryFile(env, items);
    TransportLengthIsExact(env, c, files, context);
    Delivered(env, items, context, next, TransportLength(env, files, context));
  }

  lemma Delivered(env: Env, items: seq<Item>, context: ByteString, next: ByteString, length: nat)
    requires LawfulEnv(env) && EveryFile(env, items) && 1 <= |context| <= MaxContextSize && env.isObject(context)
    requires length == |Emission(env, items, Item(ContextName, context))|
    ensures var r := ReadFramed(Emission(env, items, Item(ContextName, context)) + next, length, env);
      && r.Some? && r.value.1.bytes == next && r.value.0.context == Some(context)
      && forall i :: 0 <= i < |items| ==>
        items[i].name in r.value.0.files && r.value.0.files[items[i].name] == items[i].content
  {
    assert ContextOk(env, Item(ContextName, context)) by { ContextSection(env, context); }
    OneLengthFits(env, items, Item(ContextName, context), next, length);
    EveryFileIsPresent(env, items);
  }

  // ----- The container -------------------------------------------------------------------------

  /** A socket: what it will deliver, in the pieces in which it will deliver it. */
  class Socket {
    var chunks: seq<ByteString>

    constructor (chunks: seq<ByteString>)
      ensures this.chunks == chunks
    {
      this.chunks := chunks;
    }

    /** At most `size` bytes, and none only at the end. */
    method Read(size: nat) returns (b: ByteString)
      modifies this
      ensures |b| <= size && Flatten(old(chunks)) == b + Flatten(chunks)
      ensures b == [] ==> size == 0 || Flatten(old(chunks)) == []
    {
      while chunks != [] && chunks[0] == []
        invariant Flatten(chunks) == Flatten(old(chunks))
        decreases |chunks|
      {
        chunks := chunks[1..];
      }
      if chunks == [] {
        return [];
      }
      var k := Min(size, |chunks[0]|);
      b := chunks[0][..k];
      PieceTaken(chunks, k);
      chunks := [chunks[0][k..]] + chunks[1..];
    }
  }

  lemma PieceTaken(chunks: seq<ByteString>, k: nat)
    requires chunks != [] && k <= |chunks[0]|
    ensures Flatten(chunks) == chunks[0][..k] + Flatten([chunks[0][k..]] + chunks[1..])
  {
    assert chunks[0] == chunks[0][..k] + chunks[0][k..];
    Associate(chunks[0][..k], chunks[0][k..], Flatten(chunks[1..]));
    assert ([chunks[0][k..]] + chunks[1..])[1..] == chunks[1..];
  }

  /** `_BoundedBody`: no more than the Content-Length, then end of file. */
  class BoundedBody {
    const source: Socket
    var remaining: nat

    constructor (source: Socket, length: nat)
      ensures this.source == source && remaining == length
    {
      this.source, remaining := source, length;
    }

    ghost function At(): Cursor
      reads this, source
    {
      Cursor(Flatten(source.chunks), remaining)
    }

    method Read(size: int) returns (chunk: ByteString)
      modifies this, source
      ensures old(At().bytes) == chunk + At().bytes && old(remaining) == |chunk| + remaining
      ensures size >= 0 ==> |chunk| <= size
      ensures chunk == [] ==> size == 0 || old(remaining) == 0 || old(At().bytes) == []
    {
      if remaining == 0 {
        return [];
      }
      var requested := if size < 0 then remaining else Min(size, remaining);
      chunk := source.Read(requested);
      remaining := remaining - |chunk|;
    }
  }

  /** `_read_exact`: whatever the pieces, the bytes asked for or an early end. */
  method ReadExact(body: BoundedBody, size: nat) returns (r: Option<ByteString>)
    modifies body, body.source
    ensures var t := Take(old(body.At()), size);
      && (r.Some? <==> t.Some?)
      && (r.Some? ==> r.value == t.value.0 && body.At() == t.value.1)
  {
    ghost var start := body.At();
    var got: ByteString := [];
    var remaining: nat := size;
    while remaining > 0
      invariant |got| + remaining == size
      invariant start.bytes == got + body.At().bytes && start.granted == |got| + body.remaining
      decreases remaining
    {
      var chunk := body.Read(remaining);
      if chunk == [] {
        return None;
      }
      Associate(got, chunk, body.At().bytes);
      got := got + chunk;
      remaining := remaining - |chunk|;
    }
    assert start.bytes[..size] == got && start.bytes[size..] == body.At().bytes;
    return Some(got);
  }

  method ReadHeaderFrom(body: BoundedBody, env: Env) returns (r: Option<Header>)
    modifies body, body.source
    ensures var h := ReadSectionHeader(old(body.At()), env);
      && (r.Some? <==> h.Some?)
      && (r.Some? ==> r.value == h.value.0 && body.At() == h.value.1)
  {
    var length := ReadExact(body, 4);
    if length.None? {
      return None;
    }
    var size := FromU32(length.value);
    if size < 1 || size > MaxHeaderSize {
      return None;
    }
    var text := ReadExact(body, size);
    if text.None? {
      return None;
    }
    return env.codec.read(text.value);
  }

  const ReadChunk: nat := 1024 * 1024

  /** A file's content, copied a chunk at a time. */
  method CopyContent(body: BoundedBody, size: nat) returns (r: Option<ByteString>)
    modifies body, body.source
    ensures var t := Take(old(body.At()), size);
      && (r.Some? <==> t.Some?)
      && (r.Some? ==> r.value == t.value.0 && body.At() == t.value.1)
  {
    ghost var start := body.At();
    var written: ByteString := [];
    var remaining: nat := size;
    while remaining > 0
      invariant |written| + remaining == size
      invariant start.bytes == written + body.At().bytes && start.granted == |written| + body.remaining
      decreases remaining
    {
      var chunk := ReadExact(body, Min(ReadChunk, remaining));
      if chunk.None? {
        return None;
      }
      Associate(written, chunk.value, body.At().bytes);
      written := written + chunk.value;
      remaining := remaining - |chunk.value|;
    }
    assert start.bytes[..size] == written && start.bytes[size..] == body.At().bytes;
    return Some(written);
  }

  method ReadOneFile(body: BoundedBody, got: FileSet, env: Env) returns (r: Option<Received>)
    modifies body, body.source
    ensures var f := ReadFile(old(body.At()), got, env);
      && (r.Some? <==> f.Some?)
      && (r.Some? ==> r.value == f.value.0 && body.At() == f.value.1)
  {
    var header := ReadHeaderFrom(body, env);
    if header.None? {
      return None;
    }
    var h := header.value;
    if h.name !in env.names || h.name in got || h.size < 1 || h.size > MaxFileSize {
      return None;
    }
    var content := CopyContent(body, h.size);
    if content.None? || env.hash(content.value) != h.digest {
      return None;
    }
    return Some(Received(h.name, content.value));
  }

  method ReadTableContext(body: BoundedBody, env: Env) returns (r: Option<ByteString>)
    modifies body, body.source
    ensures var c := ReadContext(old(body.At()), env);
      && (r.Some? <==> c.Some?)
      && (r.Some? ==> r.value == c.value.0 && body.At() == c.value.1)
  {
    var header := ReadHeaderFrom(body, env);
    if header.None? {
      return None;
    }
    var h := header.value;
    if h.name != ContextName || h.size < 1 || h.size > MaxContextSize || body.remaining != h.size {
      return None;
    }
    var payload := ReadExact(body, h.size);
    if payload.None? || env.hash(payload.value) != h.digest || body.remaining != 0 || !env.isObject(payload.value) {
      return None;
    }
    return payload;
  }

  /** One turn of the loop over the files. */
  method ReadNextFile(body: BoundedBody, count: nat, got: FileSet, env: Env) returns (r: Option<FileSet>)
    requires count > 0
    modifies body, body.source
    ensures ReadFiles(old(body.At()), count, got, FileReaderOf(env))
            == if r.None? then None else ReadFiles(body.At(), count - 1, r.value, FileReaderOf(env))
  {
    var file := ReadOneFile(body, got, env);
    return if file.None? then None else Some(got[file.value.name := file.value.content]);
  }

  /** The loop over the files; the names seen are the keys of what was written. */
  method ReadAllFiles(body: BoundedBody, env: Env) returns (r: Option<FileSet>)
    modifies body, body.source
    ensures var f := ReadFiles(old(body.At()), |env.names|, map[], FileReaderOf(env));
      && (r.Some? <==> f.Some?)
      && (r.Some? ==> r.value == f.value.0 && body.At() == f.value.1)
  {
    var got: FileSet := map[];
    ghost var whole := ReadFiles(body.At(), |env.names|, got, FileReaderOf(env));
    var i := 0;
    while i < |env.names|
      invariant 0 <= i <= |env.names|
      invariant whole == ReadFiles(body.At(), |env.names| - i, got, FileReaderOf(env))
    {
      var more := ReadNextFile(body, |env.names| - i, got, env);
      if more.None? {
        return None;
      }
      got := more.value;
      i := i + 1;
    }
    return Some(got);
  }

  /** The handler's length check and `_materialize_framed_input`, for any pieces the socket delivers. */
  method Receive(source: Socket, contentLength: int, env: Env) returns (r: Option<Materialized>)
    modifies source
    ensures var m := ReadFramed(Flatten(old(source.chunks)), contentLength, env);
      && (r.Some? <==> m.Some?)
      && (r.Some? ==> r.value == m.value.0 && Flatten(source.chunks) == m.value.1.bytes)
  {
    if contentLength < |MagicV1| {
      return None;
    }
    var body := new BoundedBody(source, contentLength);
    var magic := ReadExact(body, |MagicV1|);
    if magic.None? || (magic.value != MagicV1 && magic.value != Magic) {
      return None;
    }
    r := MaterializeBody(body, magic.value == MagicV1, env);
  }

  method MaterializeBody(body: BoundedBody, versionOne: bool, env: Env) returns (r: Option<Materialized>)
    modifies body, body.source
    ensures var m := ReadBody(old(body.At()), versionOne, env);
      && (r.Some? <==> m.Some?)
      && (r.Some? ==> r.value == m.value.0 && body.At() == m.value.1)
  {
    var files := ReadAllFiles(body, env);
    if files.None? || exists name :: name in env.names && name !in files.value {
      return None;
    }
    if versionOne {
      return if body.remaining != 0 then None else Some(Materialized(files.value, None));
    }
    var context := ReadTableContext(body, env);
    return if context.None? then None else Some(Materialized(files.value, context));
  }
}
