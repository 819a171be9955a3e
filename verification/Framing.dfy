/**
 The framed body as a whole: what the Worker emits, what the container makes of any bytes under any
 Content-Length, and why the two agree on one length only.
 */
module Framing {
  import opened Common
  import opened Bytes
  import opened Frames
  import opened CanonicalJson
  import opened TransportHeaders

  // ----- What the Worker emits -----------------------------------------------------------------

  datatype Item = Item(name: ByteString, content: ByteString)

  /** What the framing takes as given: file names, digest, header codec, and the context's reader. */
  datatype Env = Env(names: seq<ByteString>, hash: Hash, codec: Codec, isObject: ByteString -> bool)

  /** Digests are 64 hexadecimal digits and the codec does what TransportHeaders proves of it. */
  ghost predicate LawfulEnv(env: Env) {
    && (forall i, j :: 0 <= i < j < |env.names| ==> env.names[i] != env.names[j])
    && LawfulCodec(env.codec)
    && (forall b :: IsHexDigest(env.hash(b)))
  }

  predicate SectionOk(item: Item) {
    Plain(item.name) && |item.name| <= 64 && 1 <= |item.content| <= MaxFileSize
  }

  function HeaderOf(env: Env, item: Item): ByteString {
    env.codec.write(item.name, env.hash(item.content), |item.content|)
  }

  /** The bytes of a section in front of its content. */
  function SectionHead(env: Env, item: Item): ByteString {
    var header := HeaderOf(env, item);
    if |header| < 0x1_0000_0000 then U32(|header|) + header else []
  }

  /** Header length, header, content: a database file or the table context. */
  function Section(env: Env, item: Item): ByteString {
    SectionHead(env, item) + item.content
  }

  function SectionOf(env: Env): Item -> ByteString {
    item => Section(env, item)
  }

  function Sections(section: Item -> ByteString, items: seq<Item>): ByteString {
    if items == [] then [] else section(items[0]) + Sections(section, items[1..])
  }

  /** Everything `framedStream` yields. */
  function Emission(env: Env, files: seq<Item>, context: Item): ByteString
  {
    Magic + Sections(SectionOf(env), files) + Section(env, context)
  }

  // ----- What the container reads --------------------------------------------------------------

  /** The bytes on the socket from here on, and how many of them the Content-Length still grants. */
  datatype Cursor = Cursor(bytes: ByteString, granted: nat)

  /** `_read_exact`: None when the grant or the socket ends early. */
  function Take(c: Cursor, size: nat): (r: Option<(ByteString, Cursor)>)
    ensures r.Some? ==> |r.value.0| == size && r.value.1.granted == c.granted - size
    ensures r.Some? ==> c.bytes == r.value.0 + r.value.1.bytes
  {
    if size <= c.granted && size <= |c.bytes|
    then Some((c.bytes[..size], Cursor(c.bytes[size..], c.granted - size))) else None
  }

  function ReadSectionHeader(c: Cursor, env: Env): Option<(Header, Cursor)> {
    var length := Take(c, 4);
    if length.None? then None
    else
      var size := FromU32(length.value.0);
      if size < 1 || size > MaxHeaderSize then None
      else
        var text := Take(length.value.1, size);
        if text.None? || env.codec.read(text.value.0).None? then None
        else Some((env.codec.read(text.value.0).value, text.value.1))
  }

  datatype Received = Received(name: JString, content: ByteString)

  type FileSet = map<JString, ByteString>

  function ReadFile(c: Cursor, got: FileSet, env: Env): Option<(Received, Cursor)> {
    var header := ReadSectionHeader(c, env);
    if header.None? then None
    else
      var h := header.value.0;
      if h.name !in env.names || h.name in got || h.size < 1 || h.size > MaxFileSize then None
      else
        var content := Take(header.value.1, h.size);
        if content.None? || env.hash(content.value.0) != h.digest then None
        else Some((Received(h.name, content.value.0), content.value.1))
  }

  type FileReader = (Cursor, FileSet) -> Option<(Received, Cursor)>

  function FileReaderOf(env: Env): FileReader {
    (c, got) => ReadFile(c, got, env)
  }

  function ReadFiles(c: Cursor, count: nat, got: FileSet, read: FileReader): Option<(FileSet, Cursor)>
    decreases count
  {
    if count == 0 then Some((got, c))
    else
      var file := read(c, got);
      if file.None? then None
      else ReadFiles(file.value.1, count - 1, got[file.value.0.name := file.value.0.content], read)
  }

  function ReadContext(c: Cursor, env: Env): Option<(ByteString, Cursor)> {
    var header := ReadSectionHeader(c, env);
    if header.None? then None
    else
      var h, after := header.value.0, header.value.1;
      if h.name != ContextName || h.size < 1 || h.size > MaxContextSize || after.granted != h.size then None
      else
        var content := Take(after, h.size);
        if content.None? || env.hash(content.value.0) != h.digest || !env.isObject(content.value.0) then None
        else Some(content.value)
  }

  /** `seen == DATABASE_NAMES`; no other name was ever let in. */
  predicate AllPresent(env: Env, got: FileSet) {
    forall name :: name in env.names ==> name in got
  }

  datatype Materialized = Materialized(files: FileSet, context: Option<ByteString>)

  /** The body after its magic; a version 1 body has no context and ends with the files. */
  function ReadBody(c: Cursor, versionOne: bool, env: Env): Option<(Materialized, Cursor)> {
    var files := ReadFiles(c, |env.names|, map[], FileReaderOf(env));
    if files.None? || !AllPresent(env, files.value.0) then None
    else if versionOne then
      if files.value.1.granted != 0 then None else Some((Materialized(files.value.0, None), files.value.1))
    else
      var context := ReadContext(files.value.1, env);
      if context.None? then None
      else Some((Materialized(files.value.0, Some(context.value.0)), context.value.1))
  }

  /** `_materialize_framed_input`, behind the handler's own check of the length. */
  function ReadFramed(bytes: ByteString, contentLength: int, env: Env): Option<(Materialized, Cursor)> {
    if contentLength < |MagicV1| then None
    else
      var magic := Take(Cursor(bytes, contentLength), |MagicV1|);
      if magic.None? || (magic.value.0 != MagicV1 && magic.value.0 != Magic) then None
      else ReadBody(magic.value.1, magic.value.0 == MagicV1, env)
  }

  // ----- One length fits -----------------------------------------------------------------------

  /** Reading bytes that are there succeeds exactly when the grant covers them. */
  lemma TakeFront(a: ByteString, rest: ByteString, granted: nat)
    ensures Take(Cursor(a + rest, granted), |a|)
            == if |a| <= granted then Some((a, Cursor(rest, granted - |a|))) else None
  {
  }

  lemma HeaderRead(env: Env, item: Item, rest: ByteString, granted: nat)
    requires LawfulEnv(env) && SectionOk(item)
    ensures var head := SectionHead(env, item);
      ReadSectionHeader(Cursor(head + rest, granted), env)
      == if |head| <= granted
         then Some((Header(item.name, env.hash(item.content), |item.content|), Cursor(rest, granted - |head|)))
           else None
  {
    var header := HeaderOf(env, item);
    assert HeaderParts(item.name, env.hash(item.content), |item.content|);
    assert SectionHead(env, item) + rest == U32(|header|) + (header + rest);
    TakeFront(U32(|header|), header + rest, granted);
    if 4 <= granted {
      TakeFront(header, rest, granted - 4);
    }
  }

  /** A file section is read back whole or, when the grant ends inside it, rejected. */
  lemma FileRead(env: Env, item: Item, rest: ByteString, granted: nat, got: FileSet)
    requires LawfulEnv(env) && SectionOk(item) && item.name in env.names && item.name !in got
    ensures var section := Section(env, item);
      ReadFile(Cursor(section + rest, granted), got, env)
      == if |section| <= granted then Some((Received(item.name, item.content), Cursor(rest, granted - |section|)))
        else None
  {
    var head := SectionHead(env, item);
    assert Section(env, item) + rest == head + (item.content + rest);
    HeaderRead(env, item, item.content + rest, granted);
    if |head| <= granted {
      TakeFront(item.content, rest, granted - |head|);
    }
  }

  /** The reader's map after these files. */
  function Gathered(got: FileSet, files: seq<Item>): FileSet
    decreases |files|
  {
    if files == [] then got else Gathered(got[files[0].name := files[0].content], files[1..])
  }

  /** What reading a run of sections comes to. */
  function Outcome(got: FileSet, files: seq<Item>, length: nat, rest: ByteString, granted: nat)
    : Option<(FileSet, Cursor)>
  {
    if length <= granted then Some((Gathered(got, files), Cursor(rest, granted - length))) else None
  }

  /** The reader gets this item back from its section, or nothing when the grant ends inside it. */
  ghost predicate ReadsBack(read: FileReader, section: Item -> ByteString, item: Item) {
    forall rest: ByteString, granted: nat, got: FileSet {:trigger read(Cursor(section(item) + rest, granted), got)} ::
      item.name !in got ==>
        read(Cursor(section(item) + rest, granted), got)
        == if |section(item)| <= granted
           then Some((Received(item.name, item.content), Cursor(rest, granted - |section(item)|))) else None
  }

  lemma {:induction false} FilesRead(read: FileReader, section: Item -> ByteString, files: seq<Item>, rest: ByteString,
                                     granted: nat, got: FileSet)
    requires forall i :: 0 <= i < |files| ==> ReadsBack(read, section, files[i]) && files[i].name !in got
    requires forall i, j :: 0 <= i < j < |files| ==> files[i].name != files[j].name
    ensures ReadFiles(Cursor(Sections(section, files) + rest, granted), |files|, got, read)
            == Outcome(got, files, |Sections(section, files)|, rest, granted)
    decreases |files|
  {
    if files == [] {
      assert Sections(section, files) + rest == rest;
    } else {
      var first, others := section(files[0]), Sections(section, files[1..]);
      assert Sections(section, files) + rest == first + (others + rest);
      assert ReadsBack(read, section, files[0]);
      if |first| <= granted {
        FilesRead(read, section, files[1..], rest, granted - |first|, got[files[0].name := files[0].content]);
      }
    }
  }

  lemma FilesReadBack(env: Env, item: Item)
    requires LawfulEnv(env) && SectionOk(item) && item.name in env.names
    ensures ReadsBack(FileReaderOf(env), SectionOf(env), item)
  {
    forall rest: ByteString, granted: nat, got: FileSet | item.name !in got
      ensures FileReaderOf(env)(Cursor(SectionOf(env)(item) + rest, granted), got)
              == if |SectionOf(env)(item)| <= granted
                 then Some((Received(item.name, item.content), Cursor(rest, granted - |SectionOf(env)(item)|)))
                   else None
    {
      FileRead(env, item, rest, granted, got);
    }
  }

  /** The context section is accepted exactly when the grant ends with it. */
  lemma ContextRead(env: Env, context: Item, rest: ByteString, granted: nat)
    requires LawfulEnv(env) && SectionOk(context) && context.name == ContextName && |context.content| <= MaxContextSize
    requires env.isObject(context.content)
    ensures var section := Section(env, context);
      ReadContext(Cursor(section + rest, granted), env)
      == if |section| == granted then Some((context.content, Cursor(rest, 0))) else None
  {
    var head := SectionHead(env, context);
    assert Section(env, context) + rest == head + (context.content + rest);
    HeaderRead(env, context, context.content + rest, granted);
    if |head| <= granted {
      TakeFront(context.content, rest, granted - |head|);
    }
  }

  lemma {:induction false} GatheredAll(got: FileSet, files: seq<Item>)
    requires forall i, j :: 0 <= i < j < |files| ==> files[i].name != files[j].name
    ensures forall i :: 0 <= i < |files| ==>
              files[i].name in Gathered(got, files) && Gathered(got, files)[files[i].name] == files[i].content
    ensures forall name :: name in Gathered(got, files) ==>
      name in got || exists i :: 0 <= i < |files| && files[i].name == name
    ensures forall name :: name in got && (forall i :: 0 <= i < |files| ==> files[i].name != name) ==>
              name in Gathered(got, files) && Gathered(got, files)[name] == got[name]
    decreases |files|
  {
    if files != [] {
      var got' := got[files[0].name := files[0].content];
      GatheredAll(got', files[1..]);
      forall i | 0 <= i < |files|
        ensures files[i].name in Gathered(got, files) && Gathered(got, files)[files[i].name] == files[i].content
      {
        if i > 0 { assert files[i] == files[1..][i - 1]; }
      }
      forall name | name in Gathered(got, files)
        ensures name in got || exists i :: 0 <= i < |files| && files[i].name == name
      {
        if name in got' && name !in got { assert files[0].name == name; }
        if name !in got' {
          var i :| 0 <= i < |files[1..]| && files[1..][i].name == name;
          assert files[i + 1].name == name;
        }
      }
    }
  }

  /** One file for each name, in the Worker's order. */
  ghost predicate EveryFile(env: Env, files: seq<Item>) {
    && |files| == |env.names|
    && (forall i :: 0 <= i < |files| ==> files[i].name == env.names[i] && SectionOk(files[i]))
  }

  predicate ContextOk(env: Env, context: Item) {
    && context.name == ContextName && SectionOk(context)
    && |context.content| <= MaxContextSize && env.isObject(context.content)
  }

  lemma EveryFileIsPresent(env: Env, files: seq<Item>)
    requires LawfulEnv(env) && EveryFile(env, files)
    ensures AllPresent(env, Gathered(map[], files))
    ensures forall i :: 0 <= i < |files| ==>
              files[i].name in Gathered(map[], files) && Gathered(map[], files)[files[i].name] == files[i].content
  {
    GatheredAll(map[], files);
    forall name | name in env.names ensures name in Gathered(map[], files) {
      var i :| 0 <= i < |env.names| && env.names[i] == name;
      assert files[i].name == name;
    }
  }

  /** All files together are read back, or the grant ends inside them. */
  lemma AllFilesRead(env: Env, files: seq<Item>, rest: ByteString, granted: nat)
    requires LawfulEnv(env) && EveryFile(env, files)
    ensures var sections := Sections(SectionOf(env), files);
      ReadFiles(Cursor(sections + rest, granted), |env.names|, map[], FileReaderOf(env))
      == Outcome(map[], files, |sections|, rest, granted)
  {
    forall i | 0 <= i < |files| ensures ReadsBack(FileReaderOf(env), SectionOf(env), files[i]) {
      FilesReadBack(env, files[i]);
    }
    FilesRead(FileReaderOf(env), SectionOf(env), files, rest, granted, map[]);
  }

  lemma FilesThenContext(env: Env, c: Cursor, got: FileSet, after: ByteString, filesLength: nat, contextLength: nat,
                         content: ByteString, next: ByteString)
    requires ReadFiles(c, |env.names|, map[], FileReaderOf(env))
             == if filesLength <= c.granted then Some((got, Cursor(after, c.granted - filesLength))) else None
    requires AllPresent(env, got)
    requires filesLength <= c.granted ==>
               ReadContext(Cursor(after, c.granted - filesLength), env)
               == if contextLength == c.granted - filesLength then Some((content, Cursor(next, 0))) else None
    ensures ReadBody(c, false, env)
            == if c.granted == filesLength + contextLength
               then Some((Materialized(got, Some(content)), Cursor(next, 0))) else None
  {
  }

  lemma BodyRead(env: Env, files: seq<Item>, context: Item, next: ByteString, granted: nat)
    requires LawfulEnv(env) && EveryFile(env, files) && ContextOk(env, context)
    ensures ReadBody(Cursor(Sections(SectionOf(env), files) + (Section(env, context) + next), granted), false, env)
            == if granted == |Sections(SectionOf(env), files)| + |Section(env, context)|
               then Some((Materialized(Gathered(map[], files), Some(context.content)), Cursor(next, 0))) else None
  {
    var sections, last := Sections(SectionOf(env), files), Section(env, context);
    assert AllPresent(env, Gathered(map[], files)) by { EveryFileIsPresent(env, files); }
    assert ReadFiles(Cursor(sections + (last + next), granted), |env.names|, map[], FileReaderOf(env))
           == Outcome(map[], files, |sections|, last + next, granted)
    by { AllFilesRead(env, files, last + next, granted); }
    assert |sections| <= granted ==>
             ReadContext(Cursor(last + next, granted - |sections|), env)
             == if |last| == granted - |sections| then Some((context.content, Cursor(next, 0))) else None by {
      if |sections| <= granted { ContextRead(env, context, next, granted - |sections|); }
    }
    FilesThenContext(env, Cursor(sections + (last + next), granted), Gathered(map[], files), last + next,
                     |sections|, |last|, context.content, next);
  }

  lemma MagicThenBody(env: Env, after: ByteString, contentLength: int)
    ensures ReadFramed(Magic + after, contentLength, env)
            == if contentLength < |Magic| then None else ReadBody(Cursor(after, contentLength - |Magic|), false, env)
  {
    if contentLength >= |Magic| {
      TakeFront(Magic, after, contentLength);
      assert Magic[8] != MagicV1[8];
    }
  }

  /**
   The transport's length is the one length that works.  Under it the container recovers every file
   and the context and reads not one byte of whatever follows on the socket; under any other, smaller
   or larger, the same bytes are rejected.
   */
  lemma OneLengthFits(env: Env, files: seq<Item>, context: Item, next: ByteString, contentLength: int)
    requires LawfulEnv(env) && EveryFile(env, files) && ContextOk(env, context)
    ensures ReadFramed(Emission(env, files, context) + next, contentLength, env)
            == if contentLength == |Emission(env, files, context)|
               then Some((Materialized(Gathered(map[], files), Some(context.content)), Cursor(next, 0))) else None
  {
    var sections, last := Sections(SectionOf(env), files), Section(env, context);
    Associate(Magic, sections, last + next);
    Associate(Magic + sections, last, next);
    MagicThenBody(env, sections + (last + next), contentLength);
    if contentLength >= |Magic| {
      BodyRead(env, files, context, next, contentLength - |Magic|);
    }
  }

  // ----- What any accepted bytes must be -------------------------------------------------------

  /** A file reader accepts known names only, no name twice, and consumes what it was granted for. */
  ghost predicate Careful(read: FileReader, names: seq<ByteString>) {
    forall c, got {:trigger read(c, got)} ::
      read(c, got).Some? ==>
        var r := read(c, got).value;
        && r.0.name in names && r.0.name !in got && 1 <= |r.0.content| <= MaxFileSize
        && |c.bytes| - |r.1.bytes| == c.granted - r.1.granted
  }

  lemma FileReaderIsCareful(env: Env)
    ensures Careful(FileReaderOf(env), env.names)
  {
  }

  lemma {:induction false} FilesChecked(c: Cursor, count: nat, got: FileSet, read: FileReader, names: seq<ByteString>)
    requires Careful(read, names)
    requires forall name :: name in got ==> name in names && 1 <= |got[name]| <= MaxFileSize
    ensures var r := ReadFiles(c, count, got, read);
      r.Some? ==>
        && (forall name :: name in r.value.0 ==> name in names && 1 <= |r.value.0[name]| <= MaxFileSize)
        && |c.bytes| - |r.value.1.bytes| == c.granted - r.value.1.granted
    decreases count
  {
    if count > 0 && read(c, got).Some? {
      var file := read(c, got).value;
      FilesChecked(file.1, count - 1, got[file.0.name := file.0.content], read, names);
    }
  }

  /** Whatever arrives: an accepted body has all five files, and exactly its Content-Length was read. */
  lemma AcceptedBody(bytes: ByteString, contentLength: int, env: Env)
    ensures var r := ReadFramed(bytes, contentLength, env);
      r.Some? ==>
        && (forall name :: name in r.value.0.files <==> name in env.names)
        && (forall name :: name in r.value.0.files ==> 1 <= |r.value.0.files[name]| <= MaxFileSize)
        && (r.value.0.context.Some? ==>
            env.isObject(r.value.0.context.value) && |r.value.0.context.value| <= MaxContextSize)
        && r.value.1.granted == 0 && |bytes| - |r.value.1.bytes| == contentLength
  {
    if contentLength >= |MagicV1| {
      var magic := Take(Cursor(bytes, contentLength), |MagicV1|);
      if magic.Some? {
        FileReaderIsCareful(env);
        FilesChecked(magic.value.1, |env.names|, map[], FileReaderOf(env), env.names);
      }
    }
  }

  // ----- The environment of the repository -----------------------------------------------------

  /** The five file names and the JSON headers, for any digest function and context reader. */
  function TransportEnv(hash: Hash, isObject: ByteString -> bool): Env {
    Env(DatabaseNames, hash, JsonCodec, isObject)
  }

  lemma NamesDiffer(i: nat, j: nat)
    requires i < j < |DatabaseNames|
    ensures DatabaseNames[i] != DatabaseNames[j]
  {
  }

  lemma TransportEnvIsLawful(hash: Hash, isObject: ByteString -> bool)
    requires forall b :: IsHexDigest(hash(b))
    ensures LawfulEnv(TransportEnv(hash, isObject))
    ensures |DatabaseNames| == 5 && forall i :: 0 <= i < 5 ==> Plain(DatabaseNames[i]) && |DatabaseNames[i]| <= 64
  {
    JsonCodecIsLawful();
    forall i, j | 0 <= i < j < |DatabaseNames| ensures DatabaseNames[i] != DatabaseNames[j] { NamesDiffer(i, j); }
  }
}
