/**
 The headers of the framed transport between the Worker and the Python container: what
 cloudflare/worker/src/container-bridge.ts emits and what cloudflare/container/entrypoint.py makes of
 any bytes under any Content-Length.  Texts here are ASCII, held as the bytes of their UTF-8 form.
 */
module TransportHeaders {
  import opened Common
  import opened Bytes
  import opened Frames
  import opened CanonicalJson
  import opened JsonParser
  import opened JsonTheorems

  /** "ORAJA5DB1\n" and "ORAJA5DB2\n" */
  const MagicV1: ByteString := [79, 82, 65, 74, 65, 53, 68, 66, 49, 10]
  const Magic: ByteString := [79, 82, 65, 74, 65, 53, 68, 66, 50, 10]

  /** "file_name", "sha256", "size_bytes" */
  const FileNameKey: ByteString := [102, 105, 108, 101, 95, 110, 97, 109, 101]
  const Sha256Key: ByteString := [115, 104, 97, 50, 53, 54]
  const SizeKey: ByteString := [115, 105, 122, 101, 95, 98, 121, 116, 101, 115]

  /** "score.db", "scoredatalog.db", "scorelog.db", "songdata.db", "songinfo.db" */
  const ScoreDb: ByteString := [115, 99, 111, 114, 101, 46, 100, 98]
  const ScoreDataLogDb: ByteString := [115, 99, 111, 114, 101, 100, 97, 116, 97, 108, 111, 103, 46, 100, 98]
  const ScoreLogDb: ByteString := [115, 99, 111, 114, 101, 108, 111, 103, 46, 100, 98]
  const SongDataDb: ByteString := [115, 111, 110, 103, 100, 97, 116, 97, 46, 100, 98]
  const SongInfoDb: ByteString := [115, 111, 110, 103, 105, 110, 102, 111, 46, 100, 98]
  const DatabaseNames: seq<ByteString> := [ScoreDb, ScoreDataLogDb, ScoreLogDb, SongDataDb, SongInfoDb]

  /** "table-context.json" */
  const ContextName: ByteString := [116, 97, 98, 108, 101, 45, 99, 111, 110, 116, 101, 120, 116, 46, 106, 115, 111, 110]

  const MaxFileSize: nat := 5 * 1024 * 1024 * 1024
  const MaxContextSize: nat := 16 * 1024 * 1024
  const MaxHeaderSize: nat := 4096

  predicate IsHexDigit(u: Unit) {
    48 <= u <= 57 || 97 <= u <= 102
  }

  /** re.fullmatch(r"[0-9a-f]{64}", digest) */
  predicate IsHexDigest(d: JString) {
    |d| == 64 && forall i :: 0 <= i < |d| ==> IsHexDigit(d[i])
  }

  // ----- Headers -------------------------------------------------------------------------------

  function HeaderObject(name: ByteString, digest: ByteString, size: nat): Json {
    Obj([Member(FileNameKey, Str(name)), Member(Sha256Key, Str(digest)), Member(SizeKey, Int(size))])
  }

  /** Text that JSON strings carry unescaped and UTF-8 carries unchanged. */
  predicate Plain(s: ByteString) {
    forall i :: 0 <= i < |s| ==> 32 <= s[i] < 127 && s[i] != Quote && s[i] != Backslash
  }

  predicate Ascii(t: JString) {
    forall i :: 0 <= i < |t| ==> t[i] < 128
  }

  function Utf8(t: JString): (b: ByteString)
    requires Ascii(t)
    ensures b == t
  {
    t
  }

  lemma {:induction false} PlainIsUnescaped(s: ByteString)
    requires Plain(s)
    ensures Escape(s) == s
  {
    if s != [] {
      PlainIsUnescaped(s[1..]);
      assert s == [s[0]] + s[1..];
    }
  }

  function HeaderText(name: ByteString, digest: ByteString, size: nat): JString {
    Print(HeaderObject(name, digest, size))
  }

  /** A name and digest that the Worker puts in a header. */
  predicate HeaderParts(name: ByteString, digest: ByteString, size: nat) {
    Plain(name) && |name| <= 64 && IsHexDigest(digest) && size <= MaxFileSize
  }

  lemma HexIsPlain(digest: ByteString)
    requires IsHexDigest(digest)
    ensures Plain(digest)
  {
  }

  lemma {:induction false} DigitsLength(n: nat, k: nat)
    requires k >= 1 && n < Pow10(k)
    ensures |Digits(n)| <= k
  {
    if n >= 10 { DigitsLength(n / 10, k - 1); }
  }

  function Pow10(k: nat): nat {
    if k == 0 then 1 else 10 * Pow10(k - 1)
  }

  lemma QuotedPlain(s: ByteString)
    requires Plain(s)
    ensures Ascii(Quoted(s)) && |Quoted(s)| == |s| + 2
  {
    PlainIsUnescaped(s);
  }

  lemma EntryText(key: ByteString, value: JString)
    requires Plain(key) && Ascii(value)
    ensures var t := Quoted(key) + [Colon] + value; Ascii(t) && |t| == |key| + |value| + 3
  {
    QuotedPlain(key);
  }

  lemma ThreeEntries(a: JString, b: JString, c: JString)
    requires Ascii(a) && Ascii(b) && Ascii(c)
    ensures var t := [OpenBrace] + (a + [Comma] + (b + [Comma] + c)) + [CloseBrace];
      Ascii(t) && |t| == |a| + |b| + |c| + 4
  {
  }

  lemma SizeText(size: nat)
    requires size <= MaxFileSize
    ensures Ascii(IntText(size)) && |IntText(size)| <= 10
  {
    DigitsAreDigits(size);
    assert Pow10(5) == 100000;
    assert Pow10(10) == 10000000000;
    DigitsLength(size, 10);
  }

  lemma KeyEntry(key: ByteString, value: JString)
    requires key == FileNameKey || key == Sha256Key || key == SizeKey
    requires Ascii(value) && |value| <= 66
    ensures var t := Quoted(key) + [Colon] + value; Ascii(t) && |t| <= 80
  {
    assert Plain(key);
    EntryText(key, value);
  }

  /** A header is ASCII and fits the reader's bound. */
  lemma HeaderFits(name: ByteString, digest: ByteString, size: nat)
    requires HeaderParts(name, digest, size)
    ensures Ascii(HeaderText(name, digest, size)) && 1 <= |HeaderText(name, digest, size)| <= MaxHeaderSize
  {
    var a := Quoted(FileNameKey) + [Colon] + Quoted(name);
    var b := Quoted(Sha256Key) + [Colon] + Quoted(digest);
    var c := Quoted(SizeKey) + [Colon] + IntText(size);
    assert Ascii(a) && |a| <= 80 by {
      QuotedPlain(name);
      KeyEntry(FileNameKey, Quoted(name));
    }
    assert Ascii(b) && |b| <= 80 by {
      HexIsPlain(digest);
      QuotedPlain(digest);
      KeyEntry(Sha256Key, Quoted(digest));
    }
    assert Ascii(c) && |c| <= 80 by {
      SizeText(size);
      KeyEntry(SizeKey, IntText(size));
    }
    ThreeEntries(a, b, c);
    HeaderLayout(name, digest, size);
  }

  lemma NormalHeader(name: ByteString, digest: ByteString, size: nat)
    ensures Normalize(HeaderObject(name, digest, size)) == HeaderObject(name, digest, size)
  {
    KeysInOrder();
    NormalThree(Member(FileNameKey, Str(name)), Member(Sha256Key, Str(digest)), Member(SizeKey, Int(size)));
  }

  lemma KeysInOrder()
    ensures Less(FileNameKey, Sha256Key) && Less(Sha256Key, SizeKey)
    ensures FileNameKey != Sha256Key && Sha256Key != SizeKey && FileNameKey != SizeKey
  {
  }

  /** Three members in key order, with values that have no order of their own. */
  lemma NormalThree(a: Member<Json>, b: Member<Json>, c: Member<Json>)
    requires Less(a.key, b.key) && Less(b.key, c.key)
    requires Normalize(a.value) == a.value && Normalize(b.value) == b.value && Normalize(c.value) == c.value
    ensures Normalize(Obj([a, b, c])) == Obj([a, b, c])
  {
    var ms := [a, b, c];
    assert NormalizeMembers(ms) == ms;
    assert ms[1..] == [b, c] && [b, c][1..] == [c] && [c][1..] == [];
    assert SortByKey([c]) == [c];
    assert SortByKey([b, c]) == [b, c];
  }

  lemma JoinThree(a: Member<JString>, b: Member<JString>, c: Member<JString>)
    ensures JoinMembers([a, b, c])
            == Quoted(a.key) + [Colon] + a.value + [Comma]
               + (Quoted(b.key) + [Colon] + b.value + [Comma] + (Quoted(c.key) + [Colon] + c.value))
  {
    assert [a, b, c][1..] == [b, c] && [b, c][1..] == [c];
    assert JoinMembers([c]) == Quoted(c.key) + [Colon] + c.value;
    assert JoinMembers([b, c]) == Quoted(b.key) + [Colon] + b.value + [Comma] + JoinMembers([c]);
  }

  lemma WriteThree(a: Member<Json>, b: Member<Json>, c: Member<Json>)
    ensures WriteMembers([a, b, c])
            == [Member(a.key, Write(a.value)), Member(b.key, Write(b.value)), Member(c.key, Write(c.value))]
  {
  }

  /** {"file_name":"...","sha256":"...","size_bytes":...} */
  lemma HeaderLayout(name: ByteString, digest: ByteString, size: nat)
    ensures HeaderText(name, digest, size)
            == [OpenBrace] + (Quoted(FileNameKey) + [Colon] + Quoted(name) + [Comma]
                              + (Quoted(Sha256Key) + [Colon] + Quoted(digest) + [Comma]
                                 + (Quoted(SizeKey) + [Colon] + IntText(size)))) + [CloseBrace]
  {
    NormalHeader(name, digest, size);
    PrintIsWrite(HeaderObject(name, digest, size));
    WriteThree(Member(FileNameKey, Str(name)), Member(Sha256Key, Str(digest)), Member(SizeKey, Int(size)));
    JoinThree(Member(FileNameKey, Quoted(name)), Member(Sha256Key, Quoted(digest)), Member(SizeKey, IntText(size)));
  }

  datatype Header = Header(name: JString, digest: JString, size: int)

  /** The last value under a key, as a Python dict keeps it. */
  function Lookup(ms: seq<Member<Json>>, key: JString): Option<Json> {
    if ms == [] then None
    else if Lookup(ms[1..], key).Some? then Lookup(ms[1..], key)
    else if ms[0].key == key then Some(ms[0].value)
    else None
  }

  function Keys(ms: seq<Member<Json>>): set<JString> {
    set i | 0 <= i < |ms| :: ms[i].key
  }

  /** `isinstance(value, int)`: Python's booleans are integers. */
  function PythonInt(v: Json): Option<int> {
    match v
    case Int(n) => Some(n)
    case Bool(b) => Some(if b then 1 else 0)
    case _ => None
  }

  /** `json.loads` of ASCII bytes and the checks that both kinds of header share. */
  function ReadHeader(b: ByteString): Option<Header> {
    var v := if Ascii(b) then Parse(b) else None;
    if v.None? || !v.value.Obj? || Keys(v.value.members) != {FileNameKey, Sha256Key, SizeKey} then None
    else
      var name, digest := Lookup(v.value.members, FileNameKey), Lookup(v.value.members, Sha256Key);
      var size := Lookup(v.value.members, SizeKey);
      if name.None? || digest.None? || size.None? || !name.value.Str? || !digest.value.Str? then None
      else if !IsHexDigest(digest.value.s) || PythonInt(size.value).None? then None
      else Some(Header(name.value.s, digest.value.s, PythonInt(size.value).value))
  }

  /** Python reads back the header that the Worker writes. */
  lemma HeaderRoundTrip(name: ByteString, digest: ByteString, size: nat)
    requires HeaderParts(name, digest, size)
    ensures Ascii(HeaderText(name, digest, size))
    ensures ReadHeader(Utf8(HeaderText(name, digest, size))) == Some(Header(name, digest, size))
  {
    HeaderFits(name, digest, size);
    NormalHeader(name, digest, size);
    PrintRoundTrip(HeaderObject(name, digest, size));
    HeaderMembers(Str(name), Str(digest), Int(size));
  }

  lemma LookupCons(m: Member<Json>, ms: seq<Member<Json>>, key: JString)
    ensures Lookup([m] + ms, key)
            == if Lookup(ms, key).Some? then Lookup(ms, key) else if m.key == key then Some(m.value) else None
  {
  }

  lemma LookupThree(a: Member<Json>, b: Member<Json>, c: Member<Json>, key: JString)
    requires a.key != b.key && b.key != c.key && a.key != c.key
    ensures Lookup([a, b, c], key)
            == if c.key == key then Some(c.value) else if b.key == key then Some(b.value)
               else if a.key == key then Some(a.value) else None
  {
    LookupCons(c, [], key);
    LookupCons(b, [c], key);
    LookupCons(a, [b, c], key);
    assert [c] + [] == [c] && [b] + [c] == [b, c] && [a] + [b, c] == [a, b, c];
  }

  lemma HeaderMembers(a: Json, b: Json, c: Json)
    ensures var ms := [Member(FileNameKey, a), Member(Sha256Key, b), Member(SizeKey, c)];
      && Keys(ms) == {FileNameKey, Sha256Key, SizeKey}
      && Lookup(ms, FileNameKey) == Some(a) && Lookup(ms, Sha256Key) == Some(b) && Lookup(ms, SizeKey) == Some(c)
  {
    var x, y, z := Member(FileNameKey, a), Member(Sha256Key, b), Member(SizeKey, c);
    KeysInOrder();
    KeysOfThree(x, y, z);
    LookupThree(x, y, z, FileNameKey);
    LookupThree(x, y, z, Sha256Key);
    LookupThree(x, y, z, SizeKey);
  }

  lemma KeysOfThree(a: Member<Json>, b: Member<Json>, c: Member<Json>)
    ensures Keys([a, b, c]) == {a.key, b.key, c.key}
  {
    var ms := [a, b, c];
    assert ms[0].key == a.key && ms[1].key == b.key && ms[2].key == c.key;
  }

  // ----- The pair as the framing uses it -------------------------------------------------------

  /** The Worker's writer and the container's reader of headers. */
  datatype Codec = Codec(write: (ByteString, ByteString, nat) -> ByteString, read: ByteString -> Option<Header>)

  ghost predicate LawfulCodec(k: Codec) {
    forall name: ByteString, digest: ByteString, size: nat {:trigger k.write(name, digest, size)} ::
      HeaderParts(name, digest, size) ==>
        && 1 <= |k.write(name, digest, size)| <= MaxHeaderSize
        && k.read(k.write(name, digest, size)) == Some(Header(name, digest, size))
  }

  function WriteHeader(name: ByteString, digest: ByteString, size: nat): ByteString {
    var t := HeaderText(name, digest, size);
    if Ascii(t) then Utf8(t) else []
  }

  const JsonCodec: Codec := Codec((name, digest, size) => WriteHeader(name, digest, size), b => ReadHeader(b))

  lemma JsonCodecIsLawful()
    ensures LawfulCodec(JsonCodec)
  {
    forall name: ByteString, digest: ByteString, size: nat | HeaderParts(name, digest, size)
      ensures 1 <= |JsonCodec.write(name, digest, size)| <= MaxHeaderSize
      ensures JsonCodec.read(JsonCodec.write(name, digest, size)) == Some(Header(name, digest, size))
    {
      HeaderFits(name, digest, size);
      HeaderRoundTrip(name, digest, size);
    }
  }
}
