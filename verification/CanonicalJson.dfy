/**
 `canonicalJson` (cloudflare/worker/src/workflow-state.ts:118-133) on null, booleans, integers,
 strings, arrays and objects.  A JavaScript string is a sequence of UTF-16 code units, paired
 surrogates or not; an object is its members in insertion order, with distinct keys.
 */
module CanonicalJson {
  import opened Common

  type Unit = x: int | 0 <= x < 0x1_0000

  type JString = seq<Unit>

  datatype Member<T> = Member(key: JString, value: T)

  datatype Json =
    | Null
    | Bool(b: bool)
    | Int(n: int)
    | Str(s: JString)
    | Arr(items: seq<Json>)
    | Obj(members: seq<Member<Json>>)

  const Quote: Unit := 34
  const Backslash: Unit := 92
  const Comma: Unit := 44
  const Colon: Unit := 58
  const Minus: Unit := 45
  const Zero: Unit := 48
  const OpenBracket: Unit := 91
  const CloseBracket: Unit := 93
  const OpenBrace: Unit := 123
  const CloseBrace: Unit := 125
  const LetterU: Unit := 117

  const NullText: JString := [110, 117, 108, 108]
  const TrueText: JString := [116, 114, 117, 101]
  const FalseText: JString := [102, 97, 108, 115, 101]

  // ----- Strings: QuoteJSONString of ECMA-262 --------------------------------------------------

  predicate IsHigh(u: Unit) {
    0xD800 <= u <= 0xDBFF
  }

  predicate IsLow(u: Unit) {
    0xDC00 <= u <= 0xDFFF
  }

  function HexDigit(n: nat): Unit
    requires n < 16
  {
    if n < 10 then 48 + n else 87 + n
  }

  function UnicodeEscape(u: Unit): (t: JString)
    ensures |t| == 6
  {
    [Backslash, LetterU, HexDigit(u / 4096), HexDigit(u / 256 % 16), HexDigit(u / 16 % 16), HexDigit(u % 16)]
  }

  /** The letter of a two-character escape. */
  function ShortEscape(u: Unit): Option<Unit> {
    if u == 8 then Some(98)
    else if u == 9 then Some(116)
    else if u == 10 then Some(110)
    else if u == 12 then Some(102)
    else if u == 13 then Some(114)
    else if u == Quote then Some(Quote)
    else if u == Backslash then Some(Backslash)
    else None
  }

  function EscapeUnit(u: Unit): JString {
    if ShortEscape(u).Some? then [Backslash, ShortEscape(u).value]
    else if u < 32 || IsHigh(u) || IsLow(u) then UnicodeEscape(u)
    else [u]
  }

  /** Only a surrogate without its partner is escaped. */
  function Escape(s: JString): JString {
    if s == [] then []
    else if |s| >= 2 && IsHigh(s[0]) && IsLow(s[1]) then s[..2] + Escape(s[2..])
    else EscapeUnit(s[0]) + Escape(s[1..])
  }

  function Quoted(s: JString): JString {
    [Quote] + Escape(s) + [Quote]
  }

  // ----- Numbers -------------------------------------------------------------------------------

  function Digits(n: nat): (d: JString)
    ensures |d| > 0
  {
    if n < 10 then [48 + n] else Digits(n / 10) + [48 + n % 10]
  }

  function IntText(n: int): JString {
    if n < 0 then [Minus] + Digits(-n) else Digits(n)
  }

  // ----- Key order: UTF-16 code units, as Array.prototype.sort compares strings -------------------

  predicate Less(a: JString, b: JString) {
    if b == [] then false
    else if a == [] then true
    else a[0] < b[0] || (a[0] == b[0] && Less(a[1..], b[1..]))
  }

  function InsertByKey<T(!new)>(m: Member<T>, sorted: seq<Member<T>>): (r: seq<Member<T>>)
    ensures |r| == |sorted| + 1
    ensures forall x :: x in r <==> x == m || x in sorted
  {
    if sorted == [] || Less(m.key, sorted[0].key) then [m] + sorted
    else
      assert sorted == [sorted[0]] + sorted[1..];
      [sorted[0]] + InsertByKey(m, sorted[1..])
  }

  function SortByKey<T(!new)>(ms: seq<Member<T>>): (r: seq<Member<T>>)
    ensures |r| == |ms|
    ensures forall x :: x in r <==> x in ms
  {
    if ms == [] then []
    else
      assert ms == [ms[0]] + ms[1..];
      InsertByKey(ms[0], SortByKey(ms[1..]))
  }

  // ----- Printing ------------------------------------------------------------------------------

  function Join(texts: seq<JString>): JString {
    if texts == [] then []
    else if |texts| == 1 then texts[0]
    else texts[0] + [Comma] + Join(texts[1..])
  }

  function JoinMembers(ms: seq<Member<JString>>): JString {
    if ms == [] then []
    else if |ms| == 1 then Quoted(ms[0].key) + [Colon] + ms[0].value
    else Quoted(ms[0].key) + [Colon] + ms[0].value + [Comma] + JoinMembers(ms[1..])
  }

  function Print(v: Json): JString {
    match v
    case Null => NullText
    case Bool(b) => if b then TrueText else FalseText
    case Int(n) => IntText(n)
    case Str(s) => Quoted(s)
    case Arr(items) => [OpenBracket] + Join(PrintItems(items)) + [CloseBracket]
    case Obj(members) => [OpenBrace] + JoinMembers(SortByKey(PrintMembers(members))) + [CloseBrace]
  }

  function PrintItems(items: seq<Json>): (r: seq<JString>)
    ensures |r| == |items|
  {
    if items == [] then [] else [Print(items[0])] + PrintItems(items[1..])
  }

  function PrintMembers(ms: seq<Member<Json>>): (r: seq<Member<JString>>)
    ensures |r| == |ms|
  {
    if ms == [] then [] else [Member(ms[0].key, Print(ms[0].value))] + PrintMembers(ms[1..])
  }

  // ----- The same value with every object's members in key order ----------------------------------

  function Normalize(v: Json): Json {
    match v
    case Arr(items) => Arr(NormalizeItems(items))
    case Obj(members) => Obj(SortByKey(NormalizeMembers(members)))
    case _ => v
  }

  function NormalizeItems(items: seq<Json>): (r: seq<Json>)
    ensures |r| == |items|
    ensures forall i :: 0 <= i < |r| ==> r[i] == Normalize(items[i])
  {
    if items == [] then [] else [Normalize(items[0])] + NormalizeItems(items[1..])
  }

  function NormalizeMembers(ms: seq<Member<Json>>): (r: seq<Member<Json>>)
    ensures |r| == |ms|
    ensures forall i :: 0 <= i < |r| ==> r[i] == Member(ms[i].key, Normalize(ms[i].value))
  {
    if ms == [] then [] else [Member(ms[0].key, Normalize(ms[0].value))] + NormalizeMembers(ms[1..])
  }

  /** Printing without sorting. */
  function Write(v: Json): JString {
    match v
    case Null => NullText
    case Bool(b) => if b then TrueText else FalseText
    case Int(n) => IntText(n)
    case Str(s) => Quoted(s)
    case Arr(items) => [OpenBracket] + Join(WriteItems(items)) + [CloseBracket]
    case Obj(members) => [OpenBrace] + JoinMembers(WriteMembers(members)) + [CloseBrace]
  }

  function WriteItems(items: seq<Json>): (r: seq<JString>)
    ensures |r| == |items|
  {
    if items == [] then [] else [Write(items[0])] + WriteItems(items[1..])
  }

  function WriteMembers(ms: seq<Member<Json>>): (r: seq<Member<JString>>)
    ensures |r| == |ms|
    ensures forall i :: 0 <= i < |r| ==> r[i] == Member(ms[i].key, Write(ms[i].value))
  {
    if ms == [] then [] else [Member(ms[0].key, Write(ms[0].value))] + WriteMembers(ms[1..])
  }

  lemma {:induction false} WriteInserted(m: Member<Json>, sorted: seq<Member<Json>>)
    ensures WriteMembers(InsertByKey(m, sorted)) == InsertByKey(Member(m.key, Write(m.value)), WriteMembers(sorted))
  {
    if sorted != [] && !Less(m.key, sorted[0].key) {
      WriteInserted(m, sorted[1..]);
      assert WriteMembers(sorted)[1..] == WriteMembers(sorted[1..]);
    }
  }

  lemma {:induction false} WriteSorted(ms: seq<Member<Json>>)
    ensures WriteMembers(SortByKey(ms)) == SortByKey(WriteMembers(ms))
  {
    if ms != [] {
      WriteSorted(ms[1..]);
      WriteInserted(ms[0], SortByKey(ms[1..]));
      assert WriteMembers(ms)[1..] == WriteMembers(ms[1..]);
    }
  }

  /** Canonical text is the plain text of the normal form. */
  lemma {:induction false} PrintIsWrite(v: Json)
    ensures Print(v) == Write(Normalize(v))
  {
    match v
    case Arr(items) => PrintItemsIsWrite(items);
    case Obj(members) =>
      PrintMembersIsWrite(members);
      WriteSorted(NormalizeMembers(members));
    case _ =>
  }

  lemma {:induction false} PrintItemsIsWrite(items: seq<Json>)
    ensures PrintItems(items) == WriteItems(NormalizeItems(items))
  {
    if items != [] {
      PrintIsWrite(items[0]);
      PrintItemsIsWrite(items[1..]);
      assert NormalizeItems(items)[1..] == NormalizeItems(items[1..]);
    }
  }

  lemma {:induction false} PrintMembersIsWrite(ms: seq<Member<Json>>)
    ensures PrintMembers(ms) == WriteMembers(NormalizeMembers(ms))
  {
    if ms != [] {
      PrintIsWrite(ms[0].value);
      PrintMembersIsWrite(ms[1..]);
      assert NormalizeMembers(ms)[1..] == NormalizeMembers(ms[1..]);
    }
  }
}
