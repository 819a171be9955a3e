/**
 A reader of RFC 8259 texts over UTF-16 code units.  Numbers are read in their integer form
 (section 6 of RFC 8259 without fraction and exponent); every other production is complete.
 */
module JsonParser {
  import opened Common
  import opened CanonicalJson

  type Read<T> = Option<(T, JString)>

  predicate IsDigit(u: Unit) {
    Zero <= u <= Zero + 9
  }

  /** Section 2: space, tab, line feed, carriage return. */
  function SkipSpace(t: JString): (r: JString)
    ensures |r| <= |t|
  {
    if t != [] && t[0] in {32, 9, 10, 13} then SkipSpace(t[1..]) else t
  }

  function StripPrefix(prefix: JString, t: JString): (r: Option<JString>)
    ensures r.Some? ==> t == prefix + r.value
  {
    if |prefix| <= |t| && t[..|prefix|] == prefix then Some(t[|prefix|..]) else None
  }

  // ----- Numbers -------------------------------------------------------------------------------

  function DigitRun(t: JString): (k: nat)
    ensures k <= |t|
    ensures forall i :: 0 <= i < k ==> IsDigit(t[i])
    ensures k < |t| ==> !IsDigit(t[k])
  {
    if t != [] && IsDigit(t[0]) then 1 + DigitRun(t[1..]) else 0
  }

  function ValueOf(digits: JString): nat
    requires forall i :: 0 <= i < |digits| ==> IsDigit(digits[i])
  {
    if digits == [] then 0
    else
      var last := digits[|digits| - 1];
      assert IsDigit(last);
      ValueOf(digits[..|digits| - 1]) * 10 + (last as int - 48)
  }

  /** A fraction or an exponent would follow. */
  predicate NotInteger(rest: JString) {
    rest != [] && rest[0] in {46, 69, 101}
  }

  function ParseNat(t: JString): (r: Read<nat>)
    ensures r.Some? ==> |r.value.1| < |t|
  {
    var k := DigitRun(t);
    if k == 0 || (k > 1 && t[0] == Zero) || NotInteger(t[k..]) then None
    else Some((ValueOf(t[..k]), t[k..]))
  }

  function ParseInt(t: JString): (r: Read<Json>)
    ensures r.Some? ==> |r.value.1| < |t|
  {
    if t != [] && t[0] == Minus then
      var m := ParseNat(t[1..]);
      if m.None? then None else Some((Int(-(m.value.0 as int)), m.value.1))
    else
      var m := ParseNat(t);
      if m.None? then None else Some((Int(m.value.0), m.value.1))
  }

  // ----- Strings -------------------------------------------------------------------------------

  function HexValue(u: Unit): Option<nat> {
    if 48 <= u <= 57 then Some(u - 48)
    else if 97 <= u <= 102 then Some(u - 87)
    else if 65 <= u <= 70 then Some(u - 55)
    else None
  }

  function ParseHex4(t: JString): (r: Read<Unit>)
    ensures r.Some? ==> |r.value.1| == |t| - 4
  {
    if |t| < 4 then None
    else
      var a, b, c, d := HexValue(t[0]), HexValue(t[1]), HexValue(t[2]), HexValue(t[3]);
      if a.None? || b.None? || c.None? || d.None? then None
      else
        var u := ((a.value * 16 + b.value) * 16 + c.value) * 16 + d.value;
        if u < 0x1_0000 then Some((u, t[4..])) else None
  }

  function UnescapeLetter(u: Unit): Option<Unit> {
    if u == Quote || u == Backslash || u == 47 then Some(u)
    else if u == 98 then Some(8)
    else if u == 116 then Some(9)
    else if u == 110 then Some(10)
    else if u == 102 then Some(12)
    else if u == 114 then Some(13)
    else None
  }

  /** One unit of a string's content. */
  function ParseUnit(t: JString): (r: Read<Unit>)
    ensures r.Some? ==> |r.value.1| < |t|
  {
    if t == [] || t[0] < 32 || t[0] == Quote then None
    else if t[0] != Backslash then Some((t[0], t[1..]))
    else if |t| < 2 then None
    else if t[1] == LetterU then ParseHex4(t[2..])
    else if UnescapeLetter(t[1]).Some? then Some((UnescapeLetter(t[1]).value, t[2..]))
    else None
  }

  /** Content up to and over the closing quotation mark. */
  function ParseContent(t: JString): (r: Read<JString>)
    ensures r.Some? ==> |r.value.1| < |t|
    decreases |t|
  {
    if t != [] && t[0] == Quote then Some(([], t[1..]))
    else
      var u := ParseUnit(t);
      if u.None? then None
      else
        var others := ParseContent(u.value.1);
        if others.None? then None else Some(([u.value.0] + others.value.0, others.value.1))
  }

  function ParseString(t: JString): (r: Read<JString>)
    ensures r.Some? ==> |r.value.1| < |t|
  {
    if t != [] && t[0] == Quote then ParseContent(t[1..]) else None
  }

  // ----- Values --------------------------------------------------------------------------------

  predicate At(u: Unit, t: JString) {
    t != [] && t[0] == u
  }

  function ParseValue(t: JString): (r: Read<Json>)
    ensures r.Some? ==> |r.value.1| < |t|
    decreases |t|, 1
  {
    if At(Quote, t) then
      var s := ParseString(t);
      if s.None? then None else Some((Str(s.value.0), s.value.1))
    else if At(OpenBracket, t) then ParseArray(t)
    else if At(OpenBrace, t) then ParseObject(t)
    else ParseScalar(t)
  }

  function ParseScalar(t: JString): (r: Read<Json>)
    ensures r.Some? ==> |r.value.1| < |t|
  {
    if StripPrefix(NullText, t).Some? then Some((Null, t[4..]))
    else if StripPrefix(TrueText, t).Some? then Some((Bool(true), t[4..]))
    else if StripPrefix(FalseText, t).Some? then Some((Bool(false), t[5..]))
    else ParseInt(t)
  }

  function ParseArray(t: JString): (r: Read<Json>)
    requires t != []
    ensures r.Some? ==> |r.value.1| < |t|
    decreases |t|, 0
  {
    var s := SkipSpace(t[1..]);
    if At(CloseBracket, s) then Some((Arr([]), s[1..]))
    else
      var items := ParseItems(s);
      if items.None? then None else Some((Arr(items.value.0), items.value.1))
  }

  /** One or more values up to and over the closing bracket. */
  function ParseItems(t: JString): (r: Read<seq<Json>>)
    ensures r.Some? ==> |r.value.1| < |t|
    decreases |t|, 2
  {
    var v := ParseValue(t);
    if v.None? then None
    else
      var s := SkipSpace(v.value.1);
      if At(CloseBracket, s) then Some(([v.value.0], s[1..]))
      else if At(Comma, s) then
        var others := ParseItems(SkipSpace(s[1..]));
        if others.None? then None else Some(([v.value.0] + others.value.0, others.value.1))
      else None
  }

  function ParseObject(t: JString): (r: Read<Json>)
    requires t != []
    ensures r.Some? ==> |r.value.1| < |t|
    decreases |t|, 0
  {
    var s := SkipSpace(t[1..]);
    if At(CloseBrace, s) then Some((Obj([]), s[1..]))
    else
      var members := ParseMembers(s);
      if members.None? then None else Some((Obj(members.value.0), members.value.1))
  }

  function ParseMember(t: JString): (r: Read<Member<Json>>)
    ensures r.Some? ==> |r.value.1| < |t|
    decreases |t|, 2
  {
    var key := ParseString(t);
    if key.None? then None
    else
      var s := SkipSpace(key.value.1);
      if !At(Colon, s) then None
      else
        var v := ParseValue(SkipSpace(s[1..]));
        if v.None? then None else Some((Member(key.value.0, v.value.0), v.value.1))
  }

  /** One or more members up to and over the closing brace. */
  function ParseMembers(t: JString): (r: Read<seq<Member<Json>>>)
    ensures r.Some? ==> |r.value.1| < |t|
    decreases |t|, 3
  {
    var m := ParseMember(t);
    if m.None? then None
    else
      var s := SkipSpace(m.value.1);
      if At(CloseBrace, s) then Some(([m.value.0], s[1..]))
      else if At(Comma, s) then
        var others := ParseMembers(SkipSpace(s[1..]));
        if others.None? then None else Some(([m.value.0] + others.value.0, others.value.1))
      else None
  }

  /** A whole text. */
  function Parse(t: JString): Option<Json> {
    var v := ParseValue(SkipSpace(t));
    if v.None? || SkipSpace(v.value.1) != [] then None else Some(v.value.0)
  }
}
