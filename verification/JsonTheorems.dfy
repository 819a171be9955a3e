/** Canonical text determines the value up to member order, and nothing else. */
module JsonTheorems {
  import opened Common
  import opened CanonicalJson
  import opened JsonParser

  // ----- Strings -------------------------------------------------------------------------------

  lemma HexRoundTrip(u: Unit, rest: JString)
    ensures ParseHex4(UnicodeEscape(u)[2..] + rest) == Some((u, rest))
  {
    var t := UnicodeEscape(u)[2..] + rest;
    assert t[0] == HexDigit(u / 4096) && t[1] == HexDigit(u / 256 % 16) && t[2] == HexDigit(u / 16 % 16)
      && t[3] == HexDigit(u % 16);
    assert HexValue(t[0]) == Some(u / 4096);
    assert HexValue(t[1]) == Some(u / 256 % 16);
    assert HexValue(t[2]) == Some(u / 16 % 16);
    assert HexValue(t[3]) == Some(u % 16);
    HexWeights(u);
    assert t[4..] == rest;
  }

  lemma HexWeights(u: nat)
    ensures ((u / 4096 * 16 + u / 256 % 16) * 16 + u / 16 % 16) * 16 + u % 16 == u
  {
    var a := u / 16;
    var b := a / 16;
    assert u / 256 == b && u / 4096 == b / 16;
  }

  lemma UnitRoundTrip(u: Unit, rest: JString)
    ensures var t := EscapeUnit(u) + rest;
      ParseUnit(t) == Some((u, rest)) && !At(Quote, t)
  {
    var t := EscapeUnit(u) + rest;
    if ShortEscape(u).Some? {
      assert t[0] == Backslash && t[1] == ShortEscape(u).value && t[2..] == rest;
    } else if u < 32 || IsHigh(u) || IsLow(u) {
      HexRoundTrip(u, rest);
      assert t[0] == Backslash && t[1] == LetterU && t[2..] == UnicodeEscape(u)[2..] + rest;
    } else {
      assert t[0] == u && t[1..] == rest;
    }
  }

  /** Unescaped units of a surrogate pair are read one by one. */
  lemma PlainUnit(u: Unit, rest: JString)
    requires IsHigh(u) || IsLow(u)
    ensures ParseUnit([u] + rest) == Some((u, rest)) && !At(Quote, [u] + rest)
  {
  }

  lemma ContentStep(t: JString, u: Unit, after: JString, s: JString, rest: JString)
    requires !At(Quote, t) && ParseUnit(t) == Some((u, after)) && ParseContent(after) == Some((s, rest))
    ensures ParseContent(t) == Some(([u] + s, rest))
  {
  }

  lemma PairRoundTrip(high: Unit, low: Unit, after: JString, s: JString, rest: JString)
    requires IsHigh(high) && IsLow(low) && ParseContent(after) == Some((s, rest))
    ensures ParseContent([high, low] + after) == Some(([high, low] + s, rest))
  {
    PlainUnit(low, after);
    PlainUnit(high, [low] + after);
    ContentStep([low] + after, low, after, s, rest);
    ContentStep([high] + ([low] + after), high, [low] + after, [low] + s, rest);
    assert [high, low] + after == [high] + ([low] + after);
    assert [high] + ([low] + s) == [high, low] + s;
  }

  lemma Associate(a: JString, b: JString, c: JString, d: JString)
    ensures (a + b) + c + d == a + (b + c + d)
  {
  }

  lemma EscapePair(s: JString)
    requires |s| >= 2 && IsHigh(s[0]) && IsLow(s[1])
    ensures Escape(s) == [s[0], s[1]] + Escape(s[2..])
  {
  }

  lemma PairFirst(s: JString, rest: JString)
    requires |s| >= 2 && IsHigh(s[0]) && IsLow(s[1])
    requires ParseContent(Escape(s[2..]) + [Quote] + rest) == Some((s[2..], rest))
    ensures ParseContent(Escape(s) + [Quote] + rest) == Some((s, rest))
  {
    EscapePair(s);
    Associate([s[0], s[1]], Escape(s[2..]), [Quote], rest);
    PairRoundTrip(s[0], s[1], Escape(s[2..]) + [Quote] + rest, s[2..], rest);
    assert [s[0], s[1]] + s[2..] == s;
  }

  lemma UnitFirst(s: JString, rest: JString)
    requires s != [] && Escape(s) == EscapeUnit(s[0]) + Escape(s[1..])
    requires ParseContent(Escape(s[1..]) + [Quote] + rest) == Some((s[1..], rest))
    ensures ParseContent(Escape(s) + [Quote] + rest) == Some((s, rest))
  {
    var after := Escape(s[1..]) + [Quote] + rest;
    Associate(EscapeUnit(s[0]), Escape(s[1..]), [Quote], rest);
    UnitRoundTrip(s[0], after);
    ContentStep(EscapeUnit(s[0]) + after, s[0], after, s[1..], rest);
    assert [s[0]] + s[1..] == s;
  }

  lemma {:induction false} ContentRoundTrip(s: JString, rest: JString)
    ensures ParseContent(Escape(s) + [Quote] + rest) == Some((s, rest))
  {
    if s == [] {
      assert Escape(s) + [Quote] + rest == [Quote] + rest && ([Quote] + rest)[1..] == rest;
    } else if |s| >= 2 && IsHigh(s[0]) && IsLow(s[1]) {
      ContentRoundTrip(s[2..], rest);
      PairFirst(s, rest);
    } else {
      ContentRoundTrip(s[1..], rest);
      UnitFirst(s, rest);
    }
  }

  lemma StringRoundTrip(s: JString, rest: JString)
    ensures ParseString(Quoted(s) + rest) == Some((s, rest)) && At(Quote, Quoted(s) + rest)
  {
    ContentRoundTrip(s, rest);
    Associate([Quote], Escape(s), [Quote], rest);
    var content := Escape(s) + [Quote] + rest;
    assert ([Quote] + content)[1..] == content;
  }

  // ----- Numbers -------------------------------------------------------------------------------

  /** What may follow a value inside a text: its end, or a unit no number goes on with. */
  predicate Stops(rest: JString) {
    rest != [] ==> rest[0] in {Comma, CloseBracket, CloseBrace}
  }

  lemma {:induction false} DigitsAreDigits(n: nat)
    ensures forall i :: 0 <= i < |Digits(n)| ==> IsDigit(Digits(n)[i])
    ensures Digits(n)[0] == Zero <==> n == 0
    ensures |Digits(n)| > 1 ==> n >= 10
  {
    if n >= 10 { DigitsAreDigits(n / 10); }
  }

  lemma {:induction false} DigitsValue(n: nat)
    requires forall i :: 0 <= i < |Digits(n)| ==> IsDigit(Digits(n)[i])
    ensures ValueOf(Digits(n)) == n
  {
    if n >= 10 {
      DigitsAreDigits(n / 10);
      DigitsValue(n / 10);
      assert Digits(n)[..|Digits(n)| - 1] == Digits(n / 10);
    } else {
      assert Digits(n)[..0] == [];
    }
  }

  lemma {:induction false} RunOfDigits(d: JString, rest: JString)
    requires forall i :: 0 <= i < |d| ==> IsDigit(d[i])
    requires rest == [] || !IsDigit(rest[0])
    ensures DigitRun(d + rest) == |d|
  {
    if d == [] {
      assert d + rest == rest;
    } else {
      assert (d + rest)[1..] == d[1..] + rest;
      RunOfDigits(d[1..], rest);
    }
  }

  lemma NatRoundTrip(n: nat, rest: JString)
    requires Stops(rest)
    ensures ParseNat(Digits(n) + rest) == Some((n, rest))
  {
    DigitsAreDigits(n);
    DigitsValue(n);
    RunOfDigits(Digits(n), rest);
    var t := Digits(n) + rest;
    assert t[..|Digits(n)|] == Digits(n) && t[|Digits(n)|..] == rest;
  }

  lemma IntHead(n: int)
    ensures IntText(n) != [] && (IntText(n)[0] == Minus || IsDigit(IntText(n)[0]))
  {
    if n >= 0 { DigitsAreDigits(n); }
  }

  lemma NegativeRoundTrip(m: nat, rest: JString)
    requires Stops(rest)
    ensures ParseInt([Minus] + Digits(m) + rest) == Some((Int(0 - m as int), rest))
  {
    var digits := Digits(m) + rest;
    NatRoundTrip(m, rest);
    assert [Minus] + Digits(m) + rest == [Minus] + digits;
    assert ([Minus] + digits)[1..] == digits;
  }

  lemma PositiveRoundTrip(m: nat, rest: JString)
    requires Stops(rest)
    ensures ParseInt(Digits(m) + rest) == Some((Int(m), rest))
  {
    NatRoundTrip(m, rest);
    DigitsAreDigits(m);
    assert (Digits(m) + rest)[0] == Digits(m)[0];
  }

  lemma IntRoundTrip(n: int, rest: JString)
    requires Stops(rest)
    ensures ParseInt(IntText(n) + rest) == Some((Int(n), rest))
  {
    if n < 0 { NegativeRoundTrip(-n, rest); } else { PositiveRoundTrip(n, rest); }
  }

  lemma ScalarRoundTrip(v: Json, rest: JString)
    requires Stops(rest) && (v.Null? || v.Bool? || v.Int?)
    ensures ParseScalar(Write(v) + rest) == Some((v, rest))
    ensures var t := Write(v) + rest; !At(Quote, t) && !At(OpenBracket, t) && !At(OpenBrace, t)
  {
    var t := Write(v) + rest;
    match v
    case Null => assert t[..4] == NullText && t[4..] == rest;
    case Bool(b) =>
      assert if b then t[..4] == TrueText && t[4..] == rest else t[..5] == FalseText && t[5..] == rest;
      assert t[0] != NullText[0];
    case Int(n) =>
      IntRoundTrip(n, rest);
      IntHead(n);
      assert t[0] == IntText(n)[0];
  }

  // ----- Values --------------------------------------------------------------------------------

  predicate IsSpace(u: Unit) {
    u in {32, 9, 10, 13}
  }

  /** A written value starts with a unit that is neither white space nor a closing bracket. */
  lemma WriteHead(v: Json)
    ensures Write(v) != []
    ensures !IsSpace(Write(v)[0]) && Write(v)[0] != CloseBracket
  {
    if v.Int? { IntHead(v.n); }
  }

  lemma NoSpace(t: JString)
    requires t != [] && !IsSpace(t[0])
    ensures SkipSpace(t) == t
  {
  }

  lemma {:induction false} ValueRoundTrip(v: Json, rest: JString)
    requires Stops(rest)
    ensures ParseValue(Write(v) + rest) == Some((v, rest))
    decreases v, 0
  {
    match v
    case Str(s) => StringRoundTrip(s, rest);
    case Arr(items) => ArrayRoundTrip(items, rest);
    case Obj(members) => ObjectRoundTrip(members, rest);
    case _ => ScalarRoundTrip(v, rest);
  }

  lemma {:induction false} ArrayRoundTrip(items: seq<Json>, rest: JString)
    ensures ParseValue(Write(Arr(items)) + rest) == Some((Arr(items), rest))
    decreases items, 2
  {
    var t := Write(Arr(items)) + rest;
    var s := Join(WriteItems(items)) + [CloseBracket] + rest;
    assert t[1..] == s;
    if items == [] {
      assert s == [CloseBracket] + rest && s[1..] == rest;
      NoSpace(s);
    } else {
      ItemsRoundTrip(items, rest);
    }
  }

  lemma {:induction false} ItemsRoundTrip(items: seq<Json>, rest: JString)
    requires items != []
    ensures var s := Join(WriteItems(items)) + [CloseBracket] + rest;
      ParseItems(s) == Some((items, rest)) && SkipSpace(s) == s && !At(CloseBracket, s)
    decreases items, 1
  {
    var s := Join(WriteItems(items)) + [CloseBracket] + rest;
    WriteHead(items[0]);
    if |items| == 1 {
      ValueRoundTrip(items[0], [CloseBracket] + rest);
      assert s == Write(items[0]) + ([CloseBracket] + rest);
      LastItem(s, items[0], rest);
      assert items == [items[0]];
    } else {
      var others := Join(WriteItems(items[1..])) + [CloseBracket] + rest;
      JoinSplit(items, rest);
      ItemsRoundTrip(items[1..], rest);
      ValueRoundTrip(items[0], [Comma] + others);
      NextItem(s, items[0], others, items[1..], rest);
      assert items == [items[0]] + items[1..];
    }
  }

  lemma JoinSplit(items: seq<Json>, rest: JString)
    requires |items| > 1
    ensures Join(WriteItems(items)) + [CloseBracket] + rest
            == Write(items[0]) + ([Comma] + (Join(WriteItems(items[1..])) + [CloseBracket] + rest))
  {
    var others := Join(WriteItems(items[1..]));
    assert WriteItems(items)[1..] == WriteItems(items[1..]);
    assert Join(WriteItems(items)) == Write(items[0]) + [Comma] + others;
    Regroup(Write(items[0]), [Comma], others, [CloseBracket], rest);
  }

  lemma Regroup(a: JString, b: JString, c: JString, d: JString, e: JString)
    ensures (a + b + c) + d + e == a + (b + (c + d + e))
  {
  }

  lemma LastItem(t: JString, v: Json, rest: JString)
    requires ParseValue(t) == Some((v, [CloseBracket] + rest))
    ensures ParseItems(t) == Some(([v], rest))
  {
    NoSpace([CloseBracket] + rest);
    assert ([CloseBracket] + rest)[1..] == rest;
  }

  lemma NextItem(t: JString, v: Json, others: JString, vs: seq<Json>, rest: JString)
    requires ParseValue(t) == Some((v, [Comma] + others))
    requires SkipSpace(others) == others && ParseItems(others) == Some((vs, rest))
    ensures ParseItems(t) == Some(([v] + vs, rest))
  {
    NoSpace([Comma] + others);
    assert ([Comma] + others)[1..] == others;
  }

  lemma {:induction false} ObjectRoundTrip(ms: seq<Member<Json>>, rest: JString)
    ensures ParseValue(Write(Obj(ms)) + rest) == Some((Obj(ms), rest))
    decreases ms, 3
  {
    var t := Write(Obj(ms)) + rest;
    var s := JoinMembers(WriteMembers(ms)) + [CloseBrace] + rest;
    Associate([OpenBrace], JoinMembers(WriteMembers(ms)), [CloseBrace], rest);
    assert ([OpenBrace] + s)[1..] == s;
    if ms == [] {
      assert s == [CloseBrace] + rest && s[1..] == rest;
      NoSpace(s);
    } else {
      MembersRoundTrip(ms, rest);
    }
  }

  lemma {:induction false} MemberRoundTrip(m: Member<Json>, rest: JString)
    requires Stops(rest)
    ensures ParseMember(Quoted(m.key) + [Colon] + Write(m.value) + rest) == Some((m, rest))
    decreases m.value, 1
  {
    var after := [Colon] + (Write(m.value) + rest);
    assert Quoted(m.key) + [Colon] + Write(m.value) + rest == Quoted(m.key) + after;
    StringRoundTrip(m.key, after);
    NoSpace(after);
    WriteHead(m.value);
    assert after[1..] == Write(m.value) + rest;
    NoSpace(Write(m.value) + rest);
    ValueRoundTrip(m.value, rest);
  }

  lemma {:induction false} MembersRoundTrip(ms: seq<Member<Json>>, rest: JString)
    requires ms != []
    ensures ParseMembers(JoinMembers(WriteMembers(ms)) + [CloseBrace] + rest) == Some((ms, rest))
    ensures At(Quote, JoinMembers(WriteMembers(ms)) + [CloseBrace] + rest)
    decreases ms, 2
  {
    if |ms| == 1 {
      SingleRoundTrip(ms[0], rest);
      assert ms == [ms[0]];
      assert WriteMembers(ms) == [Member(ms[0].key, Write(ms[0].value))];
    } else {
      var others := JoinMembers(WriteMembers(ms[1..])) + [CloseBrace] + rest;
      JoinMembersSplit(ms, rest);
      MembersRoundTrip(ms[1..], rest);
      NoSpace(others);
      MemberRoundTrip(ms[0], [Comma] + others);
      NextMember(Quoted(ms[0].key) + [Colon] + Write(ms[0].value) + ([Comma] + others), ms[0], others, ms[1..], rest);
      assert ms == [ms[0]] + ms[1..];
    }
  }

  lemma {:induction false} SingleRoundTrip(m: Member<Json>, rest: JString)
    ensures var t := Quoted(m.key) + [Colon] + Write(m.value) + [CloseBrace] + rest;
      ParseMembers(t) == Some(([m], rest)) && At(Quote, t)
    decreases m.value, 2
  {
    var text := Quoted(m.key) + [Colon] + Write(m.value);
    MemberRoundTrip(m, [CloseBrace] + rest);
    assert text + [CloseBrace] + rest == text + ([CloseBrace] + rest);
    LastMember(text + ([CloseBrace] + rest), m, rest);
  }

  lemma JoinMembersSplit(ms: seq<Member<Json>>, rest: JString)
    requires |ms| > 1
    ensures JoinMembers(WriteMembers(ms)) + [CloseBrace] + rest
            == Quoted(ms[0].key) + [Colon] + Write(ms[0].value)
               + ([Comma] + (JoinMembers(WriteMembers(ms[1..])) + [CloseBrace] + rest))
  {
    var first := Quoted(ms[0].key) + [Colon] + Write(ms[0].value);
    var others := JoinMembers(WriteMembers(ms[1..]));
    assert WriteMembers(ms)[1..] == WriteMembers(ms[1..]);
    assert JoinMembers(WriteMembers(ms)) == first + [Comma] + others;
    Regroup(first, [Comma], others, [CloseBrace], rest);
  }

  lemma LastMember(t: JString, m: Member<Json>, rest: JString)
    requires ParseMember(t) == Some((m, [CloseBrace] + rest))
    ensures ParseMembers(t) == Some(([m], rest))
  {
    NoSpace([CloseBrace] + rest);
    assert ([CloseBrace] + rest)[1..] == rest;
  }

  lemma NextMember(t: JString, m: Member<Json>, others: JString, ms: seq<Member<Json>>, rest: JString)
    requires ParseMember(t) == Some((m, [Comma] + others))
    requires SkipSpace(others) == others && ParseMembers(others) == Some((ms, rest))
    ensures ParseMembers(t) == Some(([m] + ms, rest))
  {
    NoSpace([Comma] + others);
    assert ([Comma] + others)[1..] == others;
  }

  /** An RFC 8259 reader gets back exactly the value, its members in key order. */
  lemma PrintRoundTrip(v: Json)
    ensures Parse(Print(v)) == Some(Normalize(v))
  {
    PrintIsWrite(v);
    ValueRoundTrip(Normalize(v), []);
    WriteHead(Normalize(v));
    NoSpace(Print(v));
    assert Print(v) + [] == Print(v);
  }

  // ----- Equality up to member order -----------------------------------------------------------

  /** A JavaScript object has one value per key. */
  ghost predicate DistinctKeys<T>(ms: seq<Member<T>>) {
    forall i, j :: 0 <= i < j < |ms| ==> ms[i].key != ms[j].key
  }

  ghost predicate WellFormed(v: Json) {
    match v
    case Arr(items) => forall i :: 0 <= i < |items| ==> WellFormed(items[i])
    case Obj(members) => DistinctKeys(members) && forall i :: 0 <= i < |members| ==> WellFormed(members[i].value)
    case _ => true
  }

  /** The same value, whatever the order of the members of any object in it. */
  ghost predicate SameValue(v: Json, w: Json)
    decreases v
  {
    if v.Arr? && w.Arr? then
      && |v.items| == |w.items|
      && (forall i :: 0 <= i < |v.items| ==> SameValue(v.items[i], w.items[i]))
    else if v.Obj? && w.Obj? then
      && (forall i :: 0 <= i < |v.members| ==> HasMatch(v.members[i], w.members))
      && (forall j :: 0 <= j < |w.members| ==> HasKey(w.members[j].key, v.members))
    else
      v == w
  }

  ghost predicate HasMatch(m: Member<Json>, others: seq<Member<Json>>)
    decreases m
  {
    exists j :: 0 <= j < |others| && others[j].key == m.key && SameValue(m.value, others[j].value)
  }

  ghost predicate HasKey<T>(key: JString, ms: seq<Member<T>>) {
    exists i :: 0 <= i < |ms| && ms[i].key == key
  }

  /** At the first code unit where they differ the first string has the lower one, or it ends there. */
  ghost predicate UnitsBelow(a: JString, b: JString, k: nat) {
    k <= |a| && k < |b| && a[..k] == b[..k] && (k == |a| || a[k] < b[k])
  }

  lemma {:induction false} LessAt(a: JString, b: JString) returns (k: nat)
    requires Less(a, b)
    ensures UnitsBelow(a, b, k)
  {
    k := 0;
    if a != [] && a[0] == b[0] {
      var i := LessAt(a[1..], b[1..]);
      k := i + 1;
      assert a[..k] == [a[0]] + a[1..][..i] && b[..k] == [b[0]] + b[1..][..i];
    }
  }

  lemma {:induction false} BelowIsLess(a: JString, b: JString, k: nat)
    requires UnitsBelow(a, b, k)
    ensures Less(a, b)
    decreases k
  {
    if k > 0 {
      assert a[0] == a[..k][0] == b[..k][0] == b[0];
      assert a[1..][..k - 1] == a[..k][1..] && b[1..][..k - 1] == b[..k][1..];
      BelowIsLess(a[1..], b[1..], k - 1);
    }
  }

  /** Keys are compared by UTF-16 code units, as the specification of `sort` has it. */
  lemma LessIsFirstDifference(a: JString, b: JString)
    ensures Less(a, b) <==> exists k: nat :: UnitsBelow(a, b, k)
  {
    if Less(a, b) { var k := LessAt(a, b); }
    forall k: nat | UnitsBelow(a, b, k) ensures Less(a, b) { BelowIsLess(a, b, k); }
  }

  lemma {:induction false} LessIsTotal(a: JString, b: JString)
    ensures !(Less(a, b) && Less(b, a)) && !Less(a, a)
    ensures a != b ==> Less(a, b) || Less(b, a)
  {
    if a != [] {
      LessIsTotal(a[1..], a[1..]);
      if b != [] {
        LessIsTotal(a[1..], b[1..]);
        assert a == [a[0]] + a[1..] && b == [b[0]] + b[1..];
      }
    }
  }

  lemma {:induction false} LessIsTransitive(a: JString, b: JString, c: JString)
    requires Less(a, b) && Less(b, c)
    ensures Less(a, c)
  {
    if a != [] && a[0] == b[0] && b[0] == c[0] {
      LessIsTransitive(a[1..], b[1..], c[1..]);
    }
  }

  ghost predicate StrictlySorted<T>(ms: seq<Member<T>>) {
    forall i, j :: 0 <= i < j < |ms| ==> Less(ms[i].key, ms[j].key)
  }

  lemma {:induction false} InsertSorted<T(!new)>(m: Member<T>, sorted: seq<Member<T>>)
    requires StrictlySorted(sorted) && (forall x :: x in sorted ==> x.key != m.key)
    ensures StrictlySorted(InsertByKey(m, sorted))
  {
    if sorted != [] {
      LessIsTotal(m.key, sorted[0].key);
      if Less(m.key, sorted[0].key) {
        forall j | 0 <= j < |sorted| ensures Less(m.key, sorted[j].key) {
          if j > 0 { LessIsTransitive(m.key, sorted[0].key, sorted[j].key); }
        }
      } else {
        InsertSorted(m, sorted[1..]);
        var tail := InsertByKey(m, sorted[1..]);
        forall j | 0 <= j < |tail| ensures Less(sorted[0].key, tail[j].key) {
          assert tail[j] in tail;
        }
      }
    }
  }

  lemma {:induction false} SortSorts<T(!new)>(ms: seq<Member<T>>)
    requires DistinctKeys(ms)
    ensures StrictlySorted(SortByKey(ms))
  {
    if ms != [] {
      SortSorts(ms[1..]);
      InsertSorted(ms[0], SortByKey(ms[1..]));
    }
  }

  /** The members of a printed object, in ascending order of their keys. */
  lemma KeysAscend(members: seq<Member<Json>>, i: nat, j: nat)
    requires DistinctKeys(members) && i < j < |members|
    ensures var sorted := Normalize(Obj(members)).members;
      |sorted| == |members| && exists k: nat :: UnitsBelow(sorted[i].key, sorted[j].key, k)
  {
    var ms := NormalizeMembers(members);
    assert DistinctKeys(ms);
    SortSorts(ms);
    LessIsFirstDifference(SortByKey(ms)[i].key, SortByKey(ms)[j].key);
  }

  lemma EmptyTogether<T(!new)>(a: seq<Member<T>>, b: seq<Member<T>>)
    requires forall x :: x in a <==> x in b
    ensures a == [] <==> b == []
  {
    if a != [] { assert a[0] in b; }
    if b != [] { assert b[0] in a; }
  }

  /** A strictly sorted sequence is determined by its members. */
  lemma {:induction false} SortedOnce<T(!new)>(a: seq<Member<T>>, b: seq<Member<T>>)
    requires StrictlySorted(a) && StrictlySorted(b)
    requires forall x :: x in a <==> x in b
    ensures a == b
  {
    EmptyTogether(a, b);
    if a != [] {
      SameLeast(a, b);
      TailMembers(a, b);
      TailMembers(b, a);
      SortedOnce(a[1..], b[1..]);
      assert a == [a[0]] + a[1..] && b == [b[0]] + b[1..];
    }
  }

  lemma SameLeast<T(!new)>(a: seq<Member<T>>, b: seq<Member<T>>)
    requires StrictlySorted(a) && StrictlySorted(b) && a != [] && b != []
    requires a[0] in b && b[0] in a
    ensures a[0] == b[0]
  {
    var j :| 0 <= j < |b| && b[j] == a[0];
    var i :| 0 <= i < |a| && a[i] == b[0];
    LessIsTotal(a[0].key, b[0].key);
  }

  lemma TailMembers<T(!new)>(a: seq<Member<T>>, b: seq<Member<T>>)
    requires StrictlySorted(a) && a != [] && b != [] && a[0] == b[0]
    requires forall x :: x in a ==> x in b
    ensures forall x :: x in a[1..] ==> x in b[1..]
  {
    forall x | x in a[1..] ensures x in b[1..] {
      var i :| 1 <= i < |a| && a[i] == x;
      LessIsTotal(a[0].key, a[i].key);
      assert a[i] in b;
      var j :| 0 <= j < |b| && b[j] == x;
      assert j > 0 && b[1..][j - 1] == x;
    }
  }

  /** With the same members, in any order, two objects normalize to the same text order. */
  lemma SortForgetsOrder<T(!new)>(a: seq<Member<T>>, b: seq<Member<T>>)
    requires DistinctKeys(a) && DistinctKeys(b)
    ensures SortByKey(a) == SortByKey(b) <==> (forall x :: x in a <==> x in b)
  {
    SortSorts(a);
    SortSorts(b);
    if forall x :: x in a <==> x in b {
      SortedOnce(SortByKey(a), SortByKey(b));
    }
  }

  lemma {:induction false} SameNormalForm(v: Json, w: Json)
    requires WellFormed(v) && WellFormed(w)
    ensures SameValue(v, w) <==> Normalize(v) == Normalize(w)
    decreases v
  {
    if v.Arr? && w.Arr? {
      SameItems(v.items, w.items);
    } else if v.Obj? && w.Obj? {
      SameMembers(v.members, w.members);
    }
  }

  lemma {:induction false} SameItems(a: seq<Json>, b: seq<Json>)
    requires WellFormed(Arr(a)) && WellFormed(Arr(b))
    ensures SameValue(Arr(a), Arr(b)) <==> NormalizeItems(a) == NormalizeItems(b)
    decreases a
  {
    if |a| == |b| {
      forall i | 0 <= i < |a| ensures SameValue(a[i], b[i]) <==> NormalizeItems(a)[i] == NormalizeItems(b)[i] {
        SameNormalForm(a[i], b[i]);
      }
      if SameValue(Arr(a), Arr(b)) { assert NormalizeItems(a) == NormalizeItems(b); }
    }
  }

  lemma {:induction false} SameMembers(a: seq<Member<Json>>, b: seq<Member<Json>>)
    requires WellFormed(Obj(a)) && WellFormed(Obj(b))
    ensures SameValue(Obj(a), Obj(b)) <==> SortByKey(NormalizeMembers(a)) == SortByKey(NormalizeMembers(b))
    decreases a
  {
    var na, nb := NormalizeMembers(a), NormalizeMembers(b);
    forall i, j | 0 <= i < |a| && 0 <= j < |b|
      ensures a[i].key == b[j].key && SameValue(a[i].value, b[j].value) <==> na[i] == nb[j]
    {
      SameNormalForm(a[i].value, b[j].value);
    }
    SortForgetsOrder(na, nb);
    MatchingMembers(a, b, na, nb);
  }

  /** na and nb hold the normal forms of a and b. */
  ghost predicate NormalForms(a: seq<Member<Json>>, b: seq<Member<Json>>, na: seq<Member<Json>>,
                              nb: seq<Member<Json>>) {
    && |na| == |a| && |nb| == |b|
    && (forall i :: 0 <= i < |a| ==> na[i].key == a[i].key)
    && (forall j :: 0 <= j < |b| ==> nb[j].key == b[j].key)
    && (forall i, j :: 0 <= i < |a| && 0 <= j < |b| ==>
          (a[i].key == b[j].key && SameValue(a[i].value, b[j].value) <==> na[i] == nb[j]))
  }

  lemma MatchedIn(a: seq<Member<Json>>, b: seq<Member<Json>>, na: seq<Member<Json>>, nb: seq<Member<Json>>, i: nat)
    requires NormalForms(a, b, na, nb) && i < |a|
    ensures HasMatch(a[i], b) <==> na[i] in nb
  {
  }

  lemma SameThenMembers(a: seq<Member<Json>>, b: seq<Member<Json>>, na: seq<Member<Json>>, nb: seq<Member<Json>>)
    requires NormalForms(a, b, na, nb) && DistinctKeys(b)
    requires forall i :: 0 <= i < |a| ==> HasMatch(a[i], b)
    requires forall j :: 0 <= j < |b| ==> HasKey(b[j].key, a)
    ensures forall x :: x in na <==> x in nb
  {
    forall i | 0 <= i < |na| ensures na[i] in nb { MatchedIn(a, b, na, nb, i); }
    forall j | 0 <= j < |nb| ensures nb[j] in na {
      var i :| 0 <= i < |a| && a[i].key == b[j].key;
      MatchedIn(a, b, na, nb, i);
      var k :| 0 <= k < |nb| && nb[k] == na[i];
      assert k == j;
    }
  }

  lemma MembersThenSame(a: seq<Member<Json>>, b: seq<Member<Json>>, na: seq<Member<Json>>, nb: seq<Member<Json>>)
    requires NormalForms(a, b, na, nb)
    requires forall x :: x in na <==> x in nb
    ensures forall i :: 0 <= i < |a| ==> HasMatch(a[i], b)
    ensures forall j :: 0 <= j < |b| ==> HasKey(b[j].key, a)
  {
    forall i | 0 <= i < |a| ensures HasMatch(a[i], b) {
      assert na[i] in nb;
      MatchedIn(a, b, na, nb, i);
    }
    forall j | 0 <= j < |b| ensures HasKey(b[j].key, a) {
      assert nb[j] in na;
      var i :| 0 <= i < |na| && na[i] == nb[j];
      assert a[i].key == b[j].key;
    }
  }

  /** Member by member: the same members up to normal form, and no others. */
  lemma MatchingMembers(a: seq<Member<Json>>, b: seq<Member<Json>>, na: seq<Member<Json>>, nb: seq<Member<Json>>)
    requires NormalForms(a, b, na, nb) && DistinctKeys(b)
    ensures SameValue(Obj(a), Obj(b)) <==> (forall x :: x in na <==> x in nb)
  {
    if SameValue(Obj(a), Obj(b)) { SameThenMembers(a, b, na, nb); }
    if forall x :: x in na <==> x in nb { MembersThenSame(a, b, na, nb); }
  }

  /** Equal canonical texts, equal values: digest preimages are unambiguous and order-free. */
  lemma PrintDetermines(v: Json, w: Json)
    requires WellFormed(v) && WellFormed(w)
    ensures Print(v) == Print(w) <==> SameValue(v, w)
  {
    PrintRoundTrip(v);
    PrintRoundTrip(w);
    PrintIsWrite(v);
    PrintIsWrite(w);
    SameNormalForm(v, w);
  }
}
