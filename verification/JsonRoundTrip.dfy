/**
  Reading back what was printed: json.loads after toInjectionSafeCompactJson is the identity on every
  value whose strings are decoded UTF-16, whatever its strings contain.
 */
module JsonRoundTrip {
  import opened Wrappers
  import opened Decimals
  import opened JsonText

  // ---------------------------------------------------------------------------------------------
  // Characters
  // ---------------------------------------------------------------------------------------------

  lemma HexDigitRoundTrip(n: nat)
    requires n < 16
    ensures HexValue(HexDigit(n)) == Some(n)
  {
  }

  lemma Nibbles(n: nat)
    requires n < 0x10000
    ensures n / 0x1000 < 16
    ensures 0x1000 * (n / 0x1000) + 0x100 * (n / 0x100 % 16) + 16 * (n / 16 % 16) + n % 16 == n
  {
    var a, b, c := n / 16, n / 0x100, n / 0x1000;
    assert n == 16 * a + n % 16;
    assert b == a / 16 && a == 16 * b + a % 16;
    assert c == b / 16 && b == 16 * c + b % 16;
  }

  lemma HexRoundTrip(n: nat, rest: Text)
    requires n < 0x10000
    ensures ReadHex4(Hex4(n) + rest) == Some(n)
  {
    hide HexDigit, HexValue;
    Nibbles(n);
    HexDigitRoundTrip(n / 0x1000);
    HexDigitRoundTrip(n / 0x100 % 16);
    HexDigitRoundTrip(n / 16 % 16);
    HexDigitRoundTrip(n % 16);
    var t := Hex4(n) + rest;
    assert t[0] == HexDigit(n / 0x1000) && t[1] == HexDigit(n / 0x100 % 16);
    assert t[2] == HexDigit(n / 16 % 16) && t[3] == HexDigit(n % 16);
  }

  lemma PairIsRead(high: CodeUnit, low: CodeUnit, rest: Text)
    requires High(high) && Low(low)
    ensures ReadUnicode(Hex4(high) + ([BACKSLASH, LOWER_U] + (Hex4(low) + rest))) == Some((Combined(high, low), rest))
  {
    hide Hex4, ReadHex4, High, Low, Combined;
    var second := [BACKSLASH, LOWER_U] + (Hex4(low) + rest);
    var t := Hex4(high) + second;
    HexRoundTrip(high, second);
    HexRoundTrip(low, rest);
    assert t[4] == second[0] && t[5] == second[1];
    assert t[6..] == Hex4(low) + rest;
    assert t[10..] == rest;
  }

  /** The escapes of the two halves of a code point, one behind the other, are read as that code point. */
  lemma EscapedPairIsOne(c: CodePoint, rest: Text)
    requires c >= 0x10000
    ensures ReadCharacter(UnicodeEscape(Units(c)[0]) + (UnicodeEscape(Units(c)[1]) + rest)) == Some((c, rest))
  {
    PairRoundTrip(c, 0, 0);
    hide Hex4, ReadUnicode, High, Low, Combined, Units;
    var high, low := Units(c)[0], Units(c)[1];
    var t := UnicodeEscape(high) + (UnicodeEscape(low) + rest);
    PairIsRead(high, low, rest);
    assert t[0] == BACKSLASH && t[1] == LOWER_U;
    assert t[2..] == Hex4(high) + ([BACKSLASH, LOWER_U] + (Hex4(low) + rest));
  }

  /** One code point of a string in the printed text. */
  function Emit(c: CodePoint): Text
  {
    if UnicodeBreak(c) then UnicodeEscape(c) else Escape(c)
  }

  function EmitAll(s: Text): Text
  {
    if s == [] then [] else Emit(s[0]) + EmitAll(s[1..])
  }

  /** `rest` does not begin with the escape of a low surrogate. */
  predicate NoLowEscape(rest: Text)
  {
    |rest| >= 2 && rest[0] == BACKSLASH && rest[1] == LOWER_U ==>
      ReadHex4(rest[2..]).Some? && !Low(ReadHex4(rest[2..]).value)
  }

  lemma UnicodeRoundTrip(c: CodePoint, rest: Text)
    requires c < 0x10000 && (High(c) ==> NoLowEscape(rest))
    ensures ReadCharacter(UnicodeEscape(c) + rest) == Some((c, rest))
  {
    hide Hex4, ReadHex4, High, Low, Combined;
    var t := UnicodeEscape(c) + rest;
    HexRoundTrip(c, rest);
    assert t[2..] == Hex4(c) + rest;
    assert t[2..][4..] == rest;
    if |rest| >= 2 { assert t[2..][6..] == rest[2..] && t[2..][4] == rest[0] && t[2..][5] == rest[1]; }
  }

  lemma CharacterRoundTrip(c: CodePoint, rest: Text)
    requires High(c) ==> NoLowEscape(rest)
    ensures Emit(c) != [] && (Emit(c) + rest)[0] != QUOTE
    ensures ReadCharacter(Emit(c) + rest) == Some((c, rest))
  {
    hide ReadUnicode, Hex4, NoLowEscape;
    if UnicodeBreak(c) || (ShortEscape(c).None? && (c < 0x20 || High(c) || Low(c))) {
      UnicodeRoundTrip(c, rest);
    } else {
      var t := Emit(c) + rest;
      if ShortEscape(c).Some? {
        assert t[0] == BACKSLASH && t[1] == ShortEscape(c).value && t[2..] == rest;
      } else {
        assert t[0] == c && t[1..] == rest;
      }
    }
  }

  /** A character that is not a low surrogate never begins with the escape of one. */
  lemma EmittedIsNoLow(c: CodePoint, rest: Text)
    requires !Low(c)
    ensures NoLowEscape(Emit(c) + rest)
  {
    hide Hex4, ReadHex4;
    var t := Emit(c) + rest;
    if UnicodeBreak(c) || (ShortEscape(c).None? && (c < 0x20 || High(c))) {
      HexRoundTrip(c, rest);
      assert t[2..] == Hex4(c) + rest;
    } else if ShortEscape(c).Some? {
      assert t[1] == ShortEscape(c).value;
    } else {
      assert t[0] == c;
    }
  }

  lemma {:induction false} StringRoundTrip(s: Text, rest: Text)
    requires Decoded(s)
    ensures ReadString(EmitAll(s) + [QUOTE] + rest) == Some((s, rest))
    decreases |s|
  {
    hide Emit, ReadCharacter, NoLowEscape;
    var t := EmitAll(s) + [QUOTE] + rest;
    if s == [] {
      assert t[0] == QUOTE && t[1..] == rest;
    } else {
      var tail := EmitAll(s[1..]) + [QUOTE] + rest;
      assert t == Emit(s[0]) + tail;
      if High(s[0]) { TailIsNoLow(s[1..], rest); }
      CharacterRoundTrip(s[0], tail);
      StringRoundTrip(s[1..], rest);
      assert [s[0]] + s[1..] == s;
    }
  }

  lemma TailIsNoLow(s: Text, rest: Text)
    requires s != [] ==> !Low(s[0])
    ensures NoLowEscape(EmitAll(s) + [QUOTE] + rest)
  {
    hide Emit, ReadHex4;
    var t := EmitAll(s) + [QUOTE] + rest;
    if s == [] {
      assert t[0] == QUOTE;
    } else {
      assert t == Emit(s[0]) + (EmitAll(s[1..]) + [QUOTE] + rest);
      EmittedIsNoLow(s[0], EmitAll(s[1..]) + [QUOTE] + rest);
    }
  }

  // ---------------------------------------------------------------------------------------------
  // The separators
  // ---------------------------------------------------------------------------------------------

  lemma {:induction false} BreaksDistribute(a: Text, b: Text)
    ensures EscapeBreaks(a + b) == EscapeBreaks(a) + EscapeBreaks(b)
    decreases |a|
  {
    if a == [] {
      assert a + b == b;
    } else {
      assert (a + b)[1..] == a[1..] + b;
      BreaksDistribute(a[1..], b);
    }
  }

  lemma {:induction false} NothingToBreak(t: Text)
    requires forall c :: c in t ==> !UnicodeBreak(c)
    ensures EscapeBreaks(t) == t
    decreases |t|
  {
    if t != [] { NothingToBreak(t[1..]); }
  }

  lemma EmitIsEscaped(c: CodePoint)
    ensures EscapeBreaks(Escape(c)) == Emit(c)
  {
    if UnicodeBreak(c) {
      assert Escape(c) == [c];
      assert EscapeBreaks([c]) == UnicodeEscape(c) + EscapeBreaks([]);
    } else {
      NothingToBreak(Escape(c));
    }
  }

  lemma {:induction false} EmitAllIsEscaped(s: Text)
    ensures EscapeBreaks(EscapeAll(s)) == EmitAll(s)
    decreases |s|
  {
    hide Escape, Emit;
    if s != [] {
      BreaksDistribute(Escape(s[0]), EscapeAll(s[1..]));
      EmitIsEscaped(s[0]);
      EmitAllIsEscaped(s[1..]);
    }
  }

  lemma QuoteIsEscaped(s: Text)
    ensures EscapeBreaks(Quote(s)) == [QUOTE] + EmitAll(s) + [QUOTE]
  {
    EmitAllIsEscaped(s);
    NothingToBreak([QUOTE]);
    BreaksDistribute([QUOTE] + EscapeAll(s), [QUOTE]);
    BreaksDistribute([QUOTE], EscapeAll(s));
  }

  lemma Around(open: string, t: Text, close: string)
    requires |open| == 1 && |close| == 1 && open[0] as int < 0x80 && close[0] as int < 0x80
    ensures EscapeBreaks(Chars(open) + t + Chars(close)) == [open[0] as int] + EscapeBreaks(t) + [close[0] as int]
  {
    NothingToBreak(Chars(open));
    NothingToBreak(Chars(close));
    BreaksDistribute(Chars(open) + t, Chars(close));
    BreaksDistribute(Chars(open), t);
    assert Chars(open) == [open[0] as int] && Chars(close) == [close[0] as int];
  }

  lemma Between(a: Text, mark: string, b: Text)
    requires |mark| == 1 && mark[0] as int < 0x80
    ensures EscapeBreaks(a + Chars(mark) + b) == EscapeBreaks(a) + [mark[0] as int] + EscapeBreaks(b)
  {
    NothingToBreak(Chars(mark));
    BreaksDistribute(a + Chars(mark), b);
    BreaksDistribute(a, Chars(mark));
    assert Chars(mark) == [mark[0] as int];
  }

  // ---------------------------------------------------------------------------------------------
  // Values
  // ---------------------------------------------------------------------------------------------

  /** Every string and key is decoded UTF-16. */
  predicate WellFormed(j: Json)
  {
    match j
    case Str(s) => Decoded(s)
    case Array(items) => forall i :: 0 <= i < |items| ==> WellFormed(items[i])
    case Object(members) => forall i :: 0 <= i < |members| ==> Decoded(members[i].key) && WellFormed(members[i].value)
    case _ => true
  }

  function Safe(j: Json): Text
  {
    ToInjectionSafeCompactJson(j)
  }

  /** What can follow a value inside a document. */
  predicate EndsValue(rest: Text)
  {
    rest != [] ==> rest[0] == 0x2C || rest[0] == 0x5D || rest[0] == 0x7D
  }

  lemma {:induction false} DigitsRoundTrip(s: string, rest: Text)
    requires AllDigits(s) && (rest != [] ==> !DigitPoint(rest[0]))
    ensures Digits(Chars(s) + rest) == s
    decreases |s|
  {
    var t := Chars(s) + rest;
    if s == "" {
      assert t == rest;
    } else {
      assert t[1..] == Chars(s[1..]) + rest;
      DigitsRoundTrip(s[1..], rest);
      assert [s[0]] + s[1..] == s;
    }
  }

  lemma DigitsAreRead(s: string, rest: Text)
    requires Canonical(s) && (rest != [] ==> !DigitPoint(rest[0]))
    ensures DigitPoint((Chars(s) + rest)[0])
    ensures ReadNumber(Chars(s) + rest) == Some((Number(Value(s)), rest))
  {
    hide Value, Digits;
    var t := Chars(s) + rest;
    DigitsRoundTrip(s, rest);
    assert t[0] == s[0] as int && t[|s|..] == rest;
  }

  lemma NumberIsPrinted(n: nat)
    ensures Safe(Number(n)) == Chars(Decimal(n))
  {
    hide Decimal, EscapeBreaks;
    NothingToBreak(Chars(Decimal(n)));
  }

  lemma NumberRoundTrip(n: nat, rest: Text)
    requires EndsValue(rest)
    ensures Read(Safe(Number(n)) + rest) == Some((Number(n), rest))
  {
    hide Decimal, Value, Safe, ReadNumber, ReadString, ReadItems, ReadMembers, ReadWord;
    DecimalRoundTrip(n);
    NumberIsPrinted(n);
    DigitsAreRead(Decimal(n), rest);
  }

  predicate IsWord(word: string, j: Json)
  {
    (word == "null" && j == Null) || (word == "true" && j == Bool(true)) || (word == "false" && j == Bool(false))
  }

  lemma WordIsPrinted(word: string, j: Json)
    requires IsWord(word, j)
    ensures Safe(j) == Chars(word)
  {
    hide EscapeBreaks;
    forall c | c in Chars(word) ensures !UnicodeBreak(c) {}
    NothingToBreak(Chars(word));
  }

  lemma WordIsRead(t: Text, word: string, j: Json, rest: Text)
    requires word != "" && t == Chars(word) + rest
    ensures ReadWord(t, word, j) == Some((j, rest))
  {
    assert t[|word|..] == rest && t[..|word|] == Chars(word);
  }

  lemma WordRoundTrip(word: string, j: Json, rest: Text)
    requires IsWord(word, j)
    ensures Read(Safe(j) + rest) == Some((j, rest))
  {
    hide Safe, ReadWord, ReadString, ReadItems, ReadMembers, ReadNumber;
    WordIsPrinted(word, j);
    var t := Chars(word) + rest;
    WordIsRead(t, word, j, rest);
    assert t[0] == word[0] as int;
  }

  /** Printed values begin with neither white space nor a closing bracket. */
  lemma FirstCharacter(j: Json)
    ensures Safe(j) != [] && !Space(Safe(j)[0]) && Safe(j)[0] != 0x5D && Safe(j)[0] != 0x7D
  {
    hide EmitAll, PrintItems, PrintMembers;
    match j
    case Null => assert Chars("null")[0] == 0x6E; FirstOf(Chars("null"));
    case Bool(b) =>
      assert Chars("true")[0] == 0x74 && Chars("false")[0] == 0x66;
      FirstOf(if b then Chars("true") else Chars("false"));
    case Number(n) =>
      DecimalRoundTrip(n);
      FirstOf(Chars(Decimal(n)));
    case Str(s) => QuoteIsEscaped(s);
    case Array(items) => Around("[", PrintItems(items), "]");
    case Object(members) => Around("{", PrintMembers(members), "}");
  }

  lemma FirstOf(t: Text)
    requires t != [] && !UnicodeBreak(t[0])
    ensures EscapeBreaks(t) != [] && EscapeBreaks(t)[0] == t[0]
  {
  }

  lemma NoSpace(t: Text)
    requires t != [] ==> !Space(t[0])
    ensures SkipSpace(t) == t
  {
  }

  lemma StrRoundTrip(s: Text, rest: Text)
    requires Decoded(s)
    ensures Read(Safe(Str(s)) + rest) == Some((Str(s), rest))
  {
    hide EmitAll, ReadString;
    QuoteIsEscaped(s);
    StringRoundTrip(s, rest);
    var t := Safe(Str(s)) + rest;
    assert t[0] == QUOTE && t[1..] == EmitAll(s) + [QUOTE] + rest;
  }

  /** Any printed value followed by whatever may follow a value is read back, and the rest is left. */
  lemma {:induction false} ValueRoundTrip(j: Json, rest: Text)
    requires WellFormed(j) && EndsValue(rest)
    ensures Read(Safe(j) + rest) == Some((j, rest))
    decreases j, 1
  {
    match j
    case Null => WordRoundTrip("null", j, rest);
    case Bool(b) => WordRoundTrip(if b then "true" else "false", j, rest);
    case Number(n) => NumberRoundTrip(n, rest);
    case Str(s) => StrRoundTrip(s, rest);
    case Array(items) => ArrayRoundTrip(items, rest);
    case Object(members) => ObjectRoundTrip(members, rest);
  }

  lemma {:induction false} ArrayRoundTrip(items: seq<Json>, rest: Text)
    requires forall i :: 0 <= i < |items| ==> WellFormed(items[i])
    ensures Read(Safe(Array(items)) + rest) == Some((Array(items), rest))
    decreases items, 2
  {
    hide PrintItems, ReadItems, WellFormed;
    Around("[", PrintItems(items), "]");
    var t := Safe(Array(items)) + rest;
    var body := EscapeBreaks(PrintItems(items)) + [0x5D] + rest;
    assert t[0] == 0x5B && t[1..] == body;
    if items == [] {
      assert PrintItems(items) == [] by { NoItems(); }
      assert body[0] == 0x5D && body[1..] == rest;
      NoSpace(body);
    } else {
      ItemsStart(items);
      NoSpace(body);
      ItemsRoundTrip(items, rest);
    }
  }

  lemma NoItems()
    ensures PrintItems([]) == [] && PrintMembers([]) == []
  {
  }

  lemma ItemsStart(items: seq<Json>)
    requires items != []
    ensures var t := EscapeBreaks(PrintItems(items)); t != [] && !Space(t[0]) && t[0] != 0x5D
  {
    hide Print, Space;
    FirstCharacter(items[0]);
    if |items| > 1 { Between(Print(items[0]), ",", PrintItems(items[1..])); }
  }

  lemma {:induction false} ItemsRoundTrip(items: seq<Json>, rest: Text)
    requires items != [] && forall i :: 0 <= i < |items| ==> WellFormed(items[i])
    ensures ReadItems(EscapeBreaks(PrintItems(items)) + [0x5D] + rest) == Some((items, rest))
    decreases items, 1
  {
    hide Read, Print, WellFormed;
    var t := EscapeBreaks(PrintItems(items)) + [0x5D] + rest;
    if |items| == 1 {
      var after := [0x5D] + rest;
      assert t == Safe(items[0]) + after;
      ValueRoundTrip(items[0], after);
      NoSpace(after);
      assert after[1..] == rest && items == [items[0]];
    } else {
      var tail := EscapeBreaks(PrintItems(items[1..])) + [0x5D] + rest;
      var after := [0x2C] + tail;
      Between(Print(items[0]), ",", PrintItems(items[1..]));
      assert t == Safe(items[0]) + after;
      ValueRoundTrip(items[0], after);
      NoSpace(after);
      assert after[1..] == tail;
      ItemsStart(items[1..]);
      NoSpace(tail);
      ItemsRoundTrip(items[1..], rest);
      assert [items[0]] + items[1..] == items;
    }
  }

  lemma {:induction false} ObjectRoundTrip(members: seq<Member>, rest: Text)
    requires forall i :: 0 <= i < |members| ==> Decoded(members[i].key) && WellFormed(members[i].value)
    ensures Read(Safe(Object(members)) + rest) == Some((Object(members), rest))
    decreases members, 2
  {
    hide PrintMembers, ReadMembers, WellFormed;
    Around("{", PrintMembers(members), "}");
    var t := Safe(Object(members)) + rest;
    var body := EscapeBreaks(PrintMembers(members)) + [0x7D] + rest;
    assert t[0] == 0x7B && t[1..] == body;
    if members == [] {
      assert PrintMembers(members) == [] by { NoItems(); }
      assert body[0] == 0x7D && body[1..] == rest;
      NoSpace(body);
    } else {
      MembersStart(members);
      NoSpace(body);
      MembersRoundTrip(members, rest);
    }
  }

  lemma MemberText(m: Member)
    ensures EscapeBreaks(PrintMember(m)) == [QUOTE] + EmitAll(m.key) + [QUOTE] + [0x3A] + Safe(m.value)
  {
    hide Print, EmitAll;
    Between(Quote(m.key), ":", Print(m.value));
    QuoteIsEscaped(m.key);
  }

  lemma MembersStart(members: seq<Member>)
    requires members != []
    ensures var t := EscapeBreaks(PrintMembers(members)); t != [] && !Space(t[0]) && t[0] != 0x7D
  {
    hide PrintMember, Space, EmitAll;
    MemberText(members[0]);
    if |members| > 1 { Between(PrintMember(members[0]), ",", PrintMembers(members[1..])); }
    assert !Space(QUOTE) by { QuoteIsNoSpace(); }
  }

  lemma QuoteIsNoSpace()
    ensures !Space(QUOTE)
  {
  }

  lemma {:induction false} MemberRoundTrip(m: Member, rest: Text)
    requires Decoded(m.key) && WellFormed(m.value) && EndsValue(rest)
    ensures ReadMember(EscapeBreaks(PrintMember(m)) + rest) == Some((m, rest))
    decreases m, 2
  {
    hide Print, Read, ReadString, PrintMember, EmitAll, WellFormed, Space;
    MemberText(m);
    var t := EscapeBreaks(PrintMember(m)) + rest;
    var colon := [0x3A] + Safe(m.value) + rest;
    assert t[0] == QUOTE && t[1..] == EmitAll(m.key) + [QUOTE] + colon;
    StringRoundTrip(m.key, colon);
    assert !Space(colon[0]) by { ColonIsNoSpace(); }
    NoSpace(colon);
    assert colon[1..] == Safe(m.value) + rest;
    FirstCharacter(m.value);
    NoSpace(Safe(m.value) + rest);
    ValueRoundTrip(m.value, rest);
  }

  lemma ColonIsNoSpace()
    ensures !Space(0x3A)
  {
  }

  lemma {:induction false} MembersRoundTrip(members: seq<Member>, rest: Text)
    requires members != []
    requires forall i :: 0 <= i < |members| ==> Decoded(members[i].key) && WellFormed(members[i].value)
    ensures ReadMembers(EscapeBreaks(PrintMembers(members)) + [0x7D] + rest) == Some((members, rest))
    decreases members, 1
  {
    hide ReadMember, PrintMember, WellFormed;
    var t := EscapeBreaks(PrintMembers(members)) + [0x7D] + rest;
    if |members| == 1 {
      var after := [0x7D] + rest;
      assert t == EscapeBreaks(PrintMember(members[0])) + after;
      MemberRoundTrip(members[0], after);
      NoSpace(after);
      assert after[1..] == rest && members == [members[0]];
    } else {
      var tail := EscapeBreaks(PrintMembers(members[1..])) + [0x7D] + rest;
      var after := [0x2C] + tail;
      Between(PrintMember(members[0]), ",", PrintMembers(members[1..]));
      assert t == EscapeBreaks(PrintMember(members[0])) + after;
      MemberRoundTrip(members[0], after);
      NoSpace(after);
      assert after[1..] == tail;
      MembersStart(members[1..]);
      NoSpace(tail);
      MembersRoundTrip(members[1..], rest);
      assert [members[0]] + members[1..] == members;
    }
  }

  /** Every value survives printing and reading, whatever code points its strings hold. */
  lemma LoadsPrinted(j: Json)
    requires WellFormed(j)
    ensures Loads(ToInjectionSafeCompactJson(j)) == Some(j)
  {
    hide Read, Print, WellFormed, EscapeBreaks;
    var t := ToInjectionSafeCompactJson(j);
    FirstCharacter(j);
    NoSpace(t);
    ValueRoundTrip(j, []);
    assert t + [] == t;
    NoSpace([]);
  }
}
