/**
  The JSON text of a context pack on both sides of the process boundary: what
  toInjectionSafeCompactJson prints (packages/contracts/src/workspace.ts:372-401) and what Python's
  json.loads reads back (RFC 8259, section 7 for string escapes). Text is a sequence of Unicode code
  points in which a lone surrogate stands for itself, as in a Python str.
 */
module JsonText {
  import opened Wrappers
  import opened Decimals

  type CodePoint = c: int | 0 <= c <= 0x10FFFF

  type Text = seq<CodePoint>

  datatype Json =
    | Null
    | Bool(b: bool)
    | Number(n: nat)
    | Str(s: Text)
    | Array(items: seq<Json>)
    | Object(members: seq<Member>)

  datatype Member = Member(key: Text, value: Json)

  const QUOTE: CodePoint := 0x22
  const BACKSLASH: CodePoint := 0x5C
  const LOWER_U: CodePoint := 0x75

  function Chars(s: string): (t: Text)
    ensures |t| == |s|
    ensures forall i :: 0 <= i < |s| ==> t[i] == s[i] as int
  {
    seq(|s|, i requires 0 <= i < |s| => s[i] as int)
  }

  // ---------------------------------------------------------------------------------------------
  // Surrogates
  // ---------------------------------------------------------------------------------------------

  predicate High(c: int)
  {
    0xD800 <= c <= 0xDBFF
  }

  predicate Low(c: int)
  {
    0xDC00 <= c <= 0xDFFF
  }

  /** No high surrogate stands directly before a low one: the pair would have been one code point. */
  predicate Decoded(s: Text)
  {
    forall i :: 0 <= i < |s| - 1 ==> !(High(s[i]) && Low(s[i + 1]))
  }

  type CodeUnit = u: int | 0 <= u <= 0xFFFF

  function Combined(high: int, low: int): (c: CodePoint)
    requires High(high) && Low(low)
    ensures c >= 0x10000
  {
    0x10000 + (high - 0xD800) * 0x400 + (low - 0xDC00)
  }

  /** The code points of a JavaScript string. */
  function FromUtf16(units: seq<CodeUnit>): (s: Text)
    ensures Decoded(s)
    ensures s != [] && Low(s[0]) ==> units != [] && Low(units[0])
  {
    if units == [] then []
    else if |units| >= 2 && High(units[0]) && Low(units[1]) then [Combined(units[0], units[1])] + FromUtf16(units[2..])
    else [units[0]] + FromUtf16(units[1..])
  }

  /** UTF-16 of one code point (section 2.1 of RFC 2781). */
  function Units(c: CodePoint): (units: seq<CodeUnit>)
    ensures 1 <= |units| <= 2
  {
    if c < 0x10000 then [c] else [0xD800 + (c - 0x10000) / 0x400, 0xDC00 + (c - 0x10000) % 0x400]
  }

  function ToUtf16(s: Text): seq<CodeUnit>
  {
    if s == [] then [] else Units(s[0]) + ToUtf16(s[1..])
  }

  /** Surrogates are exactly the two halves of the code points above the first plane. */
  lemma PairRoundTrip(c: CodePoint, high: CodeUnit, low: CodeUnit)
    ensures c >= 0x10000 ==> High(Units(c)[0]) && Low(Units(c)[1]) && Combined(Units(c)[0], Units(c)[1]) == c
    ensures High(high) && Low(low) ==> Units(Combined(high, low)) == [high, low]
  {
  }

  /** Decoding loses nothing: every JavaScript string, with or without lone surrogates, is the UTF-16 of its code points. */
  lemma {:induction false} Utf16RoundTrip(units: seq<CodeUnit>)
    ensures ToUtf16(FromUtf16(units)) == units
    decreases |units|
  {
    var s := FromUtf16(units);
    if |units| >= 2 && High(units[0]) && Low(units[1]) {
      PairRoundTrip(0, units[0], units[1]);
      Utf16RoundTrip(units[2..]);
      assert s[1..] == FromUtf16(units[2..]);
      assert units == [units[0], units[1]] + units[2..];
    } else if units != [] {
      Utf16RoundTrip(units[1..]);
      assert s[1..] == FromUtf16(units[1..]);
      assert units == [units[0]] + units[1..];
    }
  }

  /** And every text without an undecoded pair is what its UTF-16 decodes to. */
  lemma {:induction false} DecodingIsInverse(s: Text)
    requires Decoded(s)
    ensures FromUtf16(ToUtf16(s)) == s
    ensures s != [] ==> ToUtf16(s) != [] && (Low(ToUtf16(s)[0]) <==> Low(s[0]))
  {
    if s != [] {
      assert forall i :: 0 <= i < |s[1..]| ==> s[1..][i] == s[i + 1];
      DecodingIsInverse(s[1..]);
      PairRoundTrip(s[0], 0, 0);
      var units, rest := ToUtf16(s), ToUtf16(s[1..]);
      assert units == Units(s[0]) + rest;
      assert s == [s[0]] + s[1..];
      if s[0] >= 0x10000 {
        assert units[2..] == rest;
      } else {
        assert units[1..] == rest;
      }
    }
  }

  // ---------------------------------------------------------------------------------------------
  // Printing
  // ---------------------------------------------------------------------------------------------

  function HexDigit(n: nat): (c: CodePoint)
    requires n < 16
  {
    if n < 10 then 0x30 + n else 0x61 + n - 10
  }

  function Hex4(n: nat): (t: Text)
    requires n < 0x10000
    ensures |t| == 4
  {
    [HexDigit(n / 0x1000), HexDigit(n / 0x100 % 16), HexDigit(n / 16 % 16), HexDigit(n % 16)]
  }

  function UnicodeEscape(c: CodePoint): (t: Text)
    requires c < 0x10000
    ensures |t| == 6
  {
    [BACKSLASH, LOWER_U] + Hex4(c)
  }

  /** The letter of a two-character escape. */
  function ShortEscape(c: CodePoint): Option<CodePoint>
  {
    match c
    case 0x08 => Some(0x62)
    case 0x09 => Some(0x74)
    case 0x0A => Some(0x6E)
    case 0x0C => Some(0x66)
    case 0x0D => Some(0x72)
    case 0x22 => Some(QUOTE)
    case 0x5C => Some(BACKSLASH)
    case _ => None
  }

  /** JSON.stringify of one code point inside a string. */
  function Escape(c: CodePoint): Text
  {
    if ShortEscape(c).Some? then [BACKSLASH, ShortEscape(c).value]
    else if c < 0x20 || High(c) || Low(c) then UnicodeEscape(c)
    else [c]
  }

  function EscapeAll(s: Text): Text
  {
    if s == [] then [] else Escape(s[0]) + EscapeAll(s[1..])
  }

  function Quote(s: Text): Text
  {
    [QUOTE] + EscapeAll(s) + [QUOTE]
  }

  /** JSON.stringify. */
  function Print(j: Json): Text
  {
    match j
    case Null => Chars("null")
    case Bool(b) => if b then Chars("true") else Chars("false")
    case Number(n) => Chars(Decimal(n))
    case Str(s) => Quote(s)
    case Array(items) => Chars("[") + PrintItems(items) + Chars("]")
    case Object(members) => Chars("{") + PrintMembers(members) + Chars("}")
  }

  function PrintItems(items: seq<Json>): Text
  {
    if items == [] then []
    else if |items| == 1 then Print(items[0])
    else Print(items[0]) + Chars(",") + PrintItems(items[1..])
  }

  function PrintMember(m: Member): Text
  {
    Quote(m.key) + Chars(":") + Print(m.value)
  }

  function PrintMembers(members: seq<Member>): Text
  {
    if members == [] then []
    else if |members| == 1 then PrintMember(members[0])
    else PrintMember(members[0]) + Chars(",") + PrintMembers(members[1..])
  }

  predicate UnicodeBreak(c: CodePoint)
  {
    c == 0x85 || c == 0x2028 || c == 0x2029
  }

  /** The three replaceAll calls: each separator becomes its six-character escape. */
  function EscapeBreaks(t: Text): Text
  {
    if t == [] then []
    else (if UnicodeBreak(t[0]) then UnicodeEscape(t[0]) else [t[0]]) + EscapeBreaks(t[1..])
  }

  function ToInjectionSafeCompactJson(j: Json): Text
  {
    EscapeBreaks(Print(j))
  }

  // ---------------------------------------------------------------------------------------------
  // Reading
  // ---------------------------------------------------------------------------------------------

  function HexValue(c: CodePoint): Option<nat>
  {
    if 0x30 <= c <= 0x39 then Some(c - 0x30)
    else if 0x61 <= c <= 0x66 then Some(c - 0x61 + 10)
    else if 0x41 <= c <= 0x46 then Some(c - 0x41 + 10)
    else None
  }

  function ReadHex4(t: Text): (r: Option<nat>)
    ensures r.Some? ==> |t| >= 4 && r.value < 0x10000
  {
    if |t| < 4 || HexValue(t[0]).None? || HexValue(t[1]).None? || HexValue(t[2]).None? || HexValue(t[3]).None? then None
    else
      Some(0x1000 * HexValue(t[0]).value + 0x100 * HexValue(t[1]).value + 16 * HexValue(t[2]).value
           + HexValue(t[3]).value)
  }

  function UnescapedLetter(c: CodePoint): Option<CodePoint>
  {
    match c
    case 0x22 => Some(QUOTE)
    case 0x5C => Some(BACKSLASH)
    case 0x2F => Some(0x2F)
    case 0x62 => Some(0x08)
    case 0x66 => Some(0x0C)
    case 0x6E => Some(0x0A)
    case 0x72 => Some(0x0D)
    case 0x74 => Some(0x09)
    case _ => None
  }

  /** What follows `\u`: a pair of surrogate escapes is one code point. */
  function ReadUnicode(t: Text): (r: Option<(CodePoint, Text)>)
    ensures r.Some? ==> |r.value.1| < |t|
  {
    if ReadHex4(t).None? then None
    else
      var u := ReadHex4(t).value;
      if High(u) && |t| >= 6 && t[4] == BACKSLASH && t[5] == LOWER_U then
        if ReadHex4(t[6..]).None? then None
        else if Low(ReadHex4(t[6..]).value) then Some((Combined(u, ReadHex4(t[6..]).value), t[10..]))
        else Some((u, t[4..]))
      else Some((u, t[4..]))
  }

  /** One character of a string literal, escaped or not; a raw control character is refused. */
  function ReadCharacter(t: Text): (r: Option<(CodePoint, Text)>)
    requires t != []
    ensures r.Some? ==> |r.value.1| < |t|
  {
    if t[0] == BACKSLASH then
      if |t| < 2 then None
      else if t[1] == LOWER_U then ReadUnicode(t[2..])
      else if UnescapedLetter(t[1]).Some? then Some((UnescapedLetter(t[1]).value, t[2..]))
      else None
    else if t[0] < 0x20 then None
    else Some((t[0], t[1..]))
  }

  /** The rest of a string literal after its opening quote. */
  function ReadString(t: Text): (r: Option<(Text, Text)>)
    ensures r.Some? ==> |r.value.1| < |t|
    decreases |t|
  {
    if t == [] then None
    else if t[0] == QUOTE then Some(([], t[1..]))
    else
      match ReadCharacter(t)
      case None => None
      case Some((c, rest)) =>
        match ReadString(rest)
        case None => None
        case Some((s, after)) => Some(([c] + s, after))
  }

  predicate Space(c: CodePoint)
  {
    c == 0x20 || c == 0x09 || c == 0x0A || c == 0x0D
  }

  function SkipSpace(t: Text): (r: Text)
    ensures |r| <= |t|
  {
    if t != [] && Space(t[0]) then SkipSpace(t[1..]) else t
  }

  predicate DigitPoint(c: CodePoint)
  {
    0x30 <= c <= 0x39
  }

  /** The longest run of digits. */
  function Digits(t: Text): (s: string)
    ensures AllDigits(s) && |s| <= |t|
    ensures t != [] && DigitPoint(t[0]) ==> s != ""
  {
    if t != [] && DigitPoint(t[0]) then [t[0] as char] + Digits(t[1..]) else ""
  }

  function ReadNumber(t: Text): (r: Option<(Json, Text)>)
    requires t != [] && DigitPoint(t[0])
    ensures r.Some? ==> |r.value.1| < |t|
  {
    var digits := if t[0] == 0x30 then "0" else Digits(t);
    Some((Number(Value(digits)), t[|digits|..]))
  }

  function ReadWord(t: Text, word: string, j: Json): (r: Option<(Json, Text)>)
    requires word != ""
    ensures r.Some? ==> |r.value.1| < |t|
  {
    if Chars(word) <= t then Some((j, t[|word|..])) else None
  }

  /** `scan_once`; numbers other than non-negative integers are not part of this model. */
  function Read(t: Text): (r: Option<(Json, Text)>)
    ensures r.Some? ==> |r.value.1| < |t|
    decreases |t|, 0
  {
    if t == [] then None
    else if t[0] == QUOTE then
      match ReadString(t[1..]) case None => None case Some((s, rest)) => Some((Str(s), rest))
    else if t[0] == 0x7B then
      var body := SkipSpace(t[1..]);
      if body != [] && body[0] == 0x7D then Some((Object([]), body[1..]))
      else (match ReadMembers(body) case None => None case Some((members, rest)) => Some((Object(members), rest)))
    else if t[0] == 0x5B then
      var body := SkipSpace(t[1..]);
      if body != [] && body[0] == 0x5D then Some((Array([]), body[1..]))
      else (match ReadItems(body) case None => None case Some((items, rest)) => Some((Array(items), rest)))
    else if t[0] == 0x6E then ReadWord(t, "null", Null)
    else if t[0] == 0x74 then ReadWord(t, "true", Bool(true))
    else if t[0] == 0x66 then ReadWord(t, "false", Bool(false))
    else if DigitPoint(t[0]) then ReadNumber(t)
    else None
  }

  /** The items of a non-empty array up to and including its closing bracket. */
  function ReadItems(t: Text): (r: Option<(seq<Json>, Text)>)
    ensures r.Some? ==> |r.value.1| < |t|
    decreases |t|, 1
  {
    match Read(t)
    case None => None
    case Some((item, rest)) =>
      var after := SkipSpace(rest);
      if after == [] then None
      else if after[0] == 0x5D then Some(([item], after[1..]))
      else if after[0] == 0x2C then
        match ReadItems(SkipSpace(after[1..]))
        case None => None
        case Some((items, end)) => Some(([item] + items, end))
      else None
  }

  /** One key, its colon and its value. */
  function ReadMember(t: Text): (r: Option<(Member, Text)>)
    ensures r.Some? ==> |r.value.1| < |t|
    decreases |t|, 1
  {
    if t == [] || t[0] != QUOTE then None
    else
      match ReadString(t[1..])
      case None => None
      case Some((key, rest)) =>
        var colon := SkipSpace(rest);
        if colon == [] || colon[0] != 0x3A then None
        else
          match Read(SkipSpace(colon[1..]))
          case None => None
          case Some((value, after)) => Some((Member(key, value), after))
  }

  function ReadMembers(t: Text): (r: Option<(seq<Member>, Text)>)
    ensures r.Some? ==> |r.value.1| < |t|
    decreases |t|, 2
  {
    match ReadMember(t)
    case None => None
    case Some((member, rest)) =>
      var after := SkipSpace(rest);
      if after == [] then None
      else if after[0] == 0x7D then Some(([member], after[1..]))
      else if after[0] == 0x2C then
        match ReadMembers(SkipSpace(after[1..]))
        case None => None
        case Some((members, end)) => Some(([member] + members, end))
      else None
  }

  /** `json.loads`. */
  function Loads(t: Text): Option<Json>
  {
    match Read(SkipSpace(t))
    case None => None
    case Some((j, rest)) => if SkipSpace(rest) == [] then Some(j) else None
  }

  // ---------------------------------------------------------------------------------------------
  // Escapes
  // ---------------------------------------------------------------------------------------------

  /** The printer uses exactly the two-character escapes of section 7 of RFC 8259, but for the solidus. */
  lemma ShortEscapesAreAll(c: CodePoint, letter: CodePoint)
    ensures ShortEscape(c) == Some(letter) <==> UnescapedLetter(letter) == Some(c) && letter != 0x2F
  {
  }

  /** Hexadecimal digits are read in either case, and nothing else is one. */
  lemma HexDigits(n: nat, c: CodePoint)
    requires n < 16
    ensures HexValue(c) == Some(n) <==> c == HexDigit(n) || (n >= 10 && c == HexDigit(n) - 0x20)
    ensures HexValue(c).Some? ==> HexValue(c).value < 16
  {
  }
}
