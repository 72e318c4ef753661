/** `JSON.stringify` and `JSON.parse` (ECMA-262 sections 25.5.2 and 25.5.1) restricted to
    arrays of strings, the only JSON the wallet record stores. */
module JsonStringList {
  import opened Wrappers
  import opened JsNumber

  /** How `JSON.stringify` writes one character inside a string literal. */
  function EscapeChar(c: char): (e: string)
    ensures 1 <= |e| <= 6
  {
    if c == '"' then "\\\""
    else if c == '\\' then "\\\\"
    else if c as int == 0x08 then "\\b"
    else if c as int == 0x0C then "\\f"
    else if c == '\n' then "\\n"
    else if c == '\r' then "\\r"
    else if c == '\t' then "\\t"
    else if c as int < 0x20 then "\\u00" + [DigitChar(c as int / 16), DigitChar(c as int % 16)]
    else [c]
  }

  function EscapeString(s: string): string {
    if s == [] then [] else EscapeChar(s[0]) + EscapeString(s[1..])
  }

  /** `JSON.stringify(s)` for a string. */
  function Quote(s: string): string {
    "\"" + EscapeString(s) + "\""
  }

  function EncodeElements(xs: seq<string>): string {
    if xs == [] then ""
    else if |xs| == 1 then Quote(xs[0])
    else Quote(xs[0]) + "," + EncodeElements(xs[1..])
  }

  /** `JSON.stringify(xs)` for an array of strings. */
  function Encode(xs: seq<string>): string {
    "[" + EncodeElements(xs) + "]"
  }

  /** JSON whitespace. */
  predicate IsJsonWhiteSpace(c: char) {
    c == ' ' || c == '\t' || c == '\n' || c == '\r'
  }

  function SkipWhiteSpace(s: string): (r: string)
    ensures |r| <= |s|
  {
    if |s| > 0 && IsJsonWhiteSpace(s[0]) then SkipWhiteSpace(s[1..]) else s
  }

  /** The character an escape sequence stands for (`s` follows the backslash) and the
      number of characters it takes after the backslash. */
  function Unescape(s: string): (r: Option<(char, nat)>)
    ensures r.Some? ==> 1 <= r.value.1 <= |s|
  {
    if |s| == 0 then None
    else if s[0] == '"' || s[0] == '\\' || s[0] == '/' then Some((s[0], 1))
    else if s[0] == 'b' then Some((0x08 as char, 1))
    else if s[0] == 'f' then Some((0x0C as char, 1))
    else if s[0] == 'n' then Some(('\n', 1))
    else if s[0] == 'r' then Some(('\r', 1))
    else if s[0] == 't' then Some(('\t', 1))
    else if s[0] == 'u' && |s| >= 5 && IsHexQuad(s[1..5]) then
      var v := HexQuadValue(s[1..5]);
      if v < 0xD800 || 0xE000 <= v then Some((v as char, 5))
      else if v < 0xDC00 && |s| >= 11 && s[5] == '\\' && s[6] == 'u' && IsHexQuad(s[7..11])
              && 0xDC00 <= HexQuadValue(s[7..11]) < 0xE000 then
        // a high surrogate escape followed by a low one: one supplementary code point
        var w := HexQuadValue(s[7..11]);
        Some(((0x10000 + (v - 0xD800) * 0x400 + (w - 0xDC00)) as char, 11))
      else None
    else None
  }

  /** Four hexadecimal digits, of either case. */
  predicate IsHexQuad(q: string) {
    |q| == 4 && forall i :: 0 <= i < 4 ==> IsDigit(q[i], 16)
  }

  function HexQuadValue(q: string): (v: nat)
    requires IsHexQuad(q)
    ensures v < 0x10000
  {
    ((DigitValue(q[0]) * 16 + DigitValue(q[1])) * 16 + DigitValue(q[2])) * 16 + DigitValue(q[3])
  }

  /** Reads the body of a string literal up to its closing quote; gives the string and the
      input after the quote. */
  function ParseStringBody(s: string): (r: Option<(string, string)>)
    ensures r.Some? ==> |r.value.1| < |s|
    decreases |s|
  {
    if |s| == 0 then None
    else if s[0] == '"' then Some(([], s[1..]))
    else if s[0] == '\\' then
      match Unescape(s[1..])
      case None => None
      case Some((c, n)) =>
        match ParseStringBody(s[1 + n..])
        case None => None
        case Some((t, rest)) => Some(([c] + t, rest))
    else if s[0] as int < 0x20 then None
    else
      match ParseStringBody(s[1..])
      case None => None
      case Some((t, rest)) => Some(([s[0]] + t, rest))
  }

  function ParseString(s: string): (r: Option<(string, string)>)
    ensures r.Some? ==> |r.value.1| < |s|
  {
    if |s| > 0 && s[0] == '"' then ParseStringBody(s[1..]) else None
  }

  /** Reads `string (, string)* ]` and gives the strings and the input after the bracket. */
  function ParseElements(s: string): (r: Option<(seq<string>, string)>)
    ensures r.Some? ==> |r.value.1| < |s|
    decreases |s|
  {
    match ParseString(s)
    case None => None
    case Some((x, rest)) =>
      var t := SkipWhiteSpace(rest);
      if |t| > 0 && t[0] == ',' then
        match ParseElements(SkipWhiteSpace(t[1..]))
        case None => None
        case Some((xs, after)) => Some(([x] + xs, after))
      else if |t| > 0 && t[0] == ']' then Some(([x], t[1..]))
      else None
  }

  /** `JSON.parse(s)` when `s` is the text of an array of strings; `None` for any other text. */
  function Decode(s: string): Option<seq<string>> {
    var t := SkipWhiteSpace(s);
    if |t| == 0 || t[0] != '[' then None
    else
      var u := SkipWhiteSpace(t[1..]);
      if |u| > 0 && u[0] == ']' then
        if SkipWhiteSpace(u[1..]) == [] then Some([]) else None
      else
        match ParseElements(u)
        case None => None
        case Some((xs, after)) => if SkipWhiteSpace(after) == [] then Some(xs) else None
  }

  /** A control character written as `\u00XX` reads back as that character. */
  lemma UnescapeOfControl(c: char, tail: string)
    requires c as int < 0x20
    ensures Unescape(['u', '0', '0', DigitChar(c as int / 16), DigitChar(c as int % 16)] + tail) == Some((c, 5))
  {
    var hi, lo := c as int / 16, c as int % 16;
    var s := ['u', '0', '0', DigitChar(hi), DigitChar(lo)] + tail;
    assert s[1..5] == ['0', '0', DigitChar(hi), DigitChar(lo)];
    assert IsHexQuad(s[1..5]);
    assert HexQuadValue(s[1..5]) == c as int;
  }

  lemma {:induction false} UnescapeOfEscape(c: char, tail: string)
    requires EscapeChar(c) != [c]
    ensures EscapeChar(c)[0] == '\\'
    ensures Unescape((EscapeChar(c) + tail)[1..]) == Some((c, |EscapeChar(c)| - 1))
  {
    var e := EscapeChar(c);
    if c as int < 0x20 && c as int !in {0x08, 0x0C, 0x0A, 0x0D, 0x09} {
      var hi, lo := c as int / 16, c as int % 16;
      assert e == ['\\', 'u', '0', '0', DigitChar(hi), DigitChar(lo)];
      assert (e + tail)[1..] == ['u', '0', '0', DigitChar(hi), DigitChar(lo)] + tail;
      UnescapeOfControl(c, tail);
    }
  }

  /** Reading the escaped form of one character yields that character. */
  lemma {:induction false} ParseEscapedChar(c: char, tail: string)
    ensures ParseStringBody(EscapeChar(c) + tail) ==
      match ParseStringBody(tail)
      case None => None
      case Some((t, rest)) => Some(([c] + t, rest))
  {
    var e := EscapeChar(c);
    if e == [c] {
      assert (e + tail)[1..] == tail;
    } else {
      UnescapeOfEscape(c, tail);
      assert (e + tail)[1 + (|e| - 1)..] == tail;
    }
  }

  lemma {:induction false} StringBodyRoundTrip(s: string, rest: string)
    ensures ParseStringBody(EscapeString(s) + "\"" + rest) == Some((s, rest))
  {
    if s == [] {
      assert (EscapeString(s) + "\"" + rest)[1..] == rest;
    } else {
      StringBodyRoundTrip(s[1..], rest);
      assert EscapeString(s) + "\"" + rest == EscapeChar(s[0]) + (EscapeString(s[1..]) + "\"" + rest);
      ParseEscapedChar(s[0], EscapeString(s[1..]) + "\"" + rest);
      assert [s[0]] + s[1..] == s;
    }
  }

  /** A quoted string reads back as itself, leaving what follows it. */
  lemma QuoteRoundTrip(s: string, rest: string)
    ensures ParseString(Quote(s) + rest) == Some((s, rest))
  {
    assert (Quote(s) + rest)[1..] == EscapeString(s) + "\"" + rest;
    StringBodyRoundTrip(s, rest);
  }

  lemma SkipWhiteSpaceStops(s: string)
    requires s == [] || !IsJsonWhiteSpace(s[0])
    ensures SkipWhiteSpace(s) == s
  {
  }

  lemma ElementsStartWithQuote(xs: seq<string>)
    requires xs != []
    ensures |EncodeElements(xs)| > 0 && EncodeElements(xs)[0] == '"'
  {
  }

  /** After a string, `ParseElements` either stops at `]` or goes on after `,`. */
  lemma ElementsStep(x: string, sep: char, tail: string)
    requires sep == ',' || sep == ']'
    ensures ParseElements(Quote(x) + [sep] + tail) ==
      if sep == ']' then Some(([x], tail))
      else match ParseElements(SkipWhiteSpace(tail))
        case None => None
        case Some((xs, after)) => Some(([x] + xs, after))
  {
    assert Quote(x) + [sep] + tail == Quote(x) + ([sep] + tail);
    QuoteRoundTrip(x, [sep] + tail);
    SkipWhiteSpaceStops([sep] + tail);
    assert ([sep] + tail)[1..] == tail;
  }

  lemma {:induction false} ElementsRoundTrip(xs: seq<string>, rest: string)
    requires xs != []
    ensures ParseElements(EncodeElements(xs) + "]" + rest) == Some((xs, rest))
  {
    if |xs| == 1 {
      assert EncodeElements(xs) + "]" + rest == Quote(xs[0]) + [']'] + rest;
      ElementsStep(xs[0], ']', rest);
      assert [xs[0]] == xs;
    } else {
      var more := EncodeElements(xs[1..]) + "]" + rest;
      assert EncodeElements(xs) + "]" + rest == Quote(xs[0]) + [','] + more;
      ElementsStep(xs[0], ',', more);
      ElementsStartWithQuote(xs[1..]);
      SkipWhiteSpaceStops(more);
      ElementsRoundTrip(xs[1..], rest);
      assert [xs[0]] + xs[1..] == xs;
    }
  }

  /** `JSON.parse(JSON.stringify(xs))` is `xs` for every array of strings. */
  lemma RoundTrip(xs: seq<string>)
    ensures Decode(Encode(xs)) == Some(xs)
  {
    var s := Encode(xs);
    SkipWhiteSpaceStops(s);
    assert s[1..] == EncodeElements(xs) + "]" + "";
    if xs == [] {
      assert s[1..] == "]";
      assert SkipWhiteSpace(s[1..]) == "]";
      assert SkipWhiteSpace(s[1..][1..]) == [];
    } else {
      ElementsStartWithQuote(xs);
      SkipWhiteSpaceStops(s[1..]);
      ElementsRoundTrip(xs, "");
      assert ParseElements(SkipWhiteSpace(s[1..])) == Some((xs, ""));
      assert SkipWhiteSpace("") == [];
    }
  }

  /** An escaped surrogate pair reads as the one supplementary character it encodes. */
  lemma SurrogatePairExample()
    ensures Unescape("ud83d\\ude00") == Some((0x1F600 as char, 11))
  {
    var s := "ud83d\\ude00";
    assert s[1..5] == "d83d" && s[7..11] == "de00";
    assert HexQuadValue("d83d") == 0xD83D;
    assert HexQuadValue("de00") == 0xDE00;
  }

  /** A high surrogate escape with no low one after it is refused. */
  lemma LoneSurrogateExample()
    ensures Unescape("ud83d") == None
  {
    assert "ud83d"[1..5] == "d83d";
    assert HexQuadValue("d83d") == 0xD83D;
  }

  /** JSON text that is not an array, such as `null`, does not decode. */
  lemma NullIsNotAList()
    ensures Decode("null") == None
  {
  }
}
