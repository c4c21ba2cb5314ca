/** The guidelines list is kept in one sheet cell as JSON text: the script's
    `saveConfig` writes `JSON.stringify(guidelines)` and its `fetchConfig`
    reads it back with `JSON.parse` (components/AdminPage.tsx:72, :76).
    This module models both for arrays of strings: `Stringify` produces what
    JSON.stringify produces for such an array, and `Parse` accepts JSON text
    for an array of strings written without insignificant whitespace. */
module Json {
  import opened Types

  /** A lower-case hexadecimal digit, as JSON.stringify writes in `\u00XX`. */
  function HexDigit(d: nat): (c: char)
    requires d < 16
    ensures '0' <= c <= '9' || 'a' <= c <= 'f'
  {
    if d < 10 then ('0' as int + d) as char else ('a' as int + d - 10) as char
  }

  /** The value of a hexadecimal digit of either case. */
  function HexValue(c: char): (r: Option<nat>)
    ensures r.Some? ==> r.value < 16
    ensures r.Some? <==> ('0' <= c <= '9' || 'a' <= c <= 'f' || 'A' <= c <= 'F')
  {
    if '0' <= c <= '9' then Some(c as int - '0' as int)
    else if 'a' <= c <= 'f' then Some(c as int - 'a' as int + 10)
    else if 'A' <= c <= 'F' then Some(c as int - 'A' as int + 10)
    else None
  }

  lemma HexDigitValue(d: nat)
    requires d < 16
    ensures HexValue(HexDigit(d)) == Some(d)
  {
  }

  /** How JSON.stringify writes one character inside a string literal. */
  function EscapeChar(c: char): (r: string)
    ensures 1 <= |r|
    ensures r[0] == '\\' <==> (c == '"' || c == '\\' || c < ' ')
    ensures r[0] != '\\' ==> r == [c]
  {
    if c == '"' then ['\\', '"']
    else if c == '\\' then ['\\', '\\']
    else if c == '\U{8}' then ['\\', 'b']
    else if c == '\U{C}' then ['\\', 'f']
    else if c == '\n' then ['\\', 'n']
    else if c == '\r' then ['\\', 'r']
    else if c == '\t' then ['\\', 't']
    else if c < ' ' then ['\\', 'u', '0', '0', HexDigit(c as int / 16), HexDigit(c as int % 16)]
    else [c]
  }

  function Escape(s: string): (r: string)
    ensures |r| >= |s|
  {
    if s == [] then [] else EscapeChar(s[0]) + Escape(s[1..])
  }

  function Quote(s: string): string {
    ['"'] + Escape(s) + ['"']
  }

  /** The comma-separated string literals of a list. */
  function Items(gs: seq<string>): string {
    if |gs| == 0 then []
    else if |gs| == 1 then Quote(gs[0])
    else Quote(gs[0]) + [','] + Items(gs[1..])
  }

  /** JSON.stringify of an array of strings. */
  function Stringify(gs: seq<string>): (r: string)
    ensures |r| >= 2 && r[0] == '[' && r[|r| - 1] == ']'
  {
    ['['] + Items(gs) + [']']
  }

  /** A decoded string literal and the text after its closing quote. */
  datatype Parsed = Parsed(text: string, rest: string)

  /** The character an escape sequence stands for, and how many characters
      after the backslash it spans. `\u` escapes naming a surrogate code unit
      are refused, since a surrogate is not a character here. */
  function Unescape(s: string): (r: Option<(char, nat)>)
    ensures r.Some? ==> 1 <= r.value.1 <= |s|
  {
    if s == [] then None
    else if s[0] == '"' then Some(('"', 1))
    else if s[0] == '\\' then Some(('\\', 1))
    else if s[0] == '/' then Some(('/', 1))
    else if s[0] == 'b' then Some(('\U{8}', 1))
    else if s[0] == 'f' then Some(('\U{C}', 1))
    else if s[0] == 'n' then Some(('\n', 1))
    else if s[0] == 'r' then Some(('\r', 1))
    else if s[0] == 't' then Some(('\t', 1))
    else if s[0] == 'u' && |s| >= 5 then
      var h := [HexValue(s[1]), HexValue(s[2]), HexValue(s[3]), HexValue(s[4])];
      if h[0].None? || h[1].None? || h[2].None? || h[3].None? then None
      else
        var v := ((h[0].value * 16 + h[1].value) * 16 + h[2].value) * 16 + h[3].value;
        if 0xD800 <= v <= 0xDFFF then None else Some((v as char, 5))
    else None
  }

  /** Decodes the body of a string literal (the text after its opening
      quote) up to the closing quote. Raw control characters are refused, as
      JSON.parse refuses them. */
  function ParseString(s: string): (r: Option<Parsed>)
    ensures r.Some? ==> |r.value.rest| < |s|
    decreases |s|
  {
    if s == [] then None
    else if s[0] == '"' then Some(Parsed([], s[1..]))
    else if s[0] == '\\' then
      match Unescape(s[1..])
      case None => None
      case Some((c, k)) =>
        match ParseString(s[1 + k..])
        case None => None
        case Some(p) => Some(Parsed([c] + p.text, p.rest))
    else if s[0] < ' ' then None
    else
      match ParseString(s[1..])
      case None => None
      case Some(p) => Some(Parsed([s[0]] + p.text, p.rest))
  }

  /** Decodes `"…" (, "…")* ]` up to the end of the text. */
  function ParseElems(s: string): Option<seq<string>>
    decreases |s|
  {
    if s == [] || s[0] != '"' then None
    else
      match ParseString(s[1..])
      case None => None
      case Some(p) =>
        if p.rest == [']'] then Some([p.text])
        else if |p.rest| > 0 && p.rest[0] == ',' then
          match ParseElems(p.rest[1..])
          case None => None
          case Some(ts) => Some([p.text] + ts)
        else None
  }

  /** JSON.parse of text that must denote an array of strings; None where
      JSON.parse would throw. */
  function Parse(s: string): Option<seq<string>> {
    if s == [] || s[0] != '[' then None
    else if s[1..] == [']'] then Some([])
    else ParseElems(s[1..])
  }

  /** Decoding an escaped character gives the character back and leaves the
      text after its escape. */
  lemma UnescapeEscapeChar(c: char, rest: string)
    requires EscapeChar(c)[0] == '\\'
    ensures Unescape(EscapeChar(c)[1..] + rest) == Some((c, |EscapeChar(c)| - 1))
  {
    var e := EscapeChar(c)[1..] + rest;
    if c < ' ' && c != '\U{8}' && c != '\U{C}' && c != '\n' && c != '\r' && c != '\t' {
      var hi, lo := c as int / 16, c as int % 16;
      assert e[..5] == ['u', '0', '0', HexDigit(hi), HexDigit(lo)];
      HexDigitValue(hi);
      HexDigitValue(lo);
      assert HexValue(e[1]) == Some(0) && HexValue(e[2]) == Some(0);
      assert ((0 * 16 + 0) * 16 + hi) * 16 + lo == c as int;
    }
  }

  /** One plain character followed by a decodable remainder. */
  lemma ParsePlainStep(c: char, tail: string, p: Parsed)
    requires EscapeChar(c)[0] != '\\'
    requires ParseString(tail) == Some(p)
    ensures ParseString([c] + tail) == Some(Parsed([c] + p.text, p.rest))
  {
    assert ([c] + tail)[1..] == tail;
  }

  /** One escape sequence followed by a decodable remainder. */
  lemma ParseEscapedStep(c: char, tail: string, p: Parsed)
    requires EscapeChar(c)[0] == '\\'
    requires ParseString(tail) == Some(p)
    ensures ParseString(EscapeChar(c) + tail) == Some(Parsed([c] + p.text, p.rest))
  {
    var s := EscapeChar(c) + tail;
    var k := |EscapeChar(c)| - 1;
    assert s[1..] == EscapeChar(c)[1..] + tail;
    UnescapeEscapeChar(c, tail);
    assert s[1 + k..] == tail;
  }

  /** A string literal body written by `Escape` decodes to the original text. */
  lemma {:induction false} ParseEscaped(x: string, rest: string)
    ensures ParseString(Escape(x) + ['"'] + rest) == Some(Parsed(x, rest))
  {
    if x == [] {
      assert Escape(x) + ['"'] + rest == ['"'] + rest;
    } else {
      var c := x[0];
      var tail := Escape(x[1..]) + ['"'] + rest;
      assert Escape(x) + ['"'] + rest == EscapeChar(c) + tail;
      ParseEscaped(x[1..], rest);
      if EscapeChar(c)[0] == '\\' {
        ParseEscapedStep(c, tail, Parsed(x[1..], rest));
      } else {
        ParsePlainStep(c, tail, Parsed(x[1..], rest));
      }
      assert [c] + x[1..] == x;
    }
  }

  /** One step of `ParseElems`: a literal followed by the closing bracket
      or by a comma and more elements. */
  lemma ParseElemsStep(s: string, g: string, after: string)
    requires |s| > 0 && s[0] == '"' && ParseString(s[1..]) == Some(Parsed(g, after))
    ensures after == [']'] ==> ParseElems(s) == Some([g])
    ensures |after| >= 2 && after[0] == ',' && ParseElems(after[1..]).Some? ==>
              ParseElems(s) == Some([g] + ParseElems(after[1..]).value)
  {
  }

  /** The text of a list: its first literal, then what follows it. */
  lemma ItemsHead(g: string, gs: seq<string>, after: string)
    requires |gs| >= 1 && g == gs[0]
    requires after == if |gs| == 1 then [']'] else [','] + Items(gs[1..]) + [']']
    ensures Items(gs) + [']'] == ['"'] + (Escape(g) + ['"'] + after)
  {
    var q := Escape(g);
    assert Quote(g) == ['"'] + q + ['"'];
    if |gs| == 1 {
      assert Items(gs) == Quote(g);
    } else {
      assert Items(gs) == Quote(g) + [','] + Items(gs[1..]);
    }
  }

  lemma {:induction false} ParseItems(gs: seq<string>)
    requires |gs| >= 1
    ensures ParseElems(Items(gs) + [']']) == Some(gs)
  {
    var s := Items(gs) + [']'];
    var g := gs[0];
    var after := if |gs| == 1 then [']'] else [','] + Items(gs[1..]) + [']'];
    ItemsHead(g, gs, after);
    assert s[1..] == Escape(g) + ['"'] + after;
    ParseEscaped(g, after);
    if |gs| > 1 {
      assert after[1..] == Items(gs[1..]) + [']'];
      ParseItems(gs[1..]);
      ParseElemsStep(s, g, after);
      assert [g] + gs[1..] == gs;
    } else {
      ParseElemsStep(s, g, after);
      assert [g] == gs;
    }
  }

  /** JSON.parse(JSON.stringify(gs)) gives gs back. */
  lemma {:induction false} ParseStringify(gs: seq<string>)
    ensures Parse(Stringify(gs)) == Some(gs)
  {
    var s := Stringify(gs);
    assert s[1..] == Items(gs) + [']'];
    if gs != [] {
      assert Items(gs)[0] == '"';
      ParseItems(gs);
    }
  }
}
