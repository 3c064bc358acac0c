/**
 * The part of JSON that the settings object needs: string literals as `JSON.stringify` writes
 * them, the two boolean literals, and fixed punctuation, each with a parser that reads back what
 * was written. A parser returns the value and the rest of its input.
 */
module Json {
  import opened Options
  import opened Text

  function HexDigit(n: nat): char
    requires n < 16
  {
    if n < 10 then ('0' as int + n) as char else ('a' as int + n - 10) as char
  }

  function HexValue(c: char): (r: Option<nat>)
    ensures r.Some? ==> r.value < 16
  {
    if '0' <= c <= '9' then Some(c as int - '0' as int)
    else if 'a' <= c <= 'f' then Some(c as int - 'a' as int + 10)
    else if 'A' <= c <= 'F' then Some(c as int - 'A' as int + 10)
    else None
  }

  lemma HexRoundTrip(n: nat)
    requires n < 16
    ensures HexValue(HexDigit(n)) == Some(n)
  {
  }

  /**
   * How `JSON.stringify` writes one character inside a string literal: the quote and the
   * backslash escaped, the five control characters with short escapes, the other control
   * characters as `\u00xx` in lower-case hex, and every other character as itself.
   */
  function EscapeChar(c: char): (e: string)
    ensures 1 <= |e| <= 6 && e[0] != '"'
  {
    if c == '"' then "\\\""
    else if c == '\\' then "\\\\"
    else if c == '\U{0008}' then "\\b"
    else if c == '\U{000C}' then "\\f"
    else if c == '\n' then "\\n"
    else if c == '\r' then "\\r"
    else if c == '\t' then "\\t"
    else if (c as int) < 0x20 then "\\u00" + [HexDigit(c as int / 16), HexDigit(c as int % 16)]
    else [c]
  }

  function Escape(s: string): string
    decreases |s|
  {
    if |s| == 0 then "" else EscapeChar(s[0]) + Escape(s[1..])
  }

  /** `JSON.stringify` of a string. */
  function Quote(s: string): string {
    "\"" + Escape(s) + "\""
  }

  /** Four hex digits naming a character (surrogate halves are refused). */
  function ParseHex4(h: string): (r: Option<char>)
    requires |h| == 4
  {
    match (HexValue(h[0]), HexValue(h[1]), HexValue(h[2]), HexValue(h[3]))
    case (Some(d0), Some(d1), Some(d2), Some(d3)) =>
      var v := d0 * 4096 + d1 * 256 + d2 * 16 + d3;
      if v < 0xD800 || 0xE000 <= v then Some(v as char) else None
    case _ => None
  }

  /**
   * One character of a string literal's body and how many input characters it took: an escape
   * sequence or a character that is neither the closing quote nor a control character.
   */
  function ParseUnit(s: string): (r: Option<(char, nat)>)
    ensures r.Some? ==> 1 <= r.value.1 <= |s|
  {
    if |s| == 0 || s[0] == '"' then None
    else if s[0] == '\\' then
      if |s| < 2 then None
      else if s[1] == '"' then Some(('"', 2))
      else if s[1] == '\\' then Some(('\\', 2))
      else if s[1] == '/' then Some(('/', 2))
      else if s[1] == 'b' then Some(('\U{0008}', 2))
      else if s[1] == 'f' then Some(('\U{000C}', 2))
      else if s[1] == 'n' then Some(('\n', 2))
      else if s[1] == 'r' then Some(('\r', 2))
      else if s[1] == 't' then Some(('\t', 2))
      else if s[1] == 'u' && |s| >= 6 then
        match ParseHex4(s[2..6])
        case Some(c) => Some((c, 6))
        case None => None
      else None
    else if (s[0] as int) < 0x20 then None
    else Some((s[0], 1))
  }

  /** The body of a string literal up to and including its closing quote. */
  function ParseChars(s: string): Option<(string, string)>
    decreases |s|
  {
    if |s| == 0 then None
    else if s[0] == '"' then Some(("", s[1..]))
    else
      match ParseUnit(s)
      case None => None
      case Some(u) =>
        match ParseChars(s[u.1..])
        case None => None
        case Some(t) => Some(([u.0] + t.0, t.1))
  }

  /** A string literal. */
  function ParseString(s: string): Option<(string, string)> {
    if |s| > 0 && s[0] == '"' then ParseChars(s[1..]) else None
  }

  function BoolLiteral(b: bool): string {
    if b then "true" else "false"
  }

  function ParseBool(s: string): Option<(bool, string)> {
    if StartsWith(s, "true") then Some((true, s[4..]))
    else if StartsWith(s, "false") then Some((false, s[5..]))
    else None
  }

  /** Fixed text, such as punctuation and a property name. */
  function Expect(lit: string, s: string): (r: Option<string>)
    ensures r.Some? ==> s == lit + r.value
  {
    if StartsWith(s, lit) then Some(s[|lit|..]) else None
  }

  lemma ExpectRoundTrip(lit: string, rest: string)
    ensures Expect(lit, lit + rest) == Some(rest)
  {
    assert (lit + rest)[..|lit|] == lit;
    assert (lit + rest)[|lit|..] == rest;
  }

  lemma BoolRoundTrip(b: bool, rest: string)
    ensures ParseBool(BoolLiteral(b) + rest) == Some((b, rest))
  {
    var s := BoolLiteral(b) + rest;
    assert s[..|BoolLiteral(b)|] == BoolLiteral(b);
    assert s[|BoolLiteral(b)|..] == rest;
    if b {
      assert StartsWith(s, "true");
    } else {
      assert s[..4] == "fals";
      assert !StartsWith(s, "true");
    }
  }

  /** Each escape reads back as the character it stands for, whatever follows it. */
  lemma UnitRoundTrip(c: char, rest: string)
    ensures ParseUnit(EscapeChar(c) + rest) == Some((c, |EscapeChar(c)|))
  {
    var e := EscapeChar(c);
    var s := e + rest;
    if c != '"' && c != '\\' && c != '\U{0008}' && c != '\U{000C}' && c != '\n' && c != '\r' && c != '\t' {
      if (c as int) < 0x20 {
        var hi, lo := c as int / 16, c as int % 16;
        HexRoundTrip(hi);
        HexRoundTrip(lo);
        assert s[2..6] == ['0', '0', HexDigit(hi), HexDigit(lo)];
        assert ParseHex4(s[2..6]) == Some(c);
      } else {
        assert s[0] == c;
      }
    }
  }

  lemma {:induction false} CharsRoundTrip(x: string, rest: string)
    ensures ParseChars(Escape(x) + "\"" + rest) == Some((x, rest))
    decreases |x|
  {
    if |x| == 0 {
      assert Escape(x) + "\"" + rest == "\"" + rest;
      assert ("\"" + rest)[1..] == rest;
    } else {
      var e := EscapeChar(x[0]);
      var tail := Escape(x[1..]) + "\"" + rest;
      var s := Escape(x) + "\"" + rest;
      assert s == e + tail;
      UnitRoundTrip(x[0], tail);
      assert s[0] == e[0];
      assert s[|e|..] == tail;
      CharsRoundTrip(x[1..], rest);
      assert [x[0]] + x[1..] == x;
    }
  }

  /** A string written by `Quote` reads back as itself, whatever follows it. */
  lemma StringRoundTrip(x: string, rest: string)
    ensures ParseString(Quote(x) + rest) == Some((x, rest))
  {
    var s := Quote(x) + rest;
    assert s[1..] == Escape(x) + "\"" + rest;
    CharsRoundTrip(x, rest);
  }
}
