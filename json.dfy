/**
 * The part of JSON that saving and restoring a dream result uses: the
 * quoting of a string value as `JSON.stringify` writes it, and the reading
 * back of a quoted string as `JSON.parse` does.
 */
module Json {

  import opened Wrappers

  function HexDigit(d: nat): char
    requires d < 16
  {
    "0123456789abcdef"[d]
  }

  /** The value of a hexadecimal digit; `JSON.parse` accepts either case. */
  function HexValue(c: char): (v: Option<nat>)
    ensures v.Some? ==> v.value < 16
  {
    if '0' <= c <= '9' then Some(c as int - '0' as int)
    else if 'a' <= c <= 'f' then Some(c as int - 'a' as int + 10)
    else if 'A' <= c <= 'F' then Some(c as int - 'A' as int + 10)
    else None
  }

  lemma HexValueOfDigit(d: nat)
    requires d < 16
    ensures HexValue(HexDigit(d)) == Some(d)
  {
  }

  /**
   * How `JSON.stringify` writes one code point inside a string literal:
   * the quote and the backslash are escaped, the five control characters
   * with a short form use it, the other control characters become `\u00xx`
   * in lower-case hexadecimal, and everything else is written as is.
   */
  function EscapeChar(c: char): (e: string)
    ensures |e| >= 1
    ensures e[0] == '\\' <==> c == '"' || c == '\\' || c < ' '
  {
    if c == '"' then "\\\""
    else if c == '\\' then "\\\\"
    else if c == '\U{0008}' then "\\b"
    else if c == '\U{000C}' then "\\f"
    else if c == '\n' then "\\n"
    else if c == '\r' then "\\r"
    else if c == '\t' then "\\t"
    else if c < ' ' then "\\u00" + [HexDigit(c as int / 16), HexDigit(c as int % 16)]
    else [c]
  }

  function Escape(s: string): string
  {
    if s == [] then [] else EscapeChar(s[0]) + Escape(s[1..])
  }

  /** A string value as `JSON.stringify` writes it. */
  function Quote(s: string): string
  {
    "\"" + Escape(s) + "\""
  }

  /** The code point a `\uXXXX` escape denotes; surrogate halves are not code points. */
  function UnicodeEscape(t: string): (r: Option<(char, string)>)
    ensures r.Some? ==> |r.value.1| == |t| - 4
  {
    if |t| < 4 then None
    else match (HexValue(t[0]), HexValue(t[1]), HexValue(t[2]), HexValue(t[3]))
      case (Some(a), Some(b), Some(c), Some(d)) =>
        var v := ((a * 16 + b) * 16 + c) * 16 + d;
        if 0xD800 <= v < 0xE000 then None else Some((v as char, t[4..]))
      case _ => None
  }

  /** One escape sequence, `t` being what follows its backslash. */
  function DecodeEscape(t: string): (r: Option<(char, string)>)
    ensures r.Some? ==> |r.value.1| < |t|
  {
    if t == [] then None
    else if t[0] == '"' then Some(('"', t[1..]))
    else if t[0] == '\\' then Some(('\\', t[1..]))
    else if t[0] == '/' then Some(('/', t[1..]))
    else if t[0] == 'b' then Some(('\U{0008}', t[1..]))
    else if t[0] == 'f' then Some(('\U{000C}', t[1..]))
    else if t[0] == 'n' then Some(('\n', t[1..]))
    else if t[0] == 'r' then Some(('\r', t[1..]))
    else if t[0] == 't' then Some(('\t', t[1..]))
    else if t[0] == 'u' then UnicodeEscape(t[1..])
    else None
  }

  /** One code point of a string literal's body; raw control characters are refused. */
  function DecodeChar(t: string): (r: Option<(char, string)>)
    requires t != [] && t[0] != '"'
    ensures r.Some? ==> |r.value.1| < |t|
  {
    if t[0] == '\\' then DecodeEscape(t[1..])
    else if t[0] < ' ' then None
    else Some((t[0], t[1..]))
  }

  /** The body of a string literal up to its closing quote, and the text after that quote. */
  function ParseStringBody(t: string): Option<(string, string)>
    decreases |t|
  {
    if t == [] then None
    else if t[0] == '"' then Some(([], t[1..]))
    else match DecodeChar(t)
      case None => None
      case Some((c, t')) =>
        match ParseStringBody(t')
        case None => None
        case Some((s, rest)) => Some(([c] + s, rest))
  }

  /** A string literal at the head of `t`: its value and the text after it. */
  function ParseString(t: string): Option<(string, string)>
  {
    if t != [] && t[0] == '"' then ParseStringBody(t[1..]) else None
  }

  lemma DecodeEscapedChar(c: char, t: string)
    ensures EscapeChar(c)[0] != '"'
    ensures DecodeChar(EscapeChar(c) + t) == Some((c, t))
  {
    var e := EscapeChar(c);
    if c < ' ' && c != '\U{0008}' && c != '\U{000C}' && c != '\n' && c != '\r' && c != '\t' {
      var n := c as int;
      HexValueOfDigit(n / 16);
      HexValueOfDigit(n % 16);
      assert (e + t)[1..] == "u00" + [HexDigit(n / 16), HexDigit(n % 16)] + t;
      assert (e + t)[2..] == "00" + [HexDigit(n / 16), HexDigit(n % 16)] + t;
      assert (e + t)[6..] == t;
    } else if e[0] == '\\' {
      assert (e + t)[1..] == e[1..] + t;
      assert (e + t)[2..] == t;
    } else {
      assert (e + t)[1..] == t;
    }
  }

  /** Reading back an escaped body stops exactly at the quote that closes it. */
  lemma {:induction false} EscapeRoundTrip(s: string, rest: string)
    ensures ParseStringBody(Escape(s) + "\"" + rest) == Some((s, rest))
  {
    if s == [] {
      assert Escape(s) + "\"" + rest == "\"" + rest;
    } else {
      var t := Escape(s[1..]) + "\"" + rest;
      assert Escape(s) + "\"" + rest == EscapeChar(s[0]) + t;
      DecodeEscapedChar(s[0], t);
      EscapeRoundTrip(s[1..], rest);
      assert [s[0]] + s[1..] == s;
    }
  }

  /** `JSON.parse` reads back what `JSON.stringify` wrote, leaving what follows untouched. */
  lemma QuoteRoundTrip(s: string, rest: string)
    ensures ParseString(Quote(s) + rest) == Some((s, rest))
  {
    assert (Quote(s) + rest)[1..] == Escape(s) + "\"" + rest;
    EscapeRoundTrip(s, rest);
  }
}
