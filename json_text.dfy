/**
  The JSON text the server writes: a one-key object whose key and value are
  strings, rendered the way serde_json's compact formatter renders
  `json!({ key: value }).to_string()` -- no whitespace, and inside a string
  literal the quote, the backslash and every control character below U+0020
  written as an escape (`\b`, `\t`, `\n`, `\f`, `\r` by their short names, the
  rest as `\u00` followed by two lower-case hex digits).  Every other character,
  non-ASCII included, is written as it is.

  Beside the encoder is its inverse: a decoder for the compact object shape,
  accepting the escape forms of section 7 of RFC 8259, except that every `\u`
  escape naming a surrogate code point, lone or paired, is refused.
*/
module JsonText {
  import opened Wrappers

  /** A JSON object with exactly one member whose value is a string. */
  datatype OneKeyObject = OneKeyObject(key: string, value: string)

  /** The characters that may not appear raw inside a JSON string literal. */
  predicate NeedsEscape(c: char) {
    c < ' ' || c == '"' || c == '\\'
  }

  /** The lower-case hex digit for 0 <= d < 16 (serde_json's table "0123456789abcdef"). */
  function HexDigit(d: int): (c: char)
    requires 0 <= d < 16
    ensures '0' <= c <= '9' || 'a' <= c <= 'f'
  {
    if d < 10 then ('0' as int + d) as char else ('a' as int + d - 10) as char
  }

  /** The value of a hex digit of either case, None for any other character. */
  function HexValue(c: char): (r: Option<int>)
    ensures r.Some? ==> 0 <= r.value < 16
  {
    if '0' <= c <= '9' then Some(c as int - '0' as int)
    else if 'a' <= c <= 'f' then Some(c as int - 'a' as int + 10)
    else if 'A' <= c <= 'F' then Some(c as int - 'A' as int + 10)
    else None
  }

  /** The escape sequence serde_json writes for one character inside a string literal. */
  function EscapeChar(c: char): string {
    if c == '"' then "\\\""
    else if c == '\\' then "\\\\"
    else if c as int == 0x08 then "\\b"
    else if c == '\t' then "\\t"
    else if c == '\n' then "\\n"
    else if c as int == 0x0C then "\\f"
    else if c == '\r' then "\\r"
    else if c < ' ' then "\\u00" + [HexDigit(c as int / 16), HexDigit(c as int % 16)]
    else [c]
  }

  /** The escaped contents of a string literal. */
  function Escape(s: string): string {
    if s == [] then [] else EscapeChar(s[0]) + Escape(s[1..])
  }

  /** A string as a JSON string literal. */
  function Quote(s: string): string {
    "\"" + Escape(s) + "\""
  }

  /** The compact text of a one-key object, as `{"key":"value"}`. */
  function Encode(o: OneKeyObject): string {
    "{" + Quote(o.key) + ":" + Quote(o.value) + "}"
  }

  /**
    Reads one escape sequence; `s` is the text after the backslash.  Gives the
    character it stands for and the text after it.  A `\u` escape naming a
    surrogate code point is refused.
  */
  function ParseEscape(s: string): (r: Option<(char, string)>)
    ensures r.Some? ==> |r.value.1| < |s|
  {
    if |s| == 0 then None
    else if s[0] == '"' then Some(('"', s[1..]))
    else if s[0] == '\\' then Some(('\\', s[1..]))
    else if s[0] == '/' then Some(('/', s[1..]))
    else if s[0] == 'b' then Some((0x08 as char, s[1..]))
    else if s[0] == 't' then Some(('\t', s[1..]))
    else if s[0] == 'n' then Some(('\n', s[1..]))
    else if s[0] == 'f' then Some((0x0C as char, s[1..]))
    else if s[0] == 'r' then Some(('\r', s[1..]))
    else if s[0] == 'u' && |s| >= 5 then
      match (HexValue(s[1]), HexValue(s[2]), HexValue(s[3]), HexValue(s[4]))
      case (Some(d0), Some(d1), Some(d2), Some(d3)) =>
        var code := ((d0 * 16 + d1) * 16 + d2) * 16 + d3;
        if 0xD800 <= code < 0xE000 then None else Some((code as char, s[5..]))
      case _ => None
    else None
  }

  /** Puts one decoded character in front of a decoded string literal. */
  function Prepend(c: char, r: Option<(string, string)>): Option<(string, string)> {
    match r
    case None => None
    case Some((v, rest)) => Some(([c] + v, rest))
  }

  /**
    Reads the contents of a string literal up to and including its closing
    quote; `s` is the text after the opening quote.  Gives the decoded string
    and the text after the closing quote.  A raw control character or a bad
    escape is refused.
  */
  function ParseStringBody(s: string): (r: Option<(string, string)>)
    ensures r.Some? ==> |r.value.1| < |s|
    decreases |s|
  {
    if |s| == 0 then None
    else if s[0] == '"' then Some(([], s[1..]))
    else if s[0] < ' ' then None
    else if s[0] != '\\' then Prepend(s[0], ParseStringBody(s[1..]))
    else
      match ParseEscape(s[1..])
      case None => None
      case Some((c, rest)) => Prepend(c, ParseStringBody(rest))
  }

  /** Reads one string literal, opening quote included; gives the decoded string and the text after it. */
  function ParseQuoted(s: string): Option<(string, string)> {
    if |s| == 0 || s[0] != '"' then None else ParseStringBody(s[1..])
  }

  /** Reads back the compact text of a one-key object; None for any other text. */
  function Decode(s: string): Option<OneKeyObject> {
    if |s| == 0 || s[0] != '{' then None
    else
      match ParseQuoted(s[1..])
      case None => None
      case Some((k, rest)) =>
        if |rest| == 0 || rest[0] != ':' then None
        else
          match ParseQuoted(rest[1..])
          case None => None
          case Some((v, tail)) => if tail == "}" then Some(OneKeyObject(k, v)) else None
  }

  /** Reading the escape of any character, followed by any text, gives back that character. */
  lemma EscapeCharRoundTrip(c: char, t: string)
    ensures ParseStringBody(EscapeChar(c) + t) == Prepend(c, ParseStringBody(t))
  {
  }

  /** The escaped text of `s`, closed by a quote, reads back as `s` and leaves the rest untouched. */
  lemma {:induction false} EscapeRoundTrip(s: string, t: string)
    ensures ParseStringBody(Escape(s) + "\"" + t) == Some((s, t))
    decreases |s|
  {
    if s == [] {
      assert Escape(s) + "\"" + t == "\"" + t;
      assert ("\"" + t)[1..] == t;
    } else {
      assert Escape(s) + "\"" + t == EscapeChar(s[0]) + (Escape(s[1..]) + "\"" + t);
      EscapeCharRoundTrip(s[0], Escape(s[1..]) + "\"" + t);
      EscapeRoundTrip(s[1..], t);
      assert [s[0]] + s[1..] == s;
    }
  }

  /** A quoted string, followed by any text, reads back as that string and that text. */
  lemma QuoteRoundTrip(s: string, t: string)
    ensures ParseQuoted(Quote(s) + t) == Some((s, t))
  {
    var e := Quote(s) + t;
    assert e == "\"" + (Escape(s) + "\"" + t);
    assert e[1..] == Escape(s) + "\"" + t;
    EscapeRoundTrip(s, t);
  }

  /** Decoding undoes encoding: the key and the value come back unchanged. */
  lemma ObjectRoundTrip(o: OneKeyObject)
    ensures Decode(Encode(o)) == Some(o)
  {
    var afterKey := ":" + Quote(o.value) + "}";
    assert Encode(o)[1..] == Quote(o.key) + afterKey;
    QuoteRoundTrip(o.key, afterKey);
    assert afterKey[1..] == Quote(o.value) + "}";
    QuoteRoundTrip(o.value, "}");
  }

  /** The escape of a single character holds no control character. */
  lemma EscapeCharPrintable(c: char)
    ensures forall i :: 0 <= i < |EscapeChar(c)| ==> EscapeChar(c)[i] >= ' '
  {
  }

  /** Escaped text never holds a raw control character. */
  lemma {:induction false} EscapePrintable(s: string)
    ensures forall i :: 0 <= i < |Escape(s)| ==> Escape(s)[i] >= ' '
    decreases |s|
  {
    if s != [] {
      EscapeCharPrintable(s[0]);
      EscapePrintable(s[1..]);
    }
  }

  /** A string with nothing to escape is written as it is. */
  lemma {:induction false} EscapePlain(s: string)
    requires forall i :: 0 <= i < |s| ==> !NeedsEscape(s[i])
    ensures Escape(s) == s
    decreases |s|
  {
    if s != [] {
      EscapePlain(s[1..]);
      assert [s[0]] + s[1..] == s;
    }
  }

  /** A key and a value with nothing to escape are written between quotes as they are. */
  lemma EncodePlain(k: string, v: string)
    requires forall i :: 0 <= i < |k| ==> !NeedsEscape(k[i])
    requires forall i :: 0 <= i < |v| ==> !NeedsEscape(v[i])
    ensures Encode(OneKeyObject(k, v)) == "{\"" + k + "\":\"" + v + "\"}"
  {
    EscapePlain(k);
    EscapePlain(v);
  }
}
