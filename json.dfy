/**
 * JSON values as the Worker sees them, JavaScript truthiness, and the string
 * quoting that `JSON.stringify` applies (the QuoteJSONString operation of
 * ECMA-262), with a decoder that undoes it.
 */
module JsonText {
  import opened Wrappers

  /** A value produced by `JSON.parse`. Objects are maps: key order is not modelled. */
  datatype Json =
    | JNull
    | JBool(b: bool)
    | JNumber(n: real)
    | JString(s: string)
    | JArray(items: seq<Json>)
    | JObject(fields: map<string, Json>)

  /**
   * ECMAScript ToBoolean of a property read; `None` is `undefined`. The falsy
   * values are `undefined`, `null`, `false`, `0` and `''` (a parsed number is
   * never NaN).
   */
  predicate Truthy(v: Option<Json>) {
    match v
    case None => false
    case Some(JNull) => false
    case Some(JBool(b)) => b
    case Some(JNumber(n)) => n != 0.0
    case Some(JString(s)) => s != ""
    case Some(JArray(_)) => true
    case Some(JObject(_)) => true
  }

  // ---------------------------------------------------------------------------
  // Quoting

  /** The lower-case hexadecimal digit for `d`. */
  function HexDigit(d: nat): (c: char)
    requires d < 16
    ensures HexValue(c) == Some(d)
  {
    "0123456789abcdef"[d]
  }

  /** The value of a hexadecimal digit of either case. */
  function HexValue(c: char): Option<nat> {
    if '0' <= c <= '9' then Some(c as nat - '0' as nat)
    else if 'a' <= c <= 'f' then Some(c as nat - 'a' as nat + 10)
    else if 'A' <= c <= 'F' then Some(c as nat - 'A' as nat + 10)
    else None
  }

  /** The escape QuoteJSONString writes for one code point. */
  function Escape(c: char): string {
    if c == '\U{8}' then "\\b"
    else if c == '\t' then "\\t"
    else if c == '\n' then "\\n"
    else if c == '\U{c}' then "\\f"
    else if c == '\r' then "\\r"
    else if c == '"' then "\\\""
    else if c == '\\' then "\\\\"
    else if c < ' ' then "\\u00" + [HexDigit(c as nat / 16), HexDigit(c as nat % 16)]
    else [c]
  }

  function EscapeAll(s: string): string {
    if s == [] then [] else Escape(s[0]) + EscapeAll(s[1..])
  }

  /** `JSON.stringify` of a string: the escaped text between double quotes. */
  function Quote(s: string): string {
    "\"" + EscapeAll(s) + "\""
  }

  /** No escape contains a control character, so none contains a line break. */
  lemma {:induction false} EscapeAllPrintable(s: string)
    ensures forall k :: 0 <= k < |EscapeAll(s)| ==> EscapeAll(s)[k] >= ' '
  {
    if s != [] {
      EscapeAllPrintable(s[1..]);
      var e := Escape(s[0]);
      assert forall k :: 0 <= k < |e| ==> e[k] >= ' ';
      assert EscapeAll(s) == e + EscapeAll(s[1..]);
    }
  }

  /** A quoted string never contains a line feed or a carriage return. */
  lemma QuoteHasNoLineBreak(s: string)
    ensures forall k :: 0 <= k < |Quote(s)| ==> Quote(s)[k] != '\n' && Quote(s)[k] != '\r'
  {
    EscapeAllPrintable(s);
    assert Quote(s) == "\"" + EscapeAll(s) + "\"";
  }

  // ---------------------------------------------------------------------------
  // Unquoting, the inverse

  function Prepend(c: char, r: Option<(string, string)>): Option<(string, string)> {
    match r
    case None => None
    case Some((decoded, rest)) => Some(([c] + decoded, rest))
  }

  function ShortEscape(c: char): Option<char> {
    match c
    case '"' => Some('"')
    case '\\' => Some('\\')
    case '/' => Some('/')
    case 'b' => Some('\U{8}')
    case 'f' => Some('\U{c}')
    case 'n' => Some('\n')
    case 'r' => Some('\r')
    case 't' => Some('\t')
    case _ => None
  }

  /** The value of four hexadecimal digits, if they are. */
  function Hex4(t: string): Option<nat>
    requires |t| == 4
  {
    match (HexValue(t[0]), HexValue(t[1]), HexValue(t[2]), HexValue(t[3]))
    case (Some(a), Some(b), Some(c), Some(d)) => Some(((a * 16 + b) * 16 + c) * 16 + d)
    case _ => None
  }

  /**
   * Decodes the body of a JSON string literal up to its closing quote; gives
   * the decoded text and what follows the quote. `\u` escapes of surrogate
   * halves are refused.
   */
  function UnescapeBody(t: string): Option<(string, string)>
    decreases |t|
  {
    if t == [] then None
    else if t[0] == '"' then Some(([], t[1..]))
    else if t[0] < ' ' then None
    else if t[0] != '\\' then Prepend(t[0], UnescapeBody(t[1..]))
    else if |t| < 2 then None
    else if t[1] == 'u' then
      if |t| < 6 then None
      else match Hex4(t[2..6])
        case Some(code) =>
          if code < 0xD800 || 0xE000 <= code < 0x11_0000 then Prepend(code as char, UnescapeBody(t[6..]))
          else None
        case None => None
    else match ShortEscape(t[1])
      case Some(c) => Prepend(c, UnescapeBody(t[2..]))
      case None => None
  }

  /** Reads one JSON string literal off the front of `t`. */
  function Unquote(t: string): Option<(string, string)> {
    if t != [] && t[0] == '"' then UnescapeBody(t[1..]) else None
  }

  lemma UnescapeTwoChar(c: char, x: char, tail: string)
    requires Escape(c) == ['\\', x] && x != 'u' && ShortEscape(x) == Some(c)
    ensures UnescapeBody(Escape(c) + tail) == Prepend(c, UnescapeBody(tail))
  {
    var t := Escape(c) + tail;
    assert t[0] == '\\' && t[1] == x;
    assert t[2..] == tail;
  }

  lemma UnescapeControl(c: char, tail: string)
    requires c < ' ' && c !in "\U{8}\t\n\U{c}\r"
    ensures UnescapeBody(Escape(c) + tail) == Prepend(c, UnescapeBody(tail))
  {
    var hi, lo := c as nat / 16, c as nat % 16;
    var t := Escape(c) + tail;
    assert Escape(c) == "\\u00" + [HexDigit(hi), HexDigit(lo)];
    assert t[2..6] == ['0', '0', HexDigit(hi), HexDigit(lo)];
    assert Hex4(t[2..6]) == Some(c as nat);
    assert t[6..] == tail;
  }

  lemma UnescapeOne(c: char, tail: string)
    ensures UnescapeBody(Escape(c) + tail) == Prepend(c, UnescapeBody(tail))
  {
    if c == '\U{8}' { UnescapeTwoChar(c, 'b', tail); }
    else if c == '\t' { UnescapeTwoChar(c, 't', tail); }
    else if c == '\n' { UnescapeTwoChar(c, 'n', tail); }
    else if c == '\U{c}' { UnescapeTwoChar(c, 'f', tail); }
    else if c == '\r' { UnescapeTwoChar(c, 'r', tail); }
    else if c == '"' { UnescapeTwoChar(c, '"', tail); }
    else if c == '\\' { UnescapeTwoChar(c, '\\', tail); }
    else if c < ' ' { UnescapeControl(c, tail); }
    else {
      var t := Escape(c) + tail;
      assert Escape(c) == [c];
      assert t[1..] == tail;
    }
  }

  /** Decoding a quoted string gives back the string and leaves what followed it. */
  lemma {:induction false} UnescapeEscapeAll(s: string, rest: string)
    ensures UnescapeBody(EscapeAll(s) + "\"" + rest) == Some((s, rest))
  {
    if s == [] {
      assert EscapeAll(s) + "\"" + rest == "\"" + rest;
    } else {
      var tail := EscapeAll(s[1..]) + "\"" + rest;
      assert EscapeAll(s) + "\"" + rest == Escape(s[0]) + tail;
      UnescapeOne(s[0], tail);
      UnescapeEscapeAll(s[1..], rest);
      assert [s[0]] + s[1..] == s;
    }
  }

  lemma UnquoteQuote(s: string, rest: string)
    ensures Unquote(Quote(s) + rest) == Some((s, rest))
  {
    var t := Quote(s) + rest;
    assert t[1..] == EscapeAll(s) + "\"" + rest;
    UnescapeEscapeAll(s, rest);
  }
}
