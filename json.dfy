/**
 * JSON string contents as `JSON.stringify` writes them (section 7 of
 * RFC 8259, with the choices ECMAScript's QuoteJSONString makes) and the
 * inverse that `JSON.parse` applies to them.
 */
module Json {
  import opened Base
  import opened Strings

  const Backspace: char := '\U{8}'
  const FormFeed: char := '\U{C}'

  /** Lower-case hexadecimal digit, as `JSON.stringify` writes `\u00XX` escapes. */
  function HexDigit(n: nat): (d: char)
    requires n < 16
  {
    "0123456789abcdef"[n]
  }

  /** Value of a hexadecimal digit of either case. */
  function HexValue(d: char): (v: Option<nat>)
    ensures v.Some? ==> v.value < 16
  {
    if '0' <= d <= '9' then Some(d as int - '0' as int)
    else if 'a' <= d <= 'f' then Some(d as int - 'a' as int + 10)
    else if 'A' <= d <= 'F' then Some(d as int - 'A' as int + 10)
    else None
  }

  lemma HexValueOfDigit(n: nat)
    requires n < 16
    ensures HexValue(HexDigit(n)) == Some(n)
  {
    var digits := "0123456789abcdef";
    assert digits[0] == '0' && digits[1] == '1' && digits[2] == '2' && digits[3] == '3';
    assert digits[4] == '4' && digits[5] == '5' && digits[6] == '6' && digits[7] == '7';
    assert digits[8] == '8' && digits[9] == '9' && digits[10] == 'a' && digits[11] == 'b';
    assert digits[12] == 'c' && digits[13] == 'd' && digits[14] == 'e' && digits[15] == 'f';
  }

  /** The code unit named by four hexadecimal digits. */
  function Hex4(ds: string): (v: Option<nat>)
    requires |ds| == 4
    ensures v.Some? ==> v.value < 0x10000
  {
    match (HexValue(ds[0]), HexValue(ds[1]), HexValue(ds[2]), HexValue(ds[3]))
    case (Some(a), Some(b), Some(c), Some(d)) => Some(a * 4096 + b * 256 + c * 16 + d)
    case _ => None
  }

  /** How `JSON.stringify` writes one character inside a string literal. */
  function EscapeChar(c: char): (r: string)
    ensures 1 <= |r| <= 6
    ensures forall k :: 0 <= k < |r| ==> r[k] >= ' '
  {
    if c == '"' then "\\\""
    else if c == '\\' then "\\\\"
    else if c == Backspace then "\\b"
    else if c == FormFeed then "\\f"
    else if c == '\n' then "\\n"
    else if c == '\r' then "\\r"
    else if c == '\t' then "\\t"
    else if c < ' ' then "\\u00" + [HexDigit(c as int / 16), HexDigit(c as int % 16)]
    else [c]
  }

  /**
   * How `JSON.stringify` writes the contents of a string literal. No raw
   * control character survives, so in particular no newline: a JSON payload
   * always stays on one line.
   */
  function Escape(s: string): (r: string)
    ensures forall k :: 0 <= k < |r| ==> r[k] >= ' '
    ensures '\n' !in r
  {
    if s == [] then [] else EscapeChar(s[0]) + Escape(s[1..])
  }

  function Prepend(c: char, rest: Option<string>): Option<string> {
    match rest
    case Some(t) => Some([c] + t)
    case None => None
  }

  /**
   * How `JSON.parse` reads the contents of a string literal: a raw quote or
   * control character, or an unknown escape, is a syntax error (None).
   * An escape naming a lone surrogate has no character here and fails too.
   */
  function Unescape(s: string): (r: Option<string>)
    ensures r.Some? ==> |r.value| <= |s|
    decreases |s|
  {
    if s == [] then Some([])
    else if s[0] == '"' || s[0] < ' ' then None
    else if s[0] != '\\' then Prepend(s[0], Unescape(s[1..]))
    else if |s| < 2 then None
    else match s[1]
      case '"' => Prepend('"', Unescape(s[2..]))
      case '\\' => Prepend('\\', Unescape(s[2..]))
      case '/' => Prepend('/', Unescape(s[2..]))
      case 'b' => Prepend(Backspace, Unescape(s[2..]))
      case 'f' => Prepend(FormFeed, Unescape(s[2..]))
      case 'n' => Prepend('\n', Unescape(s[2..]))
      case 'r' => Prepend('\r', Unescape(s[2..]))
      case 't' => Prepend('\t', Unescape(s[2..]))
      case 'u' =>
        if |s| < 6 then None
        else (match Hex4(s[2..6])
          case Some(n) =>
            if 0xD800 <= n < 0xE000 then None
            else Prepend(n as char, Unescape(s[6..]))
          case None => None)
      case _ => None
  }

  /** The four digits written for a control character name it. */
  lemma Hex4OfControl(c: char)
    requires c < ' '
    ensures Hex4(['0', '0', HexDigit(c as int / 16), HexDigit(c as int % 16)]) == Some(c as int)
  {
    HexValueOfDigit(c as int / 16);
    HexValueOfDigit(c as int % 16);
    HexValueOfDigit(0);
  }

  /** Reading back a control character written as `\u00XX`, followed by anything. */
  lemma UnescapeUnicodeEscape(c: char, t: string)
    requires c < ' ' && c != Backspace && c != FormFeed && c != '\n' && c != '\r' && c != '\t'
    ensures Unescape(EscapeChar(c) + t) == Prepend(c, Unescape(t))
  {
    var ds := ['0', '0', HexDigit(c as int / 16), HexDigit(c as int % 16)];
    var s := "\\u" + ds + t;
    assert EscapeChar(c) + t == s;
    assert s[0] == '\\' && s[1] == 'u' && |s| >= 6;
    assert s[2..6] == ds;
    assert s[6..] == t;
    Hex4OfControl(c);
  }

  /** Reading back one escaped character, followed by anything. */
  lemma UnescapeEscapeChar(c: char, t: string)
    ensures Unescape(EscapeChar(c) + t) == Prepend(c, Unescape(t))
  {
    var s := EscapeChar(c) + t;
    if c >= ' ' && c != '"' && c != '\\' {
      assert s == [c] + t;
      assert s[1..] == t;
    } else if c == '"' || c == '\\' || c == Backspace || c == FormFeed || c == '\n' || c == '\r' || c == '\t' {
      assert s[2..] == t;
    } else {
      UnescapeUnicodeEscape(c, t);
    }
  }

  /** `JSON.parse` inverts `JSON.stringify` on every string. */
  lemma {:induction false} UnescapeEscape(s: string)
    ensures Unescape(Escape(s)) == Some(s)
  {
    if s != [] {
      UnescapeEscapeChar(s[0], Escape(s[1..]));
      UnescapeEscape(s[1..]);
      assert s == [s[0]] + s[1..];
    }
  }
}
