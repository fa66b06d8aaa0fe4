/**
 * The JavaScript string behaviour the broadcast page relies on:
 * template-literal interpolation of possibly absent values, `String.prototype.trim`
 * (section 22.1.3.32 of ECMA-262) and the string quoting of `JSON.stringify`
 * (QuoteJSONString, section 25.5.2.3 of ECMA-262), together with a JSON string
 * parser that serves as the inverse of the quoting.
 */
module JsText {
  import opened Wrappers

  /** `${v}` in a template literal: an absent value (undefined) prints as "undefined". */
  function Interpolate(v: Option<string>): string {
    match v
    case Some(s) => s
    case None => "undefined"
  }

  // ---------------------------------------------------------------- trim

  /** The code points `trim` removes: ECMA-262 WhiteSpace (TAB, VT, FF, ZWNBSP and
      every space separator of category Zs) and LineTerminator (LF, CR, LS, PS). */
  predicate IsTrimmable(c: char) {
    var n := c as int;
    n == 0x09 || n == 0x0A || n == 0x0B || n == 0x0C || n == 0x0D || n == 0x20 ||
    n == 0xA0 || n == 0x1680 || (0x2000 <= n <= 0x200A) || n == 0x2028 || n == 0x2029 ||
    n == 0x202F || n == 0x205F || n == 0x3000 || n == 0xFEFF
  }

  /** Drops leading trimmable code points. */
  function TrimStart(s: string): string
    decreases |s|
  {
    if s != [] && IsTrimmable(s[0]) then TrimStart(s[1..]) else s
  }

  /** Drops trailing trimmable code points. */
  function TrimEnd(s: string): string
    decreases |s|
  {
    if s != [] && IsTrimmable(s[|s| - 1]) then TrimEnd(s[..|s| - 1]) else s
  }

  /** TrimStart keeps a suffix, which does not start with a trimmable code point, and drops
      only trimmable ones. */
  lemma {:induction false} TrimStartDropsBlanks(s: string)
    ensures |TrimStart(s)| <= |s| && TrimStart(s) == s[|s| - |TrimStart(s)|..]
    ensures TrimStart(s) == [] || !IsTrimmable(TrimStart(s)[0])
    ensures forall i :: 0 <= i < |s| - |TrimStart(s)| ==> IsTrimmable(s[i])
    decreases |s|
  {
    if s != [] && IsTrimmable(s[0]) {
      var t := s[1..];
      TrimStartDropsBlanks(t);
      var r := TrimStart(t);
      assert t[|t| - |r|..] == s[|s| - |r|..];
      forall i | 0 <= i < |s| - |r| ensures IsTrimmable(s[i]) {
        if i > 0 {
          assert s[i] == t[i - 1];
        }
      }
    }
  }

  /** TrimEnd keeps a prefix, which does not end with a trimmable code point, and drops only
      trimmable ones. */
  lemma {:induction false} TrimEndDropsBlanks(s: string)
    ensures |TrimEnd(s)| <= |s| && TrimEnd(s) == s[..|TrimEnd(s)|]
    ensures TrimEnd(s) == [] || !IsTrimmable(TrimEnd(s)[|TrimEnd(s)| - 1])
    ensures forall i :: |TrimEnd(s)| <= i < |s| ==> IsTrimmable(s[i])
    decreases |s|
  {
    if s != [] && IsTrimmable(s[|s| - 1]) {
      var t := s[..|s| - 1];
      TrimEndDropsBlanks(t);
      var r := TrimEnd(t);
      assert t[..|r|] == s[..|r|];
      forall i | |r| <= i < |s| ensures IsTrimmable(s[i]) {
        if i < |s| - 1 {
          assert s[i] == t[i];
        }
      }
    }
  }

  /** `s.trim()`. */
  function Trim(s: string): string {
    TrimEnd(TrimStart(s))
  }

  /** `!s.trim()`: the trimmed string is empty, hence falsy. */
  predicate IsBlank(s: string) {
    Trim(s) == []
  }

  /** A title is blank exactly when every one of its code points is white space or a line terminator. */
  lemma BlankIffAllTrimmable(s: string)
    ensures IsBlank(s) <==> forall i :: 0 <= i < |s| ==> IsTrimmable(s[i])
  {
    TrimStartDropsBlanks(s);
    var t := TrimStart(s);
    TrimEndDropsBlanks(t);
    if !IsBlank(s) {
      var r := TrimEnd(t);
      assert r != [] && !IsTrimmable(r[0]);
      assert r[0] == t[0] == s[|s| - |t|];
    }
  }

  // ---------------------------------------------------------------- JSON quoting

  /** Lower-case hexadecimal digit, as UnicodeEscape writes it. */
  function HexDigit(n: nat): (c: char)
    requires n < 16
    ensures HexValue(c) == Some(n)
  {
    if n < 10 then ('0' as int + n) as char else ('a' as int + n - 10) as char
  }

  /** The value of a hexadecimal digit of either case. */
  function HexValue(c: char): (r: Option<nat>)
    ensures r.Some? ==> r.value < 16
  {
    if '0' <= c <= '9' then Some(c as int - '0' as int)
    else if 'a' <= c <= 'f' then Some(c as int - 'a' as int + 10)
    else if 'A' <= c <= 'F' then Some(c as int - 'A' as int + 10)
    else None
  }

  /** How QuoteJSONString writes one code point. */
  function EscapeChar(c: char): (r: string)
    ensures |r| >= 1
    ensures r[0] == '\\' <==> (c == '"' || c == '\\' || c as int < 0x20)
    ensures r[0] != '\\' ==> r == [c]
  {
    var n := c as int;
    if n == 0x08 then "\\b"
    else if n == 0x09 then "\\t"
    else if n == 0x0A then "\\n"
    else if n == 0x0C then "\\f"
    else if n == 0x0D then "\\r"
    else if c == '"' then "\\\""
    else if c == '\\' then "\\\\"
    else if n < 0x20 then "\\u00" + [HexDigit(n / 16), HexDigit(n % 16)]
    else [c]
  }

  /** The characters between the quotes of QuoteJSONString(s). */
  function EscapeAll(s: string): (r: string)
    decreases |s|
  {
    if s == [] then [] else EscapeChar(s[0]) + EscapeAll(s[1..])
  }

  /** QuoteJSONString(s): the JSON text of the string `s`. */
  function Quote(s: string): string {
    "\"" + EscapeAll(s) + "\""
  }

  // ---------------------------------------------------------------- JSON string parsing

  /** Decodes the escape sequence after a backslash to a code point and the number of
      characters consumed. A `\u` escape naming a surrogate is refused (it is not a `char`). */
  function DecodeEscape(s: string): (r: Option<(char, nat)>)
    ensures r.Some? ==> 1 <= r.value.1 <= |s|
  {
    if s == [] then None
    else if s[0] == '"' then Some(('"', 1))
    else if s[0] == '\\' then Some(('\\', 1))
    else if s[0] == '/' then Some(('/', 1))
    else if s[0] == 'b' then Some((8 as char, 1))
    else if s[0] == 'f' then Some((12 as char, 1))
    else if s[0] == 'n' then Some(('\n', 1))
    else if s[0] == 'r' then Some(('\r', 1))
    else if s[0] == 't' then Some(('\t', 1))
    else if s[0] == 'u' && |s| >= 5 then
      match (HexValue(s[1]), HexValue(s[2]), HexValue(s[3]), HexValue(s[4]))
      case (Some(a), Some(b), Some(c), Some(d)) =>
        var n := ((a * 16 + b) * 16 + c) * 16 + d;
        if n < 0xD800 || 0xE000 <= n then Some((n as char, 5)) else None
      case _ => None
    else None
  }

  /** Parses the characters of a JSON string up to its closing quote;
      answers the decoded string and what follows the closing quote. */
  function UnescapeAll(s: string): (r: Option<(string, string)>)
    decreases |s|
  {
    if s == [] then None
    else if s[0] == '"' then Some(([], s[1..]))
    else if s[0] == '\\' then
      match DecodeEscape(s[1..])
      case None => None
      case Some((c, k)) =>
        match UnescapeAll(s[1 + k..])
        case None => None
        case Some((t, rest)) => Some(([c] + t, rest))
    else if s[0] as int < 0x20 then None
    else
      match UnescapeAll(s[1..])
      case None => None
      case Some((t, rest)) => Some(([s[0]] + t, rest))
  }

  /** Parses a JSON string at the head of `s`; answers its value and what follows it. */
  function UnquotePrefix(s: string): (r: Option<(string, string)>) {
    if s != [] && s[0] == '"' then UnescapeAll(s[1..]) else None
  }

  /** Decoding the escape of one code point gives back that code point and continues after it. */
  lemma {:induction false} UnescapeCharStep(c: char, u: string)
    ensures UnescapeAll(EscapeChar(c) + u) ==
      match UnescapeAll(u)
      case None => None
      case Some((t, rest)) => Some(([c] + t, rest))
  {
    var e := EscapeChar(c);
    var s := e + u;
    var n := c as int;
    if e[0] == '\\' {
      assert s[0] == '\\';
      if n < 0x20 && n != 0x08 && n != 0x09 && n != 0x0A && n != 0x0C && n != 0x0D {
        var hi, lo := n / 16, n % 16;
        assert e == ['\\', 'u', '0', '0', HexDigit(hi), HexDigit(lo)];
        assert s[1..] == ['u', '0', '0', HexDigit(hi), HexDigit(lo)] + u;
        assert HexValue('0') == Some(0);
        assert DecodeEscape(s[1..]) == Some((c, 5));
        assert s[6..] == u;
      } else {
        assert |e| == 2;
        assert s[1..] == [e[1]] + u;
        assert DecodeEscape(s[1..]) == Some((c, 1));
        assert s[2..] == u;
      }
    } else {
      assert e == [c];
      assert s[1..] == u;
    }
  }

  /** Parsing what QuoteJSONString wrote between the quotes recovers the string exactly. */
  lemma {:induction false} UnescapeAllRoundTrip(s: string, rest: string)
    ensures UnescapeAll(EscapeAll(s) + "\"" + rest) == Some((s, rest))
    decreases |s|
  {
    if s == [] {
      assert EscapeAll(s) + "\"" + rest == ['"'] + rest;
    } else {
      assert EscapeAll(s) + "\"" + rest == EscapeChar(s[0]) + (EscapeAll(s[1..]) + "\"" + rest);
      UnescapeAllRoundTrip(s[1..], rest);
      UnescapeCharStep(s[0], EscapeAll(s[1..]) + "\"" + rest);
      assert [s[0]] + s[1..] == s;
    }
  }

  /** A JSON string followed by anything parses back to the quoted string and that remainder. */
  lemma QuoteRoundTrip(s: string, rest: string)
    ensures UnquotePrefix(Quote(s) + rest) == Some((s, rest))
  {
    assert Quote(s) + rest == ['"'] + (EscapeAll(s) + "\"" + rest);
    UnescapeAllRoundTrip(s, rest);
  }
}
