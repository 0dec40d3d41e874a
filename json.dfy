/**
 * The part of Python's `json.dumps` (default settings: `ensure_ascii=True`,
 * separators `", "` and `": "`) that the history manager uses to turn its step
 * list into text: a list of flat objects whose values are strings or integers.
 */
module Json {
  import opened Text
  import opened Wrappers

  datatype Value = Str(s: string) | Int(i: int)

  /** A JSON object as the key/value pairs of a Python dict, in insertion order. */
  type Object = seq<(string, Value)>

  predicate IsPrintableAscii(ch: char) {
    ' ' <= ch <= '~'
  }

  /** A lower-case hexadecimal digit. */
  function HexDigit(d: nat): (ch: char)
    requires d < 16
    ensures IsPrintableAscii(ch)
  {
    if d < 10 then (48 + d) as char else (87 + d) as char
  }

  /** `'{0:04x}'.format(n)`: four lower-case hexadecimal digits, most significant first. */
  function Hex4(n: nat): (r: string)
    requires n < 0x1_0000
    ensures |r| == 4
  {
    var n1 := n / 16;
    var n2 := n1 / 16;
    [HexDigit(n2 / 16), HexDigit(n2 % 16), HexDigit(n1 % 16), HexDigit(n % 16)]
  }

  /** The escape `json.dumps` writes for one character of a string. */
  function EscapeChar(ch: char): (r: string)
    ensures 1 <= |r| <= 12
    ensures forall k :: 0 <= k < |r| ==> IsPrintableAscii(r[k])
  {
    if ch == '"' then "\\\""
    else if ch == '\\' then "\\\\"
    else if ch == '\n' then "\\n"
    else if ch == '\r' then "\\r"
    else if ch == '\t' then "\\t"
    else if ch == '\U{0008}' then "\\b"
    else if ch == '\U{000C}' then "\\f"
    else if IsPrintableAscii(ch) then [ch]
    else if (ch as int) < 0x1_0000 then "\\u" + Hex4(ch as int)
    else
      var m := (ch as int) - 0x1_0000;
      "\\u" + Hex4(0xD800 + m / 0x400) + "\\u" + Hex4(0xDC00 + m % 0x400)
  }

  /** The body of a JSON string literal: every character escaped in turn. */
  function Escape(s: string): (r: string)
    ensures |r| >= |s|
    ensures forall k :: 0 <= k < |r| ==> IsPrintableAscii(r[k])
    decreases |s|
  {
    if |s| == 0 then "" else EscapeChar(s[0]) + Escape(s[1..])
  }

  function Quote(s: string): string {
    "\"" + Escape(s) + "\""
  }

  function DumpValue(v: Value): string {
    match v
    case Str(s) => Quote(s)
    case Int(i) => IntToString(i)
  }

  function DumpObject(o: Object): string {
    "{" + Join(seq(|o|, k requires 0 <= k < |o| => Quote(o[k].0) + ": " + DumpValue(o[k].1)), ", ") + "}"
  }

  /** `json.dumps(objects)` for a list of flat objects. */
  function DumpList(objects: seq<Object>): string {
    "[" + Join(seq(|objects|, k requires 0 <= k < |objects| => DumpObject(objects[k])), ", ") + "]"
  }

  // ---------------------------------------------------------------------------
  // The decoder side (`json.loads` on a string literal body), as the reference
  // that the escaping is checked against.

  predicate IsHexDigit(ch: char) {
    '0' <= ch <= '9' || 'a' <= ch <= 'f'
  }

  function HexValue(ch: char): (d: nat)
    requires IsHexDigit(ch)
    ensures d < 16
  {
    if ch <= '9' then ch as int - '0' as int else ch as int - 'a' as int + 10
  }

  predicate IsHex4At(s: string, i: nat) {
    i + 4 <= |s| && IsHexDigit(s[i]) && IsHexDigit(s[i + 1]) && IsHexDigit(s[i + 2]) && IsHexDigit(s[i + 3])
  }

  function Hex4Value(s: string, i: nat): (n: nat)
    requires IsHex4At(s, i)
    ensures n < 0x1_0000
  {
    HexValue(s[i]) * 0x1000 + HexValue(s[i + 1]) * 0x100 + HexValue(s[i + 2]) * 16 + HexValue(s[i + 3])
  }

  predicate IsScalar(n: int) {
    0 <= n < 0xD800 || 0xE000 <= n < 0x11_0000
  }

  /** One decoded character and the number of input characters it took, or None on bad input. */
  function DecodeOne(s: string): (r: Option<(char, nat)>)
    requires |s| > 0
    ensures r.Some? ==> 1 <= r.value.1 <= |s|
  {
    if s[0] != '\\' then Some((s[0], 1))
    else if |s| < 2 then None
    else if s[1] == '"' then Some(('"', 2))
    else if s[1] == '\\' then Some(('\\', 2))
    else if s[1] == 'n' then Some(('\n', 2))
    else if s[1] == 'r' then Some(('\r', 2))
    else if s[1] == 't' then Some(('\t', 2))
    else if s[1] == 'b' then Some(('\U{0008}', 2))
    else if s[1] == 'f' then Some(('\U{000C}', 2))
    else if s[1] != 'u' || !IsHex4At(s, 2) then None
    else
      var hi := Hex4Value(s, 2);
      if 0xD800 <= hi < 0xDC00 then
        if |s| >= 12 && s[6] == '\\' && s[7] == 'u' && IsHex4At(s, 8)
           && 0xDC00 <= Hex4Value(s, 8) < 0xE000
        then Some(((0x1_0000 + (hi - 0xD800) * 0x400 + (Hex4Value(s, 8) - 0xDC00)) as char, 12))
        else None
      else if IsScalar(hi) then Some((hi as char, 6))
      else None
  }

  /** The decoded string, or None when the input holds a malformed escape. */
  function Unescape(s: string): Option<string>
    decreases |s|
  {
    if |s| == 0 then Some("")
    else
      var d := DecodeOne(s);
      if d.None? then None
      else
        var rest := Unescape(s[d.value.1..]);
        if rest.None? then None else Some([d.value.0] + rest.value)
  }

  lemma Hex4RoundTrip(n: nat, s: string, i: nat)
    requires n < 0x1_0000
    requires i + 4 <= |s| && s[i..i + 4] == Hex4(n)
    ensures IsHex4At(s, i) && Hex4Value(s, i) == n
  {
    var n1 := n / 16;
    var n2 := n1 / 16;
    var h := Hex4(n);
    assert s[i] == h[0] && s[i + 1] == h[1] && s[i + 2] == h[2] && s[i + 3] == h[3];
    HexDigitValue(n2 / 16);
    HexDigitValue(n2 % 16);
    HexDigitValue(n1 % 16);
    HexDigitValue(n % 16);
    assert n == n1 * 16 + n % 16;
    assert n1 == n2 * 16 + n1 % 16;
    assert n2 == (n2 / 16) * 16 + n2 % 16;
  }

  lemma HexDigitValue(d: nat)
    requires d < 16
    ensures IsHexDigit(HexDigit(d)) && HexValue(HexDigit(d)) == d
  {
  }

  /** The two surrogate halves of a supplementary code point, and their recombination. */
  lemma SurrogateHalves(c: int)
    requires 0x1_0000 <= c < 0x11_0000
    ensures var m := c - 0x1_0000;
      && 0xD800 <= 0xD800 + m / 0x400 < 0xDC00
      && 0xDC00 <= 0xDC00 + m % 0x400 < 0xE000
      && 0x1_0000 + (m / 0x400) * 0x400 + m % 0x400 == c
  {
  }

  /** A character outside the Basic Multilingual Plane is written as a surrogate pair that decodes back to it. */
  lemma DecodeSurrogatePair(ch: char, rest: string)
    requires (ch as int) >= 0x1_0000
    ensures DecodeOne(EscapeChar(ch) + rest) == Some((ch, 12))
  {
    var m := (ch as int) - 0x1_0000;
    var hi, lo := 0xD800 + m / 0x400, 0xDC00 + m % 0x400;
    var s := EscapeChar(ch) + rest;
    assert EscapeChar(ch) == "\\u" + Hex4(hi) + "\\u" + Hex4(lo);
    assert s[2..6] == Hex4(hi) && s[8..12] == Hex4(lo);
    Hex4RoundTrip(hi, s, 2);
    Hex4RoundTrip(lo, s, 8);
    assert s[0] == '\\' && s[1] == 'u' && s[6] == '\\' && s[7] == 'u';
    SurrogateHalves(ch as int);
    assert hi - 0xD800 == m / 0x400 && lo - 0xDC00 == m % 0x400;
  }

  /** A control or non-ASCII character of the Basic Multilingual Plane is written as one `\uXXXX`. */
  lemma DecodeBmp(ch: char, rest: string)
    requires (ch as int) < 0x1_0000 && !IsPrintableAscii(ch)
    requires ch != '\n' && ch != '\r' && ch != '\t' && ch != '\U{0008}' && ch != '\U{000C}'
    ensures DecodeOne(EscapeChar(ch) + rest) == Some((ch, 6))
  {
    var s := EscapeChar(ch) + rest;
    assert EscapeChar(ch) == "\\u" + Hex4(ch as int);
    assert s[2..6] == Hex4(ch as int);
    Hex4RoundTrip(ch as int, s, 2);
  }

  /** Decoding the escape of one character, followed by anything, yields that character first. */
  lemma DecodeEscapeChar(ch: char, rest: string)
    ensures DecodeOne(EscapeChar(ch) + rest) == Some((ch, |EscapeChar(ch)|))
  {
    if !IsPrintableAscii(ch) && ch != '\n' && ch != '\r' && ch != '\t'
       && ch != '\U{0008}' && ch != '\U{000C}' {
      if (ch as int) < 0x1_0000 {
        DecodeBmp(ch, rest);
      } else {
        DecodeSurrogatePair(ch, rest);
      }
    }
  }

  /** Escaping then decoding gives back the string: no information is lost. */
  lemma {:induction false} EscapeRoundTrip(s: string)
    ensures Unescape(Escape(s)) == Some(s)
    decreases |s|
  {
    if |s| > 0 {
      var e := EscapeChar(s[0]);
      var t := Escape(s);
      assert t == e + Escape(s[1..]);
      DecodeEscapeChar(s[0], Escape(s[1..]));
      assert t[|e|..] == Escape(s[1..]);
      EscapeRoundTrip(s[1..]);
      assert s == [s[0]] + s[1..];
    }
  }
}
