/** The server-sent-event frame `stream` yields for one chunk of model output:
    "data: " + json.dumps({"content": c}) + "\n\n". The JSON text is what
    Python's json.dumps writes with its defaults (ensure_ascii=True,
    separators ", " and ": "): `"` and `\` are backslash-escaped, the five
    control characters \b \f \n \r \t get their short escapes, every other
    character outside the printable ASCII range ' '..'~' becomes \uXXXX in
    lower-case hex, characters above U+FFFF as a UTF-16 surrogate pair.
    A decoder for such frames is the encoding's partner. */
module Sse {
  import opened PyValues

  // ---------------------------------------------------------------- hex

  function HexDigit(d: nat): (c: char)
    requires d < 16
    ensures '0' <= c <= '9' || 'a' <= c <= 'f'
  {
    if d < 10 then ('0' as int + d) as char else ('a' as int + d - 10) as char
  }

  function HexValue(c: char): Option<nat>
  {
    if '0' <= c <= '9' then Some(c as int - '0' as int)
    else if 'a' <= c <= 'f' then Some(c as int - 'a' as int + 10)
    else if 'A' <= c <= 'F' then Some(c as int - 'A' as int + 10)
    else None
  }

  /** Two lower-case hex digits of a byte. */
  function Hex2(b: nat): (s: string)
    requires b < 256
    ensures |s| == 2
  {
    [HexDigit(b / 16), HexDigit(b % 16)]
  }

  /** Four lower-case hex digits, as `'\\u{0:04x}'` writes them. */
  function Hex4(n: nat): (s: string)
    requires n < 0x10000
    ensures |s| == 4
  {
    Hex2(n / 256) + Hex2(n % 256)
  }

  function ParseHex2(s: string): Option<nat>
    requires |s| == 2
  {
    match (HexValue(s[0]), HexValue(s[1]))
    case (Some(hi), Some(lo)) => Some(hi * 16 + lo)
    case _ => None
  }

  function ParseHex4(s: string): Option<nat>
    requires |s| == 4
  {
    match (ParseHex2(s[..2]), ParseHex2(s[2..]))
    case (Some(hi), Some(lo)) => Some(hi * 256 + lo)
    case _ => None
  }

  lemma HexDigitValue(d: nat)
    requires d < 16
    ensures HexValue(HexDigit(d)) == Some(d)
  {
  }

  lemma Hex2RoundTrip(b: nat)
    requires b < 256
    ensures ParseHex2(Hex2(b)) == Some(b)
  {
    HexDigitValue(b / 16);
    HexDigitValue(b % 16);
  }

  lemma Hex4RoundTrip(n: nat)
    requires n < 0x10000
    ensures ParseHex4(Hex4(n)) == Some(n)
  {
    var s := Hex4(n);
    assert s[..2] == Hex2(n / 256) && s[2..] == Hex2(n % 256);
    Hex2RoundTrip(n / 256);
    Hex2RoundTrip(n % 256);
  }

  // ---------------------------------------------------------------- encoding

  /** A character json.dumps writes unchanged. */
  predicate PlainAscii(c: char)
  {
    ' ' <= c <= '~' && c != '"' && c != '\\'
  }

  /** The JSON text of one character: the character itself exactly when it
      is plain ASCII, and otherwise an escape starting with a backslash. */
  function EscapeChar(c: char): (s: string)
    ensures PlainAscii(c) <==> s == [c]
    ensures !PlainAscii(c) ==> |s| >= 2 && s[0] == '\\'
  {
    if c == '"' then "\\\""
    else if c == '\\' then "\\\\"
    else if c as int == 8 then "\\b"
    else if c as int == 12 then "\\f"
    else if c == '\n' then "\\n"
    else if c == '\r' then "\\r"
    else if c == '\t' then "\\t"
    else if ' ' <= c <= '~' then [c]
    else if c as int < 0x10000 then "\\u" + Hex4(c as int)
    else
      var v := c as int - 0x10000;
      "\\u" + Hex4(0xD800 + v / 0x400) + "\\u" + Hex4(0xDC00 + v % 0x400)
  }

  /** The body of the JSON string literal for `s`: never shorter than `s`,
      and empty only for the empty string. */
  function JsonEscape(s: string): (r: string)
    ensures |r| >= |s|
    ensures r == [] <==> s == []
  {
    if s == [] then [] else EscapeChar(s[0]) + JsonEscape(s[1..])
  }

  /** A string of plain ASCII characters is written unchanged. */
  lemma {:induction false} JsonEscapeKeepsPlain(s: string)
    requires forall i :: 0 <= i < |s| ==> PlainAscii(s[i])
    ensures JsonEscape(s) == s
  {
    if s != [] {
      JsonEscapeKeepsPlain(s[1..]);
      assert [s[0]] + s[1..] == s;
    }
  }

  const FramePrefix: string := "data: {\"content\": \""
  const FrameSuffix: string := "\"}\n\n"

  /** `f"data: {json.dumps({'content': c})}\n\n"` */
  function Frame(c: string): (f: string)
    ensures |f| == |FramePrefix| + |JsonEscape(c)| + |FrameSuffix|
    ensures f[..|FramePrefix|] == FramePrefix
    ensures f[|f| - |FrameSuffix|..] == FrameSuffix
  {
    FramePrefix + JsonEscape(c) + FrameSuffix
  }

  // ---------------------------------------------------------------- decoding

  /** The character a two-character escape `\x` stands for. */
  function ShortEscape(x: char): Option<char>
  {
    if x == '"' then Some('"')
    else if x == '\\' then Some('\\')
    else if x == '/' then Some('/')
    else if x == 'b' then Some(8 as char)
    else if x == 'f' then Some(12 as char)
    else if x == 'n' then Some('\n')
    else if x == 'r' then Some('\r')
    else if x == 't' then Some('\t')
    else None
  }

  /** The character a `\uXXXX` escape at the start of `s` stands for (two
      of them for a surrogate pair), and how many characters it takes. A
      lone surrogate is rejected: a string here holds Unicode scalar values
      only. */
  function DecodeUnicode(s: string): (r: Option<(char, nat)>)
    requires |s| >= 6
    ensures r.Some? ==> r.value.1 <= |s| && (r.value.1 == 6 || r.value.1 == 12)
  {
    match ParseHex4(s[2..6])
    case None => None
    case Some(n) =>
      if 0xD800 <= n < 0xDC00 then
        if |s| >= 12 && s[6] == '\\' && s[7] == 'u' then
          match ParseHex4(s[8..12])
          case None => None
          case Some(m) =>
            if 0xDC00 <= m < 0xE000 then Some(((0x10000 + (n - 0xD800) * 0x400 + (m - 0xDC00)) as char, 12))
            else None
        else None
      else if 0xDC00 <= n < 0xE000 then None
      else Some((n as char, 6))
  }

  /** The character the escape sequence or plain character at the start of
      `s` stands for, and how many characters it takes. */
  function DecodeOne(s: string): (r: Option<(char, nat)>)
    requires |s| > 0
    ensures r.Some? ==> 1 <= r.value.1 <= |s|
  {
    if s[0] == '\\' then
      if |s| < 2 then None
      else if s[1] == 'u' then (if |s| >= 6 then DecodeUnicode(s) else None)
      else
        match ShortEscape(s[1])
        case None => None
        case Some(c) => Some((c, 2))
    else if s[0] == '"' || s[0] as int < 0x20 then None
    else Some((s[0], 1))
  }

  /** The string a JSON string literal body stands for, if it is one. */
  function Unescape(s: string): Option<string>
    decreases |s|
  {
    if s == [] then Some([])
    else
      match DecodeOne(s)
      case None => None
      case Some((c, k)) =>
        match Unescape(s[k..])
        case None => None
        case Some(rest) => Some([c] + rest)
  }

  /** The content carried by a frame, if the frame has the shape `stream`
      writes. */
  function ParseFrame(f: string): Option<string>
  {
    if |f| >= |FramePrefix| + |FrameSuffix|
       && f[..|FramePrefix|] == FramePrefix
       && f[|f| - |FrameSuffix|..] == FrameSuffix
    then Unescape(f[|FramePrefix|..|f| - |FrameSuffix|])
    else None
  }

  // ---------------------------------------------------------------- round trip

  lemma DecodeBmpEscape(c: char, rest: string)
    requires !(' ' <= c <= '~') && c as int < 0x10000
    requires c != '"' && c != '\\' && c as int != 8 && c as int != 12 && c != '\n' && c != '\r' && c != '\t'
    ensures DecodeOne(EscapeChar(c) + rest) == Some((c, 6))
  {
    var s := EscapeChar(c) + rest;
    assert s[2..6] == Hex4(c as int);
    Hex4RoundTrip(c as int);
  }

  lemma DecodeSurrogatePair(c: char, rest: string)
    requires c as int >= 0x10000
    ensures DecodeOne(EscapeChar(c) + rest) == Some((c, 12))
  {
    var v := c as int - 0x10000;
    var hi := 0xD800 + v / 0x400;
    var lo := 0xDC00 + v % 0x400;
    var s := EscapeChar(c) + rest;
    assert EscapeChar(c) == "\\u" + Hex4(hi) + "\\u" + Hex4(lo);
    assert s[2..6] == Hex4(hi);
    assert s[6] == '\\' && s[7] == 'u';
    assert s[8..12] == Hex4(lo);
    Hex4RoundTrip(hi);
    Hex4RoundTrip(lo);
    assert 0x10000 + (hi - 0xD800) * 0x400 + (lo - 0xDC00) == c as int;
  }

  /** Decoding the start of an escaped character gives back the character
      and the length of its escape. */
  lemma DecodeEscapeChar(c: char, rest: string)
    ensures DecodeOne(EscapeChar(c) + rest) == Some((c, |EscapeChar(c)|))
  {
    var e := EscapeChar(c);
    var s := e + rest;
    if c == '"' || c == '\\' || c as int == 8 || c as int == 12 || c == '\n' || c == '\r' || c == '\t' {
      assert s[0] == '\\' && s[1] == e[1];
    } else if ' ' <= c <= '~' {
      assert s[0] == c;
    } else if c as int < 0x10000 {
      DecodeBmpEscape(c, rest);
    } else {
      DecodeSurrogatePair(c, rest);
    }
  }

  /** Decoding the escaped text gives back the original string. */
  lemma {:induction false} UnescapeJsonEscape(s: string)
    ensures Unescape(JsonEscape(s)) == Some(s)
  {
    if s != [] {
      var e := EscapeChar(s[0]);
      var rest := JsonEscape(s[1..]);
      assert JsonEscape(s) == e + rest;
      DecodeEscapeChar(s[0], rest);
      assert (e + rest)[|e|..] == rest;
      UnescapeJsonEscape(s[1..]);
      assert [s[0]] + s[1..] == s;
    }
  }

  /** Every frame decodes to exactly the content it was made from. */
  lemma FrameRoundTrip(c: string)
    ensures ParseFrame(Frame(c)) == Some(c)
  {
    var f := Frame(c);
    assert f[|FramePrefix|..|f| - |FrameSuffix|] == JsonEscape(c);
    UnescapeJsonEscape(c);
  }

  lemma Hex4Printable(n: nat)
    requires n < 0x10000
    ensures forall i :: 0 <= i < 4 ==> ' ' <= Hex4(n)[i] <= '~'
  {
  }

  lemma EscapeCharPrintable(c: char)
    ensures forall i :: 0 <= i < |EscapeChar(c)| ==> ' ' <= EscapeChar(c)[i] <= '~'
  {
    if c == '"' || c == '\\' || c as int == 8 || c as int == 12 || c == '\n' || c == '\r' || c == '\t' || ' ' <= c <= '~' {
    } else if c as int < 0x10000 {
      Hex4Printable(c as int);
    } else {
      var v := c as int - 0x10000;
      Hex4Printable(0xD800 + v / 0x400);
      Hex4Printable(0xDC00 + v % 0x400);
    }
  }

  /** The escaped text is printable ASCII only. */
  lemma {:induction false} JsonEscapePrintable(s: string)
    ensures forall i :: 0 <= i < |JsonEscape(s)| ==> ' ' <= JsonEscape(s)[i] <= '~'
  {
    if s != [] {
      var e := EscapeChar(s[0]);
      var r := JsonEscape(s[1..]);
      EscapeCharPrintable(s[0]);
      JsonEscapePrintable(s[1..]);
      assert JsonEscape(s) == e + r;
    }
  }

  /** A frame has no line break before its closing blank line, so the SSE
      stream splits into exactly one data line per chunk, whatever the
      chunk contains. */
  lemma FrameSingleLine(c: string)
    ensures forall i :: 0 <= i < |Frame(c)| - 2 ==> Frame(c)[i] != '\n' && Frame(c)[i] != '\r'
  {
    var e := JsonEscape(c);
    JsonEscapePrintable(c);
    var f := Frame(c);
    assert forall i :: |FramePrefix| <= i < |FramePrefix| + |e| ==> f[i] == e[i - |FramePrefix|];
    assert forall i :: |FramePrefix| + |e| <= i < |f| ==> f[i] == FrameSuffix[i - |FramePrefix| - |e|];
  }
}
