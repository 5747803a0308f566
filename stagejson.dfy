/** The JSON values a stage configuration carries, and `json.dumps` with Python's
    defaults (`ensure_ascii=True`, separators `", "` and `": "`), which is how
    the plugin hands its `overrides` dictionary to Terraform. Floats are not
    modelled. */
module StageJson {
  import opened Wrappers
  import Decimal

  /** A JSON value; an object keeps its members in insertion order, as a Python
      dict does. */
  datatype Json =
    | Null
    | Bool(b: bool)
    | Int(i: int)
    | Str(s: string)
    | Array(items: seq<Json>)
    | Object(fields: seq<(string, Json)>)

  const Backslash: char := '\\'
  const Quote: char := '"'

  /** Characters `ensure_ascii` leaves as they are: space through tilde. */
  predicate Printable(c: char) {
    ' ' <= c <= '~'
  }

  predicate AllPrintable(s: string) {
    forall c | c in s :: Printable(c)
  }

  /** Lower-case hexadecimal digit, as in `'\\u{0:04x}'`. */
  function HexDigit(d: nat): (c: char)
    requires d < 16
    ensures Printable(c) && c != Quote
  {
    if d < 10 then ('0' as int + d) as char else ('a' as int + d - 10) as char
  }

  function HexValue(c: char): Option<nat> {
    if '0' <= c <= '9' then Some(c as int - '0' as int)
    else if 'a' <= c <= 'f' then Some(c as int - 'a' as int + 10)
    else None
  }

  /** Four lower-case hexadecimal digits of a 16-bit code unit. */
  function Hex4(n: nat): (h: string)
    requires n < 0x1_0000
    ensures |h| == 4 && AllPrintable(h) && Quote !in h
  {
    var n1 := n / 16;
    var n2 := n1 / 16;
    [HexDigit(n2 / 16), HexDigit(n2 % 16), HexDigit(n1 % 16), HexDigit(n % 16)]
  }

  function ParseHex4(h: string): Option<nat>
    requires |h| == 4
  {
    match (HexValue(h[0]), HexValue(h[1]), HexValue(h[2]), HexValue(h[3]))
    case (Some(a), Some(b), Some(c), Some(d)) => Some(((a * 16 + b) * 16 + c) * 16 + d)
    case _ => None
  }

  function UEscape(n: nat): (e: string)
    requires n < 0x1_0000
    ensures |e| == 6 && AllPrintable(e) && Quote !in e
  {
    [Backslash, 'u'] + Hex4(n)
  }

  /** The escape of one character: the short forms for the quote, the backslash
      and five control characters, the character itself when printable, a `\u`
      escape for any other character of the basic plane and a surrogate pair of
      them beyond it. */
  function EscapeChar(c: char): (e: string)
    ensures AllPrintable(e)
  {
    if c == Quote then [Backslash, Quote]
    else if c == Backslash then [Backslash, Backslash]
    else if c == '\n' then [Backslash, 'n']
    else if c == '\r' then [Backslash, 'r']
    else if c == '\t' then [Backslash, 't']
    else if c == 8 as char then [Backslash, 'b']
    else if c == 12 as char then [Backslash, 'f']
    else if Printable(c) then [c]
    else if c as int < 0x1_0000 then UEscape(c as int)
    else
      var n := c as int - 0x1_0000;
      UEscape(0xD800 + n / 0x400) + UEscape(0xDC00 + n % 0x400)
  }

  function EscapeChars(s: string): (e: string)
    ensures AllPrintable(e)
  {
    if s == [] then [] else EscapeChar(s[0]) + EscapeChars(s[1..])
  }

  /** A string literal: the escaped characters between double quotes. */
  function Quoted(s: string): (q: string)
    ensures AllPrintable(q)
  {
    [Quote] + EscapeChars(s) + [Quote]
  }

  function Join(parts: seq<string>, sep: string): (r: string)
    ensures AllPrintable(sep) && (forall i :: 0 <= i < |parts| ==> AllPrintable(parts[i])) ==> AllPrintable(r)
  {
    if parts == [] then []
    else if |parts| == 1 then parts[0]
    else parts[0] + sep + Join(parts[1..], sep)
  }

  /** `json.dumps(j)`. */
  function Dumps(j: Json): (text: string)
    ensures AllPrintable(text)
  {
    match j
    case Null => "null"
    case Bool(b) => if b then "true" else "false"
    case Int(i) => DecimalText(i)
    case Str(s) => Quoted(s)
    case Array(items) =>
      "[" + Join(seq(|items|, k requires 0 <= k < |items| => Dumps(items[k])), ", ") + "]"
    case Object(fields) =>
      "{" + Join(seq(|fields|, k requires 0 <= k < |fields| => Quoted(fields[k].0) + ": " + Dumps(fields[k].1)), ", ")
      + "}"
  }

  /** `int.__repr__`: an optional minus sign and decimal digits. */
  function DecimalText(i: int): (t: string)
    ensures AllPrintable(t)
  {
    var t := Decimal.IntToString(i);
    assert forall k :: 0 <= k < |t| ==> Printable(t[k]) by {
      if i < 0 {
        assert t == "-" + Decimal.NatToString(-i);
      }
    }
    t
  }

  // ---------------------------------------------------------------------------
  // Reading the escapes back, as a JSON decoder does with a string literal's body.

  predicate HighSurrogate(n: nat) {
    0xD800 <= n < 0xDC00
  }

  predicate LowSurrogate(n: nat) {
    0xDC00 <= n < 0xE000
  }

  /** The character an escape letter stands for. */
  function ShortEscape(c: char): Option<char> {
    if c == Quote then Some(Quote)
    else if c == Backslash then Some(Backslash)
    else if c == '/' then Some('/')
    else if c == 'n' then Some('\n')
    else if c == 'r' then Some('\r')
    else if c == 't' then Some('\t')
    else if c == 'b' then Some(8 as char)
    else if c == 'f' then Some(12 as char)
    else None
  }

  /** The first character of an escaped text and how many characters it took,
      or `None` when the escape there is malformed or a surrogate stands alone. */
  function DecodeUnit(e: string): (r: Option<(char, nat)>)
    requires e != []
    ensures r.Some? ==> 0 < r.value.1 <= |e|
  {
    if e[0] != Backslash then Some((e[0], 1))
    else if |e| < 2 then None
    else if e[1] != 'u' then
      match ShortEscape(e[1])
      case Some(c) => Some((c, 2))
      case None => None
    else if |e| < 6 then None
    else match ParseHex4(e[2..6])
      case None => None
      case Some(n) =>
        if n < 0xD800 || 0xE000 <= n then Some((n as char, 6))
        else if !HighSurrogate(n) || |e| < 12 || e[6] != Backslash || e[7] != 'u' then None
        else match ParseHex4(e[8..12])
          case Some(m) =>
            if LowSurrogate(m) then Some((Combined(n, m) as char, 12)) else None
          case None => None
  }

  function Combined(hi: nat, lo: nat): (c: nat)
    requires HighSurrogate(hi) && LowSurrogate(lo)
    ensures 0x1_0000 <= c < 0x11_0000
  {
    0x1_0000 + (hi - 0xD800) * 0x400 + (lo - 0xDC00)
  }

  /** The body of a string literal decoded, or `None` when an escape in it is
      malformed or a surrogate stands alone. */
  function Unescape(e: string): (r: Option<string>)
    decreases |e|
  {
    if e == [] then Some([])
    else match DecodeUnit(e)
      case None => None
      case Some((c, len)) => Prepend(c, Unescape(e[len..]))
  }

  function Prepend(c: char, r: Option<string>): Option<string> {
    match r
    case Some(s) => Some([c] + s)
    case None => None
  }

  lemma HexDigitRoundTrip(d: nat)
    requires d < 16
    ensures HexValue(HexDigit(d)) == Some(d)
  {
  }

  lemma HexRoundTrip(n: nat)
    requires n < 0x1_0000
    ensures ParseHex4(Hex4(n)) == Some(n)
  {
    var n1 := n / 16;
    var n2 := n1 / 16;
    HexDigitRoundTrip(n2 / 16);
    HexDigitRoundTrip(n2 % 16);
    HexDigitRoundTrip(n1 % 16);
    HexDigitRoundTrip(n % 16);
    assert n2 / 16 * 16 + n2 % 16 == n2;
    assert n2 * 16 + n1 % 16 == n1;
    assert n1 * 16 + n % 16 == n;
  }

  lemma DecodeShort(c: char, rest: string)
    requires c == Quote || c == Backslash || c == '\n' || c == '\r' || c == '\t' || c == 8 as char || c == 12 as char
    ensures DecodeUnit(EscapeChar(c) + rest) == Some((c, |EscapeChar(c)|))
  {
  }

  lemma DecodeBasic(c: char, rest: string)
    requires !Printable(c) && c as int < 0x1_0000
    requires !(c == '\n' || c == '\r' || c == '\t' || c == 8 as char || c == 12 as char)
    ensures DecodeUnit(EscapeChar(c) + rest) == Some((c, |EscapeChar(c)|))
  {
    var e := EscapeChar(c) + rest;
    assert EscapeChar(c) == UEscape(c as int);
    HexRoundTrip(c as int);
    assert e[2..6] == Hex4(c as int);
  }

  /** A surrogate pair of `\u` escapes decodes to the character they combine to. */
  lemma DecodePair(hi: nat, lo: nat, rest: string)
    requires HighSurrogate(hi) && LowSurrogate(lo)
    ensures DecodeUnit(UEscape(hi) + UEscape(lo) + rest) == Some((Combined(hi, lo) as char, 12))
  {
    var e := UEscape(hi) + UEscape(lo) + rest;
    HexRoundTrip(hi);
    HexRoundTrip(lo);
    assert e[2..6] == Hex4(hi);
    assert e[6] == Backslash && e[7] == 'u';
    assert e[8..12] == Hex4(lo);
  }

  lemma AstralSplit(c: char)
    requires 0x1_0000 <= c as int
    ensures var n := c as int - 0x1_0000;
            && HighSurrogate(0xD800 + n / 0x400) && LowSurrogate(0xDC00 + n % 0x400)
            && Combined(0xD800 + n / 0x400, 0xDC00 + n % 0x400) == c as int
            && EscapeChar(c) == UEscape(0xD800 + n / 0x400) + UEscape(0xDC00 + n % 0x400)
  {
  }

  lemma DecodeAstral(c: char, rest: string)
    requires 0x1_0000 <= c as int
    ensures DecodeUnit(EscapeChar(c) + rest) == Some((c, |EscapeChar(c)|))
  {
    var n := c as int - 0x1_0000;
    var hi, lo := 0xD800 + n / 0x400, 0xDC00 + n % 0x400;
    AstralSplit(c);
    DecodePair(hi, lo, rest);
  }

  /** Decoding the escape of one character in front of more text gives back that
      character and the length of its escape. */
  lemma DecodeEscaped(c: char, rest: string)
    ensures DecodeUnit(EscapeChar(c) + rest) == Some((c, |EscapeChar(c)|))
  {
    if c == Quote || c == Backslash || c == '\n' || c == '\r' || c == '\t' || c == 8 as char || c == 12 as char {
      DecodeShort(c, rest);
    } else if Printable(c) {
    } else if c as int < 0x1_0000 {
      DecodeBasic(c, rest);
    } else {
      DecodeAstral(c, rest);
    }
  }

  /** The escaping `json.dumps` applies to a string is undone by a decoder. */
  lemma {:induction false} UnescapeEscaped(s: string)
    ensures Unescape(EscapeChars(s)) == Some(s)
  {
    if s != [] {
      UnescapeEscaped(s[1..]);
      var head, tail := EscapeChar(s[0]), EscapeChars(s[1..]);
      DecodeEscaped(s[0], tail);
      assert (head + tail)[|head|..] == tail;
      assert [s[0]] + s[1..] == s;
    }
  }

  /** The only quote an escape holds is the second character of `\"`. */
  lemma EscapeCharQuote(c: char, i: nat)
    requires i < |EscapeChar(c)| && EscapeChar(c)[i] == Quote
    ensures c == Quote && i == 1 && EscapeChar(c)[0] == Backslash
  {
  }

  /** The escaped body never holds a bare double quote, so the closing quote of
      `Quoted(s)` is the first unescaped one: every quote in it follows a
      backslash that is not itself escaped. */
  lemma {:induction false} EscapedQuotesAreEscaped(s: string)
    ensures forall i :: 0 <= i < |EscapeChars(s)| && EscapeChars(s)[i] == Quote ==>
              i > 0 && EscapeChars(s)[i - 1] == Backslash
  {
    if s != [] {
      EscapedQuotesAreEscaped(s[1..]);
      var head, tail := EscapeChar(s[0]), EscapeChars(s[1..]);
      assert EscapeChars(s) == head + tail;
      forall i | 0 <= i < |head + tail| && (head + tail)[i] == Quote
        ensures i > 0 && (head + tail)[i - 1] == Backslash
      {
        if i < |head| {
          EscapeCharQuote(s[0], i);
        } else {
          assert tail[i - |head|] == Quote;
        }
      }
    }
  }

  // ---------------------------------------------------------------------------

  /** The default `overrides` (`{}`) is dumped as `{}`. */
  lemma EmptyObjectDumps()
    ensures Dumps(Object([])) == "{}"
  {
  }

  lemma PlainChar(c: char)
    requires Printable(c) && c != Quote && c != Backslash
    ensures EscapeChar(c) == [c]
  {
  }

  /** Printable text without quotes or backslashes is left as it is. */
  lemma {:induction false} PlainUnescaped(s: string)
    requires forall c | c in s :: Printable(c) && c != Quote && c != Backslash
    ensures EscapeChars(s) == s
  {
    if s != [] {
      var head, tail := s[0], s[1..];
      assert head in s;
      PlainChar(head);
      assert forall c | c in tail :: c in s;
      PlainUnescaped(tail);
      assert EscapeChars(s) == EscapeChar(head) + EscapeChars(tail);
      assert s == [head] + tail;
    }
  }

  /** A one-member dictionary: the quoted key, `": "` and the value. */
  lemma OneMemberDumps(key: string, value: Json)
    ensures Dumps(Object([(key, value)])) == "{" + Quoted(key) + ": " + Dumps(value) + "}"
  {
    var parts := seq(1, k requires 0 <= k < 1 => Quoted([(key, value)][k].0) + ": " + Dumps([(key, value)][k].1));
    assert parts == [Quoted(key) + ": " + Dumps(value)];
  }

  lemma FooBarQuoted(key: string, value: string)
    requires key == "foo" && value == "bar"
    ensures Quoted(key) == [Quote] + "foo" + [Quote] && Quoted(value) == [Quote] + "bar" + [Quote]
  {
    assert key[0] == 'f' && key[1] == 'o' && key[2] == 'o';
    PlainUnescaped(key);
    assert value[0] == 'b' && value[1] == 'a' && value[2] == 'r';
    PlainUnescaped(value);
  }

  lemma FooBarText()
    ensures "{" + ([Quote] + "foo" + [Quote]) + ": " + ([Quote] + "bar" + [Quote]) + "}" == "{\"foo\": \"bar\"}"
  {
  }

  /** A one-member dictionary is dumped with `": "` between key and value. */
  lemma FooBarDumps(key: string, value: string)
    requires key == "foo" && value == "bar"
    ensures Dumps(Object([(key, Str(value))])) == "{\"foo\": \"bar\"}"
  {
    OneMemberDumps(key, Str(value));
    FooBarQuoted(key, value);
    FooBarText();
  }

  /** Non-ASCII text comes out as a `\u` escape. */
  lemma AccentDumps()
    ensures Dumps(Str("\U{e9}")) == "\"\\u00e9\""
  {
    assert Hex4(0xe9) == "00e9";
    assert EscapeChars("\U{e9}") == EscapeChar('\U{e9}');
  }

  /** The two `\u` escapes of U+1F600, quoted. */
  lemma SmileEscapes()
    ensures [Quote] + UEscape(0xD83D) + UEscape(0xDE00) + [Quote] == "\"\\ud83d\\ude00\""
  {
    assert UEscape(0xD83D) == "\\ud83d" by {
      assert 0xD83D / 16 == 0xD83 && 0xD83 / 16 == 0xD8;
      assert HexDigit(0xD) == 'd' && HexDigit(8) == '8' && HexDigit(3) == '3';
    }
    assert UEscape(0xDE00) == "\\ude00" by {
      assert 0xDE00 / 16 == 0xDE0 && 0xDE0 / 16 == 0xDE;
      assert HexDigit(0xD) == 'd' && HexDigit(0xE) == 'e';
    }
    assert [Quote] + "\\ud83d" + "\\ude00" + [Quote] == "\"\\ud83d\\ude00\"";
  }

  /** U+1F600 is escaped as the surrogates D83D and DE00. */
  lemma SmileSurrogates(c: char)
    requires c == '\U{1F600}'
    ensures Dumps(Str([c])) == [Quote] + UEscape(0xD83D) + UEscape(0xDE00) + [Quote]
  {
    assert !Printable(c) && c as int - 0x1_0000 == 0xF600;
    assert 0xF600 / 0x400 == 0x3D && 0xF600 % 0x400 == 0x200;
    assert EscapeChars([c]) == EscapeChar(c);
  }

  /** A character beyond the basic plane comes out as a surrogate pair. */
  lemma AstralDumps(c: char)
    requires c == '\U{1F600}'
    ensures Dumps(Str([c])) == "\"\\ud83d\\ude00\""
  {
    SmileSurrogates(c);
    SmileEscapes();
  }
}
