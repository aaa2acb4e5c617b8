/**
 * The parts of Go's fmt and strconv packages that the operator prints with:
 * `%d` and `strconv.Itoa` on non-negative integers, `%08x` on a uint32,
 * `%q` on a string and `%t` on a bool. Each printer comes with the parser
 * that inverts it, and a lemma that the round trip is the identity.
 */
module Fmt {
  import opened Wrappers

  predicate IsDecimalDigit(c: char) { '0' <= c <= '9' }

  predicate IsLowerHexDigit(c: char) { '0' <= c <= '9' || 'a' <= c <= 'f' }

  /** The digit character of a value below 16, lower case as Go prints it. */
  function DigitChar(d: nat): (c: char)
    requires d < 16
    ensures IsLowerHexDigit(c)
    ensures d < 10 ==> IsDecimalDigit(c)
  {
    if d < 10 then ('0' as int + d) as char else ('a' as int + d - 10) as char
  }

  function DigitValue(c: char): nat {
    if '0' <= c <= '9' then c as int - '0' as int
    else if 'a' <= c <= 'f' then c as int - 'a' as int + 10
    else 0
  }

  lemma DigitRoundTrip(d: nat)
    requires d < 16
    ensures DigitValue(DigitChar(d)) == d
  {
  }

  // ---------------------------------------------------------------------------
  // %d / strconv.Itoa

  /** Base-10 text of n without sign or leading zeros. */
  function Decimal(n: nat): (s: string)
    ensures |s| >= 1
    ensures forall i :: 0 <= i < |s| ==> IsDecimalDigit(s[i])
    ensures s[0] == '0' ==> n == 0 && s == "0"
  {
    if n < 10 then [DigitChar(n)] else Decimal(n / 10) + [DigitChar(n % 10)]
  }

  /** The value of a string of digits in the given base (most significant first). */
  function ValueInBase(s: string, base: nat): nat {
    if s == [] then 0 else base * ValueInBase(s[..|s| - 1], base) + DigitValue(s[|s| - 1])
  }

  lemma {:induction false} DecimalRoundTrip(n: nat)
    ensures ValueInBase(Decimal(n), 10) == n
  {
    if n >= 10 {
      var s := Decimal(n);
      assert s[..|s| - 1] == Decimal(n / 10);
      DecimalRoundTrip(n / 10);
      DigitRoundTrip(n % 10);
    } else {
      DigitRoundTrip(n);
    }
  }

  lemma DecimalInjective(m: nat, n: nat)
    requires Decimal(m) == Decimal(n)
    ensures m == n
  {
    DecimalRoundTrip(m);
    DecimalRoundTrip(n);
  }

  // ---------------------------------------------------------------------------
  // zero-padded lower-case hexadecimal (%02x, %04x, %08x)

  function Pow16(w: nat): (p: nat)
    ensures p >= 1
  {
    if w == 0 then 1 else 16 * Pow16(w - 1)
  }

  /** The value v written in exactly `width` lower-case hex digits, zero-padded. */
  function Hex(v: nat, width: nat): (s: string)
    requires v < Pow16(width)
    ensures |s| == width
    ensures forall i :: 0 <= i < |s| ==> IsLowerHexDigit(s[i])
  {
    if width == 0 then []
    else
      assert v / 16 < Pow16(width - 1);
      Hex(v / 16, width - 1) + [DigitChar(v % 16)]
  }

  lemma {:induction false} HexRoundTrip(v: nat, width: nat)
    requires v < Pow16(width)
    ensures ValueInBase(Hex(v, width), 16) == v
  {
    if width > 0 {
      var s := Hex(v, width);
      assert v / 16 < Pow16(width - 1);
      assert s[..|s| - 1] == Hex(v / 16, width - 1);
      HexRoundTrip(v / 16, width - 1);
      DigitRoundTrip(v % 16);
    }
  }

  lemma Pow16Eight()
    ensures Pow16(2) == 0x100 && Pow16(4) == 0x1_0000 && Pow16(8) == 0x1_0000_0000
  {
  }

  /** `%08x` applied to a uint32: always exactly eight digits. */
  function Hex8(x: bv32): (s: string)
    ensures |s| == 8
    ensures forall i :: 0 <= i < |s| ==> IsLowerHexDigit(s[i])
    ensures ValueInBase(s, 16) == x as nat
  {
    Pow16Eight();
    HexRoundTrip(x as nat, 8);
    Hex(x as nat, 8)
  }

  /** Distinct registers print differently, and equal ones alike. */
  lemma Hex8Injective(a: bv32, b: bv32)
    ensures Hex8(a) == Hex8(b) <==> a == b
  {
    if Hex8(a) == Hex8(b) {
      assert a as int == b as int;
      assert a == (a as int) as bv32 && b == (b as int) as bv32;
    }
  }

  // ---------------------------------------------------------------------------
  // %t

  /** `fmt.Sprintf("%t", b)`. */
  function FormatBool(b: bool): (s: string)
    ensures s == "true" || s == "false"
  {
    if b then "true" else "false"
  }

  function ParseBool(s: string): Option<bool> {
    if s == "true" then Some(true) else if s == "false" then Some(false) else None
  }

  lemma FormatBoolRoundTrip(b: bool)
    ensures ParseBool(FormatBool(b)) == Some(b)
  {
  }

  // ---------------------------------------------------------------------------
  // %q (strconv.Quote)

  /** Non-ASCII white space, which strconv.IsPrint does not count as printable. */
  predicate IsUnicodeSpace(c: char) {
    c == '\U{85}' || c == '\U{A0}' || c == '\U{1680}' || ('\U{2000}' <= c <= '\U{200A}') ||
    c == '\U{2028}' || c == '\U{2029}' || c == '\U{202F}' || c == '\U{205F}' || c == '\U{3000}'
  }

  /** Private-use code points, the non-characters U+FFFE and U+FFFF, and the tag block. */
  predicate IsReservedOrPrivate(c: char) {
    ('\U{E000}' <= c <= '\U{F8FF}') || c == '\U{FFFE}' || c == '\U{FFFF}' ||
    ('\U{E0000}' <= c <= '\U{E007F}') || c as int >= 0xF_0000
  }

  /** Format characters (general category Cf) other than the soft hyphen and the tags. */
  predicate IsFormat(c: char) {
    ('\U{600}' <= c <= '\U{605}') || c == '\U{61C}' || c == '\U{6DD}' || c == '\U{70F}' ||
    ('\U{890}' <= c <= '\U{891}') || c == '\U{8E2}' || c == '\U{180E}' ||
    ('\U{200B}' <= c <= '\U{200F}') || ('\U{202A}' <= c <= '\U{202E}') ||
    ('\U{2060}' <= c <= '\U{2064}') || ('\U{2066}' <= c <= '\U{206F}') ||
    c == '\U{FEFF}' || ('\U{FFF9}' <= c <= '\U{FFFB}') || c == '\U{110BD}' || c == '\U{110CD}' ||
    ('\U{13430}' <= c <= '\U{1343F}') || ('\U{1BCA0}' <= c <= '\U{1BCA3}') ||
    ('\U{1D173}' <= c <= '\U{1D17A}')
  }

  /**
   * strconv.IsPrint, up to the characters Unicode leaves unassigned: the
   * printable ASCII range, and every character above the C1 control block
   * that is not white space, the soft hyphen, a format character, a
   * private-use code point, a non-character or a tag. Go's tables also
   * reject unassigned code points; this predicate accepts them.
   */
  predicate IsPrint(c: char) {
    (' ' <= c <= '~') ||
    (c as int >= 0xA1 && c as int != 0xAD && !IsUnicodeSpace(c) && !IsFormat(c) && !IsReservedOrPrivate(c))
  }

  /** How strconv.Quote writes one character between the double quotes. */
  function EscapeChar(c: char): (s: string)
    ensures |s| >= 1
    ensures s[0] != '"'
  {
    var v := c as int;
    if c == '"' || c == '\\' then ['\\', c]
    else if IsPrint(c) then [c]
    else if v == 7 then "\\a"
    else if v == 8 then "\\b"
    else if v == 12 then "\\f"
    else if c == '\n' then "\\n"
    else if c == '\r' then "\\r"
    else if c == '\t' then "\\t"
    else if v == 11 then "\\v"
    else if v < 0x20 || v == 0x7F then (Pow16Eight(); "\\x" + Hex(v, 2))
    else if v < 0x1_0000 then (Pow16Eight(); "\\u" + Hex(v, 4))
    else (Pow16Eight(); "\\U" + Hex(v, 8))
  }

  function QuoteBody(s: string): string {
    if s == [] then [] else EscapeChar(s[0]) + QuoteBody(s[1..])
  }

  /** `fmt.Sprintf("%q", s)`. */
  function Quote(s: string): (q: string)
    ensures |q| >= 2 && q[0] == '"' && q[|q| - 1] == '"'
  {
    "\"" + QuoteBody(s) + "\""
  }

  function Prepend(c: char, rest: Option<string>): Option<string> {
    match rest
    case Some(t) => Some([c] + t)
    case None => None
  }

  predicate AllHex(s: string) { forall i :: 0 <= i < |s| ==> IsLowerHexDigit(s[i]) }

  /** The character a `\x`, `\u` or `\U` escape with these digits stands for, if any. */
  function HexEscape(digits: string): Option<char> {
    var v := ValueInBase(digits, 16);
    if AllHex(digits) && (v < 0xD800 || 0xE000 <= v < 0x11_0000) then Some(v as char) else None
  }

  function PrependEscape(c: Option<char>, rest: string): Option<string>
    decreases |rest|, 1
  {
    match c
    case Some(ch) => Prepend(ch, UnquoteBody(rest))
    case None => None
  }

  /** Reads back what QuoteBody writes; None on text QuoteBody never produces. */
  function UnquoteBody(t: string): Option<string>
    decreases |t|, 0
  {
    if t == [] then Some([])
    else if t[0] == '"' then None
    else if t[0] != '\\' then Prepend(t[0], UnquoteBody(t[1..]))
    else if |t| < 2 then None
    else if t[1] == '"' || t[1] == '\\' then Prepend(t[1], UnquoteBody(t[2..]))
    else if t[1] == 'a' then Prepend(7 as char, UnquoteBody(t[2..]))
    else if t[1] == 'b' then Prepend(8 as char, UnquoteBody(t[2..]))
    else if t[1] == 'f' then Prepend(12 as char, UnquoteBody(t[2..]))
    else if t[1] == 'n' then Prepend('\n', UnquoteBody(t[2..]))
    else if t[1] == 'r' then Prepend('\r', UnquoteBody(t[2..]))
    else if t[1] == 't' then Prepend('\t', UnquoteBody(t[2..]))
    else if t[1] == 'v' then Prepend(11 as char, UnquoteBody(t[2..]))
    else if t[1] == 'x' && |t| >= 4 then PrependEscape(HexEscape(t[2..4]), t[4..])
    else if t[1] == 'u' && |t| >= 6 then PrependEscape(HexEscape(t[2..6]), t[6..])
    else if t[1] == 'U' && |t| >= 10 then PrependEscape(HexEscape(t[2..10]), t[10..])
    else None
  }

  function Unquote(q: string): Option<string> {
    if |q| >= 2 && q[0] == '"' && q[|q| - 1] == '"' then UnquoteBody(q[1..|q| - 1]) else None
  }

  lemma HexEscapeRoundTrip(c: char, width: nat)
    requires width in {2, 4, 8}
    requires c as int < Pow16(width)
    ensures HexEscape(Hex(c as int, width)) == Some(c)
  {
    HexRoundTrip(c as int, width);
  }

  /** A character with no short escape is written as a hex escape of the narrowest fitting width. */
  lemma HexEscapeWidth(c: char, width: nat)
    requires c != '"' && c != '\\' && !IsPrint(c)
    requires c as int !in {7, 8, 9, 10, 11, 12, 13}
    requires width == (if c as int < 0x20 || c as int == 0x7F then 2 else if c as int < 0x1_0000 then 4 else 8)
    ensures c as int < Pow16(width)
    ensures EscapeChar(c) == (if width == 2 then "\\x" else if width == 4 then "\\u" else "\\U") + Hex(c as int, width)
  {
    Pow16Eight();
  }

  /** A hex escape whose digits name c reads back as c followed by what comes after it. */
  lemma UnquoteHexEscape(digits: string, rest: string, c: char)
    requires |digits| in {2, 4, 8} && HexEscape(digits) == Some(c)
    ensures UnquoteBody((if |digits| == 2 then "\\x" else if |digits| == 4 then "\\u" else "\\U") + digits + rest)
      == Prepend(c, UnquoteBody(rest))
  {
    var w := |digits|;
    var t := (if w == 2 then "\\x" else if w == 4 then "\\u" else "\\U") + digits + rest;
    assert t[2..2 + w] == digits && t[2 + w..] == rest;
  }

  lemma {:induction false} EscapeCharRoundTrip(c: char, rest: string)
    ensures UnquoteBody(EscapeChar(c) + rest) == Prepend(c, UnquoteBody(rest))
  {
    var v := c as int;
    var t := EscapeChar(c) + rest;
    if c == '"' || c == '\\' {
      assert t[2..] == rest;
    } else if IsPrint(c) {
      assert t[1..] == rest;
    } else if v == 7 || v == 8 || v == 12 || c == '\n' || c == '\r' || c == '\t' || v == 11 {
      assert t[2..] == rest;
    } else {
      Pow16Eight();
      var w := if v < 0x20 || v == 0x7F then 2 else if v < 0x1_0000 then 4 else 8;
      HexEscapeWidth(c, w);
      HexEscapeRoundTrip(c, w);
      UnquoteHexEscape(Hex(v, w), rest, c);
    }
  }

  lemma {:induction false} QuoteBodyRoundTrip(s: string)
    ensures UnquoteBody(QuoteBody(s)) == Some(s)
  {
    if s != [] {
      EscapeCharRoundTrip(s[0], QuoteBody(s[1..]));
      QuoteBodyRoundTrip(s[1..]);
      assert [s[0]] + s[1..] == s;
    }
  }

  /** What `%q` prints can be read back: the quoted text names s exactly. */
  lemma QuoteRoundTrip(s: string)
    ensures Unquote(Quote(s)) == Some(s)
  {
    var q := Quote(s);
    assert q[1..|q| - 1] == QuoteBody(s);
    QuoteBodyRoundTrip(s);
  }

  lemma QuoteInjective(s: string, t: string)
    requires Quote(s) == Quote(t)
    ensures s == t
  {
    QuoteRoundTrip(s);
    QuoteRoundTrip(t);
  }
}
