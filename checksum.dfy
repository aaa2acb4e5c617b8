/**
 * The spec checksum of controllers/common.go: the text is trimmed of leading
 * and trailing white space, every run of line breaks (LF or CRLF) becomes the
 * two characters backslash and `n`, and the CRC-32 (IEEE polynomial) of the
 * UTF-8 bytes of the result is printed as eight lower-case hex digits.
 */
module Checksum {
  import opened Fmt

  type Byte = bv8

  // ---------------------------------------------------------------------------
  // strings.TrimSpace

  /** unicode.IsSpace, the test strings.TrimSpace trims by: tab to CR, the space, and the Unicode white space. */
  predicate IsSpace(c: char) {
    ('\t' <= c <= '\r') || c == ' ' || IsUnicodeSpace(c)
  }

  function TrimLeft(s: string): string {
    if s != [] && IsSpace(s[0]) then TrimLeft(s[1..]) else s
  }

  function TrimRight(s: string): string {
    if s != [] && IsSpace(s[|s| - 1]) then TrimRight(s[..|s| - 1]) else s
  }

  /** strings.TrimSpace: s without its leading and trailing white space. */
  function TrimSpace(s: string): string {
    TrimRight(TrimLeft(s))
  }

  /** TrimLeft keeps a suffix of the text, one that does not start with white space. */
  lemma {:induction false} TrimLeftSuffix(s: string)
    ensures var r := TrimLeft(s);
      |r| <= |s| && r == s[|s| - |r|..] && (r == [] || !IsSpace(r[0]))
  {
    if s != [] && IsSpace(s[0]) {
      TrimLeftSuffix(s[1..]);
    }
  }

  /** TrimRight keeps a prefix of the text, one that does not end with white space. */
  lemma {:induction false} TrimRightPrefix(s: string)
    ensures var r := TrimRight(s);
      |r| <= |s| && r == s[..|r|] && (r == [] || !IsSpace(r[|r| - 1]))
  {
    if s != [] && IsSpace(s[|s| - 1]) {
      TrimRightPrefix(s[..|s| - 1]);
    }
  }

  /** The trimmed text neither starts nor ends with white space. */
  lemma TrimSpaceTrims(s: string)
    ensures Trimmed(TrimSpace(s))
  {
    TrimLeftSuffix(s);
    var l := TrimLeft(s);
    TrimRightPrefix(l);
    var r := TrimRight(l);
    if r != [] {
      assert r[0] == l[0];
    }
  }

  predicate Trimmed(s: string) {
    s == [] || (!IsSpace(s[0]) && !IsSpace(s[|s| - 1]))
  }

  lemma TrimmedIsFixpoint(s: string)
    requires Trimmed(s)
    ensures TrimSpace(s) == s
  {
    assert TrimLeft(s) == s;
  }

  lemma TrimSpaceIdempotent(s: string)
    ensures TrimSpace(TrimSpace(s)) == TrimSpace(s)
  {
    TrimSpaceTrims(s);
    TrimmedIsFixpoint(TrimSpace(s));
  }

  // ---------------------------------------------------------------------------
  // regexp `(?:\r?\n)+` replaced by the literal `\n`

  /** The replacement text: a backslash followed by the letter n, not a line feed. */
  const EscapedNewline: string := "\\n"

  /** A match of `\r?\n` starts at the head of s. */
  predicate BreakAt(s: string) {
    |s| > 0 && (s[0] == '\n' || (s[0] == '\r' && |s| > 1 && s[1] == '\n'))
  }

  /** s with the longest run of LF / CRLF units at its head removed. */
  function SkipBreaks(s: string): (r: string)
    ensures |r| <= |s|
    ensures BreakAt(s) ==> |r| < |s|
  {
    if |s| > 0 && s[0] == '\n' then SkipBreaks(s[1..])
    else if |s| > 1 && s[0] == '\r' && s[1] == '\n' then SkipBreaks(s[2..])
    else s
  }

  /** What SkipBreaks leaves is a suffix starting with no break, and what it drops is CR and LF only. */
  lemma {:induction false} SkipBreaksSuffix(s: string)
    ensures var r := SkipBreaks(s);
      r == s[|s| - |r|..] && !BreakAt(r) &&
      forall i :: 0 <= i < |s| - |r| ==> s[i] == '\n' || s[i] == '\r'
  {
    if |s| > 0 && s[0] == '\n' {
      SkipBreaksSuffix(s[1..]);
    } else if |s| > 1 && s[0] == '\r' && s[1] == '\n' {
      SkipBreaksSuffix(s[2..]);
    }
  }

  /** Regexp.ReplaceAllString with `(?:\r?\n)+`: leftmost, longest-run matches, left to right. */
  function CollapseNewlines(s: string): string
    decreases |s|
  {
    if s == [] then []
    else if BreakAt(s) then EscapedNewline + CollapseNewlines(SkipBreaks(s))
    else [s[0]] + CollapseNewlines(s[1..])
  }

  /** The text whose bytes are digested. */
  function Normalize(s: string): string {
    CollapseNewlines(TrimSpace(s))
  }

  // ---------------------------------------------------------------------------
  // []byte(string): UTF-8

  function EncodeChar(c: char): (b: seq<Byte>)
    ensures 1 <= |b| <= 4
    ensures c as int < 0x80 ==> b == [c as int as Byte]
  {
    var v := c as int;
    if v < 0x80 then [v as Byte]
    else if v < 0x800 then [(0xC0 + v / 0x40) as Byte, (0x80 + v % 0x40) as Byte]
    else if v < 0x1_0000 then
      [(0xE0 + v / 0x1000) as Byte, (0x80 + (v / 0x40) % 0x40) as Byte, (0x80 + v % 0x40) as Byte]
    else
      [(0xF0 + v / 0x4_0000) as Byte, (0x80 + (v / 0x1000) % 0x40) as Byte,
       (0x80 + (v / 0x40) % 0x40) as Byte, (0x80 + v % 0x40) as Byte]
  }

  function Utf8(s: string): (b: seq<Byte>)
    ensures |b| >= |s|
  {
    if s == [] then [] else EncodeChar(s[0]) + Utf8(s[1..])
  }

  // ---------------------------------------------------------------------------
  // crc32.ChecksumIEEE

  /** The IEEE 802.3 polynomial 0x04C11DB7, bit-reversed as the reflected CRC uses it. */
  const IeeePolynomial: bv32 := 0xEDB8_8320

  function ShiftOnce(crc: bv32): bv32 {
    if crc & 1 == 1 then (crc >> 1) ^ IeeePolynomial else crc >> 1
  }

  function Shift(crc: bv32, k: nat): bv32
    decreases k
  {
    if k == 0 then crc else Shift(ShiftOnce(crc), k - 1)
  }

  function UpdateByte(crc: bv32, b: Byte): bv32 {
    Shift(crc ^ (b as bv32), 8)
  }

  /** crc32.Update on an already complemented register: one byte at a time, low bit first. */
  function Update(crc: bv32, data: seq<Byte>): bv32
    decreases |data|
  {
    if data == [] then crc else Update(UpdateByte(crc, data[0]), data[1..])
  }

  function Crc32(data: seq<Byte>): bv32 {
    Update(0xFFFF_FFFF, data) ^ 0xFFFF_FFFF
  }

  // ---------------------------------------------------------------------------
  // Checksum

  /** `Checksum(value)` of common.go: eight lower-case hex digits of the CRC-32 of the normalised text. */
  function Checksum(value: string): (r: string)
    ensures |r| == 8
    ensures forall i :: 0 <= i < |r| ==> IsLowerHexDigit(r[i])
  {
    Hex8(Crc32(Utf8(Normalize(value))))
  }

  /** The digest reads back as the CRC-32 of the normalised text. */
  lemma ChecksumIsCrc(value: string)
    ensures ValueInBase(Checksum(value), 16) == Crc32(Utf8(Normalize(value))) as nat
  {
  }

  /** Equal checksums mean equal CRC-32 values of the normalised texts, and conversely. */
  lemma ChecksumsAgreeIffCrcsAgree(s: string, t: string)
    ensures Checksum(s) == Checksum(t) <==> Crc32(Utf8(Normalize(s))) == Crc32(Utf8(Normalize(t)))
  {
    Hex8Injective(Crc32(Utf8(Normalize(s))), Crc32(Utf8(Normalize(t))));
  }

  // ---------------------------------------------------------------------------
  // Properties of the trimming

  predicate AllSpace(x: string) {
    forall i :: 0 <= i < |x| ==> IsSpace(x[i])
  }

  lemma AllSpaceFront(x: string)
    requires x != []
    ensures AllSpace(x) <==> IsSpace(x[0]) && AllSpace(x[1..])
  {
    if IsSpace(x[0]) && AllSpace(x[1..]) {
      forall i | 0 <= i < |x| ensures IsSpace(x[i]) {
        if i > 0 { assert x[i] == x[1..][i - 1]; }
      }
    }
  }

  lemma AllSpaceBack(x: string)
    requires x != []
    ensures AllSpace(x) <==> IsSpace(x[|x| - 1]) && AllSpace(x[..|x| - 1])
  {
    if IsSpace(x[|x| - 1]) && AllSpace(x[..|x| - 1]) {
      forall i | 0 <= i < |x| ensures IsSpace(x[i]) {
        if i < |x| - 1 { assert x[i] == x[..|x| - 1][i]; }
      }
    }
  }

  lemma AllSpaceConcat(x: string, y: string)
    ensures AllSpace(x + y) <==> AllSpace(x) && AllSpace(y)
  {
    if AllSpace(x + y) {
      forall i | 0 <= i < |x| ensures IsSpace(x[i]) {
        assert x[i] == (x + y)[i];
      }
      forall i | 0 <= i < |y| ensures IsSpace(y[i]) {
        assert y[i] == (x + y)[|x| + i];
      }
    }
  }

  /** Text that is not all white space keeps something when trimmed at the front. */
  lemma {:induction false} TrimLeftKeepsText(s: string)
    requires !AllSpace(s)
    ensures TrimLeft(s) != []
  {
    AllSpaceFront(s);
    if IsSpace(s[0]) {
      TrimLeftKeepsText(s[1..]);
    }
  }

  /** Trimming the front of a concatenation: x is trimmed away whole, or y is left untouched. */
  lemma {:induction false} TrimLeftConcat(x: string, y: string)
    ensures TrimLeft(x + y) == if AllSpace(x) then TrimLeft(y) else TrimLeft(x) + y
  {
    if x == [] {
      assert x + y == y;
    } else {
      AllSpaceFront(x);
      assert (x + y)[0] == x[0];
      if IsSpace(x[0]) {
        assert (x + y)[1..] == x[1..] + y;
        TrimLeftConcat(x[1..], y);
      }
    }
  }

  /** Trimming the back of a concatenation: y is trimmed away whole, or x is left untouched. */
  lemma {:induction false} TrimRightConcat(x: string, y: string)
    ensures TrimRight(x + y) == if AllSpace(y) then TrimRight(x) else x + TrimRight(y)
  {
    if y == [] {
      assert x + y == x;
    } else {
      AllSpaceBack(y);
      var xy := x + y;
      assert xy[|xy| - 1] == y[|y| - 1];
      if IsSpace(y[|y| - 1]) {
        assert xy[..|xy| - 1] == x + y[..|y| - 1];
        TrimRightConcat(x, y[..|y| - 1]);
      }
    }
  }

  lemma AllSpaceTrimsLeftToEmpty(x: string)
    requires AllSpace(x)
    ensures TrimLeft(x) == []
  {
    TrimLeftConcat(x, []);
    assert x + [] == x;
  }

  /** Surrounding a text with white space of any kind never changes its checksum. */
  lemma ChecksumIgnoresAddedSpace(pre: string, s: string, post: string)
    requires AllSpace(pre) && AllSpace(post)
    ensures Checksum(pre + s + post) == Checksum(s)
  {
    assert pre + s + post == pre + (s + post);
    TrimLeftConcat(pre, s + post);
    TrimLeftConcat(s, post);
    if AllSpace(s) {
      AllSpaceTrimsLeftToEmpty(s);
      AllSpaceTrimsLeftToEmpty(post);
    } else {
      TrimRightConcat(TrimLeft(s), post);
    }
  }

  /** Trimming the surrounding white space first gives the same checksum. */
  lemma ChecksumOfTrimmed(s: string)
    ensures Checksum(TrimSpace(s)) == Checksum(s)
  {
    TrimSpaceIdempotent(s);
  }

  // ---------------------------------------------------------------------------
  // Properties of the newline collapse

  /** No line feed is left after the collapse. */
  lemma {:induction false} CollapseRemovesLineFeeds(s: string)
    ensures '\n' !in CollapseNewlines(s)
    decreases |s|
  {
    if s != [] {
      if BreakAt(s) {
        CollapseRemovesLineFeeds(SkipBreaks(s));
      } else {
        CollapseRemovesLineFeeds(s[1..]);
      }
    }
  }

  /** Text without a line feed passes through the newline collapse unchanged. */
  lemma {:induction false} CollapseWithoutLineFeed(s: string)
    requires '\n' !in s
    ensures CollapseNewlines(s) == s
  {
    if s != [] {
      assert !BreakAt(s);
      assert forall c :: c in s[1..] ==> c in s;
      CollapseWithoutLineFeed(s[1..]);
    }
  }

  /** Skipping the breaks at the head never reaches a last character that is neither CR nor LF. */
  lemma {:induction false} SkipBreaksKeepsLast(s: string)
    requires s != [] && s[|s| - 1] != '\n' && s[|s| - 1] != '\r'
    ensures var r := SkipBreaks(s); r != [] && r[|r| - 1] == s[|s| - 1]
  {
    if s[0] == '\n' {
      assert s[1..][|s| - 2] == s[|s| - 1];
      SkipBreaksKeepsLast(s[1..]);
    } else if |s| > 1 && s[0] == '\r' && s[1] == '\n' {
      assert s[2..][|s| - 3] == s[|s| - 1];
      SkipBreaksKeepsLast(s[2..]);
    }
  }

  /** The last character of text ending in anything but CR or LF survives the collapse. */
  lemma {:induction false} CollapseKeepsLast(s: string)
    requires s != [] && s[|s| - 1] != '\n' && s[|s| - 1] != '\r'
    ensures CollapseNewlines(s) != [] && CollapseNewlines(s)[|CollapseNewlines(s)| - 1] == s[|s| - 1]
    decreases |s|
  {
    var c := CollapseNewlines(s);
    if BreakAt(s) {
      var r := SkipBreaks(s);
      SkipBreaksKeepsLast(s);
      CollapseKeepsLast(r);
      var t := CollapseNewlines(r);
      assert c == EscapedNewline + t;
      assert c[|c| - 1] == t[|t| - 1];
    } else if |s| > 1 {
      var r := s[1..];
      assert r[|r| - 1] == s[|s| - 1];
      CollapseKeepsLast(r);
      var t := CollapseNewlines(r);
      assert c == [s[0]] + t;
      assert c[|c| - 1] == t[|t| - 1];
    } else {
      assert c == [s[0]] + CollapseNewlines([]);
    }
  }

  /** Normalising is idempotent: the normalised text is trimmed and has no line feed left. */
  lemma NormalizeIdempotent(s: string)
    ensures '\n' !in Normalize(s)
    ensures Normalize(Normalize(s)) == Normalize(s)
  {
    var t := TrimSpace(s);
    var n := Normalize(s);
    TrimSpaceTrims(s);
    CollapseRemovesLineFeeds(t);
    if t != [] {
      assert !BreakAt(t);
      CollapseKeepsLast(t);
    }
    assert Trimmed(n);
    TrimmedIsFixpoint(n);
    CollapseWithoutLineFeed(n);
  }

  // ---------------------------------------------------------------------------
  // Line-break runs

  /** A non-empty run of LF and CRLF units. */
  predicate BreakRun(b: string) {
    b != [] && SkipBreaks(b) == []
  }

  lemma {:induction false} SkipBreaksOverRun(b: string, q: string)
    requires SkipBreaks(b) == []
    ensures SkipBreaks(b + q) == SkipBreaks(q)
    decreases |b|
  {
    if b == [] {
      assert b + q == q;
    } else if b[0] == '\n' {
      assert (b + q)[1..] == b[1..] + q;
      SkipBreaksOverRun(b[1..], q);
    } else {
      assert (b + q)[2..] == b[2..] + q;
      SkipBreaksOverRun(b[2..], q);
    }
  }

  /** The length of the LF or CRLF unit at the head of text where a break starts. */
  function UnitLength(x: string): nat
    requires BreakAt(x)
  {
    if x[0] == '\n' then 1 else 2
  }

  /** Whether a break starts at the head does not depend on the run that follows p. */
  lemma SameHead(p: string, b1: string, b2: string, q: string)
    requires p != [] && p[|p| - 1] != '\r' && BreakRun(b1) && BreakRun(b2)
    ensures BreakAt(p + b1 + q) <==> BreakAt(p + b2 + q)
  {
    var x1, x2 := p + b1 + q, p + b2 + q;
    assert x1[0] == p[0] && x2[0] == p[0];
    if |p| > 1 {
      assert x1[1] == p[1] && x2[1] == p[1];
    }
  }

  /** A break that starts at the head of p + b + q starts with p's own unit. */
  lemma UnitInsidePrefix(p: string, b: string, q: string)
    requires p != [] && p[|p| - 1] != '\r' && BreakRun(b)
    requires BreakAt(p + b + q)
    ensures UnitLength(p + b + q) <= |p|
    ensures SkipBreaks(p + b + q) == SkipBreaks(p[UnitLength(p + b + q)..] + b + q)
  {
    var x := p + b + q;
    var u := UnitLength(x);
    assert x[0] == p[0];
    if u == 2 {
      assert |p| > 1;
      assert x[1] == p[1];
    }
    assert x[u..] == p[u..] + b + q;
  }

  /** A break run at the head is one escaped newline, whatever follows. */
  lemma CollapseAtRun(b: string, q: string)
    requires BreakRun(b)
    ensures CollapseNewlines(b + q) == EscapedNewline + CollapseNewlines(SkipBreaks(q))
  {
    assert BreakAt(b);
    assert (b + q)[0] == b[0];
    if |b| > 1 {
      assert (b + q)[1] == b[1];
    }
    SkipBreaksOverRun(b, q);
  }

  /** A character of p that starts no break is copied through. */
  lemma CollapseCopiesHead(p: string, b: string, q: string)
    requires p != [] && !BreakAt(p + b + q)
    ensures CollapseNewlines(p + b + q) == [p[0]] + CollapseNewlines(p[1..] + b + q)
  {
    var x := p + b + q;
    assert x[0] == p[0];
    assert x[1..] == p[1..] + b + q;
  }

  /**
   * Any two runs of line breaks collapse alike, whatever their length or mix of
   * LF and CRLF, provided the text before them does not end in a CR (which
   * would otherwise pair with a leading LF of the run).
   */
  lemma {:induction false} CollapseRunsAlike(p: string, b1: string, b2: string, q: string)
    requires BreakRun(b1) && BreakRun(b2)
    requires p == [] || p[|p| - 1] != '\r'
    ensures CollapseNewlines(p + b1 + q) == CollapseNewlines(p + b2 + q)
    decreases |p|, 0
  {
    if p == [] {
      assert p + b1 + q == b1 + q && p + b2 + q == b2 + q;
      CollapseAtRun(b1, q);
      CollapseAtRun(b2, q);
    } else {
      SameHead(p, b1, b2, q);
      if BreakAt(p + b1 + q) {
        UnitInsidePrefix(p, b1, q);
        UnitInsidePrefix(p, b2, q);
        SkippedRunsAlike(p[UnitLength(p + b1 + q)..], b1, b2, q);
      } else {
        CollapseCopiesHead(p, b1, q);
        CollapseCopiesHead(p, b2, q);
        CollapseRunsAlike(p[1..], b1, b2, q);
      }
    }
  }

  /** What is left after skipping the breaks at the head collapses alike too. */
  lemma {:induction false} SkippedRunsAlike(p: string, b1: string, b2: string, q: string)
    requires BreakRun(b1) && BreakRun(b2)
    requires p == [] || p[|p| - 1] != '\r'
    ensures CollapseNewlines(SkipBreaks(p + b1 + q)) == CollapseNewlines(SkipBreaks(p + b2 + q))
    decreases |p|, 1
  {
    if p == [] {
      assert p + b1 + q == b1 + q && p + b2 + q == b2 + q;
      SkipBreaksOverRun(b1, q);
      SkipBreaksOverRun(b2, q);
    } else {
      SameHead(p, b1, b2, q);
      if BreakAt(p + b1 + q) {
        UnitInsidePrefix(p, b1, q);
        UnitInsidePrefix(p, b2, q);
        SkippedRunsAlike(p[UnitLength(p + b1 + q)..], b1, b2, q);
      } else {
        CollapseRunsAlike(p, b1, b2, q);
      }
    }
  }

  /**
   * Line-break runs inside the text are interchangeable in the checksum:
   * "a\n\nb", "a\r\nb" and "a\nb" all digest alike.
   */
  lemma ChecksumRunsAlike(p: string, b1: string, b2: string, q: string)
    requires BreakRun(b1) && BreakRun(b2)
    requires p == [] || p[|p| - 1] != '\r'
    ensures Checksum(p + b1 + q) == Checksum(p + b2 + q)
  {
    NormalizeRunsAlike(p, b1, b2, q);
  }

  lemma BreakRunIsSpace(b: string)
    requires SkipBreaks(b) == []
    ensures AllSpace(b)
  {
    SkipBreaksSuffix(b);
  }

  lemma NormalizeRunsAlike(p: string, b1: string, b2: string, q: string)
    requires BreakRun(b1) && BreakRun(b2)
    requires p == [] || p[|p| - 1] != '\r'
    ensures Normalize(p + b1 + q) == Normalize(p + b2 + q)
  {
    BreakRunIsSpace(b1);
    BreakRunIsSpace(b2);
    TrimOverRun(p, b1, q);
    TrimOverRun(p, b2, q);
    if !AllSpace(p) && !AllSpace(q) {
      var l := TrimLeft(p);
      TrimLeftSuffix(p);
      TrimLeftKeepsText(p);
      assert l[|l| - 1] == p[|p| - 1];
      CollapseRunsAlike(l, b1, b2, TrimRight(q));
    }
  }

  /** How trimming acts on a text with a white-space run in the middle. */
  lemma TrimOverRun(p: string, b: string, q: string)
    requires AllSpace(b) && b != []
    ensures AllSpace(p) ==> TrimSpace(p + b + q) == TrimSpace(q)
    ensures !AllSpace(p) && AllSpace(q) ==> TrimSpace(p + b + q) == TrimSpace(p)
    ensures !AllSpace(p) && !AllSpace(q) ==> TrimSpace(p + b + q) == TrimLeft(p) + b + TrimRight(q)
  {
    assert p + b + q == p + (b + q);
    TrimLeftConcat(p, b + q);
    if AllSpace(p) {
      TrimLeftConcat(b, q);
    } else if AllSpace(q) {
      AllSpaceConcat(b, q);
      TrimRightSpaceTail(TrimLeft(p), b + q);
    } else {
      TrimInnerRun(TrimLeft(p), b, q);
    }
  }

  lemma TrimInnerRun(l: string, b: string, q: string)
    requires !AllSpace(q)
    ensures TrimRight(l + (b + q)) == l + b + TrimRight(q)
  {
    assert l + (b + q) == (l + b) + q;
    TrimRightConcat(l + b, q);
  }

  lemma TrimRightSpaceTail(x: string, y: string)
    requires AllSpace(y)
    ensures TrimRight(x + y) == TrimRight(x)
  {
    TrimRightConcat(x, y);
  }

  /** Text without a line feed, and not ending in a CR, is copied through ahead of whatever follows. */
  lemma {:induction false} CollapseCopiesPrefix(p: string, rest: string)
    requires '\n' !in p && (p == [] || p[|p| - 1] != '\r')
    ensures CollapseNewlines(p + rest) == p + CollapseNewlines(rest)
    decreases |p|
  {
    if p == [] {
      assert p + rest == rest;
    } else {
      var x := p + rest;
      assert !BreakAt(x) by {
        assert x[0] == p[0] && p[0] in p;
        if |p| > 1 {
          assert x[1] == p[1] && p[1] in p;
        }
      }
      assert CollapseNewlines(x) == [p[0]] + CollapseNewlines(x[1..]);
      assert x[1..] == p[1..] + rest;
      assert '\n' !in p[1..] by {
        assert forall c :: c in p[1..] ==> c in p;
      }
      CollapseCopiesPrefix(p[1..], rest);
      assert p == [p[0]] + p[1..];
    }
  }

  /** Neither the pieces nor the backslash-n pair hold a line feed, so neither does the whole. */
  lemma NoLineFeedAround(p: string, q: string)
    requires '\n' !in p && '\n' !in q
    ensures '\n' !in p + EscapedNewline + q
  {
    var x := p + EscapedNewline + q;
    forall i | 0 <= i < |x| ensures x[i] != '\n' {
      if i < |p| {
        assert x[i] == p[i];
      } else if i < |p| + 2 {
        assert x[i] == EscapedNewline[i - |p|];
      } else {
        assert x[i] == q[i - |p| - 2];
      }
    }
  }

  /** A single line feed between two lines collapses to the backslash-n pair. */
  lemma CollapseLineFeedBetween(p: string, q: string)
    requires '\n' !in p && '\n' !in q && p != [] && p[|p| - 1] != '\r'
    ensures CollapseNewlines(p + "\n" + q) == p + EscapedNewline + q
  {
    var r := "\n" + q;
    assert p + "\n" + q == p + r;
    CollapseCopiesPrefix(p, r);
    assert BreakRun("\n") by { assert "\n"[1..] == []; }
    CollapseAtRun("\n", q);
    assert SkipBreaks(q) == q by { assert !BreakAt(q); }
    CollapseWithoutLineFeed(q);
    assert CollapseNewlines(r) == EscapedNewline + q;
    assert p + (EscapedNewline + q) == p + EscapedNewline + q;
  }

  /** Text that starts and ends with p's first and q's last character is already trimmed. */
  lemma TrimmedBetween(p: string, m: string, q: string)
    requires p != [] && q != [] && !IsSpace(p[0]) && !IsSpace(q[|q| - 1])
    ensures TrimSpace(p + m + q) == p + m + q
  {
    var x := p + m + q;
    assert x[0] == p[0] && x[|x| - 1] == q[|q| - 1];
    TrimmedIsFixpoint(x);
  }

  /**
   * A single line feed between two lines and the literal backslash-n pair in
   * its place normalise to the same text.
   */
  lemma NormalizeLineFeedAsEscape(p: string, q: string)
    requires p != [] && q != [] && !IsSpace(p[0]) && !IsSpace(q[|q| - 1])
    requires '\n' !in p && '\n' !in q && p[|p| - 1] != '\r'
    ensures Normalize(p + "\n" + q) == p + EscapedNewline + q
    ensures Normalize(p + EscapedNewline + q) == p + EscapedNewline + q
  {
    TrimmedBetween(p, "\n", q);
    TrimmedBetween(p, EscapedNewline, q);
    CollapseLineFeedBetween(p, q);
    NoLineFeedAround(p, q);
    CollapseWithoutLineFeed(p + EscapedNewline + q);
  }

  /** So the checksums of the two texts collide. */
  lemma LineFeedCollidesWithEscape(p: string, q: string)
    requires p != [] && q != [] && !IsSpace(p[0]) && !IsSpace(q[|q| - 1])
    requires '\n' !in p && '\n' !in q && p[|p| - 1] != '\r'
    ensures Checksum(p + "\n" + q) == Checksum(p + EscapedNewline + q)
  {
    NormalizeLineFeedAsEscape(p, q);
  }

  /** Blank lines and CRLF line ends digest like a single LF. */
  lemma BlankLinesAndCrlfCollapseAlike(p: string, q: string)
    requires p == [] || p[|p| - 1] != '\r'
    ensures Checksum(p + "\n\n" + q) == Checksum(p + "\n" + q)
    ensures Checksum(p + "\r\n" + q) == Checksum(p + "\n" + q)
  {
    assert BreakRun("\n\n") by { assert "\n\n"[1..] == "\n" && "\n"[1..] == []; }
    assert BreakRun("\r\n") by { assert "\r\n"[2..] == []; }
    assert BreakRun("\n") by { assert "\n"[1..] == []; }
    ChecksumRunsAlike(p, "\n\n", "\n", q);
    ChecksumRunsAlike(p, "\r\n", "\n", q);
  }
}
