/**
  Decoding a chunked transfer body (`agent_chat_ai_provider.rs`, `decode_chunked_body`).

  The body is text: Rust counts it in bytes of its UTF-8 form and only cuts it between
  characters.
*/
module ChunkedBody {
  import opened Wrappers

  const CRLF := "\r\n"

  // ------------------------------------------------------------------- text in bytes

  function Utf8Len(c: char): nat {
    if c < '\U{80}' then 1 else if c < '\U{800}' then 2 else if c < '\U{10000}' then 3 else 4
  }

  function ByteLen(s: string): nat {
    if s == "" then 0 else Utf8Len(s[0]) + ByteLen(s[1..])
  }

  lemma {:induction false} ByteLenAppend(s: string, t: string)
    ensures ByteLen(s + t) == ByteLen(s) + ByteLen(t)
  {
    if s == "" {
      assert s + t == t;
    } else {
      assert (s + t)[1..] == s[1..] + t;
      ByteLenAppend(s[1..], t);
    }
  }

  /** The text before and after byte `n`, if that is a character boundary. */
  function SplitAtByte(s: string, n: nat): (r: Option<(string, string)>)
    ensures r.Some? ==> s == r.value.0 + r.value.1 && ByteLen(r.value.0) == n
  {
    if n == 0 then Some(("", s))
    else if s == "" || Utf8Len(s[0]) > n then None
    else
      match SplitAtByte(s[1..], n - Utf8Len(s[0]))
      case None => None
      case Some((before, after)) =>
        assert ([s[0]] + before)[1..] == before;
        Some(([s[0]] + before, after))
  }

  lemma {:induction false} SplitAtBoundary(before: string, after: string)
    ensures SplitAtByte(before + after, ByteLen(before)) == Some((before, after))
  {
    if before == "" {
      assert before + after == after;
    } else {
      assert (before + after)[1..] == before[1..] + after;
      SplitAtBoundary(before[1..], after);
      assert [before[0]] + before[1..] == before && (before + after)[0] == before[0];
    }
  }

  // --------------------------------------------------------------------------- lines

  /** No line break inside. */
  predicate IsLine(line: string) {
    forall i | 0 <= i < |line| - 1 :: !(line[i] == '\r' && line[i + 1] == '\n')
  }

  /** The text before and after the first line break. */
  function SplitLine(s: string): (r: Option<(string, string)>)
    ensures r.Some? ==> IsLine(r.value.0) && s == r.value.0 + CRLF + r.value.1
    ensures r.None? ==> IsLine(s)
  {
    if |s| < 2 then None
    else if s[..2] == CRLF then Some(("", s[2..]))
    else
      match SplitLine(s[1..])
      case None => None
      case Some((line, rest)) =>
        assert s == [s[0]] + (line + CRLF + rest);
        assert s[..2] != CRLF && s[1] == (line + CRLF)[0];
        Some(([s[0]] + line, rest))
  }

  lemma {:induction false} SplitAtLine(line: string, rest: string)
    requires IsLine(line)
    ensures SplitLine(line + CRLF + rest) == Some((line, rest))
  {
    var s := line + CRLF + rest;
    if line != "" {
      assert s[1..] == line[1..] + CRLF + rest;
      assert s[1] == (line + CRLF)[1];
      SplitAtLine(line[1..], rest);
      assert [line[0]] + line[1..] == line;
    }
  }

  // --------------------------------------------------------------------- chunk sizes

  /** The white space of Unicode, which `trim` removes. */
  predicate IsWhitespace(c: char) {
    || '\U{9}' <= c <= '\U{D}' || c == ' ' || c == '\U{85}' || c == '\U{A0}' || c == '\U{1680}'
    || '\U{2000}' <= c <= '\U{200A}' || c == '\U{2028}' || c == '\U{2029}' || c == '\U{202F}'
    || c == '\U{205F}' || c == '\U{3000}'
  }

  function TrimStart(s: string): string {
    if s != "" && IsWhitespace(s[0]) then TrimStart(s[1..]) else s
  }

  function TrimEnd(s: string): string {
    if s != "" && IsWhitespace(s[|s| - 1]) then TrimEnd(s[..|s| - 1]) else s
  }

  function Trim(s: string): string { TrimEnd(TrimStart(s)) }

  function DigitValue(c: char): Option<nat> {
    if '0' <= c <= '9' then Some((c - '0') as nat)
    else if 'a' <= c <= 'f' then Some(10 + (c - 'a') as nat)
    else if 'A' <= c <= 'F' then Some(10 + (c - 'A') as nat)
    else None
  }

  function HexValue(digits: string): Option<nat> {
    if digits == "" then Some(0)
    else
      match (HexValue(digits[..|digits| - 1]), DigitValue(digits[|digits| - 1]))
      case (Some(high), Some(low)) => Some(16 * high + low)
      case _ => None
  }

  const MAX_USIZE: nat := 0xFFFF_FFFF_FFFF_FFFF

  /** `usize::from_str_radix(text, 16)`: a plus sign may precede the digits. */
  function ParseSize(text: string): Option<nat> {
    var digits := if text != "" && text[0] == '+' then text[1..] else text;
    if digits == "" then None
    else
      match HexValue(digits)
      case None => None
      case Some(n) => if n <= MAX_USIZE then Some(n) else None
  }

  // ------------------------------------------------------------------------ decoding

  /** `text` before what was decoded, if anything was. */
  function Prepend(text: string, decoded: Option<string>): Option<string> {
    if decoded.Some? then Some(text + decoded.value) else None
  }

  lemma PrependTwice(s: string, t: string, decoded: Option<string>)
    ensures Prepend(s, Prepend(t, decoded)) == Prepend(s + t, decoded)
    ensures Prepend("", decoded) == decoded
  {
    if decoded.Some? {
      assert s + (t + decoded.value) == (s + t) + decoded.value;
      assert "" + decoded.value == decoded.value;
    }
  }

  lemma PrependEnds(s: string)
    ensures Prepend(s, None) == None && Prepend(s, Some("")) == Some(s)
  {
    assert s + "" == s;
  }

  function Decode(body: string): Option<string>
    decreases |body|
  {
    match SplitLine(body)
    case None => None
    case Some((sizeLine, afterSize)) =>
      match ParseSize(Trim(sizeLine))
      case None => None
      case Some(size) =>
        if size == 0 then Some("")
        else if ByteLen(afterSize) < size + 2 then None
        else
          match (SplitAtByte(afterSize, size), SplitAtByte(afterSize, size + 2))
          case (Some((chunk, _)), Some((_, remaining))) =>
            Prepend(chunk, Decode(remaining))
          case _ => None
  }

  method DecodeChunkedBody(body: string) returns (r: Option<string>)
    ensures r == Decode(body)
  {
    hide ByteLen, SplitLine, SplitAtByte, Trim, ParseSize, Prepend;
    var decoded := "";
    var remaining := body;
    PrependTwice("", "", Decode(body));
    while true
      invariant Decode(body) == Prepend(decoded, Decode(remaining))
      decreases |remaining|
    {
      PrependEnds(decoded);
      var line := SplitLine(remaining);
      if line.None? {
        return None;
      }
      var (sizeLine, afterSize) := line.value;
      var size := ParseSize(Trim(sizeLine));
      if size.None? {
        return None;
      }
      if size.value == 0 {
        return Some(decoded);
      }
      if ByteLen(afterSize) < size.value + 2 {
        return None;
      }
      var chunk := SplitAtByte(afterSize, size.value);
      if chunk.None? {
        return None;
      }
      var tail := SplitAtByte(afterSize, size.value + 2);
      if tail.None? {
        return None;
      }
      PrependTwice(decoded, chunk.value.0, Decode(tail.value.1));
      decoded := decoded + chunk.value.0;
      remaining := tail.value.1;
    }
  }

  // ------------------------------------------------------------- exactly what decodes

  /** A size line, the data it measures, and whatever stands between the data and the next
      size line. */
  datatype Frame = Frame(sizeLine: string, data: string, separator: string)

  predicate ValidFrame(f: Frame) {
    && IsLine(f.sizeLine)
    && ParseSize(Trim(f.sizeLine)) == Some(ByteLen(f.data))
    && f.data != ""
    && ByteLen(f.separator) == 2
  }

  predicate ValidEnd(zeroLine: string) {
    IsLine(zeroLine) && ParseSize(Trim(zeroLine)) == Some(0)
  }

  function Framed(frames: seq<Frame>, tail: string): string {
    if frames == [] then tail
    else frames[0].sizeLine + CRLF + (frames[0].data + frames[0].separator + Framed(frames[1..], tail))
  }

  function Payload(frames: seq<Frame>): string {
    if frames == [] then "" else frames[0].data + Payload(frames[1..])
  }

  lemma ByteLenZero(s: string)
    ensures ByteLen(s) == 0 <==> s == ""
  {
  }

  lemma DecodeFrame(f: Frame, rest: string)
    requires ValidFrame(f)
    ensures Decode(f.sizeLine + CRLF + (f.data + f.separator + rest)) ==
            Prepend(f.data, Decode(rest))
  {
    hide ParseSize, Trim, SplitLine, SplitAtByte, Utf8Len;
    var after := f.data + f.separator + rest;
    SplitAtLine(f.sizeLine, after);
    ByteLenZero(f.data);
    hide ByteLen;
    ByteLenAppend(f.data + f.separator, rest);
    ByteLenAppend(f.data, f.separator);
    SplitAtBoundary(f.data + f.separator, rest);
    assert after == f.data + (f.separator + rest);
    SplitAtBoundary(f.data, f.separator + rest);
  }

  /** Valid frames are passed over whatever follows them. */
  lemma {:induction false} DecodeFramed(frames: seq<Frame>, tail: string)
    requires forall i | 0 <= i < |frames| :: ValidFrame(frames[i])
    ensures Decode(Framed(frames, tail)) == Prepend(Payload(frames), Decode(tail))
  {
    hide Decode, Prepend, ParseSize, Trim, ByteLen;
    if frames == [] {
      PrependTwice("", "", Decode(tail));
    } else {
      DecodeFrame(frames[0], Framed(frames[1..], tail));
      DecodeFramed(frames[1..], tail);
      PrependTwice(frames[0].data, Payload(frames[1..]), Decode(tail));
    }
  }

  lemma {:induction false} DecodedIsFramed(body: string) returns (frames: seq<Frame>, zeroLine: string, rest: string)
    requires Decode(body).Some?
    ensures forall i | 0 <= i < |frames| :: ValidFrame(frames[i])
    ensures ValidEnd(zeroLine)
    ensures body == Framed(frames, zeroLine + CRLF + rest)
    ensures Decode(body).value == Payload(frames)
    decreases |body|
  {
    hide ParseSize, Trim, SplitLine, SplitAtByte, Utf8Len, ByteLen;
    var (sizeLine, afterSize) := SplitLine(body).value;
    var size := ParseSize(Trim(sizeLine)).value;
    if size == 0 {
      return [], sizeLine, afterSize;
    }
    var (data, afterData) := SplitAtByte(afterSize, size).value;
    var (upTo, remaining) := SplitAtByte(afterSize, size + 2).value;
    PrefixesNest(data, afterData, upTo, remaining);
    var separator := upTo[|data|..];
    assert upTo == data + separator;
    ByteLenAppend(data, separator);
    ByteLenZero(data);
    var f := Frame(sizeLine, data, separator);
    frames, zeroLine, rest := DecodedIsFramed(remaining);
    assert ([f] + frames)[1..] == frames;
    frames := [f] + frames;
  }

  lemma PrefixesNest(a: string, b: string, c: string, d: string)
    requires a + b == c + d && ByteLen(a) <= ByteLen(c)
    ensures a <= c
  {
    if |c| < |a| {
      assert a == (a + b)[..|a|] && c == (c + d)[..|c|];
      assert a == c + a[|c|..];
      ByteLenAppend(c, a[|c|..]);
      ByteLenZero(a[|c|..]);
    } else {
      assert a == (a + b)[..|a|] && c[..|a|] == (c + d)[..|a|];
    }
  }

  predicate DecodesTo(body: string, decoded: string, frames: seq<Frame>, zeroLine: string, rest: string) {
    && (forall i | 0 <= i < |frames| :: ValidFrame(frames[i]))
    && ValidEnd(zeroLine)
    && body == Framed(frames, zeroLine + CRLF + rest)
    && decoded == Payload(frames)
  }

  /** A body decodes exactly when it is a run of frames, each measured by its size line and
      followed by any two bytes, up to a line of size zero; it decodes to their data. */
  lemma WhatDecodes(body: string, decoded: string)
    ensures Decode(body) == Some(decoded) <==>
            exists frames, zeroLine, rest :: DecodesTo(body, decoded, frames, zeroLine, rest)
  {
    if Decode(body) == Some(decoded) {
      var frames, zeroLine, rest := DecodedIsFramed(body);
      assert DecodesTo(body, decoded, frames, zeroLine, rest);
    }
    if frames, zeroLine, rest :| DecodesTo(body, decoded, frames, zeroLine, rest) {
      DecodeFramed(frames, zeroLine + CRLF + rest);
      SplitAtLine(zeroLine, rest);
      assert Payload(frames) + "" == Payload(frames);
    }
  }

  // ------------------------------------- the encoding of section 7.1 of RFC 9112

  /** `chunk-size`: one or more hexadecimal digits of either case. */
  predicate IsChunkSize(text: string, n: nat) {
    text != "" && HexValue(text) == Some(n)
  }

  function Encode(chunks: seq<string>, sizes: seq<string>, lastSize: string, trailer: string): string
    requires |sizes| == |chunks|
  {
    if chunks == [] then lastSize + CRLF + (trailer + CRLF)
    else sizes[0] + CRLF + (chunks[0] + CRLF + Encode(chunks[1..], sizes[1..], lastSize, trailer))
  }

  function Concat(chunks: seq<string>): string {
    if chunks == [] then "" else chunks[0] + Concat(chunks[1..])
  }

  lemma {:induction false} HexTextIsDigits(text: string, i: nat)
    requires HexValue(text).Some? && i < |text|
    ensures DigitValue(text[i]).Some?
  {
    if i < |text| - 1 {
      HexTextIsDigits(text[..|text| - 1], i);
    }
  }

  lemma ChunkSizeParses(text: string, n: nat)
    requires IsChunkSize(text, n) && n <= MAX_USIZE
    ensures IsLine(text) && ParseSize(Trim(text)) == Some(n)
  {
    forall i | 0 <= i < |text| ensures DigitValue(text[i]).Some? {
      HexTextIsDigits(text, i);
    }
    assert DigitValue(text[0]).Some? && DigitValue(text[|text| - 1]).Some?;
    assert Trim(text) == text;
  }

  /** Decoding undoes encoding, whatever digits the sender writes its sizes with, leading
      zeros and letter case included, and whatever trailer follows. */
  lemma {:induction false} DecodingUndoesEncoding(chunks: seq<string>, sizes: seq<string>, lastSize: string,
                                                  trailer: string)
    requires |sizes| == |chunks| && IsChunkSize(lastSize, 0)
    requires forall i | 0 <= i < |chunks| ::
               chunks[i] != "" && ByteLen(chunks[i]) <= MAX_USIZE && IsChunkSize(sizes[i], ByteLen(chunks[i]))
    ensures Decode(Encode(chunks, sizes, lastSize, trailer)) == Some(Concat(chunks))
  {
    if chunks == [] {
      ChunkSizeParses(lastSize, 0);
      SplitAtLine(lastSize, trailer + CRLF);
    } else {
      ChunkSizeParses(sizes[0], ByteLen(chunks[0]));
      var f := Frame(sizes[0], chunks[0], CRLF);
      assert ByteLen(CRLF[1..]) == 1;
      DecodeFrame(f, Encode(chunks[1..], sizes[1..], lastSize, trailer));
      DecodingUndoesEncoding(chunks[1..], sizes[1..], lastSize, trailer);
    }
  }

  function HexDigit(n: nat): char
    requires n < 16
  {
    "0123456789abcdef"[n]
  }

  function HexText(n: nat): string {
    if n < 16 then [HexDigit(n)] else HexText(n / 16) + [HexDigit(n % 16)]
  }

  /** Printing and reading a size are inverse, so such digits always exist. */
  lemma {:induction false} HexRoundTrip(n: nat)
    ensures IsChunkSize(HexText(n), n)
  {
    assert DigitValue(HexDigit(n % 16)) == Some(n % 16);
    if n < 16 {
      assert HexText(n)[..0] == "";
    } else {
      HexRoundTrip(n / 16);
      assert HexText(n)[..|HexText(n)| - 1] == HexText(n / 16);
    }
  }

  // ------------------------------------------------------------ what is not decoded

  lemma {:induction false} TrimKeeps(s: string, i: nat) returns (j: nat)
    requires i < |s| && !IsWhitespace(s[i])
    ensures j < |Trim(s)| && Trim(s)[j] == s[i]
  {
    var k := TrimStartKeeps(s, i);
    j := TrimEndKeeps(TrimStart(s), k);
  }

  lemma {:induction false} TrimStartKeeps(s: string, i: nat) returns (j: nat)
    requires i < |s| && !IsWhitespace(s[i])
    ensures j < |TrimStart(s)| && TrimStart(s)[j] == s[i]
  {
    j := i;
    if IsWhitespace(s[0]) {
      j := TrimStartKeeps(s[1..], i - 1);
    }
  }

  lemma {:induction false} TrimEndKeeps(s: string, i: nat) returns (j: nat)
    requires i < |s| && !IsWhitespace(s[i])
    ensures j < |TrimEnd(s)| && TrimEnd(s)[j] == s[i]
  {
    j := i;
    if IsWhitespace(s[|s| - 1]) {
      j := TrimEndKeeps(s[..|s| - 1], i);
    }
  }

  /** RFC 9112 lets a sender put extensions, which start with a semicolon, on a size line and
      has recipients skip them. This decoder gives up on any body with such a line. */
  lemma ExtensionsAreRefused(frames: seq<Frame>, size: string, extension: string, rest: string)
    requires forall i | 0 <= i < |frames| :: ValidFrame(frames[i])
    requires IsLine(size + ";" + extension)
    ensures Decode(Framed(frames, size + ";" + extension + CRLF + rest)) == None
  {
    var line := size + ";" + extension;
    DecodeFramed(frames, line + CRLF + rest);
    SplitAtLine(line, rest);
    ExtendedSizeFails(line, |size|);
  }

  lemma ExtendedSizeFails(line: string, i: nat)
    requires i < |line| && line[i] == ';'
    ensures ParseSize(Trim(line)) == None
  {
    hide Trim, HexValue;
    var j := TrimKeeps(line, i);
    var text := Trim(line);
    var digits := if text[0] == '+' then text[1..] else text;
    if HexValue(digits).Some? {
      HexTextIsDigits(digits, if text[0] == '+' then j - 1 else j);
    }
  }

  // -------------------------------------------------------- the details of a size line

  /** How many bytes UTF-8 takes for a code point: one for seven bits, two for eleven, three
      for sixteen, four beyond. */
  lemma Utf8LenMeans(c: char)
    ensures var code := c as int;
            && (code < 0x80 ==> Utf8Len(c) == 1)
            && (0x80 <= code < 0x800 ==> Utf8Len(c) == 2)
            && (0x800 <= code < 0x1_0000 ==> Utf8Len(c) == 3)
            && (0x1_0000 <= code ==> Utf8Len(c) == 4)
  {
  }

  /** The code points of Unicode's White_Space property. */
  predicate IsWhiteSpaceCode(code: int) {
    || 0x9 <= code <= 0xD || code == 0x20 || code == 0x85 || code == 0xA0 || code == 0x1680
    || 0x2000 <= code <= 0x200A || code == 0x2028 || code == 0x2029 || code == 0x202F || code == 0x205F
    || code == 0x3000
  }

  predicate AllWhite(s: string) { forall i | 0 <= i < |s| :: IsWhiteSpaceCode(s[i] as int) }

  lemma {:induction false} TrimStartMeans(s: string) returns (before: string)
    ensures s == before + TrimStart(s) && AllWhite(before)
    ensures TrimStart(s) != "" ==> !IsWhiteSpaceCode(TrimStart(s)[0] as int)
  {
    before := "";
    if s != "" && IsWhitespace(s[0]) {
      var rest := TrimStartMeans(s[1..]);
      before := [s[0]] + rest;
    }
  }

  lemma {:induction false} TrimEndMeans(s: string) returns (after: string)
    ensures s == TrimEnd(s) + after && AllWhite(after)
    ensures TrimEnd(s) != "" ==> !IsWhiteSpaceCode(TrimEnd(s)[|TrimEnd(s)| - 1] as int)
  {
    after := "";
    if s != "" && IsWhitespace(s[|s| - 1]) {
      var rest := TrimEndMeans(s[..|s| - 1]);
      after := rest + [s[|s| - 1]];
    }
  }

  /** Trimming takes white space off both ends, and all of it. */
  lemma TrimMeans(s: string) returns (before: string, after: string)
    ensures s == before + Trim(s) + after && AllWhite(before) && AllWhite(after)
    ensures Trim(s) != "" ==>
              !IsWhiteSpaceCode(Trim(s)[0] as int) && !IsWhiteSpaceCode(Trim(s)[|Trim(s)| - 1] as int)
  {
    before := TrimStartMeans(s);
    after := TrimEndMeans(TrimStart(s));
  }

  /** The digits are zero to nine and a to f, of either case. */
  lemma DigitMeans(c: char, d: nat)
    requires d < 16
    ensures DigitValue(c) == Some(d) <==> c == "0123456789abcdef"[d] || c == "0123456789ABCDEF"[d]
  {
  }

  lemma DigitBelow(c: char)
    ensures DigitValue(c).Some? ==> DigitValue(c).value < 16
  {
  }

  function Power16(k: nat): nat { if k == 0 then 1 else 16 * Power16(k - 1) }

  /** A digit in front counts sixteen for every digit behind it. */
  lemma {:induction false} FirstDigitCounts(c: char, digits: string)
    ensures HexValue([c] + digits) ==
            if DigitValue(c).Some? && HexValue(digits).Some?
            then Some(DigitValue(c).value * Power16(|digits|) + HexValue(digits).value) else None
  {
    hide DigitValue;
    var text := [c] + digits;
    if digits == "" {
      assert text[..0] == "" && text[0] == c;
    } else {
      var front, last := digits[..|digits| - 1], digits[|digits| - 1];
      FirstDigitCounts(c, front);
      assert text[..|text| - 1] == [c] + front && text[|text| - 1] == last;
    }
  }

  /** A size is read from hexadecimal digits, at least one, after at most one plus sign, if it
      fits into 64 bits. */
  lemma SizeMeans(text: string, n: nat)
    ensures ParseSize(text) == Some(n) <==>
            exists digits :: && digits != "" && (text == digits || text == "+" + digits)
                             && HexValue(digits) == Some(n) && n < 0x1_0000_0000_0000_0000
  {
    if digits :| digits != "" && (text == digits || text == "+" + digits) && HexValue(digits) == Some(n)
                 && n < 0x1_0000_0000_0000_0000 {
      if text == digits && text[0] == '+' {
        PlusIsNoDigit(text);
      } else if text != digits {
        assert text[1..] == digits;
      }
    }
    if ParseSize(text) == Some(n) {
      var digits := if text[0] == '+' then text[1..] else text;
      assert digits != "" && (text == digits || text == "+" + digits);
    }
    hide HexValue;
  }

  lemma PlusIsNoDigit(text: string)
    requires text != "" && text[0] == '+'
    ensures HexValue(text) == None
  {
    if HexValue(text).Some? {
      HexTextIsDigits(text, 0);
    }
  }
}
