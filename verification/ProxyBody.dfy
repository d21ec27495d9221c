/** Request bodies: length-delimited, or chunked as in section 7.1 of RFC 9112. */
module ProxyBody {
  import opened Basics
  import opened Wire

  // ---- Numbers as Python's `int` reads them --------------------------------------------------

  /** The white space that `bytes.strip` and `int` skip. */
  predicate IsBlank(c: char) {
    '\t' <= c <= '\r' || c == ' '
  }

  function TrimLeft(s: string): string {
    if s != "" && IsBlank(s[0]) then TrimLeft(s[1..]) else s
  }

  function TrimRight(s: string): string {
    if s != "" && IsBlank(s[|s| - 1]) then TrimRight(s[..|s| - 1]) else s
  }

  function Trim(s: string): string {
    TrimLeft(TrimRight(s))
  }

  predicate IsHex(c: char) {
    '0' <= c <= '9' || 'a' <= c <= 'f' || 'A' <= c <= 'F'
  }

  function HexDigit(c: char): nat
    requires IsHex(c)
  {
    if '0' <= c <= '9' then (c - '0') as nat
    else if 'a' <= c <= 'f' then (c - 'a') as nat + 10
    else (c - 'A') as nat + 10
  }

  predicate AllHex(s: string) {
    forall i | 0 <= i < |s| :: IsHex(s[i])
  }

  function HexValue(s: string): nat
    requires AllHex(s)
  {
    if s == "" then 0 else 16 * HexValue(s[..|s| - 1]) + HexDigit(s[|s| - 1])
  }

  /** Single underscores may stand between digits. */
  function WithoutUnderscores(s: string): Option<string> {
    if s == "" then None
    else if |s| == 1 then if IsHex(s[0]) then Some(s) else None
    else if !IsHex(s[0]) then None
    else
      var rest := if s[1] == '_' then s[2..] else s[1..];
      match WithoutUnderscores(rest)
      case None => None
      case Some(digits) => Some([s[0]] + digits)
  }

  lemma {:induction false} WithoutUnderscoresHex(s: string)
    ensures WithoutUnderscores(s).Some? ==> AllHex(WithoutUnderscores(s).value)
  {
    if |s| > 1 && IsHex(s[0]) {
      WithoutUnderscoresHex(if s[1] == '_' then s[2..] else s[1..]);
    }
  }

  lemma {:induction false} WithoutUnderscoresPlain(s: string)
    requires s != "" && AllHex(s)
    ensures WithoutUnderscores(s) == Some(s)
  {
    if |s| > 1 {
      assert IsHex(s[1]) && s[1] != '_';
      assert forall i | 0 <= i < |s| - 1 :: s[1..][i] == s[i + 1];
      WithoutUnderscoresPlain(s[1..]);
      assert s == [s[0]] + s[1..];
    }
  }

  /** `int(s, 16)`: white space, a sign, a `0x` prefix, digits; None where it raises. */
  function ParseHex(s: string): Option<int> {
    var t := Trim(s);
    var negative := t != "" && t[0] == '-';
    var u := if negative || (t != "" && t[0] == '+') then t[1..] else t;
    var v := if |u| >= 2 && u[0] == '0' && (u[1] == 'x' || u[1] == 'X')
             then (if |u| >= 3 && u[2] == '_' then u[3..] else u[2..])
             else u;
    WithoutUnderscoresHex(v);
    match WithoutUnderscores(v)
    case None => None
    case Some(digits) =>
      var n: int := HexValue(digits);
      Some(if negative then -n else n)
  }

  // ---- Reading ----------------------------------------------------------------------------------

  function DecodeChunked(s: string): (r: (string, string))
    decreases |s|
  {
    var sizeLine := Trim(FirstLine(s, LINE_LIMIT));
    var after := AfterLine(s, LINE_LIMIT);
    if sizeLine == "" then ("", after)
    else
      match ParseHex(Before(sizeLine, ';'))
      case None => ("", after)
      case Some(size) =>
        if size == 0 then ("", AfterLine(after, LINE_LIMIT))
        else
          assert Trim("") == "";
          var (body, rest) := DecodeChunked(AfterLine(Drop(after, size), LINE_LIMIT));
          (Take(after, size) + body, rest)
  }

  method ReadChunked(conn: Connection) returns (body: string)
    modifies conn
    ensures (body, conn.incoming) == DecodeChunked(old(conn.incoming))
  {
    hide FirstLine, AfterLine, ParseHex, Trim, Take, Drop;
    body := "";
    assert body + DecodeChunked(conn.incoming).0 == DecodeChunked(conn.incoming).0;
    while true
      invariant DecodeChunked(old(conn.incoming)) ==
        (var (more, rest) := DecodeChunked(conn.incoming); (body + more, rest))
      decreases |conn.incoming|
    {
      ghost var start := conn.incoming;
      var line := conn.ReadLine(LINE_LIMIT);
      var sizeLine := Trim(line);
      assert body + "" == body;
      if sizeLine == "" {
        break;
      }
      ghost var after := conn.incoming;
      var size := ParseHex(Before(sizeLine, ';'));
      if size == None {
        break;
      }
      if size.value == 0 {
        var trailing := conn.ReadLine(LINE_LIMIT);
        break;
      }
      var chunk := conn.ReadExact(size.value);
      var ending := conn.ReadLine(LINE_LIMIT);
      ghost var more := DecodeChunked(conn.incoming).0;
      ChunkedShorter(start, size.value);
      assert body + (chunk + more) == (body + chunk) + more;
      body := body + chunk;
    }
  }

  lemma {:induction false} ChunkedShorter(s: string, size: int)
    requires Trim(FirstLine(s, LINE_LIMIT)) != ""
    ensures |AfterLine(Drop(AfterLine(s, LINE_LIMIT), size), LINE_LIMIT)| < |s|
  {
    assert Trim("") == "";
  }

  /** The digits `isdigit` accepts within Latin-1: the superscripts, which `int` then refuses. */
  predicate IsDigit(c: char) {
    '0' <= c <= '9' || c == '\U{b2}' || c == '\U{b3}' || c == '\U{b9}'
  }

  predicate IsDigits(s: string) {
    s != "" && forall i | 0 <= i < |s| :: IsDigit(s[i])
  }

  predicate IsDecimal(s: string) {
    s != "" && forall i | 0 <= i < |s| :: '0' <= s[i] <= '9'
  }

  /** The most digits Python's `int` reads, leading zeros included. */
  const INT_DIGITS := 4300

  predicate IntReads(s: string) {
    IsDecimal(s) && |s| <= INT_DIGITS
  }

  function DecimalValue(s: string): nat
    requires forall i | 0 <= i < |s| :: '0' <= s[i] <= '9'
  {
    if s == "" then 0 else 10 * DecimalValue(s[..|s| - 1]) + (s[|s| - 1] - '0') as nat
  }

  lemma {:induction false} DigitChar(d: nat)
    requires d < 10
    ensures "0123456789"[d] == '0' + d as char
  {
  }

  lemma {:induction false} DecimalStep(s: string, c: char)
    requires (s == "" || IsDecimal(s)) && '0' <= c <= '9'
    ensures IsDecimal(s + [c]) && DecimalValue(s + [c]) == 10 * DecimalValue(s) + (c - '0') as nat
  {
    assert (s + [c])[..|s|] == s;
  }

  lemma {:induction false} DigitsStep(n: nat)
    ensures Digits(n) == (if n < 10 then "" else Digits(n / 10)) + ["0123456789"[n % 10]]
  {
  }

  lemma {:induction false} NoDigits()
    ensures DecimalValue("") == 0
  {
  }

  lemma {:induction false} DigitsDecimal(n: nat)
    ensures IsDecimal(Digits(n)) && DecimalValue(Digits(n)) == n
  {
    hide Digits, DecimalValue, IsDecimal;
    DigitsStep(n);
    DigitChar(n % 10);
    NoDigits();
    if n >= 10 { DigitsDecimal(n / 10); }
    DecimalStep(if n < 10 then "" else Digits(n / 10), "0123456789"[n % 10]);
  }

  const TRANSFER_ENCODING := "transfer-encoding"
  const CONTENT_LENGTH := "content-length"

  predicate Chunked(headers: seq<Field>) {
    Contains(Lower(Lookup(headers, TRANSFER_ENCODING)), "chunked")
  }

  /** The body at the front of a stream and what follows it; None where reading raises. */
  function BodyOf(headers: seq<Field>, s: string): Option<(string, string)> {
    if Chunked(headers) then Some(DecodeChunked(s))
    else
      var length := Lookup(headers, CONTENT_LENGTH);
      if !IsDigits(length) then Some(("", s))
      else if !IntReads(length) then None
      else var n := DecimalValue(length); Some((Take(s, n), Drop(s, n)))
  }

  method ReadBody(conn: Connection, headers: seq<Field>) returns (body: Option<string>)
    modifies conn
    ensures match BodyOf(headers, old(conn.incoming))
            case None => body == None && conn.incoming == old(conn.incoming)
            case Some((bytes, rest)) => body == Some(bytes) && conn.incoming == rest
  {
    hide DecodeChunked;
    if Chunked(headers) {
      var bytes := ReadChunked(conn);
      return Some(bytes);
    }
    var length := Lookup(headers, CONTENT_LENGTH);
    if IsDigits(length) {
      if !IntReads(length) {
        return None;
      }
      var bytes := conn.ReadExact(DecimalValue(length));
      return Some(bytes);
    }
    return Some("");
  }

  // ---- Chunked encoding, and decoding it --------------------------------------------------------

  /** `size` may carry leading zeros and either case; `ext` is empty or a `;` list, with optional
      blanks before it. */
  datatype Chunk = Chunk(size: string, ext: string, data: string)

  function SizeLine(size: string, ext: string): string {
    size + ext + "\r\n"
  }

  predicate ValidExt(ext: string) {
    && '\n' !in ext
    && (ext == "" || (';' in ext && forall i | 0 <= i < IndexOf(ext, ';') :: ext[i] == ' ' || ext[i] == '\t'))
  }

  predicate ValidSize(size: string, ext: string, n: nat) {
    && size != "" && AllHex(size) && HexValue(size) == n && ValidExt(ext)
    && |SizeLine(size, ext)| <= LINE_LIMIT
  }

  predicate ValidChunk(c: Chunk) {
    c.data != "" && ValidSize(c.size, c.ext, |c.data|)
  }

  /** A chunked body: the chunks, the last chunk of size zero, the trailer lines, an empty line. */
  datatype Message = Message(chunks: seq<Chunk>, zero: string, zeroExt: string, trailers: seq<string>)

  predicate ValidMessage(m: Message) {
    && (forall i | 0 <= i < |m.chunks| :: ValidChunk(m.chunks[i]))
    && ValidSize(m.zero, m.zeroExt, 0)
    && forall i | 0 <= i < |m.trailers| ::
         m.trailers[i] != "" && '\n' !in m.trailers[i] && |m.trailers[i]| + 2 <= LINE_LIMIT
  }

  function EncodeTrailers(lines: seq<string>): string {
    if lines == [] then "\r\n" else lines[0] + "\r\n" + EncodeTrailers(lines[1..])
  }

  function EncodeChunks(chunks: seq<Chunk>): string {
    if chunks == [] then ""
    else SizeLine(chunks[0].size, chunks[0].ext) + chunks[0].data + "\r\n" + EncodeChunks(chunks[1..])
  }

  function Encode(m: Message): string {
    EncodeChunks(m.chunks) + SizeLine(m.zero, m.zeroExt) + EncodeTrailers(m.trailers)
  }

  function Payload(chunks: seq<Chunk>): string {
    if chunks == [] then "" else chunks[0].data + Payload(chunks[1..])
  }

  lemma {:induction false} TrimSuffix(s: string, blanks: string)
    requires forall i | 0 <= i < |blanks| :: IsBlank(blanks[i])
    ensures TrimRight(s + blanks) == TrimRight(s)
  {
    if blanks == "" {
      assert s + blanks == s;
    } else {
      var t := s + blanks;
      assert t[|t| - 1] == blanks[|blanks| - 1];
      assert t[..|t| - 1] == s + blanks[..|blanks| - 1];
      TrimSuffix(s, blanks[..|blanks| - 1]);
    }
  }

  lemma {:induction false} TrimRightKeeps(s: string, k: nat)
    requires k < |s| && !IsBlank(s[k])
    ensures |TrimRight(s)| > k && TrimRight(s) <= s
  {
    if IsBlank(s[|s| - 1]) {
      TrimRightKeeps(s[..|s| - 1], k);
    }
  }

  lemma {:induction false} HexNotBlank(c: char)
    requires IsHex(c)
    ensures !IsBlank(c) && c != ';' && c != '+' && c != '-' && c != 'x' && c != 'X' && c != '_'
  {
  }

  /** Whatever is legal on a size line, the reader gets the number. */
  lemma {:induction false} SizeLineRead(size: string, ext: string, n: nat)
    requires ValidSize(size, ext, n)
    ensures var sizeLine := Trim(SizeLine(size, ext));
            sizeLine != "" && ParseHex(Before(sizeLine, ';')) == Some(n)
  {
    var line := SizeLine(size, ext);
    HexNotBlank(size[0]);
    if ext == "" {
      assert line == size + "\r\n";
      TrimSuffix(size, "\r\n");
      HexNotBlank(size[|size| - 1]);
      assert Trim(line) == size;
      forall i | 0 <= i < |size| ensures size[i] != ';' { HexNotBlank(size[i]); }
      IndexOfUnique(size, ';', |size|);
      assert size[..|size|] == size;
      PlainHex(size, "");
      assert size + "" == size;
    } else {
      var k := IndexOf(ext, ';');
      var at := |size| + k;
      assert line[at] == ';' && !IsBlank(';');
      TrimRightKeeps(line, at);
      var sizeLine := TrimRight(line);
      assert sizeLine[0] == size[0] && Trim(line) == sizeLine;
      assert sizeLine[at] == ';';
      forall i | 0 <= i < at ensures sizeLine[i] != ';' {
        if i < |size| { HexNotBlank(size[i]); assert sizeLine[i] == size[i]; }
        else { assert sizeLine[i] == ext[i - |size|]; }
      }
      IndexOfUnique(sizeLine, ';', at);
      assert sizeLine[..at] == size + ext[..k];
      PlainHex(size, ext[..k]);
    }
  }

  lemma {:induction false} PlainHex(size: string, blanks: string)
    requires size != "" && AllHex(size) && forall i | 0 <= i < |blanks| :: IsBlank(blanks[i])
    ensures ParseHex(size + blanks) == Some(HexValue(size))
  {
    TrimSuffix(size, blanks);
    HexNotBlank(size[0]);
    HexNotBlank(size[|size| - 1]);
    if |size| > 1 { HexNotBlank(size[1]); }
    assert Trim(size + blanks) == size;
    WithoutUnderscoresPlain(size);
  }

  lemma {:induction false} SizeLineFirst(size: string, ext: string, n: nat, rest: string)
    requires ValidSize(size, ext, n)
    ensures FirstLine(SizeLine(size, ext) + rest, LINE_LIMIT) == SizeLine(size, ext)
    ensures AfterLine(SizeLine(size, ext) + rest, LINE_LIMIT) == rest
  {
    var text := size + ext + "\r";
    forall i | 0 <= i < |size| ensures size[i] != '\n' { HexNotBlank(size[i]); }
    assert SizeLine(size, ext) == text + "\n";
    FirstLineOf(text, rest, LINE_LIMIT);
  }

  lemma {:induction false} BlankLineFirst(rest: string)
    ensures AfterLine("\r\n" + rest, LINE_LIMIT) == rest
  {
    assert "\r\n" + rest == "\r" + "\n" + rest;
    FirstLineOf("\r", rest, LINE_LIMIT);
  }

  /** What the reader leaves unread: it takes one line after the last chunk and stops. */
  function Unread(trailers: seq<string>): string {
    if trailers == [] then "" else EncodeTrailers(trailers[1..])
  }

  /** One line read from the trailer section. */
  lemma {:induction false} TrailerLine(trailers: seq<string>, rest: string)
    requires trailers != [] ==> '\n' !in trailers[0] && |trailers[0]| + 2 <= LINE_LIMIT
    ensures AfterLine(EncodeTrailers(trailers) + rest, LINE_LIMIT) == Unread(trailers) + rest
  {
    hide FirstLine, AfterLine;
    if trailers == [] {
      BlankLineFirst(rest);
      assert "" + rest == rest;
    } else {
      var text, more := trailers[0] + "\r", EncodeTrailers(trailers[1..]) + rest;
      assert EncodeTrailers(trailers) + rest == text + "\n" + more;
      FirstLineOf(text, more, LINE_LIMIT);
    }
  }

  /** After a size line of zero one more line is taken, and nothing else. */
  lemma {:induction false} DecodeZero(zero: string, ext: string, after: string)
    requires ValidSize(zero, ext, 0)
    ensures DecodeChunked(SizeLine(zero, ext) + after) == ("", AfterLine(after, LINE_LIMIT))
  {
    SizeLineFirst(zero, ext, 0, after);
    SizeLineRead(zero, ext, 0);
    hide FirstLine, AfterLine, ParseHex, Trim, Take, Drop, Before, SizeLine, ValidSize;
  }

  lemma {:induction false} DecodeLast(m: Message, rest: string)
    requires ValidMessage(m) && m.chunks == []
    ensures DecodeChunked(Encode(m) + rest) == ("", Unread(m.trailers) + rest)
  {
    var after := EncodeTrailers(m.trailers) + rest;
    assert Encode(m) + rest == SizeLine(m.zero, m.zeroExt) + after by { hide SizeLine; }
    DecodeZero(m.zero, m.zeroExt, after);
    TrailerLine(m.trailers, rest);
    hide DecodeChunked, Encode;
  }

  lemma {:induction false} DecodeOne(c: Chunk, tail: string)
    requires ValidChunk(c)
    ensures DecodeChunked(SizeLine(c.size, c.ext) + c.data + "\r\n" + tail) ==
            (c.data + DecodeChunked(tail).0, DecodeChunked(tail).1)
  {
    var after := c.data + ("\r\n" + tail);
    assert SizeLine(c.size, c.ext) + c.data + "\r\n" + tail == SizeLine(c.size, c.ext) + after;
    SizeLineFirst(c.size, c.ext, |c.data|, after);
    SizeLineRead(c.size, c.ext, |c.data|);
    TakeDrop(c.data, "\r\n" + tail);
    BlankLineFirst(tail);
    hide FirstLine, AfterLine, ParseHex, Trim, Take, Drop, Before, SizeLine;
  }

  lemma {:induction false} FiveParts(a: string, b: string, c: string, d: string, e: string, f: string)
    ensures (a + b + "\r\n" + c) + d + e + f == a + b + "\r\n" + (c + d + e + f)
  {
  }

  lemma {:induction false} EncodeStep(m: Message, rest: string)
    requires m.chunks != []
    ensures var c, more := m.chunks[0], m.(chunks := m.chunks[1..]);
            Encode(m) + rest == SizeLine(c.size, c.ext) + c.data + "\r\n" + (Encode(more) + rest)
  {
    hide SizeLine, EncodeTrailers;
    var c := m.chunks[0];
    FiveParts(SizeLine(c.size, c.ext), c.data, EncodeChunks(m.chunks[1..]), SizeLine(m.zero, m.zeroExt),
              EncodeTrailers(m.trailers), rest);
  }

  lemma {:induction false} ValidStep(m: Message)
    requires ValidMessage(m) && m.chunks != []
    ensures ValidChunk(m.chunks[0]) && ValidMessage(m.(chunks := m.chunks[1..]))
  {
    hide ValidChunk, ValidSize;
  }

  /** Decoding any valid encoding gives the concatenated chunk data, and consumes everything up to
      the first trailer line. */
  lemma {:induction false} DecodeEncode(m: Message, rest: string)
    requires ValidMessage(m)
    ensures DecodeChunked(Encode(m) + rest) == (Payload(m.chunks), Unread(m.trailers) + rest)
    decreases |m.chunks|
  {
    if m.chunks == [] {
      DecodeLast(m, rest);
    } else {
      ValidStep(m);
      hide DecodeChunked, SizeLine, Encode, Unread, ValidChunk, ValidMessage;
      var c, more := m.chunks[0], m.(chunks := m.chunks[1..]);
      EncodeStep(m, rest);
      DecodeOne(c, Encode(more) + rest);
      DecodeEncode(more, rest);
    }
  }

  /** Exactly the encoded octets are consumed if and only if there are no trailer lines. */
  lemma {:induction false} ConsumesExactly(m: Message, rest: string)
    requires ValidMessage(m)
    ensures DecodeChunked(Encode(m) + rest).1 == rest <==> m.trailers == []
  {
    DecodeEncode(m, rest);
    if m.trailers != [] {
      assert |EncodeTrailers(m.trailers[1..])| > 0;
    } else {
      assert "" + rest == rest;
    }
  }

  /** Reading a chunked request off any connection, however the octets arrive. */
  method ReadChunkedMessage(conn: Connection, headers: seq<Field>, ghost m: Message, ghost rest: string)
    returns (body: Option<string>)
    requires Chunked(headers) && ValidMessage(m) && conn.incoming == Encode(m) + rest
    modifies conn
    ensures body == Some(Payload(m.chunks))
    ensures conn.incoming == Unread(m.trailers) + rest
  {
    DecodeEncode(m, rest);
    body := ReadBody(conn, headers);
  }
}
