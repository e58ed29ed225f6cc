/** The chunked-body relay (section 7.1 of RFC 9112): what it writes, what it leaves, and how it fails. */
module ChunkedBody {
  import opened Optional
  import opened ChunkGrammar
  import opened Streams

  // ---------------------------------------------------------------- trimming white space

  predicate AsciiSpace(b: byte) {
    (9 <= b && b <= 13) || b == 32
  }

  predicate TwoByteSpace(a: byte, b: byte) {
    a == 0xC2 && (b == 0x85 || b == 0xA0)
  }

  predicate ThreeByteSpace(a: byte, b: byte, c: byte) {
    || (a == 0xE1 && b == 0x9A && c == 0x80)
    || (a == 0xE2 && b == 0x80 && ((0x80 <= c && c <= 0x8A) || c == 0xA8 || c == 0xA9 || c == 0xAF))
    || (a == 0xE2 && b == 0x81 && c == 0x9F)
    || (a == 0xE3 && b == 0x80 && c == 0x80)
  }

  /** The length of the white-space character, in UTF-8, at the start; 0 if there is none. */
  function SpaceAtStart(s: Bytes): (n: nat)
    ensures n <= |s|
  {
    if |s| >= 1 && AsciiSpace(s[0]) then 1
    else if |s| >= 2 && TwoByteSpace(s[0], s[1]) then 2
    else if |s| >= 3 && ThreeByteSpace(s[0], s[1], s[2]) then 3
    else 0
  }

  function SpaceAtEnd(s: Bytes): (n: nat)
    ensures n <= |s|
  {
    var k := |s|;
    if k >= 1 && AsciiSpace(s[k - 1]) then 1
    else if k >= 2 && TwoByteSpace(s[k - 2], s[k - 1]) then 2
    else if k >= 3 && ThreeByteSpace(s[k - 3], s[k - 2], s[k - 1]) then 3
    else 0
  }

  function TrimLeft(s: Bytes): Bytes {
    if SpaceAtStart(s) == 0 then s else TrimLeft(s[SpaceAtStart(s)..])
  }

  function TrimRight(s: Bytes): (r: Bytes)
    ensures r <= s
  {
    if SpaceAtEnd(s) == 0 then s else TrimRight(s[..|s| - SpaceAtEnd(s)])
  }

  /** strings.TrimSpace */
  function TrimSpace(s: Bytes): Bytes {
    TrimRight(TrimLeft(s))
  }

  /** Bytes that are part of no white space. */
  predicate Solid(b: byte) {
    33 <= b && b < 0x80
  }

  /** Trimming on the right stops at a solid byte. */
  lemma {:induction false} TrimRightStops(a: Bytes, b: Bytes)
    requires a != [] && Solid(a[|a| - 1])
    ensures TrimRight(a + b) == a + TrimRight(b)
    decreases |b|
  {
    var n := SpaceAtEnd(a + b);
    if b == [] {
      assert a + b == a;
    } else {
      SpaceAfter(a, b);
      if n > 0 {
        assert (a + b)[..|a + b| - n] == a + b[..|b| - n];
        TrimRightStops(a, b[..|b| - n]);
      }
    }
  }

  lemma SpaceAfter(a: Bytes, b: Bytes)
    requires a != [] && Solid(a[|a| - 1]) && b != []
    ensures SpaceAtEnd(a + b) == SpaceAtEnd(b)
  {
    var s, k := a + b, |a| + |b|;
    assert s[k - 1] == b[|b| - 1];
    assert |b| == 1 ==> s[k - 2] == a[|a| - 1];
    assert |b| >= 2 ==> s[k - 2] == b[|b| - 2];
    assert |b| == 2 ==> s[k - 3] == a[|a| - 1];
    assert |b| >= 3 ==> s[k - 3] == b[|b| - 3];
  }

  // ---------------------------------------------------------------- the size line

  /** What comes before the first semicolon. */
  function BeforeSemicolon(s: Bytes): Bytes {
    if s == [] || s[0] == SEMICOLON then [] else [s[0]] + BeforeSemicolon(s[1..])
  }

  function HexDigit(b: byte): Option<nat> {
    if 48 <= b && b <= 57 then Some(b as nat - 48)
    else if 97 <= b && b <= 102 then Some(b as nat - 87)
    else if 65 <= b && b <= 70 then Some(b as nat - 55)
    else None
  }

  /** A nonempty string of hexadecimal digits. */
  function ParseHex(s: Bytes): Option<nat> {
    if s == [] then
      None
    else
      var n := |s| - 1;
      var last :- HexDigit(s[n]);
      if n == 0 then Some(last)
      else
        var front :- ParseHex(s[..n]);
        Some(16 * front + last)
  }

  const MAX_INT64 := 0x7fff_ffff_ffff_ffff

  /** strconv.ParseInt in base 16 with 64 bits: a sign is allowed. */
  function ParseInt16(s: Bytes): (r: Option<int>)
    ensures r.Some? ==> -MAX_INT64 - 1 <= r.value <= MAX_INT64
  {
    var signed := s != [] && (s[0] == 43 || s[0] == 45);
    var magnitude := ParseHex(if signed then s[1..] else s);
    if magnitude.None? then None else
    var n: int := if signed && s[0] == 45 then 0 - magnitude.value else magnitude.value;
    if -MAX_INT64 - 1 <= n <= MAX_INT64 then Some(n) else None
  }

  function ParseChunkSize(line: Bytes): Option<int> {
    ParseInt16(BeforeSemicolon(TrimSpace(line)))
  }

  // ---------------------------------------------------------------- the relay on values

  datatype RelayError = ReadFailed(error: ReadError) | BadSize | UnexpectedEof | WriteFailed

  /** What has been written, what is left to read, and how it ended. */
  datatype Relayed = Relayed(written: Bytes, rest: Bytes, err: Option<RelayError>)

  function After(before: Bytes, r: Relayed): Relayed {
    r.(written := before + r.written)
  }

  /** Copying `n` bytes; nothing, and no error, when `n` is negative. */
  function Copied(s: Bytes, n: int, end: ReadError): Relayed {
    if n <= 0 then Relayed([], s, None)
    else if n <= |s| then Relayed(s[..n], s[n..], None)
    else Relayed(s, [], Some(ReadFailed(end)))
  }

  /** A body of known length that ends early is an error of its own. */
  function CopiedFixed(s: Bytes, n: int, end: ReadError): Relayed {
    var r := Copied(s, n, end);
    if r.err == Some(ReadFailed(Eof)) then r.(err := Some(UnexpectedEof)) else r
  }

  /** Lines up to and including the first empty one. */
  function Trailers(s: Bytes, end: ReadError): Relayed
    decreases |s|
  {
    match Line(s)
    case None => Relayed([], [], Some(ReadFailed(end)))
    case Some(line) =>
      if line == CRLF then Relayed(line, s[|line|..], None)
      else After(line, Trailers(s[|line|..], end))
  }

  /** The data of a chunk and the two bytes after it, whatever they are. */
  function OneChunk(s: Bytes, size: int, end: ReadError): (r: Relayed)
    ensures |r.rest| <= |s|
  {
    var body := CopiedFixed(s, size, end);
    if body.err.Some? then body
    else
      var gap := Copied(body.rest, 2, end);
      After(body.written, gap)
  }

  function Relay(s: Bytes, end: ReadError): Relayed
    decreases |s|
  {
    match Line(s)
    case None => Relayed([], [], Some(ReadFailed(end)))
    case Some(line) =>
      var rest := s[|line|..];
      var size := ParseChunkSize(line);
      if size.None? then Relayed(line, rest, Some(BadSize))
      else if size.value == 0 then After(line, Trailers(rest, end))
      else
        var chunk := OneChunk(rest, size.value, end);
        After(line, if chunk.err.Some? then chunk else After(chunk.written, Relay(chunk.rest, end)))
  }

  // ---------------------------------------------------------------- nothing is made up

  /** On success exactly what was read has been written; otherwise a prefix of it. */
  ghost predicate Honest(s: Bytes, r: Relayed) {
    && |r.rest| <= |s| && r.rest == s[|s| - |r.rest|..]
    && r.written <= s[..|s| - |r.rest|]
    && (r.err.None? ==> r.written == s[..|s| - |r.rest|])
  }

  lemma HonestAfter(s: Bytes, n: nat, r: Relayed)
    requires n <= |s| && Honest(s[n..], r)
    ensures Honest(s, After(s[..n], r))
  {
    var t := s[n..];
    assert s == s[..n] + t;
    assert t[|t| - |r.rest|..] == s[|s| - |r.rest|..];
    assert s[..|s| - |r.rest|] == s[..n] + t[..|t| - |r.rest|];
  }

  lemma {:induction false} TrailersHonest(s: Bytes, end: ReadError)
    ensures Honest(s, Trailers(s, end))
    decreases |s|
  {
    var line := Line(s);
    if line.Some? && line.value != CRLF {
      TrailersHonest(s[|line.value|..], end);
      HonestAfter(s, |line.value|, Trailers(s[|line.value|..], end));
    }
  }

  lemma OneChunkHonest(s: Bytes, size: int, end: ReadError)
    ensures Honest(s, OneChunk(s, size, end))
  {
    var body := CopiedFixed(s, size, end);
    if body.err.None? {
      var n := |body.written|;
      assert s[..n] == body.written && s[n..] == body.rest;
      HonestAfter(s, n, Copied(body.rest, 2, end));
    }
  }

  /** Whatever the input, the relay writes a prefix of what it consumed, and all of it on success. */
  lemma {:induction false} RelayHonest(s: Bytes, end: ReadError)
    ensures Honest(s, Relay(s, end))
    decreases |s|
  {
    var found := Line(s);
    if found.Some? {
      var line, rest := found.value, s[|found.value|..];
      var size := ParseChunkSize(line);
      assert s[..|line|] == line;
      if size.Some? && size.value == 0 {
        TrailersHonest(rest, end);
        HonestAfter(s, |line|, Trailers(rest, end));
      } else if size.Some? {
        var chunk := OneChunk(rest, size.value, end);
        OneChunkHonest(rest, size.value, end);
        if chunk.err.None? {
          assert rest[..|chunk.written|] == chunk.written && rest[|chunk.written|..] == chunk.rest;
          RelayHonest(chunk.rest, end);
          HonestAfter(rest, |chunk.written|, Relay(chunk.rest, end));
          HonestAfter(s, |line|, After(chunk.written, Relay(chunk.rest, end)));
        } else {
          HonestAfter(s, |line|, chunk);
        }
      }
    }
  }

  // ---------------------------------------------------------------- encoded bodies

  /** A chunk: its size in hexadecimal, its extensions from the semicolon on, and its data. */
  datatype Chunk = Chunk(size: Bytes, extension: Bytes, data: Bytes)

  /** Nothing, or a semicolon and whatever else is on the line. */
  predicate OpenExtension(extension: Bytes) {
    extension == [] || (extension[0] == 59 && 10 !in extension)
  }

  /** A chunk of a size that fits 64 bits; what its extensions say is left open. */
  predicate Framed(c: Chunk) {
    c.data != [] && ParseHex(c.size) == Some(|c.data|) && |c.data| <= MAX_INT64 && OpenExtension(c.extension)
  }

  function SizeLine(size: Bytes, extension: Bytes): Bytes {
    size + extension + [13, 10]
  }

  function EncodeChunk(c: Chunk): Bytes {
    SizeLine(c.size, c.extension) + c.data + [13, 10]
  }

  /** Trailer fields are nonempty lines. */
  function EncodeTrailers(trailers: seq<Bytes>): Bytes {
    if trailers == [] then [13, 10] else trailers[0] + [13, 10] + EncodeTrailers(trailers[1..])
  }

  function EncodeBody(chunks: seq<Chunk>, size: Bytes, extension: Bytes, trailers: seq<Bytes>): Bytes {
    if chunks == [] then SizeLine(size, extension) + EncodeTrailers(trailers)
    else EncodeChunk(chunks[0]) + EncodeBody(chunks[1..], size, extension, trailers)
  }

  lemma {:induction false} HexSolid(s: Bytes)
    requires ParseHex(s).Some?
    ensures s != [] && forall b :: b in s ==> HexDigit(b).Some? && Solid(b) && b != SEMICOLON && b != 43 && b != 45
    decreases |s|
  {
    var n := |s| - 1;
    if n > 0 {
      HexSolid(s[..n]);
    }
    assert forall b :: b in s ==> b in s[..n] || b == s[n];
  }

  lemma {:induction false} BeforeFirst(a: Bytes, b: Bytes)
    requires SEMICOLON !in a && (b == [] || b[0] == SEMICOLON)
    ensures BeforeSemicolon(a + b) == a
    decreases |a|
  {
    if a == [] {
      assert a + b == b;
    } else {
      assert a[0] in a && (a + b)[1..] == a[1..] + b && forall x :: x in a[1..] ==> x in a;
      BeforeFirst(a[1..], b);
      assert [a[0]] + a[1..] == a;
    }
  }

  lemma TrimCrlf()
    ensures TrimRight(CRLF) == []
  {
    assert CRLF[..1] == [13] && CRLF[..1][..0] == [];
    assert TrimRight([13]) == [];
  }

  /** The size of a line is read whatever follows a semicolon, unless it is too large. */
  lemma SizeLineParses(size: Bytes, n: nat, extension: Bytes)
    requires ParseHex(size) == Some(n) && OpenExtension(extension)
    ensures ParseChunkSize(SizeLine(size, extension)) == if n <= MAX_INT64 then Some(n) else None
  {
    var line := SizeLine(size, extension);
    HexSolid(size);
    assert line[0] == size[0] && size[0] in size && size[|size| - 1] in size;
    assert SpaceAtStart(line) == 0;
    assert line == size + (extension + CRLF);
    TrimRightStops(size, extension + CRLF);
    ExtensionTrims(extension);
    BeforeFirst(size, TrimRight(extension + CRLF));
  }

  /** What is left of an extension and the end of its line still starts with the semicolon. */
  lemma ExtensionTrims(extension: Bytes)
    requires OpenExtension(extension)
    ensures var rest := TrimRight(extension + CRLF); rest == [] || rest[0] == SEMICOLON
  {
    if extension == [] {
      assert extension + CRLF == CRLF;
      TrimCrlf();
    } else {
      assert extension + CRLF == [SEMICOLON] + (extension[1..] + CRLF);
      TrimRightStops([SEMICOLON], extension[1..] + CRLF);
    }
  }

  lemma SizeLineIsLine(size: Bytes, extension: Bytes, rest: Bytes)
    requires ParseHex(size).Some? && LF !in extension
    ensures Line(SizeLine(size, extension) + rest) == Some(SizeLine(size, extension))
  {
    HexSolid(size);
    var text := size + extension + [13];
    assert SizeLine(size, extension) == text + [LF];
    assert LF !in text;
    LineOf(text, rest);
    assert text + [LF] + rest == SizeLine(size, extension) + rest;
  }

  lemma {:induction false} TrailersRelayed(trailers: seq<Bytes>, following: Bytes, end: ReadError)
    requires forall t :: t in trailers ==> t != [] && LF !in t
    ensures Trailers(EncodeTrailers(trailers) + following, end) == Relayed(EncodeTrailers(trailers), following, None)
    decreases |trailers|
  {
    if trailers == [] {
      LineOf([13], following);
      assert [13] + [LF] + following == CRLF + following;
      assert (CRLF + following)[2..] == following;
    } else {
      var t, more := trailers[0], EncodeTrailers(trailers[1..]) + following;
      assert t in trailers && forall u :: u in trailers[1..] ==> u in trailers;
      var s := EncodeTrailers(trailers) + following;
      assert s == (t + [13]) + [LF] + more;
      LineOf(t + [13], more);
      assert (t + [13]) + [LF] == t + CRLF;
      assert s[|t + CRLF|..] == more;
      TrailersRelayed(trailers[1..], following, end);
    }
  }

  lemma OneChunkOf(data: Bytes, more: Bytes, end: ReadError)
    requires data != []
    ensures OneChunk(data + CRLF + more, |data|, end) == Relayed(data + CRLF, more, None)
  {
    var s := data + CRLF + more;
    assert s[..|data|] == data && s[|data|..] == CRLF + more;
    assert (CRLF + more)[..2] == CRLF && (CRLF + more)[2..] == more;
  }

  lemma AfterTwice(a: Bytes, b: Bytes, r: Relayed)
    ensures After(a, After(b, r)) == After(a + b, r)
  {
    assert a + (b + r.written) == (a + b) + r.written;
  }

  lemma ChunkBytes(c: Chunk, more: Bytes)
    ensures EncodeChunk(c) == SizeLine(c.size, c.extension) + (c.data + CRLF)
    ensures EncodeChunk(c) + more == SizeLine(c.size, c.extension) + (c.data + CRLF + more)
  {
  }

  lemma ChunkRelayed(c: Chunk, more: Bytes, end: ReadError)
    requires Framed(c)
    ensures Relay(EncodeChunk(c) + more, end) == After(EncodeChunk(c), Relay(more, end))
  {
    var line, rest := SizeLine(c.size, c.extension), c.data + CRLF + more;
    SizeLineIsLine(c.size, c.extension, rest);
    SizeLineParses(c.size, |c.data|, c.extension);
    OneChunkOf(c.data, more, end);
    ChunkBytes(c, more);
    RelayOne(line, rest, |c.data|, c.data + CRLF, more, end);
  }

  lemma RelayOne(line: Bytes, rest: Bytes, size: int, data: Bytes, more: Bytes, end: ReadError)
    requires Line(line + rest) == Some(line) && ParseChunkSize(line) == Some(size) && size != 0
    requires OneChunk(rest, size, end) == Relayed(data, more, None)
    ensures Relay(line + rest, end) == After(line + data, Relay(more, end))
  {
    RelayLine(line, rest, size, end);
    AfterTwice(line, data, Relay(more, end));
  }

  /** One round of the relay, from a size line that is not the last. */
  lemma RelayLine(line: Bytes, rest: Bytes, size: int, end: ReadError)
    requires Line(line + rest) == Some(line) && ParseChunkSize(line) == Some(size) && size != 0
    requires OneChunk(rest, size, end).err.None?
    ensures var chunk := OneChunk(rest, size, end);
            Relay(line + rest, end) == After(line, After(chunk.written, Relay(chunk.rest, end)))
  {
    assert (line + rest)[|line|..] == rest;
  }

  /**
   The relay writes exactly an encoded body and leaves exactly the bytes that follow it, whatever its
   extensions and its trailer lines hold.
   */
  lemma {:induction false} BodyRelayed(chunks: seq<Chunk>, size: Bytes, extension: Bytes, trailers: seq<Bytes>, following: Bytes, end: ReadError)
    requires forall c :: c in chunks ==> Framed(c)
    requires ParseHex(size) == Some(0) && OpenExtension(extension)
    requires forall t :: t in trailers ==> t != [] && LF !in t
    ensures Relay(EncodeBody(chunks, size, extension, trailers) + following, end) ==
            Relayed(EncodeBody(chunks, size, extension, trailers), following, None)
    decreases |chunks|
  {
    var body := EncodeBody(chunks, size, extension, trailers);
    if chunks == [] {
      var line, rest := SizeLine(size, extension), EncodeTrailers(trailers) + following;
      assert body + following == line + rest;
      SizeLineIsLine(size, extension, rest);
      SizeLineParses(size, 0, extension);
      assert (line + rest)[|line|..] == rest;
      TrailersRelayed(trailers, following, end);
    } else {
      var more := EncodeBody(chunks[1..], size, extension, trailers);
      assert chunks[0] in chunks && forall c :: c in chunks[1..] ==> c in chunks;
      assert body + following == EncodeChunk(chunks[0]) + (more + following);
      ChunkRelayed(chunks[0], more + following, end);
      BodyRelayed(chunks[1..], size, extension, trailers, following, end);
    }
  }

  /** Every length up to the limit can be written as a chunk size. */
  function Hex(n: nat): Bytes {
    if n < 16 then [HexOf(n)] else Hex(n / 16) + [HexOf(n % 16)]
  }

  function HexOf(d: nat): byte
    requires d < 16
  {
    if d < 10 then (48 + d) as byte else (87 + d) as byte
  }

  lemma {:induction false} HexRoundTrip(n: nat)
    ensures ParseHex(Hex(n)) == Some(n)
  {
    if n >= 16 {
      HexRoundTrip(n / 16);
      assert Hex(n)[..|Hex(n)| - 1] == Hex(n / 16);
    }
  }

  // What a string of digits stands for.

  /** A character and the number it is as a digit. */
  predicate DigitIs(b: byte, d: nat) {
    d < 16 && (b as char == "0123456789abcdef"[d] || b as char == "0123456789ABCDEF"[d])
  }

  function Power16(k: nat): nat {
    if k == 0 then 1 else 16 * Power16(k - 1)
  }

  /** The sum of the digits, each times a power of 16 by its place. */
  function Positional(ds: seq<nat>): nat {
    if ds == [] then 0 else ds[0] * Power16(|ds| - 1) + Positional(ds[1..])
  }

  lemma {:induction false} PositionalPush(ds: seq<nat>, d: nat)
    ensures Positional(ds + [d]) == 16 * Positional(ds) + d
    decreases |ds|
  {
    if ds == [] {
      assert ([] + [d])[1..] == [];
    } else {
      assert (ds + [d])[1..] == ds[1..] + [d];
      PositionalPush(ds[1..], d);
      TimesSixteen(ds[0], Power16(|ds| - 1));
    }
  }

  lemma TimesSixteen(a: nat, p: nat)
    ensures a * (16 * p) == 16 * (a * p)
  {
  }

  lemma HexDigitIs(b: byte, d: nat)
    ensures HexDigit(b) == Some(d) <==> DigitIs(b, d)
  {
    if d < 10 {
      assert "0123456789abcdef"[d] == (48 + d) as char && "0123456789ABCDEF"[d] == (48 + d) as char;
    } else if d < 16 {
      assert "0123456789abcdef"[d] == (87 + d) as char && "0123456789ABCDEF"[d] == (55 + d) as char;
    }
  }

  predicate DigitsAre(s: Bytes, ds: seq<nat>) {
    s != [] && |ds| == |s| && forall i :: 0 <= i < |s| ==> DigitIs(s[i], ds[i])
  }

  lemma {:induction false} HexOfDigitsAre(s: Bytes, ds: seq<nat>)
    requires DigitsAre(s, ds)
    ensures ParseHex(s) == Some(Positional(ds))
    decreases |s|
  {
    var n := |s| - 1;
    HexDigitIs(s[n], ds[n]);
    assert ds == ds[..n] + [ds[n]];
    PositionalPush(ds[..n], ds[n]);
    if n > 0 {
      HexOfDigitsAre(s[..n], ds[..n]);
    }
  }

  lemma {:induction false} DigitsOfHex(s: Bytes) returns (ds: seq<nat>)
    requires ParseHex(s).Some?
    ensures DigitsAre(s, ds)
    decreases |s|
  {
    var n := |s| - 1;
    var d := HexDigit(s[n]).value;
    HexDigitIs(s[n], d);
    if n == 0 {
      ds := [d];
    } else {
      var front := DigitsOfHex(s[..n]);
      ds := front + [d];
    }
  }

  /** Digits are read as the number they stand for in base 16, and nothing else is read. */
  lemma HexExactly(s: Bytes, n: nat)
    ensures ParseHex(s) == Some(n) <==> exists ds :: DigitsAre(s, ds) && n == Positional(ds)
  {
    if ParseHex(s) == Some(n) {
      var ds := DigitsOfHex(s);
      HexOfDigitsAre(s, ds);
    }
    if ds :| DigitsAre(s, ds) && n == Positional(ds) {
      HexOfDigitsAre(s, ds);
    }
  }

  const MINUS_FIVE: Bytes := [45, 53]

  lemma MinusFiveParses()
    ensures ParseChunkSize(MINUS_FIVE + CRLF) == Some(-5)
  {
    var line := MINUS_FIVE + CRLF;
    assert SpaceAtStart(line) == 0;
    TrimRightStops(MINUS_FIVE, CRLF);
    TrimCrlf();
    BeforeFirst(MINUS_FIVE, []);
    assert MINUS_FIVE + [] == MINUS_FIVE && MINUS_FIVE[1..] == [53];
    assert ParseHex([53]) == Some(5);
  }

  /** Every negative size is taken: the chunk copies no data, and then two bytes of whatever follows. */
  lemma NegativeChunk(line: Bytes, rest: Bytes, n: int, end: ReadError)
    requires Line(line + rest) == Some(line) && ParseChunkSize(line) == Some(n) && n < 0
    ensures |rest| >= 2 ==> Relay(line + rest, end) == After(line, After(rest[..2], Relay(rest[2..], end)))
    ensures |rest| < 2 ==> Relay(line + rest, end) == Relayed(line + rest, [], Some(ReadFailed(end)))
  {
    assert (line + rest)[|line|..] == rest;
    assert [] + rest == rest;
    if |rest| >= 2 {
      assert [] + rest[..2] == rest[..2];
      RelayLine(line, rest, n, end);
    }
  }

  /** There are such lines. */
  lemma MinusFiveTaken(rest: Bytes)
    ensures Line(MINUS_FIVE + CRLF + rest) == Some(MINUS_FIVE + CRLF) && ParseChunkSize(MINUS_FIVE + CRLF) == Some(-5)
  {
    MinusFiveParses();
    LineOf(MINUS_FIVE + [13], rest);
    assert (MINUS_FIVE + [13]) + [LF] == MINUS_FIVE + CRLF;
  }

  // ---------------------------------------------------------------- the relay on streams

  /** What a copy consumed and wrote; with a writer that does not fail, what the value says. */
  ghost predicate Copies(before: Bytes, rest: Bytes, written: Bytes, written': Bytes, err: Option<RelayError>, r: Relayed) {
    && |rest| <= |before| && rest == before[|before| - |rest|..]
    && written <= written' && written' <= written + before[..|before| - |rest|]
    && (err != Some(WriteFailed) ==> r == Relayed(written'[|written|..], rest, err))
  }

  method CopyN(dst: Writer, src: Reader, n: int) returns (err: Option<RelayError>)
    requires src.Valid()
    modifies dst, src
    ensures src.Valid()
    ensures Copies(old(src.Rest()), src.Rest(), old(dst.written), dst.written, err, Copied(old(src.Rest()), n, src.end))
    ensures dst.room.None? ==> err != Some(WriteFailed)
  {
    if n <= 0 {
      return None;
    }
    var available := src.stream[src.consumed..];
    var k := if n <= |available| then n else |available|;
    var m, ok := dst.Write(available[..k]);
    if !ok {
      var taken :| m <= taken <= k;
      src.Skip(taken);
      return Some(WriteFailed);
    }
    src.Skip(k);
    err := if k < n then Some(ReadFailed(src.end)) else None;
  }

  method CopyFixedLength(dst: Writer, src: Reader, remaining: int) returns (err: Option<RelayError>)
    requires src.Valid()
    modifies dst, src
    ensures src.Valid()
    ensures Copies(old(src.Rest()), src.Rest(), old(dst.written), dst.written, err, CopiedFixed(old(src.Rest()), remaining, src.end))
    ensures dst.room.None? ==> err != Some(WriteFailed)
  {
    if remaining == 0 {
      return None;
    }
    err := CopyN(dst, src, remaining);
    if err == Some(ReadFailed(Eof)) {
      return Some(UnexpectedEof);
    }
  }

  /** Everything consumed so far has been written. */
  ghost predicate SoFar(before: Bytes, rest: Bytes, written: Bytes, written': Bytes) {
    && |rest| <= |before| && rest == before[|before| - |rest|..]
    && written' == written + before[..|before| - |rest|]
  }

  /** One stage after another: the second takes up where the first stopped. */
  lemma CopiesThen(b0: Bytes, b1: Bytes, b2: Bytes, w0: Bytes, w1: Bytes, w2: Bytes, err: Option<RelayError>, r: Relayed)
    requires SoFar(b0, b1, w0, w1) && Copies(b1, b2, w1, w2, err, r)
    ensures Copies(b0, b2, w0, w2, err, After(b0[..|b0| - |b1|], r))
  {
    var part := b0[..|b0| - |b1|];
    assert b0 == part + b1;
    assert b0[|b0| - |b2|..] == b1[|b1| - |b2|..];
    assert b0[..|b0| - |b2|] == part + b1[..|b1| - |b2|];
    assert w1 + b1[..|b1| - |b2|] == w0 + b0[..|b0| - |b2|];
    assert w2[|w0|..] == part + w2[|w1|..];
  }

  lemma SoFarThen(b0: Bytes, b1: Bytes, b2: Bytes, w0: Bytes, w1: Bytes, w2: Bytes)
    requires SoFar(b0, b1, w0, w1) && SoFar(b1, b2, w1, w2)
    ensures SoFar(b0, b2, w0, w2)
    ensures b0[..|b0| - |b2|] == b0[..|b0| - |b1|] + b1[..|b1| - |b2|]
  {
    assert b0 == b0[..|b0| - |b1|] + b1;
  }

  /** A stage that succeeds writes all it consumes. */
  lemma HonestSoFar(b: Bytes, b': Bytes, w: Bytes, w': Bytes, r: Relayed)
    requires Copies(b, b', w, w', None, r) && Honest(b, r)
    ensures SoFar(b, b', w, w') && r == Relayed(b[..|b| - |b'|], b', None)
  {
    assert w' == w + w'[|w|..];
  }

  /** A line read and passed on, or an error that says why not. */
  ghost predicate Passed(b: Bytes, b': Bytes, w: Bytes, w': Bytes, line: Bytes, err: Option<RelayError>, end: ReadError) {
    match Line(b)
    case None => err.Some? && Copies(b, b', w, w', err, Relayed([], [], Some(ReadFailed(end))))
    case Some(text) =>
      && line == text && b' == b[|text|..]
      && (err == None || err == Some(WriteFailed))
      && w <= w' && w' <= w + text
      && (err.None? ==> SoFar(b, b', w, w'))
  }

  method PassLine(dst: Writer, src: Reader) returns (line: Bytes, err: Option<RelayError>)
    requires src.Valid()
    modifies dst, src
    ensures src.Valid() && (dst.room.None? ==> err != Some(WriteFailed))
    ensures Passed(old(src.Rest()), src.Rest(), old(dst.written), dst.written, line, err, src.end)
  {
    ghost var s, w := src.Rest(), dst.written;
    var readErr;
    line, readErr := src.ReadString();
    if readErr.Some? {
      assert dst.written[|w|..] == [] && s[|s| - 0..] == [];
      return line, Some(ReadFailed(readErr.value));
    }
    var n, ok := dst.Write(line);
    assert s[..|s| - |src.Rest()|] == line;
    err := if ok then None else Some(WriteFailed);
  }

  lemma LineFailed(s: Bytes, line: Bytes, w: Bytes, w': Bytes, r: Relayed)
    requires line <= s && w <= w' && w' <= w + line
    ensures Copies(s, s[|line|..], w, w', Some(WriteFailed), r)
  {
    assert s[..|s| - |s[|line|..]|] == line;
  }

  /** One more trailer line, passed on. `f` is the rest of the work, as a value. */
  lemma TrailerStep(b0: Bytes, b1: Bytes, b2: Bytes, w0: Bytes, w1: Bytes, w2: Bytes, line: Bytes, end: ReadError, f: Bytes -> Relayed)
    requires forall s {:trigger Trailers(s, end)} :: f(s) == Trailers(s, end)
    requires SoFar(b0, b1, w0, w1) && SoFar(b1, b2, w1, w2)
    requires Line(b1) == Some(line) && b2 == b1[|line|..]
    requires f(b0) == After(b0[..|b0| - |b1|], f(b1))
    ensures SoFar(b0, b2, w0, w2)
    ensures line != CRLF ==> f(b0) == After(b0[..|b0| - |b2|], f(b2))
    ensures line == CRLF ==> Copies(b0, b2, w0, w2, None, f(b0))
  {
    assert f(b1) == Trailers(b1, end) && f(b2) == Trailers(b2, end);
    SoFarThen(b0, b1, b2, w0, w1, w2);
    assert b1[..|b1| - |b2|] == line;
    AfterTwice(b0[..|b0| - |b1|], line, f(b2));
    assert w2[|w0|..] == b0[..|b0| - |b2|];
  }

  /** A line that could not be passed on ends the whole. */
  lemma LineStops(b0: Bytes, b1: Bytes, b2: Bytes, w0: Bytes, w1: Bytes, w2: Bytes, line: Bytes, err: Option<RelayError>, r: Relayed, end: ReadError)
    requires SoFar(b0, b1, w0, w1) && err.Some?
    requires Passed(b1, b2, w1, w2, line, err, end)
    requires Line(b1).None? ==> r == Relayed([], [], Some(ReadFailed(end)))
    ensures Copies(b0, b2, w0, w2, err, After(b0[..|b0| - |b1|], r))
  {
    if Line(b1).Some? {
      LineFailed(b1, line, w1, w2, r);
    }
    CopiesThen(b0, b1, b2, w0, w1, w2, err, r);
  }

  /** Where a loop stands: all consumed so far is written, and `f` of the rest is what remains to be done. */
  ghost predicate Standing(b0: Bytes, rest: Bytes, w0: Bytes, written: Bytes, f: Bytes -> Relayed) {
    SoFar(b0, rest, w0, written) && f(b0) == After(b0[..|b0| - |rest|], f(rest))
  }

  lemma Start(b: Bytes, w: Bytes, f: Bytes -> Relayed)
    ensures Standing(b, b, w, w, f)
  {
    assert b[..0] == [] && After([], f(b)) == f(b) && w + [] == w;
  }

  /** One round of the trailer loop; `done` when the loop returns. */
  method RelayTrailer(dst: Writer, src: Reader, ghost b0: Bytes, ghost w0: Bytes, ghost f: Bytes -> Relayed)
    returns (done: bool, err: Option<RelayError>)
    requires src.Valid() && Standing(b0, src.Rest(), w0, dst.written, f)
    requires forall s {:trigger Trailers(s, src.end)} :: f(s) == Trailers(s, src.end)
    modifies dst, src
    ensures src.Valid() && (dst.room.None? ==> err != Some(WriteFailed))
    ensures done ==> Copies(b0, src.Rest(), w0, dst.written, err, f(b0))
    ensures !done ==> Standing(b0, src.Rest(), w0, dst.written, f) && |src.Rest()| < |old(src.Rest())|
  {
    ghost var b1, w1 := src.Rest(), dst.written;
    var trailerLine;
    trailerLine, err := PassLine(dst, src);
    if err.Some? {
      NoTrailers(b1, src.end, f);
      LineStops(b0, b1, src.Rest(), w0, w1, dst.written, trailerLine, err, f(b1), src.end);
      return true, err;
    }
    TrailerStep(b0, b1, src.Rest(), w0, w1, dst.written, trailerLine, src.end, f);
    done := trailerLine == CRLF;
  }

  method RelayTrailers(dst: Writer, src: Reader) returns (err: Option<RelayError>)
    requires src.Valid()
    modifies dst, src
    ensures src.Valid() && (dst.room.None? ==> err != Some(WriteFailed))
    ensures Copies(old(src.Rest()), src.Rest(), old(dst.written), dst.written, err, Trailers(old(src.Rest()), src.end))
  {
    ghost var b0, w0, f := src.Rest(), dst.written, (s: Bytes) => Trailers(s, src.end);
    Start(b0, w0, f);
    var done := false;
    err := None;
    while !done
      invariant src.Valid() && (dst.room.None? ==> !done || err != Some(WriteFailed))
      invariant done ==> Copies(b0, src.Rest(), w0, dst.written, err, f(b0))
      invariant !done ==> Standing(b0, src.Rest(), w0, dst.written, f)
      decreases !done, |src.Rest()|
    {
      done, err := RelayTrailer(dst, src, b0, w0, f);
    }
  }

  lemma NoTrailers(s: Bytes, end: ReadError, f: Bytes -> Relayed)
    requires forall x {:trigger Trailers(x, end)} :: f(x) == Trailers(x, end)
    ensures Line(s).None? ==> f(s) == Relayed([], [], Some(ReadFailed(end)))
  {
    assert f(s) == Trailers(s, end);
  }

  method RelayChunk(dst: Writer, src: Reader, chunkSize: int) returns (err: Option<RelayError>)
    requires src.Valid()
    modifies dst, src
    ensures src.Valid() && (dst.room.None? ==> err != Some(WriteFailed))
    ensures Copies(old(src.Rest()), src.Rest(), old(dst.written), dst.written, err, OneChunk(old(src.Rest()), chunkSize, src.end))
  {
    ghost var b0, w0 := src.Rest(), dst.written;
    err := CopyFixedLength(dst, src, chunkSize);
    if err.Some? {
      return;
    }
    ghost var b1, w1 := src.Rest(), dst.written;
    CopiedHonest(b0, chunkSize, src.end);
    HonestSoFar(b0, b1, w0, w1, CopiedFixed(b0, chunkSize, src.end));
    err := CopyN(dst, src, |CRLF|);
    CopiesThen(b0, b1, src.Rest(), w0, w1, dst.written, err, Copied(b1, 2, src.end));
  }

  lemma CopiedHonest(s: Bytes, n: int, end: ReadError)
    ensures Honest(s, CopiedFixed(s, n, end))
  {
  }

  /** What the relay makes of a size line and what follows it. */
  function FromSize(size: Option<int>, s: Bytes, end: ReadError): Relayed {
    if size.None? then Relayed([], s, Some(BadSize))
    else if size.value == 0 then Trailers(s, end)
    else
      var chunk := OneChunk(s, size.value, end);
      if chunk.err.Some? then chunk else After(chunk.written, Relay(chunk.rest, end))
  }

  lemma RelayFromSize(s: Bytes, line: Bytes, end: ReadError)
    requires Line(s) == Some(line)
    ensures Relay(s, end) == After(line, FromSize(ParseChunkSize(line), s[|line|..], end))
  {
    assert line + [] == line;
  }

  /** A size line, passed on. */
  lemma SizeStep(b0: Bytes, b1: Bytes, b2: Bytes, w0: Bytes, w1: Bytes, w2: Bytes, line: Bytes, end: ReadError, f: Bytes -> Relayed)
    requires forall s {:trigger Relay(s, end)} :: f(s) == Relay(s, end)
    requires SoFar(b0, b1, w0, w1) && SoFar(b1, b2, w1, w2)
    requires Line(b1) == Some(line) && b2 == b1[|line|..]
    requires f(b0) == After(b0[..|b0| - |b1|], f(b1))
    ensures SoFar(b0, b2, w0, w2)
    ensures f(b0) == After(b0[..|b0| - |b2|], FromSize(ParseChunkSize(line), b2, end))
  {
    RelayFromSize(b1, line, end);
    assert f(b1) == Relay(b1, end);
    SoFarThen(b0, b1, b2, w0, w1, w2);
    assert b1[..|b1| - |b2|] == line;
    AfterTwice(b0[..|b0| - |b1|], line, FromSize(ParseChunkSize(line), b2, end));
  }

  lemma BadSizeStops(b0: Bytes, b2: Bytes, w0: Bytes, w2: Bytes, all: Relayed, end: ReadError)
    requires SoFar(b0, b2, w0, w2) && all == After(b0[..|b0| - |b2|], FromSize(None, b2, end))
    ensures Copies(b0, b2, w0, w2, Some(BadSize), all)
  {
    assert w2[|w0|..] == b0[..|b0| - |b2|];
    assert b0[..|b0| - |b2|] + [] == b0[..|b0| - |b2|];
  }

  /** A chunk that went through. */
  lemma ChunkStep(b0: Bytes, b2: Bytes, b3: Bytes, w0: Bytes, w2: Bytes, w3: Bytes, size: int, end: ReadError, f: Bytes -> Relayed)
    requires forall s {:trigger Relay(s, end)} :: f(s) == Relay(s, end)
    requires size != 0 && SoFar(b0, b2, w0, w2) && Copies(b2, b3, w2, w3, None, OneChunk(b2, size, end))
    requires f(b0) == After(b0[..|b0| - |b2|], FromSize(Some(size), b2, end))
    ensures SoFar(b0, b3, w0, w3) && f(b0) == After(b0[..|b0| - |b3|], f(b3))
  {
    var chunk := OneChunk(b2, size, end);
    OneChunkHonest(b2, size, end);
    HonestSoFar(b2, b3, w2, w3, chunk);
    SoFarThen(b0, b2, b3, w0, w2, w3);
    assert f(b3) == Relay(b3, end);
    AfterTwice(b0[..|b0| - |b2|], chunk.written, f(b3));
  }

  /** A chunk that did not go through ends the whole. */
  lemma ChunkStops(b0: Bytes, b2: Bytes, b3: Bytes, w0: Bytes, w2: Bytes, w3: Bytes, size: int, err: Option<RelayError>, all: Relayed, end: ReadError)
    requires size != 0 && err.Some? && SoFar(b0, b2, w0, w2) && Copies(b2, b3, w2, w3, err, OneChunk(b2, size, end))
    requires all == After(b0[..|b0| - |b2|], FromSize(Some(size), b2, end))
    ensures Copies(b0, b3, w0, w3, err, all)
  {
    CopiesThen(b0, b2, b3, w0, w2, w3, err, OneChunk(b2, size, end));
  }

  lemma TrailersStop(b0: Bytes, b2: Bytes, b3: Bytes, w0: Bytes, w2: Bytes, w3: Bytes, err: Option<RelayError>,
                     end: ReadError, f: Bytes -> Relayed)
    requires Sized(b0, b2, w0, w2, Some(0), end, f) && Copies(b2, b3, w2, w3, err, Trailers(b2, end))
    ensures Copies(b0, b3, w0, w3, err, f(b0))
  {
    CopiesThen(b0, b2, b3, w0, w2, w3, err, Trailers(b2, end));
  }

  lemma NoSizeLine(s: Bytes, end: ReadError, f: Bytes -> Relayed)
    requires forall x {:trigger Relay(x, end)} :: f(x) == Relay(x, end)
    ensures Line(s).None? ==> f(s) == Relayed([], [], Some(ReadFailed(end)))
  {
    assert f(s) == Relay(s, end);
  }

  /** Where a round stands after its size line. */
  ghost predicate Sized(b0: Bytes, rest: Bytes, w0: Bytes, written: Bytes, size: Option<int>, end: ReadError, f: Bytes -> Relayed) {
    SoFar(b0, rest, w0, written) && f(b0) == After(b0[..|b0| - |rest|], FromSize(size, rest, end))
  }

  /** What reading the size line of a round comes to. */
  lemma SizeOutcome(b0: Bytes, b1: Bytes, b2: Bytes, w0: Bytes, w1: Bytes, w2: Bytes, line: Bytes, err: Option<RelayError>,
                    end: ReadError, f: Bytes -> Relayed)
    requires forall s {:trigger Relay(s, end)} :: f(s) == Relay(s, end)
    requires Standing(b0, b1, w0, w1, f) && Passed(b1, b2, w1, w2, line, err, end)
    ensures err.Some? ==> Copies(b0, b2, w0, w2, err, f(b0))
    ensures err.None? ==> Sized(b0, b2, w0, w2, ParseChunkSize(line), end, f) && |b2| < |b1|
  {
    if err.Some? {
      NoSizeLine(b1, end, f);
      LineStops(b0, b1, b2, w0, w1, w2, line, err, f(b1), end);
    } else {
      SizeStep(b0, b1, b2, w0, w1, w2, line, end, f);
    }
  }

  /** The part of a round that reads its size line. */
  method PassSize(dst: Writer, src: Reader, ghost b0: Bytes, ghost w0: Bytes, ghost f: Bytes -> Relayed)
    returns (line: Bytes, err: Option<RelayError>)
    requires src.Valid() && Standing(b0, src.Rest(), w0, dst.written, f)
    requires forall s {:trigger Relay(s, src.end)} :: f(s) == Relay(s, src.end)
    modifies dst, src
    ensures src.Valid() && (dst.room.None? ==> err != Some(WriteFailed))
    ensures err.Some? ==> Copies(b0, src.Rest(), w0, dst.written, err, f(b0))
    ensures err.None? ==> Sized(b0, src.Rest(), w0, dst.written, ParseChunkSize(line), src.end, f) && |src.Rest()| < |old(src.Rest())|
  {
    ghost var b1, w1 := src.Rest(), dst.written;
    line, err := PassLine(dst, src);
    SizeOutcome(b0, b1, src.Rest(), w0, w1, dst.written, line, err, src.end, f);
  }

  /** The part of the last round that follows its size line. */
  method RelayEnd(dst: Writer, src: Reader, ghost b0: Bytes, ghost w0: Bytes, ghost f: Bytes -> Relayed) returns (err: Option<RelayError>)
    requires src.Valid() && Sized(b0, src.Rest(), w0, dst.written, Some(0), src.end, f)
    modifies dst, src
    ensures src.Valid() && (dst.room.None? ==> err != Some(WriteFailed))
    ensures Copies(b0, src.Rest(), w0, dst.written, err, f(b0))
  {
    ghost var b2, w2 := src.Rest(), dst.written;
    err := RelayTrailers(dst, src);
    TrailersStop(b0, b2, src.Rest(), w0, w2, dst.written, err, src.end, f);
  }

  /** What relaying the data of a round comes to. */
  lemma ChunkOutcome(b0: Bytes, b2: Bytes, b3: Bytes, w0: Bytes, w2: Bytes, w3: Bytes, size: int, err: Option<RelayError>,
                     end: ReadError, f: Bytes -> Relayed)
    requires forall s {:trigger Relay(s, end)} :: f(s) == Relay(s, end)
    requires size != 0 && Sized(b0, b2, w0, w2, Some(size), end, f) && Copies(b2, b3, w2, w3, err, OneChunk(b2, size, end))
    ensures |b3| <= |b2|
    ensures err.Some? ==> Copies(b0, b3, w0, w3, err, f(b0))
    ensures err.None? ==> Standing(b0, b3, w0, w3, f)
  {
    if err.Some? {
      ChunkStops(b0, b2, b3, w0, w2, w3, size, err, f(b0), end);
    } else {
      ChunkStep(b0, b2, b3, w0, w2, w3, size, end, f);
    }
  }

  /** The part of any other round that follows its size line. */
  method RelayData(dst: Writer, src: Reader, chunkSize: int, ghost b0: Bytes, ghost w0: Bytes, ghost f: Bytes -> Relayed)
    returns (err: Option<RelayError>)
    requires src.Valid() && chunkSize != 0 && Sized(b0, src.Rest(), w0, dst.written, Some(chunkSize), src.end, f)
    requires forall s {:trigger Relay(s, src.end)} :: f(s) == Relay(s, src.end)
    modifies dst, src
    ensures src.Valid() && (dst.room.None? ==> err != Some(WriteFailed)) && |src.Rest()| <= |old(src.Rest())|
    ensures err.Some? ==> Copies(b0, src.Rest(), w0, dst.written, err, f(b0))
    ensures err.None? ==> Standing(b0, src.Rest(), w0, dst.written, f)
  {
    ghost var b2, w2 := src.Rest(), dst.written;
    err := RelayChunk(dst, src, chunkSize);
    ChunkOutcome(b0, b2, src.Rest(), w0, w2, dst.written, chunkSize, err, src.end, f);
  }

  /** One round of the relay loop; `done` when the loop returns. */
  method RelayRound(dst: Writer, src: Reader, ghost b0: Bytes, ghost w0: Bytes, ghost f: Bytes -> Relayed)
    returns (done: bool, err: Option<RelayError>)
    requires src.Valid() && Standing(b0, src.Rest(), w0, dst.written, f)
    requires forall s {:trigger Relay(s, src.end)} :: f(s) == Relay(s, src.end)
    modifies dst, src
    ensures src.Valid() && (dst.room.None? ==> err != Some(WriteFailed))
    ensures done ==> Copies(b0, src.Rest(), w0, dst.written, err, f(b0))
    ensures !done ==> Standing(b0, src.Rest(), w0, dst.written, f) && |src.Rest()| < |old(src.Rest())|
  {
    var line;
    line, err := PassSize(dst, src, b0, w0, f);
    if err.Some? {
      return true, err;
    }
    var chunkSize := ParseChunkSize(line);
    if chunkSize.None? {
      BadSizeStops(b0, src.Rest(), w0, dst.written, f(b0), src.end);
      return true, Some(BadSize);
    }
    if chunkSize.value == 0 {
      err := RelayEnd(dst, src, b0, w0, f);
      return true, err;
    }
    err := RelayData(dst, src, chunkSize.value, b0, w0, f);
    done := err.Some?;
  }

  /**
   The relay on streams does what the relay on values says; if the writer fails, what it took is still a
   prefix of what was consumed.
   */
  method ProxyChunkedBody(dst: Writer, src: Reader) returns (err: Option<RelayError>)
    requires src.Valid()
    modifies dst, src
    ensures src.Valid() && (dst.room.None? ==> err != Some(WriteFailed))
    ensures Copies(old(src.Rest()), src.Rest(), old(dst.written), dst.written, err, Relay(old(src.Rest()), src.end))
  {
    ghost var b0, w0, f := src.Rest(), dst.written, (s: Bytes) => Relay(s, src.end);
    Start(b0, w0, f);
    var done := false;
    err := None;
    while !done
      invariant src.Valid() && (dst.room.None? ==> !done || err != Some(WriteFailed))
      invariant done ==> Copies(b0, src.Rest(), w0, dst.written, err, f(b0))
      invariant !done ==> Standing(b0, src.Rest(), w0, dst.written, f)
      decreases !done, |src.Rest()|
    {
      done, err := RelayRound(dst, src, b0, w0, f);
    }
  }

  /** On success exactly what was consumed was written, and on any other end a prefix of it. */
  lemma RelayedHonestly(before: Bytes, rest: Bytes, written: Bytes, written': Bytes, err: Option<RelayError>, end: ReadError)
    requires Copies(before, rest, written, written', err, Relay(before, end))
    ensures written <= written' && written' <= written + before[..|before| - |rest|]
    ensures err.None? ==> written' == written + before[..|before| - |rest|]
  {
    RelayHonest(before, end);
    if err.None? {
      HonestSoFar(before, rest, written, written', Relay(before, end));
    }
  }
}
