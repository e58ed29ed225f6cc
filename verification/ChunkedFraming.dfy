/** Which bodies of section 7.1 of RFC 9112 the chunked relay takes, and which of what it takes are such bodies. */
module ChunkedFraming {
  import opened Optional
  import opened Sequences
  import opened Streams
  import opened ChunkGrammar
  import opened ChunkedBody

  // ---------------------------------------------------------------- bodies

  /** The parts of a body: its chunks, the size line of the last one, and the trailer fields. */
  datatype Body = Body(chunks: seq<Chunk>, size: Bytes, extension: Bytes, trailers: seq<Bytes>)

  ghost predicate WellFormedChunk(c: Chunk) {
    c.data != [] && ParseHex(c.size) == Some(|c.data|) && IsExtension(c.extension)
  }

  /** chunked-body, with the grammars of chunk extensions and field lines. */
  ghost predicate WellFormedBody(b: Body) {
    && (forall c :: c in b.chunks ==> WellFormedChunk(c))
    && ParseHex(b.size) == Some(0) && IsExtension(b.extension)
    && AllFields(b.trailers)
  }

  ghost predicate AllFields(trailers: seq<Bytes>) {
    forall t :: t in trailers ==> IsField(t)
  }

  function Encode(b: Body): Bytes {
    EncodeBody(b.chunks, b.size, b.extension, b.trailers)
  }

  /** White space before the first semicolon, which the grammar allows. */
  predicate Spaced(extension: Bytes) {
    extension != [] && extension[0] != 59
  }

  predicate ReadableChunk(c: Chunk) {
    !Spaced(c.extension) && |c.data| <= MAX_INT64
  }

  predicate Readable(b: Body) {
    (forall c :: c in b.chunks ==> ReadableChunk(c)) && !Spaced(b.extension)
  }

  // ---------------------------------------------------------------- size lines

  lemma OpenOf(extension: Bytes)
    requires IsExtension(extension)
    ensures LF !in extension && (!Spaced(extension) ==> OpenExtension(extension))
  {
    var before, more := ExtensionShape(extension);
  }

  lemma NoHexBlank(size: Bytes, before: Bytes)
    requires before != [] && All(before, Blank)
    ensures ParseHex(size + before) == None
  {
    var s := size + before;
    assert s[|s| - 1] == before[|before| - 1] && before[|before| - 1] in before;
  }

  lemma HexStart(size: Bytes, rest: Bytes)
    requires ParseHex(size).Some?
    ensures size != [] && HexDigit((size + rest)[0]).Some? && SEMICOLON !in size
  {
    HexSolid(size);
    assert (size + rest)[0] == size[0] && size[0] in size;
  }

  lemma StartsSolid(line: Bytes)
    requires line != [] && HexDigit(line[0]).Some?
    ensures TrimSpace(line) == TrimRight(line) && line[0] != 43 && line[0] != 45
  {
    assert SpaceAtStart(line) == 0;
  }

  /** White space between a size and the semicolon stays with the size, which then cannot be read. */
  lemma SpacedRefused(size: Bytes, before: Bytes, more: Bytes)
    requires ParseHex(size).Some? && before != [] && All(before, Blank)
    ensures ParseChunkSize(SizeLine(size, before + ([SEMICOLON] + more))) == None
  {
    var head, tail := size + before + [SEMICOLON], more + CRLF;
    var line := SizeLine(size, before + ([SEMICOLON] + more));
    assert line == head + tail;
    HexStart(size, before + ([SEMICOLON] + more) + CRLF);
    StartsSolid(line);
    TrimRightStops(head, tail);
    assert head + TrimRight(tail) == size + before + ([SEMICOLON] + TrimRight(tail));
    assert SEMICOLON !in before;
    BeforeFirst(size + before, [SEMICOLON] + TrimRight(tail));
    NoHexBlank(size, before);
    assert (size + before)[0] == size[0] == line[0];
  }

  /** A size line of section 7.1 is read as its size, unless white space comes before its semicolon or the size is too large. */
  lemma SizeLineExactly(size: Bytes, n: nat, extension: Bytes)
    requires ParseHex(size) == Some(n) && IsExtension(extension)
    ensures ParseChunkSize(SizeLine(size, extension)) == if Spaced(extension) || n > MAX_INT64 then None else Some(n)
  {
    OpenOf(extension);
    if Spaced(extension) {
      var before, more := ExtensionShape(extension);
      SpacedRefused(size, before, more);
    } else {
      SizeLineParses(size, n, extension);
    }
  }

  // ---------------------------------------------------------------- what is relayed

  lemma FramedOf(b: Body)
    requires WellFormedBody(b) && Readable(b)
    ensures forall c :: c in b.chunks ==> Framed(c)
    ensures OpenExtension(b.extension) && forall t :: t in b.trailers ==> t != [] && LF !in t
  {
    forall c | c in b.chunks ensures Framed(c) {
      OpenOf(c.extension);
    }
    OpenOf(b.extension);
    forall t | t in b.trailers ensures t != [] && LF !in t {
      FieldShape(t);
    }
  }

  /** A size line that cannot be read ends the relay. */
  lemma LineRefused(size: Bytes, n: nat, extension: Bytes, rest: Bytes, end: ReadError)
    requires ParseHex(size) == Some(n) && IsExtension(extension) && (Spaced(extension) || n > MAX_INT64)
    ensures Relay(SizeLine(size, extension) + rest, end).err == Some(BadSize)
  {
    OpenOf(extension);
    SizeLineIsLine(size, extension, rest);
    SizeLineExactly(size, n, extension);
  }

  function Tail(b: Body): Body
    requires b.chunks != []
  {
    b.(chunks := b.chunks[1..])
  }

  lemma TailFacts(b: Body)
    requires b.chunks != []
    ensures WellFormedBody(b) ==> WellFormedBody(Tail(b)) && WellFormedChunk(b.chunks[0])
    ensures Readable(b) <==> ReadableChunk(b.chunks[0]) && Readable(Tail(b))
  {
    assert forall c :: c in b.chunks <==> c == b.chunks[0] || c in b.chunks[1..];
  }

  lemma EncodedChunk(b: Body, following: Bytes)
    requires b.chunks != []
    ensures Encode(b) + following == EncodeChunk(b.chunks[0]) + (Encode(Tail(b)) + following)
  {
  }

  /** A body with a size line that cannot be read is refused there. */
  lemma {:induction false} BodyRefused(b: Body, following: Bytes, end: ReadError)
    requires WellFormedBody(b) && !Readable(b)
    ensures Relay(Encode(b) + following, end).err == Some(BadSize)
    decreases |b.chunks|
  {
    if b.chunks == [] {
      var rest := EncodeTrailers(b.trailers) + following;
      assert Encode(b) + following == SizeLine(b.size, b.extension) + rest;
      LineRefused(b.size, 0, b.extension, rest, end);
    } else {
      var c, more := b.chunks[0], Encode(Tail(b)) + following;
      TailFacts(b);
      EncodedChunk(b, following);
      if ReadableChunk(c) {
        OpenOf(c.extension);
        ChunkRelayed(c, more, end);
        BodyRefused(Tail(b), following, end);
      } else {
        ChunkBytes(c, more);
        LineRefused(c.size, |c.data|, c.extension, c.data + CRLF + more, end);
      }
    }
  }

  /**
   A body of section 7.1 is written exactly, and exactly what follows it is left, unless a size line has
   white space before its semicolon or a size beyond 64 bits; then it is refused.
   */
  lemma BodyRelayedExactly(b: Body, following: Bytes, end: ReadError)
    requires WellFormedBody(b)
    ensures var r := Relay(Encode(b) + following, end);
            && (r.err.None? <==> Readable(b))
            && (if Readable(b) then r == Relayed(Encode(b), following, None) else r.err == Some(BadSize))
  {
    if Readable(b) {
      FramedOf(b);
      BodyRelayed(b.chunks, b.size, b.extension, b.trailers, following, end);
    } else {
      BodyRefused(b, following, end);
    }
  }

  // ---------------------------------------------------------------- what to look at

  predicate HexByte(b: byte) { HexDigit(b).Some? }

  predicate EndsCrlf(line: Bytes) {
    |line| >= 2 && line[|line| - 2..] == CRLF
  }

  /** Digits, then chunk extensions, then CRLF: no sign, no white space around the size, no bare line feed. */
  predicate StrictLine(line: Bytes) {
    var k := Span(line, HexByte);
    EndsCrlf(line) && 0 < k <= |line| - 2 && ExtensionText(line[k..|line| - 2])
  }

  /** A field line and its end. */
  predicate StrictField(line: Bytes) {
    EndsCrlf(line) && FieldText(line[..|line| - 2])
  }

  predicate StrictTrailers(s: Bytes)
    decreases |s|
  {
    match Line(s)
    case None => false
    case Some(line) => line == CRLF || (StrictField(line) && StrictTrailers(s[|line|..]))
  }

  /** Every size line is strict, every chunk's data is followed by CRLF, and the trailer lines are field lines. */
  predicate Strict(s: Bytes)
    decreases |s|
  {
    match Line(s)
    case None => false
    case Some(line) =>
      var rest, size := s[|line|..], ParseChunkSize(line);
      && size.Some? && StrictLine(line)
      && if size.value == 0 then StrictTrailers(rest)
         else 0 < size.value && size.value + 2 <= |rest| && rest[size.value..size.value + 2] == CRLF && Strict(rest[size.value + 2..])
  }

  lemma {:induction false} HexOfDigits(s: Bytes)
    requires s != [] && All(s, HexByte)
    ensures ParseHex(s).Some?
    decreases |s|
  {
    var n := |s| - 1;
    assert s[n] in s;
    if n > 0 {
      assert forall b :: b in s[..n] ==> b in s;
      HexOfDigits(s[..n]);
    }
  }

  /** Where the digits of a size line end. */
  lemma DigitsOf(size: Bytes, extension: Bytes)
    requires ParseHex(size).Some? && (extension == [] || Blank(extension[0]) || extension[0] == SEMICOLON)
    ensures Span(SizeLine(size, extension), HexByte) == |size| && size != []
    ensures SizeLine(size, extension)[|size|..|SizeLine(size, extension)| - 2] == extension
  {
    HexSolid(size);
    var line := SizeLine(size, extension);
    assert line == size + (extension + CRLF);
    SpanOf(size, extension + CRLF, HexByte);
  }

  lemma EncodedStrict(size: Bytes, n: nat, extension: Bytes)
    requires ParseHex(size) == Some(n) && (IsExtension(extension) || OpenExtension(extension))
    ensures StrictLine(SizeLine(size, extension)) <==> IsExtension(extension)
  {
    var line := SizeLine(size, extension);
    if IsExtension(extension) {
      var before, more := ExtensionShape(extension);
      assert before != [] ==> before[0] in before;
    }
    DigitsOf(size, extension);
    assert line[|line| - 2..] == CRLF;
    ExtensionTextExactly(extension);
  }

  lemma LineEnd(s: Bytes)
    requires Line(s).Some?
    ensures var line := Line(s).value; line != [] && |line| <= |s| && s == line + s[|line|..]
  {
  }

  lemma LineParts(line: Bytes) returns (size: Bytes, extension: Bytes)
    requires StrictLine(line)
    ensures size != [] && All(size, HexByte) && ExtensionText(extension) && line == SizeLine(size, extension)
  {
    var k := Span(line, HexByte);
    size, extension := line[..k], line[k..|line| - 2];
    assert line == size + extension + line[|line| - 2..];
  }

  /** The parts of a strict line that is read as a size. */
  lemma StrictParts(line: Bytes, n: int) returns (size: Bytes, extension: Bytes)
    requires StrictLine(line) && ParseChunkSize(line) == Some(n)
    ensures 0 <= n <= MAX_INT64 && ParseHex(size) == Some(n) && IsExtension(extension) && !Spaced(extension)
    ensures line == SizeLine(size, extension)
  {
    size, extension := LineParts(line);
    HexOfDigits(size);
    ExtensionTextExactly(extension);
    SizeLineExactly(size, ParseHex(size).value, extension);
  }

  /** A line that is read as a size is a size line of section 7.1 exactly when it is strict. */
  lemma StrictLineExactly(line: Bytes, n: int)
    requires ParseChunkSize(line) == Some(n)
    ensures StrictLine(line) <==>
            n >= 0 && exists size, extension :: ParseHex(size) == Some(n) && IsExtension(extension) && line == SizeLine(size, extension)
  {
    if StrictLine(line) {
      var size, extension := StrictParts(line, n);
    }
    if n >= 0 {
      forall size, extension | ParseHex(size) == Some(n) && IsExtension(extension) && line == SizeLine(size, extension)
        ensures StrictLine(line)
      {
        EncodedStrict(size, n, extension);
      }
    }
  }

  // ---------------------------------------------------------------- whole bodies

  lemma TrailerLine(line: Bytes) returns (t: Bytes)
    requires StrictField(line)
    ensures IsField(t) && line == t + CRLF
  {
    t := line[..|line| - 2];
    FieldTextExactly(t);
    assert line == t + line[|line| - 2..];
  }

  lemma FieldsAdded(t: Bytes, more: seq<Bytes>)
    ensures AllFields([t] + more) <==> IsField(t) && AllFields(more)
  {
    assert forall x :: x in [t] + more <==> x == t || x in more;
  }

  lemma TrailersFirst(s: Bytes, line: Bytes)
    requires StrictTrailers(s) && Line(s) == Some(line) && line != CRLF
    ensures StrictField(line) && StrictTrailers(s[|line|..])
  {
  }

  /** The first line of strict trailers: the empty one, or a field line and more of them. */
  lemma FirstTrailer(s: Bytes) returns (line: Bytes, rest: Bytes)
    requires StrictTrailers(s)
    ensures line != [] && s == line + rest && (line == CRLF || (StrictField(line) && StrictTrailers(rest)))
  {
    line := Line(s).value;
    rest := s[|line|..];
    LineEnd(s);
    if line != CRLF {
      TrailersFirst(s, line);
    }
  }

  lemma {:induction false} TrailersOf(s: Bytes) returns (trailers: seq<Bytes>, following: Bytes)
    requires StrictTrailers(s)
    ensures AllFields(trailers) && s == EncodeTrailers(trailers) + following
    decreases |s|
  {
    var line, rest := FirstTrailer(s);
    if line == CRLF {
      trailers, following := [], rest;
    } else {
      var more;
      more, following := TrailersOf(rest);
      trailers := MoreTrailers(line, more, following);
    }
  }

  lemma MoreTrailers(line: Bytes, more: seq<Bytes>, following: Bytes) returns (trailers: seq<Bytes>)
    requires StrictField(line) && AllFields(more)
    ensures AllFields(trailers) && line + (EncodeTrailers(more) + following) == EncodeTrailers(trailers) + following
  {
    var t := TrailerLine(line);
    trailers := [t] + more;
    OneTrailer(t, more, following);
    FieldsAdded(t, more);
  }

  lemma OneTrailer(t: Bytes, more: seq<Bytes>, following: Bytes)
    ensures EncodeTrailers([t] + more) + following == t + CRLF + (EncodeTrailers(more) + following)
  {
    assert ([t] + more)[1..] == more;
    Assoc(t + CRLF, EncodeTrailers(more), following);
  }

  lemma {:induction false} BodyOf(s: Bytes) returns (b: Body, following: Bytes)
    requires Strict(s)
    ensures WellFormedBody(b) && Readable(b) && s == Encode(b) + following
    decreases |s|
  {
    var line := Line(s).value;
    var rest, n := s[|line|..], ParseChunkSize(line).value;
    LineEnd(s);
    var size, extension := StrictParts(line, n);
    if n == 0 {
      var trailers;
      trailers, following := TrailersOf(rest);
      b := Body([], size, extension, trailers);
      Assoc(line, EncodeTrailers(trailers), following);
    } else {
      var more;
      more, following := BodyOf(rest[n + 2..]);
      var c := Chunk(size, extension, rest[..n]);
      b := more.(chunks := [c] + more.chunks);
      assert Tail(b) == more;
      TailFacts(b);
      EncodedChunk(b, following);
      DataAndEnd(line, rest, n);
      Added(b, c, more);
    }
  }

  lemma Added(b: Body, c: Chunk, more: Body)
    requires b == more.(chunks := [c] + more.chunks) && WellFormedChunk(c) && WellFormedBody(more)
    ensures WellFormedBody(b)
  {
  }

  lemma DataAndEnd(line: Bytes, rest: Bytes, n: nat)
    requires n + 2 <= |rest| && rest[n..n + 2] == CRLF
    ensures line + rest == line + rest[..n] + CRLF + rest[n + 2..]
  {
    assert rest == rest[..n] + CRLF + rest[n + 2..];
  }

  lemma TrailerStrict(t: Bytes, more: Bytes)
    requires t != [] && LF !in t
    ensures StrictTrailers(t + CRLF + more) <==> IsField(t) && StrictTrailers(more)
  {
    var s := t + CRLF + more;
    assert s == (t + [13]) + [LF] + more && (t + [13]) + [LF] == t + CRLF;
    LineOf(t + [13], more);
    assert (t + CRLF)[..|t|] == t && (t + CRLF)[|t|..] == CRLF && s[|t + CRLF|..] == more;
    FieldTextExactly(t);
  }

  /** Trailer lines whatever they hold are strict exactly when each is a field line. */
  lemma {:induction false} TrailersStrict(trailers: seq<Bytes>, following: Bytes)
    requires forall t :: t in trailers ==> t != [] && LF !in t
    ensures StrictTrailers(EncodeTrailers(trailers) + following) <==> AllFields(trailers)
    decreases |trailers|
  {
    var s := EncodeTrailers(trailers) + following;
    if trailers == [] {
      LineOf([13], following);
      assert s == [13] + [LF] + following && [13] + [LF] == CRLF;
    } else {
      var t, more := trailers[0], trailers[1..];
      assert trailers == [t] + more && t in trailers && forall x :: x in more ==> x in trailers;
      TrailersStrict(more, following);
      OneTrailer(t, more, following);
      FieldsAdded(t, more);
      TrailerStrict(t, EncodeTrailers(more) + following);
    }
  }

  /** The bytes the relay takes one way or the other. */
  predicate FramedBody(b: Body) {
    && (forall c :: c in b.chunks ==> Framed(c))
    && ParseHex(b.size) == Some(0) && OpenExtension(b.extension)
    && (forall t :: t in b.trailers ==> t != [] && LF !in t)
  }

  lemma LastStrict(b: Body, following: Bytes)
    requires FramedBody(b) && b.chunks == []
    ensures Strict(Encode(b) + following) <==> WellFormedBody(b)
  {
    var line, rest := SizeLine(b.size, b.extension), EncodeTrailers(b.trailers) + following;
    assert Encode(b) + following == line + rest && (line + rest)[|line|..] == rest;
    SizeLineIsLine(b.size, b.extension, rest);
    SizeLineParses(b.size, 0, b.extension);
    EncodedStrict(b.size, 0, b.extension);
    TrailersStrict(b.trailers, following);
  }

  lemma ChunkStrict(c: Chunk, more: Bytes)
    requires Framed(c)
    ensures Strict(EncodeChunk(c) + more) <==> IsExtension(c.extension) && Strict(more)
  {
    var line, rest := SizeLine(c.size, c.extension), c.data + CRLF + more;
    ChunkBytes(c, more);
    SizeLineIsLine(c.size, c.extension, rest);
    SizeLineParses(c.size, |c.data|, c.extension);
    EncodedStrict(c.size, |c.data|, c.extension);
    assert (line + rest)[|line|..] == rest;
    assert rest[|c.data|..|c.data| + 2] == CRLF && rest[|c.data| + 2..] == more;
  }

  lemma GrammarTail(b: Body)
    requires FramedBody(b) && b.chunks != []
    ensures WellFormedBody(b) <==> IsExtension(b.chunks[0].extension) && WellFormedBody(Tail(b))
    ensures FramedBody(Tail(b)) && Framed(b.chunks[0])
  {
    var c := b.chunks[0];
    assert forall x :: x in b.chunks <==> x == c || x in b.chunks[1..];
    assert c in b.chunks;
    if IsExtension(c.extension) && WellFormedBody(Tail(b)) {
      assert forall x :: x in b.chunks ==> WellFormedChunk(x);
    }
  }

  /** Framed bytes are strict exactly when the grammar of section 7.1 has all their extensions and trailers. */
  lemma {:induction false} FramedStrict(b: Body, following: Bytes)
    requires FramedBody(b)
    ensures Strict(Encode(b) + following) <==> WellFormedBody(b)
    decreases |b.chunks|
  {
    if b.chunks == [] {
      LastStrict(b, following);
    } else {
      GrammarTail(b);
      FramedStrict(Tail(b), following);
      EncodedChunk(b, following);
      ChunkStrict(b.chunks[0], Encode(Tail(b)) + following);
    }
  }

  lemma ReadableStrict(b: Body, following: Bytes)
    requires WellFormedBody(b) && Readable(b)
    ensures Strict(Encode(b) + following)
  {
    FramedOf(b);
    FramedStrict(b, following);
  }

  /** Some bytes start with a body of section 7.1 whose sizes can be read exactly when they are strict. */
  lemma StrictExactly(s: Bytes)
    ensures Strict(s) <==> exists b, following :: WellFormedBody(b) && Readable(b) && s == Encode(b) + following
  {
    if Strict(s) {
      var b, following := BodyOf(s);
    }
    if b, following :| WellFormedBody(b) && Readable(b) && s == Encode(b) + following {
      ReadableStrict(b, following);
    }
  }

  lemma WrittenStrict(s: Bytes, end: ReadError, b: Body)
    requires Relay(s, end).err.None? && WellFormedBody(b) && Relay(s, end).written == Encode(b)
    ensures Strict(s)
  {
    var r := Relay(s, end);
    RelayHonest(s, end);
    assert s == r.written + r.rest;
    BodyRelayedExactly(b, r.rest, end);
    ReadableStrict(b, r.rest);
  }

  lemma StrictWritten(s: Bytes, end: ReadError) returns (b: Body)
    requires Strict(s)
    ensures WellFormedBody(b) && Relay(s, end).written == Encode(b) && Relay(s, end).err.None?
  {
    var following;
    b, following := BodyOf(s);
    BodyRelayedExactly(b, following, end);
  }

  /**
   A relay that succeeds has passed on a body of section 7.1 exactly when the bytes were strict: with a
   signed or padded size, a bare line feed, other bytes than CRLF after the data, or extensions or trailer
   lines that the grammar does not have, it has not.
   */
  lemma RelaysWellFormedExactly(s: Bytes, end: ReadError)
    requires Relay(s, end).err.None?
    ensures (exists b :: WellFormedBody(b) && Relay(s, end).written == Encode(b)) <==> Strict(s)
  {
    if b :| WellFormedBody(b) && Relay(s, end).written == Encode(b) {
      WrittenStrict(s, end, b);
    }
    if Strict(s) {
      var b := StrictWritten(s, end);
    }
  }

  /** Strict bytes are never refused. */
  lemma StrictRelayed(s: Bytes, end: ReadError)
    requires Strict(s)
    ensures Relay(s, end).err.None?
  {
    var b := StrictWritten(s, end);
  }

  /** Framed bytes are passed on whatever their extensions and trailers hold, a body of section 7.1 or not. */
  lemma FramedPassedOn(b: Body, following: Bytes, end: ReadError)
    requires FramedBody(b)
    ensures Relay(Encode(b) + following, end) == Relayed(Encode(b), following, None)
    ensures (exists b' :: WellFormedBody(b') && Encode(b) == Encode(b')) <==> WellFormedBody(b)
  {
    BodyRelayed(b.chunks, b.size, b.extension, b.trailers, following, end);
    RelaysWellFormedExactly(Encode(b) + following, end);
    FramedStrict(b, following);
  }
}
