/**
 The server name of a TLS ClientHello: the parser, the messages it reads (sections 4.1.2, 4.2 and 5.1
 of RFC 8446, section 3 of RFC 6066), and peeking at a stream.
 */
module ClientHello {
  import opened Optional
  import opened Streams

  const RECORD_TYPE_HANDSHAKE: byte := 22
  const HANDSHAKE_TYPE_CLIENT_HELLO: byte := 1
  const MAX_TLS_RECORD_LEN := 16384 + 2048
  const CLIENT_HELLO_PEEK_BUFFER_SIZE := 5 + MAX_TLS_RECORD_LEN

  /** The name found, empty when there is none, or the message that the bytes end too early. */
  datatype Parsed = Name(name: Bytes) | Truncated

  function U16(b: Bytes, i: nat): (n: nat)
    requires i + 2 <= |b|
    ensures n < 0x1_0000
  {
    b[i] as nat * 256 + b[i + 1] as nat
  }

  function U24(b: Bytes, i: nat): (n: nat)
    requires i + 3 <= |b|
    ensures n < 0x100_0000
  {
    b[i] as nat * 65536 + b[i + 1] as nat * 256 + b[i + 2] as nat
  }

  // ---------------------------------------------------------------- the specification

  /** The entries of a server name list. */
  function ParseNames(names: Bytes): Parsed {
    if |names| < 3 then
      if |names| > 0 then Truncated else Name([])
    else
      var rest, len := names[3..], U16(names, 1);
      if len > |rest| then Truncated
      else if names[0] == 0 then Name(rest[..len])
      else ParseNames(rest[len..])
  }

  function ParseServerName(data: Bytes): Parsed {
    if |data| < 2 || |data| < 2 + U16(data, 0) then Truncated
    else ParseNames(data[2..2 + U16(data, 0)])
  }

  function ParseExtensions(extensions: Bytes): Parsed {
    if |extensions| < 4 then
      Name([])
    else
      var rest, len := extensions[4..], U16(extensions, 2);
      if len > |rest| then Truncated
      else if U16(extensions, 0) != 0 then ParseExtensions(rest[len..])
      else ParseServerName(rest[..len])
  }

  /** Past a vector with a length prefix of one or two bytes. */
  function Past(hello: Bytes, offset: nat, width: nat): (next: Option<nat>)
    requires width == 1 || width == 2
    ensures next.Some? ==> offset + width <= next.value <= |hello|
  {
    if offset + width > |hello| then None
    else
      var len := if width == 1 then hello[offset] as nat else U16(hello, offset);
      if offset + width + len > |hello| then None else Some(offset + width + len)
  }

  function ParseHello(hello: Bytes): Parsed {
    var sessionId := if |hello| < 34 then None else Past(hello, 34, 1);
    if sessionId.None? then Truncated else
    var cipherSuites := Past(hello, sessionId.value, 2);
    if cipherSuites.None? then Truncated else
    var compression := Past(hello, cipherSuites.value, 1);
    if compression.None? then Truncated
    else if compression.value == |hello| then Name([])
    else
      var end := Past(hello, compression.value, 2);
      if end.None? then Truncated else ParseExtensions(hello[compression.value + 2..end.value])
  }

  /** A handshake message; 1 is the type client_hello (section 4 of RFC 8446). */
  function ParseBody(body: Bytes): Parsed {
    if |body| < 4 || body[0] != 1 then Name([])
    else if |body| < 4 + U24(body, 1) then Truncated
    else ParseHello(body[4..4 + U24(body, 1)])
  }

  /** A record; 22 is the type handshake (section 5.1 of RFC 8446). */
  function ParseRecord(record: Bytes): Parsed {
    if |record| < 5 then Truncated
    else if record[0] != 22 then Name([])
    else if |record| < 5 + U16(record, 3) then Truncated
    else ParseBody(record[5..5 + U16(record, 3)])
  }

  // ---------------------------------------------------------------- the parser

  method ParseServerNameExtension(data: Bytes) returns (r: Parsed)
    ensures r == ParseServerName(data)
  {
    if |data| < 2 {
      return Truncated;
    }
    var listLen := U16(data, 0);
    if |data| < 2 + listLen {
      return Truncated;
    }
    var names := data[2..2 + listLen];
    while |names| >= 3
      invariant ParseNames(names) == ParseServerName(data)
      decreases |names|
    {
      var nameType := names[0];
      var nameLen := U16(names, 1);
      names := names[3..];
      if nameLen > |names| {
        return Truncated;
      }
      var serverName := names[..nameLen];
      names := names[nameLen..];
      if nameType == 0 {
        return Name(serverName);
      }
    }
    if |names| > 0 {
      return Truncated;
    }
    return Name([]);
  }

  method ParseClientHelloServerName(record: Bytes) returns (r: Parsed)
    ensures r == ParseRecord(record)
  {
    if |record| < 5 {
      return Truncated;
    }
    if record[0] != RECORD_TYPE_HANDSHAKE {
      return Name([]);
    }
    var recordLen := U16(record, 3);
    if |record| < 5 + recordLen {
      return Truncated;
    }
    var body := record[5..5 + recordLen];
    if |body| < 4 || body[0] != HANDSHAKE_TYPE_CLIENT_HELLO {
      return Name([]);
    }
    var helloLen := U24(body, 1);
    if |body| < 4 + helloLen {
      return Truncated;
    }
    r := ParseHelloFrom(body[4..4 + helloLen]);
  }

  method ParseHelloFrom(hello: Bytes) returns (r: Parsed)
    ensures r == ParseHello(hello)
  {
    if |hello| < 34 {
      return Truncated;
    }
    var offset := 34;
    if offset >= |hello| {
      return Truncated;
    }
    var sessionIDLen := hello[offset] as nat;
    offset := offset + 1;
    if offset + sessionIDLen > |hello| {
      return Truncated;
    }
    offset := offset + sessionIDLen;

    if offset + 2 > |hello| {
      return Truncated;
    }
    var cipherSuiteLen := U16(hello, offset);
    offset := offset + 2;
    if offset + cipherSuiteLen > |hello| {
      return Truncated;
    }
    offset := offset + cipherSuiteLen;

    if offset >= |hello| {
      return Truncated;
    }
    var compressionMethodsLen := hello[offset] as nat;
    offset := offset + 1;
    if offset + compressionMethodsLen > |hello| {
      return Truncated;
    }
    offset := offset + compressionMethodsLen;

    if offset == |hello| {
      return Name([]);
    }
    if offset + 2 > |hello| {
      return Truncated;
    }
    var extensionsLen := U16(hello, offset);
    offset := offset + 2;
    if offset + extensionsLen > |hello| {
      return Truncated;
    }
    r := ScanExtensions(hello[offset..offset + extensionsLen]);
  }

  method ScanExtensions(all: Bytes) returns (r: Parsed)
    ensures r == ParseExtensions(all)
  {
    var extensions := all;
    while |extensions| >= 4
      invariant ParseExtensions(extensions) == ParseExtensions(all)
      decreases |extensions|
    {
      var extensionType := U16(extensions, 0);
      var extensionLen := U16(extensions, 2);
      extensions := extensions[4..];
      if extensionLen > |extensions| {
        return Truncated;
      }
      var extensionData := extensions[..extensionLen];
      extensions := extensions[extensionLen..];
      if extensionType != 0 {
        continue;
      }
      r := ParseServerNameExtension(extensionData);
      return;
    }
    return Name([]);
  }

  // ---------------------------------------------------------------- messages

  datatype Extension = Extension(kind: nat, data: Bytes)

  datatype ServerName = ServerName(kind: byte, name: Bytes)

  /** `prefix` is the legacy version and the random, `extensions` is absent in messages that end before them. */
  datatype Hello = Hello(prefix: Bytes, sessionId: Bytes, cipherSuites: Bytes, compression: Bytes,
                         extensions: Option<seq<Extension>>)

  /** Numbers are written with the most significant byte first (section 3.3 of RFC 8446). */
  function Put16(n: nat): (b: Bytes)
    requires n < 0x1_0000
    ensures |b| == 2 && b[0] as nat * 0x100 + b[1] as nat == n
  {
    [(n / 256) as byte, (n % 256) as byte]
  }

  function Put24(n: nat): (b: Bytes)
    requires n < 0x100_0000
    ensures |b| == 3 && b[0] as nat * 0x1_0000 + b[1] as nat * 0x100 + b[2] as nat == n
  {
    [(n / 65536) as byte, (n / 256 % 256) as byte, (n % 256) as byte]
  }

  lemma Read16(n: nat, rest: Bytes)
    requires n < 0x1_0000
    ensures U16(Put16(n) + rest, 0) == n
  {
  }

  lemma Read24(n: nat, rest: Bytes)
    requires n < 0x100_0000
    ensures U24(Put24(n) + rest, 0) == n
  {
  }

  /** A vector with its length prefix. */
  function Vector(v: Bytes, width: nat): Bytes
    requires (width == 1 && |v| < 256) || (width == 2 && |v| < 0x1_0000)
  {
    (if width == 1 then [|v| as byte] else Put16(|v|)) + v
  }

  predicate FitsExtension(e: Extension) {
    e.kind < 0x1_0000 && |e.data| < 0x1_0000
  }

  function EncodeExtension(e: Extension): (b: Bytes)
    requires FitsExtension(e)
    ensures |b| == 4 + |e.data|
  {
    Put16(e.kind) + Put16(|e.data|) + e.data
  }

  function EncodeExtensions(es: seq<Extension>): Bytes
    requires forall e :: e in es ==> FitsExtension(e)
  {
    if es == [] then [] else EncodeExtension(es[0]) + EncodeExtensions(es[1..])
  }

  function EncodeNames(names: seq<ServerName>): Bytes
    requires forall n :: n in names ==> |n.name| < 0x1_0000
  {
    if names == [] then [] else [names[0].kind] + Put16(|names[0].name|) + names[0].name + EncodeNames(names[1..])
  }

  /** The data of a server name extension. */
  function EncodeNameList(names: seq<ServerName>): Bytes
    requires forall n :: n in names ==> |n.name| < 0x1_0000
    requires |EncodeNames(names)| < 0x1_0000
  {
    Put16(|EncodeNames(names)|) + EncodeNames(names)
  }

  predicate FitsExtensions(es: seq<Extension>) {
    (forall e :: e in es ==> FitsExtension(e)) && |EncodeExtensions(es)| < 0x1_0000
  }

  /** Every part fits its length prefix. */
  predicate Fits(h: Hello) {
    && |h.prefix| == 34
    && |h.sessionId| < 256 && |h.cipherSuites| < 0x1_0000 && |h.compression| < 256
    && (h.extensions.Some? ==> FitsExtensions(h.extensions.value))
  }

  function ExtensionPart(h: Hello): Bytes
    requires Fits(h)
  {
    if h.extensions.None? then []
    else Vector(EncodeExtensions(h.extensions.value), 2)
  }

  function EncodeHello(h: Hello): Bytes
    requires Fits(h)
  {
    h.prefix + Vector(h.sessionId, 1) + Vector(h.cipherSuites, 2) + Vector(h.compression, 1) + ExtensionPart(h)
  }

  /** A record that holds one handshake message. */
  function EncodeRecord(minor: byte, hello: Bytes): Bytes
    requires |hello| + 4 < 0x1_0000
  {
    [22, 3, minor] + Put16(|hello| + 4) + ([1] + Put24(|hello|) + hello)
  }

  // ---------------------------------------------------------------- what a message says

  function FirstHostName(names: seq<ServerName>): Bytes {
    if names == [] then []
    else if names[0].kind == 0 then names[0].name
    else FirstHostName(names[1..])
  }

  /** The data of the first extension of kind 0, the server name extension. */
  function FirstServerName(es: seq<Extension>): Option<Bytes> {
    if es == [] then None
    else if es[0].kind == 0 then Some(es[0].data)
    else FirstServerName(es[1..])
  }

  /** What a list of extensions says of the server name, whatever the data of the extension is. */
  function NameOf(es: seq<Extension>): Parsed {
    match FirstServerName(es)
    case None => Name([])
    case Some(data) => ParseServerName(data)
  }

  lemma {:induction false} NamesRoundTrip(names: seq<ServerName>)
    requires forall n :: n in names ==> |n.name| < 0x1_0000
    ensures ParseNames(EncodeNames(names)) == Name(FirstHostName(names))
    decreases |names|
  {
    if names != [] {
      var n, more := names[0], EncodeNames(names[1..]);
      var b := [n.kind] + Put16(|n.name|) + n.name + more;
      assert b[3..] == n.name + more && b[1..] == Put16(|n.name|) + (n.name + more);
      Read16(|n.name|, n.name + more);
      assert U16(b, 1) == U16(b[1..], 0);
      assert (n.name + more)[..|n.name|] == n.name && (n.name + more)[|n.name|..] == more;
      NamesRoundTrip(names[1..]);
    }
  }

  lemma NameListRoundTrip(names: seq<ServerName>)
    requires forall n :: n in names ==> |n.name| < 0x1_0000
    requires |EncodeNames(names)| < 0x1_0000
    ensures ParseServerName(EncodeNameList(names)) == Name(FirstHostName(names))
  {
    var list := EncodeNames(names);
    Read16(|list|, list);
    assert EncodeNameList(names)[2..2 + |list|] == list;
    NamesRoundTrip(names);
  }

  lemma {:induction false} ExtensionsRoundTrip(es: seq<Extension>)
    requires forall e :: e in es ==> FitsExtension(e)
    ensures ParseExtensions(EncodeExtensions(es)) == NameOf(es)
    decreases |es|
  {
    if es != [] {
      var e, more := es[0], EncodeExtensions(es[1..]);
      assert e in es;
      var b := EncodeExtension(e) + more;
      var tail := e.data + more;
      assert b == Put16(e.kind) + (Put16(|e.data|) + tail);
      Read16(e.kind, Put16(|e.data|) + tail);
      assert b[2..] == Put16(|e.data|) + tail && b[4..] == tail;
      Read16(|e.data|, tail);
      assert U16(b, 2) == U16(b[2..], 0);
      assert tail[..|e.data|] == e.data && tail[|e.data|..] == more;
      ExtensionsRoundTrip(es[1..]);
    }
  }

  /** Past a vector that starts at `offset`. */
  lemma PastVector(hello: Bytes, before: Bytes, vector: Bytes, after: Bytes, width: nat)
    requires (width == 1 && |vector| < 256) || (width == 2 && |vector| < 0x1_0000)
    requires hello == before + Vector(vector, width) + after
    ensures Past(hello, |before|, width) == Some(|before| + width + |vector|)
    ensures hello[|before| + width..|before| + width + |vector|] == vector
  {
    if width == 2 {
      assert hello[|before|..] == Put16(|vector|) + (vector + after);
      Read16(|vector|, vector + after);
      assert U16(hello, |before|) == U16(hello[|before|..], 0);
    }
  }

  lemma PastFirst(hello: Bytes, p: Bytes, s: Bytes, vc: Bytes, vm: Bytes, x: Bytes)
    requires |s| < 256 && hello == p + Vector(s, 1) + vc + vm + x
    ensures Past(hello, |p|, 1) == Some(|p| + 1 + |s|)
  {
    Regroup(p, Vector(s, 1), vc, vm, x);
    PastVector(hello, p, s, vc + vm + x, 1);
  }

  lemma PastSecond(hello: Bytes, p: Bytes, vs: Bytes, c: Bytes, vm: Bytes, x: Bytes)
    requires |c| < 0x1_0000 && hello == p + vs + Vector(c, 2) + vm + x
    ensures Past(hello, |p| + |vs|, 2) == Some(|p| + |vs| + 2 + |c|)
  {
    Regroup(p, vs, Vector(c, 2), vm, x);
    PastVector(hello, p + vs, c, vm + x, 2);
  }

  lemma PastThird(hello: Bytes, p: Bytes, vs: Bytes, vc: Bytes, m: Bytes, x: Bytes)
    requires |m| < 256 && hello == p + vs + vc + Vector(m, 1) + x
    ensures Past(hello, |p| + |vs| + |vc|, 1) == Some(|p| + |vs| + |vc| + 1 + |m|)
  {
    Regroup(p, vs, vc, Vector(m, 1), x);
    PastVector(hello, p + vs + vc, m, x, 1);
  }

  /** The three vectors that come before the extensions. */
  lemma PastThree(hello: Bytes, p: Bytes, s: Bytes, c: Bytes, m: Bytes, x: Bytes)
    requires |s| < 256 && |c| < 0x1_0000 && |m| < 256
    requires hello == p + Vector(s, 1) + Vector(c, 2) + Vector(m, 1) + x
    ensures Past(hello, |p|, 1) == Some(|p| + 1 + |s|)
    ensures Past(hello, |p| + 1 + |s|, 2) == Some(|p| + 3 + |s| + |c|)
    ensures Past(hello, |p| + 3 + |s| + |c|, 1) == Some(|p| + 4 + |s| + |c| + |m|)
  {
    PastFirst(hello, p, s, Vector(c, 2), Vector(m, 1), x);
    PastSecond(hello, p, Vector(s, 1), c, Vector(m, 1), x);
    PastThird(hello, p, Vector(s, 1), Vector(c, 2), m, x);
  }

  lemma Regroup(a: Bytes, b: Bytes, c: Bytes, d: Bytes, e: Bytes)
    ensures a + b + c + d + e == a + b + (c + d + e)
    ensures a + b + c + d + e == (a + b) + c + (d + e)
    ensures a + b + c + d + e == (a + b + c) + d + e
  {
  }

  lemma HelloRoundTrip(h: Hello)
    requires Fits(h)
    ensures ParseHello(EncodeHello(h)) == if h.extensions.None? then Name([]) else NameOf(h.extensions.value)
  {
    if h.extensions.Some? {
      SomeRoundTrip(h, EncodeHello(h), h.extensions.value);
    } else {
      NoneRoundTrip(h, EncodeHello(h));
    }
  }

  lemma SomeRoundTrip(h: Hello, hello: Bytes, es: seq<Extension>)
    requires Fits(h) && h.extensions == Some(es) && hello == EncodeHello(h)
    ensures ParseHello(hello) == NameOf(es)
  {
    var first, second, third := 35 + |h.sessionId|, 37 + |h.sessionId| + |h.cipherSuites|, |BeforeExtensions(h)|;
    PastEncoded(h, hello, first, second, third);
    ParsesEncoded(hello, BeforeExtensions(h), EncodeExtensions(es), first, second);
    ExtensionsRoundTrip(es);
  }

  lemma NoneRoundTrip(h: Hello, hello: Bytes)
    requires Fits(h) && h.extensions == None && hello == EncodeHello(h)
    ensures ParseHello(hello) == Name([])
  {
    var first, second := 35 + |h.sessionId|, 37 + |h.sessionId| + |h.cipherSuites|;
    PastEncoded(h, hello, first, second, |hello|);
    ParsesNone(hello, first, second);
  }

  lemma ParsesEncoded(hello: Bytes, before: Bytes, data: Bytes, first: nat, second: nat)
    requires |hello| >= 34 && Past(hello, 34, 1) == Some(first) && Past(hello, first, 2) == Some(second)
    requires Past(hello, second, 1) == Some(|before|)
    requires |data| < 0x1_0000 && hello == before + Vector(data, 2)
    ensures ParseHello(hello) == ParseExtensions(data)
  {
    PastLast(hello, before, data);
    ParsesExtensions(hello, first, second, |before|);
  }

  lemma PastEncoded(h: Hello, hello: Bytes, first: nat, second: nat, third: nat)
    requires Fits(h) && hello == EncodeHello(h)
    requires first == 35 + |h.sessionId| && second == first + 2 + |h.cipherSuites| && third == second + 1 + |h.compression|
    ensures |hello| >= 34 && Past(hello, 34, 1) == Some(first)
    ensures Past(hello, first, 2) == Some(second) && Past(hello, second, 1) == Some(third)
    ensures h.extensions.None? ==> |hello| == third
  {
    PastThree(hello, h.prefix, h.sessionId, h.cipherSuites, h.compression, ExtensionPart(h));
  }

  lemma ParsesExtensions(hello: Bytes, first: nat, second: nat, third: nat)
    requires |hello| >= 34 && Past(hello, 34, 1) == Some(first) && Past(hello, first, 2) == Some(second)
    requires Past(hello, second, 1) == Some(third) && third < |hello| && Past(hello, third, 2) == Some(|hello|)
    ensures ParseHello(hello) == ParseExtensions(hello[third + 2..|hello|])
  {
  }

  lemma ParsesNone(hello: Bytes, first: nat, second: nat)
    requires |hello| >= 34 && Past(hello, 34, 1) == Some(first) && Past(hello, first, 2) == Some(second)
    requires Past(hello, second, 1) == Some(|hello|)
    ensures ParseHello(hello) == Name([])
  {
  }

  function BeforeExtensions(h: Hello): (before: Bytes)
    requires Fits(h)
    ensures |before| == |h.prefix| + 4 + |h.sessionId| + |h.cipherSuites| + |h.compression|
    ensures EncodeHello(h) == before + ExtensionPart(h)
  {
    h.prefix + Vector(h.sessionId, 1) + Vector(h.cipherSuites, 2) + Vector(h.compression, 1)
  }

  lemma PastLast(hello: Bytes, before: Bytes, data: Bytes)
    requires |data| < 0x1_0000 && hello == before + Vector(data, 2)
    ensures Past(hello, |before|, 2) == Some(|hello|)
    ensures hello[|before| + 2..|hello|] == data
  {
    assert hello == before + Vector(data, 2) + [];
    PastVector(hello, before, data, [], 2);
  }

  lemma RecordRoundTrip(minor: byte, hello: Bytes)
    requires |hello| + 4 < 0x1_0000
    ensures ParseRecord(EncodeRecord(minor, hello)) == ParseHello(hello)
  {
    var record := EncodeRecord(minor, hello);
    var body := [1] + Put24(|hello|) + hello;
    assert record[3..] == Put16(|hello| + 4) + body;
    Read16(|hello| + 4, body);
    assert U16(record, 3) == U16(record[3..], 0);
    assert record[5..5 + |body|] == body;
    assert body[1..] == Put24(|hello|) + hello;
    Read24(|hello|, hello);
    assert U24(body, 1) == U24(body[1..], 0);
    assert body[4..4 + |hello|] == hello;
  }

  /** Parsing a serialized ClientHello gives what its first server name extension says. */
  lemma ClientHelloRoundTrip(minor: byte, h: Hello)
    requires Fits(h) && |EncodeHello(h)| + 4 < 0x1_0000
    ensures ParseRecord(EncodeRecord(minor, EncodeHello(h))) ==
            if h.extensions.None? then Name([]) else NameOf(h.extensions.value)
  {
    RecordRoundTrip(minor, EncodeHello(h));
    HelloRoundTrip(h);
  }

  /** In particular the first host name of a well-formed server name extension that comes first. */
  lemma ServerNameRoundTrip(minor: byte, h: Hello, names: seq<ServerName>)
    requires Fits(h) && |EncodeHello(h)| + 4 < 0x1_0000 && h.extensions.Some?
    requires forall n :: n in names ==> |n.name| < 0x1_0000
    requires |EncodeNames(names)| < 0x1_0000
    requires FirstServerName(h.extensions.value) == Some(EncodeNameList(names))
    ensures ParseRecord(EncodeRecord(minor, EncodeHello(h))) == Name(FirstHostName(names))
  {
    ClientHelloRoundTrip(minor, h);
    NameListRoundTrip(names);
  }

  lemma {:induction false} FirstServerNameSkips(es: seq<Extension>, i: nat, e: Extension)
    requires i <= |es| && e.kind != 0
    ensures FirstServerName(es[..i] + [e] + es[i..]) == FirstServerName(es)
    decreases i
  {
    var all := es[..i] + [e] + es[i..];
    if i == 0 {
      assert all[1..] == es;
    } else {
      assert all[1..] == es[1..][..i - 1] + [e] + es[1..][i - 1..];
      FirstServerNameSkips(es[1..], i - 1, e);
    }
  }

  /** Inserting an extension of another kind anywhere, with the lengths fixed up, does not change the answer. */
  lemma InsertionInvariant(minor: byte, h: Hello, i: nat, e: Extension, h': Hello)
    requires Fits(h) && h.extensions.Some? && i <= |h.extensions.value| && e.kind != 0
    requires h' == h.(extensions := Some(h.extensions.value[..i] + [e] + h.extensions.value[i..]))
    requires Fits(h') && |EncodeHello(h)| + 4 < 0x1_0000 && |EncodeHello(h')| + 4 < 0x1_0000
    ensures ParseRecord(EncodeRecord(minor, EncodeHello(h'))) == ParseRecord(EncodeRecord(minor, EncodeHello(h)))
  {
    ClientHelloRoundTrip(minor, h);
    ClientHelloRoundTrip(minor, h');
    FirstServerNameSkips(h.extensions.value, i, e);
  }

  // ---------------------------------------------------------------- prefixes

  /** The first record is there as a whole, or it is seen from its first bytes that it is not a handshake. */
  predicate Settled(record: Bytes) {
    |record| >= 5 && (record[0] != 22 || |record| >= 5 + U16(record, 3))
  }

  /** Once the record is there, what follows it does not matter; and until then the answer is Truncated. */
  lemma PrefixStable(record: Bytes, more: Bytes)
    ensures Settled(record) ==> ParseRecord(record + more) == ParseRecord(record)
    ensures !Settled(record) ==> ParseRecord(record) == Truncated
    ensures ParseRecord(record) != Truncated ==> ParseRecord(record + more) == ParseRecord(record)
  {
    if Settled(record) && record[0] == 22 {
      var end := 5 + U16(record, 3);
      assert U16(record + more, 3) == U16(record, 3);
      assert (record + more)[5..end] == record[5..end];
    }
  }

  // ---------------------------------------------------------------- peeking

  datatype Error = TruncatedHello | Read(error: ReadError)

  datatype Peeked = Peeked(name: Bytes, isTls: bool, err: Option<Error>)

  /** A header the peeking function accepts as the start of a ClientHello: handshake, version 3, at most 16384 + 2048 bytes. */
  predicate AcceptedHeader(b: Bytes)
    requires |b| >= 5
  {
    b[0] == 22 && b[1] == 3 && 0 < U16(b, 3) <= 18432
  }

  /** What peeking at a large enough reader gives, in terms of the bytes of the stream alone. */
  function PeekOf(b: Bytes, end: ReadError): Peeked {
    if |b| < 5 then Peeked([], false, Some(Read(end)))
    else if !AcceptedHeader(b) then Peeked([], false, None)
    else if |b| < 5 + U16(b, 3) then Peeked([], true, Some(if end.Eof? then TruncatedHello else Read(end)))
    else
      match ParseRecord(b)
      case Name(name) => Peeked(name, true, None)
      case Truncated => Peeked([], true, Some(TruncatedHello))
  }

  /** With a buffer of the advertised size the buffer is never full; nothing is consumed in any case. */
  method PeekClientHelloServerName(reader: Reader) returns (r: Peeked)
    requires reader.Valid()
    ensures reader.size >= CLIENT_HELLO_PEEK_BUFFER_SIZE ==> r == PeekOf(reader.Rest(), reader.end)
    ensures reader.size >= CLIENT_HELLO_PEEK_BUFFER_SIZE ==> r.err != Some(Read(BufferFull))
  {
    var header, err := reader.Peek(5);
    if err.Some? {
      return Peeked([], false, Some(Read(err.value)));
    }
    var recordLen := U16(header, 3);
    if header[0] != RECORD_TYPE_HANDSHAKE || header[1] != 3 || recordLen <= 0 || recordLen > MAX_TLS_RECORD_LEN {
      return Peeked([], false, None);
    }
    var record;
    record, err := reader.Peek(5 + recordLen);
    if err.Some? {
      if err.value.BufferFull? || err.value.Eof? {
        return Peeked([], true, Some(TruncatedHello));
      }
      return Peeked([], true, Some(Read(err.value)));
    }
    ghost var rest := reader.Rest();
    assert rest == record + rest[5 + recordLen..];
    PrefixStable(record, rest[5 + recordLen..]);
    var serverName := ParseClientHelloServerName(record);
    match serverName {
      case Truncated => return Peeked([], true, Some(TruncatedHello));
      case Name(name) => return Peeked(name, true, None);
    }
  }

  lemma AcceptedRecord(minor: byte, hello: Bytes, more: Bytes)
    requires |hello| + 4 <= 18432
    ensures var b := EncodeRecord(minor, hello) + more; AcceptedHeader(b) && U16(b, 3) == |hello| + 4
    ensures |EncodeRecord(minor, hello)| == |hello| + 9
  {
    var b := EncodeRecord(minor, hello) + more;
    var rest := [1] + Put24(|hello|) + hello + more;
    assert b[3..] == Put16(|hello| + 4) + rest;
    Read16(|hello| + 4, rest);
    assert U16(b, 3) == U16(b[3..], 0);
  }

  /** Peeking at a stream that starts with a ClientHello finds its server name, whatever follows. */
  lemma PeekFindsName(minor: byte, h: Hello, more: Bytes, end: ReadError)
    requires Fits(h) && |EncodeHello(h)| + 4 <= 18432
    requires h.extensions.Some? && NameOf(h.extensions.value).Name?
    ensures PeekOf(EncodeRecord(minor, EncodeHello(h)) + more, end) == Peeked(NameOf(h.extensions.value).name, true, None)
  {
    ClientHelloRoundTrip(minor, h);
    PrefixStable(EncodeRecord(minor, EncodeHello(h)), more);
    AcceptedRecord(minor, EncodeHello(h), more);
  }
}
