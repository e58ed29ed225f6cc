/** Bytes, the buffered readers they come from and the writers they go to. */
module Streams {
  import opened Optional

  newtype byte = x: int | 0 <= x < 256

  type Bytes = seq<byte>

  const LF: byte := 10
  const CRLF: Bytes := [13, 10]

  datatype ReadError = BufferFull | Eof | Failed(code: int)

  function FirstLf(s: Bytes): (k: nat)
    requires LF in s
    ensures k < |s| && s[k] == LF && LF !in s[..k]
  {
    if s[0] == LF then 0
    else
      var k := FirstLf(s[1..]);
      assert s[..k + 1] == [s[0]] + s[1..][..k];
      k + 1
  }

  /** Up to and including the first line feed; None when there is none. */
  function Line(s: Bytes): (line: Option<Bytes>)
    ensures line.Some? ==> line.value != [] && line.value <= s
  {
    if LF !in s then None else Some(s[..FirstLf(s) + 1])
  }

  lemma {:induction false} FirstLfOf(text: Bytes, rest: Bytes)
    requires LF !in text
    ensures LF in text + [LF] + rest && FirstLf(text + [LF] + rest) == |text|
    decreases |text|
  {
    var s := text + [LF] + rest;
    assert s[|text|] == LF;
    if text != [] {
      assert s[0] == text[0] && text[0] in text && s[1..] == text[1..] + [LF] + rest;
      assert forall c :: c in text[1..] ==> c in text;
      FirstLfOf(text[1..], rest);
    }
  }

  lemma LineOf(text: Bytes, rest: Bytes)
    requires LF !in text
    ensures Line(text + [LF] + rest) == Some(text + [LF])
  {
    FirstLfOf(text, rest);
    assert (text + [LF] + rest)[..|text| + 1] == text + [LF];
  }

  /** A buffered reader over a stream that ends with an error. */
  class Reader {
    const size: nat
    const stream: Bytes
    const end: ReadError
    var consumed: nat

    ghost predicate Valid()
      reads this
    {
      consumed <= |stream| && !end.BufferFull?
    }

    /** What is still to be read. */
    ghost function Rest(): Bytes
      requires Valid()
      reads this
    {
      stream[consumed..]
    }

    constructor (size: nat, stream: Bytes, end: ReadError)
      requires !end.BufferFull?
      ensures Valid() && this.size == size && Rest() == stream && this.end == end
    {
      this.size, this.stream, this.end, consumed := size, stream, end, 0;
    }

    /** The next `n` bytes, which stay unread. */
    method Peek(n: nat) returns (bytes: Bytes, err: Option<ReadError>)
      requires Valid()
      ensures n > size ==> err == Some(BufferFull)
      ensures n <= size && n > |Rest()| ==> err == Some(end)
      ensures n <= size && n <= |Rest()| ==> err == None && bytes == Rest()[..n]
    {
      bytes := stream[consumed..];
      if n > size {
        err := Some(BufferFull);
      } else if |bytes| < n {
        err := Some(end);
      } else {
        bytes, err := bytes[..n], None;
      }
    }

    method Skip(n: nat)
      requires Valid() && n <= |Rest()|
      modifies this
      ensures Valid() && Rest() == old(Rest())[n..]
    {
      consumed := consumed + n;
    }

    /** The next line; without one everything is read and the stream's error returned. */
    method ReadString() returns (line: Bytes, err: Option<ReadError>)
      requires Valid()
      modifies this
      ensures Valid()
      ensures match Line(old(Rest()))
              case Some(text) => line == text && err == None && Rest() == old(Rest())[|text|..]
              case None => line == old(Rest()) && err == Some(end) && Rest() == []
    {
      var found := Line(stream[consumed..]);
      if found.Some? {
        line, err := found.value, None;
      } else {
        line, err := stream[consumed..], Some(end);
      }
      Skip(|line|);
    }
  }

  /** A writer that takes a number of bytes, or without limit, and then fails. */
  class Writer {
    const room: Option<nat>
    var written: Bytes

    constructor (room: Option<nat>)
      ensures written == [] && this.room == room
    {
      this.room, written := room, [];
    }

    /** Writes all of `b`, or as much as there is room for and fails. */
    method Write(b: Bytes) returns (n: nat, ok: bool)
      modifies this
      ensures n <= |b| && written == old(written) + b[..n] && (ok ==> n == |b|)
      ensures room.None? ==> ok
    {
      if room.None? || |written| + |b| <= room.value {
        n, ok := |b|, true;
      } else {
        n, ok := if room.value > |written| then room.value - |written| else 0, false;
      }
      written := written + b[..n];
    }
  }
}
