/** Chunk extensions and trailer fields: the grammar of sections 7.1.1 and 5 of RFC 9112, and how to check bytes for it. */
module ChunkGrammar {
  import opened Optional
  import opened Streams

  // ---------------------------------------------------------------- bytes

  const SEMICOLON: byte := 59
  const EQUALS: byte := 61
  const COLON: byte := 58
  const QUOTE: byte := 34
  const BACKSLASH: byte := 92

  /** The bytes other than letters and digits that a token may have. */
  const TOKEN_MARKS: set<byte> := {33, 35, 36, 37, 38, 39, 42, 43, 45, 46, 94, 95, 96, 124, 126}

  predicate Blank(b: byte) { b == 9 || b == 32 }

  predicate TokenByte(b: byte) {
    (48 <= b && b <= 57) || (65 <= b && b <= 90) || (97 <= b && b <= 122) || b in TOKEN_MARKS
  }

  /** A visible character or a byte above ASCII. */
  predicate Visible(b: byte) { (33 <= b && b <= 126) || b >= 128 }

  predicate Textual(b: byte) { Blank(b) || Visible(b) }

  predicate All(s: Bytes, p: byte -> bool) {
    forall b :: b in s ==> p(b)
  }

  /** How many bytes at the start are of a kind. */
  function Span(s: Bytes, p: byte -> bool): (n: nat)
    ensures n <= |s| && All(s[..n], p) && (n < |s| ==> !p(s[n]))
  {
    if s == [] || !p(s[0]) then 0
    else
      var n := Span(s[1..], p);
      assert s[..n + 1] == [s[0]] + s[1..][..n];
      n + 1
  }

  lemma {:induction false} SpanOf(a: Bytes, b: Bytes, p: byte -> bool)
    requires All(a, p) && (b == [] || !p(b[0]))
    ensures Span(a + b, p) == |a| && (a + b)[|a|..] == b
    decreases |a|
  {
    if a == [] {
      assert a + b == b;
    } else {
      assert a[0] in a && (a + b)[1..] == a[1..] + b && forall x :: x in a[1..] ==> x in a;
      SpanOf(a[1..], b, p);
    }
  }

  // ---------------------------------------------------------------- the grammar of chunk extensions

  // In the grammar the bytes are numbers: 34 and 92 in quoted strings, 58 a colon, 59 a semicolon, 61 an equals sign.

  /** qdtext or quoted-pair. */
  datatype QuotedPart = Literal(b: byte) | Escaped(b: byte)

  datatype Value = Token(text: Bytes) | QuotedString(parts: seq<QuotedPart>)

  datatype Assignment = Assignment(before: Bytes, after: Bytes, value: Value)

  /** BWS ";" BWS chunk-ext-name [ BWS "=" BWS chunk-ext-val ] */
  datatype Extension = Extension(before: Bytes, after: Bytes, name: Bytes, assignment: Option<Assignment>)

  predicate IsToken(s: Bytes) { s != [] && All(s, TokenByte) }

  predicate WellFormedPart(part: QuotedPart) {
    match part
    case Literal(b) => Textual(b) && b != 34 && b != 92
    case Escaped(b) => Textual(b)
  }

  predicate WellFormedValue(v: Value) {
    match v
    case Token(text) => IsToken(text)
    case QuotedString(parts) => forall part :: part in parts ==> WellFormedPart(part)
  }

  predicate WellFormedExtension(x: Extension) {
    && All(x.before, Blank) && All(x.after, Blank) && IsToken(x.name)
    && (x.assignment.Some? ==>
          All(x.assignment.value.before, Blank) && All(x.assignment.value.after, Blank) && WellFormedValue(x.assignment.value.value))
  }

  function EncodeParts(parts: seq<QuotedPart>): Bytes {
    if parts == [] then [34 as byte]
    else (match parts[0] case Literal(b) => [b] case Escaped(b) => [92 as byte, b]) + EncodeParts(parts[1..])
  }

  function EncodeValue(v: Value): Bytes {
    match v
    case Token(text) => text
    case QuotedString(parts) => [34 as byte] + EncodeParts(parts)
  }

  function EncodeAssignment(a: Option<Assignment>): Bytes {
    if a.None? then [] else a.value.before + ([61 as byte] + (a.value.after + EncodeValue(a.value.value)))
  }

  function EncodeExtensions(xs: seq<Extension>): Bytes {
    if xs == [] then []
    else xs[0].before + ([59 as byte] + (xs[0].after + (xs[0].name + (EncodeAssignment(xs[0].assignment) + EncodeExtensions(xs[1..])))))
  }

  /** chunk-ext */
  ghost predicate IsExtension(s: Bytes) {
    exists xs :: (forall x :: x in xs ==> WellFormedExtension(x)) && s == EncodeExtensions(xs)
  }

  // ---------------------------------------------------------------- checking bytes for it

  /** Where a quoted string ends, read from behind its opening quote. */
  function QuotedEnd(s: Bytes): (end: Option<nat>)
    ensures end.Some? ==> 0 < end.value <= |s|
  {
    if s == [] then None
    else if s[0] == QUOTE then Some(1)
    else if s[0] == BACKSLASH then
      if |s| < 2 || !Textual(s[1]) then None
      else
        var end :- QuotedEnd(s[2..]);
        Some(end + 2)
    else if !Textual(s[0]) then None
    else
      var end :- QuotedEnd(s[1..]);
      Some(end + 1)
  }

  /** Where a value ends. */
  function ValueEnd(s: Bytes): (end: Option<nat>)
    ensures end.Some? ==> 0 < end.value <= |s|
  {
    if s != [] && s[0] == QUOTE then
      var end :- QuotedEnd(s[1..]);
      Some(end + 1)
    else
      var n := Span(s, TokenByte);
      if n == 0 then None else Some(n)
  }

  /** What follows a value. */
  function AfterValue(s: Bytes): (rest: Option<Bytes>)
    ensures rest.Some? ==> |rest.value| < |s|
  {
    var end :- ValueEnd(s);
    Some(s[end..])
  }

  /** What follows the name of an extension: None when it is an assignment without a value. */
  function AfterName(s: Bytes): (rest: Option<Bytes>)
    ensures rest.Some? ==> |rest.value| <= |s|
  {
    var w := Span(s, Blank);
    if w == |s| || s[w] != EQUALS then Some(s)
    else
      var v := s[w + 1..];
      AfterValue(v[Span(v, Blank)..])
  }

  /** What follows the semicolon and the name of an extension. */
  function Opened(s: Bytes): (rest: Option<Bytes>)
    ensures rest.Some? ==> |rest.value| < |s|
  {
    var w := Span(s, Blank);
    if w == |s| || s[w] != SEMICOLON then None
    else
      var v := s[w + 1..];
      var u := v[Span(v, Blank)..];
      var n := Span(u, TokenByte);
      if n == 0 then None else Some(u[n..])
  }

  predicate ExtensionText(s: Bytes)
    decreases |s|
  {
    s == [] ||
    (Opened(s).Some? &&
     var rest := AfterName(Opened(s).value);
     rest.Some? && ExtensionText(rest.value))
  }

  // What is read is what the grammar writes.

  lemma {:induction false} PartsOf(s: Bytes) returns (parts: seq<QuotedPart>)
    requires QuotedEnd(s).Some?
    ensures (forall part :: part in parts ==> WellFormedPart(part)) && EncodeParts(parts) == s[..QuotedEnd(s).value]
    decreases |s|
  {
    if s[0] == QUOTE {
      parts := [];
    } else {
      var n := if s[0] == BACKSLASH then 2 else 1;
      var more := PartsOf(s[n..]);
      parts := [if s[0] == BACKSLASH then Escaped(s[1]) else Literal(s[0])] + more;
      assert parts[1..] == more;
      assert s[..QuotedEnd(s).value] == s[..n] + s[n..][..QuotedEnd(s[n..]).value];
    }
  }

  lemma ValueOf(s: Bytes) returns (v: Value)
    requires ValueEnd(s).Some?
    ensures WellFormedValue(v) && EncodeValue(v) == s[..ValueEnd(s).value]
  {
    if s != [] && s[0] == QUOTE {
      var parts := PartsOf(s[1..]);
      v := QuotedString(parts);
      assert s[..ValueEnd(s).value] == [QUOTE] + s[1..][..QuotedEnd(s[1..]).value];
    } else {
      v := Token(s[..ValueEnd(s).value]);
    }
  }

  lemma AssignmentOf(s: Bytes) returns (a: Option<Assignment>)
    requires AfterName(s).Some?
    ensures a.Some? ==> All(a.value.before, Blank) && All(a.value.after, Blank) && WellFormedValue(a.value.value)
    ensures s == EncodeAssignment(a) + AfterName(s).value
  {
    var w := Span(s, Blank);
    if w == |s| || s[w] != EQUALS {
      a := None;
      assert [] + s == s;
    } else {
      var v := s[w + 1..];
      var k := Span(v, Blank);
      var value := ValueOf(v[k..]);
      a := Some(Assignment(s[..w], v[..k], value));
      Rejoined(s, w, EQUALS, k, ValueEnd(v[k..]).value);
    }
  }

  lemma Rejoined(s: Bytes, w: nat, mark: byte, k: nat, n: nat)
    requires w < |s| && s[w] == mark && w + 1 + k + n <= |s|
    ensures var u := s[w + 1..][k..];
            s == s[..w] + ([mark] + (s[w + 1..][..k] + (u[..n] + u[n..]))) && s == s[..w] + ([mark] + (s[w + 1..][..k] + u[..n])) + u[n..]
  {
    var v := s[w + 1..];
    assert v == v[..k] + v[k..] && v[k..] == v[k..][..n] + v[k..][n..];
    assert s == s[..w] + ([mark] + v);
  }

  lemma OpenedOf(s: Bytes) returns (before: Bytes, after: Bytes, name: Bytes)
    requires Opened(s).Some?
    ensures All(before, Blank) && All(after, Blank) && IsToken(name)
    ensures s == before + ([SEMICOLON] + (after + (name + Opened(s).value)))
  {
    var w := Span(s, Blank);
    var v := s[w + 1..];
    var k := Span(v, Blank);
    var n := Span(v[k..], TokenByte);
    before, after, name := s[..w], v[..k], v[k..][..n];
    Rejoined(s, w, SEMICOLON, k, n);
  }

  lemma {:induction false} ExtensionsOf(s: Bytes) returns (xs: seq<Extension>)
    requires ExtensionText(s)
    ensures (forall x :: x in xs ==> WellFormedExtension(x)) && s == EncodeExtensions(xs)
    decreases |s|
  {
    if s == [] {
      xs := [];
    } else {
      var before, after, name := OpenedOf(s);
      var assignment := AssignmentOf(Opened(s).value);
      var more := ExtensionsOf(AfterName(Opened(s).value).value);
      xs := [Extension(before, after, name, assignment)] + more;
      assert xs[1..] == more;
    }
  }

  // What the grammar writes is read.

  lemma {:induction false} PartsRead(parts: seq<QuotedPart>, rest: Bytes)
    requires forall part :: part in parts ==> WellFormedPart(part)
    ensures QuotedEnd(EncodeParts(parts) + rest) == Some(|EncodeParts(parts)|)
    decreases |parts|
  {
    var s := EncodeParts(parts) + rest;
    if parts != [] {
      var part := parts[0];
      assert part in parts && forall x :: x in parts[1..] ==> x in parts;
      PartsRead(parts[1..], rest);
      var n := if part.Escaped? then 2 else 1;
      assert s[n..] == EncodeParts(parts[1..]) + rest;
    }
  }

  lemma TokenRead(text: Bytes, rest: Bytes)
    requires IsToken(text) && (rest == [] || !TokenByte(rest[0]))
    ensures ValueEnd(text + rest) == Some(|text|)
  {
    assert text[0] in text && (text + rest)[0] == text[0];
    SpanOf(text, rest, TokenByte);
  }

  lemma QuotedRead(parts: seq<QuotedPart>, rest: Bytes)
    requires forall part :: part in parts ==> WellFormedPart(part)
    ensures ValueEnd([QUOTE] + EncodeParts(parts) + rest) == Some(1 + |EncodeParts(parts)|)
  {
    assert ([QUOTE] + EncodeParts(parts) + rest)[1..] == EncodeParts(parts) + rest;
    PartsRead(parts, rest);
  }

  lemma ValueRead(v: Value, rest: Bytes)
    requires WellFormedValue(v) && (rest == [] || !TokenByte(rest[0]))
    ensures EncodeValue(v) != [] && !Blank(EncodeValue(v)[0])
    ensures AfterValue(EncodeValue(v) + rest) == Some(rest)
  {
    var value := EncodeValue(v);
    match v {
      case Token(text) =>
        assert text[0] in text;
        TokenRead(text, rest);
      case QuotedString(parts) =>
        QuotedRead(parts, rest);
    }
    assert (value + rest)[|value|..] == rest;
  }

  /** Extensions are nothing, or start with white space or a semicolon; behind the white space is the semicolon. */
  lemma EncodedStart(xs: seq<Extension>)
    requires forall x :: x in xs ==> WellFormedExtension(x)
    ensures var s := EncodeExtensions(xs);
            && (s == [] || Blank(s[0]) || s[0] == SEMICOLON)
            && (s != [] ==> Span(s, Blank) < |s| && s[Span(s, Blank)] == SEMICOLON)
  {
    if xs != [] {
      var x := xs[0];
      assert x in xs;
      var more := [SEMICOLON] + (x.after + (x.name + (EncodeAssignment(x.assignment) + EncodeExtensions(xs[1..]))));
      SpanOf(x.before, more, Blank);
      assert x.before != [] ==> x.before[0] in x.before;
    }
  }

  /** What is between a mark and what follows: white space and something that is none. */
  lemma BehindMark(s: Bytes, before: Bytes, mark: byte, after: Bytes, more: Bytes)
    requires All(before, Blank) && !Blank(mark) && All(after, Blank) && more != [] && !Blank(more[0])
    requires s == before + ([mark] + (after + more))
    ensures var w := Span(s, Blank); w == |before| && w < |s| && s[w] == mark && s[w + 1..][Span(s[w + 1..], Blank)..] == more
  {
    SpanOf(before, [mark] + (after + more), Blank);
    assert s[|before| + 1..] == after + more;
    SpanOf(after, more, Blank);
  }

  lemma AfterEquals(s: Bytes, before: Bytes, after: Bytes, value: Bytes, rest: Bytes)
    requires All(before, Blank) && All(after, Blank) && value != [] && !Blank(value[0])
    requires s == before + ([EQUALS] + (after + (value + rest))) && AfterValue(value + rest) == Some(rest)
    ensures AfterName(s) == Some(rest)
  {
    BehindMark(s, before, EQUALS, after, value + rest);
  }

  lemma NotToken(before: Bytes, mark: byte, more: Bytes)
    requires All(before, Blank) && mark in {SEMICOLON, EQUALS}
    ensures !TokenByte((before + ([mark] + more))[0])
  {
    assert before != [] ==> before[0] in before;
  }

  /** Extensions by themselves are no assignment. */
  lemma NoAssignment(rest: Bytes)
    requires rest == [] || Blank(rest[0]) || rest[0] == SEMICOLON
    requires rest != [] ==> Span(rest, Blank) < |rest| && rest[Span(rest, Blank)] == SEMICOLON
    ensures AfterName(rest) == Some(rest) && (rest == [] || !TokenByte(rest[0]))
  {
  }

  lemma AssignmentRead(a: Option<Assignment>, rest: Bytes)
    requires a.Some? ==> All(a.value.before, Blank) && All(a.value.after, Blank) && WellFormedValue(a.value.value)
    requires AfterName(rest) == Some(rest) && (rest == [] || !TokenByte(rest[0]))
    ensures AfterName(EncodeAssignment(a) + rest) == Some(rest)
    ensures var s := EncodeAssignment(a) + rest; s == [] || !TokenByte(s[0])
  {
    if a.None? {
      assert EncodeAssignment(a) + rest == rest;
    } else {
      SomeAssignment(a.value.before, a.value.after, a.value.value, rest);
    }
  }

  lemma SomeAssignment(before: Bytes, after: Bytes, v: Value, rest: Bytes)
    requires All(before, Blank) && All(after, Blank) && WellFormedValue(v) && (rest == [] || !TokenByte(rest[0]))
    ensures var s := before + ([EQUALS] + (after + EncodeValue(v))) + rest; AfterName(s) == Some(rest) && !TokenByte(s[0])
  {
    var value := EncodeValue(v);
    var s := before + ([EQUALS] + (after + value)) + rest;
    ValueRead(v, rest);
    Nested(before, EQUALS, after, value, rest);
    AfterEquals(s, before, after, value, rest);
    NotToken(before, EQUALS, after + (value + rest));
  }

  lemma Nested(a: Bytes, b: byte, c: Bytes, d: Bytes, e: Bytes)
    ensures a + ([b] + (c + d)) + e == a + ([b] + (c + (d + e)))
  {
  }

  lemma OpenedRead(s: Bytes, before: Bytes, after: Bytes, name: Bytes, rest: Bytes)
    requires All(before, Blank) && All(after, Blank) && IsToken(name) && (rest == [] || !TokenByte(rest[0]))
    requires s == before + ([SEMICOLON] + (after + (name + rest)))
    ensures Opened(s) == Some(rest)
  {
    assert name[0] in name;
    BehindMark(s, before, SEMICOLON, after, name + rest);
    SpanOf(name, rest, TokenByte);
  }

  lemma {:induction false} ExtensionsRead(xs: seq<Extension>)
    requires forall x :: x in xs ==> WellFormedExtension(x)
    ensures ExtensionText(EncodeExtensions(xs))
    decreases |xs|
  {
    if xs != [] {
      var x, more := xs[0], EncodeExtensions(xs[1..]);
      assert x in xs && forall y :: y in xs[1..] ==> y in xs;
      ExtensionsRead(xs[1..]);
      EncodedStart(xs[1..]);
      NoAssignment(more);
      AssignmentRead(x.assignment, more);
      OpenedRead(EncodeExtensions(xs), x.before, x.after, x.name, EncodeAssignment(x.assignment) + more);
    }
  }

  /** The check accepts exactly what the grammar of chunk extensions writes. */
  lemma ExtensionTextExactly(s: Bytes)
    ensures ExtensionText(s) <==> IsExtension(s)
  {
    if ExtensionText(s) {
      var xs := ExtensionsOf(s);
    }
    if xs :| (forall x :: x in xs ==> WellFormedExtension(x)) && s == EncodeExtensions(xs) {
      ExtensionsRead(xs);
    }
  }

  // ---------------------------------------------------------------- trailer fields

  /** field-name ":" OWS field-value OWS */
  datatype Field = Field(name: Bytes, before: Bytes, value: Bytes, after: Bytes)

  predicate WellFormedField(f: Field) {
    && IsToken(f.name) && All(f.before, Blank) && All(f.after, Blank) && All(f.value, Textual)
    && (f.value != [] ==> Visible(f.value[0]) && Visible(f.value[|f.value| - 1]))
  }

  function EncodeField(f: Field): Bytes {
    f.name + ([58 as byte] + (f.before + (f.value + f.after)))
  }

  /** field-line */
  ghost predicate IsField(s: Bytes) {
    exists f :: WellFormedField(f) && s == EncodeField(f)
  }

  predicate FieldText(s: Bytes) {
    var n := Span(s, TokenByte);
    0 < n < |s| && s[n] == COLON && All(s[n + 1..], Textual)
  }

  /** Text without the white space at its end. */
  lemma {:induction false} Trimmed(s: Bytes) returns (value: Bytes, after: Bytes)
    requires All(s, Textual)
    ensures s == value + after && All(value, Textual) && All(after, Blank) && (value != [] ==> Visible(value[|value| - 1]))
  {
    value, after := s, [];
    if s != [] && Blank(s[|s| - 1]) {
      var n := |s| - 1;
      value, after := Trimmed(s[..n]);
      assert s == value + (after + [s[n]]);
      after := after + [s[n]];
    } else if s != [] {
      assert s[|s| - 1] in s;
    }
  }

  lemma TextParts(text: Bytes) returns (before: Bytes, value: Bytes, after: Bytes)
    requires All(text, Textual)
    ensures text == before + (value + after) && All(before, Blank) && All(after, Blank) && All(value, Textual)
    ensures value != [] ==> Visible(value[0]) && Visible(value[|value| - 1])
  {
    var k := Span(text, Blank);
    assert forall b :: b in text[k..] ==> b in text;
    value, after := Trimmed(text[k..]);
    before := text[..k];
    if value != [] {
      assert value[0] == text[k..][0] == text[k] && text[k] in text;
    }
    assert text == text[..k] + text[k..];
  }

  lemma FieldOf(s: Bytes) returns (f: Field)
    requires FieldText(s)
    ensures WellFormedField(f) && s == EncodeField(f)
  {
    var n := Span(s, TokenByte);
    var before, value, after := TextParts(s[n + 1..]);
    f := Field(s[..n], before, value, after);
    assert s == s[..n] + ([COLON] + s[n + 1..]);
  }

  lemma FieldRead(f: Field)
    requires WellFormedField(f)
    ensures FieldText(EncodeField(f))
  {
    var text := f.before + (f.value + f.after);
    SpanOf(f.name, [COLON] + text, TokenByte);
    assert EncodeField(f)[|f.name| + 1..] == text;
  }

  /** The check accepts exactly what the grammar of field lines writes. */
  lemma FieldTextExactly(s: Bytes)
    ensures FieldText(s) <==> IsField(s)
  {
    if FieldText(s) {
      var f := FieldOf(s);
    }
    if f :| WellFormedField(f) && s == EncodeField(f) {
      FieldRead(f);
    }
  }

  // ---------------------------------------------------------------- no line ends inside

  predicate NoLineEnd(s: Bytes) { 13 !in s && LF !in s }

  lemma NoLineEndJoin(a: Bytes, b: Bytes)
    requires NoLineEnd(a) && NoLineEnd(b)
    ensures NoLineEnd(a + b)
  {
  }

  lemma {:induction false} PartsOneLine(parts: seq<QuotedPart>)
    requires forall part :: part in parts ==> WellFormedPart(part)
    ensures NoLineEnd(EncodeParts(parts))
    decreases |parts|
  {
    if parts != [] {
      assert parts[0] in parts && forall part :: part in parts[1..] ==> part in parts;
      PartsOneLine(parts[1..]);
    }
  }

  lemma AssignmentOneLine(a: Option<Assignment>)
    requires a.Some? ==> All(a.value.before, Blank) && All(a.value.after, Blank) && WellFormedValue(a.value.value)
    ensures NoLineEnd(EncodeAssignment(a))
  {
    if a.Some? {
      match a.value.value
      case Token(text) =>
      case QuotedString(parts) => PartsOneLine(parts);
    }
  }

  lemma OneLineBytes(s: Bytes)
    requires All(s, Blank) || All(s, TokenByte)
    ensures NoLineEnd(s)
  {
  }

  lemma {:induction false} ExtensionsOneLine(xs: seq<Extension>)
    requires forall x :: x in xs ==> WellFormedExtension(x)
    ensures NoLineEnd(EncodeExtensions(xs))
    decreases |xs|
  {
    if xs != [] {
      var x, more := xs[0], EncodeExtensions(xs[1..]);
      assert x in xs && forall y :: y in xs[1..] ==> y in xs;
      ExtensionsOneLine(xs[1..]);
      AssignmentOneLine(x.assignment);
      OneLineBytes(x.before);
      OneLineBytes(x.after);
      OneLineBytes(x.name);
      NoLineEndJoin(EncodeAssignment(x.assignment), more);
      NoLineEndJoin(x.name, EncodeAssignment(x.assignment) + more);
      NoLineEndJoin(x.after, x.name + (EncodeAssignment(x.assignment) + more));
      NoLineEndJoin([SEMICOLON], x.after + (x.name + (EncodeAssignment(x.assignment) + more)));
      NoLineEndJoin(x.before, [SEMICOLON] + (x.after + (x.name + (EncodeAssignment(x.assignment) + more))));
    }
  }

  /** An extension part is nothing, or white space and a semicolon and more, all on one line. */
  lemma ExtensionShape(s: Bytes) returns (before: Bytes, more: Bytes)
    requires IsExtension(s)
    ensures NoLineEnd(s) && All(before, Blank)
    ensures s == [] || s == before + ([SEMICOLON] + more)
  {
    var xs: seq<Extension> :| (forall x :: x in xs ==> WellFormedExtension(x)) && s == EncodeExtensions(xs);
    ExtensionsOneLine(xs);
    before, more := [], [];
    if xs != [] {
      assert xs[0] in xs;
      before := xs[0].before;
      more := xs[0].after + (xs[0].name + (EncodeAssignment(xs[0].assignment) + EncodeExtensions(xs[1..])));
    }
  }

  lemma FieldShape(s: Bytes)
    requires IsField(s)
    ensures s != [] && NoLineEnd(s)
  {
    var f :| WellFormedField(f) && s == EncodeField(f);
    NoLineEndJoin(f.before, f.value + f.after);
  }
}
