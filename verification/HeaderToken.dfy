/** Scanning a header value for a token: the fast scan against its specification. */
module HeaderToken {
  import opened Streams

  // ---------------------------------------------------------------- ASCII case

  predicate Upper(b: byte) {
    65 <= b && b <= 90
  }

  function Lower(b: byte): byte {
    if Upper(b) then b + 32 else b
  }

  predicate SameFolded(s: Bytes, t: Bytes) {
    |s| == |t| && forall i :: 0 <= i < |s| ==> Lower(s[i]) == Lower(t[i])
  }

  method EqualFold(s: Bytes, t: Bytes) returns (r: bool)
    ensures r <==> SameFolded(s, t)
  {
    if |s| != |t| {
      return false;
    }
    for i := 0 to |s|
      invariant forall k :: 0 <= k < i ==> Lower(s[k]) == Lower(t[k])
    {
      if Lower(s[i]) != Lower(t[i]) {
        return false;
      }
    }
    return true;
  }

  // ---------------------------------------------------------------- the specification

  predicate Boundary(b: byte) {
    b == 32 || b == 44 || b == 9
  }

  /** The token, up to case, at `sp`, with a boundary or the end of the string on both sides. */
  predicate Delimited(v: Bytes, token: Bytes, sp: nat) {
    && sp + |token| <= |v|
    && SameFolded(v[sp..sp + |token|], token)
    && (sp == 0 || Boundary(v[sp - 1]))
    && (sp + |token| == |v| || Boundary(v[sp + |token|]))
  }

  predicate Contains(v: Bytes, token: Bytes) {
    exists sp: nat :: sp <= |v| && Delimited(v, token, sp)
  }

  // ---------------------------------------------------------------- the scan

  /** A byte with the bit set that tells the cases of a letter apart. */
  function WithBit(b: byte): byte {
    (b as bv8 | 0x20) as byte
  }

  /** The filter on the first byte: equal, or equal once that bit is set. */
  predicate Passes(b: byte, first: byte) {
    b == first || WithBit(b) == first
  }

  /** What the scan finds, for any token at all. */
  predicate Scanned(v: Bytes, token: Bytes) {
    token != [] && (v == token || exists sp: nat :: sp < |v| && Delimited(v, token, sp) && Passes(v[sp], token[0]))
  }

  method HasToken(v: Bytes, token: Bytes) returns (r: bool)
    ensures r <==> Scanned(v, token)
  {
    if |token| > |v| || token == [] {
      return false;
    }
    if v == token {
      return true;
    }
    for sp := 0 to |v| - |token| + 1
      invariant forall k: nat :: k < sp ==> !(Delimited(v, token, k) && Passes(v[k], token[0]))
    {
      var b := v[sp];
      if b != token[0] && WithBit(b) != token[0] {
        continue;
      }
      if sp > 0 && !Boundary(v[sp - 1]) {
        continue;
      }
      var endPos := sp + |token|;
      if endPos != |v| && !Boundary(v[endPos]) {
        continue;
      }
      var same := EqualFold(v[sp..sp + |token|], token);
      if same {
        return true;
      }
    }
    return false;
  }

  // ---------------------------------------------------------------- the filter

  lemma SetBit(b: bv8)
    ensures 65 <= b <= 90 ==> b | 0x20 == b + 32
    ensures 97 <= b <= 122 ==> b | 0x20 == b
  {
  }

  lemma SetBitUpper(b: byte)
    requires Upper(b)
    ensures WithBit(b) == b + 32
  {
    SetBit(b as bv8);
  }

  lemma SetBitLower(b: byte)
    requires 97 <= b && b <= 122
    ensures WithBit(b) == b
  {
    SetBit(b as bv8);
  }

  /** The filter never drops a match when the token does not start with a capital letter. */
  lemma FilterKeeps(b: byte, first: byte)
    requires !Upper(first) && Lower(b) == Lower(first)
    ensures Passes(b, first)
  {
    if Upper(b) {
      SetBitUpper(b);
    }
  }

  lemma DelimitedPasses(v: Bytes, token: Bytes, sp: nat)
    requires token != [] && !Upper(token[0]) && Delimited(v, token, sp)
    ensures sp < |v| && Passes(v[sp], token[0])
  {
    assert v[sp..sp + |token|][0] == v[sp];
    FilterKeeps(v[sp], token[0]);
  }

  lemma WholeDelimited(v: Bytes)
    ensures Delimited(v, v, 0)
  {
    assert v[0..0 + |v|] == v;
  }

  /** The scan agrees with its specification on every value exactly when the token starts with no capital. */
  lemma ScanCorrectExactly(token: Bytes)
    requires token != []
    ensures (forall v :: Scanned(v, token) <==> Contains(v, token)) <==> !Upper(token[0])
  {
    if !Upper(token[0]) {
      forall v ensures Scanned(v, token) <==> Contains(v, token) {
        ScanCorrect(v, token);
      }
    } else {
      CapitalMissed(token);
    }
  }

  /** Fast token scan equals its specification, for every value and every token in lower case. */
  lemma ScanCorrect(v: Bytes, token: Bytes)
    requires token != [] && !Upper(token[0])
    ensures Scanned(v, token) <==> Contains(v, token)
  {
    if v == token {
      WholeDelimited(v);
    }
    if sp: nat :| sp <= |v| && Delimited(v, token, sp) {
      DelimitedPasses(v, token, sp);
    }
  }

  function LowerAll(s: Bytes): (r: Bytes)
    ensures |r| == |s| && forall i :: 0 <= i < |s| ==> r[i] == Lower(s[i])
  {
    seq(|s|, i requires 0 <= i < |s| => Lower(s[i]))
  }

  /** A token with a capital at the start is not found in its own lower-case form. */
  lemma CapitalMissed(token: Bytes)
    requires token != [] && Upper(token[0])
    ensures var v := LowerAll(token); Contains(v, token) && !Scanned(v, token)
  {
    var v := LowerAll(token);
    assert v[0..0 + |token|] == v;
    assert Delimited(v, token, 0);
    SetBitLower(v[0]);
    forall sp: nat | sp < |v| && Delimited(v, token, sp) ensures !Passes(v[sp], token[0]) {
      assert sp == 0;
    }
  }

  // ---------------------------------------------------------------- a list of words

  /** The bytes between the elements of a list: tab, space and comma. */
  predicate Separates(b: byte) {
    b == 9 || b == 32 || b == 44
  }

  /** Equal but for the case of ASCII letters. */
  predicate SameLetter(a: byte, b: byte) {
    a == b || (65 <= a && a <= 90 && b == a + 32) || (65 <= b && b <= 90 && a == b + 32)
  }

  predicate SameWord(s: Bytes, t: Bytes) {
    |s| == |t| && forall i :: 0 <= i < |s| ==> SameLetter(s[i], t[i])
  }

  predicate Unseparated(s: Bytes) {
    forall b :: b in s ==> !Separates(b)
  }

  /** How many bytes come before the first separator. */
  function UntilSeparator(v: Bytes): (k: nat)
    ensures k <= |v| && Unseparated(v[..k]) && (k < |v| ==> Separates(v[k]))
  {
    if v == [] || Separates(v[0]) then 0
    else
      var k := UntilSeparator(v[1..]);
      assert v[..k + 1] == [v[0]] + v[1..][..k];
      k + 1
  }

  /** What a value is a list of; some of the words may be empty. */
  function WordsOf(v: Bytes): seq<Bytes>
    decreases |v|
  {
    var k := UntilSeparator(v);
    if k == |v| then [v] else [v[..k]] + WordsOf(v[k + 1..])
  }

  lemma SameLetterFolds(a: byte, b: byte)
    ensures SameLetter(a, b) <==> Lower(a) == Lower(b)
  {
  }

  lemma SameWordFolds(s: Bytes, t: Bytes)
    ensures SameWord(s, t) <==> SameFolded(s, t)
    ensures SameWord(s, t) && Unseparated(t) ==> Unseparated(s)
  {
    forall i | 0 <= i < |s| && i < |t| ensures SameLetter(s[i], t[i]) <==> Lower(s[i]) == Lower(t[i]) {
      SameLetterFolds(s[i], t[i]);
    }
    if SameWord(s, t) && Unseparated(t) {
      forall b | b in s ensures !Separates(b) {
        var i :| 0 <= i < |s| && s[i] == b;
        assert t[i] in t;
      }
    }
  }

  lemma {:induction false} WordEnds(v: Bytes, n: nat)
    requires n <= |v| && Unseparated(v[..n]) && (n == |v| || Separates(v[n]))
    ensures UntilSeparator(v) == n
    decreases |v|
  {
    if n > 0 {
      assert v[..n][0] == v[0] && v[0] in v[..n];
      assert forall b :: b in v[1..][..n - 1] ==> b in v[..n];
      WordEnds(v[1..], n - 1);
    }
  }

  lemma {:induction false} SeparatorAfter(v: Bytes, i: nat)
    requires i < |v| && Separates(v[i])
    ensures UntilSeparator(v) <= i
    decreases |v|
  {
    if !Separates(v[0]) {
      SeparatorAfter(v[1..], i - 1);
    }
  }

  /** The bytes from `sp` on lie between separators or ends. */
  predicate Bounded(v: Bytes, sp: nat, n: nat) {
    && sp + n <= |v|
    && (sp == 0 || Separates(v[sp - 1])) && (sp + n == |v| || Separates(v[sp + n]))
  }

  /** The word is in the value, between separators or ends. */
  predicate Stands(v: Bytes, sp: nat, w: Bytes) {
    Bounded(v, sp, |w|) && v[sp..sp + |w|] == w
  }

  /** What stands behind a separator. */
  lemma StandsBehind(v: Bytes, k: nat, sp: nat, w: Bytes)
    requires k < |v| && Separates(v[k])
    ensures Stands(v[k + 1..], sp, w) <==> Stands(v, k + 1 + sp, w)
  {
    var rest := v[k + 1..];
    if k + 1 + sp + |w| <= |v| {
      assert sp > 0 ==> rest[sp - 1] == v[k + sp];
      assert sp + |w| < |rest| ==> rest[sp + |w|] == v[k + 1 + sp + |w|];
      assert rest[sp..sp + |w|] == v[k + 1 + sp..k + 1 + sp + |w|];
    }
  }

  lemma FirstStands(v: Bytes, w: Bytes)
    requires Unseparated(w)
    ensures Stands(v, 0, w) <==> w == v[..UntilSeparator(v)]
  {
    if Stands(v, 0, w) {
      assert v[0..|w|] == v[..|w|];
      WordEnds(v, |w|);
    }
  }

  /** The words of a value: what comes before its first separator, and the words of what comes after. */
  lemma WordsMember(v: Bytes, w: Bytes)
    ensures var k := UntilSeparator(v); w in WordsOf(v) <==> w == v[..k] || (k < |v| && w in WordsOf(v[k + 1..]))
  {
    assert v[..|v|] == v;
  }

  lemma {:induction false} StandingIsWord(v: Bytes, sp: nat, w: Bytes)
    requires Stands(v, sp, w) && Unseparated(w)
    ensures w in WordsOf(v)
    decreases |v|
  {
    var k := UntilSeparator(v);
    WordsMember(v, w);
    if sp == 0 {
      FirstStands(v, w);
    } else {
      SeparatorAfter(v, sp - 1);
      StandsBehind(v, k, sp - k - 1, w);
      StandingIsWord(v[k + 1..], sp - k - 1, w);
    }
  }

  lemma FirstWordStands(v: Bytes)
    ensures Stands(v, 0, v[..UntilSeparator(v)])
  {
    FirstStands(v, v[..UntilSeparator(v)]);
  }

  lemma {:induction false} WordStands(v: Bytes, w: Bytes) returns (sp: nat)
    requires w in WordsOf(v)
    ensures Stands(v, sp, w)
    decreases |v|, 1
  {
    var k := UntilSeparator(v);
    WordsMember(v, w);
    if w == v[..k] {
      FirstWordStands(v);
      sp := 0;
    } else {
      sp := LaterStands(v, k, w);
    }
  }

  lemma {:induction false} LaterStands(v: Bytes, k: nat, w: Bytes) returns (sp: nat)
    requires k < |v| && Separates(v[k]) && w in WordsOf(v[k + 1..])
    ensures Stands(v, sp, w)
    decreases |v|, 0
  {
    var sp' := WordStands(v[k + 1..], w);
    StandsBehind(v, k, sp', w);
    sp := k + 1 + sp';
  }

  lemma DelimitedBounded(v: Bytes, token: Bytes, sp: nat)
    ensures Delimited(v, token, sp) <==> Bounded(v, sp, |token|) && SameWord(v[sp..sp + |token|], token)
  {
    if sp + |token| <= |v| {
      SameWordFolds(v[sp..sp + |token|], token);
    }
  }

  lemma FoundIsWord(v: Bytes, token: Bytes, sp: nat) returns (w: Bytes)
    requires Unseparated(token) && Delimited(v, token, sp)
    ensures w in WordsOf(v) && SameWord(w, token)
  {
    w := v[sp..sp + |token|];
    DelimitedBounded(v, token, sp);
    SameWordFolds(w, token);
    StandingIsWord(v, sp, w);
  }

  lemma WordIsFound(v: Bytes, token: Bytes, w: Bytes) returns (sp: nat)
    requires w in WordsOf(v) && SameWord(w, token)
    ensures sp <= |v| && Delimited(v, token, sp)
  {
    sp := WordStands(v, w);
    DelimitedBounded(v, token, sp);
  }

  /** A token that starts with no capital and has no separator is found exactly when it is one of the words, up to case. */
  lemma FoundExactly(v: Bytes, token: Bytes)
    requires token != [] && !(65 <= token[0] && token[0] <= 90) && Unseparated(token)
    ensures Scanned(v, token) <==> exists w :: w in WordsOf(v) && SameWord(w, token)
  {
    ScanCorrect(v, token);
    if Contains(v, token) {
      var sp: nat :| sp <= |v| && Delimited(v, token, sp);
      var w := FoundIsWord(v, token, sp);
    }
    if w :| w in WordsOf(v) && SameWord(w, token) {
      var sp := WordIsFound(v, token, w);
    }
  }
}
