/** The few string operations the modelled code shares: splitting and joining on one character. */
module Text {

  /** True if `c` does not occur in `s`. */
  predicate Free(s: string, c: char) {
    c !in s
  }

  /** strings.Split(s, c) for a one-character separator; the empty string splits into one empty piece. */
  function Split(s: string, c: char): (parts: seq<string>)
    ensures |parts| >= 1
    ensures forall p :: p in parts ==> Free(p, c)
  {
    if s == "" then
      [""]
    else if s[0] == c then
      [""] + Split(s[1..], c)
    else
      var rest := Split(s[1..], c);
      assert rest[0] in rest;
      assert forall p :: p in rest[1..] ==> p in rest;
      [[s[0]] + rest[0]] + rest[1..]
  }

  /** strings.Join(parts, c). */
  function Join(parts: seq<string>, c: char): string {
    if parts == [] then
      ""
    else if |parts| == 1 then
      parts[0]
    else
      parts[0] + [c] + Join(parts[1..], c)
  }

  lemma {:induction false} SplitFree(s: string, c: char)
    requires Free(s, c)
    ensures Split(s, c) == [s]
  {
    if s != "" {
      SplitFree(s[1..], c);
      assert [s[0]] + s[1..] == s;
    }
  }

  lemma {:induction false} SplitAtFirst(a: string, c: char, b: string)
    requires Free(a, c)
    ensures Split(a + [c] + b, c) == [a] + Split(b, c)
  {
    var s := a + [c] + b;
    if a == "" {
      assert s[1..] == b;
    } else {
      assert s[1..] == a[1..] + [c] + b;
      SplitAtFirst(a[1..], c, b);
      assert [a[0]] + a[1..] == a;
    }
  }

  /** Splitting undoes joining when no piece contains the separator. */
  lemma {:induction false} SplitJoin(parts: seq<string>, c: char)
    requires parts != []
    requires forall p :: p in parts ==> Free(p, c)
    ensures Split(Join(parts, c), c) == parts
  {
    if |parts| == 1 {
      SplitFree(parts[0], c);
    } else {
      SplitJoin(parts[1..], c);
      SplitAtFirst(parts[0], c, Join(parts[1..], c));
    }
  }

  /** Joining undoes splitting. */
  lemma {:induction false} JoinSplit(s: string, c: char)
    ensures Join(Split(s, c), c) == s
  {
    if s != "" {
      JoinSplit(s[1..], c);
      var rest := Split(s[1..], c);
      if s[0] == c {
        assert ([""] + rest)[1..] == rest;
        assert s == "" + [c] + s[1..];
      } else {
        var all := [[s[0]] + rest[0]] + rest[1..];
        assert all[1..] == rest[1..];
        assert s == [s[0]] + s[1..];
      }
    }
  }

  /** The pieces of a comma-separated list with the empty ones dropped (config.Split). */
  function Fields(s: string): (fields: seq<string>)
    ensures forall f :: f in fields ==> f != "" && Free(f, ',')
  {
    if s == "" then [] else NonEmpty(Split(s, ','))
  }

  function NonEmpty(parts: seq<string>): (kept: seq<string>)
    ensures forall f :: f in kept <==> f in parts && f != ""
  {
    if parts == [] then
      []
    else
      NonEmpty(parts[..|parts| - 1]) +
      (if parts[|parts| - 1] == "" then [] else [parts[|parts| - 1]])
  }

  /** filterEmpty: the source's loop over the pieces. */
  method FilterEmpty(parts: seq<string>) returns (filtered: seq<string>)
    ensures filtered == NonEmpty(parts)
    ensures "" !in filtered
  {
    filtered := [];
    for i := 0 to |parts|
      invariant filtered == NonEmpty(parts[..i])
    {
      assert parts[..i + 1][..i] == parts[..i];
      if parts[i] != "" {
        filtered := filtered + [parts[i]];
      }
    }
    assert parts[..|parts|] == parts;
  }

  lemma {:induction false} AllNonEmpty(parts: seq<string>)
    requires "" !in parts
    ensures NonEmpty(parts) == parts
  {
    if parts != [] {
      var front, last := parts[..|parts| - 1], parts[|parts| - 1];
      assert last in parts && forall p :: p in front ==> p in parts;
      AllNonEmpty(front);
      assert front + [last] == parts;
    }
  }

  /** A list of values that is written with commas between them is read as that list. */
  lemma FieldsOfJoin(parts: seq<string>)
    requires forall p :: p in parts ==> p != "" && ',' !in p
    ensures Fields(Join(parts, ',')) == parts
  {
    if parts != [] {
      SplitJoin(parts, ',');
      AllNonEmpty(parts);
      assert parts[0] in parts;
    }
  }
}
