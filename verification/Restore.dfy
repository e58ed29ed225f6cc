/** Applying the restore file against executing the commands one by one. */
module Restore {
  import opened Optional
  import opened Sequences
  import opened Netfilter
  import opened Commands
  import opened Builder
  import Text

  // ---------------------------------------------------------------- how a line is split into words

  predicate Blank(c: char) {
    c == ' ' || c == '\t' || c == '\n'
  }

  /** iptables-restore's splitting: blanks separate words, quotes group them and a closing quote ends a word. */
  function Scan(s: string, word: string, quoted: bool, escaped: bool): seq<string> {
    if s == "" then
      if word == "" || quoted then [] else [word]
    else if quoted then
      if escaped then Scan(s[1..], word + [s[0]], true, false)
      else if s[0] == '\\' then Scan(s[1..], word, true, true)
      else if s[0] == '"' then [word] + Scan(s[1..], "", false, false)
      else Scan(s[1..], word + [s[0]], true, false)
    else if s[0] == '"' then
      Scan(s[1..], word, true, false)
    else if Blank(s[0]) then
      if word == "" then Scan(s[1..], "", false, false) else [word] + Scan(s[1..], "", false, false)
    else
      Scan(s[1..], word + [s[0]], false, false)
  }

  function Words(line: string): seq<string> {
    Scan(line, "", false, false)
  }

  /** A word that needs no quoting. */
  predicate Plain(word: string) {
    word != "" && forall c :: c in word ==> !Blank(c) && c != '"'
  }

  lemma {:induction false} ScanPlain(x: string, rest: string, word: string)
    requires forall c :: c in x ==> !Blank(c) && c != '"'
    ensures Scan(x + rest, word, false, false) == Scan(rest, word + x, false, false)
    decreases |x|
  {
    if x == "" {
      assert x + rest == rest && word + x == word;
    } else {
      assert x[0] in x && (x + rest)[1..] == x[1..] + rest;
      ScanPlain(x[1..], rest, word + [x[0]]);
      assert word + [x[0]] + x[1..] == word + x;
    }
  }

  lemma {:induction false} ScanQuoted(x: string, rest: string, word: string)
    requires forall c :: c in x ==> !Blank(c) && c != '"' && c != '\\'
    ensures Scan(x + "\"" + rest, word, true, false) == [word + x] + Scan(rest, "", false, false)
    decreases |x|
  {
    var s := x + "\"" + rest;
    if x == "" {
      assert s[1..] == rest && word + x == word;
    } else {
      assert x[0] in x && s[1..] == x[1..] + "\"" + rest;
      ScanQuoted(x[1..], rest, word + [x[0]]);
      assert word + [x[0]] + x[1..] == word + x;
    }
  }

  /** A token as written, and the word it is read back as. */
  predicate Written(token: string, word: string) {
    Plain(word) && (token == word || (token == Quoted(word) && '\\' !in word))
  }

  lemma WordFirst(token: string, word: string, rest: string)
    requires Written(token, word)
    ensures rest == "" ==> Words(token + rest) == [word]
    ensures rest != "" && rest[0] == ' ' ==> Words(token + rest) == [word] + Words(rest[1..])
  {
    if token == word {
      ScanPlain(word, rest, "");
      assert "" + word == word;
    } else {
      var s := token + rest;
      assert s[1..] == word + "\"" + rest;
      ScanQuoted(word, rest, "");
      assert "" + word == word;
    }
  }

  /** Joining with blanks and splitting gives the words back, quotes taken off. */
  lemma {:induction false} WordsOfJoin(tokens: seq<string>, words: seq<string>)
    requires |tokens| == |words| && forall i :: 0 <= i < |tokens| ==> Written(tokens[i], words[i])
    ensures Words(Text.Join(tokens, ' ')) == words
    decreases |tokens|
  {
    if |tokens| == 1 {
      WordFirst(tokens[0], words[0], "");
      assert tokens[0] + "" == tokens[0];
    } else if tokens != [] {
      var rest := [' '] + Text.Join(tokens[1..], ' ');
      WordFirst(tokens[0], words[0], rest);
      assert rest[1..] == Text.Join(tokens[1..], ' ');
      assert tokens[0] + rest == Text.Join(tokens, ' ');
      WordsOfJoin(tokens[1..], words[1..]);
      assert [words[0]] + words[1..] == words;
    }
  }

  // When the words come back as they were joined.

  /** The characters of some words, and one separator for each. */
  function Extent(words: seq<string>): nat {
    if words == [] then 0 else |words[0]| + 1 + Extent(words[1..])
  }

  lemma ExtentCons(word: string, words: seq<string>)
    ensures Extent([word] + words) == |word| + 1 + Extent(words)
  {
    assert ([word] + words)[1..] == words;
  }

  lemma {:induction false} JoinExtent(words: seq<string>)
    requires words != []
    ensures |Text.Join(words, ' ')| + 1 == Extent(words)
    decreases |words|
  {
    if |words| > 1 {
      JoinExtent(words[1..]);
    } else {
      assert words[1..] == [];
    }
  }

  /** Splitting never makes the words longer, and makes them shorter wherever there is a quote. */
  lemma {:induction false} ScanExtent(s: string, word: string, quoted: bool, escaped: bool)
    ensures Extent(Scan(s, word, quoted, escaped)) <= |s| + |word| + 1
    ensures !quoted && '"' in s ==> Extent(Scan(s, word, quoted, escaped)) < |s| + |word| + 1
    decreases |s|
  {
    if s == "" {
      ExtentCons(word, []);
      assert [word] + [] == [word];
    } else {
      assert s == [s[0]] + s[1..];
      assert '"' in s && s[0] != '"' ==> '"' in s[1..];
      if quoted {
        ScanExtent(s[1..], word, true, true);
        ScanExtent(s[1..], word + [s[0]], true, false);
      } else {
        ScanExtent(s[1..], word, true, false);
        ScanExtent(s[1..], word + [s[0]], false, false);
      }
      ScanExtent(s[1..], "", false, false);
      ExtentCons(word, Scan(s[1..], "", false, false));
    }
  }

  /** Without quotes every word found is plain. */
  lemma {:induction false} ScanFindsPlain(s: string, word: string)
    requires '"' !in s && (word == "" || Plain(word))
    ensures forall w :: w in Scan(s, word, false, false) ==> Plain(w)
    decreases |s|
  {
    if s != "" {
      assert s[0] in s && forall c :: c in s[1..] ==> c in s;
      ScanFindsPlain(s[1..], "");
      if !Blank(s[0]) {
        ScanFindsPlain(s[1..], word + [s[0]]);
      }
    }
  }

  /** Joined words are read back exactly when each needs no quoting. */
  lemma WordsExactly(words: seq<string>)
    requires words != []
    ensures Words(Text.Join(words, ' ')) == words <==> forall w :: w in words ==> Plain(w)
  {
    var line := Text.Join(words, ' ');
    if Words(line) == words {
      JoinExtent(words);
      ScanExtent(line, "", false, false);
      ScanFindsPlain(line, "");
    }
    if forall w :: w in words ==> Plain(w) {
      forall i | 0 <= i < |words| ensures Written(words[i], words[i]) {
        assert words[i] in words;
      }
      WordsOfJoin(words, words);
    }
  }

  // ---------------------------------------------------------------- running a restore file

  /** `table` is the table of the block being read; a line that cannot be read or run fails the whole. */
  ghost function ExecRestore(fw: Firewall, lines: seq<string>, table: Option<string>): Option<Firewall>
    decreases |lines|
  {
    if lines == [] then
      Some(fw)
    else if table.None? then
      if lines[0] != "" && lines[0][0] == '*' && Words(lines[0][1..]) != [] then
        ExecRestore(fw, lines[1..], Some(Words(lines[0][1..])[0]))
      else
        None
    else if lines[0] == "COMMIT" then
      ExecRestore(fw, lines[1..], None)
    else
      var command :- ParseCommand(["-t", table.value] + Words(lines[0]));
      var next :- Step(fw, command);
      ExecRestore(next, lines[1..], table)
  }

  /** The text, read in its table, is the command. */
  ghost predicate Means(table: string, text: string, c: Command) {
    text != "COMMIT" && ParseCommand(["-t", table] + Words(text)) == Some(c)
  }

  ghost predicate AllMean(table: string, texts: seq<string>, script: seq<Command>) {
    |texts| == |script| && forall i :: 0 <= i < |texts| ==> Means(table, texts[i], script[i])
  }

  lemma {:induction false} ExecTexts(fw: Firewall, table: string, texts: seq<string>, script: seq<Command>, rest: seq<string>)
    requires AllMean(table, texts, script)
    ensures ExecRestore(fw, texts + ["COMMIT"] + rest, Some(table)) ==
            var mid := Exec(fw, script); if mid.None? then None else ExecRestore(mid.value, rest, None)
    decreases |texts|
  {
    var lines := texts + ["COMMIT"] + rest;
    if texts == [] {
      assert lines[1..] == rest;
    } else {
      assert Means(table, texts[0], script[0]);
      assert lines[0] == texts[0] && lines[1..] == texts[1..] + ["COMMIT"] + rest;
      var next := Step(fw, script[0]);
      if next.Some? {
        ExecTexts(next.value, table, texts[1..], script[1..], rest);
      }
    }
  }

  lemma TableLine(table: string)
    requires Plain(table)
    ensures var line := "* " + table; line[0] == '*' && Words(line[1..]) == [table]
  {
    var line := "* " + table;
    assert line[1..] == " " + table && (" " + table)[1..] == table;
    WordFirst(table, table, "");
    assert table + "" == table;
  }

  // ---------------------------------------------------------------- commands of different tables commute

  /** The same chains with the same rules in one table. */
  predicate SameTable(a: Firewall, b: Firewall, table: string) {
    && (forall id :: id in a && id.table == table ==> id in b && b[id] == a[id])
    && (forall id :: id in b && id.table == table ==> id in a)
  }

  /** The same everywhere else. */
  predicate SameElsewhere(a: Firewall, b: Firewall, table: string) {
    && (forall id :: id in a && id.table != table ==> id in b && b[id] == a[id])
    && (forall id :: id in b && id.table != table ==> id in a)
  }

  lemma StepStaysInTable(fw: Firewall, c: Command)
    requires Step(fw, c).Some?
    ensures SameElsewhere(fw, Step(fw, c).value, c.id.table)
  {
  }

  lemma ReferencedInTable(a: Firewall, b: Firewall, id: ChainId)
    requires SameTable(a, b, id.table)
    ensures Referenced(a, id) == Referenced(b, id)
  {
    if Referenced(a, id) {
      var from :| from in a && from.table == id.table && exists r: Rule :: r in a[from] && r.target == Jump(id.chain);
      assert from in b && b[from] == a[from];
    }
    if Referenced(b, id) {
      var from :| from in b && from.table == id.table && exists r: Rule :: r in b[from] && r.target == Jump(id.chain);
      assert from in a && b[from] == a[from];
    }
  }

  lemma StepInTable(a: Firewall, b: Firewall, c: Command)
    requires SameTable(a, b, c.id.table)
    ensures Step(a, c).Some? == Step(b, c).Some?
    ensures Step(a, c).Some? ==> SameTable(Step(a, c).value, Step(b, c).value, c.id.table)
  {
    ReferencedInTable(a, b, c.id);
  }

  lemma StepsCommute(fw: Firewall, a: Command, b: Command)
    requires a.id.table != b.id.table
    ensures Exec(fw, [a, b]) == Exec(fw, [b, a])
  {
    ExecTwo(fw, a, b);
    ExecTwo(fw, b, a);
    var fa, fb := Step(fw, a), Step(fw, b);
    if fa.Some? {
      StepStaysInTable(fw, a);
      StepInTable(fw, fa.value, b);
    }
    if fb.Some? {
      StepStaysInTable(fw, b);
      StepInTable(fw, fb.value, a);
    }
    if fa.Some? && fb.Some? {
      var ab, ba := Step(fa.value, b).value, Step(fb.value, a).value;
      StepStaysInTable(fa.value, b);
      StepStaysInTable(fb.value, a);
      assert SameTable(ab, ba, b.id.table);
      ThroughBoth(fw, fa.value, fb.value, ab, ba, a.id.table, b.id.table);
    }
  }

  lemma ExecTwo(fw: Firewall, a: Command, b: Command)
    ensures Exec(fw, [a, b]) == if Step(fw, a).None? then None else Step(Step(fw, a).value, b)
  {
    assert [a, b][1..] == [b] && [b][1..] == [];
    if Step(fw, a).Some? {
      var mid := Step(fw, a).value;
      assert Exec(mid, [b]) == if Step(mid, b).None? then None else Exec(Step(mid, b).value, []);
    }
  }

  lemma ThroughBoth(fw: Firewall, fa: Firewall, fb: Firewall, ab: Firewall, ba: Firewall, ta: string, tb: string)
    requires ta != tb
    requires SameElsewhere(fw, fa, ta) && SameElsewhere(fa, ab, tb)
    requires SameElsewhere(fw, fb, tb) && SameElsewhere(fb, ba, ta)
    requires SameTable(fa, ba, ta) && SameTable(fb, ab, tb)
    ensures ab == ba
  {
    forall id | id in ab ensures id in ba && ba[id] == ab[id] {
      if id.table == ta {
        assert id in fa;
      } else if id.table == tb {
        assert id in fb;
      } else {
        assert id in fa && id in fw && id in fb;
      }
    }
    forall id | id in ba ensures id in ab {
      if id.table == ta {
        assert id in fa;
      } else if id.table == tb {
        assert id in fb;
      } else {
        assert id in fb && id in fw && id in fa;
      }
    }
  }

  /** One command can move behind commands of other tables. */
  lemma {:induction false} MoveBehind(fw: Firewall, c: Command, script: seq<Command>, rest: seq<Command>)
    requires forall x :: x in script ==> x.id.table != c.id.table
    ensures Exec(fw, [c] + script + rest) == Exec(fw, script + [c] + rest)
    decreases |script|
  {
    if script != [] {
      var x, more := script[0], script[1..];
      assert x in script && forall y :: y in more ==> y in script;
      StepsCommute(fw, c, x);
      assert [c] + script + rest == [c, x] + (more + rest);
      assert script + [c] + rest == [x] + (more + [c] + rest);
      ExecConcat(fw, [c, x], more + rest);
      ExecConcat(fw, [x, c], more + rest);
      assert [x, c] + (more + rest) == [x] + ([c] + more + rest);
      ExecConcat(fw, [x], [c] + more + rest);
      ExecConcat(fw, [x], more + [c] + rest);
      var mid := Exec(fw, [x]);
      if mid.Some? {
        MoveBehind(mid.value, c, more, rest);
      }
    }
  }

  /** The commands of one table, and of all others. */
  function Only(table: string, script: seq<Command>): seq<Command> {
    if script == [] then []
    else (if script[0].id.table == table then [script[0]] else []) + Only(table, script[1..])
  }

  function Others(table: string, script: seq<Command>): seq<Command> {
    if script == [] then []
    else (if script[0].id.table == table then [] else [script[0]]) + Others(table, script[1..])
  }

  lemma {:induction false} OthersTables(table: string, script: seq<Command>)
    ensures forall x :: x in Others(table, script) ==> x.id.table != table && x in script
    decreases |script|
  {
    if script != [] {
      OthersTables(table, script[1..]);
      assert forall x :: x in script[1..] ==> x in script;
    }
  }

  lemma {:induction false} OnlyOfOthers(table: string, other: string, script: seq<Command>)
    requires table != other
    ensures Only(other, Others(table, script)) == Only(other, script)
    decreases |script|
  {
    if script != [] {
      var c := script[0];
      OnlyOfOthers(table, other, script[1..]);
      if c.id.table == table {
        assert Others(table, script) == Others(table, script[1..]);
      } else {
        assert Others(table, script)[0] == c && Others(table, script)[1..] == Others(table, script[1..]);
      }
    }
  }

  /** The commands of one table can all go last. */
  lemma {:induction false} TableLast(fw: Firewall, table: string, script: seq<Command>)
    ensures Exec(fw, script) == Exec(fw, Others(table, script) + Only(table, script))
    decreases |script|
  {
    if script != [] {
      var c, rest := script[0], script[1..];
      assert [c] + rest == script;
      ExecHead(fw, c, rest);
      ExecHead(fw, c, Others(table, rest) + Only(table, rest));
      if Step(fw, c).Some? {
        TableLast(Step(fw, c).value, table, rest);
      }
      PutBack(fw, table, c, rest);
    }
  }

  lemma PutBack(fw: Firewall, table: string, c: Command, rest: seq<Command>)
    ensures Exec(fw, [c] + (Others(table, rest) + Only(table, rest))) == Exec(fw, Others(table, [c] + rest) + Only(table, [c] + rest))
  {
    var others, only := Others(table, rest), Only(table, rest);
    assert ([c] + rest)[1..] == rest;
    Assoc([c], others, only);
    if c.id.table == table {
      OthersTables(table, rest);
      MoveBehind(fw, c, others, only);
      Assoc(others, [c], only);
      assert [] + others == others;
    } else {
      assert [] + only == only;
    }
  }

  lemma ExecHead(fw: Firewall, c: Command, rest: seq<Command>)
    ensures Exec(fw, [c] + rest) == if Step(fw, c).None? then None else Exec(Step(fw, c).value, rest)
  {
    assert ([c] + rest)[1..] == rest;
  }

  function InTableOf(script: seq<Command>): string -> seq<Command> {
    (table: string) => Only(table, script)
  }

  lemma NoElements<T>(xs: seq<T>)
    requires forall x :: x !in xs
    ensures xs == []
  {
    assert forall x :: x in multiset(xs) ==> x in xs;
    assert multiset(xs) == multiset{};
    assert |multiset(xs)| == |xs|;
  }

  /** A script can be run table by table, in any order of the tables. */
  lemma {:induction false} ByTables(fw: Firewall, order: seq<string>, script: seq<Command>)
    requires forall x :: x in script ==> x.id.table in order
    requires forall i, j :: 0 <= i < j < |order| ==> order[i] != order[j]
    ensures Exec(fw, script) == Exec(fw, FlatMap(order, InTableOf(script)))
    decreases |order|
  {
    if order == [] {
      NoElements(script);
    } else {
      var front, last := order[..|order| - 1], order[|order| - 1];
      var others := Others(last, script);
      TableLast(fw, last, script);
      OthersTables(last, script);
      forall x | x in others ensures x.id.table in front {
        assert x.id.table in order;
        assert order == front + [last];
      }
      ByTables(fw, front, others);
      forall t | t in front ensures InTableOf(others)(t) == InTableOf(script)(t) {
        OnlyOfOthers(last, t, script);
      }
      FlatMapSame(front, InTableOf(others), InTableOf(script));
      ExecConcat(fw, others, Only(last, script));
      ExecConcat(fw, FlatMap(front, InTableOf(script)), Only(last, script));
    }
  }
}
