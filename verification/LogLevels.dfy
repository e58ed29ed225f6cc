/** The log level option: a comma-separated string of `scope:level` entries, edited in place and read back. */
module LogLevels {
  import opened Optional
  import Text

  const DEFAULT_SCOPE := "default"

  datatype Level = NoneLevel | FatalLevel | ErrorLevel | WarnLevel | InfoLevel | DebugLevel

  function LevelName(l: Level): (s: string)
    ensures ':' !in s && ',' !in s
  {
    match l
    case NoneLevel => "none"
    case FatalLevel => "fatal"
    case ErrorLevel => "error"
    case WarnLevel => "warn"
    case InfoLevel => "info"
    case DebugLevel => "debug"
  }

  function LevelOf(s: string): Option<Level> {
    if s == "none" then Some(NoneLevel)
    else if s == "fatal" then Some(FatalLevel)
    else if s == "error" then Some(ErrorLevel)
    else if s == "warn" then Some(WarnLevel)
    else if s == "info" then Some(InfoLevel)
    else if s == "debug" then Some(DebugLevel)
    else None
  }

  lemma LevelRoundTrip(l: Level)
    ensures LevelOf(LevelName(l)) == Some(l)
  {
  }

  /** What looking a scope up gives; the errors carry what the source puts in their text. */
  datatype Lookup = Found(level: Level) | BadFormat(entry: string) | BadLevel(entry: string) | Undefined(scope: string)

  function ConvertScopedLevel(entry: string): Lookup {
    var pieces := Text.Split(entry, ':');
    if |pieces| > 2 then BadFormat(entry)
    else
      var level := LevelOf(pieces[|pieces| - 1]);
      if level.None? then BadLevel(entry) else Found(level.value)
  }

  // ---------------------------------------------------------------- entries

  predicate Unscoped(entry: string) {
    ':' !in entry
  }

  predicate Prefixed(entry: string, scope: string) {
    scope + ":" <= entry
  }

  /** The first entry that satisfies `p`, or the number of entries. */
  function First(entries: seq<string>, p: string -> bool): (k: nat)
    ensures k <= |entries|
    ensures forall i :: 0 <= i < k ==> !p(entries[i])
    ensures k < |entries| ==> p(entries[k])
  {
    if entries == [] || p(entries[0]) then 0 else 1 + First(entries[1..], p)
  }

  lemma {:induction false} FirstIs(entries: seq<string>, p: string -> bool, k: nat)
    requires k <= |entries| && (forall i :: 0 <= i < k ==> !p(entries[i])) && (k < |entries| ==> p(entries[k]))
    ensures First(entries, p) == k
    decreases |entries|
  {
    if k > 0 {
      FirstIs(entries[1..], p, k - 1);
    }
  }

  function FirstUnscoped(entries: seq<string>): nat {
    First(entries, e => Unscoped(e))
  }

  function FirstPrefixed(entries: seq<string>, scope: string): nat {
    First(entries, e => Prefixed(e, scope))
  }

  /** The entry that stands for a scope. For the default scope an entry without a scope comes first. */
  function Place(entries: seq<string>, scope: string): (k: nat)
    ensures k <= |entries|
  {
    if scope == DEFAULT_SCOPE && FirstUnscoped(entries) < |entries| then FirstUnscoped(entries)
    else FirstPrefixed(entries, scope)
  }

  function Entry(scope: string, level: Level): string {
    scope + ":" + LevelName(level)
  }

  function SetIn(entries: seq<string>, scope: string, level: Level): seq<string> {
    var k := Place(entries, scope);
    if k < |entries| then entries[k := Entry(scope, level)] else entries + [Entry(scope, level)]
  }

  function GetIn(entries: seq<string>, scope: string): Lookup {
    var k := Place(entries, scope);
    if k < |entries| then ConvertScopedLevel(entries[k]) else Undefined(scope)
  }

  function Set(levels: string, scope: string, level: Level): string {
    Text.Join(SetIn(Text.Split(levels, ','), scope, level), ',')
  }

  function Get(levels: string, scope: string): Lookup {
    GetIn(Text.Split(levels, ','), scope)
  }

  // ---------------------------------------------------------------- the options object

  class Options {
    var outputLevels: string
    var stackTraceLevels: string

    constructor ()
      ensures outputLevels == "default:info" && stackTraceLevels == "default:none"
    {
      outputLevels := DEFAULT_SCOPE + ":" + LevelName(InfoLevel);
      stackTraceLevels := DEFAULT_SCOPE + ":" + LevelName(NoneLevel);
    }

    /** The first entry without a scope. */
    static method FindUnscoped(levels: seq<string>) returns (k: nat)
      ensures k == FirstUnscoped(levels)
    {
      for i := 0 to |levels|
        invariant forall j :: 0 <= j < i ==> !Unscoped(levels[j])
      {
        if ':' !in levels[i] {
          FirstIs(levels, e => Unscoped(e), i);
          return i;
        }
      }
      FirstIs(levels, e => Unscoped(e), |levels|);
      return |levels|;
    }

    /** The first entry with the prefix of a scope. */
    static method FindPrefixed(levels: seq<string>, scope: string) returns (k: nat)
      ensures k == FirstPrefixed(levels, scope)
    {
      var prefix := scope + ":";
      for i := 0 to |levels|
        invariant forall j :: 0 <= j < i ==> !Prefixed(levels[j], scope)
      {
        if prefix <= levels[i] {
          FirstIs(levels, e => Prefixed(e, scope), i);
          return i;
        }
      }
      FirstIs(levels, e => Prefixed(e, scope), |levels|);
      return |levels|;
    }

    /** The body the source's two setters share. */
    static method Overwrite(text: string, scope: string, level: Level) returns (text': string)
      ensures text' == Set(text, scope, level)
    {
      var sl := scope + ":" + LevelName(level);
      var levels := Text.Split(text, ',');
      if scope == DEFAULT_SCOPE {
        var u := FindUnscoped(levels);
        if u < |levels| {
          return Text.Join(levels[u := sl], ',');
        }
      }
      var k := FindPrefixed(levels, scope);
      if k < |levels| {
        return Text.Join(levels[k := sl], ',');
      }
      return Text.Join(levels + [sl], ',');
    }

    /** The body the source's two getters share. */
    static method LookUp(text: string, scope: string) returns (r: Lookup)
      ensures r == Get(text, scope)
    {
      var levels := Text.Split(text, ',');
      if scope == DEFAULT_SCOPE {
        var u := FindUnscoped(levels);
        if u < |levels| {
          return ConvertScopedLevel(levels[u]);
        }
      }
      var k := FindPrefixed(levels, scope);
      if k < |levels| {
        return ConvertScopedLevel(levels[k]);
      }
      return Undefined(scope);
    }

    method SetOutputLevel(scope: string, level: Level)
      modifies this
      ensures outputLevels == Set(old(outputLevels), scope, level) && stackTraceLevels == old(stackTraceLevels)
    {
      outputLevels := Overwrite(outputLevels, scope, level);
    }

    method GetOutputLevel(scope: string) returns (r: Lookup)
      ensures r == Get(outputLevels, scope)
    {
      r := LookUp(outputLevels, scope);
    }

    method SetStackTraceLevel(scope: string, level: Level)
      modifies this
      ensures stackTraceLevels == Set(old(stackTraceLevels), scope, level) && outputLevels == old(outputLevels)
    {
      stackTraceLevels := Overwrite(stackTraceLevels, scope, level);
    }

    method GetStackTraceLevel(scope: string) returns (r: Lookup)
      ensures r == Get(stackTraceLevels, scope)
    {
      r := LookUp(stackTraceLevels, scope);
    }
  }

  // ---------------------------------------------------------------- scopes and entries

  /** A scope name that can be written in an entry. */
  predicate Simple(scope: string) {
    ':' !in scope && ',' !in scope
  }

  lemma EntryConverts(scope: string, level: Level)
    requires Simple(scope)
    ensures ConvertScopedLevel(Entry(scope, level)) == Found(level)
  {
    Text.SplitAtFirst(scope, ':', LevelName(level));
    Text.SplitFree(LevelName(level), ':');
    LevelRoundTrip(level);
  }

  /** An entry belongs to one scope only. */
  lemma PrefixUnique(entry: string, a: string, b: string)
    requires Simple(a) && Simple(b) && Prefixed(entry, a) && Prefixed(entry, b)
    ensures a == b
  {
    var pa, pb := a + ":", b + ":";
    assert entry[|a|] == pa[|a|] == ':' && entry[|b|] == pb[|b|] == ':';
    assert forall i :: 0 <= i < |a| ==> entry[i] == pa[i] == a[i];
    assert forall i :: 0 <= i < |b| ==> entry[i] == pb[i] == b[i];
    assert |a| == |b|;
  }

  lemma PrefixScoped(entry: string, scope: string)
    requires Prefixed(entry, scope)
    ensures !Unscoped(entry)
  {
    assert entry[|scope|] == (scope + ":")[|scope|] == ':';
  }

  lemma EntryPrefixed(scope: string, level: Level)
    ensures Prefixed(Entry(scope, level), scope) && !Unscoped(Entry(scope, level))
  {
    PrefixScoped(Entry(scope, level), scope);
  }

  // ---------------------------------------------------------------- set and get on entries

  /** The default scope is named once as far as setting it goes: at most one entry without a scope, and none that names it before. */
  predicate DefaultOnce(entries: seq<string>) {
    var u := FirstUnscoped(entries);
    && (forall i :: u < i < |entries| ==> !Unscoped(entries[i]))
    && (u < |entries| ==> FirstPrefixed(entries, DEFAULT_SCOPE) >= u)
  }

  lemma PlaceAfterSet(entries: seq<string>, scope: string, level: Level)
    requires Simple(scope) && (scope == DEFAULT_SCOPE ==> DefaultOnce(entries))
    ensures var r := SetIn(entries, scope, level); Place(r, scope) == Place(entries, scope) < |r| && r[Place(entries, scope)] == Entry(scope, level)
  {
    var r, k := SetIn(entries, scope, level), Place(entries, scope);
    EntryPrefixed(scope, level);
    if scope == DEFAULT_SCOPE {
      FirstIs(r, e => Unscoped(e), |r|);
    }
    FirstIs(r, e => Prefixed(e, scope), k);
  }

  lemma SetGetIn(entries: seq<string>, scope: string, level: Level)
    requires Simple(scope) && (scope == DEFAULT_SCOPE ==> DefaultOnce(entries))
    ensures GetIn(SetIn(entries, scope, level), scope) == Found(level)
  {
    PlaceAfterSet(entries, scope, level);
    EntryConverts(scope, level);
  }

  /** Changing the entry of one scope leaves the place of another where it was. */
  lemma PlaceKept(entries: seq<string>, scope: string, level: Level, other: string)
    requires Simple(scope) && Simple(other) && scope != other
    ensures var r, j := SetIn(entries, scope, level), Place(entries, other);
            if j < |entries| then Place(r, other) == j && r[j] == entries[j] else Place(r, other) == |r|
  {
    var r, k := SetIn(entries, scope, level), Place(entries, scope);
    EntryPrefixed(scope, level);
    forall e | e == Entry(scope, level) || (k < |entries| && e == entries[k]) ensures !Prefixed(e, other) {
      if Prefixed(e, scope) && Prefixed(e, other) {
        PrefixUnique(e, scope, other);
      } else if Prefixed(e, other) {
        PrefixScoped(e, other);
      }
    }
    var p := FirstPrefixed(entries, other);
    FirstIs(r, e => Prefixed(e, other), if p < |entries| then p else |r|);
    if other == DEFAULT_SCOPE {
      if k < |entries| {
        PrefixScoped(entries[k], scope);
      }
      var u := FirstUnscoped(entries);
      FirstIs(r, e => Unscoped(e), if u < |entries| then u else |r|);
    }
  }

  lemma SetFrameIn(entries: seq<string>, scope: string, level: Level, other: string)
    requires Simple(scope) && Simple(other) && scope != other
    ensures GetIn(SetIn(entries, scope, level), other) == GetIn(entries, other)
  {
    PlaceKept(entries, scope, level, other);
  }

  /** When the default scope is not named once, what setting it leaves in front does not depend on the level set. */
  lemma DefaultShadowed(entries: seq<string>) returns (shadow: Lookup)
    requires !DefaultOnce(entries)
    ensures forall level :: GetIn(SetIn(entries, DEFAULT_SCOPE, level), DEFAULT_SCOPE) == shadow
  {
    var u := FirstUnscoped(entries);
    if i :| u < i < |entries| && Unscoped(entries[i]) {
      var j := SecondUnscoped(entries, u);
      shadow := ConvertScopedLevel(entries[j]);
      forall level ensures GetIn(SetIn(entries, DEFAULT_SCOPE, level), DEFAULT_SCOPE) == shadow {
        UnscopedShadows(entries, u, j, level);
      }
    } else {
      var p := FirstPrefixed(entries, DEFAULT_SCOPE);
      shadow := ConvertScopedLevel(entries[p]);
      forall level ensures GetIn(SetIn(entries, DEFAULT_SCOPE, level), DEFAULT_SCOPE) == shadow {
        PrefixShadows(entries, u, p, level);
      }
    }
  }

  lemma SecondUnscoped(entries: seq<string>, u: nat) returns (j: nat)
    requires exists i :: u < i < |entries| && Unscoped(entries[i])
    ensures u < j < |entries| && Unscoped(entries[j]) && forall i :: u < i < j ==> !Unscoped(entries[i])
  {
    j := u + 1;
    while !Unscoped(entries[j])
      invariant u < j < |entries| && forall i :: u < i < j ==> !Unscoped(entries[i])
      invariant exists i :: j <= i < |entries| && Unscoped(entries[i])
      decreases |entries| - j
    {
      j := j + 1;
    }
  }

  /** Another entry without a scope comes to the front. */
  lemma UnscopedShadows(entries: seq<string>, u: nat, j: nat, level: Level)
    requires u == FirstUnscoped(entries) && u < j < |entries| && Unscoped(entries[j])
    requires forall i :: u < i < j ==> !Unscoped(entries[i])
    ensures GetIn(SetIn(entries, DEFAULT_SCOPE, level), DEFAULT_SCOPE) == ConvertScopedLevel(entries[j])
  {
    EntryPrefixed(DEFAULT_SCOPE, level);
    FirstIs(SetIn(entries, DEFAULT_SCOPE, level), e => Unscoped(e), j);
  }

  /** An entry that names the default scope comes to the front. */
  lemma PrefixShadows(entries: seq<string>, u: nat, p: nat, level: Level)
    requires u == FirstUnscoped(entries) && p == FirstPrefixed(entries, DEFAULT_SCOPE) && p < u < |entries|
    requires forall i :: u < i < |entries| ==> !Unscoped(entries[i])
    ensures GetIn(SetIn(entries, DEFAULT_SCOPE, level), DEFAULT_SCOPE) == ConvertScopedLevel(entries[p])
  {
    var r := SetIn(entries, DEFAULT_SCOPE, level);
    EntryPrefixed(DEFAULT_SCOPE, level);
    FirstIs(r, e => Unscoped(e), |r|);
    FirstIs(r, e => Prefixed(e, DEFAULT_SCOPE), p);
  }

  // ---------------------------------------------------------------- set and get on the option string

  lemma SetFree(entries: seq<string>, scope: string, level: Level)
    requires Simple(scope) && entries != [] && forall e :: e in entries ==> Text.Free(e, ',')
    ensures var r := SetIn(entries, scope, level); r != [] && forall e :: e in r ==> Text.Free(e, ',')
  {
    var r := SetIn(entries, scope, level);
    forall e | e in r ensures Text.Free(e, ',') {
      var i :| 0 <= i < |r| && r[i] == e;
      if e != Entry(scope, level) {
        assert entries[i] in entries;
      }
    }
  }

  /** The entries of the new string are the new entries. */
  lemma SplitSet(levels: string, scope: string, level: Level)
    requires Simple(scope)
    ensures Text.Split(Set(levels, scope, level), ',') == SetIn(Text.Split(levels, ','), scope, level)
  {
    var entries := Text.Split(levels, ',');
    SetFree(entries, scope, level);
    Text.SplitJoin(SetIn(entries, scope, level), ',');
  }

  /** What has been set is read back. */
  lemma SetGet(levels: string, scope: string, level: Level)
    requires Simple(scope) && (scope == DEFAULT_SCOPE ==> DefaultOnce(Text.Split(levels, ',')))
    ensures Get(Set(levels, scope, level), scope) == Found(level)
  {
    SplitSet(levels, scope, level);
    SetGetIn(Text.Split(levels, ','), scope, level);
  }

  /** Setting one scope changes what is read for no other. */
  lemma SetFrame(levels: string, scope: string, level: Level, other: string)
    requires Simple(scope) && Simple(other) && scope != other
    ensures Get(Set(levels, scope, level), other) == Get(levels, other)
  {
    SplitSet(levels, scope, level);
    SetFrameIn(Text.Split(levels, ','), scope, level, other);
  }

  /** For the default scope setting works for every level exactly when it is named once. */
  lemma DefaultExactly(levels: string)
    ensures (forall level :: Get(Set(levels, DEFAULT_SCOPE, level), DEFAULT_SCOPE) == Found(level)) <==>
            DefaultOnce(Text.Split(levels, ','))
  {
    var entries := Text.Split(levels, ',');
    forall level ensures Get(Set(levels, DEFAULT_SCOPE, level), DEFAULT_SCOPE) == GetIn(SetIn(entries, DEFAULT_SCOPE, level), DEFAULT_SCOPE) {
      SplitSet(levels, DEFAULT_SCOPE, level);
    }
    if DefaultOnce(entries) {
      forall level ensures Get(Set(levels, DEFAULT_SCOPE, level), DEFAULT_SCOPE) == Found(level) {
        SetGet(levels, DEFAULT_SCOPE, level);
      }
    } else {
      var shadow := DefaultShadowed(entries);
      var l := if shadow == Found(InfoLevel) then DebugLevel else InfoLevel;
      assert GetIn(SetIn(entries, DEFAULT_SCOPE, l), DEFAULT_SCOPE) == shadow;
      assert Get(Set(levels, DEFAULT_SCOPE, l), DEFAULT_SCOPE) != Found(l);
    }
  }

  // ---------------------------------------------------------------- runs of settings

  function SetAll(levels: string, settings: seq<(string, Level)>): string
    decreases |settings|
  {
    if settings == [] then levels
    else
      var n := |settings| - 1;
      Set(SetAll(levels, settings[..n]), settings[n].0, settings[n].1)
  }

  /** The level a scope was last set to, or what it had. */
  function LastSet(levels: string, settings: seq<(string, Level)>, scope: string): Lookup
    decreases |settings|
  {
    if settings == [] then Get(levels, scope)
    else
      var n := |settings| - 1;
      if settings[n].0 == scope then Found(settings[n].1) else LastSet(levels, settings[..n], scope)
  }

  /** Which entries a setting can touch: none of another scope. */
  lemma NotDefault(entry: string, scope: string)
    requires Simple(scope) && scope != DEFAULT_SCOPE && Prefixed(entry, scope)
    ensures !Prefixed(entry, DEFAULT_SCOPE) && !Unscoped(entry)
  {
    PrefixScoped(entry, scope);
    if Prefixed(entry, DEFAULT_SCOPE) {
      PrefixUnique(entry, scope, DEFAULT_SCOPE);
    }
  }

  lemma SetKeepsOnce(entries: seq<string>, scope: string, level: Level)
    requires Simple(scope) && DefaultOnce(entries)
    ensures DefaultOnce(SetIn(entries, scope, level))
  {
    var r, k := SetIn(entries, scope, level), Place(entries, scope);
    EntryPrefixed(scope, level);
    if scope == DEFAULT_SCOPE {
      FirstIs(r, e => Unscoped(e), |r|);
    } else {
      NotDefault(Entry(scope, level), scope);
      if k < |entries| {
        NotDefault(entries[k], scope);
      }
      OnceKept(entries, r, k);
    }
  }

  /** One entry that has nothing to do with the default scope changed or added. */
  lemma OnceKept(entries: seq<string>, r: seq<string>, k: nat)
    requires k <= |entries| && DefaultOnce(entries)
    requires if k < |entries| then |r| == |entries| else |r| == |entries| + 1
    requires forall i :: 0 <= i < |entries| && i != k ==> r[i] == entries[i]
    requires !Unscoped(r[k]) && !Prefixed(r[k], DEFAULT_SCOPE)
    requires k < |entries| ==> !Unscoped(entries[k]) && !Prefixed(entries[k], DEFAULT_SCOPE)
    ensures DefaultOnce(r)
  {
    var u, p := FirstUnscoped(entries), FirstPrefixed(entries, DEFAULT_SCOPE);
    FirstIs(r, e => Unscoped(e), if u < |entries| then u else |r|);
    FirstIs(r, e => Prefixed(e, DEFAULT_SCOPE), if p < |entries| then p else |r|);
  }

  /** After any run of settings every scope reads as it was last set, or as it was. */
  lemma {:induction false} LastSetWins(levels: string, settings: seq<(string, Level)>, scope: string)
    requires forall s :: s in settings ==> Simple(s.0)
    requires Simple(scope) && DefaultOnce(Text.Split(levels, ','))
    ensures Get(SetAll(levels, settings), scope) == LastSet(levels, settings, scope)
    ensures DefaultOnce(Text.Split(SetAll(levels, settings), ','))
    decreases |settings|
  {
    if settings != [] {
      var n := |settings| - 1;
      var before, last := SetAll(levels, settings[..n]), settings[n];
      assert last in settings;
      LastSetWins(levels, settings[..n], scope);
      SplitSet(before, last.0, last.1);
      SetKeepsOnce(Text.Split(before, ','), last.0, last.1);
      if last.0 == scope {
        SetGet(before, scope, last.1);
      } else {
        SetFrame(before, last.0, last.1, scope);
      }
    }
  }

  // ---------------------------------------------------------------- as it is written

  /** The word for a level. */
  predicate Spells(word: string, level: Level) {
    (word, level) in {("none", NoneLevel), ("fatal", FatalLevel), ("error", ErrorLevel),
                      ("warn", WarnLevel), ("info", InfoLevel), ("debug", DebugLevel)}
  }

  lemma LevelSpelled(word: string, level: Level)
    requires Spells(word, level)
    ensures LevelName(level) == word
  {
  }

  /** A scope reads as a level exactly when the entry that stands for it ends in the word for that level, after at most one colon. */
  lemma ReadsExactly(levels: string, scope: string, level: Level)
    requires Place(Text.Split(levels, ','), scope) < |Text.Split(levels, ',')|
    ensures var pieces := Text.Split(Text.Split(levels, ',')[Place(Text.Split(levels, ','), scope)], ':');
            Get(levels, scope) == Found(level) <==> |pieces| <= 2 && Spells(pieces[|pieces| - 1], level)
  {
    var pieces := Text.Split(Text.Split(levels, ',')[Place(Text.Split(levels, ','), scope)], ':');
    WordRead(pieces[|pieces| - 1], level);
  }

  lemma WordRead(word: string, level: Level)
    ensures LevelOf(word) == Some(level) <==> Spells(word, level)
  {
  }

  /** Setting a scope writes its name, a colon and the word for the level, in the place of the scope or at the end. */
  lemma WritesEntry(levels: string, scope: string, word: string, level: Level)
    requires Simple(scope) && Spells(word, level)
    ensures var before, after := Text.Split(levels, ','), Text.Split(Set(levels, scope, level), ',');
            var k := Place(before, scope);
            after == (if k < |before| then before[k := scope + ":" + word] else before + [scope + ":" + word])
  {
    SplitSet(levels, scope, level);
    LevelSpelled(word, level);
  }
}
