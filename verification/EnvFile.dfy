/** The env file: rewriting settings in place, and reading the identity database path back. */
module EnvFile {
  import opened Wrappers
  import opened Text

  // ---- text and lines ------------------------------------------------------------------------

  // Where str.splitlines() breaks a text that was read with universal newlines.
  predicate Break(c: char) {
    10 <= c as int <= 12 || 28 <= c as int <= 30 || c as int == 0x85 || c as int == 0x2028 || c as int == 0x2029
  }

  // A carriage return breaks a line too: reading turns it into a newline.
  ghost predicate BreakFree(s: string) {
    forall c :: c in s ==> !Break(c) && c != '\r'
  }

  function UniversalNewlines(s: string): string {
    if s == "" then ""
    else if s[0] == '\r' then "\n" + UniversalNewlines(if |s| > 1 && s[1] == '\n' then s[2..] else s[1..])
    else [s[0]] + UniversalNewlines(s[1..])
  }

  function SplitLines(s: string): seq<string> {
    if s == "" then []
    else if Break(s[0]) then [""] + SplitLines(s[1..])
    else
      var rest := SplitLines(s[1..]);
      if rest == [] then [[s[0]]] else [[s[0]] + rest[0]] + rest[1..]
  }

  function ReadLines(text: string): seq<string> {
    SplitLines(UniversalNewlines(text))
  }

  function Unlines(lines: seq<string>): string {
    Join(lines, '\n') + "\n"
  }

  ghost predicate AllBreakFree(lines: seq<string>) {
    forall l :: l in lines ==> BreakFree(l)
  }

  lemma {:induction false} NoReturns(s: string)
    ensures '\r' !in UniversalNewlines(s)
    ensures '\r' !in s ==> UniversalNewlines(s) == s
    decreases |s|
  {
    if s != "" {
      var rest := if s[0] == '\r' && |s| > 1 && s[1] == '\n' then s[2..] else s[1..];
      NoReturns(rest);
      assert s == [s[0]] + s[1..];
    }
  }

  lemma {:induction false} SplitLinesBreakFree(s: string)
    requires '\r' !in s
    ensures AllBreakFree(SplitLines(s))
  {
    if s != "" {
      assert s == [s[0]] + s[1..];
      SplitLinesBreakFree(s[1..]);
      var rest := SplitLines(s[1..]);
      assert rest != [] ==> rest[0] in rest;
      assert rest != [] ==> forall l :: l in rest[1..] ==> l in rest;
    }
  }

  lemma LinesReadAreBreakFree(text: string)
    ensures AllBreakFree(ReadLines(text))
  {
    NoReturns(text);
    SplitLinesBreakFree(UniversalNewlines(text));
  }

  lemma {:induction false} FirstLine(l: string, t: string)
    requires BreakFree(l)
    ensures SplitLines(l + "\n" + t) == [l] + SplitLines(t)
  {
    var s := l + "\n" + t;
    if l == "" {
      assert s[1..] == t;
    } else {
      assert s[1..] == l[1..] + "\n" + t;
      assert l[0] in l && forall c :: c in l[1..] ==> c in l;
      FirstLine(l[1..], t);
      var rest := SplitLines(s[1..]);
      assert rest[0] == l[1..] && rest[1..] == SplitLines(t);
      assert l == [l[0]] + l[1..];
    }
  }

  lemma {:induction false} UnlinesRead(lines: seq<string>)
    requires lines != [] && AllBreakFree(lines)
    ensures '\r' !in Unlines(lines) && SplitLines(Unlines(lines)) == lines
  {
    assert lines[0] in lines;
    FirstLine(lines[0], "");
    if |lines| == 1 {
      assert Unlines(lines) == lines[0] + "\n" + "";
      assert lines == [lines[0]];
    } else {
      var rest := lines[1..];
      assert forall l :: l in rest ==> l in lines;
      UnlinesRead(rest);
      FirstLine(lines[0], Unlines(rest));
      assert Unlines(lines) == lines[0] + "\n" + Unlines(rest);
      assert lines == [lines[0]] + rest;
    }
  }

  // Writing lines and reading them again gives the same lines, if none holds a line break.
  lemma WrittenIsRead(lines: seq<string>)
    requires lines != [] && AllBreakFree(lines)
    ensures ReadLines(Unlines(lines)) == lines
  {
    UnlinesRead(lines);
    NoReturns(Unlines(lines));
  }

  // Where a line ends: at any one of the breaks, a carriage return before a newline being part
  // of the same break.
  lemma {:induction false} LineEnds(l: string, end: string, t: string)
    requires BreakFree(l)
    requires || end in ["\n", "\U{0B}", "\U{0C}", "\U{1C}", "\U{1D}", "\U{1E}", "\U{85}", "\U{2028}", "\U{2029}"]
             || end == "\r\n" || (end == "\r" && (t == "" || t[0] != '\n'))
    ensures ReadLines(l + end + t) == [l] + ReadLines(t)
  {
    var s := l + end + t;
    if l == "" {
      assert s == end + t;
      if end == "\r\n" { assert s[2..] == t; } else { assert s[1..] == t; }
    } else {
      assert s[0] == l[0] && s[1..] == l[1..] + end + t;
      assert l[0] in l && forall c :: c in l[1..] ==> c in l;
      LineEnds(l[1..], end, t);
      var rest := ReadLines(s[1..]);
      assert rest[0] == l[1..] && rest[1..] == ReadLines(t);
      assert UniversalNewlines(s) == [s[0]] + UniversalNewlines(s[1..]);
      assert ReadLines(s) == [[s[0]] + rest[0]] + rest[1..];
      assert l == [l[0]] + l[1..];
    }
  }

  // ---- one setting -----------------------------------------------------------------------------

  datatype Setting = Setting(key: string, value: string)

  predicate Sets(line: string, key: string) {
    key + "=" <= line
  }

  function LineOf(s: Setting): string {
    s.key + "=" + s.value
  }

  function Rewrite(lines: seq<string>, s: Setting): seq<string> {
    if lines == [] then [LineOf(s)]
    else if Sets(lines[0], s.key) then [LineOf(s)] + lines[1..]
    else [lines[0]] + Rewrite(lines[1..], s)
  }

  // The value of the first line that sets the key.
  function Value(lines: seq<string>, key: string): Option<string> {
    if lines == [] then None
    else if Sets(lines[0], key) then Some(lines[0][|key| + 1..])
    else Value(lines[1..], key)
  }

  class EnvFile {
    var text: string

    constructor (text: string)
      ensures this.text == text
    {
      this.text := text;
    }

    method ReplaceLine(key: string, value: string)
      modifies this
      ensures text == Unlines(Rewrite(ReadLines(old(text)), Setting(key, value)))
    {
      var lines := ReadLines(text);
      var replacement := key + "=" + value;
      var index := 0;
      while index < |lines| && !Sets(lines[index], key)
        invariant 0 <= index <= |lines|
        invariant Rewrite(lines, Setting(key, value)) == lines[..index] + Rewrite(lines[index..], Setting(key, value))
      {
        assert lines[index..][1..] == lines[index + 1..];
        index := index + 1;
      }
      if index < |lines| {
        assert lines[index := replacement] == lines[..index] + ([replacement] + lines[index..][1..]);
        lines := lines[index := replacement];
      } else {
        assert lines[index..] == [] && lines[..index] == lines;
        lines := lines + [replacement];
      }
      text := Unlines(lines);
    }

    // main, as far as the env file goes: find the database path, then six rewrites.
    method Configure(senders: string, explicit: Option<string>, expand: string -> string)
      modifies this
      ensures text == WriteAll(old(text), FamilySettings(senders, DatabasePath(ReadLines(old(text)), explicit, expand)))
    {
      var settings := FamilySettings(senders, DatabasePath(ReadLines(text), explicit, expand));
      for k := 0 to |settings|
        invariant text == WriteAll(old(text), settings[..k])
      {
        assert settings[..k + 1][..k] == settings[..k];
        ReplaceLine(settings[k].key, settings[k].value);
      }
      assert settings[..|settings|] == settings;
    }
  }

  // One rewrite after another, each reading the text that the one before wrote.
  function WriteAll(text: string, settings: seq<Setting>): string {
    if settings == [] then text
    else
      var n := |settings| - 1;
      Unlines(Rewrite(ReadLines(WriteAll(text, settings[..n])), settings[n]))
  }

  // A key without an equals sign, and no line breaks.
  ghost predicate PlainSetting(s: Setting) {
    '=' !in s.key && BreakFree(s.key) && BreakFree(s.value)
  }

  ghost predicate AllPlain(settings: seq<Setting>) {
    forall s :: s in settings ==> PlainSetting(s)
  }

  function RewriteAll(lines: seq<string>, settings: seq<Setting>): seq<string> {
    if settings == [] then lines
    else Rewrite(RewriteAll(lines, settings[..|settings| - 1]), settings[|settings| - 1])
  }

  lemma {:induction false} RewriteBreakFree(lines: seq<string>, s: Setting)
    requires AllBreakFree(lines) && BreakFree(s.key) && BreakFree(s.value)
    ensures AllBreakFree(Rewrite(lines, s)) && Rewrite(lines, s) != []
  {
    assert BreakFree(LineOf(s));
    if lines != [] {
      assert lines[0] in lines && forall l :: l in lines[1..] ==> l in lines;
      RewriteBreakFree(lines[1..], s);
    }
  }

  lemma {:induction false} RewriteAllBreakFree(lines: seq<string>, settings: seq<Setting>)
    requires AllBreakFree(lines) && AllPlain(settings)
    ensures AllBreakFree(RewriteAll(lines, settings)) && (settings != [] ==> RewriteAll(lines, settings) != [])
  {
    if settings != [] {
      var n := |settings| - 1;
      assert settings[n] in settings && forall s :: s in settings[..n] ==> s in settings;
      RewriteAllBreakFree(lines, settings[..n]);
      RewriteBreakFree(RewriteAll(lines, settings[..n]), settings[n]);
    }
  }

  // Without line breaks the texts in between do not matter: only their lines do.
  lemma {:induction false} WriteAllLines(text: string, settings: seq<Setting>)
    requires AllPlain(settings)
    ensures ReadLines(WriteAll(text, settings)) == RewriteAll(ReadLines(text), settings)
    ensures settings != [] ==> WriteAll(text, settings) == Unlines(RewriteAll(ReadLines(text), settings))
  {
    if settings != [] {
      var n := |settings| - 1;
      assert settings[n] in settings && forall s :: s in settings[..n] ==> s in settings;
      WriteAllLines(text, settings[..n]);
      LinesReadAreBreakFree(text);
      RewriteAllBreakFree(ReadLines(text), settings);
      WrittenIsRead(RewriteAll(ReadLines(text), settings));
    }
  }

  // ---- what a rewrite does -------------------------------------------------------------------------

  ghost predicate FirstSets(lines: seq<string>, key: string, i: int) {
    0 <= i < |lines| && Sets(lines[i], key) && forall j :: 0 <= j < i ==> !Sets(lines[j], key)
  }

  // A rewrite replaces the first line that sets the key, in place; if there is none it adds
  // one at the end. No other line changes or moves.
  lemma {:induction false} RewriteInPlace(lines: seq<string>, s: Setting)
    ensures (forall j :: 0 <= j < |lines| ==> !Sets(lines[j], s.key)) ==> Rewrite(lines, s) == lines + [LineOf(s)]
    ensures forall i :: FirstSets(lines, s.key, i) ==> Rewrite(lines, s) == lines[i := LineOf(s)]
  {
    if lines != [] && !Sets(lines[0], s.key) {
      var rest := lines[1..];
      RewriteInPlace(rest, s);
      assert lines == [lines[0]] + rest;
      assert forall j :: 0 <= j < |rest| ==> rest[j] == lines[j + 1];
      forall i | FirstSets(lines, s.key, i) ensures Rewrite(lines, s) == lines[i := LineOf(s)] {
        assert forall j :: 0 <= j < i - 1 ==> rest[j] == lines[j + 1];
        assert FirstSets(rest, s.key, i - 1);
        assert lines[i := LineOf(s)] == [lines[0]] + rest[i - 1 := LineOf(s)];
      }
    } else if lines != [] {
      assert lines[0 := LineOf(s)] == [LineOf(s)] + lines[1..];
    }
  }

  lemma KeysDoNotOverlap(line: string, a: string, b: string)
    requires '=' !in a && '=' !in b && Sets(line, a) && Sets(line, b)
    ensures a == b
  {
    assert line[|a|] == '=' && line[|b|] == '=';
    assert forall i :: 0 <= i < |a| ==> a[i] == line[i] && a[i] in a;
    assert forall i :: 0 <= i < |b| ==> b[i] == line[i] && b[i] in b;
    assert |a| == |b|;
  }

  lemma LineSets(s: Setting)
    ensures Sets(LineOf(s), s.key) && LineOf(s)[|s.key| + 1..] == s.value
  {
    assert LineOf(s)[..|s.key| + 1] == s.key + "=";
  }

  // The key then has the value; every other key has the value it had.
  lemma {:induction false} RewriteSets(lines: seq<string>, s: Setting, key: string)
    requires '=' !in s.key && '=' !in key
    ensures Value(Rewrite(lines, s), key) == if key == s.key then Some(s.value) else Value(lines, key)
  {
    LineSets(s);
    if Sets(LineOf(s), key) { KeysDoNotOverlap(LineOf(s), s.key, key); }
    if lines != [] {
      if Sets(lines[0], s.key) && Sets(lines[0], key) { KeysDoNotOverlap(lines[0], s.key, key); }
      RewriteSets(lines[1..], s, key);
    }
  }

  lemma {:induction false} RewriteNothing(lines: seq<string>, s: Setting)
    requires Value(lines, s.key) == Some(s.value)
    ensures Rewrite(lines, s) == lines
  {
    assert lines == [lines[0]] + lines[1..];
    if Sets(lines[0], s.key) {
      assert lines[0][..|s.key| + 1] == s.key + "=";
      assert lines[0] == lines[0][..|s.key| + 1] + lines[0][|s.key| + 1..];
    } else {
      RewriteNothing(lines[1..], s);
    }
  }

  // ---- the sequence of rewrites -----------------------------------------------------------------------

  ghost predicate DistinctKeys(settings: seq<Setting>) {
    forall i, j :: 0 <= i < j < |settings| ==> settings[i].key != settings[j].key
  }

  lemma {:induction false} RewriteAllSets(lines: seq<string>, settings: seq<Setting>, i: nat)
    requires AllPlain(settings) && DistinctKeys(settings) && i < |settings|
    ensures Value(RewriteAll(lines, settings), settings[i].key) == Some(settings[i].value)
    decreases |settings|
  {
    var n := |settings| - 1;
    assert settings[n] in settings && settings[i] in settings;
    RewriteSets(RewriteAll(lines, settings[..n]), settings[n], settings[i].key);
    if i < n {
      assert forall s :: s in settings[..n] ==> s in settings;
      RewriteAllSets(lines, settings[..n], i);
    }
  }

  // A key that no setting names reads as before.
  ghost predicate Unnamed(settings: seq<Setting>, key: string) {
    '=' !in key && forall s :: s in settings ==> s.key != key
  }

  lemma {:induction false} RewriteAllKeeps(lines: seq<string>, settings: seq<Setting>, key: string)
    requires AllPlain(settings) && Unnamed(settings, key)
    ensures Value(RewriteAll(lines, settings), key) == Value(lines, key)
  {
    if settings != [] {
      var n := |settings| - 1;
      assert settings[n] in settings && forall s :: s in settings[..n] ==> s in settings;
      RewriteAllKeeps(lines, settings[..n], key);
      RewriteSets(RewriteAll(lines, settings[..n]), settings[n], key);
    }
  }

  lemma {:induction false} RewriteAllNothing(lines: seq<string>, settings: seq<Setting>)
    requires forall i :: 0 <= i < |settings| ==> Value(lines, settings[i].key) == Some(settings[i].value)
    ensures RewriteAll(lines, settings) == lines
  {
    if settings != [] {
      var n := |settings| - 1;
      RewriteAllNothing(lines, settings[..n]);
      RewriteNothing(lines, settings[n]);
    }
  }

  // Repeating the sequence changes nothing.
  lemma RewriteAllTwice(lines: seq<string>, settings: seq<Setting>)
    requires AllPlain(settings) && DistinctKeys(settings)
    ensures RewriteAll(RewriteAll(lines, settings), settings) == RewriteAll(lines, settings)
  {
    forall i | 0 <= i < |settings|
      ensures Value(RewriteAll(lines, settings), settings[i].key) == Some(settings[i].value)
    {
      RewriteAllSets(lines, settings, i);
    }
    RewriteAllNothing(RewriteAll(lines, settings), settings);
  }

  // The lines that set none of the keys.
  function Others(lines: seq<string>, settings: seq<Setting>): seq<string> {
    if lines == [] then []
    else
      var named := exists i :: 0 <= i < |settings| && Sets(lines[0], settings[i].key);
      (if named then [] else [lines[0]]) + Others(lines[1..], settings)
  }

  lemma {:induction false} RewriteKeepsOthers(lines: seq<string>, s: Setting, settings: seq<Setting>)
    requires s in settings
    ensures Others(Rewrite(lines, s), settings) == Others(lines, settings)
  {
    LineSets(s);
    var i :| 0 <= i < |settings| && settings[i] == s;
    assert Sets(LineOf(s), settings[i].key);
    if lines == [] {
      assert [LineOf(s)][1..] == [];
    } else if Sets(lines[0], s.key) {
      assert Sets(lines[0], settings[i].key);
      assert ([LineOf(s)] + lines[1..])[1..] == lines[1..];
    } else {
      RewriteKeepsOthers(lines[1..], s, settings);
      assert ([lines[0]] + Rewrite(lines[1..], s))[1..] == Rewrite(lines[1..], s);
    }
  }

  // The lines that set none of the keys keep their content and order.
  lemma {:induction false} RewriteAllKeepsOthers(lines: seq<string>, some: seq<Setting>, settings: seq<Setting>)
    requires forall s :: s in some ==> s in settings
    ensures Others(RewriteAll(lines, some), settings) == Others(lines, settings)
  {
    if some != [] {
      var n := |some| - 1;
      assert some[n] in some && forall s :: s in some[..n] ==> s in some;
      RewriteAllKeepsOthers(lines, some[..n], settings);
      RewriteKeepsOthers(RewriteAll(lines, some[..n]), some[n], settings);
    }
  }

  // The characters that end a line.
  const LINE_ENDS := {'\n', '\r', '\U{0B}', '\U{0C}', '\U{1C}', '\U{1D}', '\U{1E}', '\U{85}', '\U{2028}', '\U{2029}'}

  // A value written to the file is read back if and only if it holds no line break.
  lemma ValueIsReadBackExactly(text: string, s: Setting)
    requires '=' !in s.key && BreakFree(s.key)
    ensures Value(ReadLines(Unlines(Rewrite(ReadLines(text), s))), s.key) == Some(s.value) <==>
      forall c :: c in s.value ==> c !in LINE_ENDS
  {
    assert BreakFree(s.value) <==> forall c :: c in s.value ==> c !in LINE_ENDS;
    var lines := ReadLines(text);
    LinesReadAreBreakFree(text);
    if BreakFree(s.value) {
      RewriteBreakFree(lines, s);
      WrittenIsRead(Rewrite(lines, s));
      RewriteSets(lines, s, s.key);
    } else {
      var again := ReadLines(Unlines(Rewrite(lines, s)));
      LinesReadAreBreakFree(Unlines(Rewrite(lines, s)));
      ValueBreakFree(again, s.key);
    }
  }

  lemma {:induction false} ValueBreakFree(lines: seq<string>, key: string)
    requires AllBreakFree(lines)
    ensures Value(lines, key).Some? ==> BreakFree(Value(lines, key).value)
  {
    if lines != [] {
      assert lines[0] in lines && forall l :: l in lines[1..] ==> l in lines;
      assert Sets(lines[0], key) ==> forall c :: c in lines[0][|key| + 1..] ==> c in lines[0];
      ValueBreakFree(lines[1..], key);
    }
  }

  // ---- the identity database path ---------------------------------------------------------------------

  const DATABASE_KEY := "IDENTITY_DATABASE_PATH"
  const DEFAULT_DATABASE := "/Users/freyja/.local/state/freyja/identity.sqlite3"

  function FamilySettings(senders: string, path: string): seq<Setting> {
    [Setting("IMESSAGE_ALLOWED_SENDERS", senders), Setting("IDENTITY_PROVIDER", "sqlite"), Setting(DATABASE_KEY, path),
     Setting("IDENTITY_SEED_FALLBACK", "true"), Setting("IMESSAGE_AGENT_ROUTING_MODE", "fixed"),
     Setting("IMESSAGE_FIXED_AGENT_ID", "freyja")]
  }

  // The first line with a value that is not blank; `expand` stands for expanduser.
  function ConfiguredPath(lines: seq<string>, expand: string -> string): string {
    if lines == [] then DEFAULT_DATABASE
    else if Sets(lines[0], DATABASE_KEY) && Trim(lines[0][|DATABASE_KEY| + 1..]) != ""
      then expand(Trim(lines[0][|DATABASE_KEY| + 1..]))
    else ConfiguredPath(lines[1..], expand)
  }

  function DatabasePath(lines: seq<string>, explicit: Option<string>, expand: string -> string): string {
    if explicit.Some? then explicit.value else ConfiguredPath(lines, expand)
  }

  // The line names a database path that is not blank.
  predicate NamesPath(line: string) {
    "IDENTITY_DATABASE_PATH=" <= line && Trim(line[23..]) != ""
  }

  lemma NamesPathIsSet(line: string)
    ensures NamesPath(line) <==> Sets(line, DATABASE_KEY) && Trim(line[|DATABASE_KEY| + 1..]) != ""
  {
    assert DATABASE_KEY + "=" == "IDENTITY_DATABASE_PATH=";
  }

  // The path is that of the first line that names one.
  lemma {:induction false} PathFound(lines: seq<string>, i: nat, expand: string -> string)
    requires i < |lines| && NamesPath(lines[i]) && forall j :: 0 <= j < i ==> !NamesPath(lines[j])
    ensures DatabasePath(lines, None, expand) == expand(Trim(lines[i][23..]))
    decreases i
  {
    NamesPathIsSet(lines[0]);
    if i > 0 { PathFound(lines[1..], i - 1, expand); }
  }

  // When no line names one it is the default, and an explicit one goes before them all.
  lemma {:induction false} NoPathFound(lines: seq<string>, explicit: string, expand: string -> string)
    ensures DatabasePath(lines, Some(explicit), expand) == explicit
    ensures (forall j :: 0 <= j < |lines| ==> !NamesPath(lines[j])) ==>
      DatabasePath(lines, None, expand) == "/Users/freyja/.local/state/freyja/identity.sqlite3"
  {
    if lines != [] {
      NamesPathIsSet(lines[0]);
      assert forall j :: 1 <= j < |lines| ==> lines[j] == lines[1..][j - 1];
      NoPathFound(lines[1..], explicit, expand);
    }
  }

  lemma {:induction false} ConfiguredIsFirst(lines: seq<string>, expand: string -> string)
    requires Value(lines, DATABASE_KEY).Some? && Trim(Value(lines, DATABASE_KEY).value) != ""
    ensures ConfiguredPath(lines, expand) == expand(Trim(Value(lines, DATABASE_KEY).value))
  {
    if !Sets(lines[0], DATABASE_KEY) { ConfiguredIsFirst(lines[1..], expand); }
  }

  // After the rewrites the path read back is the path written, trimmed and expanded; so it is
  // the path written if and only if trimming and expanding leave that alone.
  lemma PathIsReadBack(lines: seq<string>, senders: string, path: string, expand: string -> string)
    requires BreakFree(senders) && BreakFree(path) && Trim(path) != ""
    ensures var after := RewriteAll(lines, FamilySettings(senders, path));
      && DatabasePath(after, None, expand) == expand(Trim(path))
      && (DatabasePath(after, None, expand) == path <==> expand(Trim(path)) == path)
  {
    PathIsWritten(lines, senders, path);
    ConfiguredIsFirst(RewriteAll(lines, FamilySettings(senders, path)), expand);
  }

  lemma PathIsWritten(lines: seq<string>, senders: string, path: string)
    requires BreakFree(senders) && BreakFree(path)
    ensures Value(RewriteAll(lines, FamilySettings(senders, path)), DATABASE_KEY) == Some(path)
  {
    FamilySettingsPlain(senders, path);
    RewriteAllSets(lines, FamilySettings(senders, path), 2);
  }

  predicate Upper(s: string) {
    forall i :: 0 <= i < |s| ==> 'A' <= s[i] <= '_'
  }

  lemma UpperIsPlain(s: Setting)
    requires Upper(s.key) && BreakFree(s.value)
    ensures PlainSetting(s)
  {
  }

  lemma FamilyKeysDiffer(senders: string, path: string)
    ensures DistinctKeys(FamilySettings(senders, path))
  {
    assert DATABASE_KEY[9] == 'D' && "IDENTITY_SEED_FALLBACK"[9] == 'S';
  }

  lemma IdentityKeysAreUpper()
    ensures Upper("IDENTITY_PROVIDER") && Upper(DATABASE_KEY) && Upper("IDENTITY_SEED_FALLBACK")
  {
  }

  lemma MessageKeysAreUpper()
    ensures Upper("IMESSAGE_ALLOWED_SENDERS") && Upper("IMESSAGE_AGENT_ROUTING_MODE")
    ensures Upper("IMESSAGE_FIXED_AGENT_ID")
  {
  }

  lemma FixedValuesBreakFree()
    ensures BreakFree("sqlite") && BreakFree("true") && BreakFree("fixed") && BreakFree("freyja")
  {
  }

  lemma SixPlain(a: Setting, b: Setting, c: Setting, d: Setting, e: Setting, f: Setting)
    requires PlainSetting(a) && PlainSetting(b) && PlainSetting(c) && PlainSetting(d) && PlainSetting(e)
    requires PlainSetting(f)
    ensures AllPlain([a, b, c, d, e, f])
  {
  }

  lemma FamilySettingsPlain(senders: string, path: string)
    requires BreakFree(senders) && BreakFree(path)
    ensures AllPlain(FamilySettings(senders, path)) && DistinctKeys(FamilySettings(senders, path))
  {
    FamilyKeysDiffer(senders, path);
    IdentityKeysAreUpper();
    MessageKeysAreUpper();
    FixedValuesBreakFree();
    var s := FamilySettings(senders, path);
    UpperIsPlain(s[0]);
    UpperIsPlain(s[1]);
    UpperIsPlain(s[2]);
    UpperIsPlain(s[3]);
    UpperIsPlain(s[4]);
    UpperIsPlain(s[5]);
    SixPlain(s[0], s[1], s[2], s[3], s[4], s[5]);
  }

  // The file after the six rewrites: each key reads back its value, the lines that set none
  // of the keys keep their content and order, and repeating the rewrites changes nothing.
  lemma ConfiguredFile(text: string, senders: string, path: string)
    requires BreakFree(senders) && BreakFree(path)
    ensures var settings := FamilySettings(senders, path);
      var after := WriteAll(text, settings);
      && (forall s :: s in settings ==> Value(ReadLines(after), s.key) == Some(s.value))
      && (forall key :: Unnamed(settings, key) ==> Value(ReadLines(after), key) == Value(ReadLines(text), key))
      && Others(ReadLines(after), settings) == Others(ReadLines(text), settings)
      && WriteAll(after, settings) == after
  {
    var settings := FamilySettings(senders, path);
    FamilySettingsPlain(senders, path);
    WriteAllLines(text, settings);
    WriteAllLines(WriteAll(text, settings), settings);
    forall s | s in settings ensures Value(ReadLines(WriteAll(text, settings)), s.key) == Some(s.value) {
      var i :| 0 <= i < |settings| && settings[i] == s;
      RewriteAllSets(ReadLines(text), settings, i);
    }
    forall key | Unnamed(settings, key)
      ensures Value(ReadLines(WriteAll(text, settings)), key) == Value(ReadLines(text), key)
    {
      RewriteAllKeeps(ReadLines(text), settings, key);
    }
    RewriteAllKeepsOthers(ReadLines(text), settings, settings);
    RewriteAllTwice(ReadLines(text), settings);
  }

  // What the six settings are afterwards.
  lemma ConfiguredValues(text: string, senders: string, path: string)
    requires BreakFree(senders) && BreakFree(path)
    ensures var lines := ReadLines(WriteAll(text, FamilySettings(senders, path)));
      && Value(lines, "IMESSAGE_ALLOWED_SENDERS") == Some(senders)
      && Value(lines, "IDENTITY_PROVIDER") == Some("sqlite")
      && Value(lines, "IDENTITY_DATABASE_PATH") == Some(path)
      && Value(lines, "IDENTITY_SEED_FALLBACK") == Some("true")
      && Value(lines, "IMESSAGE_AGENT_ROUTING_MODE") == Some("fixed")
      && Value(lines, "IMESSAGE_FIXED_AGENT_ID") == Some("freyja")
  {
    var settings := FamilySettings(senders, path);
    ConfiguredFile(text, senders, path);
    assert settings[0] in settings && settings[1] in settings && settings[2] in settings;
    assert settings[3] in settings && settings[4] in settings && settings[5] in settings;
  }

  // Configuring twice is configuring once if and only if trimming and expanding leave the
  // first path alone: the second run writes the path it finds so.
  lemma ConfiguringAgain(text: string, senders: string, explicit: Option<string>, expand: string -> string)
    requires var path := DatabasePath(ReadLines(text), explicit, expand);
      BreakFree(senders) && BreakFree(path) && Trim(path) != "" && BreakFree(expand(Trim(path)))
    ensures var path := DatabasePath(ReadLines(text), explicit, expand);
      var once := WriteAll(text, FamilySettings(senders, path));
      WriteAll(once, FamilySettings(senders, DatabasePath(ReadLines(once), None, expand))) == once <==>
        expand(Trim(path)) == path
  {
    var path := DatabasePath(ReadLines(text), explicit, expand);
    var once := WriteAll(text, FamilySettings(senders, path));
    PathIsStored(text, senders, path);
    FamilySettingsPlain(senders, path);
    WriteAllLines(text, FamilySettings(senders, path));
    PathIsReadBack(ReadLines(text), senders, path, expand);
    if expand(Trim(path)) == path {
      ConfiguredFile(text, senders, path);
    } else {
      PathIsStored(once, senders, expand(Trim(path)));
    }
  }

  lemma PathIsStored(text: string, senders: string, path: string)
    requires BreakFree(senders) && BreakFree(path)
    ensures Value(ReadLines(WriteAll(text, FamilySettings(senders, path))), DATABASE_KEY) == Some(path)
  {
    FamilySettingsPlain(senders, path);
    WriteAllLines(text, FamilySettings(senders, path));
    PathIsWritten(ReadLines(text), senders, path);
  }
}
