/**
 * The `.env` update of `setup_google_sheets` (scripts/setup_google_sheets.py):
 * the file is read line by line into an insertion-ordered dictionary, the
 * spreadsheet id and the credentials path are set, and the dictionary is
 * written back one `key=value` line per entry. A dictionary is a sequence of
 * pairs with distinct keys, in insertion order; the file system is a map from
 * path to text.
 */
module EnvFile {
  import opened Wrappers
  import opened Strings

  type Env = seq<(string, string)>

  const EnvPath: string := ".env"
  const EnvExamplePath: string := "env.example"
  const IdKey: string := "GOOGLE_SHEETS_ID"
  const CredentialsKey: string := "GOOGLE_SHEETS_CREDENTIALS_PATH"
  const CredentialsFile: string := "credentials.json"

  // ---- the insertion-ordered dictionary

  /** No key occurs twice. */
  predicate Distinct(d: Env) {
    forall i, j :: 0 <= i < j < |d| ==> d[i].0 != d[j].0
  }

  /** The position of key `k`, or -1. */
  function IndexOf(d: Env, k: string): (i: int)
    ensures -1 <= i < |d|
    ensures i == -1 <==> forall j :: 0 <= j < |d| ==> d[j].0 != k
    ensures i >= 0 ==> d[i].0 == k && forall j :: 0 <= j < i ==> d[j].0 != k
  {
    if d == [] then -1
    else if d[|d| - 1].0 == k && IndexOf(d[..|d| - 1], k) == -1 then |d| - 1
    else IndexOf(d[..|d| - 1], k)
  }

  /** `d[k]`, or none. */
  function Lookup(d: Env, k: string): Option<string> {
    var i := IndexOf(d, k);
    if i == -1 then None else Some(d[i].1)
  }

  /** `d[k] = v`: an existing key keeps its position, a new one goes last. */
  function Set(d: Env, k: string, v: string): Env {
    var i := IndexOf(d, k);
    if i == -1 then d + [(k, v)] else d[i := (k, v)]
  }

  /**
   * After `d[k] = v`, `k` maps to `v` and every other key to what it did;
   * the keys already there keep their places, a new key is appended, and
   * keys stay distinct.
   */
  lemma SetSpec(d: Env, k: string, v: string)
    requires Distinct(d)
    ensures var r := Set(d, k, v);
      Distinct(r) &&
      (forall k' :: Lookup(r, k') == if k' == k then Some(v) else Lookup(d, k')) &&
      (forall i :: 0 <= i < |d| ==> r[i].0 == d[i].0) &&
      (Lookup(d, k).Some? ==> |r| == |d|) &&
      (Lookup(d, k).None? ==> r == d + [(k, v)])
  {
    forall k' ensures Lookup(Set(d, k, v), k') == if k' == k then Some(v) else Lookup(d, k') {
      IndexAfterSet(d, k, v, k');
    }
  }

  /** Where a key sits after `d[k] = v`: `k` at its old place or last, any other key where it was. */
  lemma IndexAfterSet(d: Env, k: string, v: string, k': string)
    ensures var i0 := IndexOf(d, k);
      IndexOf(Set(d, k, v), k') == if k' != k then IndexOf(d, k') else if i0 == -1 then |d| else i0
  {
    var r := Set(d, k, v);
    var i0 := IndexOf(d, k);
    assert forall j :: 0 <= j < |d| ==> r[j].0 == d[j].0;
    if i0 == -1 {
      assert r[|d|].0 == k;
    }
  }

  // ---- reading

  /**
   * One line of the file: ignored when, stripped, it is empty, starts with
   * '#' or has no '='; otherwise split at its first '='.
   */
  function ParseLine(line: string): Option<(string, string)> {
    SplitEntry(Trim(line))
  }

  /**
   * A line is ignored exactly when, stripped, it is empty, a comment or has
   * no '='; otherwise the key is what precedes its first '=' and the value
   * the rest.
   */
  lemma ParseLineSpec(line: string)
    ensures var e := ParseLine(line);
      (e.None? <==> (Trim(line) == [] || Trim(line)[0] == '#' || '=' !in Trim(line))) &&
      (e.Some? ==> '=' !in e.value.0 && Trim(line) == e.value.0 + "=" + e.value.1)
  {
  }

  /** A stripped line as an entry: `line.split('=', 1)` unless it is empty, a comment or has no '='. */
  function SplitEntry(s: string): (e: Option<(string, string)>)
    ensures e.None? <==> (s == [] || s[0] == '#' || '=' !in s)
    ensures e.Some? ==> '=' !in e.value.0 && s == e.value.0 + "=" + e.value.1
  {
    if s == [] || s[0] == '#' || '=' !in s then None
    else
      var i := FirstIndex(s, '=');
      assert s == s[..i] + "=" + s[i + 1..];
      Some((s[..i], s[i + 1..]))
  }

  /** The position of the first `c` in `s`. */
  function FirstIndex(s: string, c: char): (i: nat)
    requires c in s
    ensures i < |s| && s[i] == c && c !in s[..i]
  {
    if s[0] == c then 0 else 1 + FirstIndex(s[1..], c)
  }

  /** What one line contributes: nothing, or a key and its value. */
  type Setting = Option<(string, string)>

  /** The setting of each line, in order. */
  function Settings(lines: seq<string>): (es: seq<Setting>)
    ensures |es| == |lines| && forall i :: 0 <= i < |lines| ==> es[i] == ParseLine(lines[i])
  {
    seq(|lines|, i requires 0 <= i < |lines| => ParseLine(lines[i]))
  }

  /** The dictionary after the settings read so far. */
  function Build(es: seq<Setting>): Env {
    if es == [] then []
    else
      var d := Build(es[..|es| - 1]);
      match es[|es| - 1]
      case None => d
      case Some(e) => Set(d, e.0, e.1)
  }

  /** The dictionary after the lines read so far. */
  function ParseLines(lines: seq<string>): Env {
    Build(Settings(lines))
  }

  /** The lines a text file yields: each up to and including its '\n', and a last unterminated one. */
  function Lines(text: string): (ls: seq<string>)
    ensures forall i :: 0 <= i < |ls| ==> ls[i] != [] && '\n' !in ls[i][..|ls[i]| - 1]
    decreases |text|
  {
    if text == [] then []
    else if '\n' !in text then [text]
    else
      var i := FirstIndex(text, '\n');
      [text[..i + 1]] + Lines(text[i + 1..])
  }

  /** The dictionary a file's text reads as. */
  function ParseEnv(text: string): Env {
    ParseLines(Lines(text))
  }

  /** The reading loop of `setup_google_sheets`. */
  method ReadEnv(text: string) returns (env: Env)
    ensures env == ParseEnv(text)
  {
    var lines := Lines(text);
    ghost var es := Settings(lines);
    env := [];
    for i := 0 to |lines|
      invariant env == Build(es[..i])
    {
      assert es[..i + 1][..i] == es[..i];
      var e := ParseLine(lines[i]);
      assert e == es[i];
      if e.Some? {
        env := Set(env, e.value.0, e.value.1);
      }
    }
    assert es[..|lines|] == es;
  }

  /** Whether a setting is one of key `k`. */
  predicate SetsKey(e: Setting, k: string) {
    e.Some? && e.value.0 == k
  }

  /** No setting after `es[i]` is of `k`. */
  predicate LastSetting(es: seq<Setting>, i: int, k: string)
    requires 0 <= i < |es|
  {
    forall j :: i < j < |es| ==> !SetsKey(es[j], k)
  }

  /** Some setting gives `k` the value `v` and none after it is of `k`. */
  predicate SetsLast(es: seq<Setting>, k: string, v: string) {
    exists i :: 0 <= i < |es| && es[i] == Some((k, v)) && LastSetting(es, i, k)
  }

  /** A setting before the last is the last of `k` when it is so among the earlier ones and the last is not of `k`. */
  lemma LastSettingInit(es: seq<Setting>, i: int, k: string)
    requires 0 <= i < |es| - 1
    ensures LastSetting(es, i, k) <==> LastSetting(es[..|es| - 1], i, k) && !SetsKey(es[|es| - 1], k)
  {
    var init := es[..|es| - 1];
    assert forall j :: i < j < |init| ==> es[j] == init[j];
  }

  /** Reading never yields a key twice. */
  lemma {:induction false} BuildDistinct(es: seq<Setting>)
    ensures Distinct(Build(es))
    decreases |es|
  {
    if es != [] {
      BuildDistinct(es[..|es| - 1]);
      var e := es[|es| - 1];
      if e.Some? {
        SetSpec(Build(es[..|es| - 1]), e.value.0, e.value.1);
      }
    }
  }

  /** The dictionary built holds of each key the value of its last setting. */
  lemma {:induction false} BuildLookup(es: seq<Setting>, k: string, v: string)
    ensures Lookup(Build(es), k) == Some(v) <==> SetsLast(es, k, v)
    decreases |es|
  {
    if es != [] {
      BuildLookup(es[..|es| - 1], k, v);
      if SetsKey(es[|es| - 1], k) {
        LookupSetByLast(es, k, v);
      } else {
        LookupKeptPastLast(es, k, v);
      }
    }
  }

  /** A last setting of `k` decides its value. */
  lemma LookupSetByLast(es: seq<Setting>, k: string, v: string)
    requires es != [] && SetsKey(es[|es| - 1], k)
    ensures var w := es[|es| - 1].value.1;
      (Lookup(Build(es), k) == Some(v) <==> w == v) && (SetsLast(es, k, v) <==> w == v)
  {
    var init := es[..|es| - 1];
    var w := es[|es| - 1].value.1;
    BuildDistinct(init);
    SetSpec(Build(init), k, w);
    if w == v {
      assert LastSetting(es, |es| - 1, k);
    }
  }

  /** A last setting not of `k` leaves its value and its last setting where they were. */
  lemma LookupKeptPastLast(es: seq<Setting>, k: string, v: string)
    requires es != [] && !SetsKey(es[|es| - 1], k)
    ensures var init := es[..|es| - 1];
      Lookup(Build(es), k) == Lookup(Build(init), k) && (SetsLast(es, k, v) <==> SetsLast(init, k, v))
  {
    var init := es[..|es| - 1];
    BuildDistinct(init);
    var e := es[|es| - 1];
    if e.Some? {
      SetSpec(Build(init), e.value.0, e.value.1);
    }
    if SetsLast(es, k, v) {
      var i :| 0 <= i < |es| && es[i] == Some((k, v)) && LastSetting(es, i, k);
      LastSettingInit(es, i, k);
      assert init[i] == es[i];
    }
    if SetsLast(init, k, v) {
      var i :| 0 <= i < |init| && init[i] == Some((k, v)) && LastSetting(init, i, k);
      LastSettingInit(es, i, k);
      assert init[i] == es[i];
    }
  }

  /**
   * Reading lines: a key holds the value of the last line that sets it (a
   * later duplicate overwrites an earlier one), and no key occurs twice.
   */
  lemma ParseLinesLookup(lines: seq<string>, k: string, v: string)
    ensures Distinct(ParseLines(lines))
    ensures Lookup(ParseLines(lines), k) == Some(v) <==>
      exists i :: 0 <= i < |lines| && Settings(lines)[i] == Some((k, v)) &&
        forall j :: i < j < |lines| ==> !SetsKey(Settings(lines)[j], k)
  {
    var es := Settings(lines);
    BuildDistinct(es);
    BuildLookup(es, k, v);
  }

  // ---- the update

  /** `env_vars[GOOGLE_SHEETS_ID] = id` and `env_vars[GOOGLE_SHEETS_CREDENTIALS_PATH] = 'credentials.json'`. */
  function Updated(d: Env, spreadsheetId: string): Env {
    Set(Set(d, IdKey, spreadsheetId), CredentialsKey, CredentialsFile)
  }

  /**
   * The update sets the two keys, keeps every other key's value and every
   * existing key's place, and adds at most the two keys.
   */
  lemma UpdatedSpec(d: Env, spreadsheetId: string)
    requires Distinct(d)
    ensures var r := Updated(d, spreadsheetId);
      Distinct(r) &&
      Lookup(r, IdKey) == Some(spreadsheetId) &&
      Lookup(r, CredentialsKey) == Some(CredentialsFile) &&
      (forall k :: k != IdKey && k != CredentialsKey ==> Lookup(r, k) == Lookup(d, k)) &&
      (forall i :: 0 <= i < |d| ==> r[i].0 == d[i].0) &&
      |d| <= |r| <= |d| + 2
  {
    SetSpec(d, IdKey, spreadsheetId);
    SetSpec(Set(d, IdKey, spreadsheetId), CredentialsKey, CredentialsFile);
  }

  // ---- writing

  /** The line written for an entry. */
  function EntryLine(e: (string, string)): string {
    e.0 + "=" + e.1 + "\n"
  }

  /** The text written: one `key=value` line per entry, in order. */
  function Serialised(d: Env): string {
    if d == [] then "" else EntryLine(d[0]) + Serialised(d[1..])
  }

  /** The writing loop of `setup_google_sheets`. */
  method WriteEnv(d: Env) returns (text: string)
    ensures text == Serialised(d)
  {
    text := "";
    for i := 0 to |d|
      invariant text + Serialised(d[i..]) == Serialised(d)
    {
      assert d[i..][1..] == d[i + 1..];
      text := text + EntryLine(d[i]);
    }
  }

  // ---- the round trip

  /** Nothing to strip at either end. */
  predicate Stripped(s: string) {
    s == [] || (s[0] !in Whitespace && s[|s| - 1] !in Whitespace)
  }

  /** An entry that reads back as itself. */
  predicate WellFormed(e: (string, string)) {
    var s := e.0 + "=" + e.1;
    '=' !in e.0 && s[0] != '#' && '\n' !in s && Stripped(s)
  }

  /** A dictionary whose written text reads back as the dictionary. */
  predicate Writable(d: Env) {
    Distinct(d) && forall i :: 0 <= i < |d| ==> WellFormed(d[i])
  }

  /** A string with nothing to strip, followed by '\n', strips back to itself. */
  lemma TrimNewline(s: string)
    requires s != [] && Stripped(s)
    ensures Trim(s + "\n") == s
  {
    assert StripLeft(s + "\n", Whitespace) == s + "\n";
    assert (s + "\n")[..|s|] == s;
    assert StripRight(s + "\n", Whitespace) == StripRight(s, Whitespace);
    assert StripRight(s, Whitespace) == s;
  }

  /** What `strip` returns has nothing left to strip. */
  lemma TrimStripped(s: string)
    ensures Stripped(Trim(s))
  {
    StripEnds(s, Whitespace);
  }

  /** The written line of a well-formed entry parses back to that entry. */
  lemma EntryLineParses(e: (string, string))
    requires WellFormed(e)
    ensures ParseLine(EntryLine(e)) == Some(e)
  {
    var s := e.0 + "=" + e.1;
    assert EntryLine(e) == s + "\n";
    TrimNewline(s);
    EntryOfJoin(e.0, e.1);
  }

  /** `split('=', 1)` of `k=v` with no '=' in `k` gives back `k` and `v`. */
  lemma EntryOfJoin(k: string, v: string)
    requires '=' !in k && (k + "=" + v)[0] != '#'
    ensures SplitEntry(k + "=" + v) == Some((k, v))
  {
    var s := k + "=" + v;
    assert s[|k|] == '=';
    var i := FirstIndex(s, '=');
    assert s[..i] == k && s[i + 1..] == v;
  }

  /** A line ending in its only '\n' is the first line of whatever follows it. */
  lemma LinesCons(line: string, rest: string)
    requires line != [] && line[|line| - 1] == '\n' && '\n' !in line[..|line| - 1]
    ensures Lines(line + rest) == [line] + Lines(rest)
  {
    var t := line + rest;
    assert t[|line| - 1] == '\n';
    var i := FirstIndex(t, '\n');
    assert t[..i + 1] == line;
    assert t[i + 1..] == rest;
  }

  /** The lines of the written text are the entries' lines. */
  lemma {:induction false} LinesOfSerialised(d: Env)
    requires forall i :: 0 <= i < |d| ==> WellFormed(d[i])
    ensures Lines(Serialised(d)) == EntryLines(d)
  {
    if d != [] {
      EntryLineEnds(d[0]);
      LinesCons(EntryLine(d[0]), Serialised(d[1..]));
      LinesOfSerialised(d[1..]);
    }
  }

  /** The line of each entry, in order. */
  function EntryLines(d: Env): (ls: seq<string>)
    ensures |ls| == |d| && forall i :: 0 <= i < |d| ==> ls[i] == EntryLine(d[i])
  {
    if d == [] then [] else [EntryLine(d[0])] + EntryLines(d[1..])
  }

  /** The written line of a well-formed entry ends in its only '\n'. */
  lemma EntryLineEnds(e: (string, string))
    requires WellFormed(e)
    ensures var line := EntryLine(e);
      line != [] && line[|line| - 1] == '\n' && '\n' !in line[..|line| - 1]
  {
    var line := EntryLine(e);
    assert line[..|line| - 1] == e.0 + "=" + e.1;
  }

  /** Reading the lines of distinct well-formed entries rebuilds them in order. */
  lemma ParseEntryLines(d: Env)
    requires Writable(d)
    ensures ParseLines(EntryLines(d)) == d
  {
    var ls := EntryLines(d);
    forall i | 0 <= i < |d| ensures Settings(ls)[i] == Some(d[i]) {
      EntryLineParses(d[i]);
    }
    assert Settings(ls) == Somes(d);
    BuildSomes(d);
  }

  /** Each entry as a setting. */
  function Somes(d: Env): (es: seq<Setting>)
    ensures |es| == |d| && forall i :: 0 <= i < |d| ==> es[i] == Some(d[i])
  {
    seq(|d|, i requires 0 <= i < |d| => Some(d[i]))
  }

  /** Setting distinct keys in order rebuilds them in that order. */
  lemma {:induction false} BuildSomes(d: Env)
    requires Distinct(d)
    ensures Build(Somes(d)) == d
    decreases |d|
  {
    if d != [] {
      var init := d[..|d| - 1];
      var last := d[|d| - 1];
      assert Somes(d)[..|d| - 1] == Somes(init);
      BuildSomes(init);
      assert IndexOf(init, last.0) == -1;
      assert init + [last] == d;
    }
  }

  /** Writing a writable dictionary and reading the text back gives the dictionary. */
  lemma WriteThenRead(d: Env)
    requires Writable(d)
    ensures ParseEnv(Serialised(d)) == d
  {
    LinesOfSerialised(d);
    ParseEntryLines(d);
  }

  /** Every entry read from a file is writable: the round trip holds for what came from the file. */
  lemma {:induction false} ParsedWritable(text: string)
    ensures Writable(ParseEnv(text))
  {
    ParsedLinesWritable(Lines(text));
  }

  lemma ParsedLinesWritable(lines: seq<string>)
    requires forall i :: 0 <= i < |lines| ==> lines[i] != [] && '\n' !in lines[i][..|lines[i]| - 1]
    ensures Writable(ParseLines(lines))
  {
    forall i | 0 <= i < |lines| && ParseLine(lines[i]).Some? ensures WellFormed(ParseLine(lines[i]).value) {
      LineEntryWellFormed(lines[i]);
    }
    BuildWritable(Settings(lines));
  }

  /** Well-formed settings build a writable dictionary. */
  lemma {:induction false} BuildWritable(es: seq<Setting>)
    requires forall i :: 0 <= i < |es| && es[i].Some? ==> WellFormed(es[i].value)
    ensures Writable(Build(es))
    decreases |es|
  {
    if es != [] {
      var init := es[..|es| - 1];
      assert forall i :: 0 <= i < |init| ==> init[i] == es[i];
      BuildWritable(init);
      var e := es[|es| - 1];
      if e.Some? {
        SetSpec(Build(init), e.value.0, e.value.1);
        SetWellFormed(Build(init), e.value.0, e.value.1);
      }
    }
  }

  /** The entry of a line of a file is well-formed. */
  lemma LineEntryWellFormed(line: string)
    requires line != [] && '\n' !in line[..|line| - 1]
    requires ParseLine(line).Some?
    ensures WellFormed(ParseLine(line).value)
  {
    TrimNoNewline(line);
    TrimStripped(line);
  }

  /** A line with its only '\n' at its end holds none once stripped. */
  lemma TrimNoNewline(line: string)
    requires line != [] && '\n' !in line[..|line| - 1]
    ensures '\n' !in Trim(line)
  {
    StripEnds(line, Whitespace);
    NoInnerNewline(line, Trim(line), |line| - |StripLeft(line, Whitespace)|);
  }

  /** A slice of a line with nothing to strip holds no '\n': the line has one only at its end. */
  lemma NoInnerNewline(line: string, s: string, off: nat)
    requires line != [] && '\n' !in line[..|line| - 1]
    requires off + |s| <= |line| && s == line[off..off + |s|] && Stripped(s)
    ensures '\n' !in s
  {
  }

  /** Setting a well-formed entry keeps every entry well-formed. */
  lemma SetWellFormed(d: Env, k: string, v: string)
    requires Distinct(d) && WellFormed((k, v))
    requires forall i :: 0 <= i < |d| ==> WellFormed(d[i])
    ensures forall i :: 0 <= i < |Set(d, k, v)| ==> WellFormed(Set(d, k, v)[i])
  {
    var r := Set(d, k, v);
    forall i | 0 <= i < |r| ensures WellFormed(r[i]) {
      if i < |d| && r[i] != (k, v) {
        assert r[i] == d[i];
      }
    }
  }

  /** An id that survives the round trip: no line break and no trailing whitespace. */
  predicate CleanId(spreadsheetId: string) {
    '\n' !in spreadsheetId && (spreadsheetId == [] || spreadsheetId[|spreadsheetId| - 1] !in Whitespace)
  }

  /** The two entries the update sets are well-formed when the id is clean. */
  lemma UpdateEntriesWellFormed(spreadsheetId: string)
    requires CleanId(spreadsheetId)
    ensures WellFormed((IdKey, spreadsheetId)) && WellFormed((CredentialsKey, CredentialsFile))
  {
    var idLine := IdKey + "=" + spreadsheetId;
    assert idLine[0] == 'G';
    assert idLine[|idLine| - 1] == if spreadsheetId == [] then '=' else spreadsheetId[|spreadsheetId| - 1];
    assert '=' !in IdKey && '\n' !in IdKey;
    var credLine := CredentialsKey + "=" + CredentialsFile;
    assert credLine[0] == 'G' && credLine[|credLine| - 1] == 'n';
    assert '=' !in CredentialsKey && '\n' !in credLine;
  }

  /** The file `setup_google_sheets` writes reads back as the updated dictionary. */
  lemma UpdateRoundTrip(text: string, spreadsheetId: string)
    requires CleanId(spreadsheetId)
    ensures var u := Updated(ParseEnv(text), spreadsheetId);
      ParseEnv(Serialised(u)) == u
  {
    var d := ParseEnv(text);
    ParsedWritable(text);
    UpdateEntriesWellFormed(spreadsheetId);
    var d1 := Set(d, IdKey, spreadsheetId);
    SetSpec(d, IdKey, spreadsheetId);
    SetWellFormed(d, IdKey, spreadsheetId);
    SetSpec(d1, CredentialsKey, CredentialsFile);
    SetWellFormed(d1, CredentialsKey, CredentialsFile);
    WriteThenRead(Updated(d, spreadsheetId));
  }

  // ---- the block of `setup_google_sheets`

  /** The text the block reads: `.env`, else a copied `env.example`, else nothing. */
  function EnvSource(files: map<string, string>): string {
    if EnvPath in files then files[EnvPath]
    else if EnvExamplePath in files then files[EnvExamplePath]
    else ""
  }

  /**
   * Copy `env.example` to a missing `.env`, read `.env` when it exists, set
   * the two keys and write `.env` back. Only `.env` changes.
   */
  method UpdateEnvFile(files: map<string, string>, spreadsheetId: string) returns (out: map<string, string>)
    ensures out == files[EnvPath := Serialised(Updated(ParseEnv(EnvSource(files)), spreadsheetId))]
  {
    out := files;
    var env: Env := [];
    if EnvPath in files {
      env := ReadEnv(files[EnvPath]);
    } else if EnvExamplePath in files {
      out := files[EnvPath := files[EnvExamplePath]];
      env := ReadEnv(out[EnvPath]);
    } else {
      EmptyEnv();
    }
    env := Set(env, IdKey, spreadsheetId);
    env := Set(env, CredentialsKey, CredentialsFile);
    var text := WriteEnv(env);
    out := out[EnvPath := text];
  }

  /** An empty text holds no entries. */
  lemma EmptyEnv()
    ensures ParseEnv("") == []
  {
  }
}
