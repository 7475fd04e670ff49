/** The `--variables` flag of the `eval` command (cmd/eval.go): a list
    `name1=file1,name2=file2,...` whose files are read and decoded as YAML, giving the map from
    variable name to data that the evaluation receives.

    Reading a file and decoding YAML are foreign calls, so they are the two oracles of `Files`.
    The parser also reports, in order, the filenames it handed to the file reader, so that the
    files it touches (none for an empty flag, none past the first failing entry) are visible. */
module Variables {
  import opened Wrappers
  import opened Values
  import GoStrings

  /** `os.ReadFile` (the error is the cause's text) and `yaml.Unmarshal` into a string-keyed map. */
  datatype Files = Files(
    readFile: string -> Result<string>,
    unmarshal: string -> Result<map<string, Value>>)

  /** A loaded variable file: the name it is bound to and its decoded top-level mapping. */
  datatype ParsedYAML = ParsedYAML(variableName: string, data: map<string, Value>)

  /** What the parse returns, and the filenames it asked the file reader for. */
  datatype Parse = Parse(result: Result<map<string, Value>>, fileReads: seq<string>)

  const ReadErrorPrefix: string := "error reading input file "

  function ReadError(filename: string, cause: string): string
  {
    ReadErrorPrefix + filename + ": " + cause
  }

  function PairError(entry: string): string
  {
    "expected <variable-name>=<filename> but got: " + entry
  }

  /** `parseYAMLFile`: read the file, decode it, bind the result to `varName`. */
  function ParseYAMLFile(varName: string, filename: string, files: Files): (r: Result<ParsedYAML>)
    ensures r.Ok? <==> files.readFile(filename).Ok? && files.unmarshal(files.readFile(filename).value).Ok?
    ensures r.Ok? ==> r.value.variableName == varName
    ensures r.Ok? ==> r.value.data == files.unmarshal(files.readFile(filename).value).value
    ensures files.readFile(filename).Err? ==> r == Err(ReadError(filename, files.readFile(filename).error))
    ensures files.readFile(filename).Ok? && files.unmarshal(files.readFile(filename).value).Err? ==>
      r == Err(files.unmarshal(files.readFile(filename).value).error)
  {
    match files.readFile(filename)
    case Err(cause) => Err(ReadError(filename, cause))
    case Ok(data) =>
      match files.unmarshal(data)
      case Err(e) => Err(e)
      case Ok(parsed) => Ok(ParsedYAML(varName, parsed))
  }

  /** The variable name of an entry: the text before its first `=`. */
  function EntryName(entry: string): string
  {
    GoStrings.SplitN2(entry, '=')[0]
  }

  /** One entry of the flag: split at the first `=` and load the named file. */
  function LoadEntry(entry: string, files: Files): Result<ParsedYAML>
  {
    var parts := GoStrings.SplitN2(entry, '=');
    if |parts| != 2 then Err(PairError(entry)) else ParseYAMLFile(parts[0], parts[1], files)
  }

  /** The filenames that loading one entry hands to the file reader. */
  function EntryReads(entry: string): seq<string>
  {
    var parts := GoStrings.SplitN2(entry, '=');
    if |parts| != 2 then [] else [parts[1]]
  }

  /** The filenames of all the entries, in order. */
  function AllReads(entries: seq<string>): seq<string>
  {
    if entries == [] then [] else EntryReads(entries[0]) + AllReads(entries[1..])
  }

  /** The names bound by the entries. */
  function Names(entries: seq<string>): set<string>
  {
    set k | 0 <= k < |entries| :: EntryName(entries[k])
  }

  /** The loop of `parseVariablesFlag` from the entries still to process and the map built so
      far: left to right, stopping at the first failing entry. */
  function ParseEntries(entries: seq<string>, files: Files, acc: map<string, Value>): Parse
    decreases |entries|
  {
    if entries == [] then Parse(Ok(acc), [])
    else
      match LoadEntry(entries[0], files)
      case Err(e) => Parse(Err(e), EntryReads(entries[0]))
      case Ok(p) =>
        var rest := ParseEntries(entries[1..], files, acc[p.variableName := Map(p.data)]);
        Parse(rest.result, EntryReads(entries[0]) + rest.fileReads)
  }

  /** `parseVariablesFlag` as a function of the flag. */
  function VariablesFlag(flag: string, files: Files): Parse
  {
    if |flag| == 0 then Parse(Ok(map[]), [])
    else ParseEntries(GoStrings.Split(flag, ','), files, map[])
  }

  /** `parseVariablesFlag`: an empty flag reads no file and binds nothing; otherwise every
      comma-separated entry is loaded in turn into the result map. */
  method ParseVariablesFlag(flag: string, files: Files) returns (r: Result<map<string, Value>>, fileReads: seq<string>)
    ensures Parse(r, fileReads) == VariablesFlag(flag, files)
    ensures |flag| == 0 ==> r == Ok(map[]) && fileReads == []
  {
    if |flag| == 0 {
      return Ok(map[]), [];
    }
    var result: map<string, Value> := map[];
    fileReads := [];
    var entries := GoStrings.Split(flag, ',');
    var i := 0;
    while i < |entries|
      invariant 0 <= i <= |entries|
      invariant var rest := ParseEntries(entries[i..], files, result);
        ParseEntries(entries, files, map[]) == Parse(rest.result, fileReads + rest.fileReads)
    {
      var e := entries[i];
      assert entries[i..][1..] == entries[i + 1..];
      var parts := GoStrings.SplitN2(e, '=');
      if |parts| != 2 {
        return Err(PairError(e)), fileReads;
      }
      var varName := parts[0];
      var filename := parts[1];
      ghost var readsBefore := fileReads;
      fileReads := fileReads + [filename];
      var parsed := ParseYAMLFile(varName, filename, files);
      assert LoadEntry(e, files) == parsed && EntryReads(e) == [filename];
      if parsed.Err? {
        return Err(parsed.error), fileReads;
      }
      ghost var rest := ParseEntries(entries[i + 1..], files, result[parsed.value.variableName := Map(parsed.value.data)]);
      assert ParseEntries(entries[i..], files, result) == Parse(rest.result, [filename] + rest.fileReads);
      assert readsBefore + ([filename] + rest.fileReads) == fileReads + rest.fileReads;
      result := result[parsed.value.variableName := Map(parsed.value.data)];
      i := i + 1;
    }
    r := Ok(result);
    assert entries[i..] == [];
  }

  /** The parse succeeds exactly when every entry loads. */
  lemma {:induction false} ParseSucceedsIff(entries: seq<string>, files: Files, acc: map<string, Value>)
    ensures ParseEntries(entries, files, acc).result.Ok?
        <==> forall k :: 0 <= k < |entries| ==> LoadEntry(entries[k], files).Ok?
    decreases |entries|
  {
    if entries != [] {
      var first := LoadEntry(entries[0], files);
      if first.Ok? {
        ParseSucceedsIff(entries[1..], files, acc[first.value.variableName := Map(first.value.data)]);
        assert forall k :: 1 <= k < |entries| ==> entries[k] == entries[1..][k - 1];
      }
    }
  }

  /** The first failing entry decides the error, and no file after it is read. */
  lemma {:induction false} ParseStopsAtFirstError(entries: seq<string>, files: Files, acc: map<string, Value>, k: nat)
    requires k < |entries|
    requires forall j :: 0 <= j < k ==> LoadEntry(entries[j], files).Ok?
    requires LoadEntry(entries[k], files).Err?
    ensures ParseEntries(entries, files, acc).result == Err(LoadEntry(entries[k], files).error)
    ensures ParseEntries(entries, files, acc).fileReads == AllReads(entries[..k + 1])
    decreases k
  {
    if k > 0 {
      var first := LoadEntry(entries[0], files);
      assert forall j :: 0 <= j < k - 1 ==> entries[1..][j] == entries[j + 1];
      ParseStopsAtFirstError(entries[1..], files, acc[first.value.variableName := Map(first.value.data)], k - 1);
      assert entries[..k + 1][1..] == entries[1..][..k];
    } else {
      assert entries[..1][1..] == [];
    }
  }

  /** A successful parse has read the file of every entry, in order. */
  lemma {:induction false} ParseReadsEveryFile(entries: seq<string>, files: Files, acc: map<string, Value>)
    requires ParseEntries(entries, files, acc).result.Ok?
    ensures ParseEntries(entries, files, acc).fileReads == AllReads(entries)
    decreases |entries|
  {
    if entries != [] {
      var first := LoadEntry(entries[0], files);
      ParseReadsEveryFile(entries[1..], files, acc[first.value.variableName := Map(first.value.data)]);
    }
  }

  /** A loaded entry is bound under the text before its first `=`. */
  lemma LoadedEntryName(entry: string, files: Files)
    requires LoadEntry(entry, files).Ok?
    ensures LoadEntry(entry, files).value.variableName == EntryName(entry)
  {
  }

  /** The keys of a successful parse are the keys it started from and the entries' names. */
  lemma {:induction false} ParseKeys(entries: seq<string>, files: Files, acc: map<string, Value>)
    requires ParseEntries(entries, files, acc).result.Ok?
    ensures ParseEntries(entries, files, acc).result.value.Keys == acc.Keys + Names(entries)
    decreases |entries|
  {
    if entries != [] {
      var first := LoadEntry(entries[0], files);
      LoadedEntryName(entries[0], files);
      ParseKeys(entries[1..], files, acc[first.value.variableName := Map(first.value.data)]);
      assert Names(entries) == {EntryName(entries[0])} + Names(entries[1..]) by {
        forall n | n in Names(entries) ensures n in {EntryName(entries[0])} + Names(entries[1..]) {
          var k :| 0 <= k < |entries| && EntryName(entries[k]) == n;
          if k > 0 { assert entries[1..][k - 1] == entries[k]; }
        }
        forall n | n in Names(entries[1..]) ensures n in Names(entries) {
          var k :| 0 <= k < |entries[1..]| && EntryName(entries[1..][k]) == n;
          assert entries[k + 1] == entries[1..][k];
        }
      }
    }
  }

  /** Of several entries with one name, the last one's data is what the parse keeps. */
  lemma {:induction false} ParseLastWins(entries: seq<string>, files: Files, acc: map<string, Value>, k: nat)
    requires k < |entries|
    requires ParseEntries(entries, files, acc).result.Ok?
    requires forall j :: k < j < |entries| ==> EntryName(entries[j]) != EntryName(entries[k])
    ensures LoadEntry(entries[k], files).Ok?
    ensures EntryName(entries[k]) in ParseEntries(entries, files, acc).result.value
    ensures ParseEntries(entries, files, acc).result.value[EntryName(entries[k])]
         == Map(LoadEntry(entries[k], files).value.data)
    decreases k
  {
    ParseSucceedsIff(entries, files, acc);
    var first := LoadEntry(entries[0], files);
    var acc' := acc[first.value.variableName := Map(first.value.data)];
    LoadedEntryName(entries[0], files);
    if k > 0 {
      assert forall j :: k - 1 < j < |entries| - 1 ==> entries[1..][j] == entries[j + 1];
      ParseLastWins(entries[1..], files, acc', k - 1);
    } else {
      ParseKeys(entries[1..], files, acc');
      ParseKeptUnnamed(entries[1..], files, acc', EntryName(entries[0]));
    }
  }

  /** A name no entry binds keeps the value it started with. */
  lemma {:induction false} ParseKeptUnnamed(entries: seq<string>, files: Files, acc: map<string, Value>, n: string)
    requires ParseEntries(entries, files, acc).result.Ok?
    requires n in acc
    requires forall j :: 0 <= j < |entries| ==> EntryName(entries[j]) != n
    ensures n in ParseEntries(entries, files, acc).result.value
    ensures ParseEntries(entries, files, acc).result.value[n] == acc[n]
    decreases |entries|
  {
    if entries != [] {
      var first := LoadEntry(entries[0], files);
      LoadedEntryName(entries[0], files);
      assert forall j :: 0 <= j < |entries| - 1 ==> entries[1..][j] == entries[j + 1];
      ParseKeptUnnamed(entries[1..], files, acc[first.value.variableName := Map(first.value.data)], n);
    }
  }

  /** An entry splits at its first `=`: the name is everything before it (possibly empty) and the
      filename everything after it (possibly containing `=`). */
  lemma EntrySplitsAtFirstEquals(name: string, filename: string, files: Files)
    requires '=' !in name
    ensures LoadEntry(name + "=" + filename, files) == ParseYAMLFile(name, filename, files)
    ensures EntryReads(name + "=" + filename) == [filename]
    ensures EntryName(name + "=" + filename) == name
  {
    GoStrings.SplitN2Pair(name + "=" + filename, '=', name, filename);
  }

  /** An entry without `=` is rejected, naming the entry, before any file is read. */
  lemma EntryWithoutEqualsRejected(entry: string, files: Files)
    requires '=' !in entry
    ensures LoadEntry(entry, files) == Err(PairError(entry))
    ensures EntryReads(entry) == []
  {
  }

  /** A failed read yields a message that names the file and ends with the underlying cause. */
  lemma ReadErrorNamesFile(varName: string, filename: string, files: Files)
    requires files.readFile(filename).Err?
    ensures ParseYAMLFile(varName, filename, files).Err?
    ensures var m := ParseYAMLFile(varName, filename, files).error;
      |ReadErrorPrefix| + |filename| <= |m| && m[|ReadErrorPrefix|..|ReadErrorPrefix| + |filename|] == filename
    ensures var m := ParseYAMLFile(varName, filename, files).error;
      var cause := files.readFile(filename).error;
      |cause| + 2 <= |m| && m[|m| - |cause| - 2..] == ": " + cause
  {
    var m := ParseYAMLFile(varName, filename, files).error;
    var cause := files.readFile(filename).error;
    assert m == (ReadErrorPrefix + filename) + (": " + cause);
    assert m == ReadErrorPrefix + filename + (": " + cause);
  }

  /** An empty entry (from `,,`, a leading or a trailing comma) makes the whole parse fail. */
  lemma EmptyEntryRejected(entries: seq<string>, files: Files, acc: map<string, Value>, k: nat)
    requires k < |entries| && entries[k] == ""
    ensures ParseEntries(entries, files, acc).result.Err?
  {
    ParseSucceedsIff(entries, files, acc);
    EntryWithoutEqualsRejected(entries[k], files);
  }

  /** A flag with a trailing comma is rejected. */
  lemma TrailingCommaRejected(flag: string, files: Files)
    ensures VariablesFlag(flag + ",", files).result.Err?
  {
    assert flag + "," == flag + [','] + "";
    GoStrings.SplitConcat(flag, "", ',');
    var entries := GoStrings.Split(flag + ",", ',');
    EmptyEntryRejected(entries, files, map[], |entries| - 1);
  }

  /** A flag with two commas in a row is rejected. */
  lemma DoubleCommaRejected(before: string, after: string, files: Files)
    ensures VariablesFlag(before + ",," + after, files).result.Err?
  {
    var flag := before + ",," + after;
    assert flag == before + [','] + ([','] + after);
    GoStrings.SplitConcat(before, [','] + after, ',');
    assert [','] + after == "" + [','] + after;
    GoStrings.SplitConcat("", after, ',');
    var entries := GoStrings.Split(flag, ',');
    EmptyEntryRejected(entries, files, map[], |GoStrings.Split(before, ',')|);
  }

  /** A flag that is a single name with no `=` fails naming it, and no file is read. */
  lemma NameWithoutFileRejected(name: string, files: Files)
    requires name != [] && ',' !in name && '=' !in name
    ensures VariablesFlag(name, files) == Parse(Err(PairError(name)), [])
  {
    GoStrings.SplitJoin([name], ',');
    assert GoStrings.Split(name, ',') == [name];
  }
}
