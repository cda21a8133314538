/**
 * The build description a caller hands to the builder: the `Build`, `Board`
 * and `LUAFile` records. Optional members are `Option`s; a member the code
 * only ever tests for truthiness is a plain `bool`.
 */
module BuildConfig {
  import opened Wrappers

  /** A flight controller: its `--board` name, a friendly name and its hwdef directory under the repository. */
  datatype Board = Board(board: string, friendlyName: string, hwDefDirectory: string)

  datatype Remote = Remote(repo: string, branch: string)

  /** `gitRepo`: a remote to clone, or a local checkout (`local.location`), and two switches. */
  datatype GitRepo = GitRepo(remote: Option<Remote>, local: Option<string>, reset: Option<bool>, useBuildFolder: Option<bool>)

  /** `hwDef` and `luaBindings`: clear the file, replace it by another, append lines to it. */
  datatype FileOptions = FileOptions(clear: Option<bool>, replaceFile: Option<string>, append: Option<seq<string>>)

  /**
   * `parameter`: as `FileOptions`, but `append` is a string-keyed record,
   * kept here as its entries in insertion order.
   */
  datatype ParameterOptions = ParameterOptions(clear: Option<bool>, replaceFile: Option<string>, append: Option<seq<(string, string)>>)

  /** `LUAFile.file`: absent, one path, or an array of paths. */
  datatype FileList = NoFile | OneFile(path: string) | ManyFiles(paths: seq<string>)

  datatype InjectMethods = InjectMethods(buildDate: bool, gitSha: bool)

  datatype LuaFile = LuaFile(
    helperFunctions: Option<seq<string>>,
    validateSyntax: bool,
    file: FileList,
    outputName: Option<string>,
    injectMethods: Option<InjectMethods>)

  datatype LuaOptions = LuaOptions(includeLua: Option<bool>, enableScripting: Option<bool>, luaFiles: Option<seq<LuaFile>>)

  datatype BuildOptions = BuildOptions(
    isStatic: Option<bool>,
    upload: Option<bool>,
    uploadDest: Option<string>,
    debug: Option<bool>,
    distClean: Option<bool>,
    extraWafConfigureArgs: Option<seq<string>>,
    extraWafBuildArgs: Option<seq<string>>,
    preBuildCommands: Option<seq<string>>,
    postBuildCommands: Option<seq<string>>)

  /** Which of the steps after a successful build are asked for. */
  datatype FinalSteps = FinalSteps(copyBinaries: Option<string>, uploadToBoard: bool, openMAVProxy: bool)

  datatype Build = Build(
    name: Option<string>,
    board: Board,
    target: string,
    finalSteps: Option<FinalSteps>,
    buildOptions: Option<BuildOptions>,
    gitRepo: Option<GitRepo>,
    parameter: Option<ParameterOptions>,
    lua: Option<LuaOptions>,
    luaBindings: Option<FileOptions>,
    hwDef: Option<FileOptions>)

  // ---------------------------------------------------------------------------
  // string-keyed records
  // ---------------------------------------------------------------------------

  /** The value stored under `k`, if any. */
  function Lookup(entries: seq<(string, string)>, k: string): Option<string>
  {
    if |entries| == 0 then None
    else if entries[0].0 == k then Some(entries[0].1)
    else Lookup(entries[1..], k)
  }

  /** The keys, in order. */
  function Keys(entries: seq<(string, string)>): (r: seq<string>)
    ensures |r| == |entries|
    ensures forall i :: 0 <= i < |r| ==> r[i] == entries[i].0
  {
    if |entries| == 0 then [] else [entries[0].0] + Keys(entries[1..])
  }

  /** No key occurs twice, as in any record. */
  predicate DistinctKeys(entries: seq<(string, string)>)
  {
    forall i, j :: 0 <= i < j < |entries| ==> entries[i].0 != entries[j].0
  }

  /**
   * `record[k] = v`: an existing key keeps its place and takes the new value,
   * a new key goes last.
   */
  function SetEntry(entries: seq<(string, string)>, k: string, v: string): (r: seq<(string, string)>)
    ensures k in Keys(entries) ==> Keys(r) == Keys(entries)
    ensures k !in Keys(entries) ==> Keys(r) == Keys(entries) + [k]
  {
    if |entries| == 0 then [(k, v)]
    else if entries[0].0 == k then [(k, v)] + entries[1..]
    else [entries[0]] + SetEntry(entries[1..], k, v)
  }

  lemma {:induction false} LookupIn(entries: seq<(string, string)>, k: string)
    ensures Lookup(entries, k).Some? <==> k in Keys(entries)
  {
    if |entries| > 0 {
      LookupIn(entries[1..], k);
      assert Keys(entries) == [entries[0].0] + Keys(entries[1..]);
    }
  }

  /** After `record[k] = v` the record holds `v` under `k` and is unchanged under every other key. */
  lemma {:induction false} SetEntryLookup(entries: seq<(string, string)>, k: string, v: string, other: string)
    ensures Lookup(SetEntry(entries, k, v), k) == Some(v)
    ensures other != k ==> Lookup(SetEntry(entries, k, v), other) == Lookup(entries, other)
  {
    if |entries| > 0 && entries[0].0 != k {
      SetEntryLookup(entries[1..], k, v, other);
    }
  }

  /** Setting an entry keeps the keys distinct. */
  lemma SetEntryDistinct(entries: seq<(string, string)>, k: string, v: string)
    requires DistinctKeys(entries)
    ensures DistinctKeys(SetEntry(entries, k, v))
  {
    var r := SetEntry(entries, k, v);
    var ks := Keys(r);
    if k in Keys(entries) {
      assert forall i, j :: 0 <= i < j < |r| ==> r[i].0 == ks[i] && r[j].0 == ks[j];
    } else {
      assert forall i :: 0 <= i < |entries| ==> ks[i] == entries[i].0 != k;
      assert forall i, j :: 0 <= i < j < |r| ==> r[i].0 == ks[i] && r[j].0 == ks[j];
    }
  }
}
