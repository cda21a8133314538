/**
 * Where a `BoardBuilder` finds its repository and builds, derived once in
 * its constructor from the build description and the working directory
 * `base` (`process.cwd()`), and the paths of the files it patches.
 */
module BoardLocations {
  import opened Wrappers
  import opened JsText
  import opened Utility
  import opened BuildConfig

  /** `BoardBuilder.ardupilotRepo`. */
  const ArdupilotRemote: Remote := Remote("https://github.com/ArduPilot/ardupilot.git", "master")

  /** The checkout used when a build names no repository at all. */
  const DefaultLocal: string := "./ardupilot"

  /** A repository to build from is named: a remote or a local checkout. */
  predicate HasSource(g: GitRepo)
  {
    g.remote.Some? || g.local.Some?
  }

  /**
   * The constructor's default: a build naming neither a remote nor a local
   * checkout gets `gitRepo` replaced by the local `./ardupilot` alone (its
   * other `gitRepo` members are dropped); any other build is left as it is.
   */
  function WithDefaultRepo(b: Build): (r: Build)
    ensures r.gitRepo.Some? && HasSource(r.gitRepo.value)
    ensures b.gitRepo.Some? && HasSource(b.gitRepo.value) ==> r == b
    ensures !(b.gitRepo.Some? && HasSource(b.gitRepo.value)) ==>
      r == b.(gitRepo := Some(GitRepo(None, Some(DefaultLocal), None, None)))
  {
    if b.gitRepo.Some? && HasSource(b.gitRepo.value) then b
    else b.(gitRepo := Some(GitRepo(None, Some(DefaultLocal), None, None)))
  }

  /** `repoName` for a remote: the sanitised URL, a colon, and the branch as given. */
  function RemoteRepoName(remote: Remote): string
  {
    RemoveSpecialCharacters(remote.repo) + ":" + remote.branch
  }

  /** A location starting with `./` is taken relative to the working directory. */
  function ResolveLocal(base: string, location: string): string
  {
    if StartsWith(location, "./") then PathJoin(base, location[2..]) else location
  }

  /** `repoLocation`: under `repos` for a remote, otherwise the local checkout. */
  function RepoLocation(base: string, g: GitRepo): string
    requires HasSource(g)
  {
    if g.remote.Some? then RepoDirectory(base) + "/" + RemoteRepoName(g.remote.value)
    else ResolveLocal(base, g.local.value)
  }

  /** `repoName`: the remote's name, or `local_` and the sanitised repository location. */
  function RepoName(g: GitRepo, repoLocation: string): string
  {
    if g.remote.None? then "local_" + RemoveSpecialCharacters(repoLocation) else RemoteRepoName(g.remote.value)
  }

  /** `name`: the sanitised build name, or friendly name and target when the name is empty or absent. */
  function BuildName(b: Build): string
  {
    RemoveSpecialCharacters(if Truthy(b.name) then b.name.value else b.board.friendlyName + "-" + b.target)
  }

  /** Only an explicit `useBuildFolder: false` builds in the repository itself. */
  predicate UsesBuildFolder(g: GitRepo)
  {
    g.useBuildFolder != Some(false)
  }

  /** `buildLocation`: a folder of its own under `build`, or the repository itself. */
  function BuildLocation(base: string, b: Build): string
    requires b.gitRepo.Some? && HasSource(b.gitRepo.value)
  {
    var g := b.gitRepo.value;
    var repo := RepoLocation(base, g);
    if UsesBuildFolder(g) then BuildDirectory(base) + "/" + BuildName(b) + "/" + RepoName(g, repo) else repo
  }

  /** The tag of a local checkout's name has no character the name cleaning changes. */
  lemma LocalTagClean()
    ensures RemoveSpecialCharacters("local_") == "local_"
  {
    var tag := "local_";
    forall i | 0 <= i < |tag|
      ensures !IsSpecial(tag[i]) && tag[i] != ' '
    {
    }
    RemoveSpecialCharactersClean(tag);
  }

  /** A local checkout's location cannot end in its own `local_` name behind a prefix. */
  lemma LocalNameNotSuffix(prefix: string, location: string)
    ensures location != prefix + "local_" + RemoveSpecialCharacters(location)
  {
    var r := RemoveSpecialCharacters(location);
    var l := prefix + "local_" + r;
    RemoveSpecialCharactersAppend(prefix + "local_", r);
    RemoveSpecialCharactersAppend(prefix, "local_");
    LocalTagClean();
    RemoveSpecialCharactersIdempotent(location);
    assert RemoveSpecialCharacters(l) == RemoveSpecialCharacters(prefix) + "local_" + r;
    assert |RemoveSpecialCharacters(l)| > |r|;
  }

  /**
   * The build runs in the repository itself exactly when `useBuildFolder`
   * is `false`: otherwise its folder differs from the repository, so copying
   * the repository there (which first deletes the folder) never deletes the
   * repository.
   */
  lemma BuildLocationIsRepoIff(base: string, b: Build)
    requires b.gitRepo.Some? && HasSource(b.gitRepo.value)
    ensures BuildLocation(base, b) == RepoLocation(base, b.gitRepo.value) <==> !UsesBuildFolder(b.gitRepo.value)
  {
    var g := b.gitRepo.value;
    var repo := RepoLocation(base, g);
    if UsesBuildFolder(g) {
      var built := BuildLocation(base, b);
      if g.remote.Some? {
        assert built[|base| + 1] == 'b' && repo[|base| + 1] == 'r';
      } else {
        var prefix := BuildDirectory(base) + "/" + BuildName(b) + "/";
        assert built == prefix + "local_" + RemoveSpecialCharacters(repo);
        LocalNameNotSuffix(prefix, repo);
      }
    }
  }

  // ---------------------------------------------------------------------------
  // the clone command
  // ---------------------------------------------------------------------------

  /**
   * What reading `cloneRepoCommand` does to the build: a repository without a
   * remote is given the ArduPilot remote, everything else is kept.
   */
  function WithRemote(b: Build): (r: Build)
    ensures r.gitRepo.Some? && r.gitRepo.value.remote.Some?
    ensures b.gitRepo.Some? && b.gitRepo.value.remote.Some? ==> r == b
    ensures b.gitRepo.Some? && b.gitRepo.value.remote.None? ==>
      r == b.(gitRepo := Some(b.gitRepo.value.(remote := Some(ArdupilotRemote))))
    ensures b.gitRepo.None? ==> r == b.(gitRepo := Some(GitRepo(Some(ArdupilotRemote), None, None, None)))
  {
    var g := if b.gitRepo.Some? then b.gitRepo.value else GitRepo(None, None, None, None);
    if g.remote.Some? then b else b.(gitRepo := Some(g.(remote := Some(ArdupilotRemote))))
  }

  /** `cloneRepoCommand` for a remote and the repository location. */
  function CloneCommand(remote: Remote, repoLocation: string): string
  {
    "git clone --recursive -b " + remote.branch + " " + remote.repo + " " + repoLocation
  }

  /** Reading `cloneRepoCommand` twice changes the build only the first time. */
  lemma WithRemoteIdempotent(b: Build)
    ensures WithRemote(WithRemote(b)) == WithRemote(b)
  {
  }

  /**
   * Two clone commands are equal only for the same branch, URL and location,
   * when branches and URLs hold no space; so de-duplicating commands
   * de-duplicates clones.
   */
  lemma CloneCommandInjective(r1: Remote, l1: string, r2: Remote, l2: string)
    requires ' ' !in r1.branch && ' ' !in r1.repo && ' ' !in r2.branch && ' ' !in r2.repo
    requires CloneCommand(r1, l1) == CloneCommand(r2, l2)
    ensures r1 == r2 && l1 == l2
  {
    var t1 := CloneTail(r1, l1);
    var t2 := CloneTail(r2, l2);
    CloneCommandHead(r1, l1);
    CloneCommandHead(r2, l2);
    var n := |"git clone --recursive -b "|;
    assert t1 == CloneCommand(r1, l1)[n..];
    assert t2 == CloneCommand(r2, l2)[n..];
    CutAtSeparator(r1.branch, r1.repo + [' '] + l1, r2.branch, r2.repo + [' '] + l2, ' ');
    CutAtSeparator(r1.repo, l1, r2.repo, l2, ' ');
  }

  /** The part of the clone command after its fixed head. */
  function CloneTail(remote: Remote, repoLocation: string): string
  {
    remote.branch + [' '] + (remote.repo + [' '] + repoLocation)
  }

  lemma CloneCommandHead(remote: Remote, repoLocation: string)
    ensures CloneCommand(remote, repoLocation) == "git clone --recursive -b " + CloneTail(remote, repoLocation)
  {
  }

  // ---------------------------------------------------------------------------
  // files in the working copy
  // ---------------------------------------------------------------------------

  function LibDirectory(buildLocation: string): string
  {
    buildLocation + "/libraries"
  }

  /** The board's hwdef directory: its path is appended to the working copy as written. */
  function HwDefDirectory(buildLocation: string, board: Board): string
  {
    buildLocation + board.hwDefDirectory
  }

  function HwDefFile(buildLocation: string, board: Board): string
  {
    HwDefDirectory(buildLocation, board) + "/hwdef.dat"
  }

  function LuaBindingsFile(buildLocation: string): string
  {
    LibDirectory(buildLocation) + "/AP_Scripting/generator/description/bindings.desc"
  }

  function ParamDefaultsFile(buildLocation: string, board: Board): string
  {
    HwDefDirectory(buildLocation, board) + "/defaults.parm"
  }

  /** `scriptingDirectories`. */
  datatype ScriptingDirectories = ScriptingDirectories(libDirectory: string, bindingsFile: string, scriptingDirectory: string)

  function ScriptingDirectoriesOf(buildLocation: string, board: Board): ScriptingDirectories
  {
    var lib := LibDirectory(buildLocation) + "/AP_Scripting";
    ScriptingDirectories(lib, lib + "/generator/bindings.desc", HwDefDirectory(buildLocation, board) + "/scripts")
  }

  /**
   * The three files the build patches are different files, and no script
   * written into the scripting directory overwrites the hwdef or the
   * parameter defaults.
   */
  lemma PatchedFilesApart(buildLocation: string, board: Board, scriptName: string)
    ensures HwDefFile(buildLocation, board) != ParamDefaultsFile(buildLocation, board)
    ensures HwDefFile(buildLocation, board) != LuaBindingsFile(buildLocation)
    ensures ParamDefaultsFile(buildLocation, board) != LuaBindingsFile(buildLocation)
    ensures var script := ScriptingDirectoriesOf(buildLocation, board).scriptingDirectory + "/" + scriptName;
      script != HwDefFile(buildLocation, board) && script != ParamDefaultsFile(buildLocation, board)
  {
    var hw, params, bindings := HwDefFile(buildLocation, board), ParamDefaultsFile(buildLocation, board), LuaBindingsFile(buildLocation);
    assert hw[|hw| - 1] == 't' && params[|params| - 1] == 'm' && bindings[|bindings| - 1] == 'c';
    var dir := HwDefDirectory(buildLocation, board);
    var script := ScriptingDirectoriesOf(buildLocation, board).scriptingDirectory + "/" + scriptName;
    assert script[|dir| + 1] == 's' && hw[|dir| + 1] == 'h' && params[|dir| + 1] == 'd';
  }
}
