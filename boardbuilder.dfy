/**
 * `BoardBuilder`: one build of one board. The constructor fixes the
 * repository and build locations; `build` runs the stages in order (fetch and
 * copy the repository, reset it, patch the bindings, assemble the Lua
 * scripts, patch the hwdef and the parameters, run waf, the final steps) and
 * records how it ended. The first stage that fails ends the build.
 *
 * Fetching, copying and resetting the repository and the final steps run
 * external tools; their outcomes are inputs (`World`).
 */
module BoardBuilding {
  import opened Wrappers
  import opened JsText
  import opened ShellProcess
  import opened BuildConfig
  import opened FileSystem
  import opened BoardLocations
  import opened ConfigPatch
  import opened LuaCheck
  import opened LuaScripts
  import WafBuild

  /** What a builder emits: `begin`, a message, or `complete` with the success flag and reason. */
  datatype Emitted = Begin | Said(message: Message) | Completed(success: bool, reason: Option<string>)

  /** Messages as emitted events, in order. */
  function Says(log: seq<Message>): (r: seq<Emitted>)
    ensures |r| == |log| && forall i :: 0 <= i < |r| ==> r[i] == Said(log[i])
  {
    seq(|log|, i requires 0 <= i < |log| => Said(log[i]))
  }

  /**
   * What a build sees of the world: how fetching, copying and resetting the
   * repository end, the clock, the revision id, the output of each luacheck
   * run (by script index), the output of the waf shell, and how the final
   * steps end.
   */
  datatype World = World(
    download: Promise<()>,
    copy: Promise<()>,
    git: Promise<()>,
    date: Date,
    sha: Promise<string>,
    lint: nat -> seq<Event>,
    waf: seq<Event>,
    finalSteps: Promise<()>)

  /** A stage or a whole build: how it ended, the build description and disk it leaves, its messages. */
  datatype BuildRun = BuildRun(outcome: Promise<()>, build: Build, disk: Disk, log: seq<Message>)

  // ---------------------------------------------------------------------------
  // the file stages
  // ---------------------------------------------------------------------------

  /** A patch stage: nothing without options, otherwise the patch, failing with the error of the call that threw. */
  function PatchStage(d: Disk, target: string, guard: string, p: Option<Patch>): (r: (Promise<()>, Disk))
    ensures p.None? ==> r == (Resolved(()), d)
    ensures p.Some? ==> (r.0.Resolved? <==> PatchGuarded(d, target, guard, p.value).Ok?)
    ensures p.Some? && r.0.Resolved? ==> r.1 == PatchGuarded(d, target, guard, p.value).value
    ensures p.Some? && !r.0.Resolved? ==>
      r == (Rejected(PatchGuarded(d, target, guard, p.value).error), FailedPatchDisk(d, target, guard, p.value))
  {
    if p.None? then (Resolved(()), d)
    else
      match PatchGuarded(d, target, guard, p.value)
      case Ok(d1) => (Resolved(()), d1)
      case Err(e) => (Rejected(e), FailedPatchDisk(d, target, guard, p.value))
  }

  function BindingsPatch(b: Build): Option<Patch>
  {
    if b.luaBindings.Some? then Some(FilePatch(b.luaBindings.value)) else None
  }

  function HwDefPatch(b: Build): Option<Patch>
  {
    if b.hwDef.Some? then Some(FilePatch(b.hwDef.value)) else None
  }

  function ParametersPatch(b: Build): Option<Patch>
  {
    if b.parameter.Some? then Some(ParameterPatch(b.parameter.value)) else None
  }

  /**
   * The hwdef stage and then the parameter stage, on the files of build `b`.
   * As in the source, the parameter stage deletes `defaults.parm` when the
   * board's `hwdef.dat` exists.
   */
  function BoardFiles(b: Build, d: Disk, buildLocation: string): (Promise<()>, Disk)
  {
    var hwdef := HwDefFile(buildLocation, b.board);
    var (o3, d3) := PatchStage(d, hwdef, hwdef, HwDefPatch(b));
    if !o3.Resolved? then (o3, d3)
    else
      var params := ParamDefaultsFile(buildLocation, b.board);
      PatchStage(d3, params, hwdef, ParametersPatch(b))
  }

  /**
   * As written, clearing the parameters of a board that has a `hwdef.dat`
   * but no `defaults.parm` makes the board-file stages reject with the
   * error of the `unlink` call.
   */
  lemma ClearWithoutParameterFileRejects(b: Build, d: Disk, buildLocation: string)
    requires b.hwDef.None? && b.parameter.Some? && b.parameter.value.clear == Some(true)
    requires HwDefFile(buildLocation, b.board) in d.files
    requires ParamDefaultsFile(buildLocation, b.board) !in d.files
    ensures BoardFiles(b, d, buildLocation).0 == Rejected(NoEntry("unlink", ParamDefaultsFile(buildLocation, b.board)))
  {
  }

  /**
   * As written, clearing the parameters of a board without a `hwdef.dat`
   * deletes nothing: with nothing to copy or append, the old `defaults.parm`
   * stays as it was.
   */
  lemma ClearWithoutHwDefKeepsDisk(b: Build, d: Disk, buildLocation: string)
    requires b.hwDef.None? && b.parameter == Some(ParameterOptions(Some(true), None, None))
    requires !Exists(d, HwDefFile(buildLocation, b.board))
    ensures BoardFiles(b, d, buildLocation) == (Resolved(()), d)
  {
  }

  /** The Lua stage, then the hwdef and parameter stages on the build as the Lua stage leaves it. */
  function AfterBindings(b: Build, d: Disk, buildLocation: string, w: World): BuildRun
  {
    var lua := ProcessLua(b, d, buildLocation, w.date, w.sha, w.lint);
    if !lua.outcome.Resolved? then BuildRun(lua.outcome, lua.build, lua.disk, lua.log)
    else
      var (o, d4) := BoardFiles(lua.build, lua.disk, buildLocation);
      BuildRun(o, lua.build, d4, lua.log)
  }

  /** The bindings, Lua, hwdef and parameter stages, in that order. */
  function Modify(b: Build, d: Disk, buildLocation: string, w: World): BuildRun
  {
    var bindings := LuaBindingsFile(buildLocation);
    var (o1, d1) := PatchStage(d, bindings, bindings, BindingsPatch(b));
    if !o1.Resolved? then BuildRun(o1, b, d1, [])
    else AfterBindings(b, d1, buildLocation, w)
  }

  /** The final steps run when any of them is asked for. */
  predicate HasFinalSteps(b: Build)
  {
    b.finalSteps.Some? &&
    (Truthy(b.finalSteps.value.copyBinaries) || b.finalSteps.value.uploadToBoard || b.finalSteps.value.openMAVProxy)
  }

  /** `build` on the disk `d`, up to (but not including) the `complete` it ends with. */
  function BuildSteps(b: Build, d: Disk, buildLocation: string, w: World): BuildRun
  {
    if !w.download.Resolved? then BuildRun(w.download, b, d, [])
    else if !w.copy.Resolved? then BuildRun(w.copy, b, d, [])
    else if !w.git.Resolved? then BuildRun(w.git, b, d, [])
    else
      var m := Modify(b, d, buildLocation, w);
      if !m.outcome.Resolved? then m
      else
        var waf := WafBuild.RunBuild(m.build, buildLocation, w.waf).1;
        var b1 := WafBuild.AfterRun(m.build);
        if !waf.Resolved? then BuildRun(waf, b1, m.disk, m.log)
        else BuildRun(if HasFinalSteps(b1) then w.finalSteps else Resolved(()), b1, m.disk, m.log)
  }

  /** What `build` emits after its stages: `complete(true)`, or the error message and `complete(false, e)`. */
  function Ending(outcome: Promise<()>): seq<Emitted>
  {
    match outcome
    case Resolved(_) => [Completed(true, None)]
    case Rejected(e) => [Said(Error("Build failed!")), Completed(false, Some(e))]
    case Pending => []
  }

  /** Everything `build` emits for a run: `begin`, the stage messages, then the ending. */
  function BuildEvents(run: BuildRun): seq<Emitted>
  {
    [Begin] + Says(run.log) + Ending(run.outcome)
  }

  lemma BuildEventsSplit(before: seq<Emitted>, run: BuildRun)
    ensures before + [Begin] + Says(run.log) + Ending(run.outcome) == before + BuildEvents(run)
  {
  }

  // ---------------------------------------------------------------------------
  // what a build does
  // ---------------------------------------------------------------------------

  /** A repository stage that does not complete ends the build before any file is touched. */
  lemma RepositoryStagesFirst(b: Build, d: Disk, buildLocation: string, w: World)
    ensures !w.download.Resolved? ==> BuildSteps(b, d, buildLocation, w) == BuildRun(w.download, b, d, [])
    ensures w.download.Resolved? && !w.copy.Resolved? ==> BuildSteps(b, d, buildLocation, w) == BuildRun(w.copy, b, d, [])
    ensures w.download.Resolved? && w.copy.Resolved? && !w.git.Resolved? ==>
      BuildSteps(b, d, buildLocation, w) == BuildRun(w.git, b, d, [])
  {
  }

  /**
   * A failing bindings patch ends the build before the scripts are
   * assembled: the build description is unchanged and no message is given.
   */
  lemma BindingsStageFirst(b: Build, d: Disk, buildLocation: string, w: World)
    requires w.download.Resolved? && w.copy.Resolved? && w.git.Resolved?
    ensures var bindings := LuaBindingsFile(buildLocation);
      var stage := PatchStage(d, bindings, bindings, BindingsPatch(b));
      !stage.0.Resolved? ==> BuildSteps(b, d, buildLocation, w) == BuildRun(stage.0, b, stage.1, [])
  {
  }

  /**
   * The hwdef and parameter stages patch the build as the Lua stage leaves
   * it: `SCR_ENABLED` is among the parameters written whenever Lua is used
   * with scripting on.
   */
  lemma ParametersAfterLua(b: Build, d: Disk, buildLocation: string, w: World)
    ensures var m := Modify(b, d, buildLocation, w);
      m.outcome.Resolved? ==> m.build.parameter == WithScriptingParameter(b).parameter && m.build.hwDef == b.hwDef
    ensures var m := Modify(b, d, buildLocation, w);
      m.outcome.Resolved? && b.lua.Some? && b.lua.value.enableScripting != Some(false) ==>
        ParametersPatch(m.build).Some? && ParametersPatch(m.build).value.lines.Some? &&
        "SCR_ENABLED 1" in ParametersPatch(m.build).value.lines.value
  {
    var bindings := LuaBindingsFile(buildLocation);
    var (o1, d1) := PatchStage(d, bindings, bindings, BindingsPatch(b));
    if o1.Resolved? {
      ProcessLuaEffect(b, d1, buildLocation, w.date, w.sha, w.lint);
      var m := Modify(b, d, buildLocation, w);
      if m.outcome.Resolved? && b.lua.Some? && b.lua.value.enableScripting != Some(false) {
        ScriptingLine(m.build.parameter.value.append.value);
      }
    }
  }

  /** A record holding `SCR_ENABLED: "1"` writes the line `SCR_ENABLED 1`. */
  lemma {:induction false} ScriptingLine(entries: seq<(string, string)>)
    requires Lookup(entries, "SCR_ENABLED") == Some("1")
    ensures "SCR_ENABLED 1" in ParameterLines(entries)
  {
    if entries[0].0 == "SCR_ENABLED" {
      assert "SCR_ENABLED" + " " + "1" == "SCR_ENABLED 1";
      assert ParameterLines(entries)[0] == "SCR_ENABLED 1";
    } else {
      ScriptingLine(entries[1..]);
      assert ParameterLines(entries) == [entries[0].0 + " " + entries[0].1] + ParameterLines(entries[1..]);
    }
  }

  /**
   * Once the files are patched, waf runs on the build as patched; the build
   * completes only when the waf shell closes with code 0 and the asked-for
   * final steps complete, and leaves the caller's waf argument arrays
   * extended.
   */
  lemma WafAfterModify(b: Build, d: Disk, buildLocation: string, w: World)
    requires w.download.Resolved? && w.copy.Resolved? && w.git.Resolved?
    ensures var m, r := Modify(b, d, buildLocation, w), BuildSteps(b, d, buildLocation, w);
      m.outcome.Resolved? ==>
        r.build == WafBuild.AfterRun(m.build) && r.disk == m.disk && r.log == m.log &&
        (r.outcome.Resolved? <==>
          WafBuild.RunBuild(m.build, buildLocation, w.waf).1.Resolved? && (HasFinalSteps(r.build) ==> w.finalSteps.Resolved?))
    ensures var m, r := Modify(b, d, buildLocation, w), BuildSteps(b, d, buildLocation, w);
      !m.outcome.Resolved? ==> r == m
  {
  }

  /** A build only completes when every stage completes. */
  lemma BuildCompletes(b: Build, d: Disk, buildLocation: string, w: World)
    ensures BuildSteps(b, d, buildLocation, w).outcome.Resolved? ==>
      w.download.Resolved? && w.copy.Resolved? && w.git.Resolved? &&
      Modify(b, d, buildLocation, w).outcome.Resolved? &&
      WafBuild.RunBuild(Modify(b, d, buildLocation, w).build, buildLocation, w.waf).1.Resolved?
  {
  }

  /** The end of a build: one `complete`, last, carrying the reason exactly when the build failed. */
  lemma EndingCompletes(outcome: Promise<()>)
    ensures outcome.Pending? <==> Ending(outcome) == []
    ensures !outcome.Pending? ==>
      var e := Ending(outcome);
      e[|e| - 1] == Completed(outcome.Resolved?, if outcome.Rejected? then Some(outcome.reason) else None) &&
      forall i :: 0 <= i < |e| - 1 ==> !e[i].Completed?
  {
  }

  // ---------------------------------------------------------------------------
  // the builder object
  // ---------------------------------------------------------------------------

  class BoardBuilder {
    /** The build description; the builder updates it as stages ask. */
    var buildFor: Build
    const repoLocation: string
    const buildLocation: string
    var buildSuccess: Option<bool>
    var buildError: Option<string>
    /** Everything emitted so far, in order. */
    var emitted: seq<Emitted>
    /** The file system of the process. */
    const fs: FileStore

    /**
     * `new BoardBuilder(buildFor)` in working directory `base`: the default
     * repository is filled in and the locations are fixed.
     */
    constructor(buildFor: Build, base: string, fs: FileStore)
      ensures this.buildFor == WithDefaultRepo(buildFor) && this.fs == fs
      ensures repoLocation == RepoLocation(base, this.buildFor.gitRepo.value)
      ensures buildLocation == BuildLocation(base, this.buildFor)
      ensures buildSuccess.None? && buildError.None? && emitted == []
    {
      this.buildFor := WithDefaultRepo(buildFor);
      this.fs := fs;
      var g := WithDefaultRepo(buildFor).gitRepo.value;
      repoLocation := RepoLocation(base, g);
      buildLocation := BuildLocation(base, WithDefaultRepo(buildFor));
      buildSuccess, buildError, emitted := None, None, [];
    }

    /** The clone command the build reads, as of its current description. */
    ghost function CloneCommandNow(): string
      reads this
    {
      CloneCommand(WithRemote(buildFor).gitRepo.value.remote.value, repoLocation)
    }

    /**
     * `cloneRepoCommand`: installs the ArduPilot remote when there is none,
     * and gives the command for the remote and the repository location. A
     * second reading changes nothing and gives the same command.
     */
    method CloneRepoCommand() returns (c: string)
      modifies this`buildFor
      ensures buildFor == WithRemote(old(buildFor))
      ensures c == CloneCommand(buildFor.gitRepo.value.remote.value, repoLocation)
      ensures c == old(CloneCommandNow()) && CloneCommandNow() == c
    {
      WithRemoteIdempotent(buildFor);
      buildFor := WithRemote(buildFor);
      c := CloneCommand(buildFor.gitRepo.value.remote.value, repoLocation);
    }

    /** `complete`: records the outcome and emits it, with the reason only on failure. */
    method Complete(success: bool, error: Option<string>)
      modifies this`buildSuccess, this`buildError, this`emitted
      ensures buildSuccess == Some(success) && buildError == error
      ensures emitted == old(emitted) + [Completed(success, if !success then error else None)]
    {
      buildSuccess := Some(success);
      buildError := error;
      emitted := emitted + [Completed(success, if !success then error else None)];
    }

    /** `processLUABindings`. */
    method ProcessLuaBindings() returns (r: Promise<()>)
      modifies fs
      ensures (r, fs.disk) == PatchStage(old(fs.disk), LuaBindingsFile(buildLocation), LuaBindingsFile(buildLocation), BindingsPatch(buildFor))
    {
      r := Resolved(());
      if buildFor.luaBindings.Some? {
        var target := LuaBindingsFile(buildLocation);
        var done := ApplyPatch(fs, target, target, FilePatch(buildFor.luaBindings.value));
        if done.Err? {
          r := Rejected(done.error);
        }
      }
    }

    /** `processHWDef`. */
    method ProcessHwDef() returns (r: Promise<()>)
      modifies fs
      ensures var target := HwDefFile(buildLocation, buildFor.board);
        (r, fs.disk) == PatchStage(old(fs.disk), target, target, HwDefPatch(buildFor))
    {
      r := Resolved(());
      if buildFor.hwDef.Some? {
        var target := HwDefFile(buildLocation, buildFor.board);
        var done := ApplyPatch(fs, target, target, FilePatch(buildFor.hwDef.value));
        if done.Err? {
          r := Rejected(done.error);
        }
      }
    }

    /** `processParameters`, with the deletion guarded by the board's `hwdef.dat`, as written. */
    method ProcessParameters() returns (r: Promise<()>)
      modifies fs
      ensures var target := ParamDefaultsFile(buildLocation, buildFor.board);
        (r, fs.disk) == PatchStage(old(fs.disk), target, HwDefFile(buildLocation, buildFor.board), ParametersPatch(buildFor))
    {
      r := Resolved(());
      if buildFor.parameter.Some? {
        var target := ParamDefaultsFile(buildLocation, buildFor.board);
        var done := ApplyPatch(fs, target, HwDefFile(buildLocation, buildFor.board), ParameterPatch(buildFor.parameter.value));
        if done.Err? {
          r := Rejected(done.error);
        }
      }
    }

    /** `processLUA`: the scripting parameter, then removing or writing the scripts. */
    method ProcessLUA(date: Date, sha: Promise<string>, lint: nat -> seq<Event>) returns (r: Promise<()>)
      modifies this`buildFor, this`emitted, fs
      ensures var run := ProcessLua(old(buildFor), old(fs.disk), buildLocation, date, sha, lint);
        r == run.outcome && buildFor == run.build && fs.disk == run.disk && emitted == old(emitted) + Says(run.log)
    {
      r := Resolved(());
      if buildFor.lua.None? {
        return;
      }
      var lua := buildFor.lua.value;
      var dir := ScriptingDirectoriesOf(buildLocation, buildFor.board).scriptingDirectory;
      buildFor := WithScriptingParameter(buildFor);
      if lua.includeLua == Some(false) {
        var removed := fs.RemoveAll(dir);
        if removed.Err? {
          r := Rejected(removed.error);
        }
        return;
      }
      if lua.luaFiles.None? {
        return;
      }
      var present := fs.PathExists(dir);
      if !present {
        var _ := fs.MakeDir(dir);
      }
      var files, log;
      r, files, log := WriteScripts(fs, buildLocation, dir, lua.luaFiles.value, date, sha, lint);
      buildFor := buildFor.(lua := Some(lua.(luaFiles := Some(files))));
      emitted := emitted + Says(log);
    }

    /** `runBuild`: waf in a shell of its own; the caller's argument arrays keep the flags pushed onto them. */
    method RunBuild(output: seq<Event>) returns (r: Promise<()>)
      modifies this`buildFor
      ensures r == WafBuild.RunBuild(old(buildFor), buildLocation, output).1
      ensures buildFor == WafBuild.AfterRun(old(buildFor))
    {
      var shell;
      r, shell, buildFor := WafBuild.RunWaf(buildFor, buildLocation, output);
    }

    /**
     * `build`: `begin`, the stages in order, and `complete`. The first stage
     * that fails ends the build with its reason; a stage that never settles
     * leaves the build unfinished and nothing recorded.
     */
    method Build(w: World) returns (r: Promise<()>)
      modifies this, fs
      ensures var run := BuildSteps(old(buildFor), old(fs.disk), buildLocation, w);
        r == run.outcome && buildFor == run.build && fs.disk == run.disk &&
        emitted == old(emitted) + BuildEvents(run)
      ensures r.Resolved? ==> buildSuccess == Some(true) && buildError.None?
      ensures r.Rejected? ==> buildSuccess == Some(false) && buildError == Some(r.reason)
      ensures r.Pending? ==> buildSuccess == old(buildSuccess) && buildError == old(buildError)
    {
      emitted := emitted + [Begin];
      r := Stages(w);
      Finish(r);
      BuildEventsSplit(old(emitted), BuildSteps(old(buildFor), old(fs.disk), buildLocation, w));
    }

    /** `complete` as `build` calls it for a settled outcome, after `Build failed!` for a failure. */
    method Finish(r: Promise<()>)
      modifies this`buildSuccess, this`buildError, this`emitted
      ensures emitted == old(emitted) + Ending(r)
      ensures r.Resolved? ==> buildSuccess == Some(true) && buildError.None?
      ensures r.Rejected? ==> buildSuccess == Some(false) && buildError == Some(r.reason)
      ensures r.Pending? ==> buildSuccess == old(buildSuccess) && buildError == old(buildError)
    {
      match r
      case Resolved(_) =>
        Complete(true, None);
      case Rejected(e) =>
        emitted := emitted + [Said(Error("Build failed!"))];
        Complete(false, Some(e));
      case Pending =>
    }

    /** The stages of `build`, between `begin` and `complete`. */
    method Stages(w: World) returns (r: Promise<()>)
      modifies this`buildFor, this`emitted, fs
      ensures var run := BuildSteps(old(buildFor), old(fs.disk), buildLocation, w);
        r == run.outcome && buildFor == run.build && fs.disk == run.disk && emitted == old(emitted) + Says(run.log)
    {
      r := w.download;
      if !r.Resolved? {
        return;
      }
      r := w.copy;
      if !r.Resolved? {
        return;
      }
      r := w.git;
      if !r.Resolved? {
        return;
      }
      r := Modifications(w);
      if !r.Resolved? {
        return;
      }
      r := RunBuild(w.waf);
      if r.Resolved? && HasFinalSteps(buildFor) {
        r := w.finalSteps;
      }
    }

    /** The bindings, Lua, hwdef and parameter stages. */
    method Modifications(w: World) returns (r: Promise<()>)
      modifies this`buildFor, this`emitted, fs
      ensures var run := Modify(old(buildFor), old(fs.disk), buildLocation, w);
        r == run.outcome && buildFor == run.build && fs.disk == run.disk && emitted == old(emitted) + Says(run.log)
    {
      r := ProcessLuaBindings();
      if !r.Resolved? {
        assert Says([]) == [];
        return;
      }
      r := LaterModifications(w);
    }

    /** The Lua, hwdef and parameter stages. */
    method LaterModifications(w: World) returns (r: Promise<()>)
      modifies this`buildFor, this`emitted, fs
      ensures var run := AfterBindings(old(buildFor), old(fs.disk), buildLocation, w);
        r == run.outcome && buildFor == run.build && fs.disk == run.disk && emitted == old(emitted) + Says(run.log)
    {
      r := ProcessLUA(w.date, w.sha, w.lint);
      if !r.Resolved? {
        return;
      }
      r := PatchBoardFiles();
    }

    /** The hwdef and parameter stages. */
    method PatchBoardFiles() returns (r: Promise<()>)
      modifies fs
      ensures (r, fs.disk) == BoardFiles(buildFor, old(fs.disk), buildLocation)
    {
      r := ProcessHwDef();
      if !r.Resolved? {
        return;
      }
      r := ProcessParameters();
    }
  }
}
