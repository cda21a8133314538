/**
 * `runBuild`: a `bash -e` shell started in the build location runs the waf
 * commands one after the other with `executeWait`, then `exit`. The build
 * settles when the shell closes: code 0 passes, any other code fails naming
 * the command written last.
 *
 * The extra configure and build arguments of the build options are the very
 * arrays the flags are pushed onto, so a run leaves them extended.
 */
module WafBuild {
  import opened Wrappers
  import opened JsText
  import opened ShellProcess
  import opened BuildConfig
  import opened LuaCheck

  /** The build options, or all of them absent. */
  function OptionsOf(b: Build): BuildOptions
  {
    b.buildOptions.GetOr(BuildOptions(None, None, None, None, None, None, None, None, None))
  }

  /** The configure flags the builder adds after the caller's extra arguments. */
  function ConfigureFlags(b: Build): (r: seq<string>)
    ensures |r| >= 2 && r[0] == "--board " + b.board.board && r[1] == "--target " + b.target
    ensures "--static" in r <==> OptionsOf(b).isStatic == Some(true)
    ensures "--debug" in r <==> OptionsOf(b).debug == Some(true)
    ensures Truthy(OptionsOf(b).uploadDest) ==> "--rsync-dest " + OptionsOf(b).uploadDest.value in r
    ensures |r| == 2 + (if OptionsOf(b).isStatic == Some(true) then 1 else 0) +
      (if Truthy(OptionsOf(b).uploadDest) then 1 else 0) + (if OptionsOf(b).debug == Some(true) then 1 else 0)
  {
    var o := OptionsOf(b);
    var r := ["--board " + b.board.board, "--target " + b.target] +
      (if o.isStatic == Some(true) then ["--static"] else []) +
      (if Truthy(o.uploadDest) then ["--rsync-dest " + o.uploadDest.value] else []) +
      (if o.debug == Some(true) then ["--debug"] else []);
    FlagsApart(b.board.board, b.target, o.uploadDest);
    r
  }

  /** The fixed flags differ from one another and from each `--board`, `--target` and `--rsync-dest` argument. */
  lemma FlagsApart(board: string, target: string, dest: Option<string>)
    ensures "--static" != "--board " + board && "--static" != "--target " + target
    ensures "--debug" != "--board " + board && "--debug" != "--target " + target
    ensures Truthy(dest) ==> "--rsync-dest " + dest.value !in {"--board " + board, "--target " + target, "--static", "--debug"}
  {
    assert ("--board " + board)[2] == 'b' && ("--target " + target)[2] == 't';
    if Truthy(dest) {
      var d := "--rsync-dest " + dest.value;
      assert d[2] == 'r' && |d| > |"--static"| && |d| > |"--debug"|;
    }
  }

  /** `configureParams`: the caller's extra configure arguments, then the flags. */
  function ConfigureParams(b: Build): seq<string>
  {
    OptionsOf(b).extraWafConfigureArgs.GetOr([]) + ConfigureFlags(b)
  }

  /** `buildParams`: the caller's extra build arguments, then `--upload` when asked. */
  function BuildParams(b: Build): seq<string>
  {
    OptionsOf(b).extraWafBuildArgs.GetOr([]) + (if OptionsOf(b).upload == Some(true) then ["--upload"] else [])
  }

  /** The waf configure command. */
  function ConfigureCommand(b: Build): string
  {
    "./waf configure " + Join(ConfigureParams(b), " ")
  }

  /** The waf build command. */
  function WafCommand(b: Build): string
  {
    "./waf " + b.target + " " + Join(BuildParams(b), " ")
  }

  /** Every command `runBuild` awaits, in order. */
  function BuildCommands(b: Build): (r: seq<string>)
  {
    var o := OptionsOf(b);
    (if o.distClean == Some(true) then ["./waf distclean"] else []) +
    [ConfigureCommand(b)] + o.preBuildCommands.GetOr([]) + [WafCommand(b)] + o.postBuildCommands.GetOr([])
  }

  /** Index of the configure command: after the clean, when there is one. */
  function ConfigureIndex(b: Build): nat
  {
    if OptionsOf(b).distClean == Some(true) then 1 else 0
  }

  /**
   * The order of the commands: the clean first when asked, then configure,
   * the pre-build commands, the waf build and the post-build commands.
   */
  lemma BuildCommandsOrder(b: Build)
    ensures var r, c, pre, post := BuildCommands(b), ConfigureIndex(b),
              OptionsOf(b).preBuildCommands.GetOr([]), OptionsOf(b).postBuildCommands.GetOr([]);
      |r| == c + 2 + |pre| + |post| &&
      (c == 1 ==> r[0] == "./waf distclean") &&
      r[c] == ConfigureCommand(b) &&
      r[c + 1..c + 1 + |pre|] == pre &&
      r[c + 1 + |pre|] == WafCommand(b) &&
      r[c + 2 + |pre|..] == post
  {
  }

  /** The arguments as the caller's arrays hold them once a run has pushed onto them. */
  function AfterRun(b: Build): (r: Build)
  {
    if b.buildOptions.None? then b
    else
      var o := b.buildOptions.value;
      b.(buildOptions := Some(o.(
        extraWafConfigureArgs := if o.extraWafConfigureArgs.Some? then Some(ConfigureParams(b)) else None,
        extraWafBuildArgs := if o.extraWafBuildArgs.Some? then Some(BuildParams(b)) else None)))
  }

  /**
   * A run changes only the caller's extra argument arrays, and only when they
   * exist: each gains the flags it was run with, so a second run repeats them.
   */
  lemma AfterRunRepeatsFlags(b: Build)
    ensures AfterRun(b).(buildOptions := None) == b.(buildOptions := None)
    ensures OptionsOf(b).extraWafConfigureArgs.Some? ==>
      ConfigureParams(AfterRun(b)) == ConfigureParams(b) + ConfigureFlags(b)
    ensures OptionsOf(b).extraWafConfigureArgs.None? ==> ConfigureParams(AfterRun(b)) == ConfigureParams(b)
    ensures OptionsOf(b).extraWafBuildArgs.Some? && OptionsOf(b).upload == Some(true) ==>
      BuildParams(AfterRun(b)) == BuildParams(b) + ["--upload"]
    ensures OptionsOf(b).extraWafBuildArgs.None? || OptionsOf(b).upload != Some(true) ==>
      BuildParams(AfterRun(b)) == BuildParams(b)
  {
    if b.buildOptions.Some? {
      assert ConfigureFlags(AfterRun(b)) == ConfigureFlags(b);
    }
  }

  // ---------------------------------------------------------------------------
  // the run
  // ---------------------------------------------------------------------------

  /** The outcome the close listener gives once a close is seen. */
  function Settle(close: Option<(ExitCode, string)>): (r: Promise<()>)
    ensures r.Pending? <==> close.None?
    ensures r.Resolved? <==> close.Some? && IsSuccess(close.value.0)
  {
    match close
    case None => Pending
    case Some((code, last)) => if IsSuccess(code) then Resolved(()) else Rejected(ProcessFailure(code, last))
  }

  /** The shell the build runs in. */
  function BuildShell(buildLocation: string, output: seq<Event>): Shell
  {
    Spawn(true, output, Some(buildLocation))
  }

  /**
   * `runBuild` on a shell whose output is `output`: the final shell and the
   * outcome. A wait that never settles leaves the build pending; otherwise
   * `exit` is written and the build settles on the first close.
   */
  function RunBuild(b: Build, buildLocation: string, output: seq<Event>): (Shell, Promise<()>)
  {
    var (s1, settled) := RunCommands(BuildShell(buildLocation, output), BuildCommands(b));
    if !settled then (s1, Pending)
    else
      var s2 := ExecuteStep(s1, "exit", false).0;
      var (s3, close) := CloseWaitStep(s2);
      (s3, Settle(close))
  }

  /** The lines written to the shell for a run of these commands: change into the build location, then each command. */
  function BuildLines(buildLocation: string, commands: seq<string>): seq<string>
  {
    (if buildLocation != "" then ["cd " + buildLocation + "\n"] else []) + WaitLines(commands)
  }

  /**
   * A shell that finishes every command and then closes runs all of them in
   * order, receives `exit`, and the build passes exactly when the code is 0;
   * a failing code is reported against `exit`.
   */
  lemma RunBuildAllFinish(b: Build, buildLocation: string, done: seq<Event>, code: ExitCode, rest: seq<Event>)
    requires |done| == |BuildCommands(b)| && AllSentinels(done)
    ensures var r := RunBuild(b, buildLocation, done + [Close(code)] + rest);
      r.0.writes == BuildLines(buildLocation, BuildCommands(b)) + ["exit\n"] &&
      r.0.pending == rest &&
      r.1 == if IsSuccess(code) then Resolved(()) else Rejected(ProcessFailure(code, "exit"))
  {
    var commands := BuildCommands(b);
    var output := done + [Close(code)] + rest;
    var s0 := BuildShell(buildLocation, output);
    Regroup(done, code, rest);
    RunCommandsAllFinish(s0, commands, done, [Close(code)] + rest);
    ExitThenClose(AllFinished(s0, commands, done, [Close(code)] + rest), code, rest);
  }

  lemma Regroup(done: seq<Event>, code: ExitCode, rest: seq<Event>)
    ensures done + [Close(code)] + rest == done + ([Close(code)] + rest)
  {
  }

  /** A shell whose next event is its close, once `exit` is written, closes with the code against `exit`. */
  lemma ExitThenClose(s: Shell, code: ExitCode, rest: seq<Event>)
    requires Writable(s) && s.pending == [Close(code)] + rest
    ensures var r := CloseWaitStep(ExecuteStep(s, "exit", false).0);
      r.0.writes == s.writes + ["exit\n"] && r.0.pending == rest && r.1 == Some((code, "exit"))
  {
    assert ExecuteLine("exit", false) == "exit\n";
    FirstCloseAt(s.pending, 0);
  }

  /**
   * A shell that finishes the first `|done|` commands and then closes (as
   * `bash -e` does when a command fails) ends the build: the failing command
   * is the last one written, a failing code is reported against it, and no
   * later command reaches the shell. Code 0 at that point passes the build.
   */
  lemma RunBuildStopsAt(b: Build, buildLocation: string, done: seq<Event>, code: ExitCode, rest: seq<Event>)
    requires |done| < |BuildCommands(b)| && AllSentinels(done)
    ensures var r, commands := RunBuild(b, buildLocation, done + [Close(code)] + rest), BuildCommands(b);
      r.0.writes == BuildLines(buildLocation, commands[..|done| + 1]) &&
      r.0.pending == rest &&
      r.1 == if IsSuccess(code) then Resolved(()) else Rejected(ProcessFailure(code, commands[|done|]))
  {
    var s0 := BuildShell(buildLocation, done + [Close(code)] + rest);
    var mid := RunCommandsCloseDuring(s0, BuildCommands(b), done, code, rest);
  }

  /** Output without a close means the build never settles, whatever it prints. */
  lemma RunBuildWithoutClose(b: Build, buildLocation: string, output: seq<Event>)
    requires forall j :: 0 <= j < |output| ==> !output[j].Close?
    ensures RunBuild(b, buildLocation, output).1.Pending?
  {
    var s0 := BuildShell(buildLocation, output);
    RunCommandsKeepOpen(s0, BuildCommands(b));
  }

  /** Without a close in the output, the commands leave the shell open with no close to come. */
  lemma {:induction false} RunCommandsKeepOpen(s: Shell, commands: seq<string>)
    requires s.closedWith.None? && forall j :: 0 <= j < |s.pending| ==> !s.pending[j].Close?
    decreases |commands|
    ensures var r := RunCommands(s, commands).0;
      r.closedWith.None? && forall j :: 0 <= j < |r.pending| ==> !r.pending[j].Close?
  {
    if |commands| > 0 {
      var step := ExecuteWaitStep(s, commands[0], false);
      if Writable(s) && FirstCompletion(s.pending).Some? {
        var k := FirstCompletion(s.pending).value;
        assert forall j :: 0 <= j < |step.0.pending| ==> step.0.pending[j] == s.pending[k + 1 + j];
      }
      if !step.1.Pending? {
        RunCommandsKeepOpen(step.0, commands[1..]);
      }
    }
  }

  /**
   * `runBuild` on a shell of its own: the commands are awaited in turn, then
   * `exit` is written and the close awaited. The caller's argument arrays are
   * returned as the run leaves them.
   */
  method RunWaf(b: Build, buildLocation: string, output: seq<Event>)
    returns (outcome: Promise<()>, shell: Shell, after: Build)
    ensures (shell, outcome) == RunBuild(b, buildLocation, output)
    ensures after == AfterRun(b)
  {
    var process := new Process(true, output, Some(buildLocation));
    var commands := BuildCommands(b);
    var settled := process.RunCommandList(commands);
    after := AfterRun(b);
    if !settled {
      return Pending, process.State(), after;
    }
    var _ := process.Exit();
    var close := process.WaitForClose();
    outcome := Settle(close);
    shell := process.State();
  }
}
