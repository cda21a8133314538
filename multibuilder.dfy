/**
 * `MultiBuilder`: several board builds driven together. Builders whose
 * repositories are cloned by the same command share one download; every
 * builder is built, a failing build does not stop the others, and the
 * builders are then split into those that succeeded and those that failed.
 * The events of each builder are passed on with the builder as their scope.
 */
module MultiBuilding {
  import opened Wrappers
  import opened JsText
  import opened BuildConfig
  import opened FileSystem
  import opened BoardLocations
  import opened LuaCheck
  import opened BoardBuilding

  // ---------------------------------------------------------------------------
  // events
  // ---------------------------------------------------------------------------

  /** One argument of an emitted event; a scope is the index of a builder, `None` for the orchestrator. */
  datatype Arg = Text(text: string) | Scope(scope: Option<nat>) | Flag(flag: bool) | Reason(reason: Option<string>) | Builders(indices: seq<nat>)

  /** An event as emitted: its name and its arguments in order. */
  datatype Emission = Emission(name: string, args: seq<Arg>)

  function InfoEvent(message: string, scope: Option<nat>): Emission
  {
    Emission("info", [Text(message), Scope(scope)])
  }

  function ErrorEvent(message: string, scope: Option<nat>): Emission
  {
    Emission("error", [Text(message), Scope(scope)])
  }

  /** `warning` as written: the scope is emitted first and the message second. */
  function WarningAsWritten(message: string, scope: Option<nat>): Emission
  {
    Emission("warn", [Scope(scope), Text(message)])
  }

  /** `warning` as the other channels emit: the message first, then the scope. */
  function Warning(message: string, scope: Option<nat>): Emission
  {
    Emission("warn", [Text(message), Scope(scope)])
  }

  /** A listener that reads the first argument of a warning as its message gets the scope instead. */
  lemma WarningArgumentsSwapped(message: string, scope: Option<nat>)
    ensures WarningAsWritten(message, scope).args[0] == Scope(scope)
    ensures WarningAsWritten(message, scope).args[0] != InfoEvent(message, scope).args[0]
    ensures WarningAsWritten(message, scope).args != InfoEvent(message, scope).args
  {
  }

  /** The corrected warning lays out its arguments as `info` and `error` do. */
  lemma WarningLikeOtherChannels(message: string, scope: Option<nat>)
    ensures Warning(message, scope).args == InfoEvent(message, scope).args
    ensures Warning(message, scope).args == ErrorEvent(message, scope).args
    ensures Warning(message, scope).args[0] == Text(message)
  {
  }

  /** A builder's event as passed on by the orchestrator, scoped to builder `i`. */
  function Relay(e: Emitted, i: nat): (r: Emission)
    ensures Scope(Some(i)) in r.args
  {
    match e
    case Begin => Emission("begin", [Scope(Some(i))])
    case Said(Info(t)) => InfoEvent(t, Some(i))
    case Said(Error(t)) => ErrorEvent(t, Some(i))
    case Completed(success, reason) => Emission("complete", [Flag(success), Reason(reason), Scope(Some(i))])
  }

  function Relays(es: seq<Emitted>, i: nat): (r: seq<Emission>)
    ensures |r| == |es| && forall k :: 0 <= k < |r| ==> r[k] == Relay(es[k], i)
  {
    seq(|es|, k requires 0 <= k < |es| => Relay(es[k], i))
  }

  /** Every event passed on for builder `i` names builder `i`, and only the orchestrator's own events have no scope. */
  lemma RelayedCarryScope(e: Emitted, i: nat, message: string)
    ensures Scope(Some(i)) in Relay(e, i).args && Scope(None) !in Relay(e, i).args
    ensures Scope(None) in InfoEvent(message, None).args && Scope(None) in ErrorEvent(message, None).args
  {
  }

  // ---------------------------------------------------------------------------
  // one download per clone command
  // ---------------------------------------------------------------------------

  /** The indexes `downloadRepos` keeps: each command's first occurrence, in order. */
  function Chosen(cmds: seq<string>): (r: seq<nat>)
    decreases |cmds|
    ensures |r| <= |cmds|
    ensures forall k :: 0 <= k < |r| ==> r[k] < |cmds|
    ensures forall k, l :: 0 <= k < l < |r| ==> r[k] < r[l]
  {
    if |cmds| == 0 then []
    else
      var n := |cmds| - 1;
      if cmds[n] in cmds[..n] then Chosen(cmds[..n]) else Chosen(cmds[..n]) + [n]
  }

  /** An index is kept exactly when its command does not occur before it. */
  lemma ChosenExactly(cmds: seq<string>)
    ensures forall j :: 0 <= j < |cmds| ==> (j in Chosen(cmds) <==> cmds[j] !in cmds[..j])
  {
    forall j | 0 <= j < |cmds|
      ensures j in Chosen(cmds) <==> cmds[j] !in cmds[..j]
    {
      ChosenAt(cmds, j);
    }
  }

  lemma {:induction false} ChosenAt(cmds: seq<string>, j: nat)
    requires j < |cmds|
    decreases |cmds|
    ensures j in Chosen(cmds) <==> cmds[j] !in cmds[..j]
  {
    var n := |cmds| - 1;
    ChosenSnoc(cmds, j);
    if j < n {
      var p := cmds[..n];
      ChosenAt(p, j);
      assert cmds[..j] == p[..j] && cmds[j] == p[j];
    }
  }

  /** Adding a command keeps the earlier choices and keeps the new index when its command is new. */
  lemma ChosenSnoc(cmds: seq<string>, j: nat)
    requires j < |cmds|
    ensures var n := |cmds| - 1;
      (j < n ==> (j in Chosen(cmds) <==> j in Chosen(cmds[..n]))) &&
      (j == n ==> (j in Chosen(cmds) <==> cmds[n] !in cmds[..n]))
  {
    var n := |cmds| - 1;
    assert n !in Chosen(cmds[..n]);
  }

  /** The kept builders' commands are pairwise distinct, and every builder's command is among them. */
  lemma ChosenDistinctAndCovering(cmds: seq<string>)
    ensures var r := Chosen(cmds);
      (forall k, l :: 0 <= k < l < |r| ==> cmds[r[k]] != cmds[r[l]]) &&
      (forall j :: 0 <= j < |cmds| ==> exists k :: 0 <= k < |r| && cmds[r[k]] == cmds[j])
  {
    ChosenExactly(cmds);
    var r := Chosen(cmds);
    forall k, l | 0 <= k < l < |r|
      ensures cmds[r[k]] != cmds[r[l]]
    {
      assert cmds[r[k]] == cmds[..r[l]][r[k]];
    }
    forall j | 0 <= j < |cmds|
      ensures exists k :: 0 <= k < |r| && cmds[r[k]] == cmds[j]
    {
      FirstOccurrenceChosen(cmds, j);
    }
  }

  /** The first occurrence of a builder's command is a kept index. */
  lemma FirstOccurrenceChosen(cmds: seq<string>, j: nat)
    requires j < |cmds|
    ensures exists k :: 0 <= k < |Chosen(cmds)| && cmds[Chosen(cmds)[k]] == cmds[j]
  {
    ChosenExactly(cmds);
    var i :| 0 <= i <= j && cmds[i] == cmds[j] && cmds[i] !in cmds[..i] by {
      FirstIndex(cmds, j);
    }
    var r := Chosen(cmds);
    assert i in r;
    var k :| 0 <= k < |r| && r[k] == i;
  }

  /** Some occurrence of `cmds[j]` at or before `j` is its first. */
  lemma {:induction false} FirstIndex(cmds: seq<string>, j: nat)
    requires j < |cmds|
    decreases j
    ensures exists i :: 0 <= i <= j && cmds[i] == cmds[j] && cmds[i] !in cmds[..i]
  {
    if cmds[j] in cmds[..j] {
      var i :| 0 <= i < j && cmds[..j][i] == cmds[j];
      FirstIndex(cmds, i);
    }
  }

  // ---------------------------------------------------------------------------
  // the summary
  // ---------------------------------------------------------------------------

  /**
   * The builders with a falsy `buildError` and the others: every builder
   * lands in one of the two lists, the first holding only falsy errors and
   * the second only truthy ones, each in the builders' order.
   */
  function Partition(errors: seq<Option<string>>): (r: (seq<nat>, seq<nat>))
    decreases |errors|
    ensures |r.0| + |r.1| == |errors|
    ensures forall k :: 0 <= k < |r.0| ==> r.0[k] < |errors| && !Truthy(errors[r.0[k]])
    ensures forall k :: 0 <= k < |r.1| ==> r.1[k] < |errors| && Truthy(errors[r.1[k]])
    ensures forall k, l :: 0 <= k < l < |r.0| ==> r.0[k] < r.0[l]
    ensures forall k, l :: 0 <= k < l < |r.1| ==> r.1[k] < r.1[l]
  {
    if |errors| == 0 then ([], [])
    else
      var n := |errors| - 1;
      var p := Partition(errors[..n]);
      if !Truthy(errors[n]) then (p.0 + [n], p.1) else (p.0, p.1 + [n])
  }

  /** A builder is among the successful ones exactly when its `buildError` is falsy, and among the failed ones otherwise. */
  lemma PartitionExactly(errors: seq<Option<string>>)
    ensures var r := Partition(errors);
      forall j :: 0 <= j < |errors| ==> (j in r.0 <==> !Truthy(errors[j])) && (j in r.1 <==> Truthy(errors[j]))
  {
    forall j | 0 <= j < |errors|
      ensures (j in Partition(errors).0 <==> !Truthy(errors[j])) && (j in Partition(errors).1 <==> Truthy(errors[j]))
    {
      PartitionAt(errors, j);
    }
  }

  lemma {:induction false} PartitionAt(errors: seq<Option<string>>, j: nat)
    requires j < |errors|
    decreases |errors|
    ensures var r := Partition(errors); (j in r.0 <==> !Truthy(errors[j])) && (j in r.1 <==> Truthy(errors[j]))
  {
    var n := |errors| - 1;
    var p := errors[..n];
    PartitionSnoc(errors, j);
    if j < n {
      PartitionAt(p, j);
      assert errors[j] == p[j];
    }
  }

  /** Adding a builder keeps the earlier ones where they were and files the new one by its error. */
  lemma PartitionSnoc(errors: seq<Option<string>>, j: nat)
    requires j < |errors|
    ensures var n, r := |errors| - 1, Partition(errors); var p := Partition(errors[..n]);
      (j < n ==> (j in r.0 <==> j in p.0) && (j in r.1 <==> j in p.1)) &&
      (j == n ==> (j in r.0 <==> !Truthy(errors[n])) && (j in r.1 <==> Truthy(errors[n])))
  {
    var n := |errors| - 1;
    assert n !in Partition(errors[..n]).0 && n !in Partition(errors[..n]).1;
  }

  /** The messages of `build` once every builder has settled, given each builder's name and `buildError`. */
  function Summary(names: seq<string>, errors: seq<Option<string>>): (r: seq<Emission>)
    requires |names| == |errors|
    ensures var (success, failed) := Partition(errors);
      (|failed| == 0 ==> r == [InfoEvent("All " + NatToString(|errors|) + " board(s) built successfully!", None)]) &&
      (|failed| > 0 ==> (|r| == 2 + |failed| &&
        r[0] == InfoEvent(NatToString(|success|) + "/" + NatToString(|errors|) + " board(s) were built successfully", None) &&
        r[1] == ErrorEvent(NatToString(|failed|) + "/" + NatToString(|errors|) + " failed building", None)))
  {
    var (success, failed) := Partition(errors);
    SummaryHead(|success|, |failed|, |errors|) + FailureLines(names, errors, failed)
  }

  /** The counting lines of the summary, for `s` successful and `f` failed builders out of `n`. */
  function SummaryHead(s: nat, f: nat, n: nat): seq<Emission>
  {
    if f == 0 then [InfoEvent("All " + NatToString(n) + " board(s) built successfully!", None)]
    else
      [InfoEvent(NatToString(s) + "/" + NatToString(n) + " board(s) were built successfully", None),
       ErrorEvent(NatToString(f) + "/" + NatToString(n) + " failed building", None)]
  }

  /** One error line per failed builder, in order: its name and its error. */
  function FailureLines(names: seq<string>, errors: seq<Option<string>>, failed: seq<nat>): (r: seq<Emission>)
    requires |names| == |errors| && forall k :: 0 <= k < |failed| ==> failed[k] < |errors|
    ensures |r| == |failed|
    ensures forall k :: 0 <= k < |r| ==>
      r[k] == ErrorEvent(names[failed[k]] + " failed: " + errors[failed[k]].GetOr("unknown"), None)
  {
    seq(|failed|, k requires 0 <= k < |failed| =>
      ErrorEvent(names[failed[k]] + " failed: " + errors[failed[k]].GetOr("unknown"), None))
  }

  /**
   * For a builder built once, the summary counts it as failed exactly when
   * its build failed with a non-empty reason: a build rejected with an empty
   * reason is listed among the successful ones.
   */
  lemma FailedIffRejected(r: Promise<()>)
    ensures var error := if r.Rejected? then Some(r.reason) else None;
      Truthy(error) <==> r.Rejected? && r.reason != ""
  {
  }

  // ---------------------------------------------------------------------------
  // the builds, one after another on the shared disk
  // ---------------------------------------------------------------------------

  /** What a builder needs to be built: its description and its build location. */
  datatype Job = Job(build: Build, location: string)

  /** The disk, the emissions, and each builder's build and `buildError` when the builds begin. */
  datatype Start = Start(disk: Disk, emitted: seq<Emission>, builds: seq<Build>, errors: seq<Option<string>>)

  /** One builder's build: its job, the disk it starts on and what the outside world does. */
  type BuildStep = (Job, Disk, World) -> BuildRun

  /** The build of a board builder as `build` does it. */
  function BoardBuild(): BuildStep
  {
    (j: Job, d: Disk, w: World) => BuildSteps(j.build, d, j.location, w)
  }

  /**
   * A trigger only, not a constraint: true for every job, disk and world. It
   * names the points at which `ModelsBoardBuild` is instantiated.
   */
  predicate InstantiateAt(j: Job, d: Disk, w: World)
  {
    true
  }

  /** `step` builds as a board builder does. */
  ghost predicate ModelsBoardBuild(step: BuildStep)
  {
    forall j, d, w {:trigger InstantiateAt(j, d, w)} :: InstantiateAt(j, d, w) ==> step(j, d, w) == BuildSteps(j.build, d, j.location, w)
  }

  lemma BoardBuildModels()
    ensures ModelsBoardBuild(BoardBuild())
  {
  }

  /**
   * The builds from the `i`-th on, each on the disk the previous one left.
   * When only one build runs at a time (`all` false) a build that never
   * settles holds up every later one; otherwise every build is attempted.
   */
  function RunFrom(step: BuildStep, jobs: seq<Job>, worlds: seq<World>, i: nat, d: Disk, all: bool): (r: seq<BuildRun>)
    requires i <= |jobs| == |worlds|
    decreases |jobs| - i
    ensures |r| <= |jobs| - i
  {
    if i == |jobs| then []
    else
      var run := step(jobs[i], d, worlds[i]);
      if !all && run.outcome.Pending? then [run] else [run] + RunFrom(step, jobs, worlds, i + 1, run.disk, all)
  }

  /**
   * A failing build never stops the others: with every build attempted there
   * is a run for each builder, and one at a time the runs stop short only at
   * a build that never settles, every earlier one having settled.
   */
  lemma {:induction false} RunFromAttemptsAll(step: BuildStep, jobs: seq<Job>, worlds: seq<World>, i: nat, d: Disk, all: bool)
    requires i <= |jobs| == |worlds|
    decreases |jobs| - i
    ensures var r := RunFrom(step, jobs, worlds, i, d, all);
      (all ==> |r| == |jobs| - i) &&
      (!all ==> forall k :: 0 <= k < |r| - 1 ==> !r[k].outcome.Pending?) &&
      (!all && |r| < |jobs| - i ==> |r| > 0 && r[|r| - 1].outcome.Pending?)
  {
    if i < |jobs| {
      RunFromAttemptsAll(step, jobs, worlds, i + 1, step(jobs[i], d, worlds[i]).disk, all);
    }
  }

  /** The runs of the first `i` builds, each on the disk the previous one left. */
  function RunsBefore(step: BuildStep, jobs: seq<Job>, worlds: seq<World>, d: Disk, i: nat): (r: seq<BuildRun>)
    requires i <= |jobs| == |worlds|
    ensures |r| == i
  {
    if i == 0 then []
    else
      var before := RunsBefore(step, jobs, worlds, d, i - 1);
      before + [step(jobs[i - 1], LastDisk(d, before), worlds[i - 1])]
  }

  /**
   * The runs from the start are the first `i` runs followed by the runs that
   * come after; one at a time, that needs each of the first `i` to have settled.
   */
  lemma {:induction false} RunFromSplit(step: BuildStep, jobs: seq<Job>, worlds: seq<World>, d: Disk, all: bool, i: nat)
    requires i <= |jobs| == |worlds|
    requires !all ==> Settled(RunsBefore(step, jobs, worlds, d, i))
    ensures var before := RunsBefore(step, jobs, worlds, d, i);
      RunFrom(step, jobs, worlds, 0, d, all) == before + RunFrom(step, jobs, worlds, i, LastDisk(d, before), all)
  {
    if i > 0 {
      var before := RunsBefore(step, jobs, worlds, d, i - 1);
      var run := step(jobs[i - 1], LastDisk(d, before), worlds[i - 1]);
      SettledSnoc(before, run);
      RunFromSplit(step, jobs, worlds, d, all, i - 1);
      Assoc(before, [run], RunFrom(step, jobs, worlds, i, run.disk, all));
    }
  }

  /**
   * Where the loop of `build` ends: after every build, or one at a time at
   * the first build that does not settle.
   */
  lemma RunFromBefore(step: BuildStep, jobs: seq<Job>, worlds: seq<World>, d: Disk, all: bool, i: nat)
    requires i <= |jobs| == |worlds|
    requires !all ==> Settled(RunsBefore(step, jobs, worlds, d, i))
    requires i < |jobs| ==> !all && RunsBefore(step, jobs, worlds, d, i + 1)[i].outcome.Pending?
    ensures RunFrom(step, jobs, worlds, 0, d, all) == RunsBefore(step, jobs, worlds, d, if i < |jobs| then i + 1 else i)
  {
    RunFromSplit(step, jobs, worlds, d, all, i);
  }

  /** Every run so far has settled. */
  predicate Settled(runs: seq<BuildRun>)
  {
    forall k :: 0 <= k < |runs| ==> !runs[k].outcome.Pending?
  }

  lemma SettledSnoc(runs: seq<BuildRun>, run: BuildRun)
    ensures Settled(runs + [run]) <==> Settled(runs) && !run.outcome.Pending?
  {
    assert (runs + [run])[|runs|] == run;
    assert forall k :: 0 <= k < |runs| ==> (runs + [run])[k] == runs[k];
  }

  /** The disk after the runs so far. */
  function LastDisk(d: Disk, runs: seq<BuildRun>): Disk
  {
    if |runs| == 0 then d else runs[|runs| - 1].disk
  }

  /** The builds of the builders once the runs so far are over. */
  function BuildsAfter(runs: seq<BuildRun>, before: seq<Build>): (r: seq<Build>)
    requires |runs| <= |before|
    ensures |r| == |before|
    ensures forall k :: 0 <= k < |r| ==> r[k] == if k < |runs| then runs[k].build else before[k]
  {
    seq(|before|, k requires 0 <= k < |before| => if k < |runs| then runs[k].build else before[k])
  }

  /** The `buildError` of each builder once the runs so far are over. */
  function ErrorsAfter(runs: seq<BuildRun>, before: seq<Option<string>>): (r: seq<Option<string>>)
    requires |runs| <= |before|
    ensures |r| == |before|
    ensures forall k :: 0 <= k < |r| ==> r[k] == if k < |runs| then ErrorAfter(runs[k].outcome, before[k]) else before[k]
  {
    seq(|before|, k requires 0 <= k < |before| => if k < |runs| then ErrorAfter(runs[k].outcome, before[k]) else before[k])
  }

  lemma BuildsAfterNext(runs: seq<BuildRun>, run: BuildRun, builds: seq<Build>, errors: seq<Option<string>>)
    requires |runs| < |builds| && |runs| < |errors|
    ensures BuildsAfter(runs, builds)[|runs| := run.build] == BuildsAfter(runs + [run], builds)
    ensures ErrorsAfter(runs, errors)[|runs| := ErrorAfter(run.outcome, ErrorsAfter(runs, errors)[|runs|])] ==
      ErrorsAfter(runs + [run], errors)
  {
  }

  /** The `buildError` a build leaves: cleared on success, the reason on failure, untouched while unsettled. */
  function ErrorAfter(outcome: Promise<()>, previous: Option<string>): Option<string>
  {
    match outcome
    case Resolved(_) => None
    case Rejected(e) => Some(e)
    case Pending => previous
  }

  /** The events of the runs from the `k`-th on, passed on with their builders as scope. */
  function RelayRuns(runs: seq<BuildRun>, k: nat): seq<Emission>
    decreases |runs| - k
  {
    if k >= |runs| then [] else Relays(BuildEvents(runs[k]), k) + RelayRuns(runs, k + 1)
  }

  lemma {:induction false} RelayRunsSnoc(runs: seq<BuildRun>, run: BuildRun, k: nat)
    requires k <= |runs|
    decreases |runs| - k
    ensures RelayRuns(runs + [run], k) == RelayRuns(runs, k) + Relays(BuildEvents(run), |runs|)
  {
    var last := Relays(BuildEvents(run), |runs|);
    if k < |runs| {
      RelayRunsSnoc(runs, run, k + 1);
      var head := Relays(BuildEvents(runs[k]), k);
      assert (runs + [run])[k] == runs[k];
      assert RelayRuns(runs + [run], k) == head + RelayRuns(runs + [run], k + 1);
      Assoc(head, RelayRuns(runs, k + 1), last);
    } else {
      assert RelayRuns(runs + [run], k) == last + [];
    }
  }

  /** The event `allComplete`, with the successful and the failed builders. */
  function AllComplete(p: (seq<nat>, seq<nat>)): Emission
  {
    Emission("allComplete", [Builders(p.0), Builders(p.1)])
  }

  /** The clone command of each builder, as things stand. */
  ghost function CommandsOf(bs: seq<BoardBuilder>): (r: seq<string>)
    reads set b | b in bs
    ensures |r| == |bs| && forall i :: 0 <= i < |r| ==> r[i] == bs[i].CloneCommandNow()
  {
    seq(|bs|, i requires 0 <= i < |bs| reads bs => bs[i].CloneCommandNow())
  }

  /** What each builder builds. */
  ghost function BuildsOf(bs: seq<BoardBuilder>): (r: seq<Build>)
    reads set b | b in bs
    ensures |r| == |bs| && forall i :: 0 <= i < |r| ==> r[i] == bs[i].buildFor
  {
    seq(|bs|, i requires 0 <= i < |bs| reads bs => bs[i].buildFor)
  }

  /** What each builder builds and where. */
  ghost function JobsOf(bs: seq<BoardBuilder>): (r: seq<Job>)
    reads set b | b in bs
    ensures |r| == |bs| && forall i :: 0 <= i < |r| ==> r[i] == Job(bs[i].buildFor, bs[i].buildLocation)
  {
    seq(|bs|, i requires 0 <= i < |bs| reads bs => Job(bs[i].buildFor, bs[i].buildLocation))
  }

  /** The builds with the first `i` given the ArduPilot remote where they had none. */
  ghost function Remoted(fors: seq<Build>, i: nat): (r: seq<Build>)
    ensures |r| == |fors| && forall k :: 0 <= k < |r| ==> r[k] == if k < i then WithRemote(fors[k]) else fors[k]
  {
    seq(|fors|, k requires 0 <= k < |fors| => if k < i then WithRemote(fors[k]) else fors[k])
  }

  lemma RemotedStep(fors: seq<Build>, i: nat)
    requires i < |fors|
    ensures Remoted(fors, i)[i := WithRemote(fors[i])] == Remoted(fors, i + 1)
  {
    assert Remoted(fors, i)[i := WithRemote(fors[i])] == Remoted(fors, i + 1);
  }

  /** Each builder's `buildError`. */
  function ErrorsOf(bs: seq<BoardBuilder>): (r: seq<Option<string>>)
    reads set b | b in bs
    ensures |r| == |bs| && forall i :: 0 <= i < |r| ==> r[i] == bs[i].buildError
  {
    seq(|bs|, i requires 0 <= i < |bs| reads bs => bs[i].buildError)
  }

  /** Each builder's `name`. */
  function NamesOf(bs: seq<BoardBuilder>): (r: seq<string>)
    reads set b | b in bs
    ensures |r| == |bs| && forall i :: 0 <= i < |r| ==> r[i] == BuildName(bs[i].buildFor)
  {
    seq(|bs|, i requires 0 <= i < |bs| reads bs => BuildName(bs[i].buildFor))
  }

  // ---------------------------------------------------------------------------
  // the orchestrator object
  // ---------------------------------------------------------------------------

  /** A builder as `new BoardBuilder(build)` leaves it, under the base directory `base`. */
  ghost predicate NewBuilder(b: BoardBuilder, build: Build, base: string)
    reads b
  {
    b.buildFor == WithDefaultRepo(build) &&
    b.buildLocation == BuildLocation(base, WithDefaultRepo(build)) &&
    b.repoLocation == RepoLocation(base, WithDefaultRepo(build).gitRepo.value) &&
    b.buildError.None? && b.emitted == []
  }

  /** `builds.map(board => new BoardBuilder(board))`: a fresh builder per build, in order. */
  method MakeBuilders(builds: seq<Build>, base: string, fs: FileStore) returns (made: seq<BoardBuilder>)
    ensures |made| == |builds|
    ensures forall k, l :: 0 <= k < l < |made| ==> made[k] != made[l]
    ensures forall k :: 0 <= k < |made| ==> fresh(made[k]) && made[k].fs == fs
    ensures forall k :: 0 <= k < |made| ==> NewBuilder(made[k], builds[k], base)
  {
    made := [];
    var i := 0;
    while i < |builds|
      invariant 0 <= i <= |builds| && |made| == i
      invariant forall k, l :: 0 <= k < l < i ==> made[k] != made[l]
      invariant forall k :: 0 <= k < i ==> fresh(made[k]) && made[k].fs == fs
      invariant forall k :: 0 <= k < i ==> NewBuilder(made[k], builds[k], base)
    {
      var b := MakeBuilder(builds[i], base, fs);
      made := made + [b];
      i := i + 1;
    }
  }

  /** `new BoardBuilder(build)`. */
  method MakeBuilder(build: Build, base: string, fs: FileStore) returns (b: BoardBuilder)
    ensures fresh(b) && b.fs == fs && NewBuilder(b, build, base)
  {
    b := new BoardBuilder(build, base, fs);
  }

  class MultiBuilder {
    /** The builders, fixed once constructed. */
    const builders: seq<BoardBuilder>
    /** Everything emitted so far, in order. */
    var emitted: seq<Emission>
    /** The file system of the process, which every builder shares. */
    const fs: FileStore

    /** The builders are distinct objects and share the file system. */
    ghost predicate Valid()
    {
      (forall i :: 0 <= i < |builders| ==> builders[i].fs == fs) &&
      (forall i, j :: 0 <= i < j < |builders| ==> builders[i] != builders[j])
    }

    /** `new MultiBuilder(builds)`: one builder per build, in order. An empty list is not accepted, as `builders[0]` is read. */
    constructor FromBuilds(builds: seq<Build>, base: string, fs: FileStore)
      requires |builds| >= 1
      ensures Valid() && this.fs == fs && emitted == [] && |builders| == |builds|
      ensures forall i :: 0 <= i < |builds| ==> fresh(builders[i]) && NewBuilder(builders[i], builds[i], base)
    {
      var made := MakeBuilders(builds, base, fs);
      builders := made;
      this.fs := fs;
      emitted := [];
    }

    /** `new MultiBuilder(builders)` for builders made beforehand. */
    constructor FromBuilders(bs: seq<BoardBuilder>, fs: FileStore)
      requires |bs| >= 1
      requires forall i :: 0 <= i < |bs| ==> bs[i].fs == fs
      requires forall i, j :: 0 <= i < j < |bs| ==> bs[i] != bs[j]
      ensures Valid() && builders == bs && this.fs == fs && emitted == []
    {
      builders := bs;
      this.fs := fs;
      emitted := [];
    }

    /**
     * The loop of `downloadRepos`: reads every builder's clone command,
     * keeping the first builder for each command; the builders without a
     * remote are given the ArduPilot one on the way.
     */
    method CollectRepos() returns (chosen: seq<nat>)
      requires Valid()
      modifies set b | b in builders
      ensures chosen == Chosen(old(CommandsOf(builders)))
      ensures forall i :: 0 <= i < |builders| ==> builders[i].buildFor == WithRemote(old(builders[i].buildFor))
    {
      ghost var cmds := CommandsOf(builders);
      ghost var fors := BuildsOf(builders);
      assert forall k :: 0 <= k < |cmds| ==>
        cmds[k] == CloneCommand(WithRemote(fors[k]).gitRepo.value.remote.value, builders[k].repoLocation);
      var commands: seq<string> := [];
      chosen := [];
      var i := 0;
      while i < |builders|
        invariant 0 <= i <= |builders|
        invariant Kept(cmds, i, chosen, commands)
        invariant BuildsOf(builders) == Remoted(fors, i)
      {
        var c := CloneCommandOf(i);
        assert c == cmds[i];
        RemotedStep(fors, i);
        if c !in commands {
          ChosenFresh(cmds, i, chosen, commands);
          commands := commands + [c];
          chosen := chosen + [i];
        } else {
          ChosenRepeat(cmds, i, chosen, commands);
        }
        i := i + 1;
      }
      assert cmds[..i] == cmds;
      assert chosen == Chosen(cmds[..i]);
    }

    /** `cloneRepoCommand` of the `i`-th builder; no other builder changes. */
    method CloneCommandOf(i: nat) returns (c: string)
      requires Valid() && i < |builders|
      modifies builders[i]
      ensures c == old(builders[i].CloneCommandNow())
      ensures BuildsOf(builders) == old(BuildsOf(builders))[i := WithRemote(old(builders[i].buildFor))]
    {
      c := builders[i].CloneRepoCommand();
      assert BuildsOf(builders) == old(BuildsOf(builders))[i := WithRemote(old(builders[i].buildFor))];
    }

    /** `downloadRepos`: one clone per distinct repository, announced with the counts. */
    method DownloadRepos() returns (chosen: seq<nat>)
      requires Valid()
      modifies this`emitted, set b | b in builders
      ensures chosen == Chosen(old(CommandsOf(builders)))
      ensures forall i :: 0 <= i < |builders| ==> builders[i].buildFor == WithRemote(old(builders[i].buildFor))
      ensures emitted == old(emitted) +
        [InfoEvent("Downloading " + NatToString(|chosen|) + " repo(s) required by " + NatToString(|builders|) + " builder(s)", None)]
    {
      chosen := CollectRepos();
      emitted := emitted +
        [InfoEvent("Downloading " + NatToString(|chosen|) + " repo(s) required by " + NatToString(|builders|) + " builder(s)", None)];
    }

    /** The `i`-th builder built, its events passed on with its index as scope; no other builder changes. */
    method BuildOne(i: nat, w: World, ghost step: BuildStep) returns (r: Promise<()>, ghost run: BuildRun)
      requires Valid() && i < |builders| && ModelsBoardBuild(step)
      modifies this`emitted, builders[i], fs
      ensures run == step(Job(old(builders[i].buildFor), builders[i].buildLocation), old(fs.disk), w)
      ensures r == run.outcome && fs.disk == run.disk
      ensures builders[i].buildFor == run.build && builders[i].buildError == ErrorAfter(r, old(builders[i].buildError))
      ensures emitted == old(emitted) + Relays(BuildEvents(run), i)
    {
      var b := builders[i];
      var before := |b.emitted|;
      r := b.Build(w);
      assert InstantiateAt(Job(old(b.buildFor), b.buildLocation), old(fs.disk), w);
      run := BuildSteps(old(b.buildFor), old(fs.disk), b.buildLocation, w);
      DropPrefix(old(b.emitted), BuildEvents(run));
      emitted := emitted + Relays(b.emitted[before..], i);
    }

    /**
     * The state the builds began in, and the runs so far: the disk is the
     * one the last run left, every run's events have been passed on, and
     * each builder built so far holds what its run left.
     */
    ghost predicate Tracked(s: Start, runs: seq<BuildRun>)
      reads this, fs, set b | b in builders
    {
      |runs| <= |builders| && |s.builds| == |builders| && |s.errors| == |builders| &&
      fs.disk == LastDisk(s.disk, runs) &&
      emitted == s.emitted + RelayRuns(runs, 0) &&
      BuildsOf(builders) == BuildsAfter(runs, s.builds) &&
      ErrorsOf(builders) == ErrorsAfter(runs, s.errors)
    }

    /** The next builder built, the runs so far one longer. */
    method Advance(i: nat, worlds: seq<World>, ghost s: Start, ghost jobs: seq<Job>, ghost runs: seq<BuildRun>, ghost step: BuildStep)
      returns (r: Promise<()>, ghost run: BuildRun)
      requires Valid() && i == |runs| < |builders| == |jobs| == |worlds| && ModelsBoardBuild(step) && Tracked(s, runs)
      requires jobs[i] == Job(s.builds[i], builders[i].buildLocation) && runs == RunsBefore(step, jobs, worlds, s.disk, i)
      modifies this`emitted, builders[i], fs
      ensures r == run.outcome && runs + [run] == RunsBefore(step, jobs, worlds, s.disk, i + 1)
      ensures Tracked(s, runs + [run])
    {
      r, run := BuildOne(i, worlds[i], step);
      TrackedNext(s, runs, run);
    }

    /** One more build, as `BuildOne` leaves things: the state is tracked one run further. */
    twostate lemma TrackedNext(new s: Start, new runs: seq<BuildRun>, new run: BuildRun)
      requires old(Tracked(s, runs)) && Valid() && |runs| < |builders|
      requires fs.disk == run.disk && emitted == old(emitted) + Relays(BuildEvents(run), |runs|)
      requires builders[|runs|].buildFor == run.build
      requires builders[|runs|].buildError == ErrorAfter(run.outcome, old(builders[|runs|].buildError))
      requires forall j :: 0 <= j < |builders| && j != |runs| ==>
        builders[j].buildFor == old(builders[j].buildFor) && builders[j].buildError == old(builders[j].buildError)
      ensures Tracked(s, runs + [run])
    {
      var i := |runs|;
      assert old(BuildsOf(builders))[i] == s.builds[i];
      BuildsAfterNext(runs, run, s.builds, s.errors);
      RelayRunsSnoc(runs, run, 0);
      Assoc(s.emitted, RelayRuns(runs, 0), Relays(BuildEvents(run), i));
    }

    /** Each builder built in turn: one at a time, or every one attempted when `runAsync`; failures are swallowed. */
    method RunBuilders(runAsync: bool, worlds: seq<World>, ghost step: BuildStep) returns (settled: bool)
      requires Valid() && |worlds| == |builders| && ModelsBoardBuild(step)
      modifies this`emitted, fs, set b | b in builders
      ensures var runs := RunFrom(step, old(JobsOf(builders)), worlds, 0, old(fs.disk), runAsync);
        settled == Settled(runs) &&
        fs.disk == LastDisk(old(fs.disk), runs) &&
        emitted == old(emitted) + RelayRuns(runs, 0) &&
        BuildsOf(builders) == BuildsAfter(runs, old(BuildsOf(builders))) &&
        ErrorsOf(builders) == ErrorsAfter(runs, old(ErrorsOf(builders)))
    {
      ghost var s := Start(fs.disk, emitted, BuildsOf(builders), ErrorsOf(builders));
      assert BuildsAfter([], s.builds) == s.builds && ErrorsAfter([], s.errors) == s.errors;
      ghost var runs;
      settled, runs := RunLoop(runAsync, worlds, s, JobsOf(builders), step);
    }

    /** The loop of `build` over the builders, from the state `s`. */
    method RunLoop(runAsync: bool, worlds: seq<World>, ghost s: Start, ghost jobs: seq<Job>, ghost step: BuildStep)
      returns (settled: bool, ghost runs: seq<BuildRun>)
      requires Valid() && |worlds| == |builders| == |jobs| && ModelsBoardBuild(step) && Tracked(s, [])
      requires forall k :: 0 <= k < |jobs| ==> jobs[k] == Job(s.builds[k], builders[k].buildLocation)
      modifies this`emitted, fs, set b | b in builders
      ensures runs == RunFrom(step, jobs, worlds, 0, s.disk, runAsync)
      ensures Tracked(s, runs) && settled == Settled(runs)
    {
      runs := [];
      settled := true;
      var i := 0;
      while i < |builders|
        invariant i == |runs| <= |builders|
        invariant runs == RunsBefore(step, jobs, worlds, s.disk, i)
        invariant Tracked(s, runs)
        invariant settled == Settled(runs) && (!runAsync ==> settled)
      {
        var r, run := Advance(i, worlds, s, jobs, runs, step);
        SettledSnoc(runs, run);
        runs := runs + [run];
        if r.Pending? {
          settled := false;
          if !runAsync {
            RunFromBefore(step, jobs, worlds, s.disk, runAsync, i);
            return;
          }
        }
        i := i + 1;
      }
      RunFromBefore(step, jobs, worlds, s.disk, runAsync, i);
    }

    /** The builders whose `buildError` is falsy, and the others, each in order. */
    method PartitionBuilders() returns (success: seq<nat>, failed: seq<nat>)
      ensures (success, failed) == Partition(ErrorsOf(builders))
    {
      ghost var errors := ErrorsOf(builders);
      success, failed := [], [];
      var i := 0;
      while i < |builders|
        invariant 0 <= i <= |builders|
        invariant success == Partition(errors[..i]).0 && failed == Partition(errors[..i]).1
      {
        PartitionStep(errors, i);
        if !Truthy(builders[i].buildError) {
          success := success + [i];
        } else {
          failed := failed + [i];
        }
        i := i + 1;
      }
      assert errors[..i] == errors;
    }

    /** The messages of the summary: the counts, then one error line per failed builder. */
    method SummaryLines(success: seq<nat>, failed: seq<nat>) returns (lines: seq<Emission>)
      requires (success, failed) == Partition(ErrorsOf(builders))
      ensures lines == Summary(NamesOf(builders), ErrorsOf(builders))
    {
      ghost var errors := ErrorsOf(builders);
      ghost var names := NamesOf(builders);
      lines := SummaryHead(|success|, |failed|, |builders|);
      var j := 0;
      while j < |failed|
        invariant 0 <= j <= |failed|
        invariant lines == SummaryHead(|success|, |failed|, |builders|) + FailureLines(names, errors, failed[..j])
      {
        var b := builders[failed[j]];
        assert names[failed[j]] == BuildName(b.buildFor) && errors[failed[j]] == b.buildError;
        FailureLinesStep(SummaryHead(|success|, |failed|, |builders|), names, errors, failed, j);
        lines := lines + [ErrorEvent(BuildName(b.buildFor) + " failed: " + b.buildError.GetOr("unknown"), None)];
        j := j + 1;
      }
      assert failed[..j] == failed;
    }

    /** The summary of `build`: the partition, its messages, then `allComplete`. */
    method Summarise() returns (success: seq<nat>, failed: seq<nat>)
      modifies this`emitted
      ensures (success, failed) == Partition(ErrorsOf(builders))
      ensures emitted == old(emitted) + Summary(NamesOf(builders), ErrorsOf(builders)) + [AllComplete((success, failed))]
    {
      success, failed := PartitionBuilders();
      var lines := SummaryLines(success, failed);
      emitted := emitted + lines + [AllComplete((success, failed))];
      ViewsUnchanged(builders);
    }

    /**
     * `build`: the downloads, then the builds, then the summary and
     * `allComplete`. Nothing is reported while a download or a build has not
     * settled.
     */
    method Build(runAsync: bool, worlds: seq<World>, fetched: bool) returns (finished: bool)
      requires Valid() && |worlds| == |builders|
      modifies this`emitted, fs, set b | b in builders
      ensures finished ==> fetched
      ensures finished ==> |emitted| > 0 && emitted[|emitted| - 1] == AllComplete(Partition(ErrorsOf(builders)))
      ensures |emitted| > |old(emitted)| && emitted[|old(emitted)|] == InfoEvent("Begin build!", None)
    {
      emitted := emitted + [InfoEvent("Begin build!", None)];
      ghost var mark := |emitted| - 1;
      var chosen := DownloadRepos();
      if !fetched {
        return false;
      }
      BoardBuildModels();
      var settled := RunBuilders(runAsync, worlds, BoardBuild());
      if !settled {
        return false;
      }
      var success, failed := Summarise();
      finished := true;
    }
  }

  /** The names and errors of builders none of whose fields changed. */
  twostate lemma ViewsUnchanged(bs: seq<BoardBuilder>)
    requires unchanged(set b | b in bs)
    ensures NamesOf(bs) == old(NamesOf(bs)) && ErrorsOf(bs) == old(ErrorsOf(bs))
  {
  }


  /** One more error, one more place in the partition. */
  lemma PartitionStep(errors: seq<Option<string>>, i: nat)
    requires i < |errors|
    ensures var p := Partition(errors[..i]);
      Partition(errors[..i + 1]) == if !Truthy(errors[i]) then (p.0 + [i], p.1) else (p.0, p.1 + [i])
  {
    assert errors[..i + 1][..i] == errors[..i];
  }

  lemma FailureLinesStep(head: seq<Emission>, names: seq<string>, errors: seq<Option<string>>, failed: seq<nat>, j: nat)
    requires |names| == |errors| && j < |failed| && forall k :: 0 <= k < |failed| ==> failed[k] < |errors|
    ensures head + FailureLines(names, errors, failed[..j + 1]) ==
      head + FailureLines(names, errors, failed[..j]) + [ErrorEvent(names[failed[j]] + " failed: " + errors[failed[j]].GetOr("unknown"), None)]
  {
    var line := ErrorEvent(names[failed[j]] + " failed: " + errors[failed[j]].GetOr("unknown"), None);
    assert FailureLines(names, errors, failed[..j + 1]) == FailureLines(names, errors, failed[..j]) + [line];
    Assoc(head, FailureLines(names, errors, failed[..j]), [line]);
  }

  /** After `i` builders, the builders kept are the first for each command, and `commands` holds their commands. */
  ghost predicate Kept(cmds: seq<string>, i: nat, chosen: seq<nat>, commands: seq<string>)
  {
    i <= |cmds| && chosen == Chosen(cmds[..i]) && |commands| == |chosen| &&
    forall k :: 0 <= k < |chosen| ==> chosen[k] < |cmds| && commands[k] == cmds[chosen[k]]
  }

  /** A builder whose command an earlier builder kept is not kept. */
  lemma ChosenRepeat(cmds: seq<string>, i: nat, chosen: seq<nat>, commands: seq<string>)
    requires i < |cmds| && Kept(cmds, i, chosen, commands) && cmds[i] in commands
    ensures Kept(cmds, i + 1, chosen, commands)
  {
    var k :| 0 <= k < |commands| && commands[k] == cmds[i];
    assert cmds[..i][chosen[k]] == cmds[i];
    assert cmds[..i + 1][..i] == cmds[..i];
  }

  /** A command no kept builder has does not occur before. */
  lemma FreshCommand(cmds: seq<string>, i: nat, chosen: seq<nat>, commands: seq<string>)
    requires i < |cmds| && Kept(cmds, i, chosen, commands) && cmds[i] !in commands
    ensures cmds[i] !in cmds[..i]
  {
    var done := cmds[..i];
    ChosenDistinctAndCovering(done);
    forall j | 0 <= j < |done|
      ensures done[j] != cmds[i]
    {
      var k :| 0 <= k < |chosen| && done[chosen[k]] == done[j];
      assert commands[k] == done[j];
    }
  }

  /** A builder whose command no kept builder has is kept, being the first with it. */
  lemma ChosenFresh(cmds: seq<string>, i: nat, chosen: seq<nat>, commands: seq<string>)
    requires i < |cmds| && Kept(cmds, i, chosen, commands) && cmds[i] !in commands
    ensures Kept(cmds, i + 1, chosen + [i], commands + [cmds[i]])
  {
    FreshCommand(cmds, i, chosen, commands);
    assert cmds[..i + 1][..i] == cmds[..i];
  }
}
