/**
 * The `Process` wrapper around a `bash` child: commands are written to its
 * stdin one line at a time, and `executeWait` waits until the output shows a
 * sentinel or the child closes.
 *
 * The child is abstract. Its output is a stream of events fixed when it is
 * spawned. Listeners see those events only while a caller waits, in order.
 */
module ShellProcess {
  import opened Wrappers
  import opened JsText

  /** The `code` of a close event: an exit status, or `null` when a signal ended the child. */
  datatype ExitCode = Code(n: int) | Killed

  /** Template-literal rendering of a close code. */
  function ExitCodeToString(c: ExitCode): string
  {
    match c
    case Code(n) => IntToString(n)
    case Killed => "null"
  }

  /** `code == 0` in a close handler. */
  predicate IsSuccess(c: ExitCode)
  {
    c == Code(0)
  }

  /** One event from the child: a chunk of stdout, or the close of the child. */
  datatype Event = Data(chunk: string) | Close(code: ExitCode)

  /** The marker `executeWait` has the shell echo once the command has finished. */
  const Sentinel: string := "***PROCESS_DONE***"

  /** What `execute` writes. */
  function ExecuteLine(command: string, exitAfter: bool): string
  {
    command + (if exitAfter then ";exit" else "") + "\n"
  }

  /** What `executeWait` writes. */
  function ExecuteWaitLine(command: string, exitAfter: bool): string
  {
    command + (if exitAfter then ";exit" else ";echo '" + Sentinel + "'") + "\n"
  }

  /** An event that settles a pending `executeWait`: a close, or a chunk holding the sentinel. */
  predicate Completes(e: Event)
  {
    e.Close? || Contains(e.chunk, Sentinel)
  }

  /** The position of the first event that settles an `executeWait`, if any. */
  function FirstCompletion(events: seq<Event>): (r: Option<nat>)
    ensures r.Some? ==> r.value < |events| && Completes(events[r.value])
    ensures r.Some? ==> forall j :: 0 <= j < r.value ==> !Completes(events[j])
    ensures r.None? ==> forall j :: 0 <= j < |events| ==> !Completes(events[j])
  {
    if |events| == 0 then None
    else if Completes(events[0]) then Some(0)
    else
      match FirstCompletion(events[1..])
      case None => None
      case Some(k) => Some(k + 1)
  }

  /** The position of the first close event, if any. */
  function FirstClose(events: seq<Event>): (r: Option<nat>)
    ensures r.Some? ==> r.value < |events| && events[r.value].Close?
    ensures r.Some? ==> forall j :: 0 <= j < r.value ==> !events[j].Close?
    ensures r.None? ==> forall j :: 0 <= j < |events| ==> !events[j].Close?
  {
    if |events| == 0 then None
    else if events[0].Close? then Some(0)
    else
      match FirstClose(events[1..])
      case None => None
      case Some(k) => Some(k + 1)
  }

  /** A completing event preceded only by non-completing ones is the first completion. */
  lemma {:induction false} FirstCompletionAt(events: seq<Event>, i: nat)
    requires i < |events| && Completes(events[i])
    requires forall j :: 0 <= j < i ==> !Completes(events[j])
    ensures FirstCompletion(events) == Some(i)
  {
    if i > 0 {
      FirstCompletionAt(events[1..], i - 1);
    }
  }

  lemma {:induction false} FirstCloseAt(events: seq<Event>, i: nat)
    requires i < |events| && events[i].Close?
    requires forall j :: 0 <= j < i ==> !events[j].Close?
    ensures FirstClose(events) == Some(i)
  {
    if i > 0 {
      FirstCloseAt(events[1..], i - 1);
    }
  }

  /** Without `exitAfter`, the line `executeWait` writes carries the sentinel for the shell to echo. */
  lemma WaitLineCarriesSentinel(command: string)
    ensures Contains(ExecuteWaitLine(command, false), Sentinel)
  {
    assert ExecuteWaitLine(command, false) == (command + ";echo '") + Sentinel + "'\n";
    ContainsInfix(command + ";echo '", Sentinel, "'\n");
  }

  /** The written line determines the command: the command is the line minus its fixed suffix. */
  lemma WaitLineInjective(a: string, b: string, exitAfter: bool)
    requires ExecuteWaitLine(a, exitAfter) == ExecuteWaitLine(b, exitAfter)
    ensures a == b
  {
    var suffix := (if exitAfter then ";exit" else ";echo '" + Sentinel + "'") + "\n";
    assert ExecuteWaitLine(a, exitAfter) == a + suffix;
    assert ExecuteWaitLine(b, exitAfter) == b + suffix;
    assert a == (a + suffix)[..|a|];
    assert b == (b + suffix)[..|b|];
  }

  // ---------------------------------------------------------------------------
  // the state of one child and its wrapper
  // ---------------------------------------------------------------------------

  /**
   * Everything about one `Process` that its methods read or change: whether
   * a child exists, `lastWrite`, the lines written to stdin, the output not
   * yet seen, the output the listeners have seen, and the close once seen
   * (its code and `lastWrite` at that moment).
   */
  datatype Shell = Shell(
    spawned: bool,
    lastWrite: string,
    writes: seq<string>,
    pending: seq<Event>,
    delivered: seq<Event>,
    closedWith: Option<(ExitCode, string)>)

  /** A write succeeds while the child exists and has not closed. */
  predicate Writable(s: Shell)
  {
    s.spawned && s.closedWith.None?
  }

  /** `send`: false without a child, otherwise the outcome of the write. */
  function SendStep(s: Shell, data: string): (Shell, bool)
  {
    if Writable(s) then (s.(writes := s.writes + [data]), true) else (s, false)
  }

  /** `execute`. */
  function ExecuteStep(s: Shell, command: string, exitAfter: bool): (Shell, bool)
  {
    SendStep(s.(lastWrite := command), ExecuteLine(command, exitAfter))
  }

  /** `new Process(...)`, with `output` what the child will print. */
  function Spawn(spawned: bool, output: seq<Event>, startDirectory: Option<string>): (s: Shell)
    ensures s.delivered == [] && s.closedWith.None? && s.spawned == spawned
    ensures s.pending == if spawned then output else []
    ensures Truthy(startDirectory) ==> s.lastWrite == "cd " + startDirectory.value
    ensures Truthy(startDirectory) && spawned ==> s.writes == ["cd " + startDirectory.value + "\n"]
    ensures !Truthy(startDirectory) || !spawned ==> s.writes == []
    ensures !Truthy(startDirectory) ==> s.lastWrite == ""
  {
    var initial := Shell(spawned, "", [], if spawned then output else [], [], None);
    assert Truthy(startDirectory) ==> ExecuteLine("cd " + startDirectory.value, false) == "cd " + startDirectory.value + "\n";
    if Truthy(startDirectory) then ExecuteStep(initial, "cd " + startDirectory.value, false).0 else initial
  }

  /** `executeWait`: the command becomes `lastWrite`, then the line is sent and the output awaited. */
  function ExecuteWaitStep(s: Shell, command: string, exitAfter: bool): (Shell, Promise<bool>)
  {
    var s1 := s.(lastWrite := command);
    if !Writable(s) then (s1, Resolved(false))
    else
      var s2 := s1.(writes := s.writes + [ExecuteWaitLine(command, exitAfter)]);
      match FirstCompletion(s.pending)
      case None =>
        (s2.(delivered := s.delivered + s.pending, pending := []), Pending)
      case Some(k) =>
        var e := s.pending[k];
        (s2.(delivered := s.delivered + s.pending[..k + 1], pending := s.pending[k + 1..],
             closedWith := if e.Close? then Some((e.code, command)) else None),
         Resolved(true))
  }

  /**
   * What `executeWait` promises. A failed write resolves false and lets no
   * output through. Otherwise exactly one line is written; the listeners see
   * the output up to and including the first close or sentinel chunk and the
   * promise resolves true; output holding neither all goes by and leaves it
   * pending. No output is lost or reordered, and a close seen is recorded
   * with the command.
   */
  lemma ExecuteWaitSettles(s: Shell, command: string, exitAfter: bool)
    ensures var r := ExecuteWaitStep(s, command, exitAfter);
      r.0.lastWrite == command && r.0.spawned == s.spawned &&
      |r.0.delivered| >= |s.delivered| && r.0.delivered[..|s.delivered|] == s.delivered &&
      r.0.delivered + r.0.pending == s.delivered + s.pending
    ensures var r := ExecuteWaitStep(s, command, exitAfter);
      !Writable(s) ==> r.1 == Resolved(false) && r.0 == s.(lastWrite := command)
    ensures var r := ExecuteWaitStep(s, command, exitAfter);
      Writable(s) ==>
        r.1 != Resolved(false) && r.0.writes == s.writes + [ExecuteWaitLine(command, exitAfter)] &&
        (r.1 == Resolved(true) <==> exists j :: 0 <= j < |s.pending| && Completes(s.pending[j]))
    ensures var r := ExecuteWaitStep(s, command, exitAfter);
      Writable(s) && r.1.Resolved? ==>
      var seen := r.0.delivered[|s.delivered|..];
      |seen| > 0 && Completes(seen[|seen| - 1]) && (forall j :: 0 <= j < |seen| - 1 ==> !Completes(seen[j])) &&
      (r.0.closedWith.Some? <==> seen[|seen| - 1].Close?) &&
      (r.0.closedWith.Some? ==> r.0.closedWith.value == (seen[|seen| - 1].code, command))
    ensures var r := ExecuteWaitStep(s, command, exitAfter);
      Writable(s) && r.1.Pending? ==> r.0.closedWith.None? && r.0.pending == []
  {
    if Writable(s) {
      match FirstCompletion(s.pending)
      case None =>
      case Some(k) =>
        assert s.pending == s.pending[..k + 1] + s.pending[k + 1..];
        assert (s.delivered + s.pending[..k + 1])[|s.delivered|..] == s.pending[..k + 1];
    }
  }

  /** Waiting on the close listener. */
  function CloseWaitStep(s: Shell): (Shell, Option<(ExitCode, string)>)
  {
    if s.closedWith.Some? then (s, s.closedWith)
    else
      match FirstClose(s.pending)
      case None => (s.(delivered := s.delivered + s.pending, pending := []), None)
      case Some(k) =>
        var c := Some((s.pending[k].code, s.lastWrite));
        (s.(delivered := s.delivered + s.pending[..k + 1], pending := s.pending[k + 1..], closedWith := c), c)
  }

  /**
   * What waiting on the close listener gives. A close seen earlier answers
   * at once. Otherwise the output goes by up to and including the first
   * close, which yields its code and the `lastWrite` of that moment; a child
   * that never closes leaves the wait pending (`None`). No output is lost or
   * reordered and nothing is written.
   */
  lemma CloseWaitKeepsOutput(s: Shell)
    ensures var r := CloseWaitStep(s);
      |r.0.delivered| >= |s.delivered| && r.0.delivered[..|s.delivered|] == s.delivered &&
      r.0.delivered + r.0.pending == s.delivered + s.pending &&
      r.0.closedWith == r.1 && r.0.writes == s.writes && r.0.lastWrite == s.lastWrite && r.0.spawned == s.spawned
    ensures s.closedWith.Some? ==> CloseWaitStep(s) == (s, s.closedWith)
  {
    if s.closedWith.None? {
      match FirstClose(s.pending)
      case None =>
      case Some(k) =>
        assert s.pending == s.pending[..k + 1] + s.pending[k + 1..];
    }
  }

  /** With no close seen earlier, the wait answers exactly when a close is pending, with the first one. */
  lemma CloseWaitAnswers(s: Shell)
    requires s.closedWith.None?
    ensures CloseWaitStep(s).1.Some? <==> exists j :: 0 <= j < |s.pending| && s.pending[j].Close?
    ensures var r := CloseWaitStep(s);
      r.1.Some? ==>
      |r.0.delivered| >= |s.delivered| &&
      var seen := r.0.delivered[|s.delivered|..];
      |seen| > 0 && seen[|seen| - 1] == Close(r.1.value.0) && r.1.value.1 == s.lastWrite &&
      forall j :: 0 <= j < |seen| - 1 ==> !seen[j].Close?
  {
    match FirstClose(s.pending)
    case None =>
    case Some(k) =>
      assert (s.delivered + s.pending[..k + 1])[|s.delivered|..] == s.pending[..k + 1];
  }

  /** The state `executeWait` leaves when the event at `k` is the first to settle it. */
  lemma ExecuteWaitStepAt(s: Shell, command: string, exitAfter: bool, k: nat)
    requires Writable(s) && k < |s.pending| && Completes(s.pending[k])
    requires forall j :: 0 <= j < k ==> !Completes(s.pending[j])
    ensures ExecuteWaitStep(s, command, exitAfter) ==
      (Shell(s.spawned, command, s.writes + [ExecuteWaitLine(command, exitAfter)], s.pending[k + 1..],
             s.delivered + s.pending[..k + 1],
             if s.pending[k].Close? then Some((s.pending[k].code, command)) else None),
       Resolved(true))
  {
    FirstCompletionAt(s.pending, k);
  }

  /** The state the close wait leaves when the event at `k` is the first close. */
  lemma CloseWaitStepAt(s: Shell, k: nat)
    requires s.closedWith.None? && k < |s.pending| && s.pending[k].Close?
    requires forall j :: 0 <= j < k ==> !s.pending[j].Close?
    ensures CloseWaitStep(s) ==
      (Shell(s.spawned, s.lastWrite, s.writes, s.pending[k + 1..], s.delivered + s.pending[..k + 1],
             Some((s.pending[k].code, s.lastWrite))),
       Some((s.pending[k].code, s.lastWrite)))
  {
    FirstCloseAt(s.pending, k);
  }

  // ---------------------------------------------------------------------------
  // a sequence of awaited commands
  // ---------------------------------------------------------------------------

  /**
   * `await executeWait(c)` for each command in turn. The second component
   * says whether every wait settled; the sequence stops at a wait that never
   * settles.
   */
  function RunCommands(s: Shell, commands: seq<string>): (Shell, bool)
    decreases |commands|
  {
    if |commands| == 0 then (s, true)
    else
      var step := ExecuteWaitStep(s, commands[0], false);
      if step.1.Pending? then (step.0, false) else RunCommands(step.0, commands[1..])
  }

  /** The lines `executeWait` writes for some commands. */
  function WaitLines(commands: seq<string>): (r: seq<string>)
    ensures |r| == |commands|
    ensures forall i :: 0 <= i < |r| ==> r[i] == ExecuteWaitLine(commands[i], false)
  {
    if |commands| == 0 then [] else [ExecuteWaitLine(commands[0], false)] + WaitLines(commands[1..])
  }

  /** Output in which the shell reports one finished command per event. */
  predicate AllSentinels(events: seq<Event>)
  {
    |events| == 0 || (events[0].Data? && Contains(events[0].chunk, Sentinel) && AllSentinels(events[1..]))
  }

  /** The last command of a list, or `default` when there is none. */
  function LastOr(commands: seq<string>, default: string): string
  {
    if |commands| == 0 then default else commands[|commands| - 1]
  }

  /** The shell once every command has consumed one report from `done`, leaving `rest` unread. */
  function AllFinished(s: Shell, commands: seq<string>, done: seq<Event>, rest: seq<Event>): Shell
  {
    Shell(s.spawned, LastOr(commands, s.lastWrite), s.writes + WaitLines(commands), rest, s.delivered + done, None)
  }

  /**
   * A shell that reports every command as finished and has not closed runs
   * them all: each command's line is written, in order, and each report is
   * used up by exactly one command.
   */
  lemma {:induction false} RunCommandsAllFinish(s: Shell, commands: seq<string>, done: seq<Event>, rest: seq<Event>)
    requires Writable(s) && s.pending == done + rest
    requires |done| == |commands| && AllSentinels(done)
    decreases |commands|
    ensures RunCommands(s, commands) == (AllFinished(s, commands, done, rest), true)
  {
    if |commands| == 0 {
      assert done == [] && s.pending == rest;
      assert s.writes + WaitLines(commands) == s.writes && s.delivered + done == s.delivered;
      assert s == Shell(s.spawned, s.lastWrite, s.writes, s.pending, s.delivered, s.closedWith);
    } else {
      assert s.pending[1..] == done[1..] + rest;
      var next := SentinelStep(s, commands);
      RunCommandsAllFinish(next, commands[1..], done[1..], rest);
      AllFinishedCons(s, next, commands, done, rest);
    }
  }

  lemma AllFinishedCons(s: Shell, next: Shell, commands: seq<string>, done: seq<Event>, rest: seq<Event>)
    requires |commands| > 0 && |done| > 0 && s.closedWith.None?
    requires next == Shell(s.spawned, commands[0], s.writes + [ExecuteWaitLine(commands[0], false)],
                           done[1..] + rest, s.delivered + [done[0]], None)
    ensures AllFinished(next, commands[1..], done[1..], rest) == AllFinished(s, commands, done, rest)
  {
    assert s.delivered + [done[0]] + done[1..] == s.delivered + done;
    var line, later := ExecuteWaitLine(commands[0], false), WaitLines(commands[1..]);
    assert WaitLines(commands) == [line] + later;
    assert s.writes + [line] + later == s.writes + ([line] + later);
    assert LastOr(commands[1..], commands[0]) == LastOr(commands, s.lastWrite);
  }

  /** A first event holding the sentinel settles the first command's `executeWait` and is used up by it. */
  lemma SentinelStep(s: Shell, commands: seq<string>) returns (next: Shell)
    requires Writable(s) && |s.pending| > 0 && s.pending[0].Data? && Contains(s.pending[0].chunk, Sentinel)
    requires |commands| > 0
    ensures next == Shell(s.spawned, commands[0], s.writes + [ExecuteWaitLine(commands[0], false)],
                          s.pending[1..], s.delivered + [s.pending[0]], None)
    ensures RunCommands(s, commands) == RunCommands(next, commands[1..])
  {
    ExecuteWaitStepAt(s, commands[0], false, 0);
    assert s.pending[..1] == [s.pending[0]];
    next := Shell(s.spawned, commands[0], s.writes + [ExecuteWaitLine(commands[0], false)],
                  s.pending[1..], s.delivered + [s.pending[0]], None);
  }

  /** Once the child has closed, every further command fails to write and nothing changes but `lastWrite`. */
  lemma {:induction false} RunCommandsAfterClose(s: Shell, commands: seq<string>)
    requires !Writable(s)
    decreases |commands|
    ensures var r := RunCommands(s, commands);
      r.1 && r.0.writes == s.writes && r.0.pending == s.pending && r.0.delivered == s.delivered &&
      r.0.closedWith == s.closedWith
  {
    if |commands| > 0 {
      RunCommandsAfterClose(s.(lastWrite := commands[0]), commands[1..]);
    }
  }

  /**
   * A shell that finishes the first `i` commands and then closes (as `bash -e`
   * does when a command fails) records the close against command `i`: the
   * commands up to it are written, the later ones are not.
   */
  lemma RunCommandsCloseDuring(s: Shell, commands: seq<string>, done: seq<Event>, code: ExitCode, rest: seq<Event>)
    returns (r: (Shell, bool))
    requires Writable(s) && s.pending == done + [Close(code)] + rest
    requires |done| < |commands| && AllSentinels(done)
    ensures r == RunCommands(s, commands)
    ensures r.1 && r.0.closedWith == Some((code, commands[|done|])) && r.0.pending == rest
    ensures r.0.writes == s.writes + WaitLines(commands[..|done| + 1])
  {
    var i := |done|;
    var finished := FinishedBeforeClose(s, commands, done, [Close(code)] + rest);
    r := ClosedRun(finished, commands[i..], code, rest);
    WaitLinesSnoc(s.writes, commands, i);
  }

  lemma WaitLinesSnoc(writes: seq<string>, commands: seq<string>, i: nat)
    requires i < |commands|
    ensures writes + WaitLines(commands[..i + 1]) ==
      writes + WaitLines(commands[..i]) + [ExecuteWaitLine(commands[i..][0], false)]
  {
    WaitLinesAppend(commands[..i], [commands[i]]);
    assert commands[..i] + [commands[i]] == commands[..i + 1];
  }

  /** The first `|done|` commands each use up one report of `done`. */
  lemma FinishedBeforeClose(s: Shell, commands: seq<string>, done: seq<Event>, rest: seq<Event>) returns (finished: Shell)
    requires Writable(s) && s.pending == done + rest
    requires |done| <= |commands| && AllSentinels(done)
    ensures Writable(finished) && finished.pending == rest
    ensures finished.writes == s.writes + WaitLines(commands[..|done|])
    ensures RunCommands(s, commands) == RunCommands(finished, commands[|done|..])
  {
    var i := |done|;
    RunCommandsAllFinish(s, commands[..i], done, rest);
    RunCommandsSplit(s, commands, i);
    finished := AllFinished(s, commands[..i], done, rest);
  }

  /** A shell whose next event is a close settles the first command and writes nothing more. */
  lemma ClosedRun(s: Shell, commands: seq<string>, code: ExitCode, rest: seq<Event>) returns (r: (Shell, bool))
    requires Writable(s) && s.pending == [Close(code)] + rest && |commands| > 0
    ensures r == RunCommands(s, commands)
    ensures r.1 && r.0.closedWith == Some((code, commands[0])) && r.0.pending == rest
    ensures r.0.writes == s.writes + [ExecuteWaitLine(commands[0], false)]
  {
    var next := CloseStep(s, commands, code, rest);
    RunCommandsAfterClose(next, commands[1..]);
    r := RunCommands(next, commands[1..]);
  }

  /** A close as the first event settles the first command's `executeWait`, recorded against that command. */
  lemma CloseStep(s: Shell, commands: seq<string>, code: ExitCode, rest: seq<Event>) returns (next: Shell)
    requires Writable(s) && s.pending == [Close(code)] + rest && |commands| > 0
    ensures !Writable(next) && next.closedWith == Some((code, commands[0])) && next.pending == rest
    ensures next.writes == s.writes + [ExecuteWaitLine(commands[0], false)]
    ensures RunCommands(s, commands) == RunCommands(next, commands[1..])
  {
    ExecuteWaitStepAt(s, commands[0], false, 0);
    next := ExecuteWaitStep(s, commands[0], false).0;
  }

  lemma {:induction false} WaitLinesAppend(a: seq<string>, b: seq<string>)
    ensures WaitLines(a + b) == WaitLines(a) + WaitLines(b)
  {
    if |a| > 0 {
      assert (a + b)[1..] == a[1..] + b;
      WaitLinesAppend(a[1..], b);
    } else {
      assert a + b == b;
    }
  }

  /** Running a list of commands is running its first `i` and then the rest, when the first `i` all settle. */
  lemma {:induction false} RunCommandsSplit(s: Shell, commands: seq<string>, i: nat)
    requires i <= |commands| && RunCommands(s, commands[..i]).1
    decreases i
    ensures RunCommands(s, commands) == RunCommands(RunCommands(s, commands[..i]).0, commands[i..])
  {
    if i > 0 {
      var step := ExecuteWaitStep(s, commands[0], false);
      assert commands[..i][0] == commands[0] && commands[..i][1..] == commands[1..][..i - 1];
      RunCommandsSplit(step.0, commands[1..], i - 1);
      assert commands[1..][i - 1..] == commands[i..];
    } else {
      assert commands[..0] == [] && commands[0..] == commands;
    }
  }

  // ---------------------------------------------------------------------------
  // the wrapper object
  // ---------------------------------------------------------------------------

  class Process {
    /** Whether a child process exists (`this.process`). */
    const spawned: bool
    /** The command of the most recent `execute` or `executeWait`. */
    var lastWrite: string
    /** Everything written to the child's stdin, one entry per successful write. */
    var writes: seq<string>
    /** Output the child has yet to show any listener. */
    var pending: seq<Event>
    /** Output the listeners have seen, in order. */
    var delivered: seq<Event>
    /** The close code, and `lastWrite` at the moment the close was seen. */
    var closedWith: Option<(ExitCode, string)>

    function State(): Shell
      reads this
    {
      Shell(spawned, lastWrite, writes, pending, delivered, closedWith)
    }

    /** `new Process("bash", args, startDirectory)`, with `output` what the child will print. */
    constructor(spawned: bool, output: seq<Event>, startDirectory: Option<string>)
      ensures State() == Spawn(spawned, output, startDirectory)
    {
      this.spawned := spawned;
      lastWrite := "";
      writes := [];
      pending := if spawned then output else [];
      delivered := [];
      closedWith := None;
      new;
      if Truthy(startDirectory) {
        var _ := Execute("cd " + startDirectory.value, false);
      }
    }

    method Send(data: string) returns (ok: bool)
      modifies this`writes
      ensures (State(), ok) == SendStep(old(State()), data)
    {
      ok := spawned && closedWith.None?;
      if ok {
        writes := writes + [data];
      }
    }

    method Execute(command: string, exitAfter: bool) returns (ok: bool)
      modifies this`lastWrite, this`writes
      ensures (State(), ok) == ExecuteStep(old(State()), command, exitAfter)
    {
      lastWrite := command;
      ok := Send(ExecuteLine(command, exitAfter));
    }

    /** `exit`: `lastWrite` becomes `exit` and the line `exit\n` is written. */
    method Exit() returns (ok: bool)
      modifies this`lastWrite, this`writes
      ensures lastWrite == "exit"
      ensures ok == Writable(old(State()))
      ensures writes == old(writes) + (if ok then ["exit\n"] else [])
      ensures (State(), ok) == ExecuteStep(old(State()), "exit", false)
    {
      ok := Execute("exit", false);
      assert ExecuteLine("exit", false) == "exit\n";
    }

    /** `executeWait`, delivering the output one event at a time. */
    method ExecuteWait(command: string, exitAfter: bool) returns (r: Promise<bool>)
      modifies this`lastWrite, this`writes, this`pending, this`delivered, this`closedWith
      ensures (State(), r) == ExecuteWaitStep(old(State()), command, exitAfter)
    {
      lastWrite := command;
      var ok := Send(ExecuteWaitLine(command, exitAfter));
      if !ok {
        return Resolved(false);
      }
      ghost var start := pending;
      ghost var seen := delivered;
      var i := 0;
      while pending != []
        invariant 0 <= i <= |start| && pending == start[i..] && delivered == seen + start[..i]
        invariant forall j :: 0 <= j < i ==> !Completes(start[j])
        invariant closedWith == None && lastWrite == command
        invariant writes == old(writes) + [ExecuteWaitLine(command, exitAfter)]
        decreases |pending|
      {
        var e := pending[0];
        assert e == start[i];
        delivered := delivered + [e];
        pending := pending[1..];
        assert start[..i + 1] == start[..i] + [e];
        i := i + 1;
        if e.Close? || Contains(e.chunk, Sentinel) {
          if e.Close? {
            closedWith := Some((e.code, lastWrite));
          }
          assert old(State()).pending == start && start[i - 1] == e;
          ExecuteWaitStepAt(old(State()), command, exitAfter, i - 1);
          assert State() == ExecuteWaitStep(old(State()), command, exitAfter).0;
          return Resolved(true);
        }
      }
      assert start[..i] == start;
      r := Pending;
    }

    /** Waiting on the close listener, delivering the output one event at a time. */
    method WaitForClose() returns (r: Option<(ExitCode, string)>)
      modifies this`pending, this`delivered, this`closedWith
      ensures (State(), r) == CloseWaitStep(old(State()))
    {
      if closedWith.Some? {
        return closedWith;
      }
      ghost var start := pending;
      ghost var seen := delivered;
      var i := 0;
      while pending != []
        invariant 0 <= i <= |start| && pending == start[i..] && delivered == seen + start[..i]
        invariant forall j :: 0 <= j < i ==> !start[j].Close?
        invariant closedWith == None
        decreases |pending|
      {
        var e := pending[0];
        assert e == start[i];
        delivered := delivered + [e];
        pending := pending[1..];
        assert start[..i + 1] == start[..i] + [e];
        i := i + 1;
        if e.Close? {
          closedWith := Some((e.code, lastWrite));
          assert old(State()).pending == start && start[i - 1] == e;
          CloseWaitStepAt(old(State()), i - 1);
          assert State() == CloseWaitStep(old(State())).0;
          return closedWith;
        }
      }
      assert start[..i] == start;
      r := None;
    }

    /** `await executeWait(c)` for each command in turn, stopping at a wait that never settles. */
    method RunCommandList(commands: seq<string>) returns (settled: bool)
      modifies this`lastWrite, this`writes, this`pending, this`delivered, this`closedWith
      ensures (State(), settled) == RunCommands(old(State()), commands)
    {
      var i := 0;
      while i < |commands|
        invariant 0 <= i <= |commands|
        invariant RunCommands(old(State()), commands) == RunCommands(State(), commands[i..])
      {
        assert commands[i..][0] == commands[i] && commands[i..][1..] == commands[i + 1..];
        var r := ExecuteWait(commands[i], false);
        if r.Pending? {
          return false;
        }
        i := i + 1;
      }
      settled := true;
    }
  }
}
