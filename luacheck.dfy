/**
 * `validateLUASyntax`: luacheck runs on a generated script in a shell that
 * stops at the first failing command. Every output line naming the file is
 * filed under its line number; when the shell closes with a non-zero code
 * the script is listed line by line, each errored line with its problems,
 * and the check fails.
 */
module LuaCheck {
  import opened Wrappers
  import opened JsText
  import opened ShellProcess

  /** A progress message of the builder. */
  datatype Message = Info(text: string) | Error(text: string)

  /** The luacheck configuration of the ArduPilot repository. */
  const LuacheckConfig := " --config libraries/AP_Scripting/tests/luacheck.lua"

  /** The command run in the working copy. */
  function LintCommand(file: string): string
  {
    "luacheck " + file + LuacheckConfig
  }

  // ---------------------------------------------------------------------------
  // reading the report
  // ---------------------------------------------------------------------------

  /** The lines of a chunk that name the file followed by a colon. */
  function ReportedLines(lines: seq<string>, file: string): (r: seq<string>)
    ensures forall i :: 0 <= i < |r| ==> Contains(r[i], file + ":")
    ensures |r| <= |lines|
  {
    if |lines| == 0 then []
    else (if Contains(lines[0], file + ":") then [lines[0]] else []) + ReportedLines(lines[1..], file)
  }

  /**
   * One reported line, cut at colons: the third piece from the end parsed as
   * the line number, the second from the end (`undefined` when missing), and
   * the last without its first character.
   */
  function Report(line: string): (JsNumber, string)
  {
    var parts := Split(line, ':');
    var n := |parts|;
    var key := if n >= 3 then ParseInt(parts[n - 3]) else NaN;
    var index := if n >= 2 then parts[n - 2] else "undefined";
    (key, NumberToString(key) + ":" + index + " " + DropFirst(parts[n - 1]))
  }

  /** The reports of some lines, in order. */
  function Reports(lines: seq<string>): (r: seq<(JsNumber, string)>)
    ensures |r| == |lines|
    ensures forall i :: 0 <= i < |r| ==> r[i] == Report(lines[i])
  {
    if |lines| == 0 then [] else [Report(lines[0])] + Reports(lines[1..])
  }

  /** `erroredLines.set(key, previous ? previous + ", " + text : text)`. */
  function Record(errored: map<JsNumber, string>, report: (JsNumber, string)): map<JsNumber, string>
  {
    var (key, text) := report;
    errored[key := if key in errored && errored[key] != "" then errored[key] + ", " + text else text]
  }

  /** The map after some reports, in order. */
  function RecordAll(errored: map<JsNumber, string>, reports: seq<(JsNumber, string)>): map<JsNumber, string>
  {
    if |reports| == 0 then errored else Record(RecordAll(errored, reports[..|reports| - 1]), reports[|reports| - 1])
  }

  /** The handler for one output chunk. */
  function RecordChunk(errored: map<JsNumber, string>, chunk: string, file: string): map<JsNumber, string>
  {
    RecordAll(errored, Reports(ReportedLines(Split(chunk, '\n'), file)))
  }

  /** The map after every data event, in order. */
  function RecordEvents(errored: map<JsNumber, string>, events: seq<Event>, file: string): map<JsNumber, string>
  {
    if |events| == 0 then errored
    else
      var before := RecordEvents(errored, events[..|events| - 1], file);
      match events[|events| - 1]
      case Data(chunk) => RecordChunk(before, chunk, file)
      case Close(_) => before
  }

  /** The problems filed under one key, in the order they were reported. */
  function TextsFor(reports: seq<(JsNumber, string)>, key: JsNumber): seq<string>
  {
    if |reports| == 0 then []
    else TextsFor(reports[..|reports| - 1], key) + (if reports[|reports| - 1].0 == key then [reports[|reports| - 1].1] else [])
  }

  /** Every report has some text: at least the colon after the number. */
  lemma ReportTextNotEmpty(line: string)
    ensures Report(line).1 != ""
  {
  }

  lemma JoinSnoc(parts: seq<string>, x: string, sep: string)
    requires |parts| >= 1
    ensures Join(parts + [x], sep) == Join(parts, sep) + sep + x
  {
    if |parts| == 1 {
      assert (parts + [x])[1..] == [x];
    } else {
      assert (parts + [x])[1..] == parts[1..] + [x];
      JoinSnoc(parts[1..], x, sep);
    }
  }

  /**
   * Starting from an empty map, a key is filed exactly when some report
   * names it, and it then holds that key's problems joined by `, ` in order.
   */
  lemma {:induction false} RecordAllCollects(reports: seq<(JsNumber, string)>, key: JsNumber)
    requires forall i :: 0 <= i < |reports| ==> reports[i].1 != ""
    ensures key in RecordAll(map[], reports) <==> |TextsFor(reports, key)| > 0
    ensures key in RecordAll(map[], reports) ==> RecordAll(map[], reports)[key] == Join(TextsFor(reports, key), ", ")
    ensures key in RecordAll(map[], reports) ==> RecordAll(map[], reports)[key] != ""
  {
    if |reports| > 0 {
      var init := reports[..|reports| - 1];
      var last := reports[|reports| - 1];
      RecordAllCollects(init, key);
      if last.0 == key {
        var ts := TextsFor(init, key);
        if |ts| > 0 {
          JoinSnoc(ts, last.1, ", ");
        } else {
          assert TextsFor(reports, key) == [last.1];
        }
      } else {
        assert TextsFor(reports, key) == TextsFor(init, key);
        assert RecordAll(map[], reports) == Record(RecordAll(map[], init), last);
      }
    }
  }

  /** Every line of a chunk yields a report with some text. */
  lemma ReportsNotEmpty(lines: seq<string>)
    ensures forall i :: 0 <= i < |Reports(lines)| ==> Reports(lines)[i].1 != ""
  {
    forall i | 0 <= i < |lines| ensures Reports(lines)[i].1 != "" {
      ReportTextNotEmpty(lines[i]);
    }
  }

  /**
   * One chunk of output on a fresh map: a line number is filed exactly when
   * a reported line of the chunk names it, with all its problems in order.
   */
  lemma RecordChunkCollects(chunk: string, file: string, key: JsNumber)
    ensures var reports := Reports(ReportedLines(Split(chunk, '\n'), file));
      (key in RecordChunk(map[], chunk, file) <==> |TextsFor(reports, key)| > 0) &&
      (key in RecordChunk(map[], chunk, file) ==> RecordChunk(map[], chunk, file)[key] == Join(TextsFor(reports, key), ", "))
  {
    var lines := ReportedLines(Split(chunk, '\n'), file);
    ReportsNotEmpty(lines);
    RecordAllCollects(Reports(lines), key);
  }

  /** A luacheck report line, grouped at its separators. */
  lemma LuacheckLineShape(path: string, l: string, column: string, message: string)
    ensures path + ":" + l + ":" + column + ": " + message == path + [':'] + (l + [':'] + (column + [':'] + (" " + message)))
  {
  }

  /** The pieces of a luacheck report line. */
  lemma SplitLuacheckLine(path: string, l: string, column: string, message: string)
    requires ':' !in l && ':' !in column && ':' !in message
    ensures Split(path + ":" + l + ":" + column + ": " + message, ':') == Split(path, ':') + [l, column, " " + message]
  {
    var m := " " + message;
    LuacheckLineShape(path, l, column, message);
    SplitAppend(path, ':', l + [':'] + (column + [':'] + m));
    SplitThreePieces(l, column, m);
  }

  lemma SplitThreePieces(a: string, b: string, c: string)
    requires ':' !in a && ':' !in b && ':' !in c
    ensures Split(a + [':'] + (b + [':'] + c), ':') == [a, b, c]
  {
    SplitAfterPiece(a, ':', b + [':'] + c);
    SplitAfterPiece(b, ':', c);
    SplitNoSeparator(c, ':');
  }

  /** The digits of a number hold no colon. */
  lemma NoColonInNumber(line: nat)
    ensures ':' !in NatToString(line)
  {
    var l := NatToString(line);
    NatToStringDigits(line);
    forall i | 0 <= i < |l| ensures l[i] != ':' { assert IsDigit(l[i], 10); }
  }

  /**
   * A luacheck report `<path>:<line>:<column>: <message>` whose column and
   * message hold no colon is filed under its line with the text
   * `<line>:<column> <message>`.
   */
  lemma ReportOfLuacheckLine(path: string, line: nat, column: string, message: string)
    requires ':' !in column && ':' !in message
    ensures Report(path + ":" + NatToString(line) + ":" + column + ": " + message) ==
      (Num(line), NatToString(line) + ":" + column + " " + message)
  {
    var l := NatToString(line);
    NoColonInNumber(line);
    SplitLuacheckLine(path, l, column, message);
    ParseIntOfIntToString(line);
    assert DropFirst(" " + message) == message;
  }

  // ---------------------------------------------------------------------------
  // the listing on failure
  // ---------------------------------------------------------------------------

  /** The message for line `n` (counted from one) of the script. */
  function ListingLine(n: nat, line: string, errored: map<JsNumber, string>): Message
  {
    if Num(n) in errored then Error(NatToString(n) + ": " + line + " >>ERROR>> " + errored[Num(n)])
    else Info(NatToString(n) + ": " + line)
  }

  /** The listing of lines `from`, `from + 1`, … of a script. */
  function Listing(lines: seq<string>, from: nat, errored: map<JsNumber, string>): (r: seq<Message>)
    ensures |r| == |lines|
    ensures forall j :: 0 <= j < |lines| ==> r[j] == ListingLine(from + j, lines[j], errored)
  {
    if |lines| == 0 then [] else [ListingLine(from, lines[0], errored)] + Listing(lines[1..], from + 1, errored)
  }

  /**
   * The listing numbers every line of the script from one, is an error
   * exactly for the lines holding a problem, and shows the line and its
   * problems.
   */
  lemma ListingFlagsErrors(content: string, errored: map<JsNumber, string>, j: nat)
    requires j < |Split(content, '\n')|
    ensures var m := Listing(Split(content, '\n'), 1, errored)[j];
      (m.Error? <==> Num(j + 1) in errored) &&
      m.text == NatToString(j + 1) + ": " + Split(content, '\n')[j] +
        (if Num(j + 1) in errored then " >>ERROR>> " + errored[Num(j + 1)] else "")
  {
  }

  const FailedWithCode := "Build process failed with code "

  /** The reason a shell that closes with a failing code fails with: the code and the command written last. */
  function ProcessFailure(code: ExitCode, lastWrite: string): string
  {
    FailedWithCode + ExitCodeToString(code) + " running " + lastWrite
  }

  /**
   * The whole check on the output the shell produces: nothing settles before
   * a close; close code 0 passes; any other code (or a kill) fails with the
   * listing of the script, naming the luacheck command.
   */
  function LintOutcome(file: string, content: string, output: seq<Event>): (r: (Promise<()>, seq<Message>))
    ensures FirstClose(output).None? <==> r.0.Pending?
    ensures r.0.Resolved? <==> FirstClose(output).Some? && output[FirstClose(output).value].code == Code(0)
    ensures r.0.Rejected? ==>
      r.0.reason == ProcessFailure(output[FirstClose(output).value].code, LintCommand(file)) &&
      |r.1| == |Split(content, '\n')|
    ensures !r.0.Rejected? ==> r.1 == []
  {
    match FirstClose(output)
    case None => (Pending, [])
    case Some(k) =>
      if output[k].code == Code(0) then (Resolved(()), [])
      else
        var errored := RecordEvents(map[], output[..k], file);
        (Rejected(ProcessFailure(output[k].code, LintCommand(file))), Listing(Split(content, '\n'), 1, errored))
  }

  /** No close in the output: the wait on the close listener never answers. */
  lemma LintShellNoClose(s: Shell, command: string)
    requires Writable(s) && FirstClose(s.pending).None?
    ensures CloseWaitStep(ExecuteWaitStep(s, command, true).0).1 == None
  {
    var w := ExecuteWaitStep(s, command, true).0;
    match FirstCompletion(s.pending)
    case None =>
      assert w.pending == [] && w.closedWith.None?;
    case Some(k) =>
      ExecuteWaitStepAt(s, command, true, k);
      assert w.pending == s.pending[k + 1..] && w.closedWith.None?;
      forall j | 0 <= j < |w.pending| ensures !w.pending[j].Close? {
        assert w.pending[j] == s.pending[k + 1 + j];
      }
  }

  /**
   * The shell luacheck runs in: whatever settles the command, the close
   * listener then answers with the first close in the output and the command
   * as `lastWrite`, once the listeners have seen exactly the output up to and
   * including that close.
   */
  lemma LintShell(s: Shell, command: string) returns (k: nat, w: Shell)
    requires Writable(s) && s.delivered == [] && FirstClose(s.pending).Some?
    ensures w == ExecuteWaitStep(s, command, true).0
    ensures FirstClose(s.pending) == Some(k)
    ensures CloseWaitStep(w).1 == Some((s.pending[k].code, command))
    ensures CloseWaitStep(w).0.delivered == s.pending[..k + 1]
  {
    k := FirstClose(s.pending).value;
    assert Completes(s.pending[k]);
    var f := FirstCompletion(s.pending).value;
    w := ExecuteWaitStep(s, command, true).0;
    if s.pending[f].Data? {
      SentinelBeforeClose(s, command, f, k);
    } else {
      CloseSettlesWait(s, command, f, k);
    }
  }

  /** Output settling the wait before the first close: the close wait then reads up to that close. */
  lemma SentinelBeforeClose(s: Shell, command: string, f: nat, k: nat)
    requires Writable(s) && s.delivered == []
    requires FirstClose(s.pending) == Some(k) && FirstCompletion(s.pending) == Some(f) && s.pending[f].Data?
    ensures var w := ExecuteWaitStep(s, command, true).0;
      CloseWaitStep(w).1 == Some((s.pending[k].code, command)) && CloseWaitStep(w).0.delivered == s.pending[..k + 1]
  {
    FirstCompletionNoLater(s.pending, f, k);
    ExecuteWaitStepAt(s, command, true, f);
    var w := ExecuteWaitStep(s, command, true).0;
    assert w.closedWith.None? && w.lastWrite == command;
    assert w.pending == s.pending[f + 1..] && w.delivered == s.pending[..f + 1];
    CloseLater(w, s.pending, f, k);
  }

  /** The first close settling the wait itself: the close wait answers with it at once. */
  lemma CloseSettlesWait(s: Shell, command: string, f: nat, k: nat)
    requires Writable(s) && s.delivered == []
    requires FirstClose(s.pending) == Some(k) && FirstCompletion(s.pending) == Some(f) && s.pending[f].Close?
    ensures var w := ExecuteWaitStep(s, command, true).0;
      CloseWaitStep(w).1 == Some((s.pending[k].code, command)) && CloseWaitStep(w).0.delivered == s.pending[..k + 1]
  {
    FirstCompletionNoLater(s.pending, f, k);
    FirstCloseNoLater(s.pending, k, f);
    ExecuteWaitStepAt(s, command, true, f);
  }

  /** No event before the first completion completes. */
  lemma FirstCompletionNoLater(events: seq<Event>, f: nat, k: nat)
    requires FirstCompletion(events) == Some(f) && k < |events| && Completes(events[k])
    ensures f <= k
  {
  }

  /** No event before the first close is a close. */
  lemma FirstCloseNoLater(events: seq<Event>, k: nat, f: nat)
    requires FirstClose(events) == Some(k) && f < |events| && events[f].Close?
    ensures k <= f
  {
  }

  /** The close wait once the output up to `f`, before the first close at `k`, has gone by. */
  lemma CloseLater(w: Shell, p: seq<Event>, f: nat, k: nat)
    requires FirstClose(p) == Some(k) && f < k
    requires w.closedWith.None? && w.pending == p[f + 1..] && w.delivered == p[..f + 1]
    ensures CloseWaitStep(w).1 == Some((p[k].code, w.lastWrite))
    ensures CloseWaitStep(w).0.delivered == p[..k + 1]
  {
    var m := k - f - 1;
    FirstCloseOfSuffix(p, f + 1, k);
    assert FirstClose(w.pending) == Some(m) && w.pending[m] == p[k];
    PrefixThroughCut(p, f + 1, k + 1);
  }

  /** The part of a sequence before a cut, followed by some of the part after, is a longer prefix. */
  lemma PrefixThroughCut<T>(p: seq<T>, i: nat, j: nat)
    requires i <= j <= |p|
    ensures p[..i] + p[i..][..j - i] == p[..j]
  {
  }

  /** The first close after a prefix holding none. */
  lemma FirstCloseOfSuffix(events: seq<Event>, n: nat, k: nat)
    requires FirstClose(events) == Some(k) && n <= k
    ensures FirstClose(events[n..]) == Some(k - n)
  {
    forall j | 0 <= j < k - n ensures !events[n..][j].Close? {
      assert events[n..][j] == events[n + j];
    }
    FirstCloseAt(events[n..], k - n);
  }

  /** The data listener over the output seen before the close. */
  method RecordSeen(seen: seq<Event>, file: string) returns (errored: map<JsNumber, string>)
    ensures errored == RecordEvents(map[], seen, file)
  {
    errored := map[];
    var i := 0;
    while i < |seen|
      invariant 0 <= i <= |seen|
      invariant errored == RecordEvents(map[], seen[..i], file)
    {
      assert seen[..i + 1][..i] == seen[..i];
      if seen[i].Data? {
        errored := RecordChunk(errored, seen[i].chunk, file);
      }
      i := i + 1;
    }
    assert seen[..i] == seen;
  }

  /** The listing loop of the close listener, numbering lines from one. */
  method ListScript(lines: seq<string>, errored: map<JsNumber, string>) returns (messages: seq<Message>)
    ensures messages == Listing(lines, 1, errored)
  {
    messages := [];
    var lineNum := 1;
    while lineNum <= |lines|
      invariant 1 <= lineNum <= |lines| + 1 && |messages| == lineNum - 1
      invariant forall j :: 0 <= j < lineNum - 1 ==> messages[j] == ListingLine(1 + j, lines[j], errored)
    {
      messages := messages + [ListingLine(lineNum, lines[lineNum - 1], errored)];
      lineNum := lineNum + 1;
    }
  }

  /**
   * `validateLUASyntax(file)` on a shell started in `directory` whose output
   * is `output`, with `content` the script as the close listener reads it:
   * the data listener files every reported problem, and the close listener
   * settles the check and lists the script on failure.
   */
  method ValidateLuaSyntax(directory: string, file: string, content: string, output: seq<Event>)
    returns (r: Promise<()>, messages: seq<Message>)
    ensures (r, messages) == LintOutcome(file, content, output)
  {
    var p := new Process(true, output, Some(directory));
    ghost var s0 := p.State();
    var _ := p.ExecuteWait(LintCommand(file), true);
    ghost var s1 := p.State();
    var closed := p.WaitForClose();
    if FirstClose(output).None? {
      LintShellNoClose(s0, LintCommand(file));
      assert closed.None?;
      return Pending, [];
    }
    ghost var k, w := LintShell(s0, LintCommand(file));
    assert s1 == w;
    var (code, lastWrite) := closed.value;
    assert code == output[k].code && lastWrite == LintCommand(file);
    if code == Code(0) {
      return Resolved(()), [];
    }
    assert p.delivered == output[..k + 1];
    var errored := RecordSeen(p.delivered[..|p.delivered| - 1], file);
    assert p.delivered[..|p.delivered| - 1] == output[..k];
    messages := ListScript(Split(content, '\n'), errored);
    r := Rejected(ProcessFailure(code, lastWrite));
  }
}
