/**
 * The Lua stage of a build (`processLUA`): every configured script is
 * assembled in the board's scripting directory out of framed fragments, the
 * helper functions first and the listed source files after them, and is
 * optionally checked with luacheck. The stage also switches scripting on in
 * the parameter defaults, or removes the scripting directory when Lua is not
 * to be included.
 */
module LuaScripts {
  import opened Wrappers
  import opened JsText
  import opened FileSystem
  import opened BuildConfig
  import opened ShellProcess
  import opened LuaCheck
  import opened BoardLocations
  import opened ConfigPatch

  // ---------------------------------------------------------------------------
  // output names
  // ---------------------------------------------------------------------------

  /**
   * The name the `index`-th script is written under: its `outputName` when
   * that is truthy, `output_<index>.lua` when its sources are a list, else its
   * one source path (`undefined` when it has none).
   */
  function OutputName(file: LuaFile, index: nat): string
  {
    if Truthy(file.outputName) then file.outputName.value
    else match file.file
      case ManyFiles(_) => "output_" + NatToString(index) + ".lua"
      case OneFile(p) => p
      case NoFile => "undefined"
  }

  function OutputLocation(scriptingDirectory: string, file: LuaFile, index: nat): string
  {
    scriptingDirectory + "/" + OutputName(file, index)
  }

  /** Scripts named after their index never share an output file, and an index always gives the same one. */
  lemma OutputNamesApart(f: LuaFile, i: nat, g: LuaFile, j: nat)
    requires !Truthy(f.outputName) && f.file.ManyFiles?
    requires !Truthy(g.outputName) && g.file.ManyFiles?
    ensures OutputName(f, i) == OutputName(g, j) <==> i == j
  {
    if OutputName(f, i) == OutputName(g, j) {
      var a, b := OutputName(f, i), OutputName(g, j);
      assert NatToString(i) == a[7..|a| - 4];
      assert NatToString(j) == b[7..|b| - 4];
      NatToStringInjective(i, j);
    }
  }

  /** Every script goes inside the scripting directory. */
  lemma OutputLocationInside(scriptingDirectory: string, file: LuaFile, index: nat)
    ensures StartsWith(OutputLocation(scriptingDirectory, file, index), scriptingDirectory + "/")
  {
    var o := OutputLocation(scriptingDirectory, file, index);
    assert o[..|scriptingDirectory + "/"|] == scriptingDirectory + "/";
  }

  // ---------------------------------------------------------------------------
  // framing
  // ---------------------------------------------------------------------------

  /** One fragment of a script: a `--- <label>` header line, the data, a line break. */
  function Frame(title: string, data: string): string
  {
    "--- " + title + "\n" + data + "\n"
  }

  /** A sequence of (label, data) fragments, written one after another. */
  function FramesText(frames: seq<(string, string)>): string
  {
    if |frames| == 0 then "" else Frame(frames[0].0, frames[0].1) + FramesText(frames[1..])
  }

  lemma FramesTextCons(frame: (string, string), frames: seq<(string, string)>)
    ensures FramesText([frame] + frames) == Frame(frame.0, frame.1) + FramesText(frames)
  {
    assert ([frame] + frames)[1..] == frames;
  }

  /** The lines a reader sees: per fragment its header line, then the lines of its data. */
  function FrameLines(frames: seq<(string, string)>): seq<string>
  {
    if |frames| == 0 then [] else ["--- " + frames[0].0] + Split(frames[0].1, '\n') + FrameLines(frames[1..])
  }

  lemma {:induction false} FramesTextAppend(a: seq<(string, string)>, b: seq<(string, string)>)
    ensures FramesText(a + b) == FramesText(a) + FramesText(b)
  {
    if |a| == 0 {
      assert a + b == b;
    } else {
      assert (a + b)[1..] == a[1..] + b;
      FramesTextAppend(a[1..], b);
    }
  }

  /**
   * A script reads back fragment by fragment: each header line, followed by
   * exactly the lines of that fragment's data, and the final line break.
   */
  lemma {:induction false} FramesTextLines(frames: seq<(string, string)>)
    requires forall i :: 0 <= i < |frames| ==> '\n' !in frames[i].0
    ensures Split(FramesText(frames), '\n') == FrameLines(frames) + [""]
  {
    if |frames| > 0 {
      FramesTextLines(frames[1..]);
      FrameSplit(frames[0].0, frames[0].1, FramesText(frames[1..]));
    }
  }

  /** One fragment in front of `rest` splits into its header line, its data's lines and the lines of `rest`. */
  lemma FrameSplit(title: string, data: string, rest: string)
    requires '\n' !in title
    ensures Split(Frame(title, data) + rest, '\n') == ["--- " + title] + Split(data, '\n') + Split(rest, '\n')
  {
    var h := "--- " + title;
    assert Frame(title, data) + rest == h + ['\n'] + (data + ['\n'] + rest);
    assert '\n' !in h by {
      assert forall k :: 0 <= k < |h| ==> h[k] == (if k < 4 then "--- "[k] else title[k - 4]);
    }
    SplitAfterPiece(h, '\n', data + ['\n'] + rest);
    SplitAppend(data, '\n', rest);
  }

  /** The helper fragments: `Helper <i>` over the `i`-th helper function. */
  function HelperFrames(helpers: seq<string>): (r: seq<(string, string)>)
    ensures |r| == |helpers|
    ensures forall i :: 0 <= i < |r| ==> r[i] == ("Helper " + NatToString(i), helpers[i])
  {
    seq(|helpers|, i requires 0 <= i < |helpers| => ("Helper " + NatToString(i), helpers[i]))
  }

  // ---------------------------------------------------------------------------
  // the build date and the predefined helpers
  // ---------------------------------------------------------------------------

  /** A calendar date as `Date` reports it: `getDate()`, the 0-based `getMonth()`, `getFullYear()`. */
  datatype Date = Date(day: nat, month: nat, year: nat)

  /** The day of the month, padded to two digits. */
  function DayText(day: nat): string
  {
    if day > 9 then NatToString(day) else "0" + NatToString(day)
  }

  /** The 0-based month as a 1-based month padded to two digits. */
  function MonthText(month: nat): string
  {
    if month > 8 then NatToString(month + 1) else "0" + NatToString(month + 1)
  }

  /** `dd/mm/yyyy`. */
  function BuildDate(date: Date): string
  {
    DayText(date.day) + "/" + MonthText(date.month) + "/" + NatToString(date.year)
  }

  /** A number below 100 padded to two digits reads back as that number and holds no `/`. */
  lemma PaddedReadsBack(n: nat, s: string)
    requires n <= 99
    requires s == if n > 9 then NatToString(n) else "0" + NatToString(n)
    ensures |s| == 2 && '/' !in s && ParseInt(s) == Num(n)
  {
    if n > 9 {
      TwoDigitsReadBack(n);
    } else {
      ZeroPaddedReadsBack(n);
    }
  }

  lemma TwoDigitsReadBack(n: nat)
    requires 10 <= n <= 99
    ensures |NatToString(n)| == 2 && '/' !in NatToString(n) && ParseInt(NatToString(n)) == Num(n)
  {
    NatToStringDigits(n);
    assert NatToString(n) == NatToString(n / 10) + [DigitChar(n % 10)];
    NoSlashInNumber(n);
    ParseIntOfIntToString(n);
  }

  lemma ZeroPaddedReadsBack(n: nat)
    requires n <= 9
    ensures var s := "0" + NatToString(n); |s| == 2 && '/' !in s && ParseInt(s) == Num(n)
  {
    var s := "0" + NatToString(n);
    assert s == ['0', DigitChar(n)];
    assert IsDigit(s[0], 10) && IsDigit(s[1], 10);
    LeadingZeroValue(s);
    ParseUnsigned(s);
  }

  /** A two-digit string led by `0` has the value of its second digit. */
  lemma LeadingZeroValue(s: string)
    requires |s| == 2 && s[0] == '0' && IsDigit(s[1], 10)
    ensures DigitsValue(s, 10) == HexValue(s[1]).value
  {
    assert s[..1] == "0" && s[..1][..0] == "";
    assert DigitsValue(s[..1], 10) == 0;
  }

  lemma NoSlashInNumber(n: nat)
    ensures '/' !in NatToString(n)
  {
    NatToStringDigits(n);
    var s := NatToString(n);
    assert forall i :: 0 <= i < |s| ==> IsDigit(s[i], 10) && s[i] != '/';
  }

  /** Three pieces without a `/` glued with `/` split back into those pieces. */
  lemma SplitThree(a: string, b: string, c: string)
    requires '/' !in a && '/' !in b && '/' !in c
    ensures Split(a + "/" + b + "/" + c, '/') == [a, b, c]
  {
    assert a + "/" + b + "/" + c == a + ['/'] + (b + ['/'] + c);
    SplitAfterPiece(a, '/', b + ['/'] + c);
    SplitAfterPiece(b, '/', c);
    SplitNoSeparator(c, '/');
  }

  lemma BuildDateParts(date: Date)
    requires date.day <= 99 && date.month < 99
    ensures Split(BuildDate(date), '/') == [DayText(date.day), MonthText(date.month), NatToString(date.year)]
    ensures |DayText(date.day)| == 2 && ParseInt(DayText(date.day)) == Num(date.day)
    ensures |MonthText(date.month)| == 2 && ParseInt(MonthText(date.month)) == Num(date.month + 1)
  {
    PaddedReadsBack(date.day, DayText(date.day));
    PaddedReadsBack(date.month + 1, MonthText(date.month));
    NoSlashInNumber(date.year);
    SplitThree(DayText(date.day), MonthText(date.month), NatToString(date.year));
  }

  /** The build date splits at `/` into a two-digit day, a two-digit 1-based month and the year. */
  lemma BuildDateFields(date: Date)
    requires 1 <= date.day <= 31 && date.month <= 11
    ensures var parts := Split(BuildDate(date), '/');
      |parts| == 3 && |parts[0]| == 2 && |parts[1]| == 2 &&
      ParseInt(parts[0]) == Num(date.day) &&
      ParseInt(parts[1]) == Num(date.month + 1) &&
      ParseInt(parts[2]) == Num(date.year)
  {
    BuildDateParts(date);
    YearReadsBack(date.year);
  }

  lemma YearReadsBack(year: nat)
    ensures ParseInt(NatToString(year)) == Num(year)
  {
    ParseIntOfIntToString(year);
    assert IntToString(year) == NatToString(year);
  }

  function DateHelper(date: string): string
  {
    "function build_date() return '" + date + "' end"
  }

  function ShaHelper(sha: string): string
  {
    "function application_sha() return '" + sha + "' end"
  }

  /** An unresolved promise carried over to an operation without a value. */
  function Unresolved<T>(p: Promise<T>): (r: Promise<()>)
    requires !p.Resolved?
    ensures r.Pending? <==> p.Pending?
    ensures p.Rejected? ==> r == Rejected(p.reason)
  {
    if p.Pending? then Pending else Rejected(p.reason)
  }

  /**
   * `helperFunctions` once the predefined helpers are added: with
   * `injectMethods` the given helpers stay first, then `build_date` when
   * asked for, then `application_sha` when asked for and the sha is known.
   * The second component fails as the sha lookup does.
   */
  function HelperList(file: LuaFile, date: Date, sha: Promise<string>): (r: (Option<seq<string>>, Promise<()>))
    ensures file.injectMethods.None? ==> r == (file.helperFunctions, Resolved(()))
    ensures file.injectMethods.Some? ==>
      var given := file.helperFunctions.GetOr([]);
      var m := file.injectMethods.value;
      var n := |given| + (if m.buildDate then 1 else 0);
      r.0.Some? && |given| <= n <= |r.0.value| && r.0.value[..|given|] == given &&
      (m.buildDate ==> r.0.value[|given|] == DateHelper(BuildDate(date))) &&
      (|r.0.value| > n <==> m.gitSha && sha.Resolved?) &&
      (|r.0.value| > n ==> r.0.value == r.0.value[..n] + [ShaHelper(sha.value)])
    ensures r.1.Resolved? <==> file.injectMethods.None? || !file.injectMethods.value.gitSha || sha.Resolved?
    ensures !r.1.Resolved? ==> r.1 == Unresolved(sha)
  {
    match file.injectMethods
    case None => (file.helperFunctions, Resolved(()))
    case Some(m) =>
      var given := file.helperFunctions.GetOr([]);
      var dated := if m.buildDate then given + [DateHelper(BuildDate(date))] else given;
      if !m.gitSha then (Some(dated), Resolved(()))
      else if sha.Resolved? then
        assert (dated + [ShaHelper(sha.value)])[..|dated|] == dated;
        (Some(dated + [ShaHelper(sha.value)]), Resolved(()))
      else (Some(dated), Unresolved(sha))
  }

  // ---------------------------------------------------------------------------
  // writing a script
  // ---------------------------------------------------------------------------

  /** Appends each fragment to `out`, in order. */
  function InjectFrames(d: Disk, out: string, frames: seq<(string, string)>): Disk
    decreases |frames|
  {
    if |frames| == 0 then d else InjectFrames(AppendFile(d, out, Frame(frames[0].0, frames[0].1)), out, frames[1..])
  }

  /** The fragments follow what `out` held; nothing else changes. */
  lemma {:induction false} InjectFramesEffect(d: Disk, out: string, frames: seq<(string, string)>)
    ensures ContentOr(InjectFrames(d, out, frames), out) == ContentOr(d, out) + FramesText(frames)
    ensures out in d.files ==> out in InjectFrames(d, out, frames).files
    ensures InjectFrames(d, out, frames).dirs == d.dirs
    ensures forall q :: q != out ==> ReadFile(InjectFrames(d, out, frames), q) == ReadFile(d, q)
    decreases |frames|
  {
    if |frames| > 0 {
      var d1 := AppendFile(d, out, Frame(frames[0].0, frames[0].1));
      InjectFramesEffect(d1, out, frames[1..]);
      forall q | q != out
        ensures ReadFile(InjectFrames(d, out, frames), q) == ReadFile(d, q)
      {
        ReadAfterAppend(d, out, Frame(frames[0].0, frames[0].1), q);
      }
    }
  }

  /** The error `fs.readFileSync(undefined)` throws. */
  const UndefinedPath := "TypeError [ERR_INVALID_ARG_TYPE]: The \"path\" argument must be of type string or an instance of Buffer or URL. Received undefined"

  /** What reading an entry of `file.file` gives; an entry that is not a path throws. */
  function ReadSource(d: Disk, src: Option<string>): (r: Result<string>)
    ensures src.None? ==> r.Err?
    ensures src.Some? ==> r == ReadFile(d, src.value)
  {
    match src
    case None => Err(UndefinedPath)
    case Some(p) => ReadFile(d, p)
  }

  /** The entries of `file.file` once a single entry is made a list of one. */
  function Sources(f: FileList): seq<Option<string>>
  {
    match f
    case NoFile => [None]
    case OneFile(p) => [Some(p)]
    case ManyFiles(ps) => seq(|ps|, i requires 0 <= i < |ps| => Some(ps[i]))
  }

  /** `file.file` as `processLUA` leaves it: a single path becomes a list of one. */
  function Listed(f: FileList): FileList
  {
    if f.OneFile? then ManyFiles([f.path]) else f
  }

  predicate Readable(d: Disk, srcs: seq<Option<string>>)
  {
    forall i :: 0 <= i < |srcs| ==> ReadSource(d, srcs[i]).Ok?
  }

  /** The source fragments: `File <path>` over that file's contents. */
  function FileFrames(d: Disk, srcs: seq<Option<string>>): (r: seq<(string, string)>)
    requires Readable(d, srcs)
    ensures |r| == |srcs|
    ensures forall i :: 0 <= i < |r| ==> r[i] == ("File " + srcs[i].value, d.files[srcs[i].value])
  {
    if |srcs| == 0 then []
    else
      assert ReadSource(d, srcs[0]).Ok?;
      assert Readable(d, srcs[1..]) by {
        assert forall i :: 0 <= i < |srcs| - 1 ==> srcs[1..][i] == srcs[i + 1];
      }
      [("File " + srcs[0].value, d.files[srcs[0].value])] + FileFrames(d, srcs[1..])
  }

  /** The outcome of appending the sources: the disk so far, and the first read error. */
  datatype Injected = Injected(disk: Disk, error: Option<string>)

  /** Each source is read, then appended to `out` as a fragment; the first failing read stops. */
  function InjectSources(d: Disk, out: string, srcs: seq<Option<string>>): Injected
    decreases |srcs|
  {
    if |srcs| == 0 then Injected(d, None)
    else match ReadSource(d, srcs[0])
      case Err(e) => Injected(d, Some(e))
      case Ok(c) => InjectSources(AppendFile(d, out, Frame("File " + srcs[0].value, c)), out, srcs[1..])
  }

  /** Two disks that agree away from `out` read every source other than `out` alike. */
  lemma {:induction false} SourcesAgree(d: Disk, e: Disk, out: string, srcs: seq<Option<string>>)
    requires forall i :: 0 <= i < |srcs| ==> srcs[i] != Some(out)
    requires forall q :: q != out ==> ReadFile(e, q) == ReadFile(d, q)
    ensures Readable(e, srcs) <==> Readable(d, srcs)
    ensures Readable(d, srcs) ==> FileFrames(e, srcs) == FileFrames(d, srcs)
  {
    assert forall i :: 0 <= i < |srcs| ==> ReadSource(e, srcs[i]) == ReadSource(d, srcs[i]);
    if Readable(d, srcs) {
      var fe, fd := FileFrames(e, srcs), FileFrames(d, srcs);
      assert forall i :: 0 <= i < |srcs| ==> fe[i] == fd[i];
    }
  }

  lemma ReadablePrefix(d: Disk, srcs: seq<Option<string>>, k: nat)
    requires k < |srcs| && ReadSource(d, srcs[0]).Ok? && Readable(d, srcs[1..][..k])
    ensures Readable(d, srcs[..k + 1])
  {
    assert forall i :: 1 <= i < k + 1 ==> srcs[..k + 1][i] == srcs[i] == srcs[1..][..k][i - 1];
  }

  /** The first step of appending the sources, when the first source can be read. */
  lemma InjectSourcesStep(d: Disk, out: string, srcs: seq<Option<string>>) returns (d1: Disk)
    requires |srcs| > 0 && ReadSource(d, srcs[0]).Ok?
    ensures d1 == AppendFile(d, out, Frame("File " + srcs[0].value, ReadSource(d, srcs[0]).value))
    ensures InjectSources(d, out, srcs) == InjectSources(d1, out, srcs[1..])
    ensures ContentOr(d1, out) == ContentOr(d, out) + Frame("File " + srcs[0].value, ReadSource(d, srcs[0]).value)
    ensures forall q :: q != out ==> ReadFile(d1, q) == ReadFile(d, q)
  {
    var frame := Frame("File " + srcs[0].value, ReadSource(d, srcs[0]).value);
    d1 := AppendFile(d, out, frame);
    forall q | q != out ensures ReadFile(d1, q) == ReadFile(d, q) {
      ReadAfterAppend(d, out, frame, q);
    }
  }

  /** A source list is readable exactly when its first entry and the rest are. */
  lemma ReadableCons(d: Disk, srcs: seq<Option<string>>)
    requires |srcs| > 0
    ensures Readable(d, srcs) <==> ReadSource(d, srcs[0]).Ok? && Readable(d, srcs[1..])
  {
    assert forall i :: 0 < i < |srcs| ==> srcs[i] == srcs[1..][i - 1];
  }

  /** With no source being the script itself, appending the sources succeeds exactly when every source can be read. */
  lemma {:induction false} InjectSourcesSucceeds(d: Disk, out: string, srcs: seq<Option<string>>)
    requires forall i :: 0 <= i < |srcs| ==> srcs[i] != Some(out)
    ensures InjectSources(d, out, srcs).error.None? <==> Readable(d, srcs)
    decreases |srcs|
  {
    if |srcs| > 0 {
      ReadableCons(d, srcs);
      if ReadSource(d, srcs[0]).Ok? {
        var d1 := InjectSourcesStep(d, out, srcs);
        InjectSourcesSucceeds(d1, out, srcs[1..]);
        SourcesAgree(d, d1, out, srcs[1..]);
      }
    }
  }

  /** When every source can be read and none is the script itself, the script gains exactly the source fragments, in order. */
  lemma {:induction false} InjectSourcesContent(d: Disk, out: string, srcs: seq<Option<string>>)
    requires forall i :: 0 <= i < |srcs| ==> srcs[i] != Some(out)
    requires Readable(d, srcs)
    ensures ContentOr(InjectSources(d, out, srcs).disk, out) == ContentOr(d, out) + FramesText(FileFrames(d, srcs))
    decreases |srcs|
  {
    if |srcs| > 0 {
      ReadableCons(d, srcs);
      var d1 := InjectSourcesStep(d, out, srcs);
      var rest := srcs[1..];
      SourcesAgree(d, d1, out, rest);
      InjectSourcesContent(d1, out, rest);
      var first := ("File " + srcs[0].value, ReadSource(d, srcs[0]).value);
      assert FileFrames(d, srcs) == [first] + FileFrames(d, rest);
      FramesTextCons(first, FileFrames(d, rest));
      Assoc(ContentOr(d, out), Frame(first.0, first.1), FramesText(FileFrames(d, rest)));
    }
  }

  /** When appending the sources fails, the error is that of the first source that cannot be read. */
  lemma {:induction false} InjectSourcesFirstError(d: Disk, out: string, srcs: seq<Option<string>>)
    requires forall i :: 0 <= i < |srcs| ==> srcs[i] != Some(out)
    ensures var r := InjectSources(d, out, srcs);
      r.error.Some? ==> exists k :: 0 <= k < |srcs| && Readable(d, srcs[..k]) && ReadSource(d, srcs[k]) == Err(r.error.value)
    decreases |srcs|
  {
    var r := InjectSources(d, out, srcs);
    if |srcs| > 0 {
      if ReadSource(d, srcs[0]).Err? {
        assert srcs[..0] == [];
      } else {
        var d1 := InjectSourcesStep(d, out, srcs);
        var rest := srcs[1..];
        InjectSourcesFirstError(d1, out, rest);
        if r.error.Some? {
          var k :| 0 <= k < |rest| && Readable(d1, rest[..k]) && ReadSource(d1, rest[k]) == Err(r.error.value);
          SourcesAgree(d, d1, out, rest[..k]);
          ReadablePrefix(d, srcs, k);
          assert ReadSource(d, srcs[k + 1]) == ReadSource(d1, rest[k]);
        }
      }
    }
  }

  /** The message logged when a script fails its check. */
  function ValidationError(reason: string): string
  {
    "LUA validation error! " + reason + ". Will not continue with build"
  }

  /** The result of one script: its outcome, the script's record as left behind, the disk and the messages. */
  datatype ScriptRun = ScriptRun(outcome: Promise<()>, file: LuaFile, disk: Disk, log: seq<Message>)

  /**
   * One iteration of the script loop: the output file is created, the
   * helpers are completed and written, then the sources, and the script is
   * linted when `validateSyntax` asks for it. `lint` is what luacheck prints.
   */
  function ProcessScript(d: Disk, scriptingDirectory: string, index: nat, file: LuaFile, date: Date, sha: Promise<string>, lint: seq<Event>): ScriptRun
  {
    var out := OutputLocation(scriptingDirectory, file, index);
    var d1 := CreateFile(d, out);
    var (helpers, found) := HelperList(file, date, sha);
    var file1 := file.(helperFunctions := helpers, file := Listed(file.file));
    if !found.Resolved? then ScriptRun(found, file1, d1, [])
    else
      var d2 := HelpersWritten(d, out, helpers.GetOr([]));
      var injected := InjectSources(d2, out, Sources(file.file));
      if injected.error.Some? then ScriptRun(Rejected(injected.error.value), file1, injected.disk, [])
      else if !file.validateSyntax then ScriptRun(Resolved(()), file1, injected.disk, [])
      else
        var (checked, messages) := LintOutcome(out, ContentOr(injected.disk, out), lint);
        if checked.Rejected? then
          ScriptRun(checked, file1, injected.disk,
            messages + [Error(ValidationError(checked.reason))])
        else ScriptRun(checked, file1, injected.disk, messages)
  }

  /** The disk a script is appended to once its helpers are written. */
  function HelpersWritten(d: Disk, out: string, helpers: seq<string>): Disk
  {
    InjectFrames(CreateFile(d, out), out, HelperFrames(helpers))
  }

  /** The pieces of one iteration: what it leaves behind once the helpers are complete. */
  lemma ScriptSteps(d: Disk, scriptingDirectory: string, index: nat, file: LuaFile, date: Date, sha: Promise<string>, lint: seq<Event>)
    returns (out: string, injected: Injected)
    requires HelperList(file, date, sha).1.Resolved?
    ensures out == OutputLocation(scriptingDirectory, file, index)
    ensures injected == InjectSources(HelpersWritten(d, out, HelperList(file, date, sha).0.GetOr([])), out, Sources(file.file))
    ensures var r := ProcessScript(d, scriptingDirectory, index, file, date, sha, lint);
      r.disk == injected.disk &&
      (injected.error.Some? ==> r.outcome == Rejected(injected.error.value))
  {
    out := OutputLocation(scriptingDirectory, file, index);
    injected := InjectSources(HelpersWritten(d, out, HelperList(file, date, sha).0.GetOr([])), out, Sources(file.file));
  }

  /**
   * A script that completes holds exactly its helper fragments followed by
   * its source fragments, every source having been read.
   */
  lemma ScriptContent(d: Disk, scriptingDirectory: string, index: nat, file: LuaFile, date: Date, sha: Promise<string>, lint: seq<Event>)
    requires var srcs := Sources(file.file);
      forall i :: 0 <= i < |srcs| ==> srcs[i] != Some(OutputLocation(scriptingDirectory, file, index))
    ensures var r := ProcessScript(d, scriptingDirectory, index, file, date, sha, lint);
      r.outcome.Resolved? ==>
        Readable(d, Sources(file.file)) &&
        ContentOr(r.disk, OutputLocation(scriptingDirectory, file, index)) ==
          FramesText(HelperFrames(HelperList(file, date, sha).0.GetOr([])) + FileFrames(d, Sources(file.file)))
  {
    if ProcessScript(d, scriptingDirectory, index, file, date, sha, lint).outcome.Resolved? {
      var out, injected := ScriptSteps(d, scriptingDirectory, index, file, date, sha, lint);
      var helpers := HelperList(file, date, sha).0.GetOr([]);
      var srcs := Sources(file.file);
      var d2 := HelpersWritten(d, out, helpers);
      WrittenHelpers(d, out, helpers);
      SourcesAgree(d, d2, out, srcs);
      InjectSourcesSucceeds(d2, out, srcs);
      InjectSourcesContent(d2, out, srcs);
      FramesTextAppend(HelperFrames(helpers), FileFrames(d, srcs));
    }
  }

  /** Once its helpers are complete, a script with a source that cannot be read fails. */
  lemma ScriptMissingSource(d: Disk, scriptingDirectory: string, index: nat, file: LuaFile, date: Date, sha: Promise<string>, lint: seq<Event>)
    requires var srcs := Sources(file.file);
      forall i :: 0 <= i < |srcs| ==> srcs[i] != Some(OutputLocation(scriptingDirectory, file, index))
    requires HelperList(file, date, sha).1.Resolved? && !Readable(d, Sources(file.file))
    ensures ProcessScript(d, scriptingDirectory, index, file, date, sha, lint).outcome.Rejected?
  {
    var out, injected := ScriptSteps(d, scriptingDirectory, index, file, date, sha, lint);
    var helpers := HelperList(file, date, sha).0.GetOr([]);
    var d2 := HelpersWritten(d, out, helpers);
    WrittenHelpers(d, out, helpers);
    SourcesAgree(d, d2, out, Sources(file.file));
    InjectSourcesSucceeds(d2, out, Sources(file.file));
  }

  /** Writing the helpers leaves the script holding exactly their fragments and every other file as it was. */
  lemma WrittenHelpers(d: Disk, out: string, helpers: seq<string>)
    ensures ContentOr(HelpersWritten(d, out, helpers), out) == FramesText(HelperFrames(helpers))
    ensures HelpersWritten(d, out, helpers).dirs == d.dirs
    ensures forall q :: q != out ==> ReadFile(HelpersWritten(d, out, helpers), q) == ReadFile(d, q)
  {
    var d1 := CreateFile(d, out);
    InjectFramesEffect(d1, out, HelperFrames(helpers));
    forall q | q != out ensures ReadFile(d1, q) == ReadFile(d, q) {
      ReadAfterCreate(d, out, q);
    }
  }

  // ---------------------------------------------------------------------------
  // the script loop and the stage
  // ---------------------------------------------------------------------------

  /** The state threaded through the script loop. */
  datatype ScriptsRun = ScriptsRun(outcome: Promise<()>, files: seq<LuaFile>, disk: Disk, log: seq<Message>)

  /** One iteration of the script loop, given the disk so far, the script's index and its record. */
  type ScriptStep = (Disk, nat, LuaFile) -> ScriptRun

  /** The iteration `processLUA` performs; `lint(i)` is what luacheck prints for the `i`-th script. */
  function ScriptStepOf(scriptingDirectory: string, date: Date, sha: Promise<string>, lint: nat -> seq<Event>): ScriptStep
  {
    (d: Disk, i: nat, f: LuaFile) => ProcessScript(d, scriptingDirectory, i, f, date, sha, lint(i))
  }

  /**
   * The scripts from `i` on, given the disk and messages so far; the loop
   * stops at the first script that does not complete.
   */
  function RunScripts(step: ScriptStep, d: Disk, files: seq<LuaFile>, i: nat, log: seq<Message>): ScriptsRun
    requires i <= |files|
    decreases |files| - i
  {
    if i == |files| then ScriptsRun(Resolved(()), files, d, log)
    else
      var s := step(d, i, files[i]);
      var files1 := files[i := s.file];
      if s.outcome.Resolved? then RunScripts(step, s.disk, files1, i + 1, log + s.log)
      else ScriptsRun(s.outcome, files1, s.disk, log + s.log)
  }

  /** An iteration that creates no directory and changes no file outside `scriptingDirectory`. */
  ghost predicate KeepsOutside(step: ScriptStep, scriptingDirectory: string)
  {
    forall d: Disk, i: nat, f: LuaFile ::
      step(d, i, f).disk.dirs == d.dirs &&
      forall q :: !StartsWith(q, scriptingDirectory + "/") ==> ReadFile(step(d, i, f).disk, q) == ReadFile(d, q)
  }

  /** Each script is written inside the scripting directory and nowhere else. */
  lemma StepKeepsOutside(scriptingDirectory: string, date: Date, sha: Promise<string>, lint: nat -> seq<Event>)
    ensures KeepsOutside(ScriptStepOf(scriptingDirectory, date, sha, lint), scriptingDirectory)
  {
    var step := ScriptStepOf(scriptingDirectory, date, sha, lint);
    forall d: Disk, i: nat, f: LuaFile
      ensures step(d, i, f).disk.dirs == d.dirs
      ensures forall q :: !StartsWith(q, scriptingDirectory + "/") ==> ReadFile(step(d, i, f).disk, q) == ReadFile(d, q)
    {
      ScriptFrame(d, scriptingDirectory, i, f, date, sha, lint(i));
      OutputLocationInside(scriptingDirectory, f, i);
      forall q | !StartsWith(q, scriptingDirectory + "/")
        ensures ReadFile(step(d, i, f).disk, q) == ReadFile(d, q)
      {
        assert q != OutputLocation(scriptingDirectory, f, i);
      }
    }
  }

  /**
   * The loop keeps the number of scripts and the earlier ones, keeps every
   * earlier message, and, when each iteration does, touches no file outside
   * the scripting directory.
   */
  lemma {:induction false} RunScriptsFrame(step: ScriptStep, scriptingDirectory: string, d: Disk, files: seq<LuaFile>, i: nat, log: seq<Message>)
    requires i <= |files|
    requires KeepsOutside(step, scriptingDirectory)
    ensures var r := RunScripts(step, d, files, i, log);
      |r.files| == |files| && (forall k :: 0 <= k < i ==> r.files[k] == files[k]) &&
      |log| <= |r.log| && (forall k :: 0 <= k < |log| ==> r.log[k] == log[k]) && r.disk.dirs == d.dirs &&
      forall q :: !StartsWith(q, scriptingDirectory + "/") ==> ReadFile(r.disk, q) == ReadFile(d, q)
    decreases |files| - i
  {
    if i < |files| {
      var s := step(d, i, files[i]);
      var files1 := files[i := s.file];
      var log1 := log + s.log;
      if s.outcome.Resolved? {
        RunScriptsFrame(step, scriptingDirectory, s.disk, files1, i + 1, log1);
      }
    }
  }

  /** A single script changes no file but its own output. */
  lemma ScriptFrame(d: Disk, scriptingDirectory: string, index: nat, file: LuaFile, date: Date, sha: Promise<string>, lint: seq<Event>)
    ensures var r := ProcessScript(d, scriptingDirectory, index, file, date, sha, lint);
      r.disk.dirs == d.dirs &&
      forall q :: q != OutputLocation(scriptingDirectory, file, index) ==> ReadFile(r.disk, q) == ReadFile(d, q)
  {
    var out := OutputLocation(scriptingDirectory, file, index);
    var helpers := HelperList(file, date, sha).0.GetOr([]);
    WrittenHelpers(d, out, helpers);
    InjectSourcesOnly(HelpersWritten(d, out, helpers), out, Sources(file.file));
    forall q | q != out ensures ReadFile(CreateFile(d, out), q) == ReadFile(d, q) {
      ReadAfterCreate(d, out, q);
    }
  }

  /** Appending the sources changes no file but `out`, whatever the sources are. */
  lemma {:induction false} InjectSourcesOnly(d: Disk, out: string, srcs: seq<Option<string>>)
    ensures InjectSources(d, out, srcs).disk.dirs == d.dirs
    ensures forall q :: q != out ==> ReadFile(InjectSources(d, out, srcs).disk, q) == ReadFile(d, q)
    decreases |srcs|
  {
    if |srcs| == 0 || ReadSource(d, srcs[0]).Err? {
      assert InjectSources(d, out, srcs).disk == d;
    } else {
      var frame := Frame("File " + srcs[0].value, ReadSource(d, srcs[0]).value);
      var d1 := AppendFile(d, out, frame);
      assert InjectSources(d, out, srcs) == InjectSources(d1, out, srcs[1..]);
      InjectSourcesOnly(d1, out, srcs[1..]);
      forall q | q != out ensures ReadFile(d1, q) == ReadFile(d, q) {
        ReadAfterAppend(d, out, frame, q);
      }
    }
  }

  /** The result of the stage: its outcome, the build description as left behind, the disk and the messages. */
  datatype LuaRun = LuaRun(outcome: Promise<()>, build: Build, disk: Disk, log: seq<Message>)

  /** `processLUA` for build `b` whose working copy is at `buildLocation`. */
  function ProcessLua(b: Build, d: Disk, buildLocation: string, date: Date, sha: Promise<string>, lint: nat -> seq<Event>): LuaRun
  {
    if b.lua.None? then LuaRun(Resolved(()), b, d, [])
    else
      var lua := b.lua.value;
      var b1 := WithScriptingParameter(b);
      var dir := ScriptingDirectoriesOf(buildLocation, b.board).scriptingDirectory;
      if lua.includeLua == Some(false) then
        match RemoveTree(d, dir)
        case Ok(d1) => LuaRun(Resolved(()), b1, d1, [])
        case Err(e) => LuaRun(Rejected(e), b1, d, [])
      else if lua.luaFiles.None? then LuaRun(Resolved(()), b1, d, [])
      else
        var d1 := if Exists(d, dir) then d else MakeDirectory(d, dir).value;
        var run := RunScripts(ScriptStepOf(dir, date, sha, lint), d1, lua.luaFiles.value, 0, []);
        LuaRun(run.outcome, b1.(lua := Some(lua.(luaFiles := Some(run.files)))), run.disk, run.log)
  }

  /**
   * The stage changes the build description only in its parameters, which
   * gain `SCR_ENABLED` as scripting asks, and in its scripts; it touches no
   * file outside the scripting directory; and when Lua is left out the
   * scripting directory is gone afterwards, or the stage fails because it
   * was missing.
   */
  lemma ProcessLuaEffect(b: Build, d: Disk, buildLocation: string, date: Date, sha: Promise<string>, lint: nat -> seq<Event>)
    ensures var r := ProcessLua(b, d, buildLocation, date, sha, lint);
      var dir := ScriptingDirectoriesOf(buildLocation, b.board).scriptingDirectory;
      r.build.(parameter := b.parameter, lua := b.lua) == b &&
      r.build.parameter == WithScriptingParameter(b).parameter &&
      (b.lua.None? ==> r == LuaRun(Resolved(()), b, d, [])) &&
      (b.lua.Some? ==> r.build.lua.Some? && r.build.lua.value.(luaFiles := b.lua.value.luaFiles) == b.lua.value) &&
      (b.lua.Some? && b.lua.value.includeLua == Some(false) ==>
        (r.outcome.Resolved? <==> Exists(d, dir)) &&
        (r.outcome.Resolved? ==> forall q :: Under(q, dir) ==> !Exists(r.disk, q))) &&
      forall q :: !Under(q, dir) ==> ReadFile(r.disk, q) == ReadFile(d, q)
  {
    if b.lua.Some? {
      var lua := b.lua.value;
      var dir := ScriptingDirectoriesOf(buildLocation, b.board).scriptingDirectory;
      if lua.includeLua == Some(false) {
        if Exists(d, dir) {
          forall q ensures Under(q, dir) ==> !Exists(RemoveTree(d, dir).value, q)
            ensures !Under(q, dir) ==> ReadFile(RemoveTree(d, dir).value, q) == ReadFile(d, q)
          {
            RemoveTreeClears(d, dir, q);
          }
        }
      } else if lua.luaFiles.Some? {
        var d1 := if Exists(d, dir) then d else MakeDirectory(d, dir).value;
        forall q ensures ReadFile(d1, q) == ReadFile(d, q) {
          if !Exists(d, dir) {
            MakeDirectoryExists(d, dir, q);
          }
        }
        StepKeepsOutside(dir, date, sha, lint);
        RunScriptsFrame(ScriptStepOf(dir, date, sha, lint), dir, d1, lua.luaFiles.value, 0, []);
      }
    }
  }

  // ---------------------------------------------------------------------------
  // the loop on the process-wide file system
  // ---------------------------------------------------------------------------

  /** Appending one fragment after the first `i` of `frames` continues the same run. */
  lemma InjectFramesNext(d: Disk, out: string, frames: seq<(string, string)>, i: nat)
    requires i < |frames|
    ensures InjectFrames(d, out, frames[i..]) ==
      InjectFrames(AppendFile(d, out, Frame(frames[i].0, frames[i].1)), out, frames[i + 1..])
  {
    assert frames[i..][1..] == frames[i + 1..];
  }

  /** Reading the `j`-th source and appending it continues the same run. */
  lemma InjectSourcesNext(d: Disk, out: string, srcs: seq<Option<string>>, j: nat)
    requires j < |srcs|
    ensures ReadSource(d, srcs[j]).Err? ==> InjectSources(d, out, srcs[j..]) == Injected(d, Some(ReadSource(d, srcs[j]).error))
    ensures ReadSource(d, srcs[j]).Ok? ==> (InjectSources(d, out, srcs[j..]) ==
      InjectSources(AppendFile(d, out, Frame("File " + srcs[j].value, ReadSource(d, srcs[j]).value)), out, srcs[j + 1..]))
  {
    assert srcs[j..][0] == srcs[j];
    assert srcs[j..][1..] == srcs[j + 1..];
  }

  /**
   * One iteration of the script loop on the shared file system: the output
   * is created, the helpers are written one by one, then each source is read
   * and appended, and the script is linted by luacheck started in
   * `buildLocation`.
   */
  method WriteScript(fs: FileStore, buildLocation: string, scriptingDirectory: string, index: nat, file: LuaFile,
                     date: Date, sha: Promise<string>, lint: seq<Event>)
    returns (outcome: Promise<()>, left: LuaFile, log: seq<Message>)
    modifies fs
    ensures var r := ProcessScript(old(fs.disk), scriptingDirectory, index, file, date, sha, lint);
      outcome == r.outcome && left == r.file && fs.disk == r.disk && log == r.log
  {
    ghost var d0 := fs.disk;
    var out := OutputLocation(scriptingDirectory, file, index);
    fs.Create(out);
    var (helpers, found) := HelperList(file, date, sha);
    left := file.(helperFunctions := helpers, file := Listed(file.file));
    if !found.Resolved? {
      return found, left, [];
    }
    var hs := helpers.GetOr([]);
    ghost var frames := HelperFrames(hs);
    ghost var d1 := fs.disk;
    var i := 0;
    while i < |hs|
      invariant 0 <= i <= |hs|
      invariant InjectFrames(fs.disk, out, frames[i..]) == InjectFrames(d1, out, frames)
      decreases |hs| - i
    {
      InjectFramesNext(fs.disk, out, frames, i);
      fs.Append(out, Frame("Helper " + NatToString(i), hs[i]));
      i := i + 1;
    }
    assert fs.disk == HelpersWritten(d0, out, hs);
    var srcs := Sources(file.file);
    ghost var d2 := fs.disk;
    var j := 0;
    var error: Option<string> := None;
    while j < |srcs| && error.None?
      invariant 0 <= j <= |srcs|
      invariant error.None? ==> InjectSources(fs.disk, out, srcs[j..]) == InjectSources(d2, out, srcs)
      invariant error.Some? ==> Injected(fs.disk, error) == InjectSources(d2, out, srcs)
      decreases |srcs| - j
    {
      InjectSourcesNext(fs.disk, out, srcs, j);
      match srcs[j] {
        case None =>
          error := Some(UndefinedPath);
        case Some(p) =>
          var data := fs.Read(p);
          if data.Err? {
            error := Some(data.error);
          } else {
            fs.Append(out, Frame("File " + p, data.value));
          }
      }
      j := j + 1;
    }
    if error.Some? {
      return Rejected(error.value), left, [];
    }
    assert srcs[j..] == [];
    if !file.validateSyntax {
      return Resolved(()), left, [];
    }
    var written := fs.Read(out);
    var content := if written.Ok? then written.value else "";
    outcome, log := ValidateLuaSyntax(buildLocation, out, content, lint);
    if outcome.Rejected? {
      log := log + [Error(ValidationError(outcome.reason))];
    }
  }

  /** The script loop on the shared file system: the scripts in order, stopping at the first that does not complete. */
  method WriteScripts(fs: FileStore, buildLocation: string, scriptingDirectory: string, files: seq<LuaFile>,
                      date: Date, sha: Promise<string>, lint: nat -> seq<Event>)
    returns (outcome: Promise<()>, left: seq<LuaFile>, log: seq<Message>)
    modifies fs
    ensures var r := RunScripts(ScriptStepOf(scriptingDirectory, date, sha, lint), old(fs.disk), files, 0, []);
      outcome == r.outcome && left == r.files && fs.disk == r.disk && log == r.log
  {
    ghost var step := ScriptStepOf(scriptingDirectory, date, sha, lint);
    ghost var d0 := fs.disk;
    left, log := files, [];
    var i := 0;
    while i < |files|
      invariant 0 <= i <= |files| && |left| == |files|
      invariant RunScripts(step, fs.disk, left, i, log) == RunScripts(step, d0, files, 0, [])
      decreases |files| - i
    {
      var done, script, messages := WriteScript(fs, buildLocation, scriptingDirectory, i, left[i], date, sha, lint(i));
      left := left[i := script];
      log := log + messages;
      if !done.Resolved? {
        return done, left, log;
      }
      i := i + 1;
    }
    outcome := Resolved(());
  }
}
