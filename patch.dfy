/**
 * Patching a text file of the working copy (`processLUABindings`,
 * `processHWDef`, `processParameters`): optionally delete it, optionally
 * replace it by a copy of another file, then optionally append lines, each
 * ending in a newline, after one leading newline.
 */
module ConfigPatch {
  import opened Wrappers
  import opened JsText
  import opened FileSystem
  import opened BuildConfig
  import opened BoardLocations

  /** One file patch, read off the build's options. */
  datatype Patch = Patch(clear: bool, replaceFile: Option<string>, lines: Option<seq<string>>)

  /** `clear == true || replaceFile`: the file is deleted first. */
  predicate Deletes(p: Patch)
  {
    p.clear || Truthy(p.replaceFile)
  }

  /** The appended text: every line followed by a newline. */
  function Lines(lines: seq<string>): string
  {
    if |lines| == 0 then "" else lines[0] + "\n" + Lines(lines[1..])
  }

  /** Appending the lines one call at a time. */
  function AppendLines(d: Disk, target: string, lines: seq<string>): Disk
    decreases |lines|
  {
    if |lines| == 0 then d else AppendLines(AppendFile(d, target, lines[0] + "\n"), target, lines[1..])
  }

  /**
   * The patch as the code performs it. The deletion is skipped unless
   * `guard` exists; deleting a missing target fails, and so does copying
   * from a missing replacement.
   */
  function PatchGuarded(d: Disk, target: string, guard: string, p: Patch): Result<Disk>
  {
    var deleted :=
      if Deletes(p) && Exists(d, guard) then Unlink(d, target) else Ok(d);
    if deleted.Err? then deleted
    else
      var copied := if Truthy(p.replaceFile) then CopyFile(deleted.value, p.replaceFile.value, target) else deleted;
      if copied.Err? then copied
      else if p.lines.Some? then Ok(AppendLines(AppendFile(copied.value, target, "\n"), target, p.lines.value))
      else copied
  }

  /** The bindings and hwdef patches: the deletion is guarded by the target itself. */
  function PatchFile(d: Disk, target: string, p: Patch): Result<Disk>
  {
    PatchGuarded(d, target, target, p)
  }

  /** The disk a failed patch leaves: the deletion, when it ran and succeeded, stays done. */
  function FailedPatchDisk(d: Disk, target: string, guard: string, p: Patch): Disk
  {
    if Deletes(p) && Exists(d, guard) && target in d.files then Unlink(d, target).value else d
  }

  /** Appending the `i`-th line continues the same run of appends. */
  lemma AppendLinesNext(d: Disk, target: string, lines: seq<string>, i: nat)
    requires i < |lines|
    ensures AppendLines(d, target, lines[i..]) == AppendLines(AppendFile(d, target, lines[i] + "\n"), target, lines[i + 1..])
  {
    assert lines[i..][1..] == lines[i + 1..];
  }

  /**
   * A patch on the shared file system, one call at a time: the guarded
   * deletion, the copy, the leading newline and each line. A call that
   * throws ends the patch with its error.
   */
  method ApplyPatch(fs: FileStore, target: string, guard: string, p: Patch) returns (r: Result<()>)
    modifies fs
    ensures var e := PatchGuarded(old(fs.disk), target, guard, p);
      (r.Ok? <==> e.Ok?) &&
      (e.Ok? ==> fs.disk == e.value) &&
      (e.Err? ==> r.error == e.error && fs.disk == FailedPatchDisk(old(fs.disk), target, guard, p))
  {
    if Deletes(p) {
      var present := fs.PathExists(guard);
      if present {
        r := fs.Remove(target);
        if r.Err? {
          return;
        }
      }
    }
    if Truthy(p.replaceFile) {
      r := fs.Copy(p.replaceFile.value, target);
      if r.Err? {
        return;
      }
    }
    if p.lines.Some? {
      var lines := p.lines.value;
      fs.Append(target, "\n");
      ghost var start := fs.disk;
      var i := 0;
      while i < |lines|
        invariant 0 <= i <= |lines|
        invariant AppendLines(fs.disk, target, lines[i..]) == AppendLines(start, target, lines)
        decreases |lines| - i
      {
        AppendLinesNext(fs.disk, target, lines, i);
        fs.Append(target, lines[i] + "\n");
        i := i + 1;
      }
      assert lines[i..] == [];
    }
    r := Ok(());
  }

  // ---------------------------------------------------------------------------
  // what a patch does
  // ---------------------------------------------------------------------------

  /** Appending lines extends the target by `Lines` and touches no other file. */
  lemma {:induction false} AppendLinesEffect(d: Disk, target: string, lines: seq<string>)
    decreases |lines|
    ensures target in d.files ==> target in AppendLines(d, target, lines).files
    ensures ContentOr(AppendLines(d, target, lines), target) == ContentOr(d, target) + Lines(lines)
    ensures AppendLines(d, target, lines).dirs == d.dirs
    ensures forall q :: q != target ==> ReadFile(AppendLines(d, target, lines), q) == ReadFile(d, q)
  {
    if |lines| > 0 {
      var next := AppendFile(d, target, lines[0] + "\n");
      AppendLinesEffect(next, target, lines[1..]);
      assert ContentOr(next, target) == ContentOr(d, target) + (lines[0] + "\n");
      assert Lines(lines) == lines[0] + "\n" + Lines(lines[1..]);
      forall q | q != target
        ensures ReadFile(AppendLines(d, target, lines), q) == ReadFile(d, q)
      {
        ReadAfterAppend(d, target, lines[0] + "\n", q);
      }
    }
  }

  /** The text the target holds once the deletion and copy have run. */
  function BaseContent(d: Disk, target: string, p: Patch): string
    requires Truthy(p.replaceFile) ==> p.replaceFile.value in d.files
  {
    if Truthy(p.replaceFile) then d.files[p.replaceFile.value]
    else if p.clear then ""
    else ContentOr(d, target)
  }

  /** With the deletion guarded by the target, deleting never fails; it leaves no target and no other file changed. */
  lemma DeleteStep(d: Disk, target: string, p: Patch) returns (d1: Disk)
    requires target !in d.dirs
    ensures (if Deletes(p) && Exists(d, target) then Unlink(d, target) else Ok(d)) == Ok(d1)
    ensures Deletes(p) ==> target !in d1.files
    ensures !Deletes(p) ==> d1 == d
    ensures d1.dirs == d.dirs
    ensures forall q :: q != target ==> ReadFile(d1, q) == ReadFile(d, q)
  {
    if Deletes(p) && Exists(d, target) {
      d1 := Unlink(d, target).value;
    } else {
      d1 := d;
    }
  }

  /**
   * A patch whose deletion is guarded by its own target fails only for a
   * missing (or self-deleted) replacement. When it succeeds, a deleted
   * target without lines is gone; otherwise the target holds its base text,
   * then a newline and the appended lines when there are any. No other file
   * changes.
   */
  lemma PatchFileEffect(d: Disk, target: string, p: Patch)
    requires Valid(d) && target !in d.dirs
    ensures var r := PatchFile(d, target, p);
      r.Ok? <==> (Truthy(p.replaceFile) ==> p.replaceFile.value in d.files && p.replaceFile.value != target)
    ensures var r := PatchFile(d, target, p);
      r.Ok? && Deletes(p) && !Truthy(p.replaceFile) && p.lines.None? ==> target !in r.value.files
    ensures var r := PatchFile(d, target, p);
      r.Ok? && (Truthy(p.replaceFile) || p.lines.Some?) ==>
        target in r.value.files &&
        r.value.files[target] == BaseContent(d, target, p) + (if p.lines.Some? then "\n" + Lines(p.lines.value) else "")
    ensures var r := PatchFile(d, target, p);
      r.Ok? ==> forall q :: q != target ==> ReadFile(r.value, q) == ReadFile(d, q)
  {
    var d1 := DeleteStep(d, target, p);
    if Truthy(p.replaceFile) {
      var src := p.replaceFile.value;
      if src in d1.files {
        var d2 := CopyFile(d1, src, target).value;
        assert ReadFile(d1, src) == ReadFile(d, src);
        CopyEffect(d1, src, target);
        if p.lines.Some? {
          AppendAfterNewline(d2, target, p.lines.value);
        }
      } else {
        assert src != target ==> ReadFile(d1, src) == ReadFile(d, src);
      }
    } else if p.lines.Some? {
      AppendAfterNewline(d1, target, p.lines.value);
      assert ContentOr(d1, target) == BaseContent(d, target, p);
    }
  }

  lemma CopyEffect(d: Disk, src: string, target: string)
    requires src in d.files
    ensures target in CopyFile(d, src, target).value.files
    ensures CopyFile(d, src, target).value.files[target] == d.files[src]
    ensures CopyFile(d, src, target).value.dirs == d.dirs
    ensures forall q :: q != target ==> ReadFile(CopyFile(d, src, target).value, q) == ReadFile(d, q)
  {
  }

  /** The leading newline and then the lines. */
  lemma AppendAfterNewline(d: Disk, target: string, lines: seq<string>)
    ensures var r := AppendLines(AppendFile(d, target, "\n"), target, lines);
      target in r.files && r.files[target] == ContentOr(d, target) + ("\n" + Lines(lines)) &&
      r.dirs == d.dirs &&
      forall q :: q != target ==> ReadFile(r, q) == ReadFile(d, q)
  {
    var d1 := AppendFile(d, target, "\n");
    AppendLinesEffect(d1, target, lines);
    assert ContentOr(d1, target) + Lines(lines) == ContentOr(d, target) + ("\n" + Lines(lines));
  }

  /** The lines of a patched file are its base lines, then the appended lines, then an empty last line. */
  lemma {:induction false} LinesSplit(lines: seq<string>)
    requires forall i :: 0 <= i < |lines| ==> '\n' !in lines[i]
    ensures Split(Lines(lines), '\n') == lines + [""]
  {
    if |lines| > 0 {
      LinesSplit(lines[1..]);
      SplitAppend(lines[0], '\n', Lines(lines[1..]));
      SplitNoSeparator(lines[0], '\n');
      assert lines[0] + "\n" + Lines(lines[1..]) == lines[0] + ['\n'] + Lines(lines[1..]);
      assert [lines[0]] + (lines[1..] + [""]) == lines + [""];
    }
  }

  lemma AppendedLines(base: string, lines: seq<string>)
    requires forall i :: 0 <= i < |lines| ==> '\n' !in lines[i]
    ensures Split(base + "\n" + Lines(lines), '\n') == Split(base, '\n') + lines + [""]
  {
    assert base + "\n" + Lines(lines) == base + ['\n'] + Lines(lines);
    SplitAppend(base, '\n', Lines(lines));
    LinesSplit(lines);
  }

  // ---------------------------------------------------------------------------
  // the three patches of a build
  // ---------------------------------------------------------------------------

  /** The patch `luaBindings` or `hwDef` asks for. */
  function FilePatch(o: FileOptions): Patch
  {
    Patch(o.clear == Some(true), o.replaceFile, o.append)
  }

  /** A parameter line: name, a space, value. */
  function ParameterLines(entries: seq<(string, string)>): (r: seq<string>)
    ensures |r| == |entries|
    ensures forall i :: 0 <= i < |r| ==> r[i] == entries[i].0 + " " + entries[i].1
  {
    if |entries| == 0 then [] else [entries[0].0 + " " + entries[0].1] + ParameterLines(entries[1..])
  }

  /** The patch `parameter` asks for. */
  function ParameterPatch(o: ParameterOptions): Patch
  {
    Patch(o.clear == Some(true), o.replaceFile, if o.append.Some? then Some(ParameterLines(o.append.value)) else None)
  }

  /** `processParameters` as written: clearing `defaults.parm` is guarded by the existence of `hwdef.dat`. */
  function PatchParametersAsWritten(d: Disk, buildLocation: string, board: Board, o: ParameterOptions): Result<Disk>
  {
    PatchGuarded(d, ParamDefaultsFile(buildLocation, board), HwDefFile(buildLocation, board), ParameterPatch(o))
  }

  /** `processParameters` with the deletion guarded by `defaults.parm` itself, as for the other two files. */
  function PatchParameters(d: Disk, buildLocation: string, board: Board, o: ParameterOptions): Result<Disk>
  {
    PatchFile(d, ParamDefaultsFile(buildLocation, board), ParameterPatch(o))
  }

  /**
   * As written, a board whose `hwdef.dat` exists but that has no
   * `defaults.parm` fails on `clear: true`, which the corrected patch turns
   * into an empty parameter file.
   */
  lemma ClearMissingParametersFails(buildLocation: string, board: Board)
    ensures var d := Disk(map[HwDefFile(buildLocation, board) := ""], {});
      var o := ParameterOptions(Some(true), None, Some([]));
      PatchParametersAsWritten(d, buildLocation, board, o) == Err(NoEntry("unlink", ParamDefaultsFile(buildLocation, board))) &&
      PatchParameters(d, buildLocation, board, o).Ok?
  {
    PatchedFilesApart(buildLocation, board, "");
  }

  /** As written, without `hwdef.dat` a `clear: true` keeps the old `defaults.parm`; the corrected patch deletes it. */
  lemma ClearWithoutHwDefKeepsParameters(buildLocation: string, board: Board, old_: string)
    ensures var d := Disk(map[ParamDefaultsFile(buildLocation, board) := old_], {});
      var o := ParameterOptions(Some(true), None, None);
      PatchParametersAsWritten(d, buildLocation, board, o) == Ok(d) &&
      PatchParameters(d, buildLocation, board, o).Ok? &&
      ParamDefaultsFile(buildLocation, board) !in PatchParameters(d, buildLocation, board, o).value.files
  {
    PatchedFilesApart(buildLocation, board, "");
  }

  /**
   * With the corrected guard, `clear: true` with appended parameters leaves
   * exactly those parameter lines, after a leading empty line, whatever the
   * disk held before.
   */
  lemma ClearedParametersHoldAppended(d: Disk, buildLocation: string, board: Board, entries: seq<(string, string)>)
    requires Valid(d) && ParamDefaultsFile(buildLocation, board) !in d.dirs
    ensures var r := PatchParameters(d, buildLocation, board, ParameterOptions(Some(true), None, Some(entries)));
      r.Ok? && ParamDefaultsFile(buildLocation, board) in r.value.files &&
      r.value.files[ParamDefaultsFile(buildLocation, board)] == "\n" + Lines(ParameterLines(entries))
  {
    PatchFileEffect(d, ParamDefaultsFile(buildLocation, board), ParameterPatch(ParameterOptions(Some(true), None, Some(entries))));
  }

  // ---------------------------------------------------------------------------
  // SCR_ENABLED
  // ---------------------------------------------------------------------------

  /**
   * What `processLUA` does to the parameters: with `lua` present and
   * scripting not switched off, `SCR_ENABLED` is set to `1` in `append`,
   * creating `parameter` and `append` when missing.
   */
  function WithScriptingParameter(b: Build): (r: Build)
    ensures r.(parameter := b.parameter) == b
    ensures b.lua.Some? && b.lua.value.enableScripting != Some(false) ==>
      r.parameter.Some? && r.parameter.value.append.Some? &&
      Lookup(r.parameter.value.append.value, "SCR_ENABLED") == Some("1")
    ensures !(b.lua.Some? && b.lua.value.enableScripting != Some(false)) ==> r == b
  {
    if b.lua.Some? && b.lua.value.enableScripting != Some(false) then
      var p := if b.parameter.Some? then b.parameter.value else ParameterOptions(None, None, None);
      var entries := if p.append.Some? then p.append.value else [];
      SetEntryLookup(entries, "SCR_ENABLED", "1", "");
      b.(parameter := Some(p.(append := Some(SetEntry(entries, "SCR_ENABLED", "1")))))
    else b
  }
}
