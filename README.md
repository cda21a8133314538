# ardupilot-builder-lib, modelled in Dafny

This project models the core of `ardupilot-builder-lib`. The library builds ArduPilot firmware for several boards from one description per build. A `BoardBuilder` does one build:

- It derives where the repository lives and where the board is built.
- It patches the board's `hwdef.dat`, `defaults.parm` and Lua `bindings.desc`.
- It assembles the Lua scripts to bundle with the firmware and can check them with luacheck.
- It runs waf in a `bash -e` shell.

A `MultiBuilder` drives several builders. It clones each distinct repository once and builds every board; a failed build does not stop the others. It then reports which builds succeeded and which failed. `Process` wraps the shell, and `BuildArgumentsFromArgs` reads the command-line options.

The modules follow the program:

| module | file | models |
|---|---|---|
| `Wrappers` | wrappers.dfy | `Option`, `Result`, and `Promise` (`Pending` is a promise that never settles) |
| `JsText` | js.dfy | the JavaScript built-ins the code relies on: `split`, `join`, `includes`, `trim`, `parseInt`, number formatting |
| `ShellProcess` | process.dfy | `Process`: the shell's writes, its `lastWrite`, and the events it answers with |
| `Utility` | utility.dfy | `removeSpecialCharacters`, and the revision id `getGitSha` extracts |
| `Targets` | target.dfy | the vehicle targets and their default binaries |
| `BuildConfig` | config.dfy | the build description (`Build`, `Board`, `GitRepo`, the patch options, `LuaFile`) |
| `BuildArguments` | buildarguments.dfy | the parsing in `BuildArgumentsFromArgs` |
| `FileSystem` | files.dfy | the disk as a map from path to text plus a set of directories; `FileStore` is the process-wide file system, one `fs` call per method |
| `BoardLocations` | locations.dfy | the repository and build locations, `name`, `repoName`, `cloneRepoCommand` and the patched files' paths |
| `ConfigPatch` | patch.dfy | the clear, replace and append policy of the three patch stages, and the `SCR_ENABLED` parameter |
| `LuaCheck` | luacheck.dfy | `validateLUASyntax`: folding luacheck's report into a map of problems by line, and the listing on failure |
| `LuaScripts` | luascript.dfy | `processLUA`: output names, the `--- <label>` fragments, the helper functions and the build date |
| `WafBuild` | waf.dfy | `runBuild`: the configure and build flags, the command order, and how the shell's close settles the build |
| `BoardBuilding` | boardbuilder.dfy | the `BoardBuilder` class and the stages of `build` |
| `MultiBuilding` | multibuilder.dfy | the `MultiBuilder` class: event relaying, one download per clone command, the builds, and the summary |

External effects become inputs:

- **Shell output.** A shell's output is a sequence of data chunks and close events, consumed at the points where the code waits for them.
- **Outside steps.** Fetching, copying and resetting the repository, and the final steps (copying binaries, `uploader.py`, `mavproxy.py`), are represented only by how they end. They are fields of `BoardBuilding.World`.
- **Clock and revision id.** The build date and the revision id are parameters.
- **Working directory.** `process.cwd()` is the parameter `base`.

The code and its description differ in one place, and the model follows the code. The lint step keeps a single map of problems by line number, not separate maps for errors and warnings.

## Model

| member | source | states |
|---|---|---|
| JsText.Split | types/buildArguments.ts:49 | `split` on one character never yields an empty array, no piece holds the separator, and joining the pieces with the separator gives back the text |
| JsText.SplitNoSeparator | boardBuilder.ts:387 | text without the separator splits into itself alone |
| JsText.SplitAfterPiece | boardBuilder.ts:387 | a separator-free piece followed by the separator splits off as the first piece |
| JsText.SplitJoin | types/buildArguments.ts:49 | splitting a joined list gives the list back when no piece holds the separator |
| JsText.SplitAppend | boardBuilder.ts:386 | splitting two texts glued at a separator gives the pieces of the first followed by the pieces of the second |
| JsText.CutAtSeparator | boardBuilder.ts:387 | a text cuts in only one way at the first separator when the part before it holds none |
| JsText.ContainsInfix | process.ts:104 | `includes` finds a string wherever it sits in the text |
| JsText.TrimStart | utility.ts:29 | the result is a suffix of the input, only white space was dropped, and it does not start with white space |
| JsText.TrimEnd | utility.ts:29 | the result is a prefix of the input, only white space was dropped, and it does not end with white space |
| JsText.TrimStartPadded | utility.ts:29 | leading white space before a word that does not start with white space is removed exactly |
| JsText.TrimEndPadded | utility.ts:29 | trailing white space after a word that does not end with white space is removed exactly |
| JsText.TrimPadded | utility.ts:29 | `trim` removes exactly the white space around a word that has none at its ends |
| JsText.DigitPrefix | types/buildArguments.ts:86 | the digits `parseInt` reads: the longest prefix made of digits in the radix |
| JsText.NatToStringDigits | boardBuilder.ts:341 | `${n}` of a natural is a nonempty string of decimal digits, with no leading zero unless it is `0`, whose value is `n` |
| JsText.ParseIntOfIntToString | types/buildArguments.ts:86 | `parseInt` reads back every integer that `${n}` renders, negative ones included |
| JsText.ParseAllDigits | types/buildArguments.ts:86 | a nonempty string of digits is read whole |
| JsText.DecimalMagnitude | types/buildArguments.ts:86 | a nonempty string of decimal digits is read as decimal, never as hexadecimal (no `0x` can start it) |
| JsText.ParseUnsigned | types/buildArguments.ts:86 | a string of decimal digits reads back as its value |
| JsText.ParseNegative | types/buildArguments.ts:86 | a minus sign followed by decimal digits reads back as minus their value |
| JsText.NatToStringInjective | boardBuilder.ts:390 | distinct naturals render to distinct strings |
| ShellProcess.FirstCompletion | process.ts:103-108 | the position found holds an event that settles `executeWait` (a close, or a chunk holding `***PROCESS_DONE***`), and no earlier event does; no position means no event does |
| ShellProcess.FirstClose | process.ts:36-38 | the position found holds a close event and no earlier event is a close; no position means there is no close |
| ShellProcess.FirstCompletionAt | process.ts:103-108 | a settling event preceded only by non-settling events is the first completion |
| ShellProcess.FirstCloseAt | process.ts:36-38 | a close preceded only by output is the first close |
| ShellProcess.WaitLineCarriesSentinel | process.ts:102 | without `exitAfter`, the line `executeWait` writes carries the sentinel for the shell to echo |
| ShellProcess.WaitLineInjective | process.ts:102 | the written line determines the command |
| ShellProcess.Spawn | process.ts:21-49 | a new process has seen no output and no close; a truthy start directory makes `cd <dir>` the `lastWrite` and, when a child exists, the one line written; otherwise nothing is written and `lastWrite` is empty |
| ShellProcess.ExecuteWaitSettles | process.ts:99-114 | a failed write resolves false and lets no output through; otherwise exactly one line is written, the listeners see the output up to and including the first close or sentinel chunk and the promise resolves true exactly when such an event exists, a close seen is recorded with the command, output holding neither goes by and leaves the promise pending, and no output is lost or reordered |
| ShellProcess.CloseWaitKeepsOutput | process.ts:36-38 | waiting on the close listener writes nothing, loses and reorders no output, and answers at once when the close was already seen |
| ShellProcess.CloseWaitAnswers | process.ts:36-38 | with no close seen earlier, the wait answers exactly when a close is pending, with the first close's code and the `lastWrite` of that moment, after letting through only output before it |
| ShellProcess.ExecuteWaitStepAt | process.ts:99-114 | the whole state `executeWait` leaves when the event at a given position is the first to settle it |
| ShellProcess.CloseWaitStepAt | process.ts:36-38 | the whole state the close wait leaves when the event at a given position is the first close |
| ShellProcess.WaitLines | process.ts:102 | one written line per awaited command, in order |
| ShellProcess.RunCommandsAllFinish | process.ts:99-114 | a shell that reports each command as finished and has not closed runs them all: each command's line is written in order, and each report is used up by exactly one command |
| ShellProcess.SentinelStep | process.ts:103-106 | a first event holding the sentinel settles the first command's wait and is used up by it |
| ShellProcess.RunCommandsAfterClose | process.ts:77-80 | once the child has closed, every further command fails to write, and the output and the recorded close stay as they were |
| ShellProcess.RunCommandsCloseDuring | process.ts:99-114 | a shell that finishes the first `i` commands and then closes (as `bash -e` does when a command fails) records the close against command `i`; the lines of the commands up to it are written and those after it are not |
| ShellProcess.FinishedBeforeClose | process.ts:99-114 | the commands that each get a finished report leave a writable shell with just those lines written |
| ShellProcess.ClosedRun | process.ts:99-114 | a shell whose next event is a close settles the first command, records the close against it, and writes nothing more |
| ShellProcess.CloseStep | process.ts:108 | a close as the first event settles the first command's wait, closes stdin and is recorded against that command |
| ShellProcess.WaitLinesAppend | process.ts:102 | the lines for two lists of commands are the lines for the first followed by the lines for the second |
| ShellProcess.RunCommandsSplit | process.ts:99-114 | awaiting a list of commands is awaiting its first `i` and then the rest, when the first `i` all settle |
| ShellProcess.Process.constructor | process.ts:21-49 | the new wrapper is in the state `Spawn` describes |
| ShellProcess.Process.Send | process.ts:77-80 | a write succeeds, and is recorded, exactly while a child exists and its stdin is open |
| ShellProcess.Process.Execute | process.ts:88-91 | `lastWrite` becomes the command, then the line with `;exit` when asked is sent |
| ShellProcess.Process.Exit | process.ts:120-122 | `lastWrite` becomes `exit`, and `exit\n` is written exactly when the process is writable |
| ShellProcess.Process.ExecuteWait | process.ts:99-114 | the listeners are fed one event at a time until the first settling event; the new state and the promise are those that `ExecuteWaitSettles` describes |
| ShellProcess.Process.WaitForClose | process.ts:36-38 | the listeners are fed one event at a time until the first close; the new state and the answer are those that `CloseWaitAnswers` describes |
| ShellProcess.Process.RunCommandList | boardBuilder.ts:527-532 | `await executeWait(c)` for each command in turn, stopping at the first wait that never settles |
| BuildArguments.ParseParameters | types/buildArguments.ts:45-55 | the loop leaves the record that `PairAll` gives after reading every token, in order |
| BuildArguments.PairsToMapUnpaired | types/buildArguments.ts:49-53 | a trailing unpaired key adds nothing to the record |
| BuildArguments.PairsToMapSnoc | types/buildArguments.ts:51 | a trailing pair overrides whatever value its key had |
| BuildArguments.PairAllIsPairs | types/buildArguments.ts:45-55 | with no empty token in a key position (values may be empty), the loop pairs the tokens up from the front: a trailing unpaired key is dropped (and left pending), and a later duplicate key overwrites the earlier value |
| BuildArguments.PairLast | types/buildArguments.ts:51-52 | any token, the empty one included, after a pending non-empty key completes the pair and clears the pending key |
| BuildArguments.UnpairedLast | types/buildArguments.ts:50 | a token after a completed pair waits as the next key |
| BuildArguments.ParametersOfJoined | types/buildArguments.ts:45-55 | `--parameters=k1,v1,k2,v2...` with comma-free tokens and non-empty keys parses to exactly those pairs, empty values included |
| BuildArguments.PairFromSnoc | types/buildArguments.ts:49-53 | running the loop over one more token is one more step after the tokens before it |
| BuildArguments.PairAllFromFront | types/buildArguments.ts:49-53 | the loop's state after a token list is the same whether it is read as the last step after the rest or as a run from the first token |
| BuildArguments.PairFromIdle | types/buildArguments.ts:49-53 | from a state with no pending key, or an empty one, the loop adds exactly the reference pairs of the remaining tokens to the record it has |
| BuildArguments.EmptyKeyIsReplaced | types/buildArguments.ts:45-55 | for every token list the record is the reference pairing in which an empty token where a key is expected is falsy and skipped, the next token becoming the key; a key takes the token after it even when that is empty, and a trailing key adds nothing |
| BuildArguments.HwDefArgument | types/buildArguments.ts:59 | `hwDef` is absent exactly when the argument is, and otherwise its pieces join back to the argument |
| BuildArguments.UploadToBoardArgument | types/buildArguments.ts:61-74 | the boolean form wins; otherwise an empty or missing value gives `undefined`, and any other value gives the object form |
| BuildArguments.OpenMAVProxyArgument | types/buildArguments.ts:76-90 | the boolean form wins; otherwise an empty or missing value gives `undefined`, and any other value gives the object form |
| BuildArguments.UploadToBoardFields | types/buildArguments.ts:61-74 | the comma form reads its fields back: the destination, the binary when given, and the remaining fields as extra parameters when there are any |
| BuildArguments.JoinedNotEmpty | types/buildArguments.ts:66 | a comma-joined list starting with a non-empty field is truthy |
| BuildArguments.OpenMAVProxyOfFields | types/buildArguments.ts:76-90 | the comma form gives the master, the second field read by `parseInt`, and the remaining fields as extra parameters |
| BuildArguments.IntToStringNoComma | types/buildArguments.ts:86 | a rendered integer holds no comma, so it stays one field |
| BuildArguments.OpenMAVProxyFields | types/buildArguments.ts:76-90 | `master,<baud>,extra...` reads back the master, the baud rate as a number, and the extras |
| BuildArguments.BuildArgumentsFromArgs | types/buildArguments.ts:25-91 | the boolean arguments are passed through, and each other member is read from its raw value as the functions above describe |
| Utility.StripSpecials | utility.ts:43-45 | the first `replace` deletes every character of the class `/ \ ? % * : \| " < >`: no such character is left, and the result is shorter than the input by exactly the number of them |
| Utility.SpacesToUnderscores | utility.ts:44 | the second `replace` keeps the length and turns each space into `_`, leaving every other character where it was |
| Utility.RemoveSpecialCharacters | utility.ts:43-45 | the sanitised name holds no special character and no space, and is shorter than the input by the number of special characters |
| Utility.StripSpecialsAppend | utility.ts:44 | deleting special characters distributes over concatenation |
| Utility.SpacesToUnderscoresAppend | utility.ts:44 | replacing spaces distributes over concatenation |
| Utility.RemoveSpecialCharactersAppend | utility.ts:43-45 | sanitising works character by character: the sanitised concatenation is the concatenation of the sanitised parts |
| Utility.RemoveSpecialCharactersOfChar | utility.ts:43-45 | one character is deleted if special, becomes `_` if a space, and is kept otherwise |
| Utility.StripSpecialsClean | utility.ts:44 | a string with no special character is left unchanged by the first `replace` |
| Utility.RemoveSpecialCharactersClean | utility.ts:43-45 | a name with no special character and no space is left unchanged |
| Utility.RemoveSpecialCharactersIdempotent | utility.ts:43-45 | sanitising an already sanitised name changes nothing |
| Utility.GitShaOfRevParse | utility.ts:29 | for a hexadecimal revision id of six or more digits followed by a newline, trimming and taking six characters gives its first six digits |
| Utility.GitShaOutcome | utility.ts:25-36 | `getGitSha` stays pending exactly when the shell neither prints nor closes; it resolves exactly when the first event is output, with the short id of that chunk; it rejects otherwise, with `Exited with code <code>` |
| Utility.GitShaOutcomeOfRevParse | utility.ts:25-36 | when `git rev-parse HEAD` prints a revision id, `getGitSha` resolves with its first six digits, whatever follows |
| Targets.DefaultBinaries | types/target.ts:13-31 | the `.elf`, `.bin` and `.apj` names of a target all share that target's stem |
| Targets.StemInjective | types/target.ts:22-30 | no two targets share a stem |
| Targets.DefaultBinariesInjective | types/target.ts:13-31 | distinct targets produce distinct binary names |
| Targets.AllTargetsComplete | types/target.ts:2-11 | the `targets` array holds every enum member, has seven entries, and holds none twice |
| Targets.TargetNameInjective | types/target.ts:2-10 | distinct targets have distinct `--target` strings |
| BuildConfig.Keys | boardBuilder.ts:477 | the keys `for (const param in params.append)` visits: one per entry, in insertion order |
| BuildConfig.SetEntry | boardBuilder.ts:300 | `record[k] = v` keeps the key order when `k` is already a key, and otherwise adds `k` as the last key |
| BuildConfig.LookupIn | boardBuilder.ts:298-300 | a record holds a value under `k` exactly when `k` is one of its keys |
| BuildConfig.SetEntryLookup | boardBuilder.ts:300 | after `record[k] = v` the record holds `v` under `k`, and the same value as before under every other key |
| BuildConfig.SetEntryDistinct | boardBuilder.ts:300 | assigning an entry never makes a key occur twice |
| FileSystem.ReadFile | boardBuilder.ts:359 | `fs.readFileSync` succeeds exactly on an existing file and returns its contents; a missing file throws `ENOENT ... open` |
| FileSystem.Unlink | boardBuilder.ts:269 | `fs.unlinkSync` succeeds exactly on an existing file; otherwise it throws `ENOENT ... unlink` |
| FileSystem.CopyFile | boardBuilder.ts:276 | `fs.copyFileSync` succeeds exactly when the source file exists; otherwise it throws `ENOENT ... copyfile` naming both paths |
| FileSystem.RemoveTree | boardBuilder.ts:306 | `fs.rmSync(p, { recursive: true })` succeeds exactly when `p` exists; otherwise it throws `ENOENT ... lstat` |
| FileSystem.MakeDirectory | boardBuilder.ts:312 | `fs.mkdirSync` succeeds exactly when nothing exists at the path; otherwise it throws `EEXIST ... mkdir` |
| FileSystem.ReadAfterAppend | boardBuilder.ts:281-284 | appending extends that one file by exactly the data, creating it when missing, and leaves every other file as it was |
| FileSystem.ReadAfterCopy | boardBuilder.ts:276 | after a copy the destination reads as the source did, and no other file changes |
| FileSystem.ReadAfterUnlink | boardBuilder.ts:269 | after an unlink the file reads as missing, and no other file changes |
| FileSystem.ReadAfterCreate | boardBuilder.ts:319 | opening a write stream leaves the file empty, and no other file changes |
| FileSystem.RemoveTreeClears | boardBuilder.ts:306 | a recursive remove leaves nothing at or below its root, and everything outside it in place |
| FileSystem.MakeDirectoryExists | boardBuilder.ts:312 | a made directory exists afterwards, and every file reads as before |
| FileSystem.CallsKeepValid | boardBuilder.ts:269-319 | no file call makes a path both a file and a directory |
| FileSystem.FileStore.constructor | boardBuilder.ts:4 | the process-wide file system starts as the given disk |
| FileSystem.FileStore.PathExists | boardBuilder.ts:269 | `fs.existsSync` answers whether a file or directory is at the path |
| FileSystem.FileStore.Read | boardBuilder.ts:359 | reads as `ReadFile` on the current disk, without changing it |
| FileSystem.FileStore.Remove | boardBuilder.ts:269 | an unlink that succeeds updates the disk; one that throws returns the error and leaves the disk as it was |
| FileSystem.FileStore.Copy | boardBuilder.ts:276 | a copy that succeeds updates the disk; one that throws returns the error and leaves the disk as it was |
| FileSystem.FileStore.Append | boardBuilder.ts:281-284 | the disk becomes the old disk with the data appended to the file |
| FileSystem.FileStore.Create | boardBuilder.ts:319 | the disk becomes the old disk with the file emptied or created |
| FileSystem.FileStore.RemoveAll | boardBuilder.ts:306 | a recursive remove that succeeds updates the disk; one that throws returns the error and leaves the disk as it was |
| FileSystem.FileStore.MakeDir | boardBuilder.ts:312 | a `mkdir` that succeeds updates the disk; one that throws returns the error and leaves the disk as it was |
| BoardLocations.WithDefaultRepo | boardBuilder.ts:57-64 | after the constructor's default every build names a remote or a local checkout; a build that named one is left as it was, and any other gets the local `./ardupilot` alone |
| BoardLocations.LocalTagClean | boardBuilder.ts:90 | the `local_` tag holds no character the name cleaning changes |
| BoardLocations.LocalNameNotSuffix | boardBuilder.ts:90 | a local checkout's location can never end in its own `local_` name behind a prefix |
| BoardLocations.BuildLocationIsRepoIff | boardBuilder.ts:66-86 | the build runs in the repository itself exactly when `useBuildFolder` is `false`; otherwise its folder differs from the repository, so copying the repository there (which first deletes the folder) never deletes the repository |
| BoardLocations.WithRemote | boardBuilder.ts:98-102 | reading `cloneRepoCommand` gives a repository without a remote the ArduPilot remote (creating `gitRepo` when missing) and keeps everything else |
| BoardLocations.WithRemoteIdempotent | boardBuilder.ts:98-102 | reading `cloneRepoCommand` twice changes the build only the first time |
| BoardLocations.CloneCommandInjective | boardBuilder.ts:103 | two clone commands are equal only for the same branch, URL and location when branches and URLs hold no space, so de-duplicating commands de-duplicates clones |
| BoardLocations.CloneCommandHead | boardBuilder.ts:103 | the clone command is its fixed head followed by the branch, the URL and the location |
| BoardLocations.PatchedFilesApart | boardBuilder.ts:106-143 | the hwdef file, the parameter defaults and the bindings file are three different files, and no script written into the scripting directory overwrites the hwdef or the defaults |
| ConfigPatch.AppendLinesNext | boardBuilder.ts:447-450 | appending line `i` continues the same run of appends |
| ConfigPatch.ApplyPatch | boardBuilder.ts:425-452 | the calls one at a time: the guarded deletion, the copy, the leading newline and each line; the method succeeds exactly when `PatchGuarded` does and leaves its disk, and a call that throws ends the patch with that error, leaving only a deletion that already ran |
| ConfigPatch.AppendLinesEffect | boardBuilder.ts:447-450 | appending the lines extends the target by each line followed by a newline, keeps the directories, and changes no other file |
| ConfigPatch.DeleteStep | boardBuilder.ts:432-436 | with the deletion guarded by the target itself, deleting never throws; it leaves no target when asked for and changes no other file |
| ConfigPatch.PatchFileEffect | boardBuilder.ts:425-452 | a patch guarded by its own target fails exactly for a missing (or self-deleted) replacement; on success a deleted target without lines is gone, otherwise the target holds its base text, then a newline and the appended lines when there are any, and no other file changes |
| ConfigPatch.CopyEffect | boardBuilder.ts:441 | after `copyFileSync` the target holds the source's text, and no other file or directory changes |
| ConfigPatch.AppendAfterNewline | boardBuilder.ts:445-450 | the leading newline and then the lines are appended to the target, and no other file changes |
| ConfigPatch.LinesSplit | boardBuilder.ts:449 | newline-free lines each written with a newline split back into those lines and an empty last line |
| ConfigPatch.AppendedLines | boardBuilder.ts:445-450 | the lines of a patched file are its base lines, then the appended lines, then an empty last line |
| ConfigPatch.ParameterLines | boardBuilder.ts:477-481 | one line per parameter entry, in insertion order: its name, a space, its value |
| ConfigPatch.ClearMissingParametersFails | boardBuilder.ts:463-466 | as written, a board whose `hwdef.dat` exists but that has no `defaults.parm` throws on `clear: true`, where the corrected patch succeeds |
| ConfigPatch.ClearWithoutHwDefKeepsParameters | boardBuilder.ts:463-466 | as written, without `hwdef.dat` a `clear: true` keeps the old `defaults.parm`; the corrected patch deletes it |
| ConfigPatch.ClearedParametersHoldAppended | boardBuilder.ts:457-483 | with the corrected guard, `clear: true` with appended parameters leaves exactly a leading empty line and those parameter lines, whatever the disk held |
| ConfigPatch.WithScriptingParameter | boardBuilder.ts:295-301 | with `lua` present and scripting not switched off, `SCR_ENABLED` is set to `1` in `parameter.append` (creating `parameter` and `append` when missing); nothing but `parameter` ever changes, and otherwise nothing changes |
| LuaCheck.ReportedLines | boardBuilder.ts:386 | only lines that name the file followed by a colon are kept, and no more lines than the chunk had |
| LuaCheck.Reports | boardBuilder.ts:386-390 | one report per kept line, in order |
| LuaCheck.ReportTextNotEmpty | boardBuilder.ts:390 | every report's text is non-empty, so a previous entry always counts as present when the next problem for that line arrives |
| LuaCheck.RecordAllCollects | boardBuilder.ts:391-392 | starting from an empty map, a line number is filed exactly when some report names it, and it then holds all of that line's problems joined by `, `, in the order they were reported |
| LuaCheck.ReportsNotEmpty | boardBuilder.ts:386-390 | no report of a chunk has empty text |
| LuaCheck.RecordChunkCollects | boardBuilder.ts:386-393 | for one chunk of output on a fresh map, a line number is filed exactly when a kept line names it, with all its problems in order |
| LuaCheck.SplitLuacheckLine | boardBuilder.ts:387 | a report line `<path>:<line>:<column>: <message>` whose last three fields hold no colon splits into the pieces of the path followed by those three fields |
| LuaCheck.SplitThreePieces | boardBuilder.ts:387 | three colon-free pieces joined by colons split back into those pieces |
| LuaCheck.NoColonInNumber | boardBuilder.ts:388 | the decimal digits of a line number hold no colon |
| LuaCheck.ReportOfLuacheckLine | boardBuilder.ts:387-390 | such a report line is filed under its line number with the text `<line>:<column> <message>` |
| LuaCheck.Listing | boardBuilder.ts:404-413 | one message per script line, in order, each numbered from the starting number |
| LuaCheck.ListingFlagsErrors | boardBuilder.ts:404-413 | line `j` of the listing is numbered `j + 1`, is an error exactly when that line number was filed, and shows the line followed by ` >>ERROR>> ` and its problems when it was |
| LuaCheck.LintOutcome | boardBuilder.ts:397-416 | nothing settles before a close; close code 0 resolves; any other code (or a kill) rejects with `Build process failed with code <code> running <luacheck command>` and lists every line of the script; only a failure lists anything |
| LuaCheck.LintShellNoClose | process.ts:36-114 | when the output never closes, the close listener never answers |
| LuaCheck.LintShell | process.ts:36-114 | whatever settles the command, the close listener answers with the first close in the output and the luacheck command as the last write, the listeners having seen the output through that close and nothing after it |
| LuaCheck.SentinelBeforeClose | process.ts:99-114 | when the command finishes before the shell closes, the close listener still sees the output through the first close |
| LuaCheck.CloseSettlesWait | process.ts:99-114 | when the shell closes before the command finishes, the close listener answers with that close |
| LuaCheck.FirstCompletionNoLater | process.ts:99-114 | the first event that settles a wait comes no later than any other such event |
| LuaCheck.FirstCloseNoLater | process.ts:36-38 | the first close comes no later than any other close |
| LuaCheck.CloseLater | process.ts:36-38 | once the output up to a point before the first close has gone by, the close listener answers with that close and has seen the output through it |
| LuaCheck.FirstCloseOfSuffix | process.ts:36-38 | dropping a close-free prefix moves the first close back by the prefix's length |
| LuaCheck.RecordSeen | boardBuilder.ts:384-395 | the data listener's map after every chunk of output is the ordered fold of the chunks' reports |
| LuaCheck.ListScript | boardBuilder.ts:404-413 | the listing loop builds exactly the listing numbered from one |
| LuaCheck.ValidateLuaSyntax | boardBuilder.ts:377-420 | `validateLUASyntax` on a shell whose output is given settles and lists exactly as `LintOutcome` says |
| LuaScripts.OutputNamesApart | boardBuilder.ts:317 | two scripts with no output name whose sources are a list share an output file exactly when they have the same index |
| LuaScripts.OutputLocationInside | boardBuilder.ts:318 | every script is written inside the scripting directory |
| LuaScripts.FramesTextAppend | boardBuilder.ts:326-334 | writing two runs of fragments one after the other gives the text of the first followed by the text of the second |
| LuaScripts.FramesTextLines | boardBuilder.ts:326-334 | a script reads back fragment by fragment: each `--- <label>` header line, followed by exactly the lines of that fragment's data, then the final line break |
| LuaScripts.FrameSplit | boardBuilder.ts:328-330 | one fragment in front of more text splits into its header line, its data's lines and the lines of the text that follows |
| LuaScripts.HelperFrames | boardBuilder.ts:351-355 | one fragment per helper function, in order, labelled `Helper <i>` |
| LuaScripts.PaddedReadsBack | boardBuilder.ts:341 | a number below 100 padded to two digits is two characters long, holds no `/`, and reads back as that number |
| LuaScripts.TwoDigitsReadBack | boardBuilder.ts:341 | an unpadded number from 10 to 99 is two digits long, holds no `/`, and reads back as itself |
| LuaScripts.ZeroPaddedReadsBack | boardBuilder.ts:341 | a digit padded with `0` is two characters long, holds no `/`, and reads back as that digit |
| LuaScripts.NoSlashInNumber | boardBuilder.ts:341 | a rendered number holds no `/` |
| LuaScripts.SplitThree | boardBuilder.ts:341 | three `/`-free pieces glued with `/` split back into those pieces |
| LuaScripts.BuildDateParts | boardBuilder.ts:341 | the build date splits at `/` into the padded day, the padded month and the year; the day and month are two characters each and read back as the day and the 1-based month |
| LuaScripts.BuildDateFields | boardBuilder.ts:339-342 | for any calendar date, `dd/mm/yyyy` splits into exactly three fields: a two-digit day, a two-digit 1-based month, and the year, each reading back as its number |
| LuaScripts.YearReadsBack | boardBuilder.ts:341 | the rendered year reads back as the year |
| LuaScripts.Unresolved | boardBuilder.ts:345 | a sha lookup that is not resolved passes its rejection on, or stays pending |
| LuaScripts.HelperList | boardBuilder.ts:336-348 | without `injectMethods` the helpers are left as given; with it the given helpers stay first, then `build_date` with the build date when asked for, then `application_sha` exactly when asked for and the sha is known; the step fails exactly when the sha is asked for and not resolved, and it fails as the lookup did |
| LuaScripts.InjectFramesEffect | boardBuilder.ts:350-355 | the fragments follow what the script held, and no other file or directory changes |
| LuaScripts.ReadSource | boardBuilder.ts:358-360 | a source entry that is not a path throws; a path reads as `readFileSync` does |
| LuaScripts.FileFrames | boardBuilder.ts:358-360 | one fragment per source, in order: `File <path>` over that file's contents |
| LuaScripts.SourcesAgree | boardBuilder.ts:358-360 | two disks that agree everywhere except the script read every other source alike |
| LuaScripts.InjectSourcesStep | boardBuilder.ts:359 | when the first source can be read, its fragment is appended to the script and the rest follow |
| LuaScripts.ReadableCons | boardBuilder.ts:358-360 | a source list can be read exactly when its first entry and the rest can |
| LuaScripts.InjectSourcesSucceeds | boardBuilder.ts:358-360 | when no source is the script itself, appending the sources succeeds exactly when every source can be read |
| LuaScripts.InjectSourcesContent | boardBuilder.ts:358-360 | when every source can be read and none is the script itself, the script gains exactly the source fragments, in order |
| LuaScripts.InjectSourcesFirstError | boardBuilder.ts:358-360 | when appending the sources fails, the error is that of the first source that cannot be read, every earlier one being readable |
| LuaScripts.ScriptSteps | boardBuilder.ts:315-373 | once the helpers are complete, one iteration leaves the disk that appending the sources after the helpers leaves, and fails with the first read error |
| LuaScripts.ScriptContent | boardBuilder.ts:315-373 | a script that completes holds exactly its helper fragments followed by its source fragments, every source having been read |
| LuaScripts.ScriptMissingSource | boardBuilder.ts:358-360 | once its helpers are complete, a script with a source that cannot be read fails |
| LuaScripts.WrittenHelpers | boardBuilder.ts:319-355 | creating the script and writing the helpers leaves the script holding exactly their fragments, and every other file as it was |
| LuaScripts.StepKeepsOutside | boardBuilder.ts:315-373 | each iteration writes inside the scripting directory and nowhere else, and creates no directory |
| LuaScripts.RunScriptsFrame | boardBuilder.ts:315-373 | the loop keeps the number of scripts and every earlier one, keeps every earlier message, and, when each iteration does, touches no file outside the scripting directory |
| LuaScripts.ScriptFrame | boardBuilder.ts:315-373 | a single script changes no file but its own output, and creates no directory |
| LuaScripts.InjectSourcesOnly | boardBuilder.ts:358-360 | appending the sources changes no file but the script, whatever the sources are |
| LuaScripts.ProcessLuaEffect | boardBuilder.ts:292-374 | the stage changes the build description only in its parameters, which gain `SCR_ENABLED` as scripting asks, and in its list of scripts; without `lua` nothing happens; with Lua left out the stage succeeds exactly when the scripting directory exists, and nothing under it is left afterwards; no file outside the scripting directory changes |
| LuaScripts.InjectFramesNext | boardBuilder.ts:352-354 | appending fragment `i` continues the same run of appends |
| LuaScripts.InjectSourcesNext | boardBuilder.ts:358-360 | reading source `j` either stops the run with its error or appends its fragment and continues |
| LuaScripts.WriteScript | boardBuilder.ts:315-373 | one iteration on the shared file system, one call at a time, leaves the outcome, the script's record, the disk and the messages that `ProcessScript` describes |
| LuaScripts.WriteScripts | boardBuilder.ts:315 | the scripts in order, stopping at the first that does not complete, leave what `RunScripts` describes |
| WafBuild.ConfigureFlags | boardBuilder.ts:518-522 | the flags start with `--board <board>` and `--target <target>`; `--static`, `--debug` and `--rsync-dest <dest>` are present exactly when their options ask for them; there is one flag per option that asks |
| WafBuild.FlagsApart | boardBuilder.ts:518-522 | the fixed flags differ from each other and from every `--board`, `--target` and `--rsync-dest` flag, whatever the board, target and destination are |
| WafBuild.BuildCommandsOrder | boardBuilder.ts:510-547 | the commands are awaited in this order: `./waf distclean` when asked, configure, the pre-build commands, the waf build, the post-build commands |
| WafBuild.AfterRunRepeatsFlags | boardBuilder.ts:517-535 | a run changes only the caller's extra argument arrays, and only when they exist: each gains the flags it was run with, so a second run repeats them |
| WafBuild.Settle | boardBuilder.ts:500-508 | the build stays pending until a close; it resolves exactly when the code is 0 |
| WafBuild.RunBuildAllFinish | boardBuilder.ts:488-552 | when the shell finishes every command and then closes, every command is written in order, then `exit`; the build passes exactly when the code is 0, and a failure is reported against `exit` |
| WafBuild.ExitThenClose | boardBuilder.ts:549 | writing `exit` to a shell whose next event is its close answers the close wait with that code and `exit` as the last write |
| WafBuild.RunBuildStopsAt | boardBuilder.ts:488-552 | when the shell closes after the first `n` commands finish, as `bash -e` does on a failure: the commands through `n` are written and no later one; the failure is reported against command `n`; code 0 at that point passes |
| WafBuild.RunBuildWithoutClose | boardBuilder.ts:500-508 | output without a close never settles the build |
| WafBuild.RunCommandsKeepOpen | process.ts:99-114 | without a close in the output, running commands leaves the shell open, with no close still to come |
| WafBuild.RunWaf | boardBuilder.ts:488-552 | `runBuild` on a shell of its own leaves the shell and outcome that `RunBuild` describes, and the caller's argument arrays as `AfterRun` describes |
| BoardBuilding.Says | boardBuilder.ts:620-662 | every message becomes one emitted message, in order |
| BoardBuilding.PatchStage | boardBuilder.ts:260-287 | without options the stage does nothing and passes; with options it passes exactly when the patch does and leaves the patched disk, and otherwise rejects with the error of the call that threw, leaving the disk as far as the patch got |
| BoardBuilding.BuildEventsSplit | boardBuilder.ts:620-662 | what a build emits follows whatever was emitted before it |
| BoardBuilding.RepositoryStagesFirst | boardBuilder.ts:625-627 | a fetch, copy or reset of the repository that does not complete ends the build with its outcome, before any file is touched and with the build description unchanged |
| BoardBuilding.BindingsStageFirst | boardBuilder.ts:630-631 | a failing bindings patch ends the build before the scripts are assembled, with the build description unchanged and no message |
| BoardBuilding.ParametersAfterLua | boardBuilder.ts:296-301 | the hwdef and parameter stages patch the build as the Lua stage leaves it: the parameters are those with `SCR_ENABLED` added as scripting asks, the hwdef is unchanged, and whenever Lua is used with scripting on, `SCR_ENABLED 1` is among the parameter lines written |
| BoardBuilding.ScriptingLine | boardBuilder.ts:477-481 | a parameter record holding `SCR_ENABLED: "1"` writes the line `SCR_ENABLED 1` |
| BoardBuilding.WafAfterModify | boardBuilder.ts:633-652 | once the files are patched, waf runs on the build as patched; the build completes exactly when the waf shell closes with code 0 and the asked-for final steps complete; it keeps the patched disk and messages and leaves the caller's waf argument arrays extended; a failing patch stage ends the build there |
| BoardBuilding.BuildCompletes | boardBuilder.ts:620-662 | a build only completes when every stage completes |
| BoardBuilding.EndingCompletes | boardBuilder.ts:655-660 | a settled build ends with exactly one `complete`, last, whose flag is whether it succeeded and which carries the reason exactly when it failed; an unsettled build emits no ending |
| BoardBuilding.BoardBuilder.constructor | boardBuilder.ts:53-87 | the default local repository is filled in when there is neither a remote nor a local one, and the repository and build locations are fixed from it; nothing is recorded or emitted yet |
| BoardBuilding.BoardBuilder.CloneRepoCommand | boardBuilder.ts:98-104 | the ArduPilot remote is installed when there is none, and the command clones that remote's branch into the repository location; a second reading changes nothing and gives the same command |
| BoardBuilding.BoardBuilder.Complete | boardBuilder.ts:179-183 | the outcome and reason are recorded and one `complete` is emitted, with the reason only on failure |
| BoardBuilding.BoardBuilder.ProcessLuaBindings | boardBuilder.ts:260-287 | the bindings file is patched as `PatchStage` describes |
| BoardBuilding.BoardBuilder.ProcessHwDef | boardBuilder.ts:425-452 | the hwdef file is patched as `PatchStage` describes |
| BoardBuilding.BoardBuilder.ProcessParameters | boardBuilder.ts:457-483 | the parameter file is patched as `PatchStage` describes, with its deletion guarded by the board's `hwdef.dat`, as the code is written |
| BoardBuilding.BoardBuilder.ProcessLUA | boardBuilder.ts:292-374 | the outcome, the build description, the disk and the messages are those `ProcessLua` describes |
| BoardBuilding.BoardBuilder.RunBuild | boardBuilder.ts:488-552 | the outcome is that of `RunBuild` on the waf shell's output, and the build description is left as the run leaves the caller's arrays |
| BoardBuilding.BoardBuilder.Build | boardBuilder.ts:620-662 | `begin`, the stages in order, and the ending: the outcome, build description, disk and emitted events are those `BuildSteps` and `BuildEvents` describe; a success records `true` and no reason, a failure records `false` and its reason, an unsettled build records nothing |
| BoardBuilding.BoardBuilder.Finish | boardBuilder.ts:655-660 | a settled outcome is recorded and emitted as `Ending` says, after `Build failed!` for a failure |
| BoardBuilding.BoardBuilder.Stages | boardBuilder.ts:624-652 | the stages leave the outcome, build description, disk and messages that `BuildSteps` describes |
| BoardBuilding.BoardBuilder.Modifications | boardBuilder.ts:630-633 | the bindings, Lua, hwdef and parameter stages leave what `Modify` describes |
| BoardBuilding.BoardBuilder.LaterModifications | boardBuilder.ts:631-633 | the Lua, hwdef and parameter stages leave what `AfterBindings` describes |
| BoardBuilding.BoardBuilder.PatchBoardFiles | boardBuilder.ts:632-633 | the hwdef stage and then, when it passes, the parameter stage (deletion guarded by `hwdef.dat`) leave what `BoardFiles` describes |
| BoardBuilding.ClearWithoutParameterFileRejects | boardBuilder.ts:463-466 | in the builder, `clear: true` on a board with a `hwdef.dat` and no `defaults.parm` rejects with the `unlink` error |
| BoardBuilding.ClearWithoutHwDefKeepsDisk | boardBuilder.ts:463-466 | in the builder, `clear: true` alone on a board without `hwdef.dat` succeeds and leaves the disk, old `defaults.parm` included, as it was |
| MultiBuilding.WarningArgumentsSwapped | multiBuilder.ts:158-160 | as written, a warning's first argument is its scope, not its message, so its arguments are not laid out as an `info` event's are |
| MultiBuilding.WarningLikeOtherChannels | multiBuilder.ts:140-169 | the corrected warning lays out its arguments as `info` and `error` do: the message first, then the scope |
| MultiBuilding.Relay | multiBuilder.ts:84-91 | every event passed on from a builder carries that builder as its scope |
| MultiBuilding.Relays | multiBuilder.ts:84-91 | a builder's events are passed on one for one, in order |
| MultiBuilding.RelayedCarryScope | multiBuilder.ts:84-151 | an event passed on from builder `i` names builder `i` and never the orchestrator's empty scope, which only the orchestrator's own messages carry |
| MultiBuilding.Chosen | multiBuilder.ts:204-210 | the kept builders are in increasing order, at most one per builder, each a valid index |
| MultiBuilding.ChosenExactly | multiBuilder.ts:206-210 | a builder is kept exactly when no earlier builder has its clone command |
| MultiBuilding.ChosenAt | multiBuilder.ts:206-210 | the same for one builder |
| MultiBuilding.ChosenSnoc | multiBuilder.ts:206-210 | one more builder keeps the earlier choices and is kept itself exactly when its command is new |
| MultiBuilding.ChosenDistinctAndCovering | multiBuilder.ts:202-215 | the kept builders' clone commands are pairwise distinct, and every builder's command is among them: one download per distinct repository, and none missing |
| MultiBuilding.FirstOccurrenceChosen | multiBuilder.ts:206-210 | some kept builder has the clone command of any given builder |
| MultiBuilding.FirstIndex | multiBuilder.ts:207 | every command has a first occurrence at or before any of its occurrences |
| MultiBuilding.Partition | multiBuilder.ts:237-242 | every builder lands in exactly one of the two lists, the first holding only builders with a falsy `buildError` and the second only the others, each in the builders' order |
| MultiBuilding.PartitionExactly | multiBuilder.ts:239-242 | a builder is among the successful ones exactly when its `buildError` is falsy, and among the failed ones exactly when it is not |
| MultiBuilding.PartitionAt | multiBuilder.ts:239-242 | the same for one builder |
| MultiBuilding.PartitionSnoc | multiBuilder.ts:239-242 | one more builder leaves the earlier ones where they were and files the new one by its error |
| MultiBuilding.Summary | multiBuilder.ts:244-253 | with no failure, the single line `All <n> board(s) built successfully!`; otherwise `<s>/<n> board(s) were built successfully`, `<f>/<n> failed building` and one line per failed builder |
| MultiBuilding.FailureLines | multiBuilder.ts:250-252 | one error line per failed builder, in order: `<name> failed: <buildError>`, or `unknown` when there is none |
| MultiBuilding.FailedIffRejected | multiBuilder.ts:239-242 | a builder built once is counted as failed exactly when its build was rejected with a non-empty reason: one rejected with an empty reason is listed among the successful ones |
| MultiBuilding.BoardBuildModels | boardBuilder.ts:620-662 | the build step the orchestrator uses is a board builder's `build` |
| MultiBuilding.RunFrom | multiBuilder.ts:220-234 | no more runs than builders remain |
| MultiBuilding.RunFromAttemptsAll | multiBuilder.ts:220-234 | a failing build never stops the others: when every build is attempted there is one run per builder, and one at a time the runs stop short only at a build that never settles, every earlier one having settled |
| MultiBuilding.RunsBefore | multiBuilder.ts:230-233 | one run per builder so far |
| MultiBuilding.RunFromSplit | multiBuilder.ts:230-233 | the runs from the start are the first `i` runs followed by the runs after them on the disk they left, provided, one at a time, each of the first `i` settled |
| MultiBuilding.RunFromBefore | multiBuilder.ts:230-233 | the loop ends after every build, or, one at a time, at the first build that does not settle |
| MultiBuilding.SettledSnoc | multiBuilder.ts:230-233 | the runs so far with one more are settled exactly when the earlier ones are and so is the new one |
| MultiBuilding.BuildsAfter | multiBuilder.ts:220-234 | each builder built so far holds what its run left, and every other holds what it held |
| MultiBuilding.ErrorsAfter | boardBuilder.ts:179-183 | each builder built so far holds the `buildError` its run left, and every other what it held |
| MultiBuilding.BuildsAfterNext | multiBuilder.ts:230-233 | one more run updates exactly the next builder |
| MultiBuilding.RelayRunsSnoc | multiBuilder.ts:84-91 | one more run passes on its events after those of the earlier runs |
| MultiBuilding.CommandsOf | multiBuilder.ts:206-208 | one clone command per builder, as its current description gives it |
| MultiBuilding.BuildsOf | multiBuilder.ts:220-234 | one build description per builder |
| MultiBuilding.JobsOf | multiBuilder.ts:220-234 | one description and build location per builder |
| MultiBuilding.Remoted | boardBuilder.ts:98-102 | the first `i` builds have the ArduPilot remote installed and the rest are as they were |
| MultiBuilding.RemotedStep | boardBuilder.ts:98-102 | installing the remote of build `i` extends the first `i` by one |
| MultiBuilding.ErrorsOf | multiBuilder.ts:239-242 | one `buildError` per builder |
| MultiBuilding.NamesOf | multiBuilder.ts:250-252 | one name per builder |
| MultiBuilding.MakeBuilders | multiBuilder.ts:76-78 | one fresh builder per build, in order, all distinct, sharing the file system, each as its constructor leaves it |
| MultiBuilding.MakeBuilder | multiBuilder.ts:77 | a fresh builder as its constructor leaves it |
| MultiBuilding.MultiBuilder.FromBuilds | multiBuilder.ts:71-81 | given builds, one fresh builder per build, in order, each as its constructor leaves it; an empty list is refused as the code reads its first element |
| MultiBuilding.MultiBuilder.FromBuilders | multiBuilder.ts:71-81 | given builders, they are kept as they are |
| MultiBuilding.MultiBuilder.CollectRepos | multiBuilder.ts:204-210 | the kept builders are those `Chosen` gives for the clone commands as they stood, and each builder without a remote has been given the ArduPilot one |
| MultiBuilding.MultiBuilder.CloneCommandOf | multiBuilder.ts:207-208 | reading a builder's clone command gives the command as it stood and changes only that builder's remote |
| MultiBuilding.MultiBuilder.DownloadRepos | multiBuilder.ts:202-215 | those builders are kept, and one message announces how many repositories are needed by how many builders |
| MultiBuilding.MultiBuilder.BuildOne | multiBuilder.ts:221-233 | the builder's build as a board builder does it: its outcome, disk, build description and `buildError`, with its events passed on under its index |
| MultiBuilding.MultiBuilder.Advance | multiBuilder.ts:221-233 | the next build extends the runs so far by one, and the state stays in step with them |
| MultiBuilding.MultiBuilder.TrackedNext | multiBuilder.ts:221-233 | after one more build, the state is in step with the runs so far plus that one |
| MultiBuilding.MultiBuilder.RunBuilders | multiBuilder.ts:220-234 | the builds leave the disk, the events, the build descriptions and the `buildError`s that `RunFrom` describes; they have all settled exactly when every run did |
| MultiBuilding.MultiBuilder.RunLoop | multiBuilder.ts:220-234 | the loop's runs are those of `RunFrom` and the state is in step with them |
| MultiBuilding.MultiBuilder.PartitionBuilders | multiBuilder.ts:237-242 | the two lists are those `Partition` gives for the builders' errors |
| MultiBuilding.MultiBuilder.SummaryLines | multiBuilder.ts:244-253 | the messages are those `Summary` gives for the builders' names and errors |
| MultiBuilding.MultiBuilder.Summarise | multiBuilder.ts:237-255 | the partition, its messages, then `allComplete` with the two lists |
| MultiBuilding.MultiBuilder.Build | multiBuilder.ts:217-259 | `Begin build!` comes first; the build finishes only when the repositories were fetched, and then ends with `allComplete` over the builders as they end |
| MultiBuilding.ViewsUnchanged | multiBuilder.ts:244-255 | builders none of whose fields changed keep their names and errors |
| MultiBuilding.PartitionStep | multiBuilder.ts:239-242 | one more builder adds its index to the list its error selects |
| MultiBuilding.FailureLinesStep | multiBuilder.ts:250-252 | one more failed builder adds its error line |
| MultiBuilding.ChosenRepeat | multiBuilder.ts:207 | a builder whose command was kept before is skipped |
| MultiBuilding.FreshCommand | multiBuilder.ts:207 | a command no kept builder has does not occur before |
| MultiBuilding.ChosenFresh | multiBuilder.ts:208-209 | a builder whose command is new is kept |

## Left out

- Spawning processes, stderr, `kill`, `destroy`, and the process-wide exit and SIGINT hooks (process.ts:28-70) are OS input and output. A shell is its write log and a given sequence of output events.
- The external tools (git, waf, luacheck, `uploader.py`, `mavproxy.py`) are left out; only the commands written to them and how their shells end are modelled.
- `downloadRepo`, `copyRepo` and `processGit` run git and copy directory trees. Each is represented by its outcome alone (`World.download`, `World.copy`, `World.git`), and the directory copy itself is not modelled.
- `copyBinaries`, `uploadToBoard` and `openMAVProxy` are represented by one outcome for the final steps (`World.finalSteps`); the 5-second pause before MAVProxy opens is left out. Their command strings come from `BuildArguments` and `BuildConfig`; the builder's own processes are not modelled.
- Concurrency: `Promise.all` in `downloadRepos` and in `build(true)` is modelled as every builder attempted in array order on the shared disk. Interleavings of concurrent builds are not modelled.
- MultiBuilding.MultiBuilder.DownloadRepos: the downloads themselves are the builders' `downloadRepo` and are not modelled. Whether the repositories were fetched is the input `fetched`.
- MultiBuilding.MultiBuilder.Build: states only that `Begin build!` comes first and that a finished build ends with `allComplete`. The events in between are stated by `DownloadRepos`, `RunBuilders` and `Summarise`, which it calls in turn.
- Console printing and colouring (`consoleChannel`, `logConsole`) and most `info` and `verbose` messages are left out. The messages kept are those the listing, the failure report and the summary consist of.
- The relay of `warn` events is left out: `BoardBuilder` never emits one. The warning's layout is a Finding below.
- `Math.random` (`randomString`) is left out. So are `getProcessArgument` and `booleanProcessArgument`, which are not part of this model; their results are the inputs of `BuildArgumentsFromArgs`. The `--help` branch, which prints and exits, is also left out.
- `path.join` is modelled as joining with `/` and dropping a leading `./`; other path normalisation is left out.
- JavaScript orders an object's integer-like keys first. `parameter.append` is modelled as an association list in insertion order, so that ordering is not captured.
- A shared `Build` object is modelled as a value. Two builders given the same object do not see each other's changes.
- Reading a missing file, copying from one, unlinking a missing file, removing a missing tree and making an existing directory are modelled as the error the call raises, with Node's `ENOENT` or `EEXIST` message text (`FileSystem.NoEntry`, `FileSystem.ExistsText`). An `undefined` source path is modelled as the error the call raises; its text and a `createWriteStream` that fails are not modelled.
- FileSystem.CopyFile: the model does not track whether the destination's parent directory exists, so the `ENOENT` that `fs.copyFileSync` raises for a missing parent is not modelled; the copy succeeds whenever its source exists.
- FileSystem.AppendFile: the `ENOENT` of `fs.appendFileSync` into a missing directory is not modelled; appending always succeeds. For example, patching a `board` without a `hwdef/<board>` directory writes the file and the build continues where the code would reject.
- FileSystem.MakeDirectory: the `ENOENT` of a non-recursive `fs.mkdirSync` whose parent is missing is not modelled; only an existing path fails.
- FileSystem.FileStore.Copy, FileSystem.FileStore.Append and FileSystem.FileStore.MakeDir: inherit the three gaps above.
- JsText.ParseInt: JavaScript numbers are doubles. `JsNumber` holds an unbounded integer, so `parseInt` of more than 2^53 is exact here where JavaScript rounds it.
- JsText.NumberToString: a number of 10^21 or more prints in exponent form in JavaScript; here every integer prints all its digits.
- Every script in one `processLUA` run sees the same date and the same revision id lookup.
- `new MultiBuilder([])` throws, because the code reads `builders[0]`. The model's constructors require at least one build instead.

## Findings

| source | as written | input that shows it | evidently intended | confidence | as-written member | corrected member |
|---|---|---|---|---|---|---|
| boardBuilder.ts:465 | The deletion of `defaults.parm` is guarded by `existsSync(this.hwDefFile)`. The builder (`BoardBuilding.BoardFiles`, `BoardBuilder.ProcessParameters`) keeps this guard; `BoardBuilding.ClearWithoutParameterFileRejects` and `ClearWithoutHwDefKeepsDisk` show both effects there. | `parameter.clear: true` on a board whose `hwdef.dat` exists and that has no `defaults.parm`: `unlinkSync` throws. On a board without `hwdef.dat`, the old `defaults.parm` is kept. | The deletion is guarded by the parameter file itself, as the hwdef and bindings stages are; `ConfigPatch.PatchParameters` is that corrected stage. | not executed | ConfigPatch.ClearMissingParametersFails | ConfigPatch.ClearedParametersHoldAppended |
| multiBuilder.ts:158-160 | `warning` emits `(scope, message)`. | Any warning: a listener reading the first argument as the message, as `info` and `error` are laid out, gets the scope. | `warning` emits `(message, scope)`, like the other channels. | not executed | MultiBuilding.WarningArgumentsSwapped | MultiBuilding.WarningLikeOtherChannels |
