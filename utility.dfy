/**
 * The static helpers of the `Utility` class: the working directories, the
 * sanitising of names used in paths, and the short revision id.
 */
module Utility {
  import opened Wrappers
  import opened JsText
  import opened ShellProcess

  // ---------------------------------------------------------------------------
  // directories
  // ---------------------------------------------------------------------------

  /**
   * `path.join(a, b)` for a normalised directory `a` without a trailing slash
   * and a plain relative segment `b`.
   */
  function PathJoin(a: string, b: string): string
  {
    a + "/" + b
  }

  /** `repos` under the base (working) directory. */
  function RepoDirectory(base: string): string
  {
    PathJoin(base, "repos")
  }

  /** `build` under the base (working) directory. */
  function BuildDirectory(base: string): string
  {
    PathJoin(base, "build")
  }

  // ---------------------------------------------------------------------------
  // removeSpecialCharacters
  // ---------------------------------------------------------------------------

  /** The members of the character class `[/\\?\/%*:|"<>]`. */
  predicate IsSpecial(c: char)
  {
    c == '/' || c == '\\' || c == '?' || c == '%' || c == '*' || c == ':' || c == '|' || c == '"' || c == '<' || c == '>'
  }

  function CountSpecials(s: string): nat
  {
    if |s| == 0 then 0 else (if IsSpecial(s[0]) then 1 else 0) + CountSpecials(s[1..])
  }

  /** The first replace: every special character deleted. */
  function StripSpecials(s: string): (r: string)
    ensures forall i :: 0 <= i < |r| ==> !IsSpecial(r[i])
    ensures |r| == |s| - CountSpecials(s)
  {
    if |s| == 0 then "" else (if IsSpecial(s[0]) then "" else [s[0]]) + StripSpecials(s[1..])
  }

  /** The second replace: every space turned into an underscore, nothing else touched. */
  function SpacesToUnderscores(s: string): (r: string)
    ensures |r| == |s|
    ensures forall i :: 0 <= i < |s| ==> r[i] == if s[i] == ' ' then '_' else s[i]
  {
    if |s| == 0 then "" else [if s[0] == ' ' then '_' else s[0]] + SpacesToUnderscores(s[1..])
  }

  /**
   * `removeSpecialCharacters`: the result holds no special character and no
   * space, and is shorter than the input by the number of special characters.
   */
  function RemoveSpecialCharacters(s: string): (r: string)
    ensures forall i :: 0 <= i < |r| ==> !IsSpecial(r[i]) && r[i] != ' '
    ensures |r| == |s| - CountSpecials(s)
  {
    var stripped := StripSpecials(s);
    var r := SpacesToUnderscores(stripped);
    assert forall i :: 0 <= i < |r| ==> !IsSpecial(stripped[i]);
    r
  }

  lemma {:induction false} StripSpecialsAppend(a: string, b: string)
    ensures StripSpecials(a + b) == StripSpecials(a) + StripSpecials(b)
  {
    if |a| > 0 {
      assert (a + b)[1..] == a[1..] + b;
      StripSpecialsAppend(a[1..], b);
    } else {
      assert a + b == b;
    }
  }

  lemma SpacesToUnderscoresAppend(a: string, b: string)
    ensures SpacesToUnderscores(a + b) == SpacesToUnderscores(a) + SpacesToUnderscores(b)
  {
  }

  /** Sanitising works character by character and keeps the order of what it keeps. */
  lemma RemoveSpecialCharactersAppend(a: string, b: string)
    ensures RemoveSpecialCharacters(a + b) == RemoveSpecialCharacters(a) + RemoveSpecialCharacters(b)
  {
    StripSpecialsAppend(a, b);
    SpacesToUnderscoresAppend(StripSpecials(a), StripSpecials(b));
  }

  /** What sanitising does to one character: delete it, turn a space into `_`, or keep it. */
  lemma RemoveSpecialCharactersOfChar(c: char)
    ensures RemoveSpecialCharacters([c]) == if IsSpecial(c) then "" else if c == ' ' then "_" else [c]
  {
    assert StripSpecials([c]) == (if IsSpecial(c) then "" else [c]) + StripSpecials([]);
  }

  lemma {:induction false} StripSpecialsClean(s: string)
    requires forall i :: 0 <= i < |s| ==> !IsSpecial(s[i])
    ensures StripSpecials(s) == s
  {
    if |s| > 0 {
      StripSpecialsClean(s[1..]);
    }
  }

  /** A name with no special character and no space is left as it is. */
  lemma RemoveSpecialCharactersClean(s: string)
    requires forall i :: 0 <= i < |s| ==> !IsSpecial(s[i]) && s[i] != ' '
    ensures RemoveSpecialCharacters(s) == s
  {
    StripSpecialsClean(s);
  }

  /** Sanitising a sanitised name changes nothing. */
  lemma RemoveSpecialCharactersIdempotent(s: string)
    ensures RemoveSpecialCharacters(RemoveSpecialCharacters(s)) == RemoveSpecialCharacters(s)
  {
    var r := RemoveSpecialCharacters(s);
    StripSpecialsClean(r);
    assert SpacesToUnderscores(r) == r;
  }

  // ---------------------------------------------------------------------------
  // getGitSha
  // ---------------------------------------------------------------------------

  /** The revision id taken from the first output chunk of `git rev-parse HEAD`. */
  function GitSha(chunk: string): string
  {
    var t := Trim(chunk);
    t[..if |t| < 6 then |t| else 6]
  }

  /** For a hexadecimal revision id followed by a newline the short id is its first six digits. */
  lemma GitShaOfRevParse(sha: string)
    requires |sha| >= 6
    requires forall i :: 0 <= i < |sha| ==> IsDigit(sha[i], 16)
    ensures GitSha(sha + "\n") == sha[..6]
  {
    assert IsDigit(sha[0], 16) && IsDigit(sha[|sha| - 1], 16);
    assert "" + sha + "\n" == sha + "\n";
    TrimPadded("", sha, "\n");
  }

  /**
   * `getGitSha`: a shell started in the directory runs `git rev-parse HEAD`
   * and exits. The first output chunk resolves with its short id; a close
   * before any output rejects with the exit code; a shell that prints
   * nothing and never closes leaves the promise pending.
   */
  function GitShaOutcome(output: seq<Event>): (r: Promise<string>)
    ensures |output| == 0 <==> r.Pending?
    ensures r.Resolved? <==> |output| > 0 && output[0].Data?
    ensures r.Resolved? ==> r.value == GitSha(output[0].chunk)
    ensures r.Rejected? ==> r.reason == "Exited with code " + ExitCodeToString(output[0].code)
  {
    if |output| == 0 then Pending
    else match output[0]
      case Data(chunk) => Resolved(GitSha(chunk))
      case Close(code) => Rejected("Exited with code " + ExitCodeToString(code))
  }

  /** A revision id printed by `git rev-parse HEAD` resolves `getGitSha` with its first six digits. */
  lemma GitShaOutcomeOfRevParse(sha: string, later: seq<Event>)
    requires |sha| >= 6
    requires forall i :: 0 <= i < |sha| ==> IsDigit(sha[i], 16)
    ensures GitShaOutcome([Data(sha + "\n")] + later) == Resolved(sha[..6])
  {
    GitShaOfRevParse(sha);
  }
}
