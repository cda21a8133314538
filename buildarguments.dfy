/**
 * `BuildArgumentsFromArgs`: turning the raw command-line values into a
 * build-argument record. The raw values are inputs: what
 * `booleanProcessArgument(name)` and `getProcessArgument(name)` return.
 */
module BuildArguments {
  import opened Wrappers
  import opened JsText

  /** The raw command-line values, one per argument the parser asks for. */
  datatype RawArguments = RawArguments(
    buildBootloader: Option<bool>,
    resetRepo: Option<bool>,
    parameters: Option<string>,
    enableLUA: Option<bool>,
    hwdef: Option<string>,
    uploadToBoardFlag: Option<bool>,
    uploadToBoardValue: Option<string>,
    openMAVProxyFlag: Option<bool>,
    openMAVProxyValue: Option<string>)

  /** `uploadToBoard`: either the boolean form or the `dest,binary,extra...` form. */
  datatype UploadToBoard =
    | UploadFlag(enabled: bool)
    | UploadTarget(uploadDest: Option<string>, binary: Option<string>, extraParams: Option<seq<string>>)

  /** `openMAVProxy`: either the boolean form or the `master,baudRate,extra...` form. */
  datatype OpenMAVProxy =
    | MAVProxyFlag(enabled: bool)
    | MAVProxyTarget(master: Option<string>, baudRate: Option<JsNumber>, extraParams: Option<seq<string>>)

  datatype BuildArguments = BuildArguments(
    buildBootloader: Option<bool>,
    resetRepo: Option<bool>,
    parameters: map<string, string>,
    enableLUA: Option<bool>,
    hwDef: Option<seq<string>>,
    uploadToBoard: Option<UploadToBoard>,
    openMAVProxy: Option<OpenMAVProxy>)

  // ---------------------------------------------------------------------------
  // parameters: "k1,v1,k2,v2"
  // ---------------------------------------------------------------------------

  /** `value?.split(",") || []`. */
  function ParameterTokens(value: Option<string>): seq<string>
  {
    if value.Some? then Split(value.value, ',') else []
  }

  /** The two variables the parameter loop updates: the record so far and the pending key. */
  datatype PairState = PairState(ret: map<string, string>, param: Option<string>)

  /** One iteration: a missing or empty pending key (`!param`) takes the token, otherwise the pair is stored. */
  function PairStep(st: PairState, val: string): PairState
  {
    if st.param.None? || st.param.value == "" then PairState(st.ret, Some(val))
    else PairState(st.ret[st.param.value := val], None)
  }

  /** The state after the loop has seen `tokens`, in order. */
  function PairAll(tokens: seq<string>): PairState
  {
    if |tokens| == 0 then PairState(map[], None)
    else PairStep(PairAll(tokens[..|tokens| - 1]), tokens[|tokens| - 1])
  }

  /** The `parameters` record for a raw value. */
  function ParametersOf(value: Option<string>): map<string, string>
  {
    PairAll(ParameterTokens(value)).ret
  }

  /** The parameter loop of `BuildArgumentsFromArgs`. */
  method ParseParameters(value: Option<string>) returns (ret: map<string, string>)
    ensures ret == ParametersOf(value)
  {
    ret := map[];
    var param: Option<string> := None;
    var tokens := ParameterTokens(value);
    var i := 0;
    while i < |tokens|
      invariant 0 <= i <= |tokens|
      invariant PairState(ret, param) == PairAll(tokens[..i])
    {
      var val := tokens[i];
      assert tokens[..i + 1][..i] == tokens[..i];
      if param.None? || param.value == "" {
        param := Some(val);
      } else {
        ret := ret[param.value := val];
        param := None;
      }
      i := i + 1;
    }
    assert tokens[..|tokens|] == tokens;
  }

  /** Reference reading of the parameter list: consecutive pairs, a later key overriding an earlier one. */
  function PairsToMap(tokens: seq<string>): map<string, string>
  {
    if |tokens| < 2 then map[] else map[tokens[0] := tokens[1]] + PairsToMap(tokens[2..])
  }

  /** A trailing unpaired key adds nothing. */
  lemma {:induction false} PairsToMapUnpaired(s: seq<string>, k: string)
    requires |s| % 2 == 0
    ensures PairsToMap(s + [k]) == PairsToMap(s)
  {
    if |s| >= 2 {
      assert (s + [k])[2..] == s[2..] + [k];
      PairsToMapUnpaired(s[2..], k);
    } else {
      assert s == [];
    }
  }

  /** A trailing pair overrides whatever the key had. */
  lemma {:induction false} PairsToMapSnoc(s: seq<string>, k: string, v: string)
    requires |s| % 2 == 0
    ensures PairsToMap(s + [k, v]) == PairsToMap(s)[k := v]
  {
    if |s| >= 2 {
      assert (s + [k, v])[2..] == s[2..] + [k, v];
      PairsToMapSnoc(s[2..], k, v);
      UnionUpdate(map[s[0] := s[1]], PairsToMap(s[2..]), k, v);
    } else {
      assert s == [];
      assert [k, v][2..] == [];
    }
  }

  lemma UnionUpdate(head: map<string, string>, m: map<string, string>, k: string, v: string)
    ensures head + m[k := v] == (head + m)[k := v]
  {
  }

  /**
   * With no empty token in a key position, the loop pairs the tokens up in
   * order: the result is the pairs read from the front, a trailing unpaired
   * key is left pending, and a later duplicate key overwrites the earlier
   * value. Values may be empty.
   */
  lemma {:induction false} PairAllIsPairs(tokens: seq<string>)
    requires forall i :: 0 <= i < |tokens| && i % 2 == 0 ==> tokens[i] != ""
    ensures PairAll(tokens).ret == PairsToMap(tokens)
    ensures PairAll(tokens).param == if |tokens| % 2 == 1 then Some(tokens[|tokens| - 1]) else None
  {
    var n := |tokens|;
    if n > 0 {
      PairAllIsPairs(tokens[..n - 1]);
      if n % 2 == 0 {
        PairLast(tokens);
      } else {
        UnpairedLast(tokens);
      }
    }
  }

  /** A token after a pending non-empty key completes the pair, whatever the token is. */
  lemma PairLast(tokens: seq<string>)
    requires |tokens| >= 2 && |tokens| % 2 == 0
    requires var front := tokens[..|tokens| - 1];
      PairAll(front).ret == PairsToMap(front) && PairAll(front).param == Some(tokens[|tokens| - 2])
    requires tokens[|tokens| - 2] != ""
    ensures PairAll(tokens).ret == PairsToMap(tokens) && PairAll(tokens).param.None?
  {
    var n := |tokens|;
    var s := tokens[..n - 2];
    assert tokens[..n - 1] == s + [tokens[n - 2]];
    assert tokens == s + [tokens[n - 2], tokens[n - 1]];
    PairsToMapUnpaired(s, tokens[n - 2]);
    PairsToMapSnoc(s, tokens[n - 2], tokens[n - 1]);
  }

  /** A token after a completed pair waits as the next key. */
  lemma UnpairedLast(tokens: seq<string>)
    requires |tokens| % 2 == 1
    requires var front := tokens[..|tokens| - 1];
      PairAll(front).ret == PairsToMap(front) && PairAll(front).param.None?
    ensures PairAll(tokens).ret == PairsToMap(tokens) && PairAll(tokens).param == Some(tokens[|tokens| - 1])
  {
    var n := |tokens|;
    var front := tokens[..n - 1];
    assert tokens == front + [tokens[n - 1]];
    PairsToMapUnpaired(front, tokens[n - 1]);
  }

  /** A comma-joined list of comma-free tokens with non-empty keys parses to its pairs. */
  lemma ParametersOfJoined(tokens: seq<string>)
    requires |tokens| >= 1
    requires forall i :: 0 <= i < |tokens| ==> ',' !in tokens[i]
    requires forall i :: 0 <= i < |tokens| && i % 2 == 0 ==> tokens[i] != ""
    ensures ParametersOf(Some(Join(tokens, ","))) == PairsToMap(tokens)
  {
    SplitJoin(tokens, ',');
    PairAllIsPairs(tokens);
  }

  /**
   * Reference reading of the parameter list for any tokens: an empty string
   * where a key is expected is skipped, the next token being read as the key
   * instead; otherwise a key takes the token after it, and a trailing key
   * with no value adds nothing.
   */
  function PairsSkippingEmptyKeys(tokens: seq<string>): map<string, string>
  {
    if |tokens| == 0 then map[]
    else if tokens[0] == "" then PairsSkippingEmptyKeys(tokens[1..])
    else if |tokens| == 1 then map[]
    else map[tokens[0] := tokens[1]] + PairsSkippingEmptyKeys(tokens[2..])
  }

  /** The loop run from the front, starting in state `st`. */
  function PairFrom(st: PairState, tokens: seq<string>): PairState
    decreases |tokens|
  {
    if |tokens| == 0 then st else PairFrom(PairStep(st, tokens[0]), tokens[1..])
  }

  lemma {:induction false} PairFromSnoc(st: PairState, s: seq<string>, x: string)
    ensures PairFrom(st, s + [x]) == PairStep(PairFrom(st, s), x)
    decreases |s|
  {
    if |s| > 0 {
      assert (s + [x])[1..] == s[1..] + [x];
      PairFromSnoc(PairStep(st, s[0]), s[1..], x);
    }
  }

  lemma {:induction false} PairAllFromFront(tokens: seq<string>)
    ensures PairAll(tokens) == PairFrom(PairState(map[], None), tokens)
  {
    var n := |tokens|;
    if n > 0 {
      PairAllFromFront(tokens[..n - 1]);
      PairFromSnoc(PairState(map[], None), tokens[..n - 1], tokens[n - 1]);
      assert tokens[..n - 1] + [tokens[n - 1]] == tokens;
    }
  }

  /** From a state with no usable pending key, the loop adds the reference pairs to what it has. */
  lemma {:induction false} PairFromIdle(st: PairState, tokens: seq<string>)
    requires st.param.None? || st.param.value == ""
    ensures PairFrom(st, tokens).ret == st.ret + PairsSkippingEmptyKeys(tokens)
    decreases |tokens|
  {
    if |tokens| == 0 {
    } else if tokens[0] == "" {
      PairFromIdle(PairStep(st, tokens[0]), tokens[1..]);
    } else if |tokens| == 1 {
    } else {
      var k, v := tokens[0], tokens[1];
      var next := PairState(st.ret[k := v], None);
      assert PairStep(PairStep(st, k), v) == next;
      assert tokens[1..][1..] == tokens[2..];
      PairFromIdle(next, tokens[2..]);
      assert st.ret[k := v] + PairsSkippingEmptyKeys(tokens[2..])
        == st.ret + (map[k := v] + PairsSkippingEmptyKeys(tokens[2..]));
    }
  }

  /** For every token list, empty keys included, the loop computes the reference pairs. */
  lemma EmptyKeyIsReplaced(tokens: seq<string>)
    ensures PairAll(tokens).ret == PairsSkippingEmptyKeys(tokens)
  {
    PairAllFromFront(tokens);
    PairFromIdle(PairState(map[], None), tokens);
  }

  // ---------------------------------------------------------------------------
  // hwdef, uploadToBoard, openMAVProxy
  // ---------------------------------------------------------------------------

  /** `getProcessArgument("hwdef")?.split(",") || undefined`. */
  function HwDefArgument(value: Option<string>): (r: Option<seq<string>>)
    ensures value.None? <==> r.None?
    ensures value.Some? ==> Join(r.value, ",") == value.value
  {
    if value.Some? then Some(Split(value.value, ',')) else None
  }

  /** `args.slice(2)` when there are more than two fields. */
  function ExtraFields(args: seq<string>): Option<seq<string>>
  {
    if |args| > 2 then Some(args[2..]) else None
  }

  /** The `uploadToBoard` value: the boolean form wins; an empty or missing string gives none. */
  function UploadToBoardArgument(flag: Option<bool>, value: Option<string>): (r: Option<UploadToBoard>)
    ensures flag.Some? ==> r == Some(UploadFlag(flag.value))
    ensures flag.None? && (value.None? || value.value == "") ==> r.None?
    ensures flag.None? && value.Some? && value.value != "" ==> r.Some? && r.value.UploadTarget?
  {
    if flag.Some? then Some(UploadFlag(flag.value))
    else if value.None? || value.value == "" then None
    else
      var args := Split(value.value, ',');
      Some(UploadTarget(Some(args[0]), if |args| > 1 then Some(args[1]) else None, ExtraFields(args)))
  }

  /** The `openMAVProxy` value: like `uploadToBoard`, with the second field read by `parseInt`. */
  function OpenMAVProxyArgument(flag: Option<bool>, value: Option<string>): (r: Option<OpenMAVProxy>)
    ensures flag.Some? ==> r == Some(MAVProxyFlag(flag.value))
    ensures flag.None? && (value.None? || value.value == "") ==> r.None?
    ensures flag.None? && value.Some? && value.value != "" ==> r.Some? && r.value.MAVProxyTarget?
  {
    if flag.Some? then Some(MAVProxyFlag(flag.value))
    else if value.None? || value.value == "" then None
    else
      var args := Split(value.value, ',');
      Some(MAVProxyTarget(Some(args[0]), if |args| > 1 then Some(ParseInt(args[1])) else None, ExtraFields(args)))
  }

  /**
   * The comma form of `uploadToBoard` reads its fields back: the destination,
   * the binary when given, and the rest as extra parameters when there are any.
   */
  lemma UploadToBoardFields(fields: seq<string>)
    requires |fields| >= 1 && fields[0] != ""
    requires forall i :: 0 <= i < |fields| ==> ',' !in fields[i]
    ensures UploadToBoardArgument(None, Some(Join(fields, ","))) ==
      Some(UploadTarget(Some(fields[0]), if |fields| >= 2 then Some(fields[1]) else None,
                        if |fields| >= 3 then Some(fields[2..]) else None))
  {
    SplitJoin(fields, ',');
    JoinedNotEmpty(fields);
  }

  lemma JoinedNotEmpty(fields: seq<string>)
    requires |fields| >= 1 && fields[0] != ""
    ensures Join(fields, ",") != ""
  {
    if |fields| > 1 {
      assert Join(fields, ",") == fields[0] + "," + Join(fields[1..], ",");
    }
  }

  /** The comma form of `openMAVProxy` gives its fields, the second read by `parseInt`. */
  lemma OpenMAVProxyOfFields(fields: seq<string>)
    requires |fields| >= 1 && fields[0] != ""
    requires forall i :: 0 <= i < |fields| ==> ',' !in fields[i]
    ensures OpenMAVProxyArgument(None, Some(Join(fields, ","))) ==
      Some(MAVProxyTarget(Some(fields[0]), if |fields| >= 2 then Some(ParseInt(fields[1])) else None,
                          if |fields| >= 3 then Some(fields[2..]) else None))
  {
    SplitJoin(fields, ',');
    JoinedNotEmpty(fields);
  }

  lemma IntToStringNoComma(n: int)
    ensures ',' !in IntToString(n)
  {
    var d := NatToString(if n < 0 then -n else n);
    NatToStringDigits(if n < 0 then -n else n);
    assert forall i :: 0 <= i < |d| ==> d[i] != ',' by {
      forall i | 0 <= i < |d| ensures d[i] != ',' {
        assert IsDigit(d[i], 10);
      }
    }
  }

  lemma FieldsWithoutComma(first: string, second: string, extras: seq<string>)
    requires ',' !in first && ',' !in second
    requires forall i :: 0 <= i < |extras| ==> ',' !in extras[i]
    ensures var fields := [first, second] + extras; forall i :: 0 <= i < |fields| ==> ',' !in fields[i]
  {
    var fields := [first, second] + extras;
    forall i | 0 <= i < |fields| ensures ',' !in fields[i] {
      if i >= 2 {
        assert fields[i] == extras[i - 2];
      }
    }
  }

  /** The comma form of `openMAVProxy` reads back the master, the baud rate and the extras. */
  lemma OpenMAVProxyFields(master: string, baud: int, extras: seq<string>)
    requires master != "" && ',' !in master
    requires forall i :: 0 <= i < |extras| ==> ',' !in extras[i]
    ensures OpenMAVProxyArgument(None, Some(Join([master, IntToString(baud)] + extras, ","))) ==
      Some(MAVProxyTarget(Some(master), Some(Num(baud)), if |extras| > 0 then Some(extras) else None))
  {
    var fields := [master, IntToString(baud)] + extras;
    IntToStringNoComma(baud);
    FieldsWithoutComma(master, IntToString(baud), extras);
    OpenMAVProxyOfFields(fields);
    ParseIntOfIntToString(baud);
    assert fields[1] == IntToString(baud) && fields[2..] == extras;
  }

  /** `BuildArgumentsFromArgs` without its `--help` branch. */
  method BuildArgumentsFromArgs(raw: RawArguments) returns (args: BuildArguments)
    ensures args.buildBootloader == raw.buildBootloader && args.resetRepo == raw.resetRepo
    ensures args.enableLUA == raw.enableLUA
    ensures args.parameters == ParametersOf(raw.parameters)
    ensures args.hwDef == HwDefArgument(raw.hwdef)
    ensures args.uploadToBoard == UploadToBoardArgument(raw.uploadToBoardFlag, raw.uploadToBoardValue)
    ensures args.openMAVProxy == OpenMAVProxyArgument(raw.openMAVProxyFlag, raw.openMAVProxyValue)
  {
    var parameters := ParseParameters(raw.parameters);
    args := BuildArguments(
      raw.buildBootloader,
      raw.resetRepo,
      parameters,
      raw.enableLUA,
      HwDefArgument(raw.hwdef),
      UploadToBoardArgument(raw.uploadToBoardFlag, raw.uploadToBoardValue),
      OpenMAVProxyArgument(raw.openMAVProxyFlag, raw.openMAVProxyValue));
  }
}
