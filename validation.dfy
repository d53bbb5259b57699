/** The wrappers that check an enumerated parameter against a fixed, ordered
    allow-list before building their call. A rejected value yields an
    `InvalidArgument` whose message names the field, the allow-list in its
    declared order joined by ',', and the value given. The checks are plain
    expressions, so each wrapper's validation and parameter list is a
    function from its arguments to the call it makes, or to its failure. */
module Validation {
  import opened Results
  import opened Text
  import opened Protocol

  const VERBOSITY_LEVELS: seq<int> := [0, 1, 2]
  const MEMORY_INFO_MODES: seq<string> := ["stats", "mallocinfo"]
  const ESTIMATE_MODES: seq<string> := ["UNSET", "ECONOMICAL", "CONSERVATIVE"]
  const ADDRESS_TYPES: seq<string> := ["legacy", "p2sh-segwit", "bech32"]

  /** The text of the exception raised for a value outside its allow-list. */
  function InvalidValueMessage(field: string, allowed: seq<string>, actual: string): (msg: string)
    ensures |msg| >= |field| + |actual| && msg[..|field|] == field && msg[|msg| - |actual|..] == actual
  {
    field + " has invalid value. Expected values are: " + Join(allowed, ',') + ", actual: " + actual
  }

  /** The decimal texts of integers, as `implode` prints them. */
  function ShowAll(xs: seq<int>): (r: seq<string>)
    ensures |r| == |xs| && forall i :: 0 <= i < |xs| ==> r[i] == IntToDecimal(xs[i])
  {
    seq(|xs|, i requires 0 <= i < |xs| => IntToDecimal(xs[i]))
  }

  /** Each printed integer of an allow-list is PHP's decimal text, free of the
      ',' that `implode` puts between items, and reads back as that integer. */
  lemma ShowAllParsesBack(xs: seq<int>)
    ensures |ShowAll(xs)| == |xs|
    ensures forall i :: 0 <= i < |xs| ==>
      IsCanonicalDecimal(ShowAll(xs)[i]) && ',' !in ShowAll(xs)[i] && ParseDecimal(ShowAll(xs)[i]) == xs[i]
  {
    forall i | 0 <= i < |xs|
      ensures IsCanonicalDecimal(ShowAll(xs)[i]) && ',' !in ShowAll(xs)[i] && ParseDecimal(ShowAll(xs)[i]) == xs[i]
    {
      DecimalHasNo(IntToDecimal(xs[i]), ',');
      DecimalRoundTrip(xs[i]);
    }
  }

  /** The allow-list check shared by the string-valued parameters. */
  function CheckAllowed(field: string, allowed: seq<string>, actual: string): (r: Option<RpcError>)
    ensures r.None? <==> actual in allowed
  {
    if actual in allowed then None else Some(InvalidArgument(InvalidValueMessage(field, allowed, actual)))
  }

  /** The message carries the allow-list in its declared order: the text
      between the fixed prefix and ", actual: " splits back into the list. */
  lemma {:induction false} MessageListsAllowedInOrder(field: string, allowed: seq<string>, actual: string)
    requires |allowed| >= 1 && forall i :: 0 <= i < |allowed| ==> ',' !in allowed[i]
    ensures var prefix := field + " has invalid value. Expected values are: ";
      var listed := Join(allowed, ',');
      var msg := InvalidValueMessage(field, allowed, actual);
      msg[..|prefix|] == prefix && msg[|prefix| + |listed|..] == ", actual: " + actual &&
      Split(msg[|prefix|..|prefix| + |listed|], ',') == allowed
  {
    var prefix := field + " has invalid value. Expected values are: ";
    var listed := Join(allowed, ',');
    var msg := InvalidValueMessage(field, allowed, actual);
    assert msg == prefix + listed + (", actual: " + actual);
    assert msg[|prefix|..|prefix| + |listed|] == listed;
    SplitJoin(allowed, ',');
  }

  /** The allow-lists as `implode(',', ...)` prints them. */
  lemma ShownVerbosityLevels()
    ensures ShowAll(VERBOSITY_LEVELS) == ["0", "1", "2"]
  {
    assert IntToDecimal(0) == "0" && IntToDecimal(1) == "1" && IntToDecimal(2) == "2";
  }

  lemma JoinedVerbosityLevels()
    ensures Join(ShowAll(VERBOSITY_LEVELS), ',') == "0,1,2"
  {
    ShownVerbosityLevels();
    assert ["0", "1", "2"][1..] == ["1", "2"];
  }

  lemma JoinedMemoryInfoModes()
    ensures Join(MEMORY_INFO_MODES, ',') == "stats,mallocinfo"
  {
    assert MEMORY_INFO_MODES[1..] == ["mallocinfo"];
  }

  lemma JoinedEstimateModes()
    ensures Join(ESTIMATE_MODES, ',') == "UNSET,ECONOMICAL,CONSERVATIVE"
  {
    assert ESTIMATE_MODES[1..] == ["ECONOMICAL", "CONSERVATIVE"];
    assert ESTIMATE_MODES[1..][1..] == ["CONSERVATIVE"];
    assert Join(ESTIMATE_MODES[1..], ',') == "ECONOMICAL,CONSERVATIVE";
  }

  lemma JoinedAddressTypes()
    ensures Join(ADDRESS_TYPES, ',') == "legacy,p2sh-segwit,bech32"
  {
    assert ADDRESS_TYPES[1..] == ["p2sh-segwit", "bech32"];
    assert ADDRESS_TYPES[1..][1..] == ["bech32"];
    assert Join(ADDRESS_TYPES[1..], ',') == "p2sh-segwit,bech32";
  }

  /** `getblock`: verbosity must be 0, 1 or 2; the call is `[blockHash, verbosity]`. */
  function GetBlock(blockHash: string, verbosity: int := 1): (p: Result<Call, RpcError>)
    ensures p.Success? <==> verbosity in {0, 1, 2}
    ensures p.Success? ==> p.value == Call("getblock", [Str(blockHash), Int(verbosity)])
    ensures p.Failure? ==>
      p.error == InvalidArgument(InvalidValueMessage("Verbosity", ["0", "1", "2"], IntToDecimal(verbosity)))
  {
    ShownVerbosityLevels();
    if verbosity in VERBOSITY_LEVELS then Success(Call("getblock", [Str(blockHash), Int(verbosity)]))
    else Failure(InvalidArgument(InvalidValueMessage("Verbosity", ShowAll(VERBOSITY_LEVELS), IntToDecimal(verbosity))))
  }

  /** `getmemoryinfo`: mode must be "stats" or "mallocinfo"; the call is `[mode]`. */
  function GetMemoryInfo(mode: string := "stats"): (p: Result<Call, RpcError>)
    ensures p.Success? <==> mode == "stats" || mode == "mallocinfo"
    ensures p.Success? ==> p.value == Call("getmemoryinfo", [Str(mode)])
    ensures p.Failure? ==>
      p.error == InvalidArgument(InvalidValueMessage("Mode", ["stats", "mallocinfo"], mode))
  {
    match CheckAllowed("Mode", MEMORY_INFO_MODES, mode)
    case Some(e) => Failure(e)
    case None => Success(Call("getmemoryinfo", [Str(mode)]))
  }

  /** `estimatesmartfee`: the estimate mode must be UNSET, ECONOMICAL or
      CONSERVATIVE; the call is `[confTarget, estimateMode]`. */
  function EstimateSmartFee(confTarget: int, estimateMode: string := "CONSERVATIVE"): (p: Result<Call, RpcError>)
    ensures p.Success? <==> estimateMode in {"UNSET", "ECONOMICAL", "CONSERVATIVE"}
    ensures p.Success? ==> p.value == Call("estimatesmartfee", [Int(confTarget), Str(estimateMode)])
    ensures p.Failure? ==>
      p.error == InvalidArgument(InvalidValueMessage("Mode", ["UNSET", "ECONOMICAL", "CONSERVATIVE"], estimateMode))
  {
    match CheckAllowed("Mode", ESTIMATE_MODES, estimateMode)
    case Some(e) => Failure(e)
    case None => Success(Call("estimatesmartfee", [Int(confTarget), Str(estimateMode)]))
  }

  /** `addmultisigaddress`: a non-null account type must be legacy, p2sh-segwit
      or bech32, yet whatever the account and the account type, the call sends
      `[nRequired, keys]` only. */
  function AddMultiSigAddress(nRequired: int, keys: seq<Value>, account: Option<string> := None,
                              accountType: Option<string> := None): (p: Result<Call, RpcError>)
    ensures p.Failure? <==> accountType.Some? && accountType.value !in {"legacy", "p2sh-segwit", "bech32"}
    ensures p.Success? ==> p.value == Call("addmultisigaddress", [Int(nRequired), List(keys)])
    ensures p.Failure? ==>
      p.error == InvalidArgument(InvalidValueMessage("Account type", ["legacy", "p2sh-segwit", "bech32"], accountType.value))
  {
    match accountType
    case Some(t) =>
      (match CheckAllowed("Account type", ADDRESS_TYPES, t)
       case Some(e) => Failure(e)
       case None => Success(Call("addmultisigaddress", [Int(nRequired), List(keys)])))
    case None => Success(Call("addmultisigaddress", [Int(nRequired), List(keys)]))
  }

  /** `getnewaddress`: a null address type is not checked, a non-null one must
      be legacy, p2sh-segwit or bech32; the call is always the two-element list
      `[account, addressType]`, nulls kept. */
  function GetNewAddress(account: Option<string> := None, addressType: Option<string> := None): (p: Result<Call, RpcError>)
    ensures p.Failure? <==> addressType.Some? && addressType.value !in {"legacy", "p2sh-segwit", "bech32"}
    ensures p.Success? ==> p.value.rpcMethod == "getnewaddress" && |p.value.params| == 2
    ensures p.Success? ==> p.value.params[0] == OrNull(account) && p.value.params[1] == OrNull(addressType)
    ensures p.Failure? ==>
      p.error == InvalidArgument(InvalidValueMessage("Address type", ["legacy", "p2sh-segwit", "bech32"], addressType.value))
  {
    var check := if addressType.Some? then CheckAllowed("Address type", ADDRESS_TYPES, addressType.value) else None;
    match check
    case Some(e) => Failure(e)
    case None => Success(Call("getnewaddress", [OrNull(account), OrNull(addressType)]))
  }

  /** `sendtoaddress`: the estimate mode must be UNSET, ECONOMICAL or
      CONSERVATIVE; the call sends all eight arguments in order, nulls kept. */
  function SendToAddress(address: string, amount: string, comment: Option<string> := None,
                         commentTo: Option<string> := None, subtractFeeFromAmount: bool := false,
                         isReplaceable: bool := false, confTarget: int := 6,
                         estimateMode: string := "UNSET"): (p: Result<Call, RpcError>)
    ensures p.Success? <==> estimateMode in {"UNSET", "ECONOMICAL", "CONSERVATIVE"}
    ensures p.Success? ==> p.value == Call("sendtoaddress",
      [Str(address), Str(amount), OrNull(comment), OrNull(commentTo), Bool(subtractFeeFromAmount),
       Bool(isReplaceable), Int(confTarget), Str(estimateMode)])
    ensures p.Failure? ==>
      p.error == InvalidArgument(InvalidValueMessage("Estimate mode", ["UNSET", "ECONOMICAL", "CONSERVATIVE"], estimateMode))
  {
    match CheckAllowed("Estimate mode", ESTIMATE_MODES, estimateMode)
    case Some(e) => Failure(e)
    case None =>
      Success(Call("sendtoaddress",
        [Str(address), Str(amount), OrNull(comment), OrNull(commentTo), Bool(subtractFeeFromAmount),
         Bool(isReplaceable), Int(confTarget), Str(estimateMode)]))
  }

  /** The rejections exercised by the test suite: the field, the allow-list
      and the offending value each message is built from. */
  lemma RejectionMessages()
    ensures GetBlock("hash", 4) == Failure(InvalidArgument(InvalidValueMessage("Verbosity", ["0", "1", "2"], "4")))
    ensures GetMemoryInfo("abracadabra")
      == Failure(InvalidArgument(InvalidValueMessage("Mode", ["stats", "mallocinfo"], "abracadabra")))
    ensures EstimateSmartFee(1, "abracadabra")
      == Failure(InvalidArgument(InvalidValueMessage("Mode", ["UNSET", "ECONOMICAL", "CONSERVATIVE"], "abracadabra")))
    ensures AddMultiSigAddress(2, [Str("f"), Str("f")], Some(""), Some("abracadabra"))
      == Failure(InvalidArgument(InvalidValueMessage("Account type", ["legacy", "p2sh-segwit", "bech32"], "abracadabra")))
    ensures GetNewAddress(None, Some("abracadabra"))
      == Failure(InvalidArgument(InvalidValueMessage("Address type", ["legacy", "p2sh-segwit", "bech32"], "abracadabra")))
    ensures SendToAddress("fff", "1", Some(""), Some(""), false, false, 10, "abracadabra")
      == Failure(InvalidArgument(InvalidValueMessage("Estimate mode", ["UNSET", "ECONOMICAL", "CONSERVATIVE"], "abracadabra")))
  {
    assert IntToDecimal(4) == "4";
  }
}
