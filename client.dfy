/** The client object: a transport that records what it is handed and
    answers from an oracle, and `RpcClient`, whose only mutable field is the
    one-shot request id. Each method is proved to have exactly the effect the
    pure model in module Session gives it. */
module Client {
  import opened Results
  import opened Protocol
  import opened Session
  import Validation

  /** The injected HTTP client. `answer` stands for the daemon: the reply to
      the n-th request. `sent` records every request handed over. */
  class Transport {
    const answer: Server
    var sent: seq<Request>

    constructor (answer: Server)
      ensures this.answer == answer && sent == []
    {
      this.answer := answer;
      sent := [];
    }

    method SendRequest(request: Request) returns (reply: Reply)
      modifies this
      ensures sent == old(sent) + [request]
      ensures reply == answer(|old(sent)|, request)
    {
      reply := answer(|sent|, request);
      sent := sent + [request];
    }
  }

  class RpcClient {
    const urlAndPort: string
    const http: Transport
    var requestId: Option<string>

    /** The client's observable state: the pending id and what the transport received. */
    ghost function Snapshot(): State
      reads this, http
    {
      State(requestId, http.sent)
    }

    constructor (urlAndPort: string, http: Transport)
      ensures this.urlAndPort == urlAndPort && this.http == http
      ensures requestId == None && http.sent == old(http.sent)
    {
      this.urlAndPort := urlAndPort;
      this.http := http;
      requestId := None;
    }

    /** Sets the id stamped on the next request and returns the same client. */
    method SetRequestId(id: string) returns (self: RpcClient)
      modifies this
      ensures self == this
      ensures Snapshot() == WithRequestId(old(Snapshot()), id)
    {
      requestId := Some(id);
      self := this;
    }

    /** Posts `{method, params, id}` to the endpoint; on status 200 clears the
        id and returns the body as it came, otherwise fails with the
        translated error and leaves the id alone. */
    method CallRpc(name: string, params: seq<Value> := []) returns (r: Result<string, RpcError>)
      modifies this, http
      ensures (Snapshot(), r) == Dispatch(http.answer, urlAndPort, old(Snapshot()), Call(name, params))
    {
      var request := Request(urlAndPort, Payload(name, params, requestId));
      var reply := http.SendRequest(request);
      if reply.status != HTTP_OK {
        return Failure(ConvertResponseToException(reply));
      }
      requestId := None;
      r := Success(reply.body);
    }

    method GetBestBlockHash() returns (r: Result<string, RpcError>)
      modifies this, http
      ensures (Snapshot(), r) == Dispatch(http.answer, urlAndPort, old(Snapshot()), Call("getbestblockhash", []))
    {
      r := CallRpc("getbestblockhash");
    }

    method GetBlockchainInfo() returns (r: Result<string, RpcError>)
      modifies this, http
      ensures (Snapshot(), r) == Dispatch(http.answer, urlAndPort, old(Snapshot()), Call("getblockchaininfo", []))
    {
      r := CallRpc("getblockchaininfo");
    }

    method GetBlockCount() returns (r: Result<string, RpcError>)
      modifies this, http
      ensures (Snapshot(), r) == Dispatch(http.answer, urlAndPort, old(Snapshot()), Call("getblockcount", []))
    {
      r := CallRpc("getblockcount");
    }

    method GetBlockHash(height: int) returns (r: Result<string, RpcError>)
      modifies this, http
      ensures (Snapshot(), r) == Dispatch(http.answer, urlAndPort, old(Snapshot()), Call("getblockhash", [Int(height)]))
    {
      r := CallRpc("getblockhash", [Int(height)]);
    }

    method GetBlockHeader(hash: string, verbose: bool := true) returns (r: Result<string, RpcError>)
      modifies this, http
      ensures (Snapshot(), r) == Dispatch(http.answer, urlAndPort, old(Snapshot()), Call("getblockheader", [Str(hash), Bool(verbose)]))
    {
      r := CallRpc("getblockheader", [Str(hash), Bool(verbose)]);
    }

    method GetChainTxStats(nBlock: Option<int> := None, blockHash: Option<string> := None) returns (r: Result<string, RpcError>)
      modifies this, http
      ensures (Snapshot(), r) == Dispatch(http.answer, urlAndPort, old(Snapshot()), Call("getchaintxstats", [IntOrNull(nBlock), OrNull(blockHash)]))
    {
      r := CallRpc("getchaintxstats", [IntOrNull(nBlock), OrNull(blockHash)]);
    }

    method GetDifficulty() returns (r: Result<string, RpcError>)
      modifies this, http
      ensures (Snapshot(), r) == Dispatch(http.answer, urlAndPort, old(Snapshot()), Call("getdifficulty", []))
    {
      r := CallRpc("getdifficulty");
    }

    method GetChainTips() returns (r: Result<string, RpcError>)
      modifies this, http
      ensures (Snapshot(), r) == Dispatch(http.answer, urlAndPort, old(Snapshot()), Call("getchaintips", []))
    {
      r := CallRpc("getchaintips");
    }

    method GetMempoolAncestors(txId: string, verbose: bool := false) returns (r: Result<string, RpcError>)
      modifies this, http
      ensures (Snapshot(), r) == Dispatch(http.answer, urlAndPort, old(Snapshot()), Call("getmempoolancestors", [Str(txId), Bool(verbose)]))
    {
      r := CallRpc("getmempoolancestors", [Str(txId), Bool(verbose)]);
    }

    method GetMempoolDescendants(txId: string, verbose: bool := false) returns (r: Result<string, RpcError>)
      modifies this, http
      ensures (Snapshot(), r) == Dispatch(http.answer, urlAndPort, old(Snapshot()), Call("getmempooldescendants", [Str(txId), Bool(verbose)]))
    {
      r := CallRpc("getmempooldescendants", [Str(txId), Bool(verbose)]);
    }

    method GetMempoolEntry(txId: string) returns (r: Result<string, RpcError>)
      modifies this, http
      ensures (Snapshot(), r) == Dispatch(http.answer, urlAndPort, old(Snapshot()), Call("getmempoolentry", [Str(txId)]))
    {
      r := CallRpc("getmempoolentry", [Str(txId)]);
    }

    method GetMempoolInfo() returns (r: Result<string, RpcError>)
      modifies this, http
      ensures (Snapshot(), r) == Dispatch(http.answer, urlAndPort, old(Snapshot()), Call("getmempoolinfo", []))
    {
      r := CallRpc("getmempoolinfo");
    }

    method GetRawMempool(verbose: bool := false) returns (r: Result<string, RpcError>)
      modifies this, http
      ensures (Snapshot(), r) == Dispatch(http.answer, urlAndPort, old(Snapshot()), Call("getrawmempool", [Bool(verbose)]))
    {
      r := CallRpc("getrawmempool", [Bool(verbose)]);
    }

    method GetTxOut(txId: string, n: int, includeMempool: Value := Bool(true)) returns (r: Result<string, RpcError>)
      modifies this, http
      ensures (Snapshot(), r) == Dispatch(http.answer, urlAndPort, old(Snapshot()), Call("gettxout", [Str(txId), Int(n), includeMempool]))
    {
      r := CallRpc("gettxout", [Str(txId), Int(n), includeMempool]);
    }

    method GetTxOutSetInfo() returns (r: Result<string, RpcError>)
      modifies this, http
      ensures (Snapshot(), r) == Dispatch(http.answer, urlAndPort, old(Snapshot()), Call("gettxoutsetinfo", []))
    {
      r := CallRpc("gettxoutsetinfo");
    }

    method Stop() returns (r: Result<string, RpcError>)
      modifies this, http
      ensures (Snapshot(), r) == Dispatch(http.answer, urlAndPort, old(Snapshot()), Call("stop", []))
    {
      r := CallRpc("stop");
    }

    method Uptime() returns (r: Result<string, RpcError>)
      modifies this, http
      ensures (Snapshot(), r) == Dispatch(http.answer, urlAndPort, old(Snapshot()), Call("uptime", []))
    {
      r := CallRpc("uptime");
    }

    method GetRawTransaction(txId: string, verbose: bool := false, blockHash: Option<string> := None) returns (r: Result<string, RpcError>)
      modifies this, http
      ensures (Snapshot(), r) == Dispatch(http.answer, urlAndPort, old(Snapshot()), Call("getrawtransaction", [Str(txId), Bool(verbose), OrNull(blockHash)]))
    {
      r := CallRpc("getrawtransaction", [Str(txId), Bool(verbose), OrNull(blockHash)]);
    }

    method ValidateAddress(address: string) returns (r: Result<string, RpcError>)
      modifies this, http
      ensures (Snapshot(), r) == Dispatch(http.answer, urlAndPort, old(Snapshot()), Call("validateaddress", [Str(address)]))
    {
      r := CallRpc("validateaddress", [Str(address)]);
    }

    method GetBalance(account: string := "*", minConf: int := 1, includeWatchOnly: bool := false) returns (r: Result<string, RpcError>)
      modifies this, http
      ensures (Snapshot(), r) == Dispatch(http.answer, urlAndPort, old(Snapshot()), Call("getbalance", [Str(account), Int(minConf), Bool(includeWatchOnly)]))
    {
      r := CallRpc("getbalance", [Str(account), Int(minConf), Bool(includeWatchOnly)]);
    }

    method GetReceivedByAddress(address: string, minConf: int := 1) returns (r: Result<string, RpcError>)
      modifies this, http
      ensures (Snapshot(), r) == Dispatch(http.answer, urlAndPort, old(Snapshot()), Call("getreceivedbyaddress", [Str(address), Int(minConf)]))
    {
      r := CallRpc("getreceivedbyaddress", [Str(address), Int(minConf)]);
    }

    method GetTransaction(txId: string, includeWatchOnly: bool := false) returns (r: Result<string, RpcError>)
      modifies this, http
      ensures (Snapshot(), r) == Dispatch(http.answer, urlAndPort, old(Snapshot()), Call("gettransaction", [Str(txId), Bool(includeWatchOnly)]))
    {
      r := CallRpc("gettransaction", [Str(txId), Bool(includeWatchOnly)]);
    }

    method GetUnconfirmedBalance() returns (r: Result<string, RpcError>)
      modifies this, http
      ensures (Snapshot(), r) == Dispatch(http.answer, urlAndPort, old(Snapshot()), Call("getunconfirmedbalance", []))
    {
      r := CallRpc("getunconfirmedbalance");
    }

    method GetWalletInfo() returns (r: Result<string, RpcError>)
      modifies this, http
      ensures (Snapshot(), r) == Dispatch(http.answer, urlAndPort, old(Snapshot()), Call("getwalletinfo", []))
    {
      r := CallRpc("getwalletinfo");
    }

    method ListAccounts(minConf: int := 1, includeWatchOnly: bool := false) returns (r: Result<string, RpcError>)
      modifies this, http
      ensures (Snapshot(), r) == Dispatch(http.answer, urlAndPort, old(Snapshot()), Call("listaccounts", [Int(minConf), Bool(includeWatchOnly)]))
    {
      r := CallRpc("listaccounts", [Int(minConf), Bool(includeWatchOnly)]);
    }

    method ListAddressGroupings() returns (r: Result<string, RpcError>)
      modifies this, http
      ensures (Snapshot(), r) == Dispatch(http.answer, urlAndPort, old(Snapshot()), Call("listaddressgroupings", []))
    {
      r := CallRpc("listaddressgroupings");
    }

    method ListReceivedByAccount(minConf: int := 1, includeEmpty: bool := false, includeWatchOnly: bool := false) returns (r: Result<string, RpcError>)
      modifies this, http
      ensures (Snapshot(), r) == Dispatch(http.answer, urlAndPort, old(Snapshot()), Call("listreceivedbyaccount", [Int(minConf), Bool(includeEmpty), Bool(includeWatchOnly)]))
    {
      r := CallRpc("listreceivedbyaccount", [Int(minConf), Bool(includeEmpty), Bool(includeWatchOnly)]);
    }

    method ListReceivedByAddress(minConf: int := 1, includeEmpty: bool := false, includeWatchOnly: bool := false) returns (r: Result<string, RpcError>)
      modifies this, http
      ensures (Snapshot(), r) == Dispatch(http.answer, urlAndPort, old(Snapshot()), Call("listreceivedbyaddress", [Int(minConf), Bool(includeEmpty), Bool(includeWatchOnly)]))
    {
      r := CallRpc("listreceivedbyaddress", [Int(minConf), Bool(includeEmpty), Bool(includeWatchOnly)]);
    }

    method ListSinceBlock(blockHash: Option<string> := None, targetConfirmations: int := 1, includeWatchOnly: bool := false, includeRemoved: bool := true) returns (r: Result<string, RpcError>)
      modifies this, http
      ensures (Snapshot(), r) == Dispatch(http.answer, urlAndPort, old(Snapshot()), Call("listsinceblock", [OrNull(blockHash), Int(targetConfirmations), Bool(includeWatchOnly), Bool(includeRemoved)]))
    {
      r := CallRpc("listsinceblock", [OrNull(blockHash), Int(targetConfirmations), Bool(includeWatchOnly), Bool(includeRemoved)]);
    }

    method ListTransactions(account: string := "*", count: int := 10, skip: int := 0, includeWatchOnly: bool := false) returns (r: Result<string, RpcError>)
      modifies this, http
      ensures (Snapshot(), r) == Dispatch(http.answer, urlAndPort, old(Snapshot()), Call("listtransactions", [Str(account), Int(count), Int(skip), Bool(includeWatchOnly)]))
    {
      r := CallRpc("listtransactions", [Str(account), Int(count), Int(skip), Bool(includeWatchOnly)]);
    }

    method ListWallets() returns (r: Result<string, RpcError>)
      modifies this, http
      ensures (Snapshot(), r) == Dispatch(http.answer, urlAndPort, old(Snapshot()), Call("listwallets", []))
    {
      r := CallRpc("listwallets");
    }

    method SetTxFee(amount: string) returns (r: Result<string, RpcError>)
      modifies this, http
      ensures (Snapshot(), r) == Dispatch(http.answer, urlAndPort, old(Snapshot()), Call("settxfee", [Str(amount)]))
    {
      r := CallRpc("settxfee", [Str(amount)]);
    }

    method GetBlock(blockHash: string, verbosity: int := 1) returns (r: Result<string, RpcError>)
      modifies this, http
      ensures (Snapshot(), r) == Perform(http.answer, urlAndPort, old(Snapshot()), Validation.GetBlock(blockHash, verbosity))
      ensures Validation.GetBlock(blockHash, verbosity).Failure? ==>
        r == Failure(Validation.GetBlock(blockHash, verbosity).error) && Snapshot() == old(Snapshot())
    {
      var plan := Validation.GetBlock(blockHash, verbosity);
      if plan.Failure? {
        return Failure(plan.error);
      }
      r := CallRpc(plan.value.rpcMethod, plan.value.params);
    }

    method GetMemoryInfo(mode: string := "stats") returns (r: Result<string, RpcError>)
      modifies this, http
      ensures (Snapshot(), r) == Perform(http.answer, urlAndPort, old(Snapshot()), Validation.GetMemoryInfo(mode))
      ensures Validation.GetMemoryInfo(mode).Failure? ==>
        r == Failure(Validation.GetMemoryInfo(mode).error) && Snapshot() == old(Snapshot())
    {
      var plan := Validation.GetMemoryInfo(mode);
      if plan.Failure? {
        return Failure(plan.error);
      }
      r := CallRpc(plan.value.rpcMethod, plan.value.params);
    }

    method EstimateSmartFee(confTarget: int, estimateMode: string := "CONSERVATIVE") returns (r: Result<string, RpcError>)
      modifies this, http
      ensures (Snapshot(), r) == Perform(http.answer, urlAndPort, old(Snapshot()), Validation.EstimateSmartFee(confTarget, estimateMode))
      ensures Validation.EstimateSmartFee(confTarget, estimateMode).Failure? ==>
        r == Failure(Validation.EstimateSmartFee(confTarget, estimateMode).error) && Snapshot() == old(Snapshot())
    {
      var plan := Validation.EstimateSmartFee(confTarget, estimateMode);
      if plan.Failure? {
        return Failure(plan.error);
      }
      r := CallRpc(plan.value.rpcMethod, plan.value.params);
    }

    method GetNewAddress(account: Option<string> := None, addressType: Option<string> := None) returns (r: Result<string, RpcError>)
      modifies this, http
      ensures (Snapshot(), r) == Perform(http.answer, urlAndPort, old(Snapshot()), Validation.GetNewAddress(account, addressType))
      ensures Validation.GetNewAddress(account, addressType).Failure? ==>
        r == Failure(Validation.GetNewAddress(account, addressType).error) && Snapshot() == old(Snapshot())
    {
      var plan := Validation.GetNewAddress(account, addressType);
      if plan.Failure? {
        return Failure(plan.error);
      }
      r := CallRpc(plan.value.rpcMethod, plan.value.params);
    }

    method SendToAddress(address: string, amount: string, comment: Option<string> := None, commentTo: Option<string> := None,
    subtractFeeFromAmount: bool := false, isReplaceable: bool := false, confTarget: int := 6,
    estimateMode: string := "UNSET") returns (r: Result<string, RpcError>)
      modifies this, http
      ensures (Snapshot(), r) == Perform(http.answer, urlAndPort, old(Snapshot()), Validation.SendToAddress(address, amount, comment, commentTo, subtractFeeFromAmount, isReplaceable, confTarget, estimateMode))
      ensures Validation.SendToAddress(address, amount, comment, commentTo, subtractFeeFromAmount, isReplaceable, confTarget, estimateMode).Failure? ==>
        r == Failure(Validation.SendToAddress(address, amount, comment, commentTo, subtractFeeFromAmount, isReplaceable, confTarget, estimateMode).error) && Snapshot() == old(Snapshot())
    {
      var plan := Validation.SendToAddress(address, amount, comment, commentTo, subtractFeeFromAmount, isReplaceable, confTarget, estimateMode);
      if plan.Failure? {
        return Failure(plan.error);
      }
      r := CallRpc(plan.value.rpcMethod, plan.value.params);
    }

    /** Collects the account and the account type into a parameter list, then
        replaces that list with `[nRequired, keys]` before the call, so only
        the check of the account type has an effect. */
    method AddMultiSigAddress(nRequired: int, keys: seq<Value>, account: Option<string> := None,
                              accountType: Option<string> := None) returns (r: Result<string, RpcError>)
      modifies this, http
      ensures (Snapshot(), r) ==
        Perform(http.answer, urlAndPort, old(Snapshot()), Validation.AddMultiSigAddress(nRequired, keys, account, accountType))
      ensures Validation.AddMultiSigAddress(nRequired, keys, account, accountType).Failure? ==>
        r == Failure(Validation.AddMultiSigAddress(nRequired, keys, account, accountType).error) && Snapshot() == old(Snapshot())
    {
      var params: seq<Value> := [];
      if account.Some? {
        params := params + [Str(account.value)];
      }
      if accountType.Some? {
        if accountType.value !in Validation.ADDRESS_TYPES {
          return Failure(InvalidArgument(
            Validation.InvalidValueMessage("Account type", Validation.ADDRESS_TYPES, accountType.value)));
        }
        params := params + [Str(accountType.value)];
      }
      params := [Int(nRequired), List(keys)];
      r := CallRpc("addmultisigaddress", params);
    }
  }
}
