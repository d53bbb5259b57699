# php-coin-core RPC client, modelled in Dafny

`php-coin-core` exposes the JSON-RPC interface of a cryptocurrency full node
as typed PHP methods. Its decision logic sits in one class, `RpcClient`,
together with the `Configuration` value it is built from. That logic has
four parts.

- **The dispatcher** (`callRpc`) posts `{method, params, id}` to the
  configured endpoint. It returns the reply body unchanged on HTTP 200.
  On any other status it throws the translated error.
- **The one-shot request id.** `setRequestId` sets the id. The dispatcher
  stamps it on every request and clears it after a status-200 reply. After a
  failed reply the id stays set.
- **The error translator** (`convertResponseToException`). It maps 401 to
  invalid credentials and 404 to not found. It maps 500 to a server error
  carrying the daemon's `error.message`.
- **The wrappers.** Each one builds the positional parameter list of one RPC
  method, with nulls kept. Six of them first check an enumerated argument
  against a fixed, ordered allow-list. On a bad value they throw before any
  request, and the message names the field, the comma-joined allow-list and
  the value.

The model has seven modules, one per concern:

- `Results`: `Option` stands for PHP nulls. `Result` stands for a value or
  the exception thrown instead.
- `Text`: PHP's printing of integers, `implode` with its inverse, and
  character search.
- `Config`: `Configuration` as an immutable datatype, with the derived
  `host:port` endpoint.
- `Protocol`: parameter values, the request, the HTTP reply and the failure
  taxonomy. It also holds the error translator and the 200/non-200 split.
- `Session`: the client's observable state as a value. That state is the
  pending id and the requests handed to the transport. The module defines
  what one call (`Dispatch`), one validated wrapper call (`Perform`) and a
  run of calls (`Run`) do to that state, with the lemmas about them.
- `Validation`: the allow-lists, the message format, and each validating
  wrapper as a function from its arguments to the call it makes or the
  failure it raises.
- `Client`: the stateful part. `Transport` stands for the injected HTTP
  client: it records each request and answers from an oracle. In
  `RpcClient` the only mutable field is `requestId`. `setRequestId`,
  `callRpc` and each of the 38 wrappers are methods of that class, each
  proved to have exactly the effect `Session` gives it.

The HTTP transport is a parameter of the model. It is the oracle
`answer(n, request)`: the reply the daemon gives to the n-th request. JSON
decoding is also outside the model. A reply carries its raw body and, as a
separate field, what decoding that body yields at `error.message`.

Three points where the code does something other than a reader might expect:

- **Statuses other than 200, 401, 404 and 500.** The source's `switch` has
  no case for them and no return after it, so
  PHP raises a type error for the missing return value rather than a
  library exception. The model makes this its own outcome,
  `UnmappedStatus(status)`, which keeps the status.
- **`addMultiSigAddress`.** It checks a non-null account type, but line 454
  replaces the parameter list. The request therefore always carries exactly
  `[nRequired, keys]`.
- **Allow-lists.** They are ordered PHP arrays, not sets. `in_array` compares
  loosely, but every string allow-list entry is non-numeric and verbosity is
  an `int` compared with ints. The check is therefore exact membership.

## Model

| member | source | states |
|---|---|---|
| `Text.NatToDecimal` | src/CoinCore/Configuration.php:88 | the decimal text of a natural number is at least one digit, all digits, with a leading '0' exactly for zero, and zero prints as exactly "0" |
| `Text.IntToDecimal` | src/CoinCore/Client/RpcClient.php:92-96 | PHP's text of an integer is in canonical form (digits with an optional '-', no leading zero, never "-0") and starts with '-' exactly when the integer is negative |
| `Text.ParseNatToDecimal` | src/CoinCore/Configuration.php:88 | parsing the digits of a natural number gives the number back |
| `Text.DecimalRoundTrip` | src/CoinCore/Client/RpcClient.php:92-96 | parsing the printed text of any integer gives the integer back |
| `Text.DecimalInjective` | src/CoinCore/Client/RpcClient.php:90-96 | two integers print the same exactly when they are equal, so the printed verbosity identifies the rejected value |
| `Text.DecimalHasNo` | src/CoinCore/Configuration.php:88 | a printed integer contains no character other than digits and '-' (in particular no ':') |
| `Text.IndexOf` | src/CoinCore/Client/RpcClient.php:94 | reference definition (not a model of the cited line) used to split the result of `implode` back: the first position of a character: none exactly when it is absent, otherwise a position holding it with none before |
| `Text.LastIndexOf` | src/CoinCore/Configuration.php:88 | reference definition (not a model of the cited line) used to split the endpoint back at its last ':': the last position of a character: none exactly when it is absent, otherwise a position holding it with none after |
| `Text.IndexAfterPrefix` | src/CoinCore/Client/RpcClient.php:94 | proof step for the inverse of `implode` (not a model of the cited line): a separator put after a text free of it is the first occurrence in the result |
| `Text.LastIndexAfterPrefix` | src/CoinCore/Configuration.php:88 | proof step for the endpoint split (not a model of the cited line): a separator put before a text free of it is the last occurrence in the result |
| `Text.Split` | src/CoinCore/Client/RpcClient.php:94 | reference inverse of `implode` used to state its round trips (not a model of the cited line): at least one piece, none containing the separator |
| `Text.Join` | src/CoinCore/Client/RpcClient.php:94 | `implode` of a non-empty list starts with its first item |
| `Text.JoinSeparatorCount` | src/CoinCore/Client/RpcClient.php:94 | `implode` of separator-free items holds exactly one separator fewer than there are items (none for an empty list) |
| `Text.SplitJoin` | src/CoinCore/Client/RpcClient.php:94 | joining a non-empty list of separator-free items with ',' and splitting again gives the same list in the same order |
| `Text.JoinSplit` | src/CoinCore/Client/RpcClient.php:94 | splitting any text and joining the pieces gives the text back |
| `Config.GettersReturnConstructorArguments` | src/CoinCore/Configuration.php:35-81 | each of the four getters returns exactly the value the configuration was built with |
| `Config.Configuration.GetUrlAndPort` | src/CoinCore/Configuration.php:86-89 | the endpoint starts with the url, then one ':', then the port in canonical decimal form (no leading zero, never "-0"), which parses back to the port |
| `Config.EndpointRoundTrip` | src/CoinCore/Configuration.php:86-89 | splitting the endpoint at its last ':' gives back the url and the port, whatever ':' the url itself contains |
| `Config.OneSeparatorInserted` | src/CoinCore/Configuration.php:88 | the endpoint holds exactly one ':' more than the url |
| `Protocol.ConvertResponseToException` | src/CoinCore/Client/RpcClient.php:810-822 | 401 gives InvalidCredentials and 404 ResourceNotFound, whatever the body; 500 gives ServerError carrying the decoded `error.message`, or UndecodableServerError when there is none; every other status gives UnmappedStatus with that status (each in both directions) |
| `Protocol.TranslationKeepsStatus` | src/CoinCore/Client/RpcClient.php:810-822 | the status can be read back from every translated failure |
| `Protocol.TranslationIgnoresBodyUnless500` | src/CoinCore/Client/RpcClient.php:812-820 | two replies with the same status other than 500 translate to the same failure whatever their bodies |
| `Protocol.Outcome` | src/CoinCore/Client/RpcClient.php:801-807 | a reply yields its body unchanged exactly when the status is 200, otherwise a failure that keeps the status |
| `Protocol.ServerMessageIsCarried` | src/CoinCore/Client/RpcClient.php:813-816 | a 500 reply whose body decodes to `error.message` "Server message" fails with ServerError("Server message") |
| `Session.WithRequestId` | src/CoinCore/Client/RpcClient.php:55-60 | setting the id makes it pending and leaves the requests sent so far alone |
| `Session.Dispatch` | src/CoinCore/Client/RpcClient.php:791-808 | one call appends exactly the stamped request to what was sent; it succeeds exactly when the server answers 200, then clearing the id, and otherwise keeps the id |
| `Session.Perform` | src/CoinCore/Client/RpcClient.php:89-100 | a rejected plan returns its own failure and leaves the state unchanged; an accepted one appends exactly its request |
| `Session.DispatchSendsOneRequest` | src/CoinCore/Client/RpcClient.php:791-799 | each call hands exactly one request to the transport, after the earlier ones, carrying the method, the parameters as given (nulls kept) and the id pending before the call |
| `Session.DispatchOutcome` | src/CoinCore/Client/RpcClient.php:801-807 | the call succeeds exactly on status 200, then with the body verbatim and the id cleared; otherwise it fails with the translated error and the id is kept |
| `Session.RejectedPlanSendsNothing` | src/CoinCore/Client/RpcClient.php:89-98 | a wrapper whose parameter check fails returns that failure and leaves the id and the transport untouched |
| `Session.RequestIdIsOneShot` | src/CoinCore/Client/RpcClient.php:55-60 | an id set before a successful call is stamped on that request, and the following call carries none |
| `Session.RetryAfterFailureResendsRequest` | src/CoinCore/Client/RpcClient.php:801-803 | after a failed call the id survives, so repeating the call sends the identical request |
| `Session.OnlyAcceptedPlansAreSent` | src/CoinCore/Client/RpcClient.php:89-100 | over any sequence of wrapper calls the transport receives exactly the calls that passed validation, in order, each posted to the endpoint with that call's method and parameters, and nothing for the others; earlier requests stay as they were and every call gets one result |
| `Session.RejectedPlansFailLocally` | src/CoinCore/Client/RpcClient.php:89-98 | in any sequence of calls a rejected call fails with its own validation error, whatever the server answers |
| `Session.ListAddressGroupingsAsWritten` | src/CoinCore/Client/RpcClient.php:605-608 | as written the call never yields a value: it always fails, with the missing-return-value error exactly when the server answered 200, and it still sends one request |
| `Session.ListAddressGroupingsLosesBody` | src/CoinCore/Client/RpcClient.php:605-608 | as written, a status-200 reply consumes the id yet the caller gets no value, while dispatching and returning yields the body |
| `Validation.InvalidValueMessage` | src/CoinCore/Client/RpcClient.php:91-97 | the rejection message starts with the field name and ends with the rejected value |
| `Validation.CheckAllowed` | src/CoinCore/Client/RpcClient.php:309-318 | the check passes exactly when the value is in the allow-list |
| `Validation.ShowAllParsesBack` | src/CoinCore/Client/RpcClient.php:89-96 | each printed verbosity level is a canonical decimal text with no ',' that parses back to that level, one per level and in the same order, so the joined list can be split and read back |
| `Validation.MessageListsAllowedInOrder` | src/CoinCore/Client/RpcClient.php:312-316 | the message is the field's prefix, then text that splits on ',' back into the allow-list in declared order, then ", actual: " and the value |
| `Validation.JoinedVerbosityLevels` | src/CoinCore/Client/RpcClient.php:89-94 | the verbosity allow-list prints as "0,1,2" |
| `Validation.JoinedMemoryInfoModes` | src/CoinCore/Client/RpcClient.php:309-314 | the memory-info modes print as "stats,mallocinfo" |
| `Validation.JoinedEstimateModes` | src/CoinCore/Client/RpcClient.php:390-395 | the estimate modes print as "UNSET,ECONOMICAL,CONSERVATIVE" |
| `Validation.JoinedAddressTypes` | src/CoinCore/Client/RpcClient.php:442-447 | the address types print as "legacy,p2sh-segwit,bech32" |
| `Validation.GetBlock` | src/CoinCore/Client/RpcClient.php:87-101 | fails exactly when verbosity is not 0, 1 or 2, with the "Verbosity" message naming 0,1,2 and the printed value; otherwise calls `getblock` with `[blockHash, verbosity]` |
| `Validation.GetMemoryInfo` | src/CoinCore/Client/RpcClient.php:307-321 | fails exactly when the mode is not "stats" or "mallocinfo", with the "Mode" message; otherwise calls `getmemoryinfo` with `[mode]` |
| `Validation.EstimateSmartFee` | src/CoinCore/Client/RpcClient.php:388-402 | fails exactly when the mode is not UNSET, ECONOMICAL or CONSERVATIVE, with the "Mode" message; otherwise calls `estimatesmartfee` with `[confTarget, estimateMode]` |
| `Validation.AddMultiSigAddress` | src/CoinCore/Client/RpcClient.php:435-457 | fails exactly when a non-null account type is outside legacy, p2sh-segwit, bech32, with the "Account type" message; otherwise calls `addmultisigaddress` with exactly `[nRequired, keys]`, the account and account type dropped |
| `Validation.GetNewAddress` | src/CoinCore/Client/RpcClient.php:507-523 | a null address type is never rejected, a non-null one exactly when outside legacy, p2sh-segwit, bech32, with the "Address type" message; otherwise the call is the two-element `[account, addressType]`, nulls kept |
| `Validation.SendToAddress` | src/CoinCore/Client/RpcClient.php:730-755 | fails exactly when the estimate mode is outside UNSET, ECONOMICAL, CONSERVATIVE, with the "Estimate mode" message; otherwise sends all eight arguments in order, nulls kept |
| `Validation.RejectionMessages` | tests/Client/RpcClientTest.php:38-120 | the six rejections the tests exercise (verbosity 4, "abracadabra" elsewhere) fail with the message built from the expected field, allow-list and value |
| `Client.Transport.constructor` | src/CoinCore/Client/RpcClient.php:40-47 | a fresh transport has received nothing and answers with the given oracle |
| `Client.Transport.SendRequest` | src/CoinCore/Client/RpcClient.php:799 | records the request after the earlier ones and returns the oracle's reply for that position |
| `Client.RpcClient.constructor` | src/CoinCore/Client/RpcClient.php:40-48 | a new client posts to the given endpoint through the given transport and has no request id |
| `Client.RpcClient.SetRequestId` | src/CoinCore/Client/RpcClient.php:55-60 | sets the pending id to the given one, changes nothing else and returns the same client |
| `Client.RpcClient.CallRpc` | src/CoinCore/Client/RpcClient.php:791-808 | has exactly the effect of `Session.Dispatch` on the client's id and the transport's record, and returns its result |
| `Client.RpcClient.AddMultiSigAddress` | src/CoinCore/Client/RpcClient.php:435-457 | builds and then overwrites its parameter list as the source does, with exactly the effect of performing `Validation.AddMultiSigAddress` |
| `Client.RpcClient.GetBlock` | src/CoinCore/Client/RpcClient.php:87-101 | a rejected value returns the failure with no request sent and the id unchanged; an accepted one dispatches the call `Validation.GetBlock` builds |
| `Client.RpcClient.GetMemoryInfo` | src/CoinCore/Client/RpcClient.php:307-321 | a rejected value returns the failure with no request sent and the id unchanged; an accepted one dispatches the call `Validation.GetMemoryInfo` builds |
| `Client.RpcClient.EstimateSmartFee` | src/CoinCore/Client/RpcClient.php:388-402 | a rejected value returns the failure with no request sent and the id unchanged; an accepted one dispatches the call `Validation.EstimateSmartFee` builds |
| `Client.RpcClient.GetNewAddress` | src/CoinCore/Client/RpcClient.php:507-523 | a rejected value returns the failure with no request sent and the id unchanged; an accepted one dispatches the call `Validation.GetNewAddress` builds |
| `Client.RpcClient.SendToAddress` | src/CoinCore/Client/RpcClient.php:730-755 | a rejected value returns the failure with no request sent and the id unchanged; an accepted one dispatches the call `Validation.SendToAddress` builds |
| `Client.RpcClient.GetBestBlockHash` | src/CoinCore/Client/RpcClient.php:69-72 | dispatches `getbestblockhash` with no parameters; the effect on the id and the transport is exactly `Session.Dispatch`'s |
| `Client.RpcClient.GetBlockchainInfo` | src/CoinCore/Client/RpcClient.php:110-113 | dispatches `getblockchaininfo` with no parameters; the effect on the id and the transport is exactly `Session.Dispatch`'s |
| `Client.RpcClient.GetBlockCount` | src/CoinCore/Client/RpcClient.php:122-125 | dispatches `getblockcount` with no parameters; the effect on the id and the transport is exactly `Session.Dispatch`'s |
| `Client.RpcClient.GetBlockHash` | src/CoinCore/Client/RpcClient.php:136-139 | dispatches `getblockhash` with `[height]`; the effect on the id and the transport is exactly `Session.Dispatch`'s |
| `Client.RpcClient.GetBlockHeader` | src/CoinCore/Client/RpcClient.php:152-155 | dispatches `getblockheader` with `[hash, verbose]`, verbose defaulting to true; the effect on the id and the transport is exactly `Session.Dispatch`'s |
| `Client.RpcClient.GetChainTxStats` | src/CoinCore/Client/RpcClient.php:167-170 | dispatches `getchaintxstats` with `[nBlock, blockHash]`, nulls kept; the effect on the id and the transport is exactly `Session.Dispatch`'s |
| `Client.RpcClient.GetDifficulty` | src/CoinCore/Client/RpcClient.php:179-182 | dispatches `getdifficulty` with no parameters; the effect on the id and the transport is exactly `Session.Dispatch`'s |
| `Client.RpcClient.GetChainTips` | src/CoinCore/Client/RpcClient.php:191-194 | dispatches `getchaintips` with no parameters; the effect on the id and the transport is exactly `Session.Dispatch`'s |
| `Client.RpcClient.GetMempoolAncestors` | src/CoinCore/Client/RpcClient.php:206-209 | dispatches `getmempoolancestors` with `[txId, verbose]`; the effect on the id and the transport is exactly `Session.Dispatch`'s |
| `Client.RpcClient.GetMempoolDescendants` | src/CoinCore/Client/RpcClient.php:221-224 | dispatches `getmempooldescendants` with `[txId, verbose]`; the effect on the id and the transport is exactly `Session.Dispatch`'s |
| `Client.RpcClient.GetMempoolEntry` | src/CoinCore/Client/RpcClient.php:235-238 | dispatches `getmempoolentry` with `[txId]`; the effect on the id and the transport is exactly `Session.Dispatch`'s |
| `Client.RpcClient.GetMempoolInfo` | src/CoinCore/Client/RpcClient.php:247-250 | dispatches `getmempoolinfo` with no parameters; the effect on the id and the transport is exactly `Session.Dispatch`'s |
| `Client.RpcClient.GetRawMempool` | src/CoinCore/Client/RpcClient.php:263-266 | dispatches `getrawmempool` with `[verbose]`; the effect on the id and the transport is exactly `Session.Dispatch`'s |
| `Client.RpcClient.GetTxOut` | src/CoinCore/Client/RpcClient.php:280-283 | dispatches `gettxout` with `[txId, n, includeMempool]`; the effect on the id and the transport is exactly `Session.Dispatch`'s |
| `Client.RpcClient.GetTxOutSetInfo` | src/CoinCore/Client/RpcClient.php:293-296 | dispatches `gettxoutsetinfo` with no parameters; the effect on the id and the transport is exactly `Session.Dispatch`'s |
| `Client.RpcClient.Stop` | src/CoinCore/Client/RpcClient.php:330-333 | dispatches `stop` with no parameters; the effect on the id and the transport is exactly `Session.Dispatch`'s |
| `Client.RpcClient.Uptime` | src/CoinCore/Client/RpcClient.php:342-345 | dispatches `uptime` with no parameters; the effect on the id and the transport is exactly `Session.Dispatch`'s |
| `Client.RpcClient.GetRawTransaction` | src/CoinCore/Client/RpcClient.php:362-365 | dispatches `getrawtransaction` with `[txId, verbose, blockHash]`, nulls kept; the effect on the id and the transport is exactly `Session.Dispatch`'s |
| `Client.RpcClient.ValidateAddress` | src/CoinCore/Client/RpcClient.php:413-416 | dispatches `validateaddress` with `[address]`; the effect on the id and the transport is exactly `Session.Dispatch`'s |
| `Client.RpcClient.GetBalance` | src/CoinCore/Client/RpcClient.php:486-489 | dispatches `getbalance` with `[account, minConf, includeWatchOnly]`, account defaulting to "*"; the effect on the id and the transport is exactly `Session.Dispatch`'s |
| `Client.RpcClient.GetReceivedByAddress` | src/CoinCore/Client/RpcClient.php:535-538 | dispatches `getreceivedbyaddress` with `[address, minConf]`; the effect on the id and the transport is exactly `Session.Dispatch`'s |
| `Client.RpcClient.GetTransaction` | src/CoinCore/Client/RpcClient.php:550-553 | dispatches `gettransaction` with `[txId, includeWatchonly]`; the effect on the id and the transport is exactly `Session.Dispatch`'s |
| `Client.RpcClient.GetUnconfirmedBalance` | src/CoinCore/Client/RpcClient.php:562-565 | dispatches `getunconfirmedbalance` with no parameters; the effect on the id and the transport is exactly `Session.Dispatch`'s |
| `Client.RpcClient.GetWalletInfo` | src/CoinCore/Client/RpcClient.php:574-577 | dispatches `getwalletinfo` with no parameters; the effect on the id and the transport is exactly `Session.Dispatch`'s |
| `Client.RpcClient.ListAccounts` | src/CoinCore/Client/RpcClient.php:591-594 | dispatches `listaccounts` with `[minConf, includeWatchOnly]`; the effect on the id and the transport is exactly `Session.Dispatch`'s |
| `Client.RpcClient.ListAddressGroupings` | src/CoinCore/Client/RpcClient.php:605-608 | dispatches `listaddressgroupings` with no parameters and returns the dispatch result (the corrected behaviour, see Findings); the effect on the id and the transport is exactly `Session.Dispatch`'s |
| `Client.RpcClient.ListReceivedByAccount` | src/CoinCore/Client/RpcClient.php:623-629 | dispatches `listreceivedbyaccount` with `[minConf, includeEmpty, includeWatchonly]`; the effect on the id and the transport is exactly `Session.Dispatch`'s |
| `Client.RpcClient.ListReceivedByAddress` | src/CoinCore/Client/RpcClient.php:642-648 | dispatches `listreceivedbyaddress` with `[minConf, includeEmpty, includeWatchonly]`; the effect on the id and the transport is exactly `Session.Dispatch`'s |
| `Client.RpcClient.ListSinceBlock` | src/CoinCore/Client/RpcClient.php:669-676 | dispatches `listsinceblock` with `[blockHash, targetConfirmations, includeWatchonly, includeRemoved]`, nulls kept; the effect on the id and the transport is exactly `Session.Dispatch`'s |
| `Client.RpcClient.ListTransactions` | src/CoinCore/Client/RpcClient.php:696-703 | dispatches `listtransactions` with `[account, count, skip, includeWatchOnly]`; the effect on the id and the transport is exactly `Session.Dispatch`'s |
| `Client.RpcClient.ListWallets` | src/CoinCore/Client/RpcClient.php:764-767 | dispatches `listwallets` with no parameters; the effect on the id and the transport is exactly `Session.Dispatch`'s |
| `Client.RpcClient.SetTxFee` | src/CoinCore/Client/RpcClient.php:778-781 | dispatches `settxfee` with `[amount]`; the effect on the id and the transport is exactly `Session.Dispatch`'s |

## Left out

- The HTTP transport and the discovery of a request factory
  (src/CoinCore/Client/RpcClient.php:47, 793-799) are not modelled. The
  transport is the `answer` oracle.
- Exceptions raised by the transport itself are not modelled. The source
  lets them propagate untouched.
- JSON encoding of the request (line 797) is not modelled. The request is
  the datatype `Payload(rpcMethod, params, id)`.
- JSON decoding of a 500 body (line 814) is not modelled. The reply carries
  the decoded `error.message` as an option.
- A 500 body with no `error.message` becomes `UndecodableServerError`. What
  PHP does in that case depends on `json_decode` and on the exception
  classes, and the exception classes (`CoinCoreException`, `ServerException`,
  ...) are not part of this model.
- src/CoinCore/Client/ClientFactory.php is not modelled. It only puts
  together objects from external HTTP libraries: client discovery, basic
  authentication and the plugin client.
- Concurrency is not modelled. The model is single-threaded, as the client
  is used.
- PHP integers are 64-bit, but the model uses unbounded integers. No wrapper
  does arithmetic, so nothing can wrap around.
- PHP's type checks of arguments under `strict_types` are not modelled.
  Dafny's types play their role. The untyped `$includeMempool` of `getTxOut`
  is any `Value`, and the `array $keys` of `addMultiSigAddress` is a `List`
  value.
- tests/Client/RpcClientTest.php:20-32 never sets an id: its canned 200 body
  already holds one. What it shows is that a 200 body comes back verbatim
  (`Session.DispatchOutcome`). Whether a daemon echoes the id is up to the
  daemon, here the `answer` oracle; the model proves that the request
  carries the pending id (`Session.DispatchSendsOneRequest`).
- Return values of PHP methods with no declared return type
  (`getRawTransaction`, `addMultiSigAddress`) are treated like the others:
  the dispatch result.

## Findings

| source | as written | input that shows it | evidently intended | confidence | as-written member | corrected member |
|---|---|---|---|---|---|---|
| src/CoinCore/Client/RpcClient.php:605-608 | `listAddressGroupings` calls the dispatcher but returns nothing although it is declared `: string`, so a successful call ends in a missing-return-value error after the id was cleared | any status-200 reply to `listaddressgroupings` | return the dispatch result, as every other wrapper does | not executed | `Session.ListAddressGroupingsAsWritten` (shown by `Session.ListAddressGroupingsLosesBody`) | `Client.RpcClient.ListAddressGroupings` |
