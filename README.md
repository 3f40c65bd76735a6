# GateHub ledger plugin — a Dafny model

This project models the core of the GateHub interledger ledger plugin. The
plugin adapts GateHub's REST and notification services to the
interledger ledger-plugin interface. It has four parts, each a module here:

- **Account** (`account.dfy`): the address type. It parses
  `gateway_uuid.vault_uuid.user_uuid.wallet_address` strings and projects
  their parts.
- **TransferEvents** (`transfer_events.dfy`): how a transfer notification
  becomes lifecycle events. The notification is normalised into a transfer
  record, oriented as incoming or outgoing relative to the plugin's wallet,
  and mapped by its state onto `<direction>_prepare`, `_transfer`,
  `_fulfill` and `_cancel`.
- **Plugin** (`plugin.dfy`): the plugin object. This covers the checks on
  its options, the `connected` flag and the info cache, the handlers it
  registers on the gateway, and its verbs (`getInfo`, `getAccount`,
  `getBalance`, `sendTransfer`, `sendMessage`, `getFulfillment`,
  `fulfillCondition`, `rejectIncomingTransfer`).
- **GatehubInternal** and **GatehubLegacy** (`gatehub_internal.dfy`,
  `gatehub_legacy.dfy`): the two gateways. Each has a socket connection
  with a request counter, a frame classifier, `disconnect`, `subscribe`,
  `sendWs` and REST requests.

Two support modules fill in the rest:

- **Js** (`js.dfy`): the JavaScript semantics the code relies on. That is
  JSON-like values, truthiness, property access that throws on
  null/undefined, template-literal conversion, loose equality against a
  string, `Number()` of a decimal string, and `split`/`join`.
- **Transport** (`transport.dfy`): what the gateways exchange with the
  socket, reconnect and HTTP libraries. It also holds the invariant of the
  request counter.

State the source updates in place is a class with those fields:

- the plugin's `connected`, `infoCache` and emitted events;
- each gateway's `connected`, `ws`, `connection`, `requestId` and stored
  account, plus the frames it writes;
- each reconnecting emitter's `reconnect` flag, its socket, and the promise
  of the `connect()` call that made it, which its handlers settle.

The sockets, the reconnect library and HTTP are outside the model. Their
callbacks are the `On...` methods, and the replies they deliver are
parameters. Each plugin verb returns the gateway call it issues, which is
one of the `GatewayCall` values. `GatehubInternal.RestRequest` gives the
REST request the internal gateway makes for that call.

Where the code and its documentation disagree, the model follows the code:

- A field is "present" when it is truthy. An empty-string fulfilment counts
  as absent.
- An executed transfer that has a condition and no fulfilment emits
  nothing.
- The plugin is wired to the internal gateway. The repository's test files mock
  the legacy gateway and are stale in other ways: they pass account objects that the
  address check refuses, and they expect account strings the code does not
  build. They are used only as evidence of which events fire for which
  state.

## Model

| member | source | states |
|---|---|---|
| Account.Parse | Account.js:5-15 | A non-string is refused with the "should be string" message. A string is accepted exactly when it splits on '.' into at least four parts; otherwise it is refused with the format message naming it. An accepted address keeps the raw string. |
| Account.FourSegmentsAccepted | Account.js:11-23 | Four dot-free segments, empty ones included, are accepted and come back as gateway, vault, user and wallet. |
| Account.EmptySegmentsAccepted | Account.js:11-15 | "..." is accepted, with an empty wallet. |
| Account.FewSegmentsRejected | Account.js:13-15 | One to three segments are refused with the format error. |
| Account.ToStringRoundTrip | Account.js:18-30 | Re-parsing `toString()` gives the same address, with identical accessors. |
| Account.ExtraPartsIgnored | Account.js:19-26 | Two addresses that agree on their first four parts agree on every accessor. |
| Account.AddressLayout | Account.js:11-24 | With exactly four parts, account + "." + wallet is the address. With more, the remaining parts follow it. |
| Account.PrefixBeginsAddress | Account.js:19-26 | The prefix is ledger + ".", ends in '.', and begins the address. |
| Account.Address.Gateway | Account.js:20 | The gateway uuid is the text of the address before its first '.'. |
| Account.Address.Vault | Account.js:21 | The vault uuid is a whole part: it holds no '.'. Which part it is, is fixed by FourSegmentsAccepted. |
| Account.Address.User | Account.js:22 | The user uuid is a whole part: it holds no '.'. |
| Account.Address.Wallet | Account.js:23 | The wallet address is a whole part: it holds no '.'. |
| Account.Address.Ledger | Account.js:19 | The ledger splits back on '.' into exactly the first two parts of the address. |
| Account.Address.AccountName | Account.js:24 | The account name splits back on '.' into exactly the first three parts. |
| Account.Address.Prefix | Account.js:26 | The prefix ends in '.'; PrefixBeginsAddress shows it begins the address. |
| Account.Address.ToString | Account.js:28-30 | `toString()` splits into the same parts as the address it came from. |
| TransferEvents.Orient | index.js:68-85 | Incoming exactly when the receiving address loosely equals the wallet; outgoing exactly when it does not and the sending address does; otherwise neither. |
| TransferEvents.SelfTransferIsIncoming | index.js:68-76 | A transfer from the wallet to itself is incoming only, with the wallet as counterparty. |
| TransferEvents.OmitNil | index.js:57-66 | `omitBy(isNil)` keeps a key exactly when its value is not null or undefined, and keeps that value. |
| TransferEvents.TransferRecord | index.js:57-83 | The record is an object: the common fields plus the direction and the counterparty's account. |
| TransferEvents.RecordOmitsNil | index.js:57-66 | Each renamed field (id←uuid, noteToSelf←note, executionCondition←execution_condition, …) is in the record exactly when its gatehub source is not nil, with the source's value. |
| TransferEvents.RecordFixedFields | index.js:57-83 | The record always has ledger = prefix, the direction, and account = own account + "." + the counterparty's address. |
| TransferEvents.RecordKeys | index.js:57-83 | The record has no key beyond the renamed ones, ledger, direction and account. |
| TransferEvents.RecordCondition | index.js:63-93 | The record's executionCondition is truthy exactly when the gatehub execution_condition is. |
| TransferEvents.Emitted | index.js:88-109 | Every event of the decision table is `_prepare`, `_transfer`, `_fulfill` or `_cancel` of the direction given. |
| TransferEvents.NotificationEvents | index.js:54-86 | A missing message or missing data throws a TypeError, and only then. A transfer not involving the wallet gives no event. An incoming or outgoing one gives exactly the decision-table events of its direction for its record: at most two, each carrying the record first. |
| TransferEvents.EmittedNonEmptyOnlyInLifecycle | index.js:88-109 | The rules give at most two events, only in the states prepared, executed and rejected, each with the record as first argument. |
| TransferEvents.PreparedEmitsPrepare | index.js:89-92 | A prepared transfer gives exactly one `_prepare`. |
| TransferEvents.ExecutedRules | index.js:93-100 | An executed transfer gives `_transfer` exactly when it has no execution condition, and `_fulfill` with the fulfilment exactly when it has one; both may fire, in that order. |
| TransferEvents.RejectedEmitsOneCancel | index.js:101-108 | A rejected transfer gives exactly one `_cancel`: with its cancellation fulfilment if truthy, else "transfer timed out.". |
| TransferEvents.OtherStatesSilent | index.js:88-109 | Any other state gives no event. |
| TransferEvents.ExecutedNeitherFires | index.js:93-100 | An executed transfer with a condition and no fulfilment gives no event at all. |
| TransferEvents.ReceivedNotification | index.js:54-76 | A notification received by the wallet gives the incoming events of its record. |
| TransferEvents.ExecutedIncomingFiresBoth | index.js:54-100 | An executed incoming transfer with a fulfilment and no condition gives `incoming_transfer` and then `incoming_fulfill`, naming the sender's account. |
| Plugin.Configure | index.js:19-43 | Options are refused in order: not an object (null fails on `.urls` instead), then a falsy URL, then a bad account. The local gateway is chosen exactly when `gateway` is the string "local" and `services` is truthy. |
| Plugin.StringUrlsRejected | index.js:25-27 | A string given as `urls` is truthy but has none of the URL keys, so it is refused. |
| Plugin.IncomingMessage | index.js:46-51 | A missing message throws; otherwise the result is an object. |
| Plugin.IncomingMessageField | index.js:46-51 | Each key of `incoming_message` comes from `data` when data has it; otherwise ledger = prefix and account = prefix + the sender's account. |
| Plugin.InfoView | index.js:176-183 | `getInfo` reports exactly the six keys prefix, precision, scale, currencyCode, currencySymbol and connectors. |
| Plugin.InfoViewField | index.js:176-183 | Each reported key is the cached field it is renamed from, undefined ones included. |
| Plugin.InfoViewCurrency | index.js:180-181 | currencyCode is currency_name and currencySymbol is currency_symbol. |
| Plugin.FirstInVault | index.js:201 | The filter throws exactly when some entry or its vault is nil. Otherwise it gives the first entry whose vault uuid loosely equals the account's vault, or none when no entry matches. |
| Plugin.SelectBalance | index.js:200-206 | The balance is only reported when every entry is inspectable and some entry is in the vault; every other case is a TypeError. |
| Plugin.FirstEntryWins | index.js:201-202 | The first entry in the vault decides the balance: its truthy `available`, else "0". |
| Plugin.CheckTransfer | index.js:209-222 | A transfer is refused in this order: missing transfer, non-string account, non-string or non-positive amount, bad address. An accepted transfer gives the receiver whose address is the account. |
| Plugin.AmountSigns | index.js:218 | For decimal strings, a negative amount and zero are refused, and a positive whole amount passes. |
| Plugin.NaNAmountPasses | index.js:218 | An amount that is not a number passes the amount check. |
| Plugin.TransferBody | index.js:224-235 | The body has exactly the four party keys and the six copied keys. sending_user_uuid, sending_address and vault_uuid come from the plugin's own address; receiving_address is the receiver's wallet. |
| Plugin.TransferBodyCopies | index.js:225-234 | uuid, amount, data, note, condition and expires_at are the transfer's id, amount, data, noteToSelf, executionCondition and expiresAt. |
| Plugin.EchoedFields | index.js:224-235 | Against the renaming at index.js:57-66: id, amount, data, noteToSelf and expiresAt survive a send and a notification back under their own names. The two conditions do not. |
| Plugin.SentTransferEchoes | index.js:224-235 | Against the notification rules at index.js:57-85: a posted body notified back to a different wallet is outgoing, names the receiver's account, and gives back each echoed field the transfer had. |
| Plugin.SelfPaymentEchoesIncoming | index.js:224-235 | Against the orientation at index.js:69-76: a posted body paying the plugin's own wallet comes back as incoming. |
| Plugin.OutgoingMessage | index.js:241-251 | A missing message throws and a bad account is refused. Otherwise the message keeps every other key, gains `to` = its account and `from` = the plugin's address. |
| Plugin.FulfillmentOf | index.js:260-273 | A missing transfer throws. Otherwise it succeeds exactly when there is a truthy execution fulfilment, returning it. Failing that, a truthy cancellation fulfilment gives AlreadyRolledBack "transfer … wont be fulfilled", and anything else gives MissingFulfillment "transfer … not yet fulfilled". |
| Plugin.FulfilmentBeatsCancellation | index.js:264-268 | A fulfilled transfer reports its fulfilment even when it also has a cancellation fulfilment. |
| Plugin.ToNull | index.js:235-238 | A rejected gateway reply is passed on, and a settled one resolves to null. |
| Plugin.LedgerPlugin.constructor | index.js:29-34 | A new plugin is disconnected, with an empty info cache and no handlers. |
| Plugin.LedgerPlugin.IsConnected | index.js:166-168 | Reports the connected flag. How that flag changes is stated by Plugin.LedgerPlugin.Connect, Plugin.LedgerPlugin.Disconnect and Plugin.LedgerPlugin.OnGatewayDisconnect. |
| Plugin.LedgerPlugin.Connect | index.js:114-158 | Handlers are registered once however often connect is called. The calls are connect, then subscribe, then getInfo; a failure stops there and is returned. Only success caches the info, sets connected and emits `connect`. |
| Plugin.LedgerPlugin.Disconnect | index.js:160-164 | Clears connected, disconnects the gateway and resolves with null. |
| Plugin.LedgerPlugin.OnGatewayDisconnect | index.js:123-128 | Once handlers are registered, a gateway disconnect clears connected and emits `disconnect`. |
| Plugin.LedgerPlugin.OnGatewayError | index.js:130-134 | Once handlers are registered, a gateway error emits `error`. |
| Plugin.LedgerPlugin.OnGatewayMessage | index.js:136-139 | Through the merge at index.js:46-51: emits `incoming_message` with the merged message, or throws for a missing one. |
| Plugin.LedgerPlugin.EmitTransfer | index.js:88-109 | Appends exactly the events of the decision table, in order. |
| Plugin.LedgerPlugin.OnGatewayTransfer | index.js:141-144 | Through the rules at index.js:54-86: appends exactly the notification's events, or throws its error. |
| Plugin.LedgerPlugin.GetInfo | index.js:170-184 | Unreachable while not connected; a nil cache throws; otherwise the info view of the cache. |
| Plugin.LedgerPlugin.GetAccount | index.js:186-192 | Unreachable while not connected; otherwise the configured address string. |
| Plugin.LedgerPlugin.GetBalance | index.js:194-207 | Unreachable with no call while not connected. Otherwise one balances call, and the selected balance of its reply. |
| Plugin.LedgerPlugin.SendTransfer | index.js:209-239 | Unreachable while not connected; a refused transfer makes no call; otherwise one post of the body, resolving with null. |
| Plugin.LedgerPlugin.SendMessage | index.js:241-252 | Unreachable while not connected; a refused message makes no call; otherwise one send of the addressed message. |
| Plugin.LedgerPlugin.GetFulfillment | index.js:254-274 | Unreachable with no call while not connected; otherwise one fetch, interpreted by the fulfilment rules. |
| Plugin.LedgerPlugin.FulfillCondition | index.js:276-283 | Unreachable with no call while not connected; otherwise one fulfil call and its reply. |
| Plugin.LedgerPlugin.RejectIncomingTransfer | index.js:285-292 | Unreachable with no call while not connected; otherwise one reject call and its reply. |
| Plugin.DisconnectEventGates | index.js:123-128 | A scenario, with the verbs at index.js:170-200: after a successful connect, a gateway disconnect leaves the plugin listening but disconnected; getInfo then rejects with Unreachable, and getBalance makes no call and rejects with Unreachable. |
| Transport.Settle | gateways/gatehubInternal.js:52-122 | A pending promise takes the first outcome; a settled one keeps its outcome. |
| Transport.Reconnector.constructor | gateways/gatehubInternal.js:55-59 | A new emitter reconnects, holds no socket, and carries the pending promise of the `connect()` call that made it. |
| Transport.SendKeepsIdsIssued | gateways/gatehubInternal.js:156 | Writing the next id keeps the written ids strictly increasing and at most the counter. |
| Transport.CloseKeepsIdsIssued | gateways/gatehubInternal.js:135-137 | Closing the socket writes no id. |
| Transport.NextIdUnsent | gateways/gatehubInternal.js:156 | Under the counter invariant, the next id has never been written. |
| Transport.IncreasingIdsDistinct | gateways/gatehubInternal.js:156 | Strictly increasing ids are never reused. |
| Transport.RootedPathSplit | gateways/gatehubInternal.js:162-196 | A path of slash-free segments splits on '/' into "" and those segments. |
| GatehubInternal.Classify | gateways/gatehubInternal.js:64-93 | An unparsable frame is dropped, and a null one throws. Then, in order: exactly `connect` connects; a method loosely equal to "message" is a message; a non-string truthy method throws at `.includes`; a method containing "transfer" is a transfer; a truthy result is a result. Anything else is dropped. |
| GatehubInternal.OnlyConnectFrameConnects | gateways/gatehubInternal.js:75-80 | A frame connects exactly when its method is the string "connect". |
| GatehubInternal.ClassificationOrder | gateways/gatehubInternal.js:75-92 | connect beats result, message beats transfer matching, and a method-less frame is a result exactly when result is truthy. |
| GatehubInternal.Emits | gateways/gatehubInternal.js:75-92 | A connect frame emits `connect`; a message, transfer or result frame emits one event carrying the frame; a dropped or throwing frame emits nothing. |
| GatehubInternal.SubscribeParams | gateways/gatehubInternal.js:141-146 | The subscribe params have the single key account, whose value is the address's second part, a '.', and its fourth part (vault.wallet). |
| GatehubInternal.AccountPathSegments | gateways/gatehubInternal.js:162-171 | The info path is /gateways/{gateway}/vaults/{vault} and the balance path /wallets/{wallet}/balances, with the address parts as whole segments; both are GETs without a body. |
| GatehubInternal.PostRequests | gateways/gatehubInternal.js:189-196 | Sending a transfer is a POST of the adapted body to /transfers, and sending a message a POST of the message to /messages, both on the ILP API with the user header. |
| GatehubInternal.TransferResourceShared | gateways/gatehubInternal.js:173-187 | Fetching, fulfilling and rejecting a transfer use /transfers/{uuid}, by GET, PUT and PUT, the PUTs carrying {fulfillment} and {rejection}. |
| GatehubInternal.RestRequest | gateways/gatehubInternal.js:162-196 | With the header built at gateways/gatehubInternal.js:33-40: every verb except connect, disconnect and subscribe is a REST request with the user's x-gatehub-uuid header; only the balance goes to the core API. |
| GatehubInternal.Gateway.constructor | gateways/gatehubInternal.js:25-31 | A new gateway is disconnected, with no socket, no connection, no stored account and the counter at 0. |
| GatehubInternal.Gateway.Connect | gateways/gatehubInternal.js:42-59 | Already connected: resolves null and keeps the connection. Otherwise it stores the account; a non-string ILP URL then fails the promise, else a fresh reconnecting emitter carrying its own pending promise. |
| GatehubInternal.Gateway.OnFrame | gateways/gatehubInternal.js:64-93 | Emits what the classification says. Only a connect frame sets connected, and it resolves the promise of the emitter whose socket delivered it. A throwing frame is reported. |
| GatehubInternal.Gateway.OnTransportConnect | gateways/gatehubInternal.js:112-114 | The new socket becomes ws. |
| GatehubInternal.Gateway.OnTransportDisconnect | gateways/gatehubInternal.js:115-119 | Clears ws and connected and emits `disconnect`. |
| GatehubInternal.Gateway.OnTransportError | gateways/gatehubInternal.js:120-123 | Rejects, with the library's error, the promise of the emitter that raised it, if still pending. |
| GatehubInternal.Gateway.Disconnect | gateways/gatehubInternal.js:129-138 | No connection: nothing. Otherwise forgets it, turns reconnect off and closes its socket if it has one, so a second call does nothing. |
| GatehubInternal.Gateway.SendWs | gateways/gatehubInternal.js:149-160 | No socket: UnreachableError with the counter unchanged. Otherwise the counter advances by one and the envelope {jsonrpc "2.0", the new id, method, params} is written. |
| GatehubInternal.Gateway.Subscribe | gateways/gatehubInternal.js:141-146 | Before the first connect there is no stored account and it throws a TypeError. Otherwise it sends method subscribe with account = vault + "." + wallet, or fails as SendWs does without a socket. |
| GatehubInternal.Gateway.Request | gateways/gatehubInternal.js:162-196 | The info and balance requests throw a TypeError before the first connect, since their paths read the stored account. Every other case is the REST request of the verb. |
| GatehubInternal.StaleFrameKeepsNewPromise | gateways/gatehubInternal.js:42-124 | A scenario of the general OnFrame contract: after a reconnect of an older emitter, its connect frame settles only its own promise: the promise of a later connect() stays pending. |
| GatehubLegacy.Classify | gateways/gatehub.js:53-74 | An unparsable frame is dropped and a null one throws. Then: exactly `connect` resolves; a method loosely equal to "message" is a message; any non-string method, a missing one included, throws; a method containing "transfer" is a transfer; the rest is dropped. |
| GatehubLegacy.MissingMethodThrows | gateways/gatehub.js:71 | A frame without a method throws at `.includes`, whatever it carries. |
| GatehubLegacy.VariantsDiffer | gateways/gatehub.js:64-73 | Against gateways/gatehubInternal.js:75-89: a connect frame connects only the internal gateway. A method-less result frame is emitted by the internal gateway and throws in the legacy one. |
| GatehubLegacy.VariantsAgreeOnNotifications | gateways/gatehub.js:68-73 | Against gateways/gatehubInternal.js:81-86: the two classifiers agree on message and transfer frames. |
| GatehubLegacy.Emits | gateways/gatehub.js:64-73 | Only a message or transfer frame emits, one event carrying the frame; a connect frame emits nothing. |
| GatehubLegacy.ListenerForNextId | gateways/gatehub.js:131-149 | The next id has no listener yet. Writing it and listening for it keeps every listener waiting for a written id. |
| GatehubLegacy.CloseKeepsListeners | gateways/gatehub.js:117-119 | Closing the socket keeps the listener invariant. |
| GatehubLegacy.LegacyGateway.constructor | gateways/gatehub.js:10-18 | The singleton starts disconnected, with no socket, ledger, account or APIs and the counter at 0. |
| GatehubLegacy.LegacyGateway.Connect | gateways/gatehub.js:20-45 | Already connected: resolves null. A missing opts, ledger or account throws. Otherwise both APIs get the ledger's URLs and the account's userUuid header; then a non-string ILP URL fails the promise, else a fresh reconnecting emitter carrying its own pending promise. |
| GatehubLegacy.LegacyGateway.StartConnection | gateways/gatehub.js:26-45 | With ledger and account present: stores them and the two API defaults, then fails or starts the connection. |
| GatehubLegacy.LegacyGateway.OnOpen | gateways/gatehub.js:46-51 | Socket open sets connected and emits `connect`. |
| GatehubLegacy.LegacyGateway.OnFrame | gateways/gatehub.js:53-74 | Emits what the classification says; a connect frame only settles the promise of the emitter whose socket delivered it, and leaves connected alone. |
| GatehubLegacy.LegacyGateway.OnTransportConnect | gateways/gatehub.js:93-95 | The new socket becomes ws. |
| GatehubLegacy.LegacyGateway.OnTransportDisconnect | gateways/gatehub.js:96-100 | Clears ws and connected and emits `disconnect`. |
| GatehubLegacy.LegacyGateway.OnTransportError | gateways/gatehub.js:101-104 | Rejects, with the library's error, the promise of the emitter that raised it, if still pending. |
| GatehubLegacy.LegacyGateway.Disconnect | gateways/gatehub.js:110-120 | No connection: nothing. Otherwise forgets it, turns reconnect off and closes its socket. |
| GatehubLegacy.LegacyGateway.SendWs | gateways/gatehub.js:128-153 | No socket: a rejection with nothing changed. Otherwise the counter advances by one, a listener for the new id is registered, the envelope is written, and the call resolves at once. |
| GatehubLegacy.LegacyGateway.Subscribe | gateways/gatehub.js:122-126 | A missing account throws. Otherwise it sends method subscribe with account = the account's wallet. |
| GatehubLegacy.LegacyGateway.OnResponse | gateways/gatehub.js:133-144 | Listeners ignore a response with another id. The matching listener is removed, and it fails on the undefined ExternalError when the response has an error. |
| GatehubLegacy.LegacyGateway.GetInfo | gateways/gatehub.js:155-164 | Rejects while not connected. Otherwise a GET of /gateways/{gatewayUuid}/vaults/{vaultUuid} with the stored ILP defaults. |
| GatehubLegacy.ConnectedFollowsOpen | gateways/gatehub.js:46-67 | A scenario of the OnFrame and OnOpen contracts: from a fresh gateway, a connect frame leaves it disconnected and socket open connects it. |

## Left out

- Sockets, the reconnect library and HTTP are foreign libraries. Socket events, frames and replies are inputs. Frames written and REST requests are recorded values.
- Asynchrony (`emitAsync`, `Promise.join`, `process.nextTick`) becomes synchronous calls and event logs.
- Plugin.LedgerPlugin.Connect: a failing subscribe is modelled as the synchronous throw of `sendWs` without a socket, so getInfo is not issued. A subscribe whose promise rejects because `ws.send` throws inside its executor (gateways/gatehubInternal.js:154-158) would still let getInfo run; it is not modelled, because the socket is a foreign object.
- JavaScript numbers are integers here. `Number()` reads decimal strings only, so hexadecimal, exponents, whitespace, Infinity and floats are not modelled. A `Value` has no arrays, so the balances reply is a sequence, and a reply that is not an array (a TypeError at `filter`) is not modelled.
- Plugin.IncomingMessage: a string `data` would spread its characters as indexed keys; the model adds nothing for it. Key order of the objects built is not modelled either.
- Plugin.LedgerPlugin.SendMessage: the caller's message object is updated in place in the source. The model hands the updated copy to the gateway and does not change the caller's value.
- The plugin's own `connect` listener only logs, so it is not modelled. An `error` event emitted by the gateway before the plugin registers its handlers is out of scope.
- The gateway-selection branch `gatehubLocal.js` delegates to injected services, which are not visible. `gatehubExternal.js` only adds a bearer token. Neither file is part of this model.
- Debug logging, the hard-coded bearer token and the `replace("http", "ws")` URL rewrite are left out. The socket URL has no observable effect here beyond the ILP URL being a string.
- The socket `error` and `close` handlers only create an unobserved rejected promise, so they have no effect and are not modelled.
- The internal gateway's `this.urls` assignment in `connect` is set from the closure just before its one read outside debug logging (the socket URL), so it is not modelled. Its `this.account` assignment is: `GatehubInternal.Gateway.Subscribe` and `GatehubInternal.Gateway.Request` throw before the first connect. The plugin always connects first (index.js:146), so `GatehubInternal.RestRequest` takes the account directly.
- The legacy gateway never emits `ws:response` itself. OnResponse models a response reaching the listeners, whoever emits it.
- The internal gateway's REST requests for getBalance, getFulfillment, fulfillCondition, rejectTransfer, sendTransfer and sendMessage are modelled by `GatehubInternal.RestRequest`, with the two POSTs stated by `GatehubInternal.PostRequests`. The legacy gateway's REST calls other than getInfo are the same requests on other defaults and are not modelled.
- Reconnect backoff timing is left out; only the `reconnect` flag, the held socket and the emitter's promise are modelled.
