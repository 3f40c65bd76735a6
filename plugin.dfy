/**
 * The ledger plugin object: configuration checks, the connected flag and
 * the info cache, the handlers it registers on the gateway, and the verbs it
 * exposes. The gateway is seen from outside: each verb returns the gateway
 * call it issues, and the gateway's reply is a parameter.
 */
module Plugin {
  import opened Js
  import opened Account
  import opened TransferEvents
  import opened GatehubInternal

  // ---------------------------------------------------------------------
  // Configuration

  /** Which gateway the plugin talks to. */
  datatype GatewayKind = Internal | Local

  datatype Config = Config(account: Address, urls: Value, gateway: GatewayKind)

  const ArgumentMessage := "argument must be an object"
  const UrlsMessage := "urls object wrong format"

  /** `opts.urls` has a truthy notifications, core and ILP URL. */
  predicate UrlsWellFormed(urls: Value) {
    && Truthy(urls)
    && Truthy(Read(urls, "notificationsUrl"))
    && Truthy(Read(urls, "coreUrl"))
    && Truthy(Read(urls, "ilpUrl"))
  }

  /**
   * The checks the factory makes of its options, in order: an object (null
   * passes `typeof` and then fails on `.urls`), the three URLs, the account
   * address; and the choice of the local gateway.
   */
  function Configure(opts: Value): (r: Result<Config>)
    ensures !opts.Obj? && !opts.Null? ==> r == Err(InvalidFields(ArgumentMessage))
    ensures opts.Null? ==> r == Err(TypeError)
    ensures opts.Obj? && !UrlsWellFormed(Read(opts, "urls")) ==> r == Err(InvalidFields(UrlsMessage))
    ensures opts.Obj? && UrlsWellFormed(Read(opts, "urls")) ==>
      var parsed := Parse(Read(opts, "account"));
      && (r.Ok? <==> parsed.Ok?)
      && (parsed.Err? ==> r == Err(parsed.error))
    ensures r.Ok? ==>
      && r.value.account.Valid()
      && Read(opts, "account") == Str(r.value.account.ToString())
      && r.value.urls == Read(opts, "urls")
      && (r.value.gateway == Local <==> Read(opts, "gateway") == Str("local") && Truthy(Read(opts, "services")))
  {
    if !opts.Obj? && !opts.Null? then Err(InvalidFields(ArgumentMessage))
    else if opts.Null? then Err(TypeError)
    else
      var urls := Read(opts, "urls");
      if !UrlsWellFormed(urls) then Err(InvalidFields(UrlsMessage))
      else match Parse(Read(opts, "account"))
        case Err(e) => Err(e)
        case Ok(account) =>
          LooseEqualsWord(Read(opts, "gateway"), "local");
          var local := LooseEqualsText(Read(opts, "gateway"), "local") && Truthy(Read(opts, "services"));
          Ok(Config(account, urls, if local then Local else Internal))
  }

  /** A string is truthy yet carries none of the three URL keys, so `urls` given as a string is refused. */
  lemma StringUrlsRejected(opts: Value, s: string)
    requires opts.Obj? && Read(opts, "urls") == Str(s)
    ensures Configure(opts) == Err(InvalidFields(UrlsMessage))
  {
  }

  // ---------------------------------------------------------------------
  // What the handlers make of gateway events

  /**
   * `handleMessage`: the ledger prefix and the sender's account, overridden
   * by the keys of the message's `data` object. A missing message throws.
   */
  function IncomingMessage(prefix: string, message: Value): (r: Result<Value>)
    ensures r.Err? <==> IsNil(message)
    ensures r.Err? ==> r.error == TypeError
    ensures r.Ok? ==> r.value.Obj?
  {
    if IsNil(message) then Err(TypeError)
    else
      var base := map["ledger" := Str(prefix), "account" := Str(prefix + ToText(Read(message, "account")))];
      var data := Read(message, "data");
      Ok(Obj(if data.Obj? then base + data.fields else base))
  }

  /** Each key of the incoming message: from `data` when it has it, else the ledger or the prefixed account. */
  lemma IncomingMessageField(prefix: string, message: Value, k: string)
    requires !IsNil(message)
    ensures var data := Read(message, "data");
      Field(IncomingMessage(prefix, message).value.fields, k)
        == if data.Obj? && k in data.fields then data.fields[k]
           else if k == "ledger" then Str(prefix)
           else if k == "account" then Str(prefix + ToText(Read(message, "account")))
           else Undefined
  {
  }

  // ---------------------------------------------------------------------
  // getInfo

  /** The info fields the plugin reports, keyed by the plugin's name, naming the gatehub field. */
  const InfoRenames: map<string, string> := map[
    "prefix" := "prefix",
    "precision" := "precision",
    "scale" := "scale",
    "currencyCode" := "currency_name",
    "currencySymbol" := "currency_symbol",
    "connectors" := "connectors"
  ]

  /** The view `getInfo` returns of the cached ledger info. */
  function InfoView(info: Value): (r: Value)
    requires !IsNil(info)
    ensures r.Obj? && r.fields.Keys == InfoRenames.Keys
  {
    Obj(map k | k in InfoRenames :: Read(info, InfoRenames[k]))
  }

  /** Each reported field is the cached gatehub field it is renamed from, undefined ones included. */
  lemma InfoViewField(info: Value, k: string)
    requires !IsNil(info) && k in InfoRenames
    ensures InfoView(info).fields[k] == Read(info, InfoRenames[k])
  {
  }

  /** The currency code and symbol come from gatehub's currency name and symbol. */
  lemma InfoViewCurrency(info: Value)
    requires !IsNil(info)
    ensures InfoView(info).fields["currencyCode"] == Read(info, "currency_name")
    ensures InfoView(info).fields["currencySymbol"] == Read(info, "currency_symbol")
  {
    InfoViewField(info, "currencyCode");
    InfoViewField(info, "currencySymbol");
  }

  // ---------------------------------------------------------------------
  // getBalance

  /** `balance.vault.uuid` can be read: neither the entry nor its vault is null or undefined. */
  predicate Inspectable(b: Value) {
    !IsNil(b) && !IsNil(Read(b, "vault"))
  }

  /** The filter's test: the entry's vault uuid loosely equals the account's vault. */
  predicate InVault(vault: string, b: Value)
    requires Inspectable(b)
  {
    LooseEqualsText(Read(Read(b, "vault"), "uuid"), vault)
  }

  /**
   * `balances.filter(...)[0]` as an index: the filter tests every entry, so
   * any entry it cannot inspect throws; otherwise the first entry in the
   * vault, or none.
   */
  function FirstInVault(vault: string, balances: seq<Value>): (r: Result<Option<nat>>)
    ensures r.Err? <==> exists i | 0 <= i < |balances| :: !Inspectable(balances[i])
    ensures r.Err? ==> r.error == TypeError
    ensures r.Ok? && r.value.Some? ==>
      && r.value.value < |balances|
      && InVault(vault, balances[r.value.value])
      && forall j | 0 <= j < r.value.value :: !InVault(vault, balances[j])
    ensures r.Ok? && r.value.None? ==> forall j | 0 <= j < |balances| :: !InVault(vault, balances[j])
    decreases |balances|
  {
    if balances == [] then Ok(None)
    else if !Inspectable(balances[0]) then Err(TypeError)
    else
      match FirstInVault(vault, balances[1..])
      case Err(e) =>
        UninspectableInTail(balances);
        Err(e)
      case Ok(rest) =>
        if InVault(vault, balances[0]) then Ok(Some(0))
        else if rest.None? then Ok(None)
        else Ok(Some(rest.value + 1))
  }

  /** An entry of the tail no one can inspect is one of the whole sequence. */
  lemma UninspectableInTail(balances: seq<Value>)
    requires |balances| > 0 && exists i | 0 <= i < |balances[1..]| :: !Inspectable(balances[1..][i])
    ensures exists i | 0 <= i < |balances| :: !Inspectable(balances[i])
  {
    var i :| 0 <= i < |balances[1..]| && !Inspectable(balances[1..][i]);
    assert !Inspectable(balances[i + 1]);
  }

  /** What the balance callback returns for a chosen entry: its truthy `available`, else "0". */
  function AvailableOrZero(b: Value): Value
    requires !IsNil(b)
  {
    if Truthy(Read(b, "available")) then Read(b, "available") else Str("0")
  }

  /** The balance the plugin reports of a balances reply; no entry in the vault throws. */
  function SelectBalance(vault: string, balances: seq<Value>): (r: Result<Value>)
    ensures r.Err? ==> r.error == TypeError
    ensures r.Ok? <==>
      (forall i | 0 <= i < |balances| :: Inspectable(balances[i]))
      && exists i | 0 <= i < |balances| :: InVault(vault, balances[i])
  {
    match FirstInVault(vault, balances)
    case Err(_) => Err(TypeError)
    case Ok(None) => Err(TypeError)
    case Ok(Some(i)) => Ok(AvailableOrZero(balances[i]))
  }

  /** The first entry in the vault decides the balance, whatever entries in it follow. */
  lemma {:induction false} FirstEntryWins(vault: string, balances: seq<Value>, i: nat)
    requires i < |balances| && forall j | 0 <= j < |balances| :: Inspectable(balances[j])
    requires InVault(vault, balances[i]) && forall j | 0 <= j < i :: !InVault(vault, balances[j])
    ensures SelectBalance(vault, balances) == Ok(AvailableOrZero(balances[i]))
  {
    var r := FirstInVault(vault, balances);
    assert r.Ok? && r.value.Some?;
    assert r.value.value == i;
  }

  // ---------------------------------------------------------------------
  // sendTransfer

  const InvalidAccountMessage := "invalid account"
  const InvalidAmountMessage := "invalid amount"

  /**
   * The checks `sendTransfer` makes of a transfer, in order, giving the
   * receiver's address: a missing transfer throws, the account must be a
   * string, the amount a string whose number is not at most zero (NaN
   * passes), and the account an address.
   */
  function CheckTransfer(t: Value): (r: Result<Address>)
    ensures IsNil(t) ==> r == Err(TypeError)
    ensures !IsNil(t) && !Read(t, "account").Str? ==> r == Err(InvalidFields(InvalidAccountMessage))
    ensures !IsNil(t) && Read(t, "account").Str? ==>
      var amount := Read(t, "amount");
      && (!amount.Str? || NotPositive(amount.s) ==> r == Err(InvalidFields(InvalidAmountMessage)))
      && (amount.Str? && !NotPositive(amount.s) ==> r == Parse(Read(t, "account")))
    ensures r.Ok? ==> r.value.Valid() && Read(t, "account") == Str(r.value.ToString())
  {
    if IsNil(t) then Err(TypeError)
    else if !Read(t, "account").Str? then Err(InvalidFields(InvalidAccountMessage))
    else
      var amount := Read(t, "amount");
      if !amount.Str? || NotPositive(amount.s) then Err(InvalidFields(InvalidAmountMessage))
      else Parse(Read(t, "account"))
  }

  /** Digits that are all zeros denote zero. */
  lemma {:induction false} ZerosDenoteZero(s: string)
    requires AllDigits(s) && AllZeros(s)
    ensures DigitsValue(s) == 0
  {
    if s != [] {
      ZerosDenoteZero(s[..|s| - 1]);
    }
  }

  /**
   * The amount check on decimal strings: a negative amount and zero are
   * refused, a positive whole amount passes.
   */
  lemma AmountSigns(n: nat)
    ensures NotPositive("-" + NatText(n))
    ensures NotPositive("0")
    ensures !NotPositive(NatText(n + 1))
  {
    var s := NatText(n);
    assert forall i | 0 <= i < |s| :: s[i] != '.';
    SplitWhole(s, '.');
    assert ("-" + s)[1..] == s;
    SplitWhole("0", '.');
    var p := NatText(n + 1);
    assert forall i | 0 <= i < |p| :: p[i] != '.';
    SplitWhole(p, '.');
    assert p[0] != '-' && p[0] != '+' by { assert IsDigit(p[0]); }
    if AllZeros(p) {
      ZerosDenoteZero(p);
    }
  }

  /** An amount that is not a number passes the amount check: `+amount <= 0` is false for NaN. */
  lemma NaNAmountPasses(t: Value, word: string)
    requires t.Obj? && Read(t, "account").Str? && Read(t, "amount") == Str(word)
    requires |word| > 0 && 'a' <= word[0] <= 'z'
    ensures CheckTransfer(t) == Parse(Read(t, "account"))
  {
    LooseEqualsWord(Null, word);
  }

  /** The gatehub fields of the body that are copied from the transfer, keyed by the gatehub name. */
  const BodyRenames: map<string, string> := map[
    "uuid" := "id",
    "amount" := "amount",
    "data" := "data",
    "note" := "noteToSelf",
    "condition" := "executionCondition",
    "expires_at" := "expiresAt"
  ]

  /** The fields of the body that name the parties, taken from the two addresses. */
  function PartyFields(own: Address, receiver: Address): map<string, Value>
    requires own.Valid() && receiver.Valid()
  {
    map[
      "sending_user_uuid" := Str(own.User()),
      "sending_address" := Str(own.Wallet()),
      "receiving_address" := Str(receiver.Wallet()),
      "vault_uuid" := Str(own.Vault())
    ]
  }

  /** The body `sendTransfer` posts: the parties and the fields copied from the transfer. */
  function TransferBody(own: Address, receiver: Address, t: Value): (body: Value)
    requires own.Valid() && receiver.Valid() && !IsNil(t)
    ensures body.Obj? && body.fields.Keys == PartyFields(own, receiver).Keys + BodyRenames.Keys
    ensures Read(body, "sending_user_uuid") == Str(own.User())
    ensures Read(body, "sending_address") == Str(own.Wallet())
    ensures Read(body, "receiving_address") == Str(receiver.Wallet())
    ensures Read(body, "vault_uuid") == Str(own.Vault())
  {
    Obj((map k | k in BodyRenames :: Read(t, BodyRenames[k])) + PartyFields(own, receiver))
  }

  /** Each copied field of the body is the transfer's field it is renamed from. */
  lemma TransferBodyCopies(own: Address, receiver: Address, t: Value, k: string)
    requires own.Valid() && receiver.Valid() && !IsNil(t) && k in BodyRenames
    ensures Read(TransferBody(own, receiver, t), k) == Read(t, BodyRenames[k])
  {
    assert k !in PartyFields(own, receiver);
  }

  /**
   * The transfer fields that come back under their own name when a posted
   * body is notified back: the plugin name renamed from the gatehub name the
   * body posts it under.
   */
  const Echoed: set<string> := set k | k in Renames && Renames[k] in BodyRenames && BodyRenames[Renames[k]] == k

  /** The id, amount, data, note and expiry come back; the two conditions do not. */
  lemma EchoedFields()
    ensures "id" in Echoed && "amount" in Echoed && "data" in Echoed && "noteToSelf" in Echoed && "expiresAt" in Echoed
    ensures "executionCondition" !in Echoed && "cancellationCondition" !in Echoed
  {
    assert Renames["executionCondition"] == "execution_condition" && "execution_condition" !in BodyRenames;
    assert Renames["cancellationCondition"] == "cancellation_condition" && "cancellation_condition" !in BodyRenames;
  }

  /**
   * A posted transfer, notified back with the same fields, is outgoing when
   * the receiver's wallet is another one, names the receiver's account, and
   * gives back each echoed field it had.
   */
  lemma SentTransferEchoes(own: Address, receiver: Address, t: Value, k: string)
    requires own.Valid() && receiver.Valid() && !IsNil(t) && k in Echoed
    requires receiver.Wallet() != own.Wallet()
    ensures var body := TransferBody(own, receiver, t);
      var record := TransferRecord(own, body, Outgoing).fields;
      && Orient(own, body) == Some(Outgoing)
      && Field(record, "account") == Str(own.AccountName() + "." + receiver.Wallet())
      && (k in record <==> !IsNil(Read(t, k)))
      && (k in record ==> record[k] == Read(t, k))
  {
    var body := TransferBody(own, receiver, t);
    RecordFixedFields(own, body, Outgoing);
    RecordOmitsNil(own, body, Outgoing, k);
    TransferBodyCopies(own, receiver, t, Renames[k]);
    assert Read(body, Renames[k]) == Read(t, k);
  }

  /** A transfer to the plugin's own wallet comes back as incoming, from the plugin's own account. */
  lemma SelfPaymentEchoesIncoming(own: Address, receiver: Address, t: Value)
    requires own.Valid() && receiver.Valid() && !IsNil(t)
    requires receiver.Wallet() == own.Wallet()
    ensures var body := TransferBody(own, receiver, t);
      && Orient(own, body) == Some(Incoming)
      && Field(TransferRecord(own, body, Incoming).fields, "account") == Str(own.AccountName() + "." + own.Wallet())
  {
    var body := TransferBody(own, receiver, t);
    RecordFixedFields(own, body, Incoming);
  }

  // ---------------------------------------------------------------------
  // sendMessage and getFulfillment

  /**
   * The message `sendMessage` hands to the gateway: the caller's message
   * with `to` set to the receiver's address and `from` to the plugin's own.
   * A missing message throws; an account that is not an address is refused.
   */
  function OutgoingMessage(own: Address, message: Value): (r: Result<Value>)
    ensures IsNil(message) ==> r == Err(TypeError)
    ensures !IsNil(message) ==>
      var parsed := Parse(Read(message, "account"));
      && (r.Ok? <==> parsed.Ok?)
      && (parsed.Err? ==> r == Err(parsed.error))
    ensures r.Ok? ==>
      && message.Obj? && r.value.Obj?
      && r.value.fields.Keys == message.fields.Keys + {"to", "from"}
      && r.value.fields["to"] == Read(message, "account")
      && r.value.fields["from"] == Str(own.ToString())
      && forall k | k in message.fields && k != "to" && k != "from" :: r.value.fields[k] == message.fields[k]
  {
    if IsNil(message) then Err(TypeError)
    else match Parse(Read(message, "account"))
      case Err(e) => Err(e)
      case Ok(receiver) => Ok(Obj(message.fields["to" := Str(receiver.ToString())]["from" := Str(own.ToString())]))
  }

  /**
   * What `getFulfillment` makes of the gatehub transfer: its execution
   * fulfilment; or, when there is none, an already-rolled-back error if it
   * was cancelled and a missing-fulfilment error otherwise.
   */
  function FulfillmentOf(transferId: Value, transfer: Value): (r: Result<Value>)
    ensures IsNil(transfer) ==> r == Err(TypeError)
    ensures !IsNil(transfer) ==>
      var f := Read(transfer, "execution_fulfillment");
      var c := Read(transfer, "cancellation_fulfilment");
      && (r.Ok? <==> Truthy(f))
      && (r.Ok? ==> r.value == f)
      && (!Truthy(f) && Truthy(c) ==> r == Err(AlreadyRolledBack("transfer " + ToText(transferId) + " wont be fulfilled")))
      && (!Truthy(f) && !Truthy(c) ==> r == Err(MissingFulfillment("transfer " + ToText(transferId) + " not yet fulfilled")))
  {
    if IsNil(transfer) then Err(TypeError)
    else if Truthy(Read(transfer, "execution_fulfillment")) then Ok(Read(transfer, "execution_fulfillment"))
    else if Truthy(Read(transfer, "cancellation_fulfilment")) then
      Err(AlreadyRolledBack("transfer " + ToText(transferId) + " wont be fulfilled"))
    else Err(MissingFulfillment("transfer " + ToText(transferId) + " not yet fulfilled"))
  }

  /** A fulfilled transfer reports its fulfilment even when it also carries a cancellation fulfilment. */
  lemma FulfilmentBeatsCancellation(transferId: Value, transfer: Value)
    requires !IsNil(transfer) && Truthy(Read(transfer, "execution_fulfillment"))
    ensures FulfillmentOf(transferId, transfer) == Ok(Read(transfer, "execution_fulfillment"))
  {
  }

  /** A reply rejected by the gateway is passed on; a settled one is returned as `null`. */
  function ToNull(reply: Result<Value>): (r: Result<Value>)
    ensures r.Ok? <==> reply.Ok?
    ensures r.Ok? ==> r.value == Null
    ensures r.Err? ==> r.error == reply.error
  {
    if reply.Err? then Err(reply.error) else Ok(Null)
  }

  // ---------------------------------------------------------------------
  // The plugin object

  class LedgerPlugin {
    const account: Address
    const prefix: string
    /** The flag `isConnected` returns. */
    var connected: bool
    /** The ledger info cached by the last successful `connect`. */
    var infoCache: Value
    /** Whether `connect` has registered the handlers on the gateway. */
    var listening: bool
    /** The events the plugin has emitted, in order. */
    var events: seq<Event>

    ghost predicate Valid() {
      account.Valid() && prefix == account.Prefix()
    }

    constructor (config: Config)
      requires config.account.Valid()
      ensures Valid() && account == config.account
      ensures !connected && infoCache == Obj(map[]) && !listening && events == []
    {
      account := config.account;
      prefix := config.account.Prefix();
      connected := false;
      infoCache := Obj(map[]);
      listening := false;
      events := [];
    }

    /** `isConnected()`: the flag a successful `connect()` sets and a gateway `disconnect` or `disconnect()` clears. */
    function IsConnected(): (r: bool)
      reads this`connected
      ensures r <==> connected
    {
      connected
    }

    /**
     * `connect()`: registers the handlers (once, however often it is called),
     * connects the gateway, then subscribes and fetches the info. A failure
     * at any step is returned and skips the rest; success caches the info,
     * sets the flag and emits `connect`. A subscribe that throws keeps the
     * info from being fetched.
     */
    method Connect(connectReply: Result<Value>, subscribeReply: Result<Value>, infoReply: Result<Value>)
      returns (issued: seq<GatewayCall>, r: Result<Value>)
      requires Valid()
      modifies this
      ensures listening
      ensures issued == [ConnectCall]
        + (if connectReply.Ok? then [SubscribeCall] + (if subscribeReply.Ok? then [GetInfoCall] else []) else [])
      ensures r == if connectReply.Err? then Err(connectReply.error)
                   else if subscribeReply.Err? then Err(subscribeReply.error)
                   else if infoReply.Err? then Err(infoReply.error)
                   else Ok(Null)
      ensures r.Ok? ==> connected && infoCache == infoReply.value && events == old(events) + [Event("connect", [])]
      ensures r.Err? ==> connected == old(connected) && infoCache == old(infoCache) && events == old(events)
    {
      listening := true;
      issued := [ConnectCall];
      if connectReply.Err? {
        r := Err(connectReply.error);
        return;
      }
      issued := issued + [SubscribeCall];
      if subscribeReply.Err? {
        r := Err(subscribeReply.error);
        return;
      }
      issued := issued + [GetInfoCall];
      if infoReply.Err? {
        r := Err(infoReply.error);
        return;
      }
      infoCache := infoReply.value;
      connected := true;
      events := events + [Event("connect", [])];
      r := Ok(Null);
    }

    /** `disconnect()`: clears the flag and disconnects the gateway; resolves with null. */
    method Disconnect() returns (issued: seq<GatewayCall>, r: Result<Value>)
      modifies this`connected
      ensures !connected && issued == [DisconnectCall] && r == Ok(Null)
    {
      connected := false;
      issued := [DisconnectCall];
      r := Ok(Null);
    }

    /** The gateway's `disconnect` event: the plugin is no longer connected and emits `disconnect`. */
    method OnGatewayDisconnect()
      modifies this`connected, this`events
      ensures listening ==> !connected && events == old(events) + [Event("disconnect", [])]
      ensures !listening ==> connected == old(connected) && events == old(events)
    {
      if listening {
        connected := false;
        events := events + [Event("disconnect", [])];
      }
    }

    /** The gateway's `error` event: the plugin emits `error` without the reason. */
    method OnGatewayError(reason: Value)
      modifies this`events
      ensures events == old(events) + (if listening then [Event("error", [])] else [])
    {
      if listening {
        events := events + [Event("error", [])];
      }
    }

    /** The gateway's `message` event: emits `incoming_message`; a missing message throws. */
    method OnGatewayMessage(message: Value) returns (thrown: Option<Error>)
      requires Valid()
      modifies this`events
      ensures !listening ==> thrown == None && events == old(events)
      ensures listening ==> match IncomingMessage(prefix, message)
        case Err(e) => thrown == Some(e) && events == old(events)
        case Ok(m) => thrown == None && events == old(events) + [Event("incoming_message", [m])]
    {
      thrown := None;
      if listening {
        match IncomingMessage(prefix, message)
        case Err(e) => thrown := Some(e);
        case Ok(m) => events := events + [Event("incoming_message", [m])];
      }
    }

    /** `emitTransfer`: the lifecycle rules tested one after another, each emitting as it matches. */
    method EmitTransfer(d: Direction, gh: Value, transfer: Value)
      requires !IsNil(gh) && transfer.Obj?
      modifies this`events
      ensures events == old(events) + Emitted(d, gh, transfer)
    {
      var state := Read(gh, "state");
      var fulfillment := Read(gh, "execution_fulfillment");
      var cancellation := Read(gh, "cancellation_fulfilment");
      var prepare: seq<Event> := [];
      var execute: seq<Event> := [];
      var fulfill: seq<Event> := [];
      var cancel: seq<Event> := [];
      if state == Str("prepared") {
        prepare := [Event(EventName(d, "prepare"), [transfer])];
      }
      if state == Str("executed") && !Truthy(Read(transfer, "executionCondition")) {
        execute := [Event(EventName(d, "transfer"), [transfer])];
      }
      if state == Str("executed") && Truthy(fulfillment) {
        fulfill := [Event(EventName(d, "fulfill"), [transfer, fulfillment])];
      }
      if state == Str("rejected") && Truthy(cancellation) {
        cancel := [Event(EventName(d, "cancel"), [transfer, cancellation])];
      } else if state == Str("rejected") {
        cancel := [Event(EventName(d, "cancel"), [transfer, Str("transfer timed out.")])];
      }
      events := events + prepare + execute + fulfill + cancel;
      assert prepare + execute + fulfill + cancel == Emitted(d, gh, transfer);
    }

    /**
     * The gateway's `transfer` event (`handleTransfer`): the events of the
     * notification, emitted in order; a missing message or `data` throws.
     */
    method OnGatewayTransfer(message: Value) returns (thrown: Option<Error>)
      requires Valid()
      modifies this`events
      ensures !listening ==> thrown == None && events == old(events)
      ensures listening ==> match NotificationEvents(account, message)
        case Err(e) => thrown == Some(e) && events == old(events)
        case Ok(emitted) => thrown == None && events == old(events) + emitted
    {
      thrown := None;
      if !listening {
        return;
      }
      if IsNil(message) {
        thrown := Some(TypeError);
        return;
      }
      var gh := Read(message, "data");
      if IsNil(gh) {
        thrown := Some(TypeError);
        return;
      }
      match Orient(account, gh)
      case None =>
      case Some(d) => EmitTransfer(d, gh, TransferRecord(account, gh, d));
    }

    /** `getInfo()`: the view of the cached info; unreachable while not connected. */
    method GetInfo() returns (r: Result<Value>)
      ensures !connected ==> r == Err(Unreachable)
      ensures connected && IsNil(infoCache) ==> r == Err(TypeError)
      ensures connected && !IsNil(infoCache) ==> r == Ok(InfoView(infoCache))
    {
      if !connected {
        return Err(Unreachable);
      }
      if IsNil(infoCache) {
        return Err(TypeError);
      }
      r := Ok(InfoView(infoCache));
    }

    /** `getAccount()`: the address string the plugin was configured with. */
    method GetAccount() returns (r: Result<string>)
      ensures !connected ==> r == Err(Unreachable)
      ensures connected ==> r == Ok(account.ToString())
    {
      if !connected {
        return Err(Unreachable);
      }
      r := Ok(account.ToString());
    }

    /** `getBalance()`: fetches the wallet's balances and reports the one in the account's vault. */
    method GetBalance(reply: Result<seq<Value>>) returns (call: Option<GatewayCall>, r: Result<Value>)
      requires Valid()
      ensures !connected ==> call == None && r == Err(Unreachable)
      ensures connected ==> call == Some(GetBalanceCall)
      ensures connected && reply.Err? ==> r == Err(reply.error)
      ensures connected && reply.Ok? ==> r == SelectBalance(account.Vault(), reply.value)
    {
      if !connected {
        return None, Err(Unreachable);
      }
      call := Some(GetBalanceCall);
      if reply.Err? {
        return call, Err(reply.error);
      }
      r := SelectBalance(account.Vault(), reply.value);
    }

    /** `sendTransfer(t)`: checks the transfer, posts its body and resolves with null. */
    method SendTransfer(t: Value, reply: Result<Value>) returns (call: Option<GatewayCall>, r: Result<Value>)
      requires Valid()
      ensures !connected ==> call == None && r == Err(Unreachable)
      ensures connected && CheckTransfer(t).Err? ==> call == None && r == Err(CheckTransfer(t).error)
      ensures connected && CheckTransfer(t).Ok? ==>
        && call == Some(SendTransferCall(TransferBody(account, CheckTransfer(t).value, t)))
        && r == ToNull(reply)
    {
      if !connected {
        return None, Err(Unreachable);
      }
      match CheckTransfer(t)
      case Err(e) =>
        call, r := None, Err(e);
      case Ok(receiver) =>
        call := Some(SendTransferCall(TransferBody(account, receiver, t)));
        r := ToNull(reply);
    }

    /** `sendMessage(m)`: addresses the message and hands it to the gateway. */
    method SendMessage(message: Value, reply: Result<Value>) returns (call: Option<GatewayCall>, r: Result<Value>)
      requires Valid()
      ensures !connected ==> call == None && r == Err(Unreachable)
      ensures connected && OutgoingMessage(account, message).Err? ==>
        call == None && r == Err(OutgoingMessage(account, message).error)
      ensures connected && OutgoingMessage(account, message).Ok? ==>
        call == Some(SendMessageCall(OutgoingMessage(account, message).value)) && r == ToNull(reply)
    {
      if !connected {
        return None, Err(Unreachable);
      }
      match OutgoingMessage(account, message)
      case Err(e) =>
        call, r := None, Err(e);
      case Ok(m) =>
        call := Some(SendMessageCall(m));
        r := ToNull(reply);
    }

    /** `getFulfillment(id)`: fetches the transfer and reports its fulfilment. */
    method GetFulfillment(transferId: Value, reply: Result<Value>) returns (call: Option<GatewayCall>, r: Result<Value>)
      ensures !connected ==> call == None && r == Err(Unreachable)
      ensures connected ==> call == Some(GetFulfillmentCall(transferId))
      ensures connected && reply.Err? ==> r == Err(reply.error)
      ensures connected && reply.Ok? ==> r == FulfillmentOf(transferId, reply.value)
    {
      if !connected {
        return None, Err(Unreachable);
      }
      call := Some(GetFulfillmentCall(transferId));
      if reply.Err? {
        return call, Err(reply.error);
      }
      r := FulfillmentOf(transferId, reply.value);
    }

    /** `fulfillCondition(id, f)`: hands the fulfilment to the gateway and returns its reply. */
    method FulfillCondition(transferId: Value, fulfillment: Value, reply: Result<Value>)
      returns (call: Option<GatewayCall>, r: Result<Value>)
      ensures !connected ==> call == None && r == Err(Unreachable)
      ensures connected ==> call == Some(FulfillConditionCall(transferId, fulfillment)) && r == reply
    {
      if !connected {
        return None, Err(Unreachable);
      }
      call, r := Some(FulfillConditionCall(transferId, fulfillment)), reply;
    }

    /** `rejectIncomingTransfer(id, m)`: hands the rejection to the gateway and returns its reply. */
    method RejectIncomingTransfer(transferId: Value, rejectMessage: Value, reply: Result<Value>)
      returns (call: Option<GatewayCall>, r: Result<Value>)
      ensures !connected ==> call == None && r == Err(Unreachable)
      ensures connected ==> call == Some(RejectTransferCall(transferId, rejectMessage)) && r == reply
    {
      if !connected {
        return None, Err(Unreachable);
      }
      call, r := Some(RejectTransferCall(transferId, rejectMessage)), reply;
    }
  }

  /**
   * After a successful connect, a `disconnect` event from the gateway makes
   * the verbs unreachable again: `getInfo` rejects and `getBalance` calls
   * nothing and rejects.
   */
  method DisconnectEventGates(p: LedgerPlugin) returns (info: Result<Value>, balanceCall: Option<GatewayCall>, balance: Result<Value>)
    requires p.Valid()
    modifies p
    ensures p.listening && !p.connected
    ensures info == Err(Unreachable)
    ensures balanceCall == None && balance == Err(Unreachable)
  {
    var issued, r := p.Connect(Ok(Null), Ok(Null), Ok(Obj(map[])));
    assert r == Ok(Null) && p.connected && p.listening;
    p.OnGatewayDisconnect();
    info := p.GetInfo();
    balanceCall, balance := p.GetBalance(Ok([]));
  }
}
