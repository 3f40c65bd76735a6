/**
 * The internal gateway: the notification-channel connection and the REST
 * calls the plugin delegates to. The socket and the reconnect library are
 * outside; their callbacks are the `On...` methods, and what the gateway
 * writes or closes is appended to `wire`.
 */
module GatehubInternal {
  import opened Js
  import opened Account
  import opened Transport

  /** Where an inbound frame goes, in the order the message handler tests it. */
  datatype Classification =
    | Dropped
    | ConnectFrame
    | MessageFrame(message: Value)
    | TransferFrame(message: Value)
    | ResultFrame(message: Value)
    | Threw(error: Error)

  function Classify(f: Frame): (c: Classification)
    ensures f.Unparsable? ==> c == Dropped
    ensures f.Parsed? && IsNil(f.message) ==> c == Threw(TypeError)
    ensures f.Parsed? && !IsNil(f.message) ==>
      var name := Read(f.message, "method");
      && (c.ConnectFrame? <==> name == Str("connect"))
      && (c.MessageFrame? <==> name == Str("message"))
      && (c.TransferFrame? <==> name.Str? && name.s != "connect" && name.s != "message" && Includes(name.s, "transfer"))
      && (c.ResultFrame? <==> name != Str("connect") && name != Str("message")
                              && !(Truthy(name) && (!name.Str? || Includes(name.s, "transfer")))
                              && Truthy(Read(f.message, "result")))
      && (c.Threw? <==> Truthy(name) && !name.Str?)
      && (c.MessageFrame? || c.TransferFrame? || c.ResultFrame? ==> c.message == f.message)
  {
    match f
    case Unparsable => Dropped
    case Parsed(message) =>
      if IsNil(message) then Threw(TypeError)
      else
        var name := Read(message, "method");
        LooseEqualsWord(name, "message");
        if name == Str("connect") then ConnectFrame
        else if LooseEqualsText(name, "message") then MessageFrame(message)
        else if Truthy(name) && !name.Str? then Threw(TypeError)
        else if Truthy(name) && Includes(name.s, "transfer") then TransferFrame(message)
        else if Truthy(Read(message, "result")) then ResultFrame(message)
        else Dropped
  }

  /**
   * What a classified frame makes the gateway emit: `connect` for a connect
   * frame, one event carrying the frame for a message, transfer or result,
   * and nothing for a dropped or throwing frame.
   */
  function Emits(c: Classification): (r: seq<GatewayEvent>)
    ensures c.ConnectFrame? <==> r == [Connected]
    ensures c.MessageFrame? || c.TransferFrame? || c.ResultFrame? ==> |r| == 1 && !r[0].Connected? && !r[0].Disconnected? && r[0].payload == c.message
    ensures c.Dropped? || c.Threw? <==> r == []
  {
    match c
    case ConnectFrame => [Connected]
    case MessageFrame(m) => [MessageArrived(m)]
    case TransferFrame(m) => [TransferArrived(m)]
    case ResultFrame(m) => [ResultArrived(m)]
    case Dropped => []
    case Threw(_) => []
  }

  /** The parameters of the subscribe RPC: `vault.wallet` of the plugin's account. */
  function SubscribeParams(a: Address): (p: Value)
    requires a.Valid()
    ensures p.Obj? && p.fields.Keys == {"account"}
    ensures p.fields["account"] == Str(Split(a.address, '.')[1] + "." + Split(a.address, '.')[3])
  {
    Obj(map["account" := Str(a.Vault() + "." + a.Wallet())])
  }

  /** The verbs the plugin calls on its gateway. */
  datatype GatewayCall =
    | ConnectCall
    | DisconnectCall
    | SubscribeCall
    | GetInfoCall
    | GetBalanceCall
    | GetFulfillmentCall(transferId: Value)
    | FulfillConditionCall(transferId: Value, fulfillment: Value)
    | RejectTransferCall(transferId: Value, rejection: Value)
    | SendTransferCall(body: Value)
    | SendMessageCall(message: Value)

  /** The REST request a verb issues; connect, disconnect and subscribe go over the socket instead. */
  function RestRequest(a: Address, call: GatewayCall): (r: Option<HttpRequest>)
    requires a.Valid()
    ensures r.Some? <==> !(call.ConnectCall? || call.DisconnectCall? || call.SubscribeCall?)
    ensures r.Some? ==> r.value.userHeader == Str(a.User())
    ensures r.Some? ==> (r.value.api == CoreApi <==> call.GetBalanceCall?)
  {
    var user := Str(a.User());
    match call
    case GetInfoCall => Some(HttpRequest(IlpApi, user, Get, RootedPath(["gateways", a.Gateway(), "vaults", a.Vault()]), None))
    case GetBalanceCall => Some(HttpRequest(CoreApi, user, Get, RootedPath(["wallets", a.Wallet(), "balances"]), None))
    case GetFulfillmentCall(id) => Some(HttpRequest(IlpApi, user, Get, RootedPath(["transfers", ToText(id)]), None))
    case FulfillConditionCall(id, f) =>
      Some(HttpRequest(IlpApi, user, Put, RootedPath(["transfers", ToText(id)]), Some(Obj(map["fulfillment" := f]))))
    case RejectTransferCall(id, rejection) =>
      Some(HttpRequest(IlpApi, user, Put, RootedPath(["transfers", ToText(id)]), Some(Obj(map["rejection" := rejection]))))
    case SendTransferCall(body) => Some(HttpRequest(IlpApi, user, Post, RootedPath(["transfers"]), Some(body)))
    case SendMessageCall(message) => Some(HttpRequest(IlpApi, user, Post, RootedPath(["messages"]), Some(message)))
    case _ => None
  }

  /** The info and balance paths name the account's gateway, vault and wallet as whole path segments. */
  lemma AccountPathSegments(a: Address)
    requires a.Valid()
    requires '/' !in a.Gateway() && '/' !in a.Vault() && '/' !in a.Wallet()
    ensures RestRequest(a, GetInfoCall).Some? && RestRequest(a, GetBalanceCall).Some?
    ensures RestRequest(a, GetInfoCall).value.verb == Get && RestRequest(a, GetInfoCall).value.body == None
    ensures RestRequest(a, GetBalanceCall).value.verb == Get && RestRequest(a, GetBalanceCall).value.body == None
    ensures Split(RestRequest(a, GetInfoCall).value.uri, '/') == ["", "gateways", a.Gateway(), "vaults", a.Vault()]
    ensures Split(RestRequest(a, GetBalanceCall).value.uri, '/') == ["", "wallets", a.Wallet(), "balances"]
  {
    RootedPathSplit(["gateways", a.Gateway(), "vaults", a.Vault()]);
    RootedPathSplit(["wallets", a.Wallet(), "balances"]);
  }

  /** Reading, fulfilling and rejecting a transfer address the same resource, `/transfers/{uuid}`. */
  lemma TransferResourceShared(a: Address, id: Value, f: Value, rejection: Value)
    requires a.Valid()
    ensures var get := RestRequest(a, GetFulfillmentCall(id));
      var put := RestRequest(a, FulfillConditionCall(id, f));
      var reject := RestRequest(a, RejectTransferCall(id, rejection));
      && get.Some? && put.Some? && reject.Some?
      && get.value.uri == put.value.uri == reject.value.uri == RootedPath(["transfers", ToText(id)])
      && ('/' !in ToText(id) ==> Split(get.value.uri, '/') == ["", "transfers", ToText(id)])
      && get.value.verb == Get && put.value.verb == Put && reject.value.verb == Put
      && put.value.body == Some(Obj(map["fulfillment" := f]))
      && reject.value.body == Some(Obj(map["rejection" := rejection]))
  {
    if '/' !in ToText(id) {
      RootedPathSplit(["transfers", ToText(id)]);
    }
  }

  /**
   * Sending a transfer posts the adapted body to `/transfers`, and sending a
   * message posts the message to `/messages`, both on the ILP API.
   */
  lemma PostRequests(a: Address, body: Value, message: Value)
    requires a.Valid()
    ensures RestRequest(a, SendTransferCall(body)) == Some(HttpRequest(IlpApi, Str(a.User()), Post, "/transfers", Some(body)))
    ensures RestRequest(a, SendMessageCall(message)) == Some(HttpRequest(IlpApi, Str(a.User()), Post, "/messages", Some(message)))
  {
    assert RootedPath(["transfers"]) == "/transfers";
    assert RootedPath(["messages"]) == "/messages";
  }

  class Gateway {
    /** The account the gateway was made for; the REST headers are built from it. */
    const configured: Address
    const ilpUrl: Value
    var connected: bool
    var ws: Option<SocketId>
    var connection: Reconnector?
    var requestId: nat
    /** The object's own `account` field: null until the first `connect()` stores the account. */
    var account: Option<Address>
    var wire: seq<WireAction>
    var emitted: seq<GatewayEvent>

    ghost predicate Valid()
      reads this`wire, this`requestId, this`account
    {
      && configured.Valid()
      && IdsIssuedBelow(wire, requestId)
      && (account.Some? ==> account.value == configured)
    }

    constructor (account: Address, ilpUrl: Value)
      requires account.Valid()
      ensures Valid()
      ensures configured == account && this.ilpUrl == ilpUrl && this.account == None
      ensures !connected && ws == None && connection == null && requestId == 0
      ensures wire == [] && emitted == []
    {
      configured := account;
      this.ilpUrl := ilpUrl;
      connected := false;
      ws := None;
      connection := null;
      requestId := 0;
      this.account := None;
      wire := [];
      emitted := [];
    }

    /**
     * `connect()`: resolves at once when already connected. Otherwise it
     * stores the account and starts a reconnecting connection, whose own
     * promise its `connect` frame resolves; a non-string URL makes the
     * promise's executor throw before any connection is made.
     */
    method Connect() returns (r: PromiseState)
      requires Valid()
      modifies this
      ensures Valid()
      ensures old(connected) ==> r == Resolved(Null) && connection == old(connection) && account == old(account)
      ensures !old(connected) ==> account == Some(configured)
      ensures !old(connected) && !ilpUrl.Str? ==> r == Failed(TypeError) && connection == old(connection)
      ensures !old(connected) && ilpUrl.Str? ==>
        && r == Pending && connection != null && fresh(connection)
        && connection.reconnect && connection.socket == None && connection.promise == r
      ensures connected == old(connected) && ws == old(ws) && requestId == old(requestId)
      ensures wire == old(wire) && emitted == old(emitted)
    {
      if connected {
        return Resolved(Null);
      }
      account := Some(configured);
      if !ilpUrl.Str? {
        return Failed(TypeError);
      }
      connection := new Reconnector();
      r := Pending;
    }

    /**
     * The `message` handler of a socket made by emitter `e`: it settles the
     * promise of the `connect()` call that made `e`, not a later one.
     */
    method OnFrame(e: Reconnector, f: Frame) returns (thrown: Option<Error>)
      requires Valid()
      modifies this, e`promise
      ensures Valid()
      ensures var c := Classify(f);
        && connected == (old(connected) || c.ConnectFrame?)
        && emitted == old(emitted) + Emits(c)
        && e.promise == (if c.ConnectFrame? then Settle(old(e.promise), Resolved(Null)) else old(e.promise))
        && thrown == (if c.Threw? then Some(c.error) else None)
      ensures ws == old(ws) && connection == old(connection) && requestId == old(requestId)
      ensures wire == old(wire) && account == old(account)
    {
      thrown := None;
      var c := Classify(f);
      match c {
        case ConnectFrame =>
          connected := true;
          emitted := emitted + [Connected];
          e.promise := Settle(e.promise, Resolved(Null));
        case MessageFrame(m) =>
          emitted := emitted + [MessageArrived(m)];
        case TransferFrame(m) =>
          emitted := emitted + [TransferArrived(m)];
        case ResultFrame(m) =>
          emitted := emitted + [ResultArrived(m)];
        case Threw(err) =>
          thrown := Some(err);
        case Dropped =>
      }
    }

    /** The reconnect library's `connect` event: emitter `e` now holds socket `s`. */
    method OnTransportConnect(e: Reconnector, s: SocketId)
      requires Valid()
      modifies this, e`socket
      ensures Valid()
      ensures ws == Some(s) && e.socket == Some(s)
      ensures connected == old(connected) && connection == old(connection) && requestId == old(requestId)
      ensures wire == old(wire) && emitted == old(emitted) && account == old(account)
    {
      e.socket := Some(s);
      ws := Some(s);
    }

    /** The reconnect library's `disconnect` event; the emitter goes on reconnecting. */
    method OnTransportDisconnect()
      requires Valid()
      modifies this
      ensures Valid()
      ensures ws == None && !connected && emitted == old(emitted) + [Disconnected]
      ensures connection == old(connection) && requestId == old(requestId)
      ensures wire == old(wire) && account == old(account)
    {
      ws := None;
      connected := false;
      emitted := emitted + [Disconnected];
    }

    /** The `error` event of emitter `e` rejects the promise of the `connect()` call that made it. */
    method OnTransportError(e: Reconnector, reason: Value)
      modifies e`promise
      ensures e.promise == Settle(old(e.promise), Failed(Remote(reason)))
    {
      e.promise := Settle(e.promise, Failed(Remote(reason)));
    }

    /**
     * `disconnect()`: nothing without a connection; otherwise forget it, stop
     * its reconnecting and close the socket it holds.
     */
    method Disconnect()
      requires Valid()
      modifies this, connection
      ensures Valid()
      ensures old(connection) == null ==> connection == null && wire == old(wire)
      ensures old(connection) != null ==>
        && connection == null
        && !old(connection).reconnect
        && old(connection).socket == old(connection.socket)
        && old(connection).promise == old(connection.promise)
        && wire == old(wire) + (if old(connection.socket).Some? then [Close(old(connection.socket).value)] else [])
      ensures connected == old(connected) && ws == old(ws) && requestId == old(requestId)
      ensures emitted == old(emitted) && account == old(account)
    {
      var emitter := connection;
      if emitter == null {
        return;
      }
      connection := null;
      emitter.reconnect := false;
      if emitter.socket.Some? {
        CloseKeepsIdsIssued(wire, requestId, emitter.socket.value);
        wire := wire + [Close(emitter.socket.value)];
      }
    }

    /**
     * `sendWs(method, params)`: UnreachableError without a socket; otherwise
     * advance the counter and write the envelope with the new id.
     */
    method SendWs(name: string, params: Value) returns (r: Result<()>)
      requires Valid()
      modifies this
      ensures Valid()
      ensures old(ws).None? ==> r == Err(Unreachable) && requestId == old(requestId) && wire == old(wire)
      ensures old(ws).Some? ==>
        && r == Ok(())
        && requestId == old(requestId) + 1
        && wire == old(wire) + [Send(old(ws).value, RpcFrame("2.0", requestId, name, params))]
        && SentIds(wire) == SentIds(old(wire)) + [requestId]
      ensures connected == old(connected) && ws == old(ws) && connection == old(connection)
      ensures emitted == old(emitted) && account == old(account)
    {
      if ws.None? {
        return Err(Unreachable);
      }
      var frame := RpcFrame("2.0", requestId + 1, name, params);
      SendKeepsIdsIssued(wire, requestId, ws.value, frame);
      requestId := requestId + 1;
      wire := wire + [Send(ws.value, frame)];
      r := Ok(());
    }

    /**
     * `subscribe()`: the subscribe RPC for `vault.wallet` of the stored
     * account; before the first `connect()` there is none and it throws.
     */
    method Subscribe() returns (r: Result<()>)
      requires Valid()
      modifies this
      ensures Valid()
      ensures old(account).None? ==> r == Err(TypeError) && requestId == old(requestId) && wire == old(wire)
      ensures old(account).Some? && old(ws).None? ==>
        r == Err(Unreachable) && requestId == old(requestId) && wire == old(wire)
      ensures old(account).Some? && old(ws).Some? ==>
        && r == Ok(())
        && requestId == old(requestId) + 1
        && wire == old(wire) + [Send(old(ws).value, RpcFrame("2.0", requestId, "subscribe", SubscribeParams(configured)))]
      ensures connected == old(connected) && ws == old(ws) && connection == old(connection)
      ensures emitted == old(emitted) && account == old(account)
    {
      if account.None? {
        return Err(TypeError);
      }
      r := SendWs("subscribe", SubscribeParams(account.value));
    }

    /**
     * The REST request a verb issues. The info and balance paths read the
     * stored account and throw before the first `connect()`; the headers,
     * and the transfer and message verbs, use the account the gateway was
     * made for.
     */
    method Request(call: GatewayCall) returns (r: Result<Option<HttpRequest>>)
      requires Valid()
      ensures (call.GetInfoCall? || call.GetBalanceCall?) && account.None? ==> r == Err(TypeError)
      ensures !((call.GetInfoCall? || call.GetBalanceCall?) && account.None?) ==> r == Ok(RestRequest(configured, call))
    {
      if (call.GetInfoCall? || call.GetBalanceCall?) && account.None? {
        return Err(TypeError);
      }
      r := Ok(RestRequest(configured, call));
    }
  }

  /**
   * A frame on the socket of an older emitter settles that emitter's promise
   * and leaves the promise of a later `connect()` pending.
   */
  method StaleFrameKeepsNewPromise(a: Address, url: string, first: SocketId, second: SocketId)
    returns (g: Gateway, older: Reconnector, newer: Reconnector)
    requires a.Valid()
    ensures older != newer && g.connection == newer
    ensures older.promise == Resolved(Null) && newer.promise == Pending
    ensures g.connected
  {
    var connectFrame := Parsed(Obj(map["method" := Str("connect")]));
    g := new Gateway(a, Str(url));
    var p := g.Connect();
    older := g.connection;
    g.OnTransportConnect(older, first);
    var thrown := g.OnFrame(older, connectFrame);
    g.OnTransportDisconnect();
    p := g.Connect();
    newer := g.connection;
    g.OnTransportConnect(older, second);
    thrown := g.OnFrame(older, connectFrame);
  }

  /** Only a `connect` frame turns the connected flag on. */
  lemma OnlyConnectFrameConnects(f: Frame)
    ensures Classify(f).ConnectFrame? <==> f.Parsed? && !IsNil(f.message) && Read(f.message, "method") == Str("connect")
  {
  }

  /** A `connect` method wins over a `result` field; a `message` method wins over `transfer` matching. */
  lemma ClassificationOrder(m: map<string, Value>)
    ensures Field(m, "method") == Str("connect") ==> Classify(Parsed(Obj(m))) == ConnectFrame
    ensures Field(m, "method") == Str("message") ==> Classify(Parsed(Obj(m))) == MessageFrame(Obj(m))
    ensures Field(m, "method") == Str("transfer.create") ==> Classify(Parsed(Obj(m))) == TransferFrame(Obj(m))
    ensures !Truthy(Field(m, "method")) && Truthy(Field(m, "result")) ==> Classify(Parsed(Obj(m))) == ResultFrame(Obj(m))
    ensures !Truthy(Field(m, "method")) && !Truthy(Field(m, "result")) ==> Classify(Parsed(Obj(m))) == Dropped
  {
    var t := "transfer.create";
    assert t[..|"transfer"|] == "transfer";
  }
}
