/**
 * The older gateway: a singleton configured by `connect(opts)` with a ledger
 * and an account record. It differs from the internal gateway in when it
 * reports being connected (on socket open), in its frame classifier (no
 * `result` branch, no guard against a missing method), and in `sendWs`,
 * which rejects without a socket and registers a reply listener per id.
 */
module GatehubLegacy {
  import opened Js
  import opened Transport
  import GatehubInternal

  /** Where an inbound frame goes, in the order the legacy message handler tests it. */
  datatype Classification =
    | Dropped
    | ResolveConnect
    | MessageFrame(message: Value)
    | TransferFrame(message: Value)
    | Threw(error: Error)

  function Classify(f: Frame): (c: Classification)
    ensures f.Unparsable? ==> c == Dropped
    ensures f.Parsed? && IsNil(f.message) ==> c == Threw(TypeError)
    ensures f.Parsed? && !IsNil(f.message) ==>
      var name := Read(f.message, "method");
      && (c.ResolveConnect? <==> name == Str("connect"))
      && (c.MessageFrame? <==> name == Str("message"))
      && (c.TransferFrame? <==> name.Str? && name.s != "connect" && name.s != "message" && Includes(name.s, "transfer"))
      && (c.Threw? <==> !name.Str?)
      && (c.Dropped? <==> name.Str? && name.s != "connect" && name.s != "message" && !Includes(name.s, "transfer"))
      && (c.MessageFrame? || c.TransferFrame? ==> c.message == f.message)
  {
    match f
    case Unparsable => Dropped
    case Parsed(message) =>
      if IsNil(message) then Threw(TypeError)
      else
        var name := Read(message, "method");
        LooseEqualsWord(name, "message");
        if name == Str("connect") then ResolveConnect
        else if LooseEqualsText(name, "message") then MessageFrame(message)
        else if !name.Str? then Threw(TypeError)
        else if Includes(name.s, "transfer") then TransferFrame(message)
        else Dropped
  }

  /**
   * What a classified frame makes the gateway emit: one event carrying the
   * frame for a message or a transfer, and nothing otherwise; in particular
   * the `connect` frame emits nothing here.
   */
  function Emits(c: Classification): (r: seq<GatewayEvent>)
    ensures r != [] <==> c.MessageFrame? || c.TransferFrame?
    ensures r != [] ==> |r| == 1 && !r[0].Connected? && !r[0].Disconnected? && r[0].payload == c.message
  {
    match c
    case MessageFrame(m) => [MessageArrived(m)]
    case TransferFrame(m) => [TransferArrived(m)]
    case ResolveConnect => []
    case Dropped => []
    case Threw(_) => []
  }

  /** A frame without a method fails at `.includes` whatever else it carries, a `result` included. */
  lemma MissingMethodThrows(m: map<string, Value>)
    requires "method" !in m
    ensures Classify(Parsed(Obj(m))) == Threw(TypeError)
  {
  }

  /**
   * Where the two gateways disagree: a `connect` frame connects only the
   * internal one, and a method-less `result` frame is emitted by the internal
   * one but throws in the legacy one.
   */
  lemma VariantsDiffer(result: Value)
    requires Truthy(result)
    ensures var connect := Parsed(Obj(map["method" := Str("connect")]));
      GatehubInternal.Classify(connect) == GatehubInternal.ConnectFrame && Classify(connect) == ResolveConnect
    ensures var reply := Parsed(Obj(map["result" := result]));
      GatehubInternal.Classify(reply) == GatehubInternal.ResultFrame(Obj(map["result" := result]))
      && Classify(reply) == Threw(TypeError)
  {
  }

  /** The two classifiers agree on message and transfer frames. */
  lemma VariantsAgreeOnNotifications(f: Frame)
    ensures Classify(f).MessageFrame? <==> GatehubInternal.Classify(f).MessageFrame?
    ensures Classify(f).TransferFrame? <==> GatehubInternal.Classify(f).TransferFrame?
    ensures Emits(Classify(f)) == [] || Emits(Classify(f)) == GatehubInternal.Emits(GatehubInternal.Classify(f))
  {
  }

  /** Every registered reply listener waits for an id that was written. */
  ghost predicate ListenersSent(awaiting: set<nat>, wire: seq<WireAction>) {
    forall id | id in awaiting :: id in SentIds(wire)
  }

  /** Writing the next id and listening for it keeps both invariants; the id had no listener yet. */
  lemma ListenerForNextId(awaiting: set<nat>, wire: seq<WireAction>, requestId: nat, socket: SocketId, frame: RpcFrame)
    requires IdsIssuedBelow(wire, requestId) && ListenersSent(awaiting, wire)
    requires frame.id == requestId + 1
    ensures requestId + 1 !in awaiting
    ensures SentIds(wire + [Send(socket, frame)]) == SentIds(wire) + [frame.id]
    ensures IdsIssuedBelow(wire + [Send(socket, frame)], requestId + 1)
    ensures ListenersSent(awaiting + {requestId + 1}, wire + [Send(socket, frame)])
  {
    NextIdUnsent(wire, requestId);
    SendKeepsIdsIssued(wire, requestId, socket, frame);
  }

  /** Closing a socket keeps every listener's id among the written ones. */
  lemma CloseKeepsListeners(awaiting: set<nat>, wire: seq<WireAction>, requestId: nat, socket: SocketId)
    requires IdsIssuedBelow(wire, requestId) && ListenersSent(awaiting, wire)
    ensures IdsIssuedBelow(wire + [Close(socket)], requestId)
    ensures ListenersSent(awaiting, wire + [Close(socket)])
  {
    CloseKeepsIdsIssued(wire, requestId, socket);
  }

  /** The `request.defaults` a connect builds: base URL and `x-gatehub-uuid` header. */
  datatype ApiDefaults = ApiDefaults(baseUrl: Value, userHeader: Value)

  class LegacyGateway {
    var connected: bool
    var ws: Option<SocketId>
    var connection: Reconnector?
    var requestId: nat
    var ledger: Value
    var account: Value
    var ilpApi: Option<ApiDefaults>
    var coreApi: Option<ApiDefaults>
    var wire: seq<WireAction>
    var emitted: seq<GatewayEvent>
    /** The ids whose `ws:response` listeners are still registered. */
    var awaiting: set<nat>

    /**
     * The counter invariant, and every registered listener waits for an id
     * that was actually written.
     */
    ghost predicate Valid()
      reads this`wire, this`requestId, this`awaiting
    {
      IdsIssuedBelow(wire, requestId) && ListenersSent(awaiting, wire)
    }

    constructor ()
      ensures Valid()
      ensures !connected && ws == None && connection == null && requestId == 0
      ensures ledger == Null && account == Null && ilpApi == None && coreApi == None
      ensures wire == [] && emitted == [] && awaiting == {}
    {
      connected := false;
      ws := None;
      connection := null;
      requestId := 0;
      ledger := Null;
      account := Null;
      ilpApi := None;
      coreApi := None;
      wire := [];
      emitted := [];
      awaiting := {};
    }

    /**
     * `connect(opts)`: resolves at once when connected. Otherwise it stores
     * `opts.ledger` and `opts.account`, builds the two API defaults (which
     * throws when either is missing) and starts the reconnecting connection;
     * a non-string `ilpUrl` makes the promise's executor throw.
     */
    method Connect(opts: Value) returns (r: Result<PromiseState>)
      requires Valid()
      modifies this
      ensures Valid()
      ensures if old(connected) || IsNil(opts) then
          && r == (if old(connected) then Ok(Resolved(Null)) else Err(TypeError))
          && ledger == old(ledger) && account == old(account) && ilpApi == old(ilpApi) && coreApi == old(coreApi)
          && connection == old(connection)
        else
          && ledger == Read(opts, "ledger") && account == Read(opts, "account")
          && if IsNil(ledger) || IsNil(account) then
               && r == Err(TypeError) && ilpApi == old(ilpApi) && coreApi == old(coreApi)
               && connection == old(connection)
             else
               && ilpApi == Some(ApiDefaults(Read(ledger, "ilpUrl"), Read(account, "userUuid")))
               && coreApi == Some(ApiDefaults(Read(ledger, "coreUrl"), Read(account, "userUuid")))
               && if !Read(ledger, "ilpUrl").Str? then
                    r == Ok(Failed(TypeError)) && connection == old(connection)
                  else
                    && r == Ok(Pending) && connection != null && fresh(connection)
                    && connection.reconnect && connection.socket == None && connection.promise == Pending
      ensures connected == old(connected) && ws == old(ws) && requestId == old(requestId)
      ensures wire == old(wire) && emitted == old(emitted) && awaiting == old(awaiting)
    {
      if connected {
        return Ok(Resolved(Null));
      }
      if IsNil(opts) {
        return Err(TypeError);
      }
      var l, u := Read(opts, "ledger"), Read(opts, "account");
      if IsNil(l) || IsNil(u) {
        ledger, account := l, u;
        return Err(TypeError);
      }
      r := StartConnection(l, u);
    }

    /** The rest of `connect()` once the ledger and account options are there: the APIs, then the socket. */
    method StartConnection(l: Value, u: Value) returns (r: Result<PromiseState>)
      requires Valid() && !IsNil(l) && !IsNil(u)
      modifies this`ledger, this`account, this`ilpApi, this`coreApi, this`connection
      ensures Valid()
      ensures ledger == l && account == u
      ensures ilpApi == Some(ApiDefaults(Read(l, "ilpUrl"), Read(u, "userUuid")))
      ensures coreApi == Some(ApiDefaults(Read(l, "coreUrl"), Read(u, "userUuid")))
      ensures !Read(l, "ilpUrl").Str? ==>
        r == Ok(Failed(TypeError)) && connection == old(connection)
      ensures Read(l, "ilpUrl").Str? ==>
        && r == Ok(Pending) && connection != null && fresh(connection)
        && connection.reconnect && connection.socket == None && connection.promise == Pending
    {
      var url, user := Read(l, "ilpUrl"), Read(u, "userUuid");
      ledger, account := l, u;
      ilpApi, coreApi := Some(ApiDefaults(url, user)), Some(ApiDefaults(Read(l, "coreUrl"), user));
      if !url.Str? {
        return Ok(Failed(TypeError));
      }
      connection := new Reconnector();
      r := Ok(Pending);
    }

    /** The socket's `open` handler: this variant is connected as soon as the socket opens. */
    method OnOpen()
      requires Valid()
      modifies this
      ensures Valid()
      ensures ledger == old(ledger) && account == old(account) && ilpApi == old(ilpApi) && coreApi == old(coreApi)
      ensures connected && emitted == old(emitted) + [Connected]
      ensures ws == old(ws) && connection == old(connection) && requestId == old(requestId)
      ensures wire == old(wire) && awaiting == old(awaiting)
    {
      connected := true;
      emitted := emitted + [Connected];
    }

    /**
     * The `message` handler of a socket made by emitter `e`: a `connect`
     * frame only settles the promise of the `connect()` call that made `e`.
     */
    method OnFrame(e: Reconnector, f: Frame) returns (thrown: Option<Error>)
      requires Valid()
      modifies this, e`promise
      ensures Valid()
      ensures ledger == old(ledger) && account == old(account) && ilpApi == old(ilpApi) && coreApi == old(coreApi)
      ensures var c := Classify(f);
        && emitted == old(emitted) + Emits(c)
        && e.promise == (if c.ResolveConnect? then Settle(old(e.promise), Resolved(Null)) else old(e.promise))
        && thrown == (if c.Threw? then Some(c.error) else None)
      ensures connected == old(connected) && ws == old(ws) && connection == old(connection)
      ensures requestId == old(requestId) && wire == old(wire) && awaiting == old(awaiting)
    {
      thrown := None;
      var c := Classify(f);
      match c {
        case ResolveConnect =>
          e.promise := Settle(e.promise, Resolved(Null));
        case MessageFrame(m) =>
          emitted := emitted + [MessageArrived(m)];
        case TransferFrame(m) =>
          emitted := emitted + [TransferArrived(m)];
        case Threw(err) =>
          thrown := Some(err);
        case Dropped =>
      }
    }

    /** The reconnect library's `connect` event: emitter `e` now holds socket `s`. */
    method OnTransportConnect(e: Reconnector, s: SocketId)
      requires Valid()
      modifies this, e`socket
      ensures Valid()
      ensures ledger == old(ledger) && account == old(account) && ilpApi == old(ilpApi) && coreApi == old(coreApi)
      ensures ws == Some(s) && e.socket == Some(s)
      ensures connected == old(connected) && connection == old(connection) && requestId == old(requestId)
      ensures wire == old(wire) && emitted == old(emitted)
      ensures awaiting == old(awaiting)
    {
      e.socket := Some(s);
      ws := Some(s);
    }

    /** The reconnect library's `disconnect` event; the emitter goes on reconnecting. */
    method OnTransportDisconnect()
      requires Valid()
      modifies this
      ensures Valid()
      ensures ledger == old(ledger) && account == old(account) && ilpApi == old(ilpApi) && coreApi == old(coreApi)
      ensures ws == None && !connected && emitted == old(emitted) + [Disconnected]
      ensures connection == old(connection) && requestId == old(requestId)
      ensures wire == old(wire) && awaiting == old(awaiting)
    {
      ws := None;
      connected := false;
      emitted := emitted + [Disconnected];
    }

    /** The `error` event of emitter `e` rejects the promise of the `connect()` call that made it. */
    method OnTransportError(e: Reconnector, reason: Value)
      modifies e`promise
      ensures e.promise == Settle(old(e.promise), Failed(Remote(reason)))
    {
      e.promise := Settle(e.promise, Failed(Remote(reason)));
    }

    /**
     * `disconnect()`: nothing without a connection; otherwise forget it, stop
     * its reconnecting and close the socket it holds.
     */
    method Disconnect()
      requires Valid()
      modifies this, connection
      ensures Valid()
      ensures ledger == old(ledger) && account == old(account) && ilpApi == old(ilpApi) && coreApi == old(coreApi)
      ensures old(connection) == null ==> connection == null && wire == old(wire)
      ensures old(connection) != null ==>
        && connection == null
        && !old(connection).reconnect
        && old(connection).socket == old(connection.socket)
        && old(connection).promise == old(connection.promise)
        && wire == old(wire) + (if old(connection.socket).Some? then [Close(old(connection.socket).value)] else [])
      ensures connected == old(connected) && ws == old(ws) && requestId == old(requestId)
      ensures emitted == old(emitted) && awaiting == old(awaiting)
    {
      var emitter := connection;
      if emitter == null {
        return;
      }
      connection := null;
      emitter.reconnect := false;
      if emitter.socket.Some? {
        CloseKeepsListeners(awaiting, wire, requestId, emitter.socket.value);
        wire := wire + [Close(emitter.socket.value)];
      }
    }

    /**
     * `sendWs(method, params)`: a rejection without a socket; otherwise
     * advance the counter, register a listener for the new id, write the
     * envelope and resolve at once, before any reply.
     */
    method SendWs(name: string, params: Value) returns (r: Result<()>)
      requires Valid()
      modifies this
      ensures Valid()
      ensures ledger == old(ledger) && account == old(account) && ilpApi == old(ilpApi) && coreApi == old(coreApi)
      ensures old(ws).None? ==>
        r == Err(Rejected) && requestId == old(requestId) && wire == old(wire) && awaiting == old(awaiting)
      ensures old(ws).Some? ==>
        && r == Ok(())
        && requestId == old(requestId) + 1
        && old(requestId) + 1 !in old(awaiting)
        && awaiting == old(awaiting) + {requestId}
        && wire == old(wire) + [Send(old(ws).value, RpcFrame("2.0", requestId, name, params))]
        && SentIds(wire) == SentIds(old(wire)) + [requestId]
      ensures connected == old(connected) && ws == old(ws) && connection == old(connection)
      ensures emitted == old(emitted)
    {
      if ws.None? {
        return Err(Rejected);
      }
      var frame := RpcFrame("2.0", requestId + 1, name, params);
      SendKeepsIdsIssued(wire, requestId, ws.value, frame);
      ListenerForNextId(awaiting, wire, requestId, ws.value, frame);
      requestId := requestId + 1;
      wire := wire + [Send(ws.value, frame)];
      awaiting := awaiting + {requestId};
      r := Ok(());
    }

    /** `subscribe()`: the subscribe RPC for `account.wallet`; a missing account throws. */
    method Subscribe() returns (r: Result<()>)
      requires Valid()
      modifies this
      ensures Valid()
      ensures ledger == old(ledger) && account == old(account) && ilpApi == old(ilpApi) && coreApi == old(coreApi)
      ensures IsNil(old(account)) ==>
        r == Err(TypeError) && requestId == old(requestId) && wire == old(wire) && awaiting == old(awaiting)
      ensures !IsNil(old(account)) && old(ws).None? ==>
        r == Err(Rejected) && requestId == old(requestId) && wire == old(wire) && awaiting == old(awaiting)
      ensures !IsNil(old(account)) && old(ws).Some? ==>
        && r == Ok(())
        && requestId == old(requestId) + 1
        && awaiting == old(awaiting) + {requestId}
        && wire == old(wire) + [Send(old(ws).value, RpcFrame("2.0", requestId, "subscribe",
                                                             Obj(map["account" := Read(old(account), "wallet")])))]
      ensures connected == old(connected) && ws == old(ws) && connection == old(connection)
      ensures emitted == old(emitted)
    {
      if IsNil(account) {
        return Err(TypeError);
      }
      r := SendWs("subscribe", Obj(map["account" := Read(account, "wallet")]));
    }

    /**
     * A `ws:response` event reaching the registered listeners. A listener
     * ignores a response whose `id` is not its own; the matching one is
     * removed, and one whose response carries an `error` then fails on the
     * undefined `ExternalError`. The `sendWs` promise it belonged to has
     * already resolved, so nothing else changes.
     */
    method OnResponse(response: Value) returns (thrown: Option<Error>)
      requires Valid()
      modifies this
      ensures Valid()
      ensures ledger == old(ledger) && account == old(account) && ilpApi == old(ilpApi) && coreApi == old(coreApi)
      ensures old(awaiting) == {} ==> thrown == None && awaiting == old(awaiting)
      ensures old(awaiting) != {} && IsNil(response) ==> thrown == Some(TypeError) && awaiting == old(awaiting)
      ensures !IsNil(response) ==>
        var id := Read(response, "id");
        if id.Num? && id.n >= 0 && id.n as nat in old(awaiting) then
          && awaiting == old(awaiting) - {id.n as nat}
          && thrown == (if Truthy(Read(response, "error")) then Some(ReferenceError("ExternalError")) else None)
        else
          awaiting == old(awaiting) && thrown == None
      ensures connected == old(connected) && ws == old(ws) && connection == old(connection)
      ensures requestId == old(requestId) && wire == old(wire) && emitted == old(emitted)
    {
      thrown := None;
      if awaiting == {} {
        return;
      }
      if IsNil(response) {
        return Some(TypeError);
      }
      var id := Read(response, "id");
      if id.Num? && id.n >= 0 && id.n as nat in awaiting {
        awaiting := awaiting - {id.n as nat};
        if Truthy(Read(response, "error")) {
          thrown := Some(ReferenceError("ExternalError"));
        }
      }
    }

    /**
     * `getInfo()`: a rejection while not connected; otherwise the GET of the
     * ledger's gateway and vault, sent with the stored ILP defaults.
     */
    method GetInfo() returns (r: Result<HttpRequest>)
      ensures !connected ==> r == Err(Rejected)
      ensures connected && (IsNil(ledger) || ilpApi.None?) ==> r == Err(TypeError)
      ensures connected && !IsNil(ledger) && ilpApi.Some? ==>
        && r.Ok? && r.value.api == IlpApi && r.value.verb == Get && r.value.body == None
        && r.value.userHeader == ilpApi.value.userHeader
        && r.value.uri == RootedPath(["gateways", ToText(Read(ledger, "gatewayUuid")), "vaults", ToText(Read(ledger, "vaultUuid"))])
    {
      if !connected {
        return Err(Rejected);
      }
      if IsNil(ledger) || ilpApi.None? {
        return Err(TypeError);
      }
      var path := RootedPath(["gateways", ToText(Read(ledger, "gatewayUuid")), "vaults", ToText(Read(ledger, "vaultUuid"))]);
      r := Ok(HttpRequest(IlpApi, ilpApi.value.userHeader, Get, path, None));
    }
  }

  /**
   * The legacy gateway's `connected` flag follows the socket, not the
   * notification stream: from a fresh gateway, a `connect` frame leaves it
   * disconnected and an `open` connects it.
   */
  method ConnectedFollowsOpen(s: SocketId, e: Reconnector) returns (g: LegacyGateway)
    modifies e`socket, e`promise
    ensures fresh(g) && g.connected && g.ws == Some(s)
    ensures g.emitted == [Connected]
  {
    g := new LegacyGateway();
    g.OnTransportConnect(e, s);
    var thrown := g.OnFrame(e, Parsed(Obj(map["method" := Str("connect")])));
    assert !g.connected;
    g.OnOpen();
  }
}
