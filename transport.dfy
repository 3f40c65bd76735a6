/**
 * What the gateways exchange with the socket, reconnect and HTTP libraries:
 * inbound frames, the JSON-RPC envelope they write, the actions they take
 * on a socket, the events they emit, the state of a pending connect
 * promise, the reconnecting emitter object, and the REST requests they issue.
 */
module Transport {
  import opened Js

  /** One inbound socket frame: `JSON.parse` of it either throws or gives a value. */
  datatype Frame = Unparsable | Parsed(message: Value)

  /** The envelope `{jsonrpc, id, method, params}` written for an outbound RPC. */
  datatype RpcFrame = RpcFrame(jsonrpc: string, id: nat, methodName: string, params: Value)

  type SocketId = nat

  /** Something a gateway does to a socket: write a frame, or close it. */
  datatype WireAction = Send(socket: SocketId, frame: RpcFrame) | Close(socket: SocketId)

  /** Events a gateway emits to the plugin: `connect`, `disconnect`, `message`, `transfer`, `result`. */
  datatype GatewayEvent =
    | Connected
    | Disconnected
    | MessageArrived(payload: Value)
    | TransferArrived(payload: Value)
    | ResultArrived(payload: Value)

  /** A promise returned by `connect()`: never created, pending, or settled once. */
  datatype PromiseState = NoPromise | Pending | Resolved(value: Value) | Failed(error: Error)

  /** Settling a promise has an effect only while it is pending. */
  function Settle(p: PromiseState, outcome: PromiseState): (r: PromiseState)
    requires outcome.Resolved? || outcome.Failed?
    ensures p.Pending? ==> r == outcome
    ensures !p.Pending? ==> r == p
  {
    if p.Pending? then outcome else p
  }

  /**
   * The emitter the reconnect library returns: its `reconnect` flag, which
   * the gateways clear to stop further attempts, the socket it currently
   * holds (the library's `_connection`), and the promise of the `connect()`
   * call that created it, whose `resolve` and `reject` its handlers close
   * over. A later `connect()` makes a new emitter with a promise of its own.
   */
  class Reconnector {
    var reconnect: bool
    var socket: Option<SocketId>
    var promise: PromiseState

    constructor ()
      ensures reconnect && socket == None && promise == Pending
    {
      reconnect := true;
      socket := None;
      promise := Pending;
    }
  }

  /** The ids of the frames written, in order. */
  function SentIds(wire: seq<WireAction>): (ids: seq<nat>)
    ensures |ids| <= |wire|
  {
    if wire == [] then []
    else
      var last := wire[|wire| - 1];
      SentIds(wire[..|wire| - 1]) + (if last.Send? then [last.frame.id] else [])
  }

  ghost predicate StrictlyIncreasing(ids: seq<nat>) {
    forall i, j | 0 <= i < j < |ids| :: ids[i] < ids[j]
  }

  ghost predicate AllAtMost(ids: seq<nat>, bound: nat) {
    forall i | 0 <= i < |ids| :: ids[i] <= bound
  }

  /**
   * The invariant of the request counter: the ids written so far increase
   * strictly and none exceeds the counter.
   */
  ghost predicate IdsIssuedBelow(wire: seq<WireAction>, requestId: nat) {
    StrictlyIncreasing(SentIds(wire)) && AllAtMost(SentIds(wire), requestId)
  }

  /** Writing a frame with the next id keeps the invariant with the counter advanced. */
  lemma SendKeepsIdsIssued(wire: seq<WireAction>, requestId: nat, socket: SocketId, frame: RpcFrame)
    requires IdsIssuedBelow(wire, requestId)
    requires frame.id == requestId + 1
    ensures SentIds(wire + [Send(socket, frame)]) == SentIds(wire) + [frame.id]
    ensures IdsIssuedBelow(wire + [Send(socket, frame)], requestId + 1)
  {
    assert (wire + [Send(socket, frame)])[..|wire|] == wire;
  }

  /** Closing a socket writes no frame. */
  lemma CloseKeepsIdsIssued(wire: seq<WireAction>, requestId: nat, socket: SocketId)
    requires IdsIssuedBelow(wire, requestId)
    ensures SentIds(wire + [Close(socket)]) == SentIds(wire)
    ensures IdsIssuedBelow(wire + [Close(socket)], requestId)
  {
    assert (wire + [Close(socket)])[..|wire|] == wire;
  }

  /** The next id has not been written yet. */
  lemma NextIdUnsent(wire: seq<WireAction>, requestId: nat)
    requires IdsIssuedBelow(wire, requestId)
    ensures requestId + 1 !in SentIds(wire)
  {
  }

  /** Strictly increasing ids are never reused. */
  lemma IncreasingIdsDistinct(ids: seq<nat>, i: nat, j: nat)
    requires StrictlyIncreasing(ids)
    requires i < |ids| && j < |ids| && i != j
    ensures ids[i] != ids[j]
  {
  }

  // ---------------------------------------------------------------------
  // REST requests

  datatype Api = IlpApi | CoreApi
  datatype HttpMethod = Get | Put | Post

  /** A request as handed to the HTTP library: which base URL, the user header, verb, path and JSON body. */
  datatype HttpRequest = HttpRequest(api: Api, userHeader: Value, verb: HttpMethod, uri: string, body: Option<Value>)

  /** The REST path `/s0/s1/...` of a sequence of segments. */
  function RootedPath(segments: seq<string>): string
    requires |segments| >= 1
  {
    "/" + Join(segments, '/')
  }

  /** A rooted path of separator-free segments splits on '/' into "" and those segments. */
  lemma RootedPathSplit(segments: seq<string>)
    requires |segments| >= 1
    requires forall i | 0 <= i < |segments| :: '/' !in segments[i]
    ensures Split(RootedPath(segments), '/') == [""] + segments
  {
    SplitJoin(segments, '/');
    SplitAtSeparator("", Join(segments, '/'), '/');
    assert RootedPath(segments) == "" + "/" + Join(segments, '/');
  }
}
