/**
 * The transfer-notification translator of the plugin: a notification's
 * `data` is normalised into a transfer record, oriented as incoming or
 * outgoing relative to the plugin's wallet, and mapped by its state onto
 * lifecycle events `<direction>_prepare`, `_transfer`, `_fulfill`, `_cancel`.
 */
module TransferEvents {
  import opened Js
  import opened Account

  /** One emitted event: its name and the arguments passed to the listeners. */
  datatype Event = Event(name: string, args: seq<Value>)

  datatype Direction = Incoming | Outgoing

  function DirectionName(d: Direction): string {
    match d
    case Incoming => "incoming"
    case Outgoing => "outgoing"
  }

  /** `${direction}_${suffix}`, the name of a lifecycle event. */
  function EventName(d: Direction, suffix: string): string {
    DirectionName(d) + "_" + suffix
  }

  /** The gatehub field naming the other party of a transfer in direction `d`. */
  function CounterpartyKey(d: Direction): string {
    match d
    case Incoming => "sending_address"
    case Outgoing => "receiving_address"
  }

  /**
   * Which way a transfer goes for the plugin's own wallet: the receiving
   * address is tested first, so a transfer to oneself is incoming.
   */
  function Orient(own: Address, gh: Value): (d: Option<Direction>)
    requires own.Valid() && !IsNil(gh)
    ensures d == Some(Incoming) <==> LooseEqualsText(Read(gh, "receiving_address"), own.Wallet())
    ensures d == Some(Outgoing) <==>
      !LooseEqualsText(Read(gh, "receiving_address"), own.Wallet()) && LooseEqualsText(Read(gh, "sending_address"), own.Wallet())
  {
    if LooseEqualsText(Read(gh, "receiving_address"), own.Wallet()) then Some(Incoming)
    else if LooseEqualsText(Read(gh, "sending_address"), own.Wallet()) then Some(Outgoing)
    else None
  }

  /** lodash `omitBy(m, isNil)`: drop the keys whose value is null or undefined. */
  /** A key survives exactly when it held a value that is not nil, and keeps that value. */
  function OmitNil(m: map<string, Value>): (r: map<string, Value>)
    ensures forall k :: k in r <==> k in m && !IsNil(m[k])
    ensures forall k | k in r :: r[k] == m[k]
  {
    map k | k in m && !IsNil(m[k]) :: m[k]
  }

  /** The plugin field each gatehub transfer field is copied into, keyed by the plugin field. */
  const Renames: map<string, string> := map[
    "id" := "uuid",
    "amount" := "amount",
    "data" := "data",
    "noteToSelf" := "note",
    "executionCondition" := "execution_condition",
    "cancellationCondition" := "cancellation_condition",
    "expiresAt" := "expires_at"
  ]

  /** The renamed fields and the ledger prefix, before nil values are dropped. */
  function Renamed(own: Address, gh: Value): map<string, Value>
    requires own.Valid() && !IsNil(gh)
  {
    (map k | k in Renames :: Read(gh, Renames[k]))["ledger" := Str(own.Prefix())]
  }

  /** The fields every lifecycle event carries. */
  function CommonFields(own: Address, gh: Value): map<string, Value>
    requires own.Valid() && !IsNil(gh)
  {
    OmitNil(Renamed(own, gh))
  }

  /** The transfer record: the common fields plus the direction and the counterparty's account. */
  function TransferRecord(own: Address, gh: Value, d: Direction): (t: Value)
    requires own.Valid() && !IsNil(gh)
    ensures t.Obj?
  {
    Obj(CommonFields(own, gh) + map[
      "direction" := Str(DirectionName(d)),
      "account" := Str(own.AccountName() + "." + ToText(Read(gh, CounterpartyKey(d))))
    ])
  }

  /**
   * The lifecycle events one notification produces, in emission order. The
   * rules are tested one after another and are not exclusive: an executed
   * transfer may give both a `_transfer` and a `_fulfill`, or neither.
   */
  function Emitted(d: Direction, gh: Value, transfer: Value): (r: seq<Event>)
    requires !IsNil(gh) && transfer.Obj?
    ensures forall i | 0 <= i < |r| ::
      r[i].name in {EventName(d, "prepare"), EventName(d, "transfer"), EventName(d, "fulfill"), EventName(d, "cancel")}
  {
    var state := Read(gh, "state");
    var fulfillment := Read(gh, "execution_fulfillment");
    var cancellation := Read(gh, "cancellation_fulfilment");
    (if state == Str("prepared") then [Event(EventName(d, "prepare"), [transfer])] else [])
    + (if state == Str("executed") && !Truthy(Read(transfer, "executionCondition"))
       then [Event(EventName(d, "transfer"), [transfer])] else [])
    + (if state == Str("executed") && Truthy(fulfillment)
       then [Event(EventName(d, "fulfill"), [transfer, fulfillment])] else [])
    + (if state == Str("rejected")
       then [Event(EventName(d, "cancel"), [transfer, if Truthy(cancellation) then cancellation else Str("transfer timed out.")])]
       else [])
  }

  /**
   * A transfer notification's events: a missing message or missing `data`
   * throws, a transfer that does not involve the wallet gives none.
   */
  function NotificationEvents(own: Address, message: Value): (r: Result<seq<Event>>)
    requires own.Valid()
    ensures r.Err? <==> IsNil(message) || IsNil(Read(message, "data"))
    ensures r.Err? ==> r.error == TypeError
    ensures r.Ok? ==> var gh := Read(message, "data");
      && (Orient(own, gh).None? ==> r.value == [])
      && (Orient(own, gh).Some? ==>
            && r.value == Emitted(Orient(own, gh).value, gh, TransferRecord(own, gh, Orient(own, gh).value))
            && |r.value| <= 2
            && forall i | 0 <= i < |r.value| ::
                 |r.value[i].args| >= 1 && r.value[i].args[0] == TransferRecord(own, gh, Orient(own, gh).value))
  {
    if IsNil(message) then Err(TypeError)
    else
      var gh := Read(message, "data");
      if IsNil(gh) then Err(TypeError)
      else match Orient(own, gh)
        case None => Ok([])
        case Some(d) =>
          EmittedNonEmptyOnlyInLifecycle(d, gh, TransferRecord(own, gh, d));
          Ok(Emitted(d, gh, TransferRecord(own, gh, d)))
  }

  // ---------------------------------------------------------------------
  // The decision table

  /**
   * An oriented notification gives at most two events, only in a state the
   * table knows, and every event passes the record as its first argument.
   */
  lemma EmittedNonEmptyOnlyInLifecycle(d: Direction, gh: Value, transfer: Value)
    requires !IsNil(gh) && transfer.Obj?
    ensures |Emitted(d, gh, transfer)| <= 2
    ensures Emitted(d, gh, transfer) != [] ==> Read(gh, "state") in {Str("prepared"), Str("executed"), Str("rejected")}
    ensures forall i | 0 <= i < |Emitted(d, gh, transfer)| ::
      |Emitted(d, gh, transfer)[i].args| >= 1 && Emitted(d, gh, transfer)[i].args[0] == transfer
  {
  }

  /** A prepared transfer gives exactly one `_prepare` event carrying the record. */
  lemma PreparedEmitsPrepare(d: Direction, gh: Value, transfer: Value)
    requires !IsNil(gh) && transfer.Obj? && Read(gh, "state") == Str("prepared")
    ensures Emitted(d, gh, transfer) == [Event(EventName(d, "prepare"), [transfer])]
  {
  }

  /**
   * An executed transfer gives `_transfer` exactly when it has no execution
   * condition and `_fulfill` exactly when it has an execution fulfilment,
   * in that order.
   */
  lemma ExecutedRules(own: Address, gh: Value, d: Direction)
    requires own.Valid() && !IsNil(gh) && Read(gh, "state") == Str("executed")
    ensures var t := TransferRecord(own, gh, d);
      var f := Read(gh, "execution_fulfillment");
      Emitted(d, gh, t)
        == (if !Truthy(Read(gh, "execution_condition")) then [Event(EventName(d, "transfer"), [t])] else [])
         + (if Truthy(f) then [Event(EventName(d, "fulfill"), [t, f])] else [])
  {
    RecordCondition(own, gh, d);
  }

  /** The record's `executionCondition` is truthy exactly when the gatehub `execution_condition` is. */
  lemma RecordCondition(own: Address, gh: Value, d: Direction)
    requires own.Valid() && !IsNil(gh)
    ensures Truthy(Read(TransferRecord(own, gh, d), "executionCondition")) <==> Truthy(Read(gh, "execution_condition"))
  {
    RecordOmitsNil(own, gh, d, "executionCondition");
  }

  /** A rejected transfer gives exactly one `_cancel`: with its cancellation fulfilment, or the timeout text. */
  lemma RejectedEmitsOneCancel(d: Direction, gh: Value, transfer: Value)
    requires !IsNil(gh) && transfer.Obj? && Read(gh, "state") == Str("rejected")
    ensures var c := Read(gh, "cancellation_fulfilment");
      Emitted(d, gh, transfer)
        == [Event(EventName(d, "cancel"), [transfer, if Truthy(c) then c else Str("transfer timed out.")])]
  {
  }

  /** Any other state gives no event. */
  lemma OtherStatesSilent(d: Direction, gh: Value, transfer: Value)
    requires !IsNil(gh) && transfer.Obj?
    requires Read(gh, "state") != Str("prepared") && Read(gh, "state") != Str("executed")
    requires Read(gh, "state") != Str("rejected")
    ensures Emitted(d, gh, transfer) == []
  {
  }

  /** Neither fires for an executed transfer with a condition and no fulfilment. */
  lemma ExecutedNeitherFires(own: Address)
    requires own.Valid()
    ensures var gh := Obj(map["state" := Str("executed"), "execution_condition" := Str("cc")]);
      Emitted(Outgoing, gh, TransferRecord(own, gh, Outgoing)) == []
  {
    var gh := Obj(map["state" := Str("executed"), "execution_condition" := Str("cc")]);
    ExecutedRules(own, gh, Outgoing);
  }

  // ---------------------------------------------------------------------
  // Orientation and the record

  /** A transfer from the wallet to itself is incoming only, with the sender as counterparty. */
  lemma SelfTransferIsIncoming(own: Address, gh: Value)
    requires own.Valid() && !IsNil(gh)
    requires Read(gh, "receiving_address") == Str(own.Wallet()) && Read(gh, "sending_address") == Str(own.Wallet())
    ensures Orient(own, gh) == Some(Incoming)
    ensures Read(TransferRecord(own, gh, Incoming), "account") == Str(own.AccountName() + "." + own.Wallet())
  {
  }

  /**
   * The record keeps a renamed field exactly when its gatehub source is not
   * null or undefined, with the source's value.
   */
  lemma RecordOmitsNil(own: Address, gh: Value, d: Direction, k: string)
    requires own.Valid() && !IsNil(gh) && k in Renames
    ensures var t := TransferRecord(own, gh, d).fields;
      && (k in t <==> !IsNil(Read(gh, Renames[k])))
      && (k in t ==> t[k] == Read(gh, Renames[k]))
  {
    assert k != "ledger" && k != "direction" && k != "account";
  }

  /** The record always has the ledger prefix, the direction and the counterparty's account. */
  lemma RecordFixedFields(own: Address, gh: Value, d: Direction)
    requires own.Valid() && !IsNil(gh)
    ensures var t := TransferRecord(own, gh, d).fields;
      && Field(t, "ledger") == Str(own.Prefix())
      && Field(t, "direction") == Str(DirectionName(d))
      && Field(t, "account") == Str(own.AccountName() + "." + ToText(Read(gh, CounterpartyKey(d))))
  {
  }

  /** The record has no field beyond the renamed ones, the ledger, the direction and the account. */
  lemma RecordKeys(own: Address, gh: Value, d: Direction)
    requires own.Valid() && !IsNil(gh)
    ensures forall k | k in TransferRecord(own, gh, d).fields ::
      k in Renames || k == "ledger" || k == "direction" || k == "account"
  {
  }

  /** A notification whose transfer is received by the wallet gives the incoming events of its record. */
  lemma ReceivedNotification(own: Address, gh: Value)
    requires own.Valid() && !IsNil(gh) && Read(gh, "receiving_address") == Str(own.Wallet())
    ensures NotificationEvents(own, Obj(map["data" := gh])) == Ok(Emitted(Incoming, gh, TransferRecord(own, gh, Incoming)))
  {
    assert Read(Obj(map["data" := gh]), "data") == gh;
  }

  /**
   * Both `_transfer` and `_fulfill` fire, in that order, for an executed
   * transfer into the wallet that carries a fulfilment and no condition; the
   * record names the sender's account.
   */
  lemma ExecutedIncomingFiresBoth(own: Address, gh: Value, sender: string, f: Value)
    requires own.Valid() && !IsNil(gh) && Truthy(f)
    requires Read(gh, "state") == Str("executed") && Read(gh, "receiving_address") == Str(own.Wallet())
    requires Read(gh, "sending_address") == Str(sender)
    requires IsNil(Read(gh, "execution_condition")) && Read(gh, "execution_fulfillment") == f
    ensures var t := TransferRecord(own, gh, Incoming);
      && NotificationEvents(own, Obj(map["data" := gh]))
           == Ok([Event(EventName(Incoming, "transfer"), [t]), Event(EventName(Incoming, "fulfill"), [t, f])])
      && Field(t.fields, "account") == Str(own.AccountName() + "." + sender)
  {
    var t := TransferRecord(own, gh, Incoming);
    ReceivedNotification(own, gh);
    ExecutedRules(own, gh, Incoming);
    assert !Truthy(Read(gh, "execution_condition"));
    var events := [Event(EventName(Incoming, "transfer"), [t]), Event(EventName(Incoming, "fulfill"), [t, f])];
    assert Emitted(Incoming, gh, t) == [events[0]] + [events[1]];
    assert [events[0]] + [events[1]] == events;
    RecordFixedFields(own, gh, Incoming);
    assert ToText(Read(gh, CounterpartyKey(Incoming))) == sender;
  }
}
