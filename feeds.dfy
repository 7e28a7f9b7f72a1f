/**
  The feed-submission layer of the MWS client (lib/mws/apis/feeds/api.rb):
  the `Api` gateway and the per-type `TargetedApi` facades that turn a batch
  of resources into one feed envelope, submit it once, and correlate the
  submitted messages in a `Transaction`.

  The feed library the file relies on (the `Feed::Type.for` and
  `Feed::Message::Type.for` tables, `Feed::Type.PRODUCT`, and the id the
  `message` helper gives the k-th message of a feed) is not part of this
  model; it enters as a `FeedLibrary` value whose functions stay
  uninterpreted.
 */
module Feeds {
  import opened Wrappers
  import opened Values

  /** The Ruby symbol naming a feed type: the eight the gateway wires up, or any other. */
  datatype TypeToken =
    | Product              // :product
    | Image                // :image
    | Price                // :price
    | Override             // :override
    | Inventory            // :inventory
    | ProductRelationship  // :product_relationship
    | OrderAcknowledgement // :order_acknowledgement
    | OrderFulfillment     // :order_fulfillment
    | OtherToken(name: string)

  type MessageId = int

  /** Hash keys and constants the gateway uses. */
  const VERSION: Value := Sym("version")
  const DEFAULT_VERSION: Value := Str("2009-01-01")
  const FEED_SUBMISSION_ID: Value := Sym("feed_submission_id")
  const IDS: Value := Sym("ids")
  const ID: Value := Sym("id")

  const CONNECTION_REQUIRED := "A connection is required."
  const OPERATION_NOT_SUPPORTED := "Operation Type not supported."

  /** What the feed API raises. */
  datatype Error =
    | ValidationError(message: string)   // Mws::Errors::ValidationError
    | RuntimeError(message: string)      // a bare `raise 'message'`
    | NoMethodError(name: string)        // calling an accessor a resource lacks

  /** A truthy operation token other than the three the facades use. */
  type OtherOperationToken = v: Value | Truthy(v) && v != Sym("update") && v != Sym("partial_update") && v != Sym("delete")
    witness Sym("replace")

  /** The operation a message asks for: the three the facades use, or any other truthy token. */
  datatype OperationType = Update | PartialUpdate | Delete | OtherOperation(token: OtherOperationToken)

  /** Opaque codes produced by the feed library's lookup tables. */
  datatype FeedType = FeedType(code: string)
  datatype MessageType = MessageType(code: string)

  /** The feed library the gateway is wired to: lookup tables, the PRODUCT feed type, message numbering. */
  datatype FeedLibrary = FeedLibrary(
    feedTypeFor: TypeToken -> FeedType,
    messageTypeFor: TypeToken -> MessageType,
    product: FeedType,
    messageId: nat -> MessageId)

  /** The transport; only the merchant it is configured for matters here. */
  datatype Connection = Connection(merchant: string)

  /**
    An optional accessor of a duck-typed resource: `Absent` when the resource
    does not respond to it, otherwise what it returns (`None` for nil or false).
   */
  datatype Capability<T> = Absent | Responds(result: Option<T>)

  /** A resource handed to a facade, seen through its `sku`, `operation_type` and `type` accessors. */
  datatype Resource = Resource(
    sku: Capability<string>,
    operationType: Capability<OperationType>,
    resourceType: Capability<string>)

  /** One entry of a feed: its id, its operation type (nil when none applies) and its resource. */
  datatype Message = Message(id: MessageId, operationType: Option<OperationType>, resource: Resource)

  /** The feed document `Feed#to_xml` serialises: header fields and the messages in order. */
  datatype Envelope = Envelope(merchant: string, messageType: MessageType, messages: seq<Message>)

  /** One call of the gateway's submit, as the gateway log records it. */
  datatype Submission = Submission(feedType: FeedType, purgeAndReplace: Option<bool>, body: Envelope)

  /** What the gateway returns for a submission; the service's own reply fields are not modelled. */
  datatype SubmissionInfo = SubmissionInfo(body: Envelope)

  /** One correlation entry of a transaction. */
  datatype Item = Item(
    messageId: MessageId,
    sku: Option<string>,
    operationType: Option<OperationType>,
    resourceType: Option<string>)

  datatype Transaction = Transaction(info: SubmissionInfo, items: seq<Item>)

  // ---------------------------------------------------------------------
  // Gateway parameter rules
  // ---------------------------------------------------------------------

  /** `defaults[:version] ||= '2009-01-01'`. */
  function WithVersionDefault(m: map<Value, Value>): (r: map<Value, Value>)
    ensures Truthy(Lookup(r, VERSION))
    ensures Truthy(Lookup(m, VERSION)) ==> r == m
    ensures !Truthy(Lookup(m, VERSION)) ==> Lookup(r, VERSION) == DEFAULT_VERSION
    ensures forall k :: k != VERSION ==> (k in r <==> k in m) && (k in m ==> r[k] == m[k])
  {
    if Truthy(Lookup(m, VERSION)) then m else m[VERSION := DEFAULT_VERSION]
  }

  /**
    The normalisation `list` applies to its params:
    `params[:feed_submission_id] ||= params.delete(:ids) || [ params.delete(:id) ].flatten.compact`.
   */
  function ListParams(m: map<Value, Value>): (r: map<Value, Value>)
    ensures Truthy(Lookup(r, FEED_SUBMISSION_ID))
    ensures forall k :: k != FEED_SUBMISSION_ID && k != IDS && k != ID ==>
      (k in r <==> k in m) && (k in m ==> r[k] == m[k])
  {
    if Truthy(Lookup(m, FEED_SUBMISSION_ID)) then m
    else
      var ids := Lookup(m, IDS);
      var withoutIds := m - {IDS};
      if Truthy(ids) then withoutIds[FEED_SUBMISSION_ID := ids]
      else
        var id := Lookup(withoutIds, ID);
        (withoutIds - {ID})[FEED_SUBMISSION_ID := List(Compact(Flatten([id])))]
  }

  /** A set filter is left alone, and so are `:ids` and `:id`. */
  lemma ListParamsKeepsFilter(m: map<Value, Value>)
    requires Truthy(Lookup(m, FEED_SUBMISSION_ID))
    ensures ListParams(m) == m
    ensures IDS in m ==> IDS in ListParams(m)
    ensures ID in m ==> ID in ListParams(m)
  {
  }

  /** Without a filter, a truthy `:ids` becomes the filter and is removed; `:id` stays. */
  lemma ListParamsTakesIds(m: map<Value, Value>)
    requires !Truthy(Lookup(m, FEED_SUBMISSION_ID)) && Truthy(Lookup(m, IDS))
    ensures ListParams(m)[FEED_SUBMISSION_ID] == m[IDS]
    ensures IDS !in ListParams(m)
    ensures (ID in ListParams(m) <==> ID in m) && (ID in m ==> ListParams(m)[ID] == m[ID])
  {
  }

  /**
    Without a filter and without a truthy `:ids`, both `:ids` and `:id` are
    removed and the filter is `[ id ].flatten.compact`: empty when `:id` is
    absent or nil, the single id when it is a scalar, its non-nil leaves
    when it is an array.
   */
  lemma ListParamsTakesId(m: map<Value, Value>)
    requires !Truthy(Lookup(m, FEED_SUBMISSION_ID)) && !Truthy(Lookup(m, IDS))
    ensures IDS !in ListParams(m) && ID !in ListParams(m)
    ensures var id := Lookup(m, ID);
      ListParams(m)[FEED_SUBMISSION_ID] ==
        if id == Nil then List([])
        else if IsLeaf(id) then List([id])
        else List(Compact(Flatten(id.items)))
  {
    var id := Lookup(m, ID);
    assert Lookup(m - {IDS}, ID) == id;
    var filter := Compact(Flatten([id]));
    WrapFlattenCompact(id);
    assert filter == if id == Nil then [] else if IsLeaf(id) then [id] else Compact(Flatten(id.items));
  }

  /** Normalising twice is normalising once. */
  lemma ListParamsIdempotent(m: map<Value, Value>)
    ensures ListParams(ListParams(m)) == ListParams(m)
  {
  }

  // ---------------------------------------------------------------------
  // Message construction and correlation
  // ---------------------------------------------------------------------

  /** The resource responds to `operation_type` and the value it returns is truthy. */
  predicate DeclaresOperation(r: Resource) {
    r.operationType.Responds? && r.operationType.result.Some?
  }

  /** A message's operation type: the resource's own when it declares one, the call's default otherwise. */
  function OperationFor(r: Resource, default: Option<OperationType>): (op: Option<OperationType>)
    ensures DeclaresOperation(r) ==> op == r.operationType.result
    ensures !DeclaresOperation(r) ==> op == default
  {
    match r.operationType
    case Responds(Some(own)) => Some(own)
    case _ => default
  }

  /** `respond_to?(:type) ? type : nil`. */
  function TypeOrNil(r: Resource): (t: Option<string>)
    ensures r.resourceType.Absent? ==> t == None
    ensures r.resourceType.Responds? ==> t == r.resourceType.result
  {
    match r.resourceType
    case Absent => None
    case Responds(v) => v
  }

  /** The messages `submit` adds to its feed, one per resource and in resource order. */
  function BuildMessages(rs: seq<Resource>, default: Option<OperationType>, messageId: nat -> MessageId): (ms: seq<Message>)
    ensures |ms| == |rs|
  {
    if rs == [] then []
    else
      var last := rs[|rs| - 1];
      var prefix := BuildMessages(rs[..|rs| - 1], default, messageId);
      prefix + [Message(messageId(|prefix|), OperationFor(last, default), last)]
  }

  /** The k-th message is numbered k, carries the k-th resource and that resource's resolved operation. */
  lemma {:induction false} BuildMessagesAt(rs: seq<Resource>, default: Option<OperationType>, messageId: nat -> MessageId, k: nat)
    requires k < |rs|
    ensures BuildMessages(rs, default, messageId)[k] == Message(messageId(k), OperationFor(rs[k], default), rs[k])
  {
    if k < |rs| - 1 {
      BuildMessagesAt(rs[..|rs| - 1], default, messageId, k);
    }
  }

  /** The messages `send_request` adds to its feed: one per resource, each with a nil operation type. */
  function BuildRawMessages(rs: seq<Resource>, messageId: nat -> MessageId): (ms: seq<Message>)
    ensures |ms| == |rs|
  {
    if rs == [] then []
    else
      var prefix := BuildRawMessages(rs[..|rs| - 1], messageId);
      prefix + [Message(messageId(|prefix|), None, rs[|rs| - 1])]
  }

  /** `send_request` ignores whatever operation type the resource declares. */
  lemma {:induction false} BuildRawMessagesAt(rs: seq<Resource>, messageId: nat -> MessageId, k: nat)
    requires k < |rs|
    ensures BuildRawMessages(rs, messageId)[k] == Message(messageId(k), None, rs[k])
  {
    if k < |rs| - 1 {
      BuildRawMessagesAt(rs[..|rs| - 1], messageId, k);
    }
  }

  /** The transaction item for one message; `message.resource.sku` needs the resource to respond to `sku`. */
  function ItemFor(m: Message): (it: Item)
    requires m.resource.sku.Responds?
    ensures it.messageId == m.id && it.operationType == m.operationType
    ensures it.sku == m.resource.sku.result && it.resourceType == TypeOrNil(m.resource)
  {
    Item(m.id, m.resource.sku.result, m.operationType, TypeOrNil(m.resource))
  }

  /** The items of a transaction, built in message order; a resource without `sku` raises. */
  function ItemsOf(ms: seq<Message>): (r: Result<seq<Item>, Error>)
    ensures r.Ok? ==> |r.value| == |ms|
    ensures r.Err? ==> r.error == NoMethodError("sku")
  {
    if ms == [] then Ok([])
    else
      match ItemsOf(ms[..|ms| - 1])
      case Err(e) => Err(e)
      case Ok(items) =>
        var last := ms[|ms| - 1];
        if last.resource.sku.Absent? then Err(NoMethodError("sku"))
        else Ok(items + [ItemFor(last)])
  }

  /** Items exist exactly when every resource has `sku`, and then the k-th item belongs to the k-th message. */
  lemma {:induction false} ItemsOfCorrelate(ms: seq<Message>)
    ensures ItemsOf(ms).Ok? <==> forall k :: 0 <= k < |ms| ==> ms[k].resource.sku.Responds?
    ensures ItemsOf(ms).Ok? ==> forall k :: 0 <= k < |ms| ==> ItemsOf(ms).value[k] == ItemFor(ms[k])
  {
    if ms != [] {
      var prefix := ms[..|ms| - 1];
      ItemsOfCorrelate(prefix);
      assert forall k :: 0 <= k < |prefix| ==> prefix[k] == ms[k];
    }
  }

  /** The transaction `submit` returns for a submitted envelope. */
  function TransactionOf(body: Envelope): (r: Result<Transaction, Error>)
    ensures r.Ok? ==> r.value.info == SubmissionInfo(body) && |r.value.items| == |body.messages|
  {
    match ItemsOf(body.messages)
    case Ok(items) => Ok(Transaction(SubmissionInfo(body), items))
    case Err(e) => Err(e)
  }

  /**
    End to end: the transaction of a submitted batch has one item per
    resource, in resource order, carrying the message id, the resource's
    sku, the resolved operation type and the resource's type or nil; it
    fails exactly when some resource lacks `sku`.
   */
  lemma {:induction false} TransactionCorrelates(merchant: string, mt: MessageType, rs: seq<Resource>,
                              default: Option<OperationType>, messageId: nat -> MessageId)
    ensures var t := TransactionOf(Envelope(merchant, mt, BuildMessages(rs, default, messageId)));
      && (t.Ok? <==> forall k :: 0 <= k < |rs| ==> rs[k].sku.Responds?)
      && (t.Err? ==> t.error == NoMethodError("sku"))
      && (t.Ok? ==> |t.value.items| == |rs|)
      && (t.Ok? ==> forall k :: 0 <= k < |rs| ==>
            t.value.items[k] == Item(messageId(k), rs[k].sku.result, OperationFor(rs[k], default), TypeOrNil(rs[k])))
  {
    var ms := BuildMessages(rs, default, messageId);
    ItemsOfCorrelate(ms);
    forall k | 0 <= k < |rs|
      ensures ms[k] == Message(messageId(k), OperationFor(rs[k], default), rs[k])
    {
      BuildMessagesAt(rs, default, messageId, k);
    }
  }

  /** The loop of the `Transaction` block: one item per message, stopping at a resource without `sku`. */
  method CollectItems(messages: seq<Message>) returns (r: Result<seq<Item>, Error>)
    ensures r == ItemsOf(messages)
  {
    var items: seq<Item> := [];
    var i := 0;
    while i < |messages|
      invariant 0 <= i <= |messages|
      invariant ItemsOf(messages[..i]) == Ok(items)
    {
      var message := messages[i];
      assert messages[..i + 1][..i] == messages[..i];
      if message.resource.sku.Absent? {
        ItemsOfStopsAtError(messages, i + 1);
        return Err(NoMethodError("sku"));
      }
      items := items + [Item(message.id, message.resource.sku.result, message.operationType, TypeOrNil(message.resource))];
      i := i + 1;
    }
    assert messages[..i] == messages;
    r := Ok(items);
  }

  /** Once a prefix fails, the whole sequence fails the same way. */
  lemma {:induction false} ItemsOfStopsAtError(ms: seq<Message>, n: nat)
    requires n <= |ms| && ItemsOf(ms[..n]).Err?
    ensures ItemsOf(ms) == ItemsOf(ms[..n])
    decreases |ms| - n
  {
    if n < |ms| {
      assert ms[..n + 1][..n] == ms[..n];
      ItemsOfStopsAtError(ms, n + 1);
    } else {
      assert ms[..n] == ms;
    }
  }

  // ---------------------------------------------------------------------
  // The gateway
  // ---------------------------------------------------------------------

  /** `Api.new(connection, defaults)`: a nil connection raises before `defaults` is touched. */
  method NewApi(connection: Option<Connection>, defaults: Hash, lib: FeedLibrary) returns (r: Result<Api, Error>)
    modifies defaults
    ensures connection.None? ==> r == Err(ValidationError(CONNECTION_REQUIRED))
    ensures connection.None? ==> defaults.entries == old(defaults.entries)
    ensures connection.Some? ==> r.Ok? && fresh(r.value)
    ensures connection.Some? ==> r.value.connection == connection.value && r.value.defaults == defaults
    ensures connection.Some? ==> r.value.lib == lib && r.value.log == [] && r.value.WiredFacades()
    ensures connection.Some? ==> defaults.entries == WithVersionDefault(old(defaults.entries))
  {
    if connection.None? {
      return Err(ValidationError(CONNECTION_REQUIRED));
    }
    var api := new Api(connection.value, defaults, lib);
    r := Ok(api);
  }

  class Api {
    const connection: Connection
    /** The caller's defaults hash, shared and completed in place. */
    const defaults: Hash
    const lib: FeedLibrary

    var products: TargetedApi?
    var images: TargetedApi?
    var prices: TargetedApi?
    var shipping: TargetedApi?
    var inventory: TargetedApi?
    var productRelationships: TargetedApi?
    var orderAcknowledgement: TargetedApi?
    var orderFulfillment: TargetedApi?

    /** Every submit this gateway has made, oldest first. */
    ghost var log: seq<Submission>

    /** `t` is a facade of this gateway for the feed type token `token`. */
    predicate Wired(t: TargetedApi?, token: TypeToken) {
      t != null && t.feeds == this && t.merchant == connection.merchant &&
      t.feedType == lib.feedTypeFor(token) && t.messageType == lib.messageTypeFor(token)
    }

    /** The eight facades and their fixed tokens; shipping is the `:override` feed. */
    predicate WiredFacades()
      reads this
    {
      && Wired(products, Product)
      && Wired(images, Image)
      && Wired(prices, Price)
      && Wired(shipping, Override)
      && Wired(inventory, Inventory)
      && Wired(productRelationships, ProductRelationship)
      && Wired(orderAcknowledgement, OrderAcknowledgement)
      && Wired(orderFulfillment, OrderFulfillment)
    }

    /** `initialize` once the connection is known to be present. */
    constructor (connection: Connection, defaults: Hash, lib: FeedLibrary)
      modifies defaults
      ensures this.connection == connection && this.defaults == defaults && this.lib == lib
      ensures defaults.entries == WithVersionDefault(old(defaults.entries))
      ensures log == [] && WiredFacades()
    {
      this.connection := connection;
      this.lib := lib;
      if !Truthy(Lookup(defaults.entries, VERSION)) {
        defaults.entries := defaults.entries[VERSION := DEFAULT_VERSION];
      }
      this.defaults := defaults;
      log := [];
      new;
      WireCatalogFacades();
      WireOrderFacades();
    }

    /** The catalogue facades of `initialize`: products, images, prices and shipping (the `:override` feed). */
    method WireCatalogFacades()
      modifies this`products, this`images, this`prices, this`shipping
      ensures Wired(products, Product) && Wired(images, Image)
      ensures Wired(prices, Price) && Wired(shipping, Override)
    {
      products := For(Product);
      images := For(Image);
      prices := For(Price);
      shipping := For(Override);
    }

    /** The remaining facades of `initialize`. */
    method WireOrderFacades()
      modifies this`inventory, this`productRelationships, this`orderAcknowledgement, this`orderFulfillment
      ensures Wired(inventory, Inventory) && Wired(productRelationships, ProductRelationship)
      ensures Wired(orderAcknowledgement, OrderAcknowledgement) && Wired(orderFulfillment, OrderFulfillment)
    {
      inventory := For(Inventory);
      productRelationships := For(ProductRelationship);
      orderAcknowledgement := For(OrderAcknowledgement);
      orderFulfillment := For(OrderFulfillment);
    }

    /** `for(type)`: a fresh facade for `type`, bound to this gateway and the connection's merchant. */
    method For(token: TypeToken) returns (t: TargetedApi)
      ensures fresh(t) && Wired(t, token)
    {
      t := new TargetedApi(this, connection.merchant, token);
    }

    /**
      `submit(body, params)`: one call to the service. The `.val` conversion
      of the feed type and the HTTP post are not modelled; the call is
      recorded in `log`.
     */
    method Submit(body: Envelope, feedType: FeedType, purgeAndReplace: Option<bool>) returns (info: SubmissionInfo)
      modifies this`log
      ensures log == old(log) + [Submission(feedType, purgeAndReplace, body)]
      ensures info == SubmissionInfo(body)
    {
      log := log + [Submission(feedType, purgeAndReplace, body)];
      info := SubmissionInfo(body);
    }

    /** The parameter normalisation of `list`; the request it then sends is not modelled. */
    method List(params: Hash)
      modifies params
      ensures params.entries == ListParams(old(params.entries))
    {
      if !Truthy(Lookup(params.entries, FEED_SUBMISSION_ID)) {
        var value := params.Delete(IDS);
        if !Truthy(value) {
          var id := params.Delete(ID);
          value := Value.List(Compact(Flatten([id])));
        }
        params.entries := params.entries[FEED_SUBMISSION_ID := value];
      }
    }
  }

  // ---------------------------------------------------------------------
  // The per-type facades
  // ---------------------------------------------------------------------

  class TargetedApi {
    const feeds: Api
    const merchant: string
    const messageType: MessageType
    const feedType: FeedType

    constructor (feeds: Api, merchant: string, token: TypeToken)
      ensures this.feeds == feeds && this.merchant == merchant
      ensures messageType == feeds.lib.messageTypeFor(token) && feedType == feeds.lib.feedTypeFor(token)
    {
      this.feeds := feeds;
      this.merchant := merchant;
      this.messageType := feeds.lib.messageTypeFor(token);
      this.feedType := feeds.lib.feedTypeFor(token);
    }

    /** The envelope `submit` builds for `resources` under the default operation `default`. */
    function EnvelopeFor(resources: seq<Resource>, default: Option<OperationType>): Envelope {
      Envelope(merchant, messageType, BuildMessages(resources, default, feeds.lib.messageId))
    }

    /** The envelope `send_request` builds for `resources`. */
    function RawEnvelopeFor(resources: seq<Resource>): Envelope {
      Envelope(merchant, messageType, BuildRawMessages(resources, feeds.lib.messageId))
    }

    /** The feed block of `submit`: one message per resource, its operation resolved against `default`. */
    method CollectMessages(resources: seq<Resource>, default: Option<OperationType>) returns (messages: seq<Message>)
      ensures messages == BuildMessages(resources, default, feeds.lib.messageId)
    {
      messages := [];
      var i := 0;
      while i < |resources|
        invariant 0 <= i <= |resources|
        invariant messages == BuildMessages(resources[..i], default, feeds.lib.messageId)
      {
        var resource := resources[i];
        var operationType := default;
        if resource.operationType.Responds? && resource.operationType.result.Some? {
          operationType := resource.operationType.result;
        }
        assert resources[..i + 1][..i] == resources[..i];
        messages := messages + [Message(feeds.lib.messageId(|messages|), operationType, resource)];
        i := i + 1;
      }
      assert resources[..i] == resources;
    }

    /** The feed block of `send_request`: one message per resource, each with a nil operation type. */
    method CollectRawMessages(resources: seq<Resource>) returns (messages: seq<Message>)
      ensures messages == BuildRawMessages(resources, feeds.lib.messageId)
    {
      messages := [];
      var i := 0;
      while i < |resources|
        invariant 0 <= i <= |resources|
        invariant messages == BuildRawMessages(resources[..i], feeds.lib.messageId)
      {
        assert resources[..i + 1][..i] == resources[..i];
        messages := messages + [Message(feeds.lib.messageId(|messages|), None, resources[i])];
        i := i + 1;
      }
      assert resources[..i] == resources;
    }

    /**
      `submit(resources, def_operation_type = nil, purge_and_replace = false)`:
      builds the feed, submits it exactly once with the facade's feed type and
      the purge flag, then correlates the messages in a transaction.
     */
    method Submit(resources: seq<Resource>, default: Option<OperationType> := None, purgeAndReplace: bool := false)
      returns (r: Result<Transaction, Error>)
      modifies feeds`log
      ensures feeds.log == old(feeds.log) + [Submission(feedType, Some(purgeAndReplace), EnvelopeFor(resources, default))]
      ensures r == TransactionOf(EnvelopeFor(resources, default))
    {
      var messages := CollectMessages(resources, default);
      var body := Envelope(merchant, messageType, messages);
      var info := feeds.Submit(body, feedType, Some(purgeAndReplace));
      var items := CollectItems(messages);
      match items {
        case Ok(v) => r := Ok(Transaction(info, v));
        case Err(e) => r := Err(e);
      }
    }

    /** `add`: operation `:update`, replacing the whole recordset. */
    method Add(resources: seq<Resource>) returns (r: Result<Transaction, Error>)
      modifies feeds`log
      ensures feeds.log == old(feeds.log) + [Submission(feedType, Some(true), EnvelopeFor(resources, Some(OperationType.Update)))]
      ensures r == TransactionOf(EnvelopeFor(resources, Some(OperationType.Update)))
    {
      r := Submit(resources, Some(OperationType.Update), true);
    }

    /** `update`: operation `:update`, no purge. */
    method Update(resources: seq<Resource>) returns (r: Result<Transaction, Error>)
      modifies feeds`log
      ensures feeds.log == old(feeds.log) + [Submission(feedType, Some(false), EnvelopeFor(resources, Some(OperationType.Update)))]
      ensures r == TransactionOf(EnvelopeFor(resources, Some(OperationType.Update)))
    {
      r := Submit(resources, Some(OperationType.Update));
    }

    /** `patch`: only for the PRODUCT feed; anywhere else it raises before anything is submitted. */
    method Patch(resources: seq<Resource>) returns (r: Result<Transaction, Error>)
      modifies feeds`log
      ensures feedType != feeds.lib.product ==> r == Err(RuntimeError(OPERATION_NOT_SUPPORTED))
      ensures feedType != feeds.lib.product ==> feeds.log == old(feeds.log)
      ensures feedType == feeds.lib.product ==>
        feeds.log == old(feeds.log) + [Submission(feedType, Some(false), EnvelopeFor(resources, Some(PartialUpdate)))]
      ensures feedType == feeds.lib.product ==> r == TransactionOf(EnvelopeFor(resources, Some(PartialUpdate)))
    {
      if feedType != feeds.lib.product {
        return Err(RuntimeError(OPERATION_NOT_SUPPORTED));
      }
      r := Submit(resources, Some(PartialUpdate));
    }

    /** `delete`: operation `:delete`, no purge. */
    method Delete(resources: seq<Resource>) returns (r: Result<Transaction, Error>)
      modifies feeds`log
      ensures feeds.log == old(feeds.log) + [Submission(feedType, Some(false), EnvelopeFor(resources, Some(OperationType.Delete)))]
      ensures r == TransactionOf(EnvelopeFor(resources, Some(OperationType.Delete)))
    {
      r := Submit(resources, Some(OperationType.Delete));
    }

    /** `send_request`: nil operation types, no purge key, a transaction without items. */
    method SendRequest(resources: seq<Resource>) returns (t: Transaction)
      modifies feeds`log
      ensures feeds.log == old(feeds.log) + [Submission(feedType, None, RawEnvelopeFor(resources))]
      ensures t == Transaction(SubmissionInfo(RawEnvelopeFor(resources)), [])
    {
      var messages := CollectRawMessages(resources);
      var info := feeds.Submit(Envelope(merchant, messageType, messages), feedType, None);
      t := Transaction(info, []);
    }
  }
}
