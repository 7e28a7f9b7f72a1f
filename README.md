# MWS feeds API: a Dafny model of feed submission

This project models the core of the feeds API of a Ruby client for Amazon
Marketplace Web Service. The modelled file is `lib/mws/apis/feeds/api.rb`.
It has two parts:

- **`Api`** is the submission gateway. Its constructor checks the connection
  and fills in the default API version in the caller's `defaults` hash. It
  wires up eight per-type facades. `list` normalises the submission-id
  filter in the caller's `params` hash. `submit` sends one feed document.
- **`TargetedApi`** is a facade for one feed type. `add`, `update`, `patch`,
  `delete` and `send_request` turn an ordered batch of resources into one
  feed envelope. Each resource becomes one message, and the operation type
  of each message is resolved against the call's default. The envelope is
  submitted to the gateway exactly once. The messages then become the items
  of a `Transaction`, in the same order.

Files:

- `wrappers.dfy` (module `Wrappers`): `Option` and `Result`.
- `values.dfy` (module `Values`): the Ruby values the API touches. It covers
  truthiness, `Hash#[]` with its `nil` default, `Array#flatten`,
  `Array#compact`, and a shared `Hash` object that is updated in place
  (`Hash#delete`).
- `feeds.dfy` (module `Feeds`): the two classes and the pure functions that
  specify them.

Modelling choices:

- **The gateway log.** The gateway is the class `Api`. Its ghost field `log`
  records every submit call as `(feed type, purge flag or none, envelope)`.
  So "exactly one submit" and "no submit when `patch` is refused" are
  statements about `log`.
- **Loops and in-place updates.** The two `resources.each` loops that
  collect messages, and the items loop of the transaction, are methods with
  `while` loops. Each is proved equal to a recursive specification function
  (`BuildMessages`, `BuildRawMessages`, `ItemsOf`), and lemmas about those
  functions state what the source promises. The in-place updates of
  `defaults` and `params` are methods on a shared `Hash` object. They are
  specified by `WithVersionDefault` and `ListParams`.
- **Resource accessors.** A resource's optional accessors (`operation_type`,
  `type`, `sku`) are tri-state (`Capability`). Each one is either absent
  (the resource does not respond to it) or returns a value or `nil`.
  `false` is folded into `nil`, because both are falsy.
- **The feed library.** The feed library is not part of this model. That
  covers the `Feed::Type.for` and `Feed::Message::Type.for` tables,
  `Feed::Type.PRODUCT`, and the id that the `message` helper gives to the
  k-th message of a feed. All of these enter as a `FeedLibrary` value whose
  functions stay uninterpreted. No numbering scheme for message ids is
  assumed. The model only assumes that the k-th message of a feed gets the
  id `messageId(k)`.
- **Constructing `Api`.** A Dafny constructor cannot raise. So the nil check
  of `Api#initialize` is the method `NewApi`, which then runs the
  constructor.

Four behaviours of the code that a reader might not expect, all of which
the model follows:

- `send_request` gives every message a nil operation type (line 90). It does
  not use the resource's own operation type.
- `patch` raises a plain `RuntimeError` with the message
  `'Operation Type not supported.'`. There is no dedicated error class.
- A resource without `sku` makes `message.resource.sku` raise
  `NoMethodError`. This happens inside the transaction block, which is
  evaluated after `@feeds.submit` has returned. So the submission has already
  been logged when the call fails.
- An empty batch is not rejected. It is submitted once, as an envelope with
  no messages.

## Model

| member | source | states |
|---|---|---|
| `Feeds.NewApi` | lib/mws/apis/feeds/api.rb:8-12 | A nil connection raises `ValidationError('A connection is required.')` and leaves `defaults` untouched. Otherwise it yields a fresh gateway on that connection, with an empty submission log and all facades wired, and the caller's `defaults` completed by `WithVersionDefault`. |
| `Feeds.Api.constructor` | lib/mws/apis/feeds/api.rb:8-22 | Keeps the connection and the same `defaults` object, updates that object in place to `WithVersionDefault` of its old contents, and wires the eight facades. |
| `Feeds.WithVersionDefault` | lib/mws/apis/feeds/api.rb:11 | Afterwards `:version` is always truthy. A truthy `:version` leaves the hash unchanged. An absent, nil or false one becomes `'2009-01-01'`. No other key changes. |
| `Feeds.Api.WireCatalogFacades` | lib/mws/apis/feeds/api.rb:14-17 | `products`, `images` and `prices` are facades of this gateway for `:product`, `:image` and `:price`. `shipping` is the facade for `:override`, not for a shipping type. |
| `Feeds.Api.WireOrderFacades` | lib/mws/apis/feeds/api.rb:18-21 | `inventory`, `product_relationships`, `order_acknowledgement` and `order_fulfillment` are facades of this gateway for `:inventory`, `:product_relationship`, `:order_acknowledgement` and `:order_fulfillment`. |
| `Feeds.Api.For` | lib/mws/apis/feeds/api.rb:54-56 | Returns a new facade bound to this gateway and the connection's merchant. Its feed type and message type are the library's lookups for the token. |
| `Feeds.TargetedApi.constructor` | lib/mws/apis/feeds/api.rb:62-67 | The facade's message type and feed type are the library's lookups of the given token. |
| `Feeds.Api.Submit` | lib/mws/apis/feeds/api.rb:32-36 | Makes exactly one call to the service. The log grows by exactly that call. The returned info carries the submitted body. |
| `Feeds.Api.List` | lib/mws/apis/feeds/api.rb:42-43 | Updates the caller's `params` hash in place to `ListParams` of its old contents. |
| `Feeds.ListParams` | lib/mws/apis/feeds/api.rb:43 | Afterwards `:feed_submission_id` is always truthy, and every key other than `:feed_submission_id`, `:ids` and `:id` is unchanged. |
| `Feeds.ListParamsKeepsFilter` | lib/mws/apis/feeds/api.rb:43 | A truthy `:feed_submission_id` short-circuits. The params are unchanged, and `:ids` and `:id` are not removed. |
| `Feeds.ListParamsTakesIds` | lib/mws/apis/feeds/api.rb:43 | With no filter and a truthy `:ids`, the filter becomes `:ids` and `:ids` is removed. `:id` is untouched: present with the same value, or still absent. |
| `Feeds.ListParamsTakesId` | lib/mws/apis/feeds/api.rb:43 | With no filter and no truthy `:ids`, both keys are removed. The filter is `[]` when `:id` is absent or nil, `[id]` for a single id, and the id array's non-nil leaves otherwise. |
| `Feeds.ListParamsIdempotent` | lib/mws/apis/feeds/api.rb:43 | Normalising already-normalised params changes nothing. |
| `Values.Truthy` | lib/mws/apis/feeds/api.rb:11 | Only nil and false are falsy. `0`, the empty string, symbols and every array (even the empty one) are truthy. These are the tests that the or-assign and or operators make at lines 11 and 43, and that `and` makes at line 102. |
| `Values.Lookup` | lib/mws/apis/feeds/api.rb:43 | `hash[key]` gives the stored value for a present key and nil for an absent one. These are the reads of `:version` (line 11) and `:feed_submission_id` (line 43), and the value `Hash.Delete` returns for `:ids` and `:id`. |
| `Values.Hash.Delete` | lib/mws/apis/feeds/api.rb:43 | `params.delete(key)` returns the key's old value, or nil when it was absent, and removes exactly that key from the shared hash. |
| `Values.Flatten` | lib/mws/apis/feeds/api.rb:43 | `flatten` leaves no nested array, and an array that has no nested arrays comes back unchanged. |
| `Values.FlattenOne` | lib/mws/apis/feeds/api.rb:43 | A one-element array flattens to the element's own flattened items when it is an array, and to itself otherwise. |
| `Values.FlattenAppend` | lib/mws/apis/feeds/api.rb:43 | `flatten` distributes over concatenation. Together with `FlattenOne`, this fixes the result: every leaf is kept, in order. |
| `Values.Compact` | lib/mws/apis/feeds/api.rb:43 | `compact` keeps every non-nil element exactly as often as it occurs, so equal ids are not merged. It drops every nil and leaves a nil-free array unchanged. |
| `Values.CompactAppend` | lib/mws/apis/feeds/api.rb:43 | `compact` distributes over concatenation, so the kept elements stay in their original order. |
| `Values.WrapFlattenCompact` | lib/mws/apis/feeds/api.rb:43 | `[v].flatten.compact` is `[]` for nil and `[v]` for any other single value. For an array it gives the array's flattened, compacted contents. |
| `Feeds.OperationFor` | lib/mws/apis/feeds/api.rb:101-104 | If the resource responds to `operation_type` with a truthy value, that value overrides the default. If it lacks the accessor or returns nil, the call's default is used, and that default may itself be nil. |
| `Feeds.TypeOrNil` | lib/mws/apis/feeds/api.rb:112 | The item's type is nil when the resource lacks `type`. Otherwise it is whatever `type` returns. |
| `Feeds.BuildMessages` | lib/mws/apis/feeds/api.rb:98-107 | `submit` adds exactly one message per resource. |
| `Feeds.BuildMessagesAt` | lib/mws/apis/feeds/api.rb:98-107 | The k-th message has the k-th id and the k-th resource, so input order is kept. Its operation type is that resource's resolved operation. |
| `Feeds.BuildRawMessages` | lib/mws/apis/feeds/api.rb:87-92 | `send_request` adds exactly one message per resource. |
| `Feeds.BuildRawMessagesAt` | lib/mws/apis/feeds/api.rb:87-92 | The k-th raw message has the k-th id and the k-th resource, and a nil operation type even when the resource declares one. |
| `Feeds.TargetedApi.CollectMessages` | lib/mws/apis/feeds/api.rb:98-107 | The message-collecting loop of `submit` yields exactly `BuildMessages` of the resources and the default. |
| `Feeds.TargetedApi.CollectRawMessages` | lib/mws/apis/feeds/api.rb:87-92 | The message-collecting loop of `send_request` yields exactly `BuildRawMessages` of the resources. |
| `Feeds.ItemFor` | lib/mws/apis/feeds/api.rb:111-112 | An item carries its message's id and operation type, the resource's `sku`, and its type or nil. |
| `Feeds.ItemsOf` | lib/mws/apis/feeds/api.rb:109-114 | On success there is one item per message. The only failure is `NoMethodError` for `sku`. |
| `Feeds.ItemsOfCorrelate` | lib/mws/apis/feeds/api.rb:109-114 | Items are built exactly when every resource responds to `sku`. Then the k-th item is the item of the k-th message. |
| `Feeds.ItemsOfStopsAtError` | lib/mws/apis/feeds/api.rb:110-113 | Once a prefix of the messages fails, the whole item list fails with the same error. |
| `Feeds.CollectItems` | lib/mws/apis/feeds/api.rb:110-113 | The item loop of the transaction block, which stops at the first resource without `sku`, yields exactly `ItemsOf` of the messages. |
| `Feeds.TransactionOf` | lib/mws/apis/feeds/api.rb:109-114 | A successful transaction holds the submission info of the submitted body and one item per message. |
| `Feeds.TransactionCorrelates` | lib/mws/apis/feeds/api.rb:97-115 | End to end, for any batch: the transaction fails exactly when some resource lacks `sku`. Otherwise item k is `(messageId(k), sku of resource k, its resolved operation type, its type or nil)`, in input order. |
| `Feeds.TargetedApi.Submit` | lib/mws/apis/feeds/api.rb:97-115 | Makes exactly one gateway submit, tagged with the facade's feed type and the given purge flag, whose body is the envelope of `BuildMessages`. The result is `TransactionOf` that envelope. The default operation is nil and purge is false unless given. |
| `Feeds.TargetedApi.Add` | lib/mws/apis/feeds/api.rb:69-71 | Makes one submit with default operation `:update` and `purge_and_replace` true. |
| `Feeds.TargetedApi.Update` | lib/mws/apis/feeds/api.rb:73-75 | Makes one submit with default operation `:update` and `purge_and_replace` false. |
| `Feeds.TargetedApi.Patch` | lib/mws/apis/feeds/api.rb:77-80 | If the facade's feed type is not PRODUCT, it raises `'Operation Type not supported.'` and the log is unchanged. Otherwise it makes one submit with default `:partial_update` and purge false. |
| `Feeds.TargetedApi.Delete` | lib/mws/apis/feeds/api.rb:82-84 | Makes one submit with default operation `:delete` and `purge_and_replace` false. |
| `Feeds.TargetedApi.SendRequest` | lib/mws/apis/feeds/api.rb:86-95 | Makes one submit with the facade's feed type and no purge key. Its body is the envelope of `BuildRawMessages`. It returns a transaction with no items. |

## Left out

- `Api#get`, `Api#count` and the GET request of `Api#list` are left out, as is the HTTP post inside `Api#submit`. They are network I/O through the connection object. `Api.List` models only the parameter normalisation.
- `SubmissionResult.from_xml`, `SubmissionInfo.from_xml`, the `xpath` navigation and `to_i` are left out. These parse XML in classes that are not part of this model. `SubmissionInfo` keeps only the body that `submit` passes to it.
- `Feed.new`, `Feed#to_xml` and the `message` helper are not part of this model. The serialised document is represented by its structure (`Envelope`). Message ids are opaque (`FeedLibrary.messageId`).
- The `Feed::Type.for` and `Feed::Message::Type.for` lookup tables are not part of this model, and neither is the `.val` conversion of the feed type in `Api#submit`. The tables are total uninterpreted functions, so an unknown type token is not modelled as an error.
- `Transaction` is modelled only as its submission info and its ordered item list. The model assumes that `Transaction.new` runs its block during construction.
- `Api#cancel` is left out because its body is empty.
- Transport and service errors from the connection are not modelled. The gateway's submit always returns.
- Ruby hashes are modelled as maps, so the insertion order of keys is not kept.
- `false` returned by `operation_type`, `type` or `sku` is not distinguished from `nil`.
- `NewApi` and `Api.List` take their hash as a required argument. Ruby's defaults `defaults={}` and `params={}` correspond to passing a fresh empty `Hash`.
- The model assumes that `Feed.new` runs its block exactly once, before `to_xml` is called.
