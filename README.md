# identity.rs core, modelled in Dafny

This project models the following parts of the IOTA identity library:

- **Public-key (de)serialisation** (`key_serialize.rs`):
  - how a verification method in the DID `publicKey` representation is written as JSON;
  - how `PublicKeyVisitor::visit_map` reads one back, including its duplicate-field and missing-field errors;
  - how a key type is written as a unit variant or as a custom string.
- **The DID document record** (`document.rs`):
  - the operations that take the document by value: `init`, `supply_metadata`, `init_timestamps`;
  - the operations that change it in place: `update_*`, `clear_*`, `update_time`;
  - which members its JSON serialisation writes.
- **The actor**:
  - its value types: request messages, request contexts, and the DIDComm plaintext message with its thread rule;
  - its errors, and the conversion from a remote error to a local one;
  - its bookkeeping: the handler and state tables, `add_state` / `add_handler`, handler lookup with the catch-all fallback, the per-thread channel tables, `await_message`'s use of them, and the listener loop that routes every inbound request either to a handler or to the thread awaiting it.
- **The JWT wrapper** of the credential crate.

Files:

| file | module | models |
|---|---|---|
| `wrappers.dfy` | `Wrappers` | `Option` and `Result` |
| `key_serialize.dfy` | `KeySerialize` | `identity_core/src/utils/key_serialize.rs` |
| `document.dfy` | `Document` | `identity_core/src/document.rs` |
| `actor_types.dfy` | `ActorTypes` | `identity-actor/src/actor/types.rs` |
| `actor_errors.dfy` | `ActorErrors` | `identity-actor/src/actor/errors.rs` |
| `actor.dfy` | `Actors` | `identity-actor/src/actor/actor.rs` |
| `jwt.dfy` | `Credential` | `identity_credential/src/credential/jwt.rs` |

How things outside these files are represented:

- **Helpers these files call but do not define** become function-typed parameters:
  - `KeyEncodingType::from_str` and `PublicKeyTypes::from_str` (the `Parsers` record);
  - `Endpoint::new`;
  - `Endpoint::to_catch_all`;
  - the JSON decoding of a plaintext message.
- **The clock and the UUID generator** are parameters: `Utc::now` is a string argument and `Uuid::new_v4` an id argument.
- **Channels and handlers:**
  - A oneshot channel is a `Channel` token that names both of its ends.
  - Handlers and state objects are opaque tokens.
- **JSON objects** are modelled as the sequence of their `(name, value)` members, in the order a map visitor sees them.

Where the code and its documentation differ, the model follows the code. In particular, `spawn_handler` is commented as falling back to the catch-all handler, but the listener sends a request to `spawn_handler` only when its exact endpoint has a handler. The model keeps that behaviour: an unbound endpoint takes the thread route (`Actors.UnboundEndpointTakesThreadRoute`), and while every handler has its state the fallback is never reached from the listener (`Actors.HandlerRouteNeverFallsBack`). The ledger publish/resolve client and the key store described for the wider library are not part of this model.

## Model

| member | source | states |
|---|---|---|
| KeySerialize.SerializeKeyType | identity_core/src/utils/key_serialize.rs:161-193 | Only a custom key type is written as a plain string (its own name); every other key type is a unit variant whose index is below nine and whose name is the table entry at that index |
| KeySerialize.SerializeKeyTypeInjective | identity_core/src/utils/key_serialize.rs:166-191 | Distinct key types give distinct serialiser tokens |
| KeySerialize.CustomKeyTextCollides | identity_core/src/utils/key_serialize.rs:189-190 | Once written as text, `CustomKey("UnknownKey")` and `UnknownKey` are the same string although they are different key types |
| KeySerialize.EncodingFieldName | identity_core/src/utils/key_serialize.rs:207-217 | No key-material member name is `id`, `type` or `controller` |
| KeySerialize.EncodingFieldNameInjective | identity_core/src/utils/key_serialize.rs:207-217 | The nine encodings have nine different member names |
| KeySerialize.SerializePublicKey | identity_core/src/utils/key_serialize.rs:195-221 | A reference key is written as its bare id, and exactly the reference keys are. Any other key is an object with the members `id`, `type`, `controller` and the encoding's member name, in that order |
| KeySerialize.ClassifyField | identity_core/src/utils/key_serialize.rs:142-158 | `id`, `type` and `controller` are classified as Subject, Type and Controller, each exactly when the name is that word. Any other name is a key field exactly when the encoding parser accepts it, and then carries the parsed encoding. Otherwise the error is `unknown_field` for that name |
| KeySerialize.Finish | identity_core/src/utils/key_serialize.rs:118-131 | The final checks succeed exactly when all five accumulators are set; the key built is never a reference |
| KeySerialize.VisitMap | identity_core/src/utils/key_serialize.rs:78-132 | The loop with five optional accumulators and early returns computes exactly the fold specification `Deserialize` |
| KeySerialize.FoldOutcome | identity_core/src/utils/key_serialize.rs:88-116 | From coherent accumulators, the member loop succeeds exactly when every name is known and no slot is filled twice, counting the slots already filled. On success, the encoding and the key data are still set together, and the filled slots are those filled before plus those some member names |
| KeySerialize.DeserializeSucceedsIff | identity_core/src/utils/key_serialize.rs:78-132 | Deserialisation succeeds exactly when every member name is known and each of the four slots (id, type, controller, key data) is named exactly once |
| KeySerialize.DuplicateSlotRejected | identity_core/src/utils/key_serialize.rs:88-116 | Two members that fill the same slot (two `id`s, or key material in two encodings) make deserialisation fail |
| KeySerialize.FoldAppend | identity_core/src/utils/key_serialize.rs:88-116 | Running the member loop over `a + b` is running it over `a` and then, if that succeeded, over `b` |
| KeySerialize.DuplicateFieldReported | identity_core/src/utils/key_serialize.rs:89-114 | If the prefix before member `j` loads cleanly and member `j` fills a slot the prefix already filled, the result is `duplicate_field` naming that slot (`id`, `type`, `controller` or `key data`) |
| KeySerialize.MissingFieldReported | identity_core/src/utils/key_serialize.rs:118-122 | With all names known and no slot repeated, the first absent slot, in the order id, type, controller, key data, is reported by `missing_field` under its own name |
| KeySerialize.DeserializedFromMembers | identity_core/src/utils/key_serialize.rs:88-131 | A deserialised key is not a reference. Its `id` and `controller` are member values, its type is the key-type parser's reading of the `type` member, and its encoding and key data come from one key-material member |
| KeySerialize.RoundTrip | identity_core/src/utils/key_serialize.rs:78-221 | Deserialising the serialisation of a non-reference key gives the same key back, when the encoding parser reads the member name and the key-type parser reads the written type |
| KeySerialize.StandardEncoding | identity_core/src/utils/key_serialize.rs:207-217 | A name this encoding parser accepts is the member name the serialiser writes for the encoding it returns |
| KeySerialize.StandardEncodingInverts | identity_core/src/utils/key_serialize.rs:207-217 | That parser reads every encoding's member name back as that encoding, which meets the first round-trip hypothesis |
| Document.SameExceptNothing | identity_core/src/document.rs:14-31 | Documents that agree on all eight fields are equal |
| Document.Init | identity_core/src/document.rs:35-46 | `init` returns the document unchanged |
| Document.SupplyMetadata | identity_core/src/document.rs:93-95 | Never fails; the metadata is the new map and every other field is unchanged |
| Document.InitTimestamps | identity_core/src/document.rs:99-106 | Never fails; `created` and `updated` are set to the clock readings and every other field is unchanged |
| Document.PushService | identity_core/src/document.rs:54-56 | The services gain exactly one entry, the new service at the end, and the old ones stay in place; nothing else changes |
| Document.ServicesCleared | identity_core/src/document.rs:59-61 | The services are empty; nothing else changes |
| Document.PushPublicKey | identity_core/src/document.rs:64-66 | The public keys gain exactly one entry, the new key at the end, and the old ones stay in place; nothing else changes |
| Document.PublicKeysCleared | identity_core/src/document.rs:69-71 | The public keys are empty; nothing else changes |
| Document.PushAuth | identity_core/src/document.rs:73-75 | The authentication entries gain exactly one entry, the new one at the end, and the old ones stay in place; nothing else changes |
| Document.AuthCleared | identity_core/src/document.rs:77-79 | The authentication entries are empty; nothing else changes |
| Document.StampUpdated | identity_core/src/document.rs:87-89 | `updated` holds the current time; nothing else changes |
| Document.ClearIdempotent | identity_core/src/document.rs:59-79 | Clearing services, public keys or authentication twice is the same as clearing once |
| Document.DIDDocument.constructor | identity_core/src/document.rs:14-31 | The object's fields are those of the given document value |
| Document.DIDDocument.UpdateService | identity_core/src/document.rs:54-56 | The object's new state is `PushService` of its old state |
| Document.DIDDocument.ClearServices | identity_core/src/document.rs:59-61 | The object's new state is `ServicesCleared` of its old state |
| Document.DIDDocument.UpdatePublicKey | identity_core/src/document.rs:64-66 | The object's new state is `PushPublicKey` of its old state |
| Document.DIDDocument.ClearPublicKeys | identity_core/src/document.rs:69-71 | The object's new state is `PublicKeysCleared` of its old state |
| Document.DIDDocument.UpdateAuth | identity_core/src/document.rs:73-75 | The object's new state is `PushAuth` of its old state |
| Document.DIDDocument.ClearAuth | identity_core/src/document.rs:77-79 | The object's new state is `AuthCleared` of its old state |
| Document.DIDDocument.UpdateTime | identity_core/src/document.rs:87-89 | The object's new state is `StampUpdated` of its old state at the given time |
| Document.SerializedMembers | identity_core/src/document.rs:13-31 | `@context` and `id` are always written first. `created` and `updated` are written exactly when set. `publicKey`, `authentication` and `services` are written exactly when non-empty |
| Document.SerializedNames | identity_core/src/document.rs:13-31 | The serialised names include `@context`, `id` and every metadata key, which is flattened beside them |
| Document.SerializationAfterUpdates | identity_core/src/document.rs:13-106 | After `init_timestamps` both timestamps are written. After a clear the cleared list is not written. After adding a service, `services` is written |
| ActorTypes.NewRequestMessage | identity-actor/src/actor/types.rs:27-32 | Succeeds exactly when the endpoint name is valid. It then keeps the data and the parsed endpoint; otherwise it passes on the endpoint's error |
| ActorTypes.Convert | identity-actor/src/actor/types.rs:48-50 | The new context has the new input and the old peer and endpoint |
| ActorTypes.ConvertTwice | identity-actor/src/actor/types.rs:48-50 | Converting twice is converting once to the last input |
| ActorTypes.NewPlaintextMessage | identity-actor/src/actor/types.rs:69-82 | The message has the given id, type and body; its other strings are empty, it names no thread or parent thread, and both times are 0 |
| ActorTypes.ThreadIdOf | identity-actor/src/actor/types.rs:84-89 | The thread is `thid` when present, otherwise the message's own id |
| ActorTypes.FreshMessageThread | identity-actor/src/actor/types.rs:69-89 | A newly built message belongs to the thread named by its own id |
| ActorTypes.RequestName | identity-actor/src/actor/types.rs:98-100 | A plaintext message's request name is its body's request name |
| ActorErrors.FromRemote | identity-actor/src/actor/errors.rs:56-67 | Each remote error becomes the local variant of the same name, exactly, with the same payload. The six local-only variants never arise |
| ActorErrors.ToRemote | identity-actor/src/actor/errors.rs:42-67 | A local error has a remote counterpart exactly when it is one of the five shared variants |
| ActorErrors.FromRemoteInverse | identity-actor/src/actor/errors.rs:56-67 | Mapping a converted remote error back gives the original error |
| ActorErrors.FromRemoteInjective | identity-actor/src/actor/errors.rs:56-67 | Distinct remote errors become distinct local errors |
| Actors.GetHandler | identity-actor/src/actor/actor.rs:269-286 | Succeeds exactly when the endpoint is bound and its state object exists, and then returns the bound handler and that state. An unbound endpoint gives `UnknownRequest(endpoint)`; a bound endpoint whose state is missing gives `HandlerInvocationError("no state set for …")` |
| Actors.BoundLookupFailsOnlyIfUnknown | identity-actor/src/actor/actor.rs:269-286 | While every handler's state is present, lookup fails exactly for unbound endpoints, and then with `UnknownRequest` |
| Actors.SelectHandler | identity-actor/src/actor/actor.rs:223-232 | The exact endpoint is tried first and its catch-all form only if that fails. When both fail, the error is that of the exact lookup |
| Actors.Ack | identity-actor/src/actor/actor.rs:237-262 | The response sent after the lookup is `Ok` exactly when a handler and its state were found, and otherwise carries the lookup error |
| Actors.DispatchInbound | identity-actor/src/actor/actor.rs:223-263 | A handler is chosen exactly when a handler and its state are found (exact endpoint first, then its catch-all form), and then it is the selected handler with the selected state. The context built for it carries the request's own endpoint and peer, even when the catch-all matched. Otherwise the request is rejected with the exact lookup's error |
| Actors.RegisteredHandlerResolves | identity-actor/src/actor/actor.rs:59-71 | After a state is stored and an endpoint is bound to it, looking up that endpoint yields that handler and that state |
| Actors.UnboundEndpointTakesThreadRoute | identity-actor/src/actor/actor.rs:163-178 | The listener checks only the exact endpoint: a request whose endpoint has no handler takes the thread route for its own thread, even when its catch-all form has a handler |
| Actors.HandlerRouteNeverFallsBack | identity-actor/src/actor/actor.rs:163-166 | While every handler has its state, a request the listener sends down the handler route gets its exact endpoint's handler and state, so the catch-all lookup and the `UnknownRequest` answer of `spawn_handler` are never reached from the listener |
| Actors.AllRoutedSnoc | identity-actor/src/actor/actor.rs:159-200 | Routing one more request extends the list of correctly routed requests by one |
| Actors.RoutedThreadsContains | identity-actor/src/actor/actor.rs:167-178 | Every thread-routed request's thread is among the threads consumed by the listener |
| Actors.RoutedThreadsStep | identity-actor/src/actor/actor.rs:159-200 | The threads consumed over `n + 1` requests are those consumed over the first `n` plus those consumed by request `n` |
| Actors.DeliveredAtMostOnce | identity-actor/src/actor/actor.rs:178-191 | Within one run of the listener with no thread channels created meanwhile, of two thread-routed requests naming the same thread the later one is not delivered, because the first removed the thread's sender: each sender delivers at most one request |
| Actors.DeliveredAtMostOnceAll | identity-actor/src/actor/actor.rs:178-191 | Within one run of the listener with no thread channels created meanwhile, only the first request naming a thread can be delivered |
| Actors.Actor.constructor | identity-actor/src/actor/actor.rs:85-116 | The actor starts with the given handler and state tables and empty thread tables |
| Actors.Actor.AddState | identity-actor/src/actor/actor.rs:118-128 | The state is stored under the new id and the builder names that id; everything else is unchanged, and every handler still has its state |
| Actors.Actor.AddHandler | identity-actor/src/actor/actor.rs:59-71 | An invalid endpoint name returns its error and changes nothing. Otherwise the endpoint is bound to the builder's state and the handler, replacing any earlier binding, and the builder is returned |
| Actors.Actor.CreateThreadChannels | identity-actor/src/actor/actor.rs:465-474 | Both thread tables map the thread to the fresh channel; everything else is unchanged |
| Actors.Actor.AwaitMessage | identity-actor/src/actor/actor.rs:428-461 | A thread with a receiver yields that receiver, which is taken out of the table. Any other thread yields `ThreadNotFound(thread)` and changes nothing |
| Actors.Actor.RouteRequest | identity-actor/src/actor/actor.rs:163-196 | A request whose endpoint has a handler is dispatched to it. Any other request goes to its thread: it is delivered exactly when the thread's sender exists, that sender is removed, and the acknowledgement is `Ok`. The handler and state tables are unchanged |
| Actors.Actor.Listen | identity-actor/src/actor/actor.rs:157-202 | Every request is routed as `RouteRequest` would route it, given the senders left by the requests before it. Within the run, with no thread channels created meanwhile, only the first request naming a thread can be delivered. The senders left are the old ones minus every thread consumed |
| Credential.AsString | identity_credential/src/credential/jwt.rs:14-16 | `as_string` returns the wrapped string: the token is exactly the token wrapping the string it returns |
| Credential.New | identity_credential/src/credential/jwt.rs:9-11 | The token gives back exactly the string it was made from, even an empty one |
| Credential.FromString | identity_credential/src/credential/jwt.rs:19-23 | Converting a string builds the same token as `Jwt::new` |
| Credential.IntoString | identity_credential/src/credential/jwt.rs:24-28 | The string taken out of a token converts back to the same token and is the token's `as_string` |
| Credential.StringRoundTrip | identity_credential/src/credential/jwt.rs:9-28 | A string put into a token and taken out again is unchanged |

## Left out

- The serde and serde_json machinery:
  - Only string member values are modelled.
  - A failing `next_value`, or a value of the wrong JSON type, is not modelled.
  - `deserialize_any` dispatch and the `expecting` messages are not modelled.
- `KeyTypeVisitor::visit_str` panics when `PublicKeyTypes::from_str` fails. The model takes a total key-type parser, so that panic is not represented.
- `KeyEncodingType::from_str` and `PublicKeyTypes::from_str` are not part of this model. They are parameters, and the round trip assumes they invert the serialiser's output.
- `DIDDocument::context`, `derive_did`, `to_string` and `from_str`, and the document's deserialisation (`string_or_list` for `@context`) are not modelled. They depend on `Context`, `Subject::to_did` and serde_json, which are not part of this model.
- Document.SerializedNames: does not model what happens when a metadata key collides with one of the document's own member names under `#[serde(flatten)]`.
- `Utc::now` and `Uuid::new_v4` are parameters. Actors.Actor.AddState requires the id to be absent from the state table, which is what a random UUID is relied on for.
- The actor's tasks and concurrency are not modelled: the spawned listener and handler tasks, `DashMap` sharing between clones, and `listener_handle`, `join` and `stop_handling_requests`.
- The network is not modelled: `NetCommander`, `send_response`, `start_listening`, `peer_id`, `addresses` and `add_address`.
- `send_request`, `send_named_request` and `stop_listening` are `todo!()` in the source and are left out.
- `send_message`, `send_named_message`, `send_message_hook` and `call_hook` are left out. They invoke handlers and the network, and handler invocation is not modelled; the model only records which handler and state would be invoked.
- Actors.Actor.Listen: each run is one uninterrupted stretch of the listener. In the program, `send_named_message` calls `create_thread_channels` concurrently with the listener and puts a thread's sender back, so a protocol with several rounds on one thread gets one delivery per created channel. The interleaving of `create_thread_channels` with the listener is not modelled; the at-most-once delivery holds per created sender, between two creations.
- Actors.DispatchInbound: does not model the `expect` panic on an input that does not decode as a plaintext message, which happens before any lookup or acknowledgement, nor the `unwrap` of `deserialize_request` that can panic after the `Ok` acknowledgement has been sent, nor an invocation error, which is only logged. Hence `Ok` means a handler and its state were found, not that the handler ran.
- Actors.Ack: the same caveat: the `Ok` acknowledgement is sent before deserialising the input for the handler and before invoking it, and says nothing about either.
- Actors.Actor.AwaitMessage: returns the receiver token rather than the awaited message. Waiting on the channel, decoding the message and the hook call are not modelled.
- Actors.Actor.Listen: models a finite stream of requests. The `expect("TODO")` panics on an undecodable message or a closed channel are not modelled, because decoding is a total parameter and delivery always succeeds.
- Actors.Actor.AddHandler: is a method of the actor that takes the builder. The builder's shared `Arc<HandlerMap>` is this actor's handler table.
- `ThreadId::new`, the `Display` implementations, `Category` and the `handlers()` getter are not modelled; they do nothing beyond their fields.
- The example script `bindings/wasm/examples/src/private_tangle.js` and the re-exports in `identity_document/src/verifiable/mod.rs` are context, not behaviour, and are not modelled.
