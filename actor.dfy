/**
 * The actor's bookkeeping: the table of request handlers and the table of their
 * shared state objects, the per-thread channel tables, handler lookup with its
 * catch-all fallback, and the listener's choice between the handler route and
 * the thread route.
 *
 * Tasks, channels and the network are abstracted: a oneshot channel is a
 * `Channel` token (its sender and its receiver carry the same token), a
 * handler and a state object are opaque tokens, and invoking a handler is not
 * modelled. Generating a UUID, decoding a plaintext message from bytes and
 * `Endpoint::to_catch_all` are parameters.
 */
module Actors {
  import opened Wrappers
  import opened ActorTypes
  import opened ActorErrors

  datatype Uuid = Uuid(bits: nat)

  /** A type-erased request handler. */
  datatype Handler = Handler(id: nat)

  /** A type-erased shared state object; a clone of it is the same value. */
  datatype StateObject = StateObject(id: nat)

  /** A oneshot channel, named by both of its ends. */
  datatype Channel = Channel(id: nat)

  /** Returned by `add_state`; it names the state object its handlers will share. */
  datatype HandlerBuilder = HandlerBuilder(objectId: Uuid)

  /** The JSON body of a decoded plaintext message, opaque here. */
  datatype JsonValue = JsonValue(text: string)

  datatype InboundRequest = InboundRequest(peer: PeerId, endpoint: Endpoint, input: seq<bv8>)

  /** What a thread's sender delivers to the task awaiting that thread. */
  datatype ThreadRequest = ThreadRequest(peer: PeerId, endpoint: Endpoint, input: seq<bv8>)

  type HandlerMap = map<Endpoint, (Uuid, Handler)>
  type ObjectMap = map<Uuid, StateObject>

  /** Every registered handler's state object is present. */
  predicate StateBound(handlers: HandlerMap, objects: ObjectMap) {
    forall e :: e in handlers ==> handlers[e].0 in objects
  }

  function NoStateMessage(endpoint: Endpoint): string {
    "no state set for " + endpoint.text
  }

  /** `Actor::get_handler`: the handler bound to `endpoint` and a clone of its state. */
  function GetHandler(handlers: HandlerMap, objects: ObjectMap, endpoint: Endpoint)
    : (r: Result<(Handler, StateObject), RemoteSendError>)
    ensures r.Ok? <==> endpoint in handlers && handlers[endpoint].0 in objects
    ensures r.Ok? ==> r.value == (handlers[endpoint].1, objects[handlers[endpoint].0])
    ensures endpoint !in handlers ==> r == Err(RemoteSendError.UnknownRequest(endpoint.text))
    ensures endpoint in handlers && handlers[endpoint].0 !in objects ==>
      r == Err(RemoteSendError.HandlerInvocationError(NoStateMessage(endpoint)))
  {
    if endpoint in handlers then
      var (objectId, handler) := handlers[endpoint];
      if objectId in objects then Ok((handler, objects[objectId]))
      else Err(RemoteSendError.HandlerInvocationError(NoStateMessage(endpoint)))
    else
      Err(RemoteSendError.UnknownRequest(endpoint.text))
  }

  /** While every handler's state is present, looking up an endpoint fails only
      when nothing is registered for it. */
  lemma BoundLookupFailsOnlyIfUnknown(handlers: HandlerMap, objects: ObjectMap, endpoint: Endpoint)
    requires StateBound(handlers, objects)
    ensures GetHandler(handlers, objects, endpoint).Ok? <==> endpoint in handlers
    ensures GetHandler(handlers, objects, endpoint).Err? ==>
      GetHandler(handlers, objects, endpoint).error == RemoteSendError.UnknownRequest(endpoint.text)
  {
  }

  /** The selection in `spawn_handler`: the exact endpoint first, its catch-all
      form only if that fails, and the exact lookup's error if both fail. */
  function SelectHandler(handlers: HandlerMap, objects: ObjectMap, endpoint: Endpoint, toCatchAll: Endpoint -> Endpoint)
    : (r: Result<(Handler, StateObject), RemoteSendError>)
    ensures r.Ok? <==> GetHandler(handlers, objects, endpoint).Ok? || GetHandler(handlers, objects, toCatchAll(endpoint)).Ok?
    ensures GetHandler(handlers, objects, endpoint).Ok? ==> r == GetHandler(handlers, objects, endpoint)
    ensures r.Ok? && GetHandler(handlers, objects, endpoint).Err? ==> r == GetHandler(handlers, objects, toCatchAll(endpoint))
    ensures r.Err? ==> r == GetHandler(handlers, objects, endpoint)
  {
    match GetHandler(handlers, objects, endpoint)
    case Ok(tuple) => Ok(tuple)
    case Err(error) =>
      match GetHandler(handlers, objects, toCatchAll(endpoint))
      case Ok(tuple) => Ok(tuple)
      case Err(_) => Err(error)
  }

  /** What `spawn_handler` does with a request. */
  datatype Dispatch =
    | Invoke(handler: Handler, state: StateObject, context: RequestContext<()>)
    | Reject(error: RemoteSendError)

  /** The response `spawn_handler` sends once the lookup is done: `Ok` when a
      handler and its state were found, before the handler is invoked, and the
      lookup error otherwise. */
  function Ack(d: Dispatch): (a: Result<(), RemoteSendError>)
    ensures a.Ok? <==> d.Invoke?
    ensures d.Reject? ==> a == Err(d.error)
  {
    match d
    case Invoke(_, _, _) => Ok(())
    case Reject(error) => Err(error)
  }

  /** `spawn_handler` without the task: the handler and state it finds, and the
      context it builds for them, which names the request's own endpoint even when
      the catch-all matched. Decoding the input, invoking the handler and the
      outcome of the invocation are not modelled. */
  function DispatchInbound(handlers: HandlerMap, objects: ObjectMap, request: InboundRequest, toCatchAll: Endpoint -> Endpoint)
    : (d: Dispatch)
    ensures d.Invoke? <==> SelectHandler(handlers, objects, request.endpoint, toCatchAll).Ok?
    ensures d.Invoke? ==>
      (d.handler, d.state) == SelectHandler(handlers, objects, request.endpoint, toCatchAll).value
      && d.context == RequestContext((), request.peer, request.endpoint)
    ensures d.Reject? ==> Err(d.error) == GetHandler(handlers, objects, request.endpoint)
  {
    match SelectHandler(handlers, objects, request.endpoint, toCatchAll)
    case Ok((handler, state)) => Invoke(handler, state, RequestContext((), request.peer, request.endpoint))
    case Err(error) => Reject(error)
  }

  /** After `add_state` put `obj` under `objectId` and `add_handler` bound
      `endpoint` to it, the lookup of `endpoint` yields that handler and that state. */
  lemma RegisteredHandlerResolves(handlers: HandlerMap, objects: ObjectMap, objectId: Uuid, obj: StateObject,
                                  endpoint: Endpoint, handler: Handler)
    ensures GetHandler(handlers[endpoint := (objectId, handler)], objects[objectId := obj], endpoint) == Ok((handler, obj))
  {
  }

  /** Where the listener sends a request. */
  datatype Route =
    | HandlerRoute(dispatch: Dispatch)
    | ThreadRoute(thread: ThreadId, delivered: Option<(Channel, ThreadRequest)>, ack: Result<(), RemoteSendError>)

  /** The thread a request names, once its input is decoded. */
  function ThreadOf(request: InboundRequest, decode: seq<bv8> -> DidCommPlaintextMessage<JsonValue>): ThreadId {
    ThreadIdOf(decode(request.input))
  }

  /** How the listener routes one request, given the tables at that moment. Only
      the exact endpoint decides the route: a request whose endpoint is unbound
      takes the thread route even when its catch-all form has a handler. */
  ghost predicate RoutedAs(route: Route, request: InboundRequest, handlers: HandlerMap, objects: ObjectMap,
                           senders: map<ThreadId, Channel>,
                           decode: seq<bv8> -> DidCommPlaintextMessage<JsonValue>, toCatchAll: Endpoint -> Endpoint)
  {
    if request.endpoint in handlers then
      route == HandlerRoute(DispatchInbound(handlers, objects, request, toCatchAll))
    else
      var t := ThreadOf(request, decode);
      && route.ThreadRoute?
      && route.thread == t
      && route.ack == Ok(())
      && (route.delivered.Some? <==> t in senders)
      && (t in senders ==> route.delivered == Some((senders[t], ThreadRequest(request.peer, request.endpoint, request.input))))
  }

  /** Each of `routes` is how the listener routes the request at the same
      position, with the senders left after the requests before it. */
  ghost predicate AllRouted(routes: seq<Route>, requests: seq<InboundRequest>, handlers: HandlerMap, objects: ObjectMap,
                            senders: map<ThreadId, Channel>,
                            decode: seq<bv8> -> DidCommPlaintextMessage<JsonValue>, toCatchAll: Endpoint -> Endpoint)
  {
    && |routes| <= |requests|
    && forall k :: 0 <= k < |routes| ==>
         RoutedAs(routes[k], requests[k], handlers, objects, senders - RoutedThreads(requests[..k], handlers, decode),
                  decode, toCatchAll)
  }

  /** Routing one more request extends the routed prefix. */
  lemma AllRoutedSnoc(routes: seq<Route>, route: Route, requests: seq<InboundRequest>, handlers: HandlerMap,
                      objects: ObjectMap, senders: map<ThreadId, Channel>,
                      decode: seq<bv8> -> DidCommPlaintextMessage<JsonValue>, toCatchAll: Endpoint -> Endpoint)
    requires AllRouted(routes, requests, handlers, objects, senders, decode, toCatchAll)
    requires |routes| < |requests|
    requires RoutedAs(route, requests[|routes|], handlers, objects,
                      senders - RoutedThreads(requests[..|routes|], handlers, decode), decode, toCatchAll)
    ensures AllRouted(routes + [route], requests, handlers, objects, senders, decode, toCatchAll)
  {
    var rs := routes + [route];
    forall k | 0 <= k < |rs|
      ensures RoutedAs(rs[k], requests[k], handlers, objects, senders - RoutedThreads(requests[..k], handlers, decode),
                       decode, toCatchAll)
    {
      if k < |routes| {
        assert rs[k] == routes[k];
      }
    }
  }

  /** The listener never hands a request for an unbound endpoint to the
      catch-all handler: such a request takes the thread route. */
  lemma UnboundEndpointTakesThreadRoute(route: Route, request: InboundRequest, handlers: HandlerMap,
                                        objects: ObjectMap, senders: map<ThreadId, Channel>,
                                        decode: seq<bv8> -> DidCommPlaintextMessage<JsonValue>,
                                        toCatchAll: Endpoint -> Endpoint)
    requires RoutedAs(route, request, handlers, objects, senders, decode, toCatchAll)
    requires request.endpoint !in handlers
    ensures route.ThreadRoute? && route.thread == ThreadOf(request, decode)
  {
  }

  /** While every handler's state is present, a request the listener sends down
      the handler route is invoked with its exact endpoint's handler and state:
      the catch-all lookup and the `UnknownRequest` rejection are never reached. */
  lemma HandlerRouteNeverFallsBack(route: Route, request: InboundRequest, handlers: HandlerMap,
                                   objects: ObjectMap, senders: map<ThreadId, Channel>,
                                   decode: seq<bv8> -> DidCommPlaintextMessage<JsonValue>,
                                   toCatchAll: Endpoint -> Endpoint)
    requires StateBound(handlers, objects)
    requires RoutedAs(route, request, handlers, objects, senders, decode, toCatchAll)
    requires route.HandlerRoute?
    ensures route.dispatch == Invoke(handlers[request.endpoint].1, objects[handlers[request.endpoint].0],
                                     RequestContext((), request.peer, request.endpoint))
  {
  }

  /** The threads that the listener consumes while it routes `requests`. */
  function RoutedThreads(requests: seq<InboundRequest>, handlers: HandlerMap,
                         decode: seq<bv8> -> DidCommPlaintextMessage<JsonValue>): set<ThreadId>
    decreases |requests|
  {
    if requests == [] then {}
    else
      var last := requests[|requests| - 1];
      RoutedThreads(requests[..|requests| - 1], handlers, decode)
      + (if last.endpoint in handlers then {} else {ThreadOf(last, decode)})
  }

  lemma {:induction false} RoutedThreadsContains(requests: seq<InboundRequest>, handlers: HandlerMap,
                                                 decode: seq<bv8> -> DidCommPlaintextMessage<JsonValue>, i: nat)
    requires i < |requests|
    requires requests[i].endpoint !in handlers
    ensures ThreadOf(requests[i], decode) in RoutedThreads(requests, handlers, decode)
    decreases |requests|
  {
    if i < |requests| - 1 {
      var front := requests[..|requests| - 1];
      assert front[i] == requests[i];
      RoutedThreadsContains(front, handlers, decode, i);
    }
  }

  lemma RoutedThreadsStep(requests: seq<InboundRequest>, handlers: HandlerMap,
                          decode: seq<bv8> -> DidCommPlaintextMessage<JsonValue>, n: nat)
    requires n < |requests|
    ensures RoutedThreads(requests[..n + 1], handlers, decode)
      == RoutedThreads(requests[..n], handlers, decode) + RoutedThreads([requests[n]], handlers, decode)
  {
    assert requests[..n + 1][..n] == requests[..n];
    assert [requests[n]][..0] == [];
  }

  /** Within one run of the listener over `requests`, with no thread channels
      created meanwhile, a thread's sender is used at most once: of the
      thread-routed requests naming one thread, only the first can be delivered. */
  lemma {:induction false} DeliveredAtMostOnce(routes: seq<Route>, requests: seq<InboundRequest>, handlers: HandlerMap,
                                               objects: ObjectMap, senders: map<ThreadId, Channel>,
                                               decode: seq<bv8> -> DidCommPlaintextMessage<JsonValue>,
                                               toCatchAll: Endpoint -> Endpoint, i: nat, j: nat)
    requires |routes| == |requests|
    requires AllRouted(routes, requests, handlers, objects, senders, decode, toCatchAll)
    requires i < j < |routes|
    requires routes[i].ThreadRoute? && routes[j].ThreadRoute? && routes[i].thread == routes[j].thread
    ensures routes[j].delivered.None?
  {
    assert RoutedAs(routes[i], requests[i], handlers, objects, senders - RoutedThreads(requests[..i], handlers, decode), decode, toCatchAll);
    assert RoutedAs(routes[j], requests[j], handlers, objects, senders - RoutedThreads(requests[..j], handlers, decode), decode, toCatchAll);
    assert requests[..j][i] == requests[i];
    RoutedThreadsContains(requests[..j], handlers, decode, i);
  }

  /** `DeliveredAtMostOnce` for every pair of requests of the run. */
  lemma DeliveredAtMostOnceAll(routes: seq<Route>, requests: seq<InboundRequest>, handlers: HandlerMap,
                                objects: ObjectMap, senders: map<ThreadId, Channel>,
                                decode: seq<bv8> -> DidCommPlaintextMessage<JsonValue>,
                                toCatchAll: Endpoint -> Endpoint)
    requires |routes| == |requests|
    requires AllRouted(routes, requests, handlers, objects, senders, decode, toCatchAll)
    ensures forall i, j ::
      (0 <= i < j < |routes| && routes[i].ThreadRoute? && routes[j].ThreadRoute? && routes[i].thread == routes[j].thread)
      ==> routes[j].delivered.None?
  {
    forall i, j | 0 <= i < j < |routes| && routes[i].ThreadRoute? && routes[j].ThreadRoute?
        && routes[i].thread == routes[j].thread
      ensures routes[j].delivered.None?
    {
      DeliveredAtMostOnce(routes, requests, handlers, objects, senders, decode, toCatchAll, i, j);
    }
  }

  class Actor {
    var handlers: HandlerMap
    var objects: ObjectMap
    var threadsSender: map<ThreadId, Channel>
    var threadsReceiver: map<ThreadId, Channel>

    /** `Actor::from_builder`, without the listener task and the network. */
    constructor (handlers: HandlerMap, objects: ObjectMap)
      ensures this.handlers == handlers && this.objects == objects
      ensures threadsSender == map[] && threadsReceiver == map[]
    {
      this.handlers := handlers;
      this.objects := objects;
      threadsSender := map[];
      threadsReceiver := map[];
    }

    /** `Actor::add_state`: stores `obj` under a fresh id. */
    method AddState(obj: StateObject, objectId: Uuid) returns (b: HandlerBuilder)
      requires objectId !in objects
      modifies this
      ensures b.objectId == objectId
      ensures objects == old(objects)[objectId := obj]
      ensures handlers == old(handlers)
      ensures threadsSender == old(threadsSender) && threadsReceiver == old(threadsReceiver)
      ensures old(StateBound(handlers, objects)) ==> StateBound(handlers, objects)
    {
      objects := objects[objectId := obj];
      b := HandlerBuilder(objectId);
    }

    /** `HandlerBuilder::add_handler`: binds the endpoint named `cmd` to the
        builder's state and `handler`, replacing any earlier binding. The builder
        shares this actor's handler table. */
    method AddHandler(b: HandlerBuilder, cmd: string, handler: Handler, newEndpoint: string -> Result<Endpoint, Error>)
      returns (r: Result<HandlerBuilder, Error>)
      modifies this
      ensures newEndpoint(cmd).Err? ==> r == Err(newEndpoint(cmd).error) && handlers == old(handlers)
      ensures newEndpoint(cmd).Ok? ==>
        r == Ok(b) && handlers == old(handlers)[newEndpoint(cmd).value := (b.objectId, handler)]
      ensures objects == old(objects)
      ensures threadsSender == old(threadsSender) && threadsReceiver == old(threadsReceiver)
      ensures old(StateBound(handlers, objects)) && b.objectId in objects ==> StateBound(handlers, objects)
    {
      match newEndpoint(cmd)
      case Err(e) =>
        r := Err(e);
      case Ok(endpoint) =>
        handlers := handlers[endpoint := (b.objectId, handler)];
        r := Ok(b);
    }

    /** `create_thread_channels`: both ends of a fresh channel are filed under `thread`. */
    method CreateThreadChannels(thread: ThreadId, channel: Channel)
      modifies this
      ensures threadsSender == old(threadsSender)[thread := channel]
      ensures threadsReceiver == old(threadsReceiver)[thread := channel]
      ensures handlers == old(handlers) && objects == old(objects)
    {
      threadsSender := threadsSender[thread := channel];
      threadsReceiver := threadsReceiver[thread := channel];
    }

    /** The table handling of `await_message`: the thread's receiver is taken
        out, or the thread is reported missing. Awaiting the channel, decoding
        and the hook call are not modelled. */
    method AwaitMessage(thread: ThreadId) returns (r: Result<Channel, Error>)
      modifies this
      ensures thread in old(threadsReceiver) ==>
        r == Ok(old(threadsReceiver)[thread]) && threadsReceiver == old(threadsReceiver) - {thread}
      ensures thread !in old(threadsReceiver) ==>
        r == Err(ThreadNotFound(thread)) && threadsReceiver == old(threadsReceiver)
      ensures thread !in threadsReceiver
      ensures threadsSender == old(threadsSender) && handlers == old(handlers) && objects == old(objects)
    {
      if thread in threadsReceiver {
        r := Ok(threadsReceiver[thread]);
        threadsReceiver := threadsReceiver - {thread};
      } else {
        r := Err(ThreadNotFound(thread));
      }
    }

    /** One turn of the listener loop in `spawn_listener`. */
    method RouteRequest(request: InboundRequest, decode: seq<bv8> -> DidCommPlaintextMessage<JsonValue>,
                        toCatchAll: Endpoint -> Endpoint) returns (route: Route)
      modifies this
      ensures RoutedAs(route, request, old(handlers), old(objects), old(threadsSender), decode, toCatchAll)
      ensures threadsSender == old(threadsSender) - RoutedThreads([request], old(handlers), decode)
      ensures handlers == old(handlers) && objects == old(objects) && threadsReceiver == old(threadsReceiver)
    {
      assert [request][..0] == [];
      if request.endpoint in handlers {
        route := HandlerRoute(DispatchInbound(handlers, objects, request, toCatchAll));
      } else {
        var t := ThreadOf(request, decode);
        var delivered: Option<(Channel, ThreadRequest)> := None;
        if t in threadsSender {
          delivered := Some((threadsSender[t], ThreadRequest(request.peer, request.endpoint, request.input)));
        }
        threadsSender := threadsSender - {t};
        route := ThreadRoute(t, delivered, Ok(()));
      }
    }

    /** The listener loop of `spawn_listener` over a finite stream of requests,
        with no thread channels created while it runs. */
    method Listen(requests: seq<InboundRequest>, decode: seq<bv8> -> DidCommPlaintextMessage<JsonValue>,
                  toCatchAll: Endpoint -> Endpoint) returns (routes: seq<Route>)
      modifies this
      ensures |routes| == |requests|
      ensures AllRouted(routes, requests, old(handlers), old(objects), old(threadsSender), decode, toCatchAll)
      ensures forall i, j ::
        (0 <= i < j < |routes| && routes[i].ThreadRoute? && routes[j].ThreadRoute? && routes[i].thread == routes[j].thread)
        ==> routes[j].delivered.None?
      ensures threadsSender == old(threadsSender) - RoutedThreads(requests, old(handlers), decode)
      ensures handlers == old(handlers) && objects == old(objects) && threadsReceiver == old(threadsReceiver)
    {
      routes := [];
      var n := 0;
      ghost var handlers0, objects0, senders0 := handlers, objects, threadsSender;
      while n < |requests|
        invariant 0 <= n <= |requests| && |routes| == n
        invariant handlers == handlers0 && objects == objects0 && threadsReceiver == old(threadsReceiver)
        invariant threadsSender == senders0 - RoutedThreads(requests[..n], handlers0, decode)
        invariant AllRouted(routes, requests, handlers0, objects0, senders0, decode, toCatchAll)
      {
        var route := RouteRequest(requests[n], decode, toCatchAll);
        RoutedThreadsStep(requests, handlers0, decode, n);
        AllRoutedSnoc(routes, route, requests, handlers0, objects0, senders0, decode, toCatchAll);
        routes := routes + [route];
        n := n + 1;
      }
      assert requests[..n] == requests;
      DeliveredAtMostOnceAll(routes, requests, handlers0, objects0, senders0, decode, toCatchAll);
    }
  }
}
