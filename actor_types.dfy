/**
 * The value types of the actor: request messages, request contexts and the
 * DIDComm plaintext message with its thread rule (DIDComm Messaging v2,
 * "Threads": a message without `thid` starts its own thread, named by its
 * `id`).
 */
module ActorTypes {
  import opened Wrappers

  newtype u32 = x: int | 0 <= x < 0x1_0000_0000

  /** A thread identifier; freshly generated ones come from a UUID, which is a parameter here. */
  datatype ThreadId = ThreadId(inner: string)

  /** A request name as the actor routes it. `Endpoint::new` and the other
      constructors of `Endpoint` are not part of this model; an endpoint is
      carried as its text. */
  datatype Endpoint = Endpoint(text: string)

  /** A libp2p peer identity, opaque here. */
  datatype PeerId = PeerId(text: string)

  datatype RequestMessage = RequestMessage(endpoint: Endpoint, data: seq<bv8>)

  /** `RequestMessage::new`; `newEndpoint` stands for `Endpoint::new`, whose error is passed on. */
  function NewRequestMessage<E>(name: string, data: seq<bv8>, newEndpoint: string -> Result<Endpoint, E>)
    : (r: Result<RequestMessage, E>)
    ensures r.Ok? <==> newEndpoint(name).Ok?
    ensures r.Ok? ==> r.value.data == data && r.value.endpoint == newEndpoint(name).value
    ensures r.Err? ==> r.error == newEndpoint(name).error
  {
    match newEndpoint(name)
    case Ok(endpoint) => Ok(RequestMessage(endpoint, data))
    case Err(e) => Err(e)
  }

  /** What a handler is given besides its state: the input, who sent it and to which endpoint.
      `RequestContext::new` is this datatype's constructor. */
  datatype RequestContext<T> = RequestContext(input: T, peer: PeerId, endpoint: Endpoint)

  /** `RequestContext::convert`: the same request with another input. */
  function Convert<T, I>(ctx: RequestContext<T>, input: I): (r: RequestContext<I>)
    ensures r.input == input
    ensures r.peer == ctx.peer && r.endpoint == ctx.endpoint
  {
    RequestContext(input, ctx.peer, ctx.endpoint)
  }

  /** Converting twice keeps only the last input. */
  lemma ConvertTwice<T, I, J>(ctx: RequestContext<T>, i: I, j: J)
    ensures Convert(Convert(ctx, i), j) == Convert(ctx, j)
  {
  }

  datatype DidCommPlaintextMessage<T> = DidCommPlaintextMessage(
    typ: string,
    id: ThreadId,
    thid: Option<ThreadId>,
    pthid: Option<ThreadId>,
    type_: string,
    from: string,
    to: string,
    createdTime: u32,
    expiresTime: u32,
    body: T)

  /** `DidCommPlaintextMessage::new`. */
  function NewPlaintextMessage<T>(id: ThreadId, type_: string, body: T): (m: DidCommPlaintextMessage<T>)
    ensures m.id == id && m.type_ == type_ && m.body == body
    ensures m.typ == [] && m.from == [] && m.to == []
    ensures m.thid.None? && m.pthid.None?
    ensures m.createdTime == 0 && m.expiresTime == 0
  {
    DidCommPlaintextMessage("", id, None, None, type_, "", "", 0, 0, body)
  }

  /** `DidCommPlaintextMessage::thread_id`: the explicit thread, else the message's own id. */
  function ThreadIdOf<T>(m: DidCommPlaintextMessage<T>): (t: ThreadId)
    ensures m.thid.Some? ==> t == m.thid.value
    ensures m.thid.None? ==> t == m.id
  {
    match m.thid
    case Some(thid) => thid
    case None => m.id
  }

  /** A freshly built message opens the thread named by its own id. */
  lemma FreshMessageThread<T>(id: ThreadId, type_: string, body: T)
    ensures ThreadIdOf(NewPlaintextMessage(id, type_, body)) == id
  {
  }

  /** The request name of a plaintext message is that of its body; `bodyName`
      stands for the body's own `request_name`. */
  function RequestName<T>(m: DidCommPlaintextMessage<T>, bodyName: T -> string): (name: string)
    ensures name == bodyName(m.body)
  {
    bodyName(m.body)
  }
}
