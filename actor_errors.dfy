/**
 * The actor's local errors, the errors a remote actor reports back, and the
 * conversion from the second to the first.
 */
module ActorErrors {
  import opened Wrappers
  import opened ActorTypes

  /** Errors of the actor lifecycle. The payloads of `TransportError` and
      `OutboundFailure` come from libp2p and are opaque text here. */
  datatype Error =
    | TransportError(transport: string)
    | CouldNotRespond(request: string)
    | Shutdown
    | InvalidEndpoint
    | OutboundFailure(failure: string)
    | UnknownRequest(request: string)
    | HandlerInvocationError(message: string)
    | HookInvocationError(message: string)
    | SerializationFailure(location: string, message: string)
    | DeserializationFailure(location: string, message: string)
    | ThreadNotFound(thread: ThreadId)

  /** Errors a remote actor sends back in its response. */
  datatype RemoteSendError =
    | UnknownRequest(request: string)
    | HandlerInvocationError(message: string)
    | HookInvocationError(message: string)
    | SerializationFailure(location: string, message: string)
    | DeserializationFailure(location: string, message: string)

  /** `impl From<RemoteSendError> for Error`: each remote error becomes the
      local variant of the same name, with its payload unchanged. */
  function FromRemote(e: RemoteSendError): (r: Error)
    ensures e.UnknownRequest? <==> r.UnknownRequest?
    ensures e.HandlerInvocationError? <==> r.HandlerInvocationError?
    ensures e.HookInvocationError? <==> r.HookInvocationError?
    ensures e.SerializationFailure? <==> r.SerializationFailure?
    ensures e.DeserializationFailure? <==> r.DeserializationFailure?
    ensures e.UnknownRequest? ==> r.request == e.request
    ensures e.HandlerInvocationError? || e.HookInvocationError? ==> r.message == e.message
    ensures e.SerializationFailure? || e.DeserializationFailure? ==>
      r.location == e.location && r.message == e.message
    ensures !r.TransportError? && !r.CouldNotRespond? && !r.Shutdown? && !r.InvalidEndpoint?
      && !r.OutboundFailure? && !r.ThreadNotFound?
  {
    match e
    case UnknownRequest(req) => Error.UnknownRequest(req)
    case HandlerInvocationError(err) => Error.HandlerInvocationError(err)
    case HookInvocationError(err) => Error.HookInvocationError(err)
    case DeserializationFailure(location, message) => Error.DeserializationFailure(location, message)
    case SerializationFailure(location, message) => Error.SerializationFailure(location, message)
  }

  /** The local errors that came from a remote actor, mapped back; the other
      variants have no remote counterpart. */
  function ToRemote(e: Error): (r: Option<RemoteSendError>)
    ensures r.Some? <==> e.UnknownRequest? || e.HandlerInvocationError? || e.HookInvocationError?
                         || e.SerializationFailure? || e.DeserializationFailure?
  {
    match e
    case UnknownRequest(req) => Some(RemoteSendError.UnknownRequest(req))
    case HandlerInvocationError(err) => Some(RemoteSendError.HandlerInvocationError(err))
    case HookInvocationError(err) => Some(RemoteSendError.HookInvocationError(err))
    case SerializationFailure(location, message) => Some(RemoteSendError.SerializationFailure(location, message))
    case DeserializationFailure(location, message) => Some(RemoteSendError.DeserializationFailure(location, message))
    case _ => None
  }

  /** The conversion loses nothing: mapping back recovers the remote error. */
  lemma FromRemoteInverse(e: RemoteSendError)
    ensures ToRemote(FromRemote(e)) == Some(e)
  {
  }

  /** Hence distinct remote errors become distinct local errors. */
  lemma FromRemoteInjective(a: RemoteSendError, b: RemoteSendError)
    requires FromRemote(a) == FromRemote(b)
    ensures a == b
  {
    FromRemoteInverse(a);
    FromRemoteInverse(b);
  }
}
