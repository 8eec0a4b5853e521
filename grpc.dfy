/**
 * The parts of the gRPC library the proxy handles as values: status codes,
 * errors, peer addresses, call contexts, cancel functions, connection handles
 * and stream/service descriptors. Everything the library does behind them
 * (transport, dialing, codecs) is outside this model.
 */
module Grpc {
  import opened Wrappers
  import opened Metadata

  /** `codes.Code`. */
  datatype Code =
    | OK | Canceled | Unknown | InvalidArgument | DeadlineExceeded | NotFound
    | AlreadyExists | PermissionDenied | ResourceExhausted | FailedPrecondition
    | Aborted | OutOfRange | Unimplemented | Internal | Unavailable | DataLoss
    | Unauthenticated

  /** A non-nil Go `error`: `io.EOF`, a gRPC status, or any other error value. */
  datatype Error =
    | EOF
    | Status(code: Code, message: string)
    | OtherError(text: string)

  /**
   * `grpc.Errorf(code, msg)` for a code other than OK (with OK Go returns nil)
   * and a message that is already formatted.
   */
  function Errorf(code: Code, message: string): (e: Error)
    requires code != OK
    ensures e.Status? && e.code == code && e.message == message
  {
    Status(code, message)
  }

  /**
   * A peer address (`net.Addr`). A TCP address carries its IP, already rendered
   * as text by `IP.String()`; any other address is known only by its `String()`.
   */
  datatype Addr =
    | TcpAddr(ip: string, port: int)
    | OtherAddr(text: string)

  /**
   * A `context.Context`, reduced to the values the proxy reads from it:
   * incoming metadata (`metadata.FromIncomingContext`), outgoing metadata
   * (`metadata.FromOutgoingContext`), the peer (`peer.FromContext`), the method
   * of the server transport stream (`grpc.ServerTransportStreamFromContext`),
   * and how many `context.WithCancel` layers it has been wrapped in.
   */
  datatype Context = Context(
    incoming: Option<MD>,
    outgoing: Option<MD>,
    peer: Option<Addr>,
    transportMethod: Option<string>,
    cancelScopes: nat)

  /** `context.Background()`: carries no values. */
  const Background: Context := Context(None, None, None, None, 0)

  /** `metadata.NewOutgoingContext(ctx, md)`: a child context whose outgoing metadata is `md`. */
  function NewOutgoingContext(ctx: Context, md: MD): (r: Context)
    ensures r.outgoing == Some(md)
    ensures r.incoming == ctx.incoming && r.peer == ctx.peer
    ensures r.transportMethod == ctx.transportMethod && r.cancelScopes == ctx.cancelScopes
  {
    ctx.(outgoing := Some(md))
  }

  /**
   * A `context.CancelFunc`: one handed over by a director (known by an opaque
   * identity), or the one `context.WithCancel` derived from a parent context.
   */
  datatype CancelFunc =
    | SuppliedCancel(id: nat)
    | DerivedCancel(parent: Context)

  /**
   * `context.WithCancel(parent)`: a child that carries every value of the
   * parent inside one more cancellation scope, and the function cancelling it.
   */
  function WithCancel(parent: Context): (r: (Context, CancelFunc))
    ensures r.0 == parent.(cancelScopes := parent.cancelScopes + 1)
    ensures r.1 == DerivedCancel(parent)
  {
    (parent.(cancelScopes := parent.cancelScopes + 1), DerivedCancel(parent))
  }

  /** An externally owned backend connection (`*grpc.ClientConn`), known by identity. */
  datatype Conn = Conn(id: nat)

  /** A completion callback (`func(error)`), known by identity. */
  datatype Callback = Callback(id: nat)

  /** `grpc.StreamDesc` whose handler has type `H`. */
  datatype StreamDesc<H> = StreamDesc(
    streamName: string,
    handler: Option<H>,
    serverStreams: bool,
    clientStreams: bool)

  /** `grpc.ServiceDesc`: a service name and its stream descriptors, in order. */
  datatype ServiceDesc<H> = ServiceDesc(serviceName: string, streams: seq<StreamDesc<H>>)
}
