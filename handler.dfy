/**
 * The per-call proxy handler of package `proxy`: service registration, the
 * decision sequence run for each proxied call, metadata propagation and the
 * extraction of the caller's IP address.
 */
module Proxy {
  import opened Wrappers
  import opened Metadata
  import opened Grpc

  // ---------------------------------------------------------------------------
  // Routing decisions

  /** What a director chose for a call: backend, optional method override, optional completion callback. */
  datatype StreamDirection = StreamDirection(backendConn: Conn, methodName: string, done: Option<Callback>)

  /**
   * The four results of a `StreamDirector`: either an outgoing context, an
   * optional cancel function and a direction, or a (non-nil) routing error.
   */
  datatype Direction =
    | Direct(ctx: Context, cancel: Option<CancelFunc>, dir: StreamDirection)
    | Refuse(err: Error)

  /** A `StreamDirector`: the routing policy consulted once per call. */
  type StreamDirector = (Context, string) -> Direction

  /** The descriptor every outgoing stream is opened with: bidirectional streaming. */
  const ClientStreamDescForProxying: StreamDesc<Handler> := StreamDesc("", None, true, true)

  /** The effects of one call, in the order they happen. */
  datatype Event =
    | NewClientStream(ctx: Context, desc: StreamDesc<Handler>, conn: Conn, methodName: string) // an outgoing stream is requested
    | BiDirCopy                                                     // frames are relayed both ways
    | Done(callback: Callback, err: Option<Error>)                  // the director's callback runs
    | Cancel(cancel: CancelFunc)                                    // the client context is cancelled

  // ---------------------------------------------------------------------------
  // Properties of a call's trace

  /** `c` is cancelled exactly once, and as the very last effect of the call. */
  ghost predicate CancelledOnceAtEnd(trace: seq<Event>, c: CancelFunc)
  {
    && |trace| > 0
    && trace[|trace| - 1] == Cancel(c)
    && forall i :: 0 <= i < |trace| - 1 ==> !trace[i].Cancel?
  }

  /** The completion callback runs at most once, and only ever with `err`. */
  ghost predicate DoneAtMostOnceWith(trace: seq<Event>, err: Option<Error>)
  {
    && (forall i :: 0 <= i < |trace| && trace[i].Done? ==> trace[i].err == err)
    && (forall i, j :: 0 <= i < j < |trace| && trace[i].Done? ==> !trace[j].Done?)
  }

  /** No effect of any kind took place. */
  ghost predicate NoEffects(trace: seq<Event>)
  {
    trace == []
  }

  /** The relay never ran and the completion callback was never called. */
  ghost predicate NeitherCopiedNorDone(trace: seq<Event>)
  {
    forall i :: 0 <= i < |trace| ==> !trace[i].BiDirCopy? && !trace[i].Done?
  }

  // ---------------------------------------------------------------------------
  // What a successful director result leads to

  /** The cancel function the handler defers: the director's own, or one derived from its context. */
  function DeferredCancel(ctx: Context, cancel: Option<CancelFunc>): (c: CancelFunc)
    ensures cancel.Some? ==> c == cancel.value
    ensures cancel.None? ==> c == DerivedCancel(ctx)
  {
    if cancel.Some? then cancel.value else WithCancel(ctx).1
  }

  /**
   * The context the outgoing stream is opened with. Its outgoing metadata is
   * the director's when the director supplied any, and otherwise the default
   * propagation from the server context; the two are never merged.
   */
  function ClientContext(ctx: Context, cancel: Option<CancelFunc>, serverCtx: Context): (r: Context)
    ensures ctx.outgoing.Some? ==> r.outgoing == ctx.outgoing
    ensures ctx.outgoing.None? ==> r.outgoing == CopyMetadata(ctx, serverCtx).outgoing
    ensures r.incoming == ctx.incoming && r.peer == ctx.peer && r.transportMethod == ctx.transportMethod
    ensures r.cancelScopes == if cancel.None? then ctx.cancelScopes + 1 else ctx.cancelScopes
  {
    var scoped := if cancel.None? then WithCancel(ctx).0 else ctx;
    if scoped.outgoing.None? then CopyMetadata(scoped, serverCtx) else scoped
  }

  /** The method the outgoing stream targets: the director's override unless it is empty. */
  function TargetMethod(dir: StreamDirection, fullMethodName: string): (m: string)
    ensures |dir.methodName| != 0 ==> m == dir.methodName
    ensures |dir.methodName| == 0 ==> m == fullMethodName
  {
    if |dir.methodName| != 0 then dir.methodName else fullMethodName
  }

  /** The relay's result as reported: a plain end of stream is no error. */
  function Normalized(err: Option<Error>): (r: Option<Error>)
    ensures err == Some(EOF) ==> r == None
    ensures err != Some(EOF) ==> r == err
  {
    if err == Some(EOF) then None else err
  }

  // ---------------------------------------------------------------------------
  // The handler

  /** `TransparentHandler(director)`: the handler for every method the server does not know. */
  function TransparentHandler(director: StreamDirector): Handler
  {
    Handler(director)
  }

  /** A proxy handler around one director, shared by every method it is registered for. */
  datatype Handler = Handler(director: StreamDirector) {

    /**
     * One proxied call on a server stream whose context is `serverCtx`.
     * `openErr` is what `grpc.NewClientStream` returns and `copyErr` what the
     * bidirectional relay returns; the returned trace lists the effects.
     */
    method Handle(serverCtx: Context, openErr: Option<Error>, copyErr: Option<Error>)
      returns (err: Option<Error>, trace: seq<Event>)
      // the gRPC server always installs a transport stream; Go dereferences it without a check
      requires serverCtx.transportMethod.Some?
      // a routing error is returned as it is, before any effect
      ensures var d := director(serverCtx, serverCtx.transportMethod.value);
        d.Refuse? ==> err == Some(d.err) && NoEffects(trace)
      // once routed, the deferred cancel runs exactly once, last, on every path
      ensures var d := director(serverCtx, serverCtx.transportMethod.value);
        d.Direct? ==> CancelledOnceAtEnd(trace, DeferredCancel(d.ctx, d.cancel))
      // the first effect opens a bidirectional stream with the derived context and the chosen method
      ensures var d := director(serverCtx, serverCtx.transportMethod.value);
        d.Direct? ==> trace[0] == NewClientStream(ClientContext(d.ctx, d.cancel, serverCtx),
                                                  ClientStreamDescForProxying,
                                                  d.dir.backendConn,
                                                  TargetMethod(d.dir, serverCtx.transportMethod.value))
      ensures var d := director(serverCtx, serverCtx.transportMethod.value);
        d.Direct? ==> trace[0].desc.serverStreams && trace[0].desc.clientStreams
      // a failure to open the stream is returned; no relay, no callback
      ensures var d := director(serverCtx, serverCtx.transportMethod.value);
        d.Direct? && openErr.Some? ==> err == openErr && |trace| == 2 && NeitherCopiedNorDone(trace)
      // otherwise the relay runs and its normalised result is both reported and returned
      ensures var d := director(serverCtx, serverCtx.transportMethod.value);
        d.Direct? && openErr.None? ==>
          && err == Normalized(copyErr)
          && trace[1] == BiDirCopy
          && |trace| == (if d.dir.done.Some? then 4 else 3)
          && (d.dir.done.Some? ==> trace[2] == Done(d.dir.done.value, err))
          && (d.dir.done.None? ==> forall i :: 0 <= i < |trace| ==> !trace[i].Done?)
      ensures DoneAtMostOnceWith(trace, err)
    {
      var fullMethodName := serverCtx.transportMethod.value;
      var direction := director(serverCtx, fullMethodName);
      if direction.Refuse? {
        return Some(direction.err), [];
      }
      var clientCtx, dir := direction.ctx, direction.dir;
      var clientCancel: CancelFunc;
      if direction.cancel.None? {
        var derived := WithCancel(clientCtx);
        clientCtx, clientCancel := derived.0, derived.1;
      } else {
        clientCancel := direction.cancel.value;
      }
      // `defer clientCancel()`: every return below ends the trace with Cancel(clientCancel)
      if clientCtx.outgoing.None? {
        clientCtx := CopyMetadata(clientCtx, serverCtx);
      }
      if |dir.methodName| != 0 {
        fullMethodName := dir.methodName;
      }
      trace := [NewClientStream(clientCtx, ClientStreamDescForProxying, dir.backendConn, fullMethodName)];
      if openErr.Some? {
        err := openErr;
        trace := trace + [Cancel(clientCancel)];
        return;
      }
      trace := trace + [BiDirCopy];
      err := copyErr;
      if err == Some(EOF) {
        err := None;
      }
      if dir.done.Some? {
        trace := trace + [Done(dir.done.value, err)];
      }
      trace := trace + [Cancel(clientCancel)];
    }
  }

  // ---------------------------------------------------------------------------
  // Registration

  /**
   * The descriptor `RegisterService` hands to the server, and the handler it
   * wraps the director in: one bidirectional stream per method name, in order,
   * all served by that one handler.
   */
  method RegisterService(director: StreamDirector, serviceName: string, methodNames: seq<string>)
    returns (desc: ServiceDesc<Handler>, streamer: Handler)
    ensures streamer.director == director
    ensures desc.serviceName == serviceName
    ensures |desc.streams| == |methodNames|
    ensures forall i :: 0 <= i < |methodNames| ==>
      desc.streams[i] == StreamDesc(methodNames[i], Some(streamer), true, true)
  {
    streamer := Handler(director);
    desc := ServiceDesc(serviceName, []);
    for i := 0 to |methodNames|
      invariant desc.serviceName == serviceName
      invariant |desc.streams| == i
      invariant forall j :: 0 <= j < i ==>
        desc.streams[j] == StreamDesc(methodNames[j], Some(streamer), true, true)
    {
      var streamDesc := StreamDesc(methodNames[i], Some(streamer), true, true);
      desc := desc.(streams := desc.streams + [streamDesc]);
    }
  }

  // ---------------------------------------------------------------------------
  // Metadata propagation

  /** The key `XForwardedFor` ("X-Forwarded-For") is stored under in metadata. */
  const XForwardedFor := "x-forwarded-for"

  /**
   * `out` is `incoming` with `ip` added as the last forwarded-for value: every
   * other key keeps its values, earlier forwarded-for values keep their order,
   * and nothing is added when `ip` is empty.
   */
  ghost predicate Forwarded(incoming: MD, ip: string, out: MD)
  {
    && out.Keys == incoming.Keys + (if ip == "" then {} else {XForwardedFor})
    && (forall k :: k in incoming && k != XForwardedFor ==> out[k] == incoming[k])
    && (ip == "" ==> out == incoming)
    && (ip != "" ==> out[XForwardedFor] == Values(incoming, XForwardedFor) + [ip])
  }

  /**
   * `CopyMetadata(ctx, serverCtx)`: the outgoing context for the backend. With
   * incoming metadata, a copy of it extended by the caller's IP; without, just
   * the caller's IP, or `ctx` itself when there is no IP either.
   */
  function CopyMetadata(ctx: Context, serverCtx: Context): (r: Context)
    ensures r.incoming == ctx.incoming && r.peer == ctx.peer
    ensures r.transportMethod == ctx.transportMethod && r.cancelScopes == ctx.cancelScopes
    ensures serverCtx.incoming.Some? ==>
      r.outgoing.Some? && Forwarded(serverCtx.incoming.value, RemoteIp(serverCtx), r.outgoing.value)
    ensures serverCtx.incoming.None? && RemoteIp(serverCtx) == "" ==> r == ctx
    ensures serverCtx.incoming.None? && RemoteIp(serverCtx) != "" ==>
      r.outgoing == Some(map[XForwardedFor := [RemoteIp(serverCtx)]])
  {
    var remoteIp := RemoteIp(serverCtx);
    if serverCtx.incoming.Some? then
      // `md.Copy()` is a private map, so appending to it in place is a new value here
      var md := serverCtx.incoming.value;
      var md := if |remoteIp| != 0 then Append(md, XForwardedFor, [remoteIp]) else md;
      NewOutgoingContext(ctx, md)
    else if |remoteIp| == 0 then
      ctx
    else
      NewOutgoingContext(ctx, Pairs(XForwardedFor, remoteIp))
  }

  // ---------------------------------------------------------------------------
  // The caller's address

  /** `strings.LastIndex(s, string(c))`: the position of the last `c` in `s`, or -1. */
  function LastIndex(s: string, c: char): (i: int)
    ensures -1 <= i < |s|
    ensures i == -1 <==> c !in s
    ensures 0 <= i ==> s[i] == c && c !in s[i + 1..]
  {
    if |s| == 0 then -1
    else if s[|s| - 1] == c then |s| - 1
    else LastIndex(s[..|s| - 1], c)
  }

  /**
   * `RemoteIp(ctx)`: the caller's IP. Empty without a peer; the IP of a TCP
   * address; any other address with its last `:` and what follows cut off.
   */
  function RemoteIp(ctx: Context): (ip: string)
    ensures ctx.peer.None? ==> ip == ""
    ensures ctx.peer.Some? && ctx.peer.value.TcpAddr? ==> ip == ctx.peer.value.ip
    ensures ctx.peer.Some? && ctx.peer.value.OtherAddr? ==>
      var s := ctx.peer.value.text;
      && (':' !in s ==> ip == s)
      && (':' in s ==> StripsPort(s, ip))
  {
    if ctx.peer.None? then ""
    else match ctx.peer.value
      case TcpAddr(addrIp, _) => addrIp
      case OtherAddr(s) =>
        var i := LastIndex(s, ':');
        if i < 0 then s else s[..i]
  }

  /** `p` is `s` without a port suffix: a strict prefix, followed in `s` by one `:` and then no other. */
  ghost predicate StripsPort(s: string, p: string)
  {
    && |p| < |s|
    && p == s[..|p|]
    && s[|p|] == ':'
    && ':' !in s[|p| + 1..]
  }

  // ---------------------------------------------------------------------------
  // Lemmas about the caller's address and the forwarded-for chain

  /** There is only one way to strip a port: the cut is at the last `:`. */
  lemma StripsPortUnique(s: string, p: string, q: string)
    requires StripsPort(s, p) && StripsPort(s, q)
    ensures p == q
  {
  }

  /** A host joined to a port by `:` comes back as the host, even when the host holds `:` itself. */
  lemma RemoteIpOfHostPort(ctx: Context, host: string, port: string)
    requires ctx.peer == Some(OtherAddr(host + ":" + port))
    requires ':' !in port
    ensures RemoteIp(ctx) == host
  {
    var s := host + ":" + port;
    assert s[..|host|] == host;
    assert s[|host| + 1..] == port;
    assert StripsPort(s, host);
    StripsPortUnique(s, RemoteIp(ctx), host);
  }

  /** The forwarding example: `{"k": "v"}` from `203.0.113.5:54321` goes out with that IP appended. */
  lemma ForwardingExample(ctx: Context, serverCtx: Context)
    requires serverCtx.incoming == Some(map["k" := ["v"]])
    requires serverCtx.peer == Some(OtherAddr("203.0.113.5:54321"))
    ensures CopyMetadata(ctx, serverCtx).outgoing ==
      Some(map["k" := ["v"], XForwardedFor := ["203.0.113.5"]])
  {
    assert "203.0.113.5:54321" == "203.0.113.5" + ":" + "54321";
    RemoteIpOfHostPort(serverCtx, "203.0.113.5", "54321");
    var out := CopyMetadata(ctx, serverCtx).outgoing.value;
    assert out.Keys == {"k", XForwardedFor};
  }

  /**
   * Through two proxies in a row, the forwarded-for list grows by the first
   * caller's IP and then the first proxy's, in that order, after the values it
   * arrived with.
   */
  lemma ForwardedThroughTwoProxies(ctx1: Context, server1: Context, ctx2: Context, server2: Context)
    requires server1.incoming.Some?
    requires RemoteIp(server1) != "" && RemoteIp(server2) != ""
    requires server2.incoming == CopyMetadata(ctx1, server1).outgoing
    ensures CopyMetadata(ctx2, server2).outgoing.Some?
    ensures Values(CopyMetadata(ctx2, server2).outgoing.value, XForwardedFor) ==
      Values(server1.incoming.value, XForwardedFor) + [RemoteIp(server1), RemoteIp(server2)]
  {
  }
}
