# grpc-proxy: the proxy handler and the example director

This project models, in Dafny, the decision logic of a transparent gRPC
proxy (package `proxy` of mkxxx/grpc-proxy). For each call it does not serve
itself, the proxy asks a *director* where the call goes. It then opens an
outgoing stream to that backend and relays frames both ways. It also
forwards the caller's metadata, adding the caller's IP under
`x-forwarded-for`.

Modules:

- `Wrappers`: the `Option` type used for Go's nil values and `, ok` lookups.
- `Metadata`: gRPC metadata as a map from key to an ordered list of values.
  It holds `Append` (`md.Append`) and `Pairs` (`metadata.Pairs` with one
  key and one value).
- `Grpc`: what the proxy uses from the gRPC library, as plain values: status
  codes, errors (`io.EOF`, statuses, other errors), peer addresses, contexts,
  cancel functions, connection handles and stream/service descriptors. It
  also holds stand-ins for three library calls:
  - `Errorf` (`grpc.Errorf`) builds a status error;
  - `NewOutgoingContext` (`metadata.NewOutgoingContext`) replaces a
    context's outgoing metadata;
  - `WithCancel` (`context.WithCancel`) wraps a context in one more cancel
    scope and returns the cancel derived from it.
- `Proxy` (`proxy/handler.go`):
  - `RegisterService` builds the service descriptor. It is a loop.
  - `Handler.Handle` is the per-call handler. It is a method that returns the
    call's error and a trace of its effects.
  - `CopyMetadata` is the metadata propagation.
  - `RemoteIp` extracts the caller's address, using `LastIndex`.
- `ProxyExamples` (`proxy/examples_test.go`): the example director
  `ClientConn`. `Decide` is its routing decision and `ClientConn` adds the
  dial.

A context is a value. It carries only what the proxy reads from it:
- incoming metadata;
- outgoing metadata;
- the peer address;
- the method of the server transport stream;
- how many `context.WithCancel` layers wrap it.

`Handle` receives the results of `grpc.NewClientStream` and of `biDirCopy`
as inputs. Its trace records four kinds of effect, in order:
- the request for the outgoing stream, with its context, connection and
  method;
- the relay;
- the completion callback, with its argument;
- the deferred cancel.

The properties are proved over that trace: which effects happen on each
exit path, how often, and with which values.

Three properties of the code are easy to overlook, and the model keeps each
of them:
- A director error returns before `defer clientCancel()` is registered
  (proxy/handler.go:69-76). So no cancel function runs on that path.
- A `NewClientStream` failure returns before `dir.Done` is reached
  (proxy/handler.go:83-86, 92-94). So the completion callback never sees
  an error from opening the outgoing stream.
- The completion callback runs at most once. It runs only after the relay,
  and not at all when the director gave none.

## Model

| member | source | states |
|---|---|---|
| `Proxy.Handler.Handle` | proxy/handler.go:65-96 | A director error comes back unchanged and the trace is empty: no stream, no cancel, no callback. Once the director succeeds, the deferred cancel runs exactly once, as the last effect, on every exit path. The first effect opens the stream with the derived client context, the chosen method and the bidirectional descriptor `clientStreamDescForProxying` (server and client streaming). If opening fails, that error is returned and neither the relay nor the callback runs. Otherwise the relay runs, its result is normalised (`io.EOF` becomes nil) and returned, and the callback, when present, is called once with exactly that value. |
| `Proxy.DeferredCancel` | proxy/handler.go:73-76 | The cancel the handler defers is the director's own when it gave one. Otherwise it is the cancel `WithCancel` derives from the director's context. |
| `Proxy.ClientContext` | proxy/handler.go:73-79 | The client context keeps the director's outgoing metadata when there is any; the two sources are never merged. Otherwise it carries the propagated metadata from `CopyMetadata`. It is wrapped in one more cancel scope exactly when the director gave no cancel. Incoming metadata, peer and transport method are the director's. |
| `Proxy.TargetMethod` | proxy/handler.go:80-82 | The outgoing method is the director's override when that is non-empty, and the original full method name otherwise. |
| `Proxy.Normalized` | proxy/handler.go:88-91 | An `io.EOF` relay result becomes nil. Any other result, nil included, passes through unchanged. |
| `Proxy.RegisterService` | proxy/handler.go:30-46 | The descriptor has the given service name and one stream per method name, in the same order. Each stream is named after its method, is served by the one shared handler around the director, and is bidirectional (server and client streaming). |
| `Proxy.CopyMetadata` | proxy/handler.go:106-119 | With incoming metadata, the outgoing metadata is a copy of it: every key other than `x-forwarded-for` keeps its values. When the caller's IP is non-empty, it is appended after the earlier forwarded-for values. When the IP is empty, the copy is exact. Without incoming metadata, `ctx` is returned unchanged if there is no IP; otherwise the outgoing metadata is the single pair forwarded-for → IP. Apart from outgoing metadata, the result is `ctx`. |
| `Proxy.LastIndex` | proxy/handler.go:131 | -1 exactly when `:` does not occur. Otherwise the result is a position holding `:`, with no `:` after it. |
| `Proxy.RemoteIp` | proxy/handler.go:121-136 | No peer gives "". A TCP address gives its IP. Another address with no `:` is returned whole. Otherwise the result is a strict prefix of the address, and the cut-off suffix holds exactly one `:`, at its start. |
| `Proxy.RemoteIpOfHostPort` | proxy/handler.go:130-135 | For a non-TCP address `host:port` whose port has no `:`, the result is `host`, even when the host itself contains `:`. |
| `Proxy.StripsPortUnique` | proxy/handler.go:131-135 | At most one prefix of an address satisfies the port-stripping description, so that description fixes `RemoteIp`'s result. |
| `Proxy.ForwardingExample` | proxy/handler.go:106-113 | Incoming `{"k": ["v"]}` from peer `203.0.113.5:54321` goes out as `{"k": ["v"], "x-forwarded-for": ["203.0.113.5"]}`. |
| `Proxy.ForwardedThroughTwoProxies` | proxy/handler.go:108-113 | Through two proxies in a row, the forwarded-for list is the original list, then the caller's IP, then the first proxy's IP. |
| `Metadata.Append` | proxy/handler.go:111 | Appending no values changes nothing. Otherwise the key is present afterwards. Its old values stay in front, in order, with the new values after them. Every other key is untouched. |
| `ProxyExamples.Decide` | proxy/examples_test.go:42-58 | Methods with prefix `/com.example.internal.` are rejected with Unimplemented "Unknown method", whatever the metadata. A first `:authority` of `staging.api.example.com` routes to `api-service.staging.svc.local`, in both directions of the if-and-only-if. A first `:authority` of `api.example.com` routes to `api-service.prod.svc.local`, likewise. Every other case, including missing metadata or a missing `:authority`, is rejected with Unimplemented "Unknown method". |
| `ProxyExamples.ClientConn` | proxy/examples_test.go:42-61 | A rejection returns only the Unimplemented status: no context, no cancel, no connection. A route returns the background context, a nil cancel function, and the connection and error from dialing the chosen address, passed through. |
| `ProxyExamples.DecideIsTableLookup` | proxy/examples_test.go:47-58 | The decision equals the internal-prefix check followed by a lookup of the first authority in a two-entry routing table. |
| `ProxyExamples.OnlyFirstAuthorityConsulted` | proxy/examples_test.go:48-55 | Two metadata maps that agree on whether `:authority` is present and on its first value get the same decision. |
| `ProxyExamples.InternalIgnoresContext` | proxy/examples_test.go:43-46 | For an internal method the result is the same for every context, and it is the Unimplemented "Unknown method" error. |
| `ProxyExamples.RejectionDoesNotDial` | proxy/examples_test.go:44-58 | A rejected call's result does not depend on the dialer: no connection is attempted. |

## Left out

- `biDirCopy`, the two-goroutine frame relay, is not part of this model. Its result is an input to `Handle`.
- `grpc.NewClientStream`, `grpc.DialContext` and `server.RegisterService` are foreign network and registration calls. The first two are inputs (a result value, a dial function). For the third, the model stops at the descriptor and handler it would be given.
- The opaque frame codec (`proxy.Codec()`) and its transport are not shown and not modelled.
- `HandlerType` of the service descriptor is a nil interface pointer typed for the library's reflection. It is not modelled.
- `TransparentHandler` only wraps the director in a handler. Its behaviour is `Handle`'s, so it has no contract of its own.
- Context deadlines and the propagation of cancellation are library behaviour. A cancel is only an event in the trace.
- `peer.FromContext` and `ServerTransportStreamFromContext` are library lookups. Their results are optional fields of the context.
- `Handle` requires a server transport stream. The Go code calls `ss.Method()` without a nil check, and the gRPC server always installs one.
- `Decide` and `ClientConn` require that a present `:authority` list is non-empty. The Go code reads `val[0]` unguarded and would panic; internal methods are checked before that and need no such condition.
- A director returning a nil `*StreamDirection` with a nil error would make Go panic at `dir.Method`. The model's direction is never nil.
- A director returning a nil context with a nil error would make Go panic: in `context.WithCancel(nil)` (proxy/handler.go:74) without a cancel function, or in `metadata.FromOutgoingContext` (proxy/handler.go:77) with one. The model's contexts are never nil.
- A peer whose `Addr` is a nil interface would make Go panic at `addr.String()` (proxy/handler.go:130). The model's peer always has an address.
- Errorf: requires a code other than OK, since `grpc.Errorf` returns nil for OK, and takes the message as already formatted (no `Sprintf` verbs). Both call sites (proxy/examples_test.go:45,57) pass Unimplemented and the literal "Unknown method".
- `metadata.Append` and `metadata.Pairs` lower-case their key. The model writes the key `X-Forwarded-For` directly in its stored lower-case form `x-forwarded-for`.
- `IP.String()` formatting of TCP addresses is library behaviour. The IP is an opaque string.
- Go strings are bytes and the model's are characters. `:` is ASCII and never occurs inside a multi-byte UTF-8 sequence, so `LastIndex` and the cut agree with byte-level slicing.
- The Go maps are shared references, and the source copies incoming metadata before appending so as not to mutate it. In the model, metadata are values, so "the incoming map is not mutated" holds by construction rather than by proof.
