/**
 * The example director of package `proxy_test`: `ClientConn` shields internal
 * services and picks a staging or production backend from the call's
 * `:authority`, before dialing it.
 */
module ProxyExamples {
  import opened Wrappers
  import opened Metadata
  import opened Grpc

  /** Methods under this prefix are never forwarded. */
  const InternalPrefix := "/com.example.internal."

  /** The pseudo-header holding the authority the caller addressed. */
  const Authority := ":authority"

  const UnknownMethod := "Unknown method"

  /** Where a call goes: rejected with a status, or to a backend address. */
  datatype Route =
    | Reject(code: Code, message: string)
    | RouteTo(addr: string)

  /** `strings.HasPrefix(fullMethod, InternalPrefix)`. */
  predicate IsInternal(fullMethod: string)
  {
    InternalPrefix <= fullMethod
  }

  /**
   * Go indexes the first `:authority` value without checking that there is
   * one, so callers must not send that key with no values.
   */
  predicate AuthorityIndexable(incoming: Option<MD>)
  {
    incoming.Some? && Authority in incoming.value ==> |incoming.value[Authority]| > 0
  }

  /** The backend address chosen from the metadata, or "" when none is. */
  function BackendAddr(incoming: Option<MD>): string
    requires AuthorityIndexable(incoming)
  {
    if incoming.Some? then
      var md := incoming.value;
      if Authority in md && md[Authority][0] == "staging.api.example.com" then
        "api-service.staging.svc.local"
      else if Authority in md && md[Authority][0] == "api.example.com" then
        "api-service.prod.svc.local"
      else
        ""
    else
      ""
  }

  /**
   * The routing decision `ClientConn` takes before dialing. Internal methods
   * are rejected whatever the metadata says; otherwise the first `:authority`
   * value picks the staging or the production backend, and anything else is
   * rejected. Every rejection is Unimplemented "Unknown method".
   */
  function Decide(incoming: Option<MD>, fullMethod: string): (r: Route)
    requires !IsInternal(fullMethod) ==> AuthorityIndexable(incoming)
    ensures IsInternal(fullMethod) ==> r == Reject(Unimplemented, UnknownMethod)
    ensures r.Reject? ==> r == Reject(Unimplemented, UnknownMethod)
    ensures r == RouteTo("api-service.staging.svc.local") <==>
      !IsInternal(fullMethod) && FirstAuthority(incoming) == Some("staging.api.example.com")
    ensures r == RouteTo("api-service.prod.svc.local") <==>
      !IsInternal(fullMethod) && FirstAuthority(incoming) == Some("api.example.com")
    ensures r.RouteTo? ==> r.addr in {"api-service.staging.svc.local", "api-service.prod.svc.local"}
  {
    if IsInternal(fullMethod) then
      Reject(Unimplemented, UnknownMethod)
    else
      var addr := BackendAddr(incoming);
      if |addr| == 0 then Reject(Unimplemented, UnknownMethod) else RouteTo(addr)
  }

  /** The first `:authority` value, when there is incoming metadata holding the key. */
  function FirstAuthority(incoming: Option<MD>): Option<string>
    requires AuthorityIndexable(incoming)
  {
    if incoming.Some? && Authority in incoming.value then Some(incoming.value[Authority][0]) else None
  }

  /** The four results of `ClientConn`, each possibly nil. */
  datatype Dialed = Dialed(ctx: Option<Context>, cancel: Option<CancelFunc>, conn: Option<Conn>, err: Option<Error>)

  /** What `grpc.DialContext` returns: a connection and an error, each possibly nil. */
  datatype DialResult = DialResult(conn: Option<Conn>, err: Option<Error>)

  /**
   * `ClientConn(ctx, fullMethod)`, with `grpc.DialContext` given as `dial`. A
   * rejected call returns only the status, without dialing. A routed call
   * returns the background context, no cancel function, and the connection
   * and error of dialing the chosen address.
   */
  function ClientConn(ctx: Context, fullMethod: string, dial: (Context, string) -> DialResult): (r: Dialed)
    requires !IsInternal(fullMethod) ==> AuthorityIndexable(ctx.incoming)
    ensures Decide(ctx.incoming, fullMethod).Reject? ==>
      r == Dialed(None, None, None, Some(Status(Unimplemented, UnknownMethod)))
    ensures Decide(ctx.incoming, fullMethod).RouteTo? ==>
      var dialed := dial(ctx, Decide(ctx.incoming, fullMethod).addr);
      r == Dialed(Some(Background), None, dialed.conn, dialed.err)
  {
    if IsInternal(fullMethod) then
      Dialed(None, None, None, Some(Errorf(Unimplemented, UnknownMethod)))
    else
      var addr := BackendAddr(ctx.incoming);
      if |addr| == 0 then
        Dialed(None, None, None, Some(Errorf(Unimplemented, UnknownMethod)))
      else
        var dialed := dial(ctx, addr);
        Dialed(Some(Background), None, dialed.conn, dialed.err)
  }

  // ---------------------------------------------------------------------------
  // The routing policy as a table, and what it ignores

  /** The routing table the policy implements: authority to backend address. */
  const Backends: map<string, string> := map[
    "staging.api.example.com" := "api-service.staging.svc.local",
    "api.example.com" := "api-service.prod.svc.local"]

  /** `Decide` is a lookup of the first authority in `Backends`, after the internal-prefix check. */
  lemma DecideIsTableLookup(incoming: Option<MD>, fullMethod: string)
    requires !IsInternal(fullMethod) ==> AuthorityIndexable(incoming)
    ensures Decide(incoming, fullMethod) ==
      if IsInternal(fullMethod) then Reject(Unimplemented, UnknownMethod)
      else if FirstAuthority(incoming).Some? && FirstAuthority(incoming).value in Backends
      then RouteTo(Backends[FirstAuthority(incoming).value])
      else Reject(Unimplemented, UnknownMethod)
  {
  }

  /** Only the first `:authority` value is consulted; later ones and every other key are ignored. */
  lemma OnlyFirstAuthorityConsulted(md1: MD, md2: MD, fullMethod: string)
    requires Authority in md1 <==> Authority in md2
    requires Authority in md1 ==> |md1[Authority]| > 0 && |md2[Authority]| > 0
    requires Authority in md1 ==> md1[Authority][0] == md2[Authority][0]
    ensures Decide(Some(md1), fullMethod) == Decide(Some(md2), fullMethod)
  {
  }

  /** An internal method is rejected the same way whatever the context carries. */
  lemma InternalIgnoresContext(ctx1: Context, ctx2: Context, fullMethod: string, dial: (Context, string) -> DialResult)
    requires IsInternal(fullMethod)
    ensures ClientConn(ctx1, fullMethod, dial) == ClientConn(ctx2, fullMethod, dial)
    ensures ClientConn(ctx1, fullMethod, dial).err == Some(Status(Unimplemented, UnknownMethod))
  {
  }

  /** A rejected call does not depend on the dialer: no connection is attempted. */
  lemma RejectionDoesNotDial(ctx: Context, fullMethod: string, dial1: (Context, string) -> DialResult,
                             dial2: (Context, string) -> DialResult)
    requires !IsInternal(fullMethod) ==> AuthorityIndexable(ctx.incoming)
    requires Decide(ctx.incoming, fullMethod).Reject?
    ensures ClientConn(ctx, fullMethod, dial1) == ClientConn(ctx, fullMethod, dial2)
  {
  }
}
