/**
 * The sequential state and decisions of the abstract STUN client: the
 * one-slot cache of the current transport session, the table of responses
 * the transport's callbacks fill in, the decision whether a caller waits,
 * the dispatch of a received response by its kind, and the fixed state that
 * construction sets up. The transport appears only as a `Connector` that
 * hands out sessions; the codec, the handler and the blocking wait are not
 * modelled.
 */
module StunClient {
  import opened StunTypes
  import ConnectionReuse
  import ResponseTable

  /** The default STUN port; the client always talks to its server on it. */
  const STUN_PORT: Port := 3478

  /** The connect timeout, in milliseconds, the client asks its connector for. */
  const CONNECT_TIMEOUT_MILLIS: int := 10 * 1000

  /** An established transport session; its two endpoints never change. */
  class IoSession {
    const remoteAddress: SocketAddress
    const localAddress: SocketAddress

    constructor (remoteAddress: SocketAddress, localAddress: SocketAddress)
      ensures this.remoteAddress == remoteAddress && this.localAddress == localAddress
    {
      this.remoteAddress := remoteAddress;
      this.localAddress := localAddress;
    }
  }

  /**
   * The transport's connector. Every call opens a new session to the remote
   * address; `invocations` counts the calls.
   */
  class Connector {
    const connectTimeout: int
    /**
     * The local address the transport actually binds for a requested local
     * address (or for none). It is the transport's and the operating
     * system's choice: an ephemeral port or a wildcard address is replaced
     * by the one assigned.
     */
    const bind: Option<SocketAddress> -> SocketAddress
    ghost var invocations: nat

    constructor (connectTimeout: int, bind: Option<SocketAddress> -> SocketAddress)
      ensures this.connectTimeout == connectTimeout && this.bind == bind
      ensures invocations == 0
    {
      this.connectTimeout := connectTimeout;
      this.bind := bind;
      invocations := 0;
    }

    /** Opens a session to `remote`, bound wherever the transport binds the requested local address. */
    method Connect(remote: SocketAddress, local: Option<SocketAddress>) returns (session: IoSession)
      modifies this`invocations
      ensures fresh(session) && session.remoteAddress == remote
      ensures session.localAddress == bind(local)
      ensures invocations == old(invocations) + 1
    {
      session := new IoSession(remote, bind(local));
      invocations := invocations + 1;
    }
  }

  class AbstractStunClient {
    const connector: Connector
    /** The server endpoint: the configured server address on the STUN port. */
    const stunServerAddress: SocketAddress
    /** Responses recorded by the transaction callbacks, by transaction identifier. */
    var idsToResponses: ResponseTable.Table
    /** The host address: the local end of the session opened by the constructor. */
    var localAddress: SocketAddress
    /** The session of the last connect, kept so that a connect to the same server can reuse it. */
    var currentSession: IoSession?
    /** The session the constructor opened, whose local end is the host address. */
    ghost var hostSession: IoSession?

    ghost predicate Valid()
      reads this
    {
      && stunServerAddress.port == STUN_PORT
      && connector.connectTimeout == CONNECT_TIMEOUT_MILLIS
      && currentSession != null
      && hostSession != null
      && localAddress == hostSession.localAddress
    }

    /** The remote address of the current session, `None` before the first connect. */
    function CurrentRemote(): Option<SocketAddress>
      reads this
    {
      if currentSession == null then None else Some(currentSession.remoteAddress)
    }

    /**
     * Builds the server endpoint from the configured server address and the
     * STUN port, creates the connector and connects to the server; the local
     * end of that first session is the host address from then on.
     */
    constructor (localAddress: Option<SocketAddress>, stunServerAddress: InetAddress,
                 bind: Option<SocketAddress> -> SocketAddress)
      ensures Valid()
      ensures this.stunServerAddress == SocketAddress(stunServerAddress, STUN_PORT)
      ensures fresh(connector) && connector.bind == bind && connector.invocations == 1
      ensures fresh(hostSession) && currentSession == hostSession
      ensures hostSession.remoteAddress == this.stunServerAddress
      ensures this.localAddress == hostSession.localAddress == bind(localAddress)
      ensures idsToResponses == map[]
    {
      connector := new Connector(CONNECT_TIMEOUT_MILLIS, bind);
      this.stunServerAddress := SocketAddress(stunServerAddress, STUN_PORT);
      idsToResponses := map[];
      currentSession := null;
      new;
      var session := Connect(localAddress, this.stunServerAddress);
      this.localAddress := session.localAddress;
      hostSession := session;
    }

    /**
     * Returns a session to `stunServerAddress`: the current one when it
     * already talks to that address, otherwise a new one from the connector,
     * which becomes the current one. Nothing else in the client changes.
     */
    method Connect(localAddress: Option<SocketAddress>, stunServerAddress: SocketAddress) returns (session: IoSession)
      modifies this`currentSession, connector`invocations
      ensures currentSession == session && session.remoteAddress == stunServerAddress
      ensures ConnectionReuse.Reuses(old(CurrentRemote()), stunServerAddress) ==>
                session == old(currentSession) && connector.invocations == old(connector.invocations)
      ensures !ConnectionReuse.Reuses(old(CurrentRemote()), stunServerAddress) ==>
                && fresh(session)
                && connector.invocations == old(connector.invocations) + 1
                && session.localAddress == connector.bind(localAddress)
      ensures connector.invocations
           == old(connector.invocations) + ConnectionReuse.ConnectorCalls(old(CurrentRemote()), [stunServerAddress])
      ensures old(Valid()) ==> Valid()
    {
      if currentSession != null && currentSession.remoteAddress == stunServerAddress {
        return currentSession;
      }
      session := connector.Connect(stunServerAddress, localAddress);
      currentSession := session;
    }

    /**
     * Dispatches the message the transport returned for the client's Binding
     * request: a success response yields its mapped address, an error
     * response yields no address; other kinds go to the visitor adapter.
     */
    function GetServerReflexiveAddress(written: StunMessage): (r: VisitResult)
      ensures written.BindingSuccessResponse? ==> r == Visited(Some(written.mappedAddress))
      ensures written.BindingErrorResponse? ==> r == Visited(None)
      ensures r.Visited? <==> written.BindingSuccessResponse? || written.BindingErrorResponse?
      ensures r.Visited? && r.address.Some? ==>
                written == BindingSuccessResponse(written.transactionId, r.address.value)
    {
      match written
      case BindingSuccessResponse(_, mapped) => Visited(Some(mapped))
      case BindingErrorResponse(_) => Visited(None)
      case BindingRequest(_) => AdapterDefault
    }

    /** The host address is the local end of the session the constructor opened. */
    function GetHostAddress(): (a: SocketAddress)
      requires Valid()
      reads this
      ensures a == hostSession.localAddress
    {
      localAddress
    }

    /** The configured server address; on the STUN port it is the whole server endpoint. */
    function GetStunServerAddress(): (a: InetAddress)
      requires Valid()
      reads this
      ensures SocketAddress(a, STUN_PORT) == stunServerAddress
    {
      stunServerAddress.address
    }

    /**
     * Whether a caller that sent `request` and may wait `waitTime`
     * milliseconds suspends itself: only with a non-zero budget and while no
     * response for the request's transaction is recorded.
     */
    function WaitIfNoResponse(request: StunMessage, waitTime: int64): (waits: bool)
      reads this
      ensures waits == ResponseTable.ShouldWait(idsToResponses, request, waitTime)
    {
      ResponseTable.ShouldWait(idsToResponses, request, waitTime)
    }

    /**
     * Records `response` under the request's transaction identifier,
     * replacing any earlier entry for it, and returns null.
     */
    method NotifyWaiters(request: StunMessage, response: StunMessage) returns (r: object?)
      requires Valid()
      modifies this`idsToResponses
      ensures Valid()
      ensures idsToResponses == ResponseTable.Put(old(idsToResponses), request, response)
      ensures r == null
    {
      idsToResponses := ResponseTable.Put(idsToResponses, request, response);
      r := null;
    }

    /** The transport's failure callback: the same as `NotifyWaiters`. */
    method OnTransactionFailed(request: StunMessage, response: StunMessage) returns (r: object?)
      requires Valid()
      modifies this`idsToResponses
      ensures Valid()
      ensures idsToResponses == ResponseTable.Put(old(idsToResponses), request, response)
      ensures r == null
    {
      r := NotifyWaiters(request, response);
    }

    /** The transport's success callback: the same as `NotifyWaiters`. */
    method OnTransactionSucceeded(request: StunMessage, response: StunMessage) returns (r: object?)
      requires Valid()
      modifies this`idsToResponses
      ensures Valid()
      ensures idsToResponses == ResponseTable.Put(old(idsToResponses), request, response)
      ensures r == null
    {
      r := NotifyWaiters(request, response);
    }
  }
}
