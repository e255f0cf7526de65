/**
 * Client_impl: the session handle. connect runs the master-manager handshake
 * and then attaches a protocol layer and a websocket endpoint; disconnect
 * drops both. The fields that decide whether connect may start are
 * `_connecting`, `_protocol` and `_endpoint`.
 */
module Client {
  import opened Json
  import opened Results
  import opened RceTypes
  import opened Handshake
  import opened Protocol
  import opened Interfaces

  const CLIENT_VERSION := "20130131"
  const ALREADY_CONNECTING := "Already a connection attempt in progress."
  const ALREADY_CONNECTED := "Already a valid connection available."

  /** The request connect sends to the master manager. */
  function MasterURL(url: string, userID: string, password: string, robotID: string): string
  {
    url + "?userID=" + userID + "&password=" + password + "&robotID=" + robotID + "&version=" + CLIENT_VERSION
  }

  /** The URL the websocket endpoint connects to once the master manager has answered. */
  function RobotURL(robotURL: string, userID: string, robotID: string, key: string): string
  {
    robotURL + "?userID=" + userID + "&robotID=" + robotID + "&key=" + key
  }

  /** Whether a connection attempt is marked in progress, and whether a protocol layer and an endpoint are held. */
  datatype SessionState = SessionState(connecting: bool, hasProtocol: bool, hasEndpoint: bool)

  const Initial := SessionState(false, false, false)

  /** The two checks at the top of connect, in source order; None lets the attempt start. */
  function ConnectGuard(s: SessionState): (e: Option<ClientException>)
    ensures e.None? <==> !s.connecting && !(s.hasProtocol && s.hasEndpoint)
    ensures s.connecting ==> e == Some(ClientException(ALREADY_CONNECTING))
    ensures !s.connecting && s.hasProtocol && s.hasEndpoint ==> e == Some(ClientException(ALREADY_CONNECTED))
  {
    if s.connecting then Some(ClientException(ALREADY_CONNECTING))
    else if s.hasProtocol && s.hasEndpoint then Some(ClientException(ALREADY_CONNECTED))
    else None
  }

  /**
   * The state connect leaves. A rejected attempt changes nothing. A failed
   * handshake leaves `_connecting` set, since it is cleared only after the
   * endpoint has been created.
   */
  function ConnectStep(s: SessionState, handshakeOk: bool): SessionState
  {
    if ConnectGuard(s).Some? then s
    else if !handshakeOk then s.(connecting := true)
    else SessionState(false, true, true)
  }

  /** disconnect releases the protocol layer and the endpoint and leaves `_connecting` as it is. */
  function DisconnectStep(s: SessionState): SessionState
  {
    s.(hasProtocol := false, hasEndpoint := false)
  }

  datatype SessionOp = ConnectOp(handshakeOk: bool) | DisconnectOp

  function Run(s: SessionState, ops: seq<SessionOp>): SessionState
    decreases |ops|
  {
    if ops == [] then s
    else
      var next := match ops[0]
        case ConnectOp(ok) => ConnectStep(s, ok)
        case DisconnectOp => DisconnectStep(s);
      Run(next, ops[1..])
  }

  /**
   * What the client keeps true on every path: it holds a protocol layer
   * exactly when it holds an endpoint, and not while an attempt is marked in
   * progress.
   */
  predicate Consistent(s: SessionState)
  {
    s.hasProtocol == s.hasEndpoint && !(s.connecting && s.hasProtocol)
  }

  /**
   * From the initial state every run stays consistent, and then connect is
   * refused exactly when an attempt is marked in progress or a connection is
   * held.
   */
  lemma {:induction false} RunStaysConsistent(s: SessionState, ops: seq<SessionOp>)
    requires Consistent(s)
    ensures Consistent(Run(s, ops))
    ensures var t := Run(s, ops); ConnectGuard(t).Some? <==> t.connecting || t.hasEndpoint
    decreases |ops|
  {
    if ops != [] {
      var next := match ops[0]
        case ConnectOp(ok) => ConnectStep(s, ok)
        case DisconnectOp => DisconnectStep(s);
      RunStaysConsistent(next, ops[1..]);
    }
  }

  /**
   * Once an attempt is marked in progress (a handshake that threw), every
   * later connect is refused with "Already a connection attempt in
   * progress.", whatever connects and disconnects come in between.
   */
  lemma {:induction false} ConnectingIsSticky(s: SessionState, ops: seq<SessionOp>)
    requires s.connecting
    ensures Run(s, ops).connecting
    ensures ConnectGuard(Run(s, ops)) == Some(ClientException(ALREADY_CONNECTING))
    decreases |ops|
  {
    if ops != [] {
      var next := match ops[0]
        case ConnectOp(ok) => ConnectStep(s, ok)
        case DisconnectOp => DisconnectStep(s);
      assert next.connecting;
      ConnectingIsSticky(next, ops[1..]);
    }
  }

  class Client {
    const userID: string
    const password: string
    const robotID: string
    var connecting: bool
    /** `_cb`, the callback connect stores for the connected notification */
    var connectCallback: Option<Callback>
    var protocol: ProtocolImpl?
    /** `_endpoint`, known by the URL it was pointed at */
    var endpoint: Option<string>
    /** the handshake requests sent to the master manager */
    var masterRequests: seq<string>

    function State(): SessionState
      reads this
    {
      SessionState(connecting, protocol != null, endpoint.Some?)
    }

    constructor (userID: string, password: string, robotID: string)
      ensures this.userID == userID && this.password == password && this.robotID == robotID
      ensures State() == Initial && connectCallback == None && masterRequests == []
    {
      this.userID := userID;
      this.password := password;
      this.robotID := robotID;
      connecting := false;
      connectCallback := None;
      protocol := null;
      endpoint := None;
      masterRequests := [];
    }

    /**
     * connect(url, cb), with `reply` standing for what the HTTP exchange
     * with the master manager produced.
     */
    method Connect(url: string, cb: Callback, reply: Reply) returns (r: Outcome<HandshakeError>)
      modifies this
      ensures State() == ConnectStep(old(State()), Acceptable(reply))
      ensures ConnectGuard(old(State())).Some? ==>
        r == Fail(Thrown(ConnectGuard(old(State())).value)) && unchanged(this)
      ensures ConnectGuard(old(State())).None? ==>
        && connectCallback == Some(cb)
        && masterRequests == old(masterRequests) + [MasterURL(url, userID, password, robotID)]
        && (r.Pass? <==> ConnectMaster(reply).Ok?)
        && (r.Fail? ==> r.error == ConnectMaster(reply).error && protocol == old(protocol) && endpoint == old(endpoint))
        && (r.Pass? ==>
              && fresh(protocol) && protocol.registry == map[] && protocol.outbox == []
              && var g := ConnectMaster(reply).value;
                 endpoint == Some(RobotURL(g.url, userID, robotID, g.key)))
    {
      var guard := ConnectGuard(State());
      if guard.Some? {
        return Fail(Thrown(guard.value));
      }
      connectCallback := Some(cb);
      connecting := true;
      masterRequests := masterRequests + [MasterURL(url, userID, password, robotID)];
      var grant := ConnectMaster(reply);
      if grant.Err? {
        return Fail(grant.error);
      }
      protocol := new ProtocolImpl();
      endpoint := Some(RobotURL(grant.value.url, userID, robotID, grant.value.key));
      connecting := false;
      r := Pass;
    }

    /** disconnect(): resets the endpoint, which must exist, and drops it and the protocol layer. */
    method Disconnect()
      requires endpoint.Some?
      modifies this
      ensures protocol == null && endpoint == None
      ensures State() == DisconnectStep(old(State()))
      ensures connectCallback == old(connectCallback) && masterRequests == old(masterRequests)
    {
      protocol := null;
      endpoint := None;
    }

    /**
     * service(iTag, srvType, cb): a new service client registered with the
     * current protocol layer, or DuplicateTag when another interface already
     * holds iTag, which then stays bound to that interface.
     */
    method Service(iTag: string, srvType: string, cb: Callback) returns (r: Result<ServiceClient, RegistryError>)
      requires protocol != null
      modifies protocol
      ensures iTag in old(protocol.registry) ==> r == Err(DuplicateTag) && protocol.registry == old(protocol.registry)
      ensures iTag !in old(protocol.registry) ==> r.Ok? && fresh(r.value)
      ensures r.Ok? ==> var sc := r.value;
        && sc.protocol == protocol && sc.tag == iTag && sc.srvType == srvType
        && sc.defaultCallback == cb && sc.callbacks == [] && sc.registered
        && protocol.registry == old(protocol.registry)[iTag := sc]
      ensures protocol.outbox == old(protocol.outbox)
    {
      var sc := new ServiceClient(protocol, iTag, srvType, cb);
      if !sc.registered {
        return Err(DuplicateTag);
      }
      r := Ok(sc);
    }

    /**
     * publisher(iTag, msgType): a new publisher on the current protocol
     * layer, which may be null before connect; nothing is registered.
     */
    method Publisher(iTag: string, msgType: string) returns (pub: Interfaces.Publisher)
      ensures fresh(pub) && pub.protocol == protocol && pub.tag == iTag && pub.msgType == msgType
    {
      pub := new Interfaces.Publisher(protocol, iTag, msgType);
    }

    /**
     * subscriber(iTag, msgType, cb): a new subscriber registered with the
     * current protocol layer, or DuplicateTag when another interface already
     * holds iTag, which then stays bound to that interface.
     */
    method Subscriber(iTag: string, msgType: string, cb: Callback) returns (r: Result<Interfaces.Subscriber, RegistryError>)
      requires protocol != null
      modifies protocol
      ensures iTag in old(protocol.registry) ==> r == Err(DuplicateTag) && protocol.registry == old(protocol.registry)
      ensures iTag !in old(protocol.registry) ==> r.Ok? && fresh(r.value)
      ensures r.Ok? ==> var sub := r.value;
        && sub.protocol == protocol && sub.tag == iTag && sub.msgType == msgType
        && sub.callback == cb && sub.registered
        && protocol.registry == old(protocol.registry)[iTag := sub]
      ensures protocol.outbox == old(protocol.outbox)
    {
      var sub := new Interfaces.Subscriber(protocol, iTag, msgType, cb);
      if !sub.registered {
        return Err(DuplicateTag);
      }
      r := Ok(sub);
    }

    /** Every configuration command: the envelope its builder produced, sent as a control operation. */
    method Configure(e: Envelope)
      requires protocol != null && e.Control?
      modifies protocol
      ensures protocol.outbox == old(protocol.outbox) + [e]
      ensures protocol.registry == old(protocol.registry)
    {
      protocol.SendControl(e.op, e.data);
    }
  }
}
