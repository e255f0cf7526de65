/**
 * A server-side interface of a container: it reserves its ROS address,
 * starts the ROS interface in the container when its first user registers
 * and stops it when its last user leaves, and passes ROS messages between
 * the clients and the container.
 */
module ServerInterface {
  import opened PyValues
  import Results

  datatype InterfaceType = ServiceInterface | PublisherInterface | SubscriberInterface

  /** The interface types by name (the class's _MAP). */
  function InterfaceTypeNamed(name: string): (k: Results.Option<InterfaceType>)
    ensures k.Some? <==> name in {"service", "publisher", "subscriber"}
  {
    if name == "service" then Results.Some(ServiceInterface)
    else if name == "publisher" then Results.Some(PublisherInterface)
    else if name == "subscriber" then Results.Some(SubscriberInterface)
    else Results.None
  }

  /** A ROS message class the loader provides for a message type. */
  datatype RosClass =
    | RequestClass(srvType: string)
    | ResponseClass(srvType: string)
    | MessageClass(msgType: string)

  /**
   * `_toMsgCls`: the class a client's message is decoded into. A service
   * decodes requests, a publisher messages; a subscriber has none.
   */
  function ToMsgCls(kind: InterfaceType, msgType: string): (c: Results.Option<RosClass>)
    ensures c.None? <==> kind == SubscriberInterface
    ensures kind == ServiceInterface ==> c == Results.Some(RequestClass(msgType))
    ensures kind == PublisherInterface ==> c == Results.Some(MessageClass(msgType))
  {
    match kind
    case ServiceInterface => Results.Some(RequestClass(msgType))
    case PublisherInterface => Results.Some(MessageClass(msgType))
    case SubscriberInterface => Results.None
  }

  /**
   * `_fromMsgCls`: the class a ROS message from the interface is read into.
   * A service receives responses, a subscriber messages; a publisher has none.
   */
  function FromMsgCls(kind: InterfaceType, msgType: string): (c: Results.Option<RosClass>)
    ensures c.None? <==> kind == PublisherInterface
    ensures kind == ServiceInterface ==> c == Results.Some(ResponseClass(msgType))
    ensures kind == SubscriberInterface ==> c == Results.Some(MessageClass(msgType))
  {
    match kind
    case ServiceInterface => Results.Some(ResponseClass(msgType))
    case PublisherInterface => Results.None
    case SubscriberInterface => Results.Some(MessageClass(msgType))
  }

  /** The messages an interface hands to its container. */
  datatype ContainerMsg =
    /** ROS_ADD: start the ROS interface */
    | RosAdd(kind: InterfaceType, rosAddr: string, tag: string, msgType: string)
    /** ROS_REMOVE: stop the ROS interface with the tag */
    | RosRemove(tag: string)
    /** ROS_USER: allow (add) or disallow a user of the interface */
    | RosUser(tag: string, target: string, commID: string, add: bool)
    /** ROS_MSG: a ROS message pushed to the interface */
    | RosMessage(msg: Py, tag: string, user: string, push: bool, uid: Py)

  /** `s.split(sep)`: the parts between the separators, empty ones included. */
  function Split(s: string, sep: char): (parts: seq<string>)
    ensures |parts| >= 1
  {
    if s == [] then [[]]
    else
      var tail := Split(s[1..], sep);
      if s[0] == sep then [[]] + tail else [[s[0]] + tail[0]] + tail[1..]
  }

  function Count(s: string, c: char): nat
  {
    if s == [] then 0 else (if s[0] == c then 1 else 0) + Count(s[1..], c)
  }

  /** split yields one part more than there are separators; so `pkg/msg` has exactly one '/'. */
  lemma {:induction false} SplitParts(s: string, sep: char)
    ensures |Split(s, sep)| == Count(s, sep) + 1
  {
    if s != [] {
      SplitParts(s[1..], sep);
    }
  }

  /** The ROS_ADD messages minus the ROS_REMOVE messages of a trace. */
  function Balance(msgs: seq<ContainerMsg>): int
  {
    if msgs == [] then 0
    else (if msgs[0].RosAdd? then 1 else if msgs[0].RosRemove? then -1 else 0) + Balance(msgs[1..])
  }

  lemma {:induction false} BalanceAppend(a: seq<ContainerMsg>, b: seq<ContainerMsg>)
    ensures Balance(a + b) == Balance(a) + Balance(b)
  {
    if a == [] {
      assert a + b == b;
    } else {
      assert (a + b)[0] == a[0];
      assert (a + b)[1..] == a[1..] + b;
      BalanceAppend(a[1..], b);
    }
  }

  /** The position of the first occurrence of x. */
  function FirstIndex<T(==)>(xs: seq<T>, x: T): (i: nat)
    requires x in xs
    ensures i < |xs| && xs[i] == x
    ensures forall j :: 0 <= j < i ==> xs[j] != x
  {
    if xs[0] == x then 0
    else
      var j := FirstIndex(xs[1..], x);
      assert forall k :: 0 < k <= j ==> xs[k] == xs[1..][k - 1];
      j + 1
  }

  /** list.remove: the list without the first occurrence of x, the others in order. */
  function RemoveFirst<T(==)>(xs: seq<T>, x: T): (r: seq<T>)
    requires x in xs
    ensures |r| == |xs| - 1
    ensures multiset(r) == multiset(xs) - multiset{x}
  {
    var i := FirstIndex(xs, x);
    assert xs == xs[..i] + [xs[i]] + xs[i + 1..];
    xs[..i] + xs[i + 1..]
  }

  /** What an interface sends about itself: its type, ROS address, tag and message type. */
  datatype Config = Config(kind: InterfaceType, rosAddr: string, tag: string, msgType: string)

  datatype UserOp = Register(target: string, commID: string) | Unregister(target: string, commID: string)

  /**
   * One registerUser or unregisterUser call: the new user list and the
   * messages sent to the container. Unregistering a user that is not in
   * the list raises and changes nothing.
   */
  function UserStep(c: Config, ref: seq<(string, string)>, op: UserOp): (seq<(string, string)>, seq<ContainerMsg>)
  {
    match op
    case Register(target, commID) =>
      (ref + [(target, commID)],
       (if ref == [] then [RosAdd(c.kind, c.rosAddr, c.tag, c.msgType)] else []) + [RosUser(c.tag, target, commID, true)])
    case Unregister(target, commID) =>
      if (target, commID) !in ref then (ref, [])
      else
        var rest := RemoveFirst(ref, (target, commID));
        (rest, [if rest == [] then RosRemove(c.tag) else RosUser(c.tag, target, commID, false)])
  }

  /** A sequence of calls, from a given user list. */
  function UserRun(c: Config, ref: seq<(string, string)>, ops: seq<UserOp>): (seq<(string, string)>, seq<ContainerMsg>)
    decreases |ops|
  {
    if ops == [] then (ref, [])
    else
      var first := UserStep(c, ref, ops[0]);
      var rest := UserRun(c, first.0, ops[1..]);
      (rest.0, first.1 + rest.1)
  }

  function Started(ref: seq<(string, string)>): int
  {
    if ref == [] then 0 else 1
  }

  /** One call changes the ROS_ADD minus ROS_REMOVE count by exactly the change in whether the interface has users. */
  lemma UserStepBalance(c: Config, ref: seq<(string, string)>, op: UserOp)
    ensures Balance(UserStep(c, ref, op).1) == Started(UserStep(c, ref, op).0) - Started(ref)
  {
    match op
    case Register(target, commID) =>
      var user := [RosUser(c.tag, target, commID, true)];
      assert Balance(user) == 0 by {
        assert user[1..] == [];
      }
      if ref == [] {
        var add := [RosAdd(c.kind, c.rosAddr, c.tag, c.msgType)];
        assert add[1..] == [];
        BalanceAppend(add, user);
      } else {
        assert UserStep(c, ref, op).1 == user;
      }
    case Unregister(target, commID) =>
      if (target, commID) in ref {
        var msgs := UserStep(c, ref, op).1;
        assert msgs[1..] == [];
      }
  }

  /**
   * Over any sequence of registerUser and unregisterUser calls starting
   * with no users, the interface has been started once more than it was
   * stopped exactly when it has users, and as often as stopped otherwise.
   */
  lemma {:induction false} UserRunBalance(c: Config, ref: seq<(string, string)>, ops: seq<UserOp>)
    ensures Balance(UserRun(c, ref, ops).1) == Started(UserRun(c, ref, ops).0) - Started(ref)
    decreases |ops|
  {
    if ops != [] {
      var first := UserStep(c, ref, ops[0]);
      UserStepBalance(c, ref, ops[0]);
      UserRunBalance(c, first.0, ops[1..]);
      BalanceAppend(first.1, UserRun(c, first.0, ops[1..]).1);
    }
  }

  /** registerUser sends ROS_ADD exactly when the interface had no user, then ROS_USER with add, and appends the user last. */
  lemma RegisterUserSends(c: Config, ref: seq<(string, string)>, target: string, commID: string)
    ensures var (ref', msgs) := UserStep(c, ref, Register(target, commID));
            ref' == ref + [(target, commID)] && ref'[|ref'| - 1] == (target, commID)
            && msgs[|msgs| - 1] == RosUser(c.tag, target, commID, true)
            && (msgs[0].RosAdd? <==> ref == [])
            && |msgs| == (if ref == [] then 2 else 1)
  {
  }

  /** unregisterUser of a present user sends ROS_REMOVE and no ROS_USER iff it was the last, otherwise ROS_USER without add. */
  lemma UnregisterUserSends(c: Config, ref: seq<(string, string)>, target: string, commID: string)
    requires (target, commID) in ref
    ensures var (ref', msgs) := UserStep(c, ref, Unregister(target, commID));
            multiset(ref') == multiset(ref) - multiset{(target, commID)}
            && |msgs| == 1
            && (msgs[0] == RosRemove(c.tag) <==> ref' == [])
            && (ref' != [] ==> msgs[0] == RosUser(c.tag, target, commID, false))
  {
  }

  /** The container an interface belongs to: its reserved ROS addresses and what it was sent. */
  class Container {
    var reserved: set<string>
    var outbox: seq<ContainerMsg>
    /** what receivedFromInterface was handed */
    var toClients: seq<map<string, Py>>

    constructor ()
      ensures reserved == {} && outbox == [] && toClients == []
    {
      reserved := {};
      outbox := [];
      toClients := [];
    }

    method ReserveAddr(addr: string) returns (r: Outcome)
      modifies this
      ensures addr in old(reserved) ==> r == Raised(ValueError) && reserved == old(reserved)
      ensures addr !in old(reserved) ==> r == Done && reserved == old(reserved) + {addr}
      ensures outbox == old(outbox) && toClients == old(toClients)
    {
      if addr in reserved {
        return Raised(ValueError);
      }
      reserved := reserved + {addr};
      r := Done;
    }
  }

  class Interface {
    const container: Container
    const tag: string
    const rosAddr: string
    const msgType: string
    const interfaceType: string
    const kind: InterfaceType
    var ref: seq<(string, string)>
    /** the messages this interface handed to its container */
    ghost var sent: seq<ContainerMsg>

    function Cfg(): Config
    {
      Config(kind, rosAddr, tag, msgType)
    }

    /** The interface is started in the container exactly while it has users. */
    ghost predicate Valid()
      reads this
    {
      Balance(sent) == Started(ref)
    }

    constructor Make(container: Container, tag: string, rosAddr: string, msgType: string, interfaceType: string, kind: InterfaceType)
      ensures this.container == container && this.tag == tag && this.rosAddr == rosAddr
      ensures this.msgType == msgType && this.interfaceType == interfaceType && this.kind == kind
      ensures ref == [] && sent == []
      ensures Valid()
    {
      this.container := container;
      this.tag := tag;
      this.rosAddr := rosAddr;
      this.msgType := msgType;
      this.interfaceType := interfaceType;
      this.kind := kind;
      ref := [];
      sent := [];
    }

    /** validate: the interface matches the configuration iff all four parts are equal. */
    function Validate(tag: string, rosAddr: string, msgType: string, interfaceType: string): (b: bool)
    {
      tag == this.tag && rosAddr == this.rosAddr && msgType == this.msgType && interfaceType == this.interfaceType
    }

    /** registerUser */
    method RegisterUser(target: string, commID: string)
      requires Valid()
      modifies this, container
      ensures ref == UserStep(Cfg(), old(ref), Register(target, commID)).0
      ensures container.outbox == old(container.outbox) + UserStep(Cfg(), old(ref), Register(target, commID)).1
      ensures sent == old(sent) + UserStep(Cfg(), old(ref), Register(target, commID)).1
      ensures container.reserved == old(container.reserved) && container.toClients == old(container.toClients)
      ensures Valid()
    {
      ghost var step := UserStep(Cfg(), ref, Register(target, commID));
      UserStepBalance(Cfg(), ref, Register(target, commID));
      BalanceAppend(sent, step.1);
      if ref == [] {
        container.outbox := container.outbox + [RosAdd(kind, rosAddr, tag, msgType)];
      }
      container.outbox := container.outbox + [RosUser(tag, target, commID, true)];
      sent := sent + step.1;
      ref := ref + [(target, commID)];
    }

    /** unregisterUser: ValueError when the user is not registered. */
    method UnregisterUser(target: string, commID: string) returns (r: Outcome)
      requires Valid()
      modifies this, container
      ensures r == Done <==> (target, commID) in old(ref)
      ensures r != Done ==> r == Raised(ValueError)
      ensures ref == UserStep(Cfg(), old(ref), Unregister(target, commID)).0
      ensures container.outbox == old(container.outbox) + UserStep(Cfg(), old(ref), Unregister(target, commID)).1
      ensures sent == old(sent) + UserStep(Cfg(), old(ref), Unregister(target, commID)).1
      ensures container.reserved == old(container.reserved) && container.toClients == old(container.toClients)
      ensures Valid()
    {
      if (target, commID) !in ref {
        return Raised(ValueError);
      }
      ghost var step := UserStep(Cfg(), ref, Unregister(target, commID));
      UserStepBalance(Cfg(), ref, Unregister(target, commID));
      BalanceAppend(sent, step.1);
      ref := RemoveFirst(ref, (target, commID));
      var msg := if ref == [] then RosRemove(tag) else RosUser(tag, target, commID, false);
      container.outbox := container.outbox + [msg];
      sent := sent + step.1;
      r := Done;
    }

    /**
     * send: the client's message must be of the interface's type; `decode`
     * is the converter turning its 'msg' into an instance of `_toMsgCls`,
     * which a subscriber does not have.
     */
    method Send(clientMsg: map<string, Py>, sender: string, decode: (Results.Option<RosClass>, Py) -> Result<Py>) returns (r: Outcome)
      modifies container
      ensures "type" !in clientMsg ==> r == Raised(KeyError)
      ensures "type" in clientMsg && clientMsg["type"] != PStr(msgType) ==> r == Raised(InvalidRequest)
      ensures "type" in clientMsg && clientMsg["type"] == PStr(msgType) && "msg" !in clientMsg ==> r == Raised(KeyError)
      ensures "type" in clientMsg && clientMsg["type"] == PStr(msgType) && "msg" in clientMsg
              && decode(ToMsgCls(kind, msgType), clientMsg["msg"]).Err? ==>
                var e := decode(ToMsgCls(kind, msgType), clientMsg["msg"]).error;
                r == Raised(if e == TypeError || e == ValueError then InvalidRequest else e)
      ensures "type" in clientMsg && clientMsg["type"] == PStr(msgType) && "msg" in clientMsg
              && decode(ToMsgCls(kind, msgType), clientMsg["msg"]).Ok? && "msgID" !in clientMsg ==>
                r == Raised(KeyError)
      ensures r == Done <==>
                "type" in clientMsg && clientMsg["type"] == PStr(msgType) && "msg" in clientMsg
                && decode(ToMsgCls(kind, msgType), clientMsg["msg"]).Ok? && "msgID" in clientMsg
      ensures r == Done ==>
                container.outbox
                == old(container.outbox) + [RosMessage(decode(ToMsgCls(kind, msgType), clientMsg["msg"]).value, tag, sender, true, clientMsg["msgID"])]
      ensures r != Done ==> container.outbox == old(container.outbox)
      ensures container.reserved == old(container.reserved) && container.toClients == old(container.toClients)
    {
      if "type" !in clientMsg {
        return Raised(KeyError);
      }
      if clientMsg["type"] != PStr(msgType) {
        return Raised(InvalidRequest);
      }
      if "msg" !in clientMsg {
        return Raised(KeyError);
      }
      var rosMsg := decode(ToMsgCls(kind, msgType), clientMsg["msg"]);
      if rosMsg.Err? {
        return Raised(if rosMsg.error == TypeError || rosMsg.error == ValueError then InvalidRequest else rosMsg.error);
      }
      if "msgID" !in clientMsg {
        return Raised(KeyError);
      }
      container.outbox := container.outbox + [RosMessage(rosMsg.value, tag, sender, true, clientMsg["msgID"])];
      r := Done;
    }

    /**
     * receive: a ROS message from the interface, turned by `encode` into the
     * client's form, is handed to the container for the clients. A publisher
     * interface has no `_fromMsgCls` to receive into, and calling None raises
     * TypeError.
     */
    method Receive(msg: map<string, Py>, encode: Py -> Result<Py>) returns (r: Outcome)
      modifies container
      ensures r == Done <==> kind != PublisherInterface && "msg" in msg && encode(msg["msg"]).Ok? && "uid" in msg && "tag" in msg
      ensures kind == PublisherInterface ==> r == Raised(TypeError)
      ensures kind != PublisherInterface && "msg" !in msg ==> r == Raised(KeyError)
      ensures kind != PublisherInterface && "msg" in msg && encode(msg["msg"]).Err? ==>
                var e := encode(msg["msg"]).error;
                r == Raised(if e == TypeError || e == ValueError then InvalidRequest else e)
      ensures kind != PublisherInterface && "msg" in msg && encode(msg["msg"]).Ok? && ("uid" !in msg || "tag" !in msg) ==>
                r == Raised(KeyError)
      ensures r == Done ==>
                container.toClients
                == old(container.toClients)
                   + [map["type" := PStr(msgType), "msgID" := msg["uid"], "interfaceTag" := msg["tag"],
                          "msg" := encode(msg["msg"]).value]]
      ensures r != Done ==> container.toClients == old(container.toClients)
      ensures container.reserved == old(container.reserved) && container.outbox == old(container.outbox)
    {
      if FromMsgCls(kind, msgType).None? {
        return Raised(TypeError);
      }
      if "msg" !in msg {
        return Raised(KeyError);
      }
      var json := encode(msg["msg"]);
      if json.Err? {
        return Raised(if json.error == TypeError || json.error == ValueError then InvalidRequest else json.error);
      }
      if "uid" !in msg || "tag" !in msg {
        return Raised(KeyError);
      }
      container.toClients := container.toClients
        + [map["type" := PStr(msgType), "msgID" := msg["uid"], "interfaceTag" := msg["tag"], "msg" := json.value]];
      r := Done;
    }

    /** __del__: stop the interface if it still has users, and free its address. */
    method Destroy()
      requires Valid()
      modifies this, container
      ensures ref == old(ref)
      ensures var msgs := if old(ref) != [] then [RosRemove(tag)] else [];
              container.outbox == old(container.outbox) + msgs && sent == old(sent) + msgs
      ensures container.reserved == old(container.reserved) - {rosAddr}
      ensures container.toClients == old(container.toClients)
      ensures Balance(sent) == 0
    {
      ghost var msgs: seq<ContainerMsg> := [];
      if ref != [] {
        container.outbox := container.outbox + [RosRemove(tag)];
        msgs := [RosRemove(tag)];
      }
      BalanceAppend(sent, msgs);
      sent := sent + msgs;
      container.reserved := container.reserved - {rosAddr};
    }
  }

  /**
   * __init__: reserve the address first (InvalidRequest if it is taken),
   * then require a `pkg/msg` type (InvalidRequest) and a known interface
   * type (ValueError); the address stays reserved when a later check fails.
   */
  method Open(container: Container, tag: string, rosAddr: string, msgType: string, interfaceType: string)
    returns (iface: Interface?, r: Outcome)
    modifies container
    ensures rosAddr in old(container.reserved) ==> r == Raised(InvalidRequest) && container.reserved == old(container.reserved)
    ensures rosAddr !in old(container.reserved) ==> container.reserved == old(container.reserved) + {rosAddr}
    ensures rosAddr !in old(container.reserved) && Count(msgType, '/') != 1 ==> r == Raised(InvalidRequest)
    ensures rosAddr !in old(container.reserved) && Count(msgType, '/') == 1 && InterfaceTypeNamed(interfaceType).None? ==>
              r == Raised(ValueError)
    ensures r == Done <==>
              rosAddr !in old(container.reserved) && Count(msgType, '/') == 1 && InterfaceTypeNamed(interfaceType).Some?
    ensures r == Done ==>
              iface != null && fresh(iface) && iface.container == container && iface.Validate(tag, rosAddr, msgType, interfaceType)
              && iface.kind == InterfaceTypeNamed(interfaceType).value && iface.ref == [] && iface.Valid()
    ensures r != Done ==> iface == null
    ensures container.outbox == old(container.outbox) && container.toClients == old(container.toClients)
  {
    iface := null;
    var reserve := container.ReserveAddr(rosAddr);
    if reserve.Raised? {
      return iface, Raised(InvalidRequest);
    }
    var args := Split(msgType, '/');
    SplitParts(msgType, '/');
    if |args| != 2 {
      return iface, Raised(InvalidRequest);
    }
    var kind := InterfaceTypeNamed(interfaceType);
    if kind.None? {
      return iface, Raised(ValueError);
    }
    iface := new Interface.Make(container, tag, rosAddr, msgType, interfaceType, kind.value);
    r := Done;
  }
}
