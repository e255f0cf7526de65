/**
 * The Messenger of an endpoint: a ROS message for an interface on this
 * endpoint is handed to the local manager; any other is packed into a
 * ROS_MSG message for the destination endpoint, whose Messenger hands
 * the unpacked content to its communication manager.
 */
module Messenger {
  import opened PyValues
  import opened Stream
  import opened Serializers

  /** The content types of the remote messages, one per content serializer. */
  datatype ContentType = Connect | CommInfo | Request | Command | Tag | RosMsg

  /** An outgoing comm.message.Message: its type, destination and content. */
  datatype Message = Message(msgType: ContentType, dest: string, content: Py)

  /** The six arguments of a `received(userID, tag, commID, senderTag, msg, msgID)` call. */
  datatype Delivery = Delivery(user: Py, tag: Py, commID: string, senderTag: Py, msg: Py, msgID: Py)

  datatype Routing = Local(delivery: Delivery) | Remote(message: Message)

  /** The content send builds, with the ROS message under 'msg'. */
  function RosContent(userID: string, tag: string, senderTag: string, msg: Py, msgID: string): Py
  {
    PDict(map["msg" := msg, "destTag" := PStr(tag), "srcTag" := PStr(senderTag), "msgID" := PStr(msgID), "user" := PStr(userID)])
  }

  /**
   * send as written: the name `msg` is rebound to the new Message before
   * the content is built, so the content's 'msg' is that Message object
   * and the ROS message itself is dropped.
   */
  function RouteAsWritten(ownCommID: string, userID: string, tag: string, commID: string, senderTag: string, msg: Py, msgID: string): (r: Routing)
    ensures r.Local? <==> commID == ownCommID
    ensures r.Remote? ==> r.message.content == RosContent(userID, tag, senderTag, PMessage, msgID)
  {
    if commID == ownCommID then Local(Delivery(PStr(userID), PStr(tag), commID, PStr(senderTag), msg, PStr(msgID)))
    else Remote(Message(RosMsg, commID, RosContent(userID, tag, senderTag, PMessage, msgID)))
  }

  /** send as intended: the ROS message travels under 'msg'. */
  function Route(ownCommID: string, userID: string, tag: string, commID: string, senderTag: string, msg: Py, msgID: string): (r: Routing)
    ensures r.Local? <==> commID == ownCommID
    ensures r.Local? ==> r.delivery == Delivery(PStr(userID), PStr(tag), ownCommID, PStr(senderTag), msg, PStr(msgID))
    ensures r.Remote? ==> r.message.msgType == RosMsg && r.message.dest == commID
    ensures r.Remote? ==> r.message.content == RosContent(userID, tag, senderTag, msg, msgID)
  {
    if commID == ownCommID then Local(Delivery(PStr(userID), PStr(tag), commID, PStr(senderTag), msg, PStr(msgID)))
    else Remote(Message(RosMsg, commID, RosContent(userID, tag, senderTag, msg, msgID)))
  }

  /** processMessage: the six arguments read from the content, in the order the call evaluates them. */
  function Unpack(origin: string, content: Py): (r: Result<Delivery>)
    ensures r.Ok? <==> content.PDict? && {"user", "destTag", "srcTag", "msg", "msgID"} <= content.entries.Keys
    ensures r.Ok? ==> r.value.commID == origin && r.value.msg == content.entries["msg"]
    ensures !content.PDict? ==> r == Err(TypeError)
    ensures content.PDict? && r.Err? ==> r == Err(KeyError)
  {
    if !content.PDict? then Err(TypeError)
    else
      var d := content.entries;
      if "user" !in d || "destTag" !in d || "srcTag" !in d || "msg" !in d || "msgID" !in d then Err(KeyError)
      else Ok(Delivery(d["user"], d["destTag"], origin, d["srcTag"], d["msg"], d["msgID"]))
  }

  /**
   * A message for another endpoint, serialized as a ROSMsg, deserialized
   * there and unpacked, hands the receiver's communication manager the same
   * six arguments a local delivery on the sender would have been given.
   */
  lemma RemoteDeliveryMatchesLocal(ownCommID: string, userID: string, tag: string, commID: string,
                                   senderTag: string, msg: Py, msgID: string, rest: seq<Item>)
    requires commID != ownCommID
    ensures var m := Route(ownCommID, userID, tag, commID, senderTag, msg, msgID).message;
            var sent := RosMsgWrites(m.content);
            sent.1 == Done
            && DeserializeRosMsg(sent.0 + rest).Ok?
            && DeserializeRosMsg(sent.0 + rest).value.1 == rest
            && Unpack(ownCommID, DeserializeRosMsg(sent.0 + rest).value.0)
               == Ok(Route(ownCommID, userID, tag, ownCommID, senderTag, msg, msgID).delivery)
  {
    var m := Route(ownCommID, userID, tag, commID, senderTag, msg, msgID).message;
    RosMsgRejects(m.content);
    RosMsgRoundTrip(m.content, rest);
  }

  /** As written, the remote side is never handed the ROS message: its 'msg' is the Message object. */
  lemma AsWrittenDropsPayload(ownCommID: string, userID: string, tag: string, commID: string,
                              senderTag: string, msg: Py, msgID: string, rest: seq<Item>)
    requires commID != ownCommID && msg != PMessage
    ensures var m := RouteAsWritten(ownCommID, userID, tag, commID, senderTag, msg, msgID).message;
            var sent := RosMsgWrites(m.content);
            sent.1 == Done
            && DeserializeRosMsg(sent.0 + rest).Ok?
            && Unpack(ownCommID, DeserializeRosMsg(sent.0 + rest).value.0).Ok?
            && Unpack(ownCommID, DeserializeRosMsg(sent.0 + rest).value.0).value.msg == PMessage
            && Unpack(ownCommID, DeserializeRosMsg(sent.0 + rest).value.0).value.msg != msg
  {
    var m := RouteAsWritten(ownCommID, userID, tag, commID, senderTag, msg, msgID).message;
    RosMsgRejects(m.content);
    RosMsgRoundTrip(m.content, rest);
  }

  /** The concrete case: the serialized ROS message "data" sent to endpoint "B" from endpoint "A". */
  lemma AsWrittenExample()
    ensures RouteAsWritten("A", "user", "dest", "B", "src", PStr("data"), "id").message.content.entries["msg"] == PMessage
    ensures Route("A", "user", "dest", "B", "src", PStr("data"), "id").message.content.entries["msg"] == PStr("data")
  {
  }

  class Messenger {
    const commID: string
    /** the calls made to the manager's received */
    var delivered: seq<Delivery>
    /** the messages handed to the communication manager's sendMessage */
    var outbound: seq<Message>
    /** the calls made to the communication manager's received */
    var forwarded: seq<Delivery>

    constructor (commID: string)
      ensures this.commID == commID
      ensures delivered == [] && outbound == [] && forwarded == []
    {
      this.commID := commID;
      delivered := [];
      outbound := [];
      forwarded := [];
    }

    method Send(userID: string, tag: string, destID: string, senderTag: string, msg: Py, msgID: string)
      modifies this
      ensures Route(commID, userID, tag, destID, senderTag, msg, msgID).Local? ==>
                delivered == old(delivered) + [Route(commID, userID, tag, destID, senderTag, msg, msgID).delivery]
                && outbound == old(outbound)
      ensures Route(commID, userID, tag, destID, senderTag, msg, msgID).Remote? ==>
                outbound == old(outbound) + [Route(commID, userID, tag, destID, senderTag, msg, msgID).message]
                && delivered == old(delivered)
      ensures forwarded == old(forwarded)
    {
      if destID == commID {
        delivered := delivered + [Delivery(PStr(userID), PStr(tag), destID, PStr(senderTag), msg, PStr(msgID))];
        return;
      }
      var m := Message(RosMsg, destID, RosContent(userID, tag, senderTag, msg, msgID));
      outbound := outbound + [m];
    }

    method ProcessMessage(origin: string, content: Py) returns (r: Outcome)
      modifies this
      ensures Unpack(origin, content).Ok? ==> r == Done && forwarded == old(forwarded) + [Unpack(origin, content).value]
      ensures Unpack(origin, content).Err? ==> r == Raised(Unpack(origin, content).error) && forwarded == old(forwarded)
      ensures delivered == old(delivered) && outbound == old(outbound)
    {
      var call := Unpack(origin, content);
      if call.Err? {
        return Raised(call.error);
      }
      forwarded := forwarded + [call.value];
      r := Done;
    }
  }
}
