/**
 * The interfaces of the rce++ client: ServiceClient_impl with its list of
 * pending calls, Publisher_impl and Subscriber_impl. Invoking a callback is
 * modelled by returning the Invocation the caller then performs.
 */
module Interfaces {
  import opened Json
  import opened Results
  import opened RceTypes
  import opened Protocol

  const INVALID_RESPONSE_TYPE := "Received Service response with invalid type."
  const INVALID_RESPONSE_ID := "Received Service response with invalid message ID."
  const INVALID_MESSAGE_TYPE := "Received Message with invalid type."

  /** One entry of ServiceClient_impl::_callbacks: a request's uuid and the callback for its response. */
  datatype PendingCall = PendingCall(id: string, callback: Callback)

  predicate IsPending(calls: seq<PendingCall>, id: string)
  {
    exists i :: 0 <= i < |calls| && calls[i].id == id
  }

  /** No two pending calls share an id (what fresh uuids guarantee). */
  predicate DistinctIds(calls: seq<PendingCall>)
  {
    forall i, j :: 0 <= i < j < |calls| ==> calls[i].id != calls[j].id
  }

  /**
   * Where the scan of receive stops: the first entry with this id, or the
   * end of the list when there is none.
   */
  function FirstMatch(calls: seq<PendingCall>, id: string): (k: nat)
    ensures k <= |calls|
    ensures k < |calls| <==> IsPending(calls, id)
    ensures k < |calls| ==> calls[k].id == id
    ensures forall j :: 0 <= j < k ==> calls[j].id != id
  {
    if |calls| == 0 then 0
    else if calls[0].id == id then 0
    else
      var k := FirstMatch(calls[1..], id);
      assert IsPending(calls, id) ==> IsPending(calls[1..], id) by {
        if IsPending(calls, id) {
          var i :| 0 <= i < |calls| && calls[i].id == id;
          assert calls[1..][i - 1].id == id;
        }
      }
      assert forall j :: 0 <= j < k + 1 ==> calls[j].id != id by {
        forall j | 0 <= j < k + 1 ensures calls[j].id != id {
          if j > 0 { assert calls[j] == calls[1..][j - 1]; }
        }
      }
      k + 1
  }

  /** The list after vector::erase at position k: that entry goes, the others keep their order. */
  function RemoveAt(calls: seq<PendingCall>, k: nat): (r: seq<PendingCall>)
    requires k < |calls|
    ensures |r| == |calls| - 1
    ensures forall j :: 0 <= j < k ==> r[j] == calls[j]
    ensures forall j :: k <= j < |r| ==> r[j] == calls[j + 1]
    ensures multiset(r) + multiset{calls[k]} == multiset(calls)
  {
    assert calls == calls[..k] + [calls[k]] + calls[k + 1..];
    calls[..k] + calls[k + 1..]
  }

  /** Appending a call with a fresh id keeps the ids distinct. */
  lemma {:induction false} FreshCallKeepsIdsDistinct(calls: seq<PendingCall>, id: string, cb: Callback)
    requires DistinctIds(calls) && !IsPending(calls, id)
    ensures DistinctIds(calls + [PendingCall(id, cb)])
  {
    var ext := calls + [PendingCall(id, cb)];
    forall i, j | 0 <= i < j < |ext| ensures ext[i].id != ext[j].id {
      if j == |calls| {
        assert ext[i] == calls[i];
      } else {
        assert ext[i] == calls[i] && ext[j] == calls[j];
      }
    }
  }

  /**
   * At-most-once delivery: once the response for an id has been matched,
   * the id is no longer pending, so a second response for it is rejected;
   * every other pending id stays pending and the ids stay distinct.
   */
  lemma {:induction false} MatchedCallIsGone(calls: seq<PendingCall>, id: string)
    requires DistinctIds(calls) && IsPending(calls, id)
    ensures var rest := RemoveAt(calls, FirstMatch(calls, id));
      && !IsPending(rest, id)
      && DistinctIds(rest)
      && forall other :: other != id ==> (IsPending(rest, other) <==> IsPending(calls, other))
  {
    var k := FirstMatch(calls, id);
    var rest := RemoveAt(calls, k);
    assert !IsPending(rest, id) by {
      forall j | 0 <= j < |rest| ensures rest[j].id != id {
        if j >= k { assert rest[j] == calls[j + 1]; }
      }
    }
    forall other | other != id ensures IsPending(rest, other) <==> IsPending(calls, other) {
      if IsPending(calls, other) {
        var i :| 0 <= i < |calls| && calls[i].id == other;
        assert i != k;
        if i < k { assert rest[i] == calls[i]; } else { assert rest[i - 1] == calls[i]; }
      }
      if IsPending(rest, other) {
        var i :| 0 <= i < |rest| && rest[i].id == other;
        if i < k { assert rest[i] == calls[i]; } else { assert rest[i] == calls[i + 1]; }
      }
    }
    forall i, j | 0 <= i < j < |rest| ensures rest[i].id != rest[j].id {
      var i' := if i < k then i else i + 1;
      var j' := if j < k then j else j + 1;
      assert rest[i] == calls[i'] && rest[j] == calls[j'];
    }
  }

  /** ServiceClient_impl: registers under its tag and correlates responses to calls. */
  class ServiceClient {
    const protocol: ProtocolImpl
    const tag: string
    const srvType: string
    /** the callback given at construction, used by the one-argument call */
    const defaultCallback: Callback
    var callbacks: seq<PendingCall>
    /** whether registerInterface accepted the tag; a refused construction throws DuplicateTag */
    var registered: bool

    /**
     * Registers the new interface under its tag. A tag already bound to
     * another interface is refused and keeps its first binding.
     */
    constructor (protocol: ProtocolImpl, tag: string, srvType: string, cb: Callback)
      modifies protocol
      ensures this.protocol == protocol && this.tag == tag && this.srvType == srvType
      ensures defaultCallback == cb && callbacks == []
      ensures registered <==> tag !in old(protocol.registry)
      ensures registered ==> protocol.registry == old(protocol.registry)[tag := this]
      ensures !registered ==> protocol.registry == old(protocol.registry)
      ensures protocol.outbox == old(protocol.outbox)
    {
      this.protocol := protocol;
      this.tag := tag;
      this.srvType := srvType;
      this.defaultCallback := cb;
      callbacks := [];
      new;
      var outcome := protocol.RegisterInterface(tag, this);
      registered := outcome.Pass?;
    }

    /**
     * call(msg, cb) with the uuid the generator produced: remember the
     * callback under that id, then send the request under the declared type.
     */
    method Call(msg: Value, cb: Callback, uid: string)
      modifies this, protocol
      ensures callbacks == old(callbacks) + [PendingCall(uid, cb)] && registered == old(registered)
      ensures protocol.outbox == old(protocol.outbox) + [Message(tag, srvType, msg, uid)]
      ensures protocol.registry == old(protocol.registry)
    {
      callbacks := callbacks + [PendingCall(uid, cb)];
      protocol.Send(tag, srvType, msg, uid);
    }

    /** call(msg): the same with the default callback. */
    method CallWithDefault(msg: Value, uid: string)
      modifies this, protocol
      ensures callbacks == old(callbacks) + [PendingCall(uid, defaultCallback)] && registered == old(registered)
      ensures protocol.outbox == old(protocol.outbox) + [Message(tag, srvType, msg, uid)]
      ensures protocol.registry == old(protocol.registry)
    {
      Call(msg, defaultCallback, uid);
    }

    /**
     * receive(type, msg, msgID): a response of the wrong type, or for an id
     * that is not pending, is rejected with the list untouched; otherwise the
     * first pending call with that id is answered once and erased.
     */
    method Receive(msgType: string, msg: Value, msgID: string) returns (r: Result<Invocation, ClientException>)
      modifies this
      ensures registered == old(registered)
      ensures msgType != srvType ==>
        r == Err(ClientException(INVALID_RESPONSE_TYPE)) && callbacks == old(callbacks)
      ensures msgType == srvType && !IsPending(old(callbacks), msgID) ==>
        r == Err(ClientException(INVALID_RESPONSE_ID)) && callbacks == old(callbacks)
      ensures msgType == srvType && IsPending(old(callbacks), msgID) ==>
        var k := FirstMatch(old(callbacks), msgID);
        && r == Ok(Invocation(old(callbacks)[k].callback, msg))
        && callbacks == RemoveAt(old(callbacks), k)
    {
      if msgType != srvType {
        return Err(ClientException(INVALID_RESPONSE_TYPE));
      }
      var i := 0;
      while i < |callbacks| && callbacks[i].id != msgID
        invariant 0 <= i <= |callbacks|
        invariant forall j :: 0 <= j < i ==> callbacks[j].id != msgID
      {
        i := i + 1;
      }
      if i < |callbacks| {
        r := Ok(Invocation(callbacks[i].callback, msg));
        callbacks := callbacks[..i] + callbacks[i + 1..];
      } else {
        r := Err(ClientException(INVALID_RESPONSE_ID));
      }
    }

    /** The destructor: unregister, and drop every pending call without invoking it. */
    method Release()
      modifies this, protocol
      ensures callbacks == [] && registered == old(registered)
      ensures protocol.registry == Unbind(old(protocol.registry), tag, this)
      ensures protocol.outbox == old(protocol.outbox)
    {
      protocol.UnregisterInterface(tag, this);
      callbacks := [];
    }
  }

  /** Publisher_impl: never registers, never receives. */
  class Publisher {
    /** null when the owning client has not connected; only publish dereferences it */
    const protocol: ProtocolImpl?
    const tag: string
    const msgType: string

    constructor (protocol: ProtocolImpl?, tag: string, msgType: string)
      ensures this.protocol == protocol && this.tag == tag && this.msgType == msgType
    {
      this.protocol := protocol;
      this.tag := tag;
      this.msgType := msgType;
    }

    /** publish(msg): one envelope with the no-correlation marker as msgID. */
    method Publish(msg: Value)
      requires protocol != null
      modifies protocol
      ensures protocol.outbox == old(protocol.outbox) + [Message(tag, msgType, msg, NO_CORRELATION)]
      ensures protocol.registry == old(protocol.registry)
    {
      protocol.Send(tag, msgType, msg, NO_CORRELATION);
    }
  }

  /** Subscriber_impl: registers under its tag and hands every message of its type to its callback. */
  class Subscriber {
    const protocol: ProtocolImpl
    const tag: string
    const msgType: string
    const callback: Callback
    /** whether registerInterface accepted the tag; a refused construction throws DuplicateTag */
    var registered: bool

    /**
     * Registers the new interface under its tag. A tag already bound to
     * another interface is refused and keeps its first binding.
     */
    constructor (protocol: ProtocolImpl, tag: string, msgType: string, cb: Callback)
      modifies protocol
      ensures this.protocol == protocol && this.tag == tag && this.msgType == msgType && callback == cb
      ensures registered <==> tag !in old(protocol.registry)
      ensures registered ==> protocol.registry == old(protocol.registry)[tag := this]
      ensures !registered ==> protocol.registry == old(protocol.registry)
      ensures protocol.outbox == old(protocol.outbox)
    {
      this.protocol := protocol;
      this.tag := tag;
      this.msgType := msgType;
      this.callback := cb;
      new;
      var outcome := protocol.RegisterInterface(tag, this);
      registered := outcome.Pass?;
    }

    /** receive(type, msg, msgID): reject a foreign type, otherwise invoke the callback once with msg. */
    method Receive(msgType': string, msg: Value, msgID: string) returns (r: Result<Invocation, ClientException>)
      ensures r.Ok? <==> msgType' == msgType
      ensures r.Ok? ==> r.value == Invocation(callback, msg)
      ensures r.Err? ==> r.error == ClientException(INVALID_MESSAGE_TYPE)
    {
      if msgType' != msgType {
        return Err(ClientException(INVALID_MESSAGE_TYPE));
      }
      r := Ok(Invocation(callback, msg));
    }

    /** unsubscribe(), also run by the destructor: safe to repeat. */
    method Unsubscribe()
      modifies protocol
      ensures protocol.registry == Unbind(old(protocol.registry), tag, this)
      ensures protocol.outbox == old(protocol.outbox)
    {
      protocol.UnregisterInterface(tag, this);
    }
  }
}
