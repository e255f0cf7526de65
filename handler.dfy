/**
 * The message handlers of the communication layer: the routing decision
 * for an incoming message (discard it, consume it on this node, or forward
 * it), and the handler objects that buffer the bytes of a message and push
 * them, chunk by chunk, to the consumer of the next connection.
 */
module Handler {
  import Results
  import opened PyValues

  /** The node constants the routing and the sending depend on (MAX_LENGTH, CHUNK_SIZE, NEIGHBOR_ADDR, PREFIX_PRIV_ADDR, PREFIX_LENGTH_ADDR). */
  datatype Definitions = Definitions(maxLength: int, chunkSize: nat, neighborAddr: string,
                                     prefixPrivAddr: string, prefixLengthAddr: nat)

  function Min(a: nat, b: nat): nat
  {
    if a <= b then a else b
  }

  /** `dest[:PREFIX_LENGTH_ADDR] == PREFIX_PRIV_ADDR`, with Python's slice clipped at the end of the string. */
  predicate PrivateAddress(defs: Definitions, dest: string)
  {
    dest[..Min(defs.prefixLengthAddr, |dest|)] == defs.prefixPrivAddr
  }

  /** Who processes a message consumed on this node: the protocol being initialised, or the communication manager. */
  datatype Target = InitProtocol(protocol: nat) | CommManager

  /** The handler receive constructs. */
  datatype Choice =
    | Sink
    | EndReceiver(handler: Target, msgLen: int, origin: string, dest: string)
    | Forwarder(msgLen: int, origin: string, dest: string)

  /** The handler, and the destinations under which it was registered with the router as a producer. */
  datatype Routed = Routed(choice: Choice, registrations: seq<string>)

  /**
   * receive: `filtered` is the factory's filterMessage answer for the message
   * type, `init` the protocol still to be initialised, if any.
   */
  function Receive(defs: Definitions, filtered: bool, commID: string, msgLen: int, origin: string,
                   dest: string, init: Results.Option<nat>): (r: Routed)
    ensures msgLen > defs.maxLength ==> r == Routed(Sink, [])
    ensures r.choice.Sink? <==>
              msgLen > defs.maxLength || filtered
              || (init.None? && dest != commID && dest != defs.neighborAddr && PrivateAddress(defs, dest))
    ensures r.choice.Forwarder? <==>
              msgLen <= defs.maxLength && !filtered && init.None?
              && dest != commID && dest != defs.neighborAddr && !PrivateAddress(defs, dest)
    ensures r.choice.Forwarder? ==> r.choice == Forwarder(msgLen, origin, dest)
    ensures r.choice.EndReceiver? ==>
              r.choice == EndReceiver(if init.Some? then InitProtocol(init.value) else CommManager, msgLen, origin, commID)
    ensures r.registrations == if r.choice.Forwarder? then [dest] else []
  {
    if msgLen > defs.maxLength then Routed(Sink, [])
    else if filtered then Routed(Sink, [])
    else if init.Some? then Routed(EndReceiver(InitProtocol(init.value), msgLen, origin, commID), [])
    else if dest == commID || dest == defs.neighborAddr then Routed(EndReceiver(CommManager, msgLen, origin, commID), [])
    else if PrivateAddress(defs, dest) then Routed(Sink, [])
    else
      var handler := Forwarder(msgLen, origin, dest);
      Routed(handler, [dest])
  }

  /** A message for a private address is never forwarded, whatever else it carries. */
  lemma PrivateNeverForwarded(defs: Definitions, filtered: bool, commID: string, msgLen: int, origin: string,
                              dest: string, init: Results.Option<nat>)
    requires PrivateAddress(defs, dest)
    ensures !Receive(defs, filtered, commID, msgLen, origin, dest, init).choice.Forwarder?
    ensures Receive(defs, filtered, commID, msgLen, origin, dest, init).registrations == []
  {
  }

  // ---------------------------------------------------------------- the _Sink

  /** The sink's registerProducer: a pull producer is refused; a sink keeps no state and discards writes. */
  function SinkRegisterProducer(streaming: bool): (r: Outcome)
    ensures r == Done <==> streaming
    ensures r != Done ==> r == Raised(NotImplementedError)
  {
    if !streaming then Raised(NotImplementedError) else Done
  }

  // ---------------------------------------------------------------- draining

  /** The successive pop(CHUNK_SIZE) results of a buffer: chunks of the given size from the front, the last one shorter. */
  function Chunks(buf: seq<char>, size: nat): (cs: seq<seq<char>>)
    requires size > 0
    decreases |buf|
  {
    if buf == [] then []
    else
      var n := Min(size, |buf|);
      [buf[..n]] + Chunks(buf[n..], size)
  }

  function Concat(cs: seq<seq<char>>): seq<char>
  {
    if cs == [] then [] else cs[0] + Concat(cs[1..])
  }

  /** The chunks are non-empty, no longer than the chunk size, and together are the buffer, in order. */
  lemma {:induction false} ChunksCoverBuffer(buf: seq<char>, size: nat)
    requires size > 0
    ensures Concat(Chunks(buf, size)) == buf
    ensures forall c | c in Chunks(buf, size) :: 0 < |c| <= size
    decreases |buf|
  {
    if buf != [] {
      var n := Min(size, |buf|);
      ChunksCoverBuffer(buf[n..], size);
      var cs := Chunks(buf, size);
      assert cs[0] == buf[..n] && cs[1..] == Chunks(buf[n..], size);
      assert buf[..n] + buf[n..] == buf;
    }
  }

  /** A call the handler makes on its consumer, or on the producer feeding it. */
  datatype Call =
    | ConsumerRegister(streaming: bool)
    | ConsumerWrite(data: seq<char>)
    | ConsumerUnregister
    | ProducerStop

  function WriteCalls(cs: seq<seq<char>>): (calls: seq<Call>)
    ensures |calls| == |cs|
    ensures forall i | 0 <= i < |cs| :: calls[i] == ConsumerWrite(cs[i])
  {
    if cs == [] then [] else [ConsumerWrite(cs[0])] + WriteCalls(cs[1..])
  }

  /** The state _send works on. */
  datatype SenderState = SenderState(buf: seq<char>, sent: int, paused: bool, aborted: bool, calls: seq<Call>)

  /**
   * _send: unless paused, pop the whole buffer in chunks and write each to
   * the consumer, counting the bytes sent; then unregister from the
   * consumer if the message is complete, the buffer is empty, or the
   * sender was aborted.
   */
  function Drained(st: SenderState, msgLen: int, chunkSize: nat): SenderState
    requires chunkSize > 0
  {
    var drained :=
      if st.paused then st
      else st.(buf := [], sent := st.sent + |st.buf|, calls := st.calls + WriteCalls(Chunks(st.buf, chunkSize)));
    if drained.sent == msgLen || drained.buf == [] || drained.aborted
    then drained.(calls := drained.calls + [ConsumerUnregister])
    else drained
  }

  /** A running sender writes its whole buffer, in order and in chunks, and always unregisters afterwards. */
  lemma DrainWritesBuffer(st: SenderState, msgLen: int, chunkSize: nat)
    requires chunkSize > 0 && !st.paused
    ensures var r := Drained(st, msgLen, chunkSize);
            r.buf == [] && r.sent == st.sent + |st.buf| && r.paused == st.paused && r.aborted == st.aborted
            && r.calls == st.calls + WriteCalls(Chunks(st.buf, chunkSize)) + [ConsumerUnregister]
            && Concat(Chunks(st.buf, chunkSize)) == st.buf
  {
    ChunksCoverBuffer(st.buf, chunkSize);
  }

  /** The unregistration after a running drain comes also when fewer than msgLen bytes were sent. */
  lemma DrainUnregistersEarly(st: SenderState, msgLen: int, chunkSize: nat)
    requires chunkSize > 0 && !st.paused && st.sent + |st.buf| < msgLen
    ensures Drained(st, msgLen, chunkSize).sent < msgLen
    ensures Drained(st, msgLen, chunkSize).calls[|Drained(st, msgLen, chunkSize).calls| - 1] == ConsumerUnregister
  {
  }

  /** A paused sender writes nothing, and unregisters only if the message is complete, the buffer empty or it was aborted. */
  lemma PausedDrainWritesNothing(st: SenderState, msgLen: int, chunkSize: nat)
    requires chunkSize > 0 && st.paused
    ensures var r := Drained(st, msgLen, chunkSize);
            r.buf == st.buf && r.sent == st.sent
            && r.calls == st.calls + (if st.sent == msgLen || st.buf == [] || st.aborted then [ConsumerUnregister] else [])
  {
  }

  datatype Role = SenderRole | EndReceiverRole | ForwarderRole

  /**
   * _Sender (an outgoing message), _EndReceiver (a message consumed here)
   * and _Forwarder (both at once): the receiving half pushes written bytes
   * into the buffer, the sending half pops them to its consumer.
   */
  class MessageHandler {
    const role: Role
    const msgLen: int
    const origin: string
    const dest: string
    const chunkSize: nat
    var buf: seq<char>
    /** receiving half */
    var recv: int
    var producer: Results.Option<nat>
    /** sending half */
    var sent: int
    var consumer: Results.Option<nat>
    var paused: bool
    var aborted: bool
    /** the calls made on the consumer and on the producer, in order */
    var calls: seq<Call>
    /** the bytes that entered the buffer: the initial content of a sender, every write of a receiver */
    ghost var pushed: int

    function State(): SenderState
      reads this
    {
      SenderState(buf, sent, paused, aborted, calls)
    }

    /** Every byte that entered the buffer is either sent or still buffered; a receiver counted each of them. */
    ghost predicate Accounted()
      reads this
    {
      chunkSize > 0 && sent + |buf| == pushed && (role != SenderRole ==> recv == pushed)
    }

    constructor Sender(msgLen: int, origin: string, dest: string, buf: seq<char>, chunkSize: nat)
      requires chunkSize > 0
      ensures role == SenderRole && this.msgLen == msgLen && this.origin == origin && this.dest == dest
      ensures this.chunkSize == chunkSize && this.buf == buf
      ensures sent == 0 && consumer.None? && !paused && !aborted && calls == []
      ensures recv == 0 && producer.None?
      ensures Accounted()
    {
      role := SenderRole;
      this.msgLen := msgLen;
      this.origin := origin;
      this.dest := dest;
      this.chunkSize := chunkSize;
      this.buf := buf;
      recv := 0;
      producer := Results.None;
      sent := 0;
      consumer := Results.None;
      paused := false;
      aborted := false;
      calls := [];
      pushed := |buf|;
    }

    constructor Forwarder(msgLen: int, origin: string, dest: string, chunkSize: nat)
      requires chunkSize > 0
      ensures role == ForwarderRole && this.msgLen == msgLen && this.origin == origin && this.dest == dest
      ensures this.chunkSize == chunkSize && buf == []
      ensures sent == 0 && consumer.None? && !paused && !aborted && calls == []
      ensures recv == 0 && producer.None?
      ensures Accounted()
    {
      role := ForwarderRole;
      this.msgLen := msgLen;
      this.origin := origin;
      this.dest := dest;
      this.chunkSize := chunkSize;
      buf := [];
      recv := 0;
      producer := Results.None;
      sent := 0;
      consumer := Results.None;
      paused := false;
      aborted := false;
      calls := [];
      pushed := 0;
    }

    constructor EndReceiver(msgLen: int, origin: string, dest: string, chunkSize: nat)
      requires chunkSize > 0
      ensures role == EndReceiverRole && this.msgLen == msgLen && this.origin == origin && this.dest == dest
      ensures this.chunkSize == chunkSize && buf == [] && recv == 0 && producer.None?
      ensures sent == 0 && consumer.None? && calls == []
      ensures Accounted()
    {
      role := EndReceiverRole;
      this.msgLen := msgLen;
      this.origin := origin;
      this.dest := dest;
      this.chunkSize := chunkSize;
      buf := [];
      recv := 0;
      producer := Results.None;
      sent := 0;
      consumer := Results.None;
      paused := false;
      aborted := false;
      calls := [];
      pushed := 0;
    }

    /** registerProducer of a receiver: a pull producer is refused, a push producer is kept. */
    method RegisterProducer(p: nat, streaming: bool) returns (r: Outcome)
      requires role != SenderRole
      modifies this
      ensures !streaming ==> r == Raised(NotImplementedError) && producer == old(producer)
      ensures streaming ==> r == Done && producer == Results.Some(p)
      ensures buf == old(buf) && recv == old(recv) && State() == old(State()) && pushed == old(pushed)
    {
      if !streaming {
        return Raised(NotImplementedError);
      }
      producer := Results.Some(p);
      r := Done;
    }

    /** _send */
    method Drain()
      requires role != EndReceiverRole && consumer.Some? && Accounted()
      modifies this
      ensures State() == Drained(old(State()), msgLen, chunkSize)
      ensures recv == old(recv) && producer == old(producer) && consumer == old(consumer) && pushed == old(pushed)
      ensures Accounted()
    {
      var rest, out, count := buf, calls, sent;
      while !paused && rest != []
        invariant count + |rest| == sent + |buf|
        invariant out + WriteCalls(Chunks(rest, chunkSize)) == calls + WriteCalls(Chunks(buf, chunkSize))
        invariant paused ==> rest == buf && out == calls && count == sent
        decreases |rest|
      {
        var n := Min(chunkSize, |rest|);
        var data, length := rest[..n], n;
        assert WriteCalls(Chunks(rest, chunkSize)) == [ConsumerWrite(data)] + WriteCalls(Chunks(rest[n..], chunkSize));
        out := out + [ConsumerWrite(data)];
        count := count + length;
        rest := rest[n..];
      }
      assert !paused ==> out == calls + WriteCalls(Chunks(buf, chunkSize));
      buf, calls, sent := rest, out, count;
      if sent == msgLen || buf == [] || aborted {
        calls := calls + [ConsumerUnregister];
      }
    }

    /** send: a sender takes one consumer only; it registers itself as a push producer, then drains. */
    method Send(c: nat) returns (r: Outcome)
      requires role != EndReceiverRole && Accounted()
      modifies this
      ensures old(consumer).Some? ==> r == Raised(InternalError) && State() == old(State()) && consumer == old(consumer)
      ensures old(consumer).None? ==>
                r == Done && consumer == Results.Some(c)
                && State() == Drained(old(State()).(calls := old(calls) + [ConsumerRegister(true)]), msgLen, chunkSize)
      ensures recv == old(recv) && producer == old(producer) && pushed == old(pushed)
      ensures Accounted()
    {
      if consumer.Some? {
        return Raised(InternalError);
      }
      consumer := Results.Some(c);
      calls := calls + [ConsumerRegister(true)];
      Drain();
      r := Done;
    }

    /** pauseProducing */
    method Pause()
      requires role != EndReceiverRole
      modifies this
      ensures State() == old(State()).(paused := true)
      ensures recv == old(recv) && producer == old(producer) && consumer == old(consumer) && pushed == old(pushed)
    {
      paused := true;
    }

    /** resumeProducing: clear the pause, then drain. */
    method Resume()
      requires role != EndReceiverRole && consumer.Some? && Accounted()
      modifies this
      ensures State() == Drained(old(State()).(paused := false), msgLen, chunkSize)
      ensures recv == old(recv) && producer == old(producer) && consumer == old(consumer) && pushed == old(pushed)
      ensures Accounted()
    {
      paused := false;
      Drain();
    }

    /** stopProducing: pause, abort and unregister from the consumer; a forwarder also stops its own producer. */
    method Stop()
      requires role != EndReceiverRole && consumer.Some?
      modifies this
      ensures paused && aborted && buf == old(buf) && sent == old(sent)
      ensures role == SenderRole ==> calls == old(calls) + [ConsumerUnregister]
      ensures role == ForwarderRole ==>
                calls == old(calls) + [ConsumerUnregister] + (if old(producer).Some? then [ProducerStop] else [])
      ensures recv == old(recv) && producer == old(producer) && consumer == old(consumer) && pushed == old(pushed)
    {
      paused := true;
      aborted := true;
      calls := calls + [ConsumerUnregister];
      if role == ForwarderRole && producer.Some? {
        calls := calls + [ProducerStop];
      }
    }

    /** write of a receiver: push the bytes and count them; a forwarder with a consumer then drains. */
    method Write(data: seq<char>)
      requires role != SenderRole && Accounted()
      modifies this
      ensures recv == old(recv) + |data| && pushed == old(pushed) + |data|
      ensures role == ForwarderRole && consumer.Some? ==>
                State() == Drained(old(State()).(buf := old(buf) + data), msgLen, chunkSize)
      ensures !(role == ForwarderRole && consumer.Some?) ==> State() == old(State()).(buf := old(buf) + data)
      ensures producer == old(producer) && consumer == old(consumer)
      ensures Accounted()
    {
      buf := buf + data;
      recv := recv + |data|;
      pushed := pushed + |data|;
      if role == ForwarderRole && consumer.Some? {
        Drain();
      }
    }
  }

  /**
   * A forwarder hands on exactly what it received: once it has a consumer
   * and is not paused, every byte written to it has been sent and its
   * buffer is empty.
   */
  lemma ForwarderPassesThrough(h: SenderState, recv: int, msgLen: int, chunkSize: nat, data: seq<char>)
    requires chunkSize > 0 && !h.paused && h.sent + |h.buf| == recv
    ensures var r := Drained(h.(buf := h.buf + data), msgLen, chunkSize);
            r.buf == [] && r.sent == recv + |data|
  {
  }
}
