/**
 * Types shared by the rce++ client: the exception it throws, the opaque
 * application callbacks, and the envelopes handed to the protocol layer.
 */
module RceTypes {
  import opened Json

  /** rce::ClientException: a runtime error carrying its message text. */
  datatype ClientException = ClientException(what: string)

  /** An application callback (a boost::function), known only by identity. */
  datatype Callback = Callback(id: nat)

  /**
   * A callback that an operation invokes, with the message it passes: an
   * operation returning an Invocation stands for the call `callback(msg)`.
   */
  datatype Invocation = Invocation(callback: Callback, msg: Value)

  /** The control operations the client sends with no interface tag. */
  datatype ControlOp = CreateContainer | DestroyContainer | ConfigureComponent | ConfigureConnection

  /** What the client hands to Protocol_impl::send. */
  datatype Envelope =
    | Control(op: ControlOp, data: Value)
    | Message(tag: string, msgType: string, data: Value, msgID: string)

  /** The msgID a publisher sends: the reserved no-correlation marker. */
  const NO_CORRELATION := "nil"
}
