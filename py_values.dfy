/**
 * The Python side: the values the serializers and handlers see, and the
 * exceptions they raise (the classes of rce/error.py and the built-in ones
 * the code lets through).
 */
module PyValues {

  /**
   * A command class: its IDENTIFIER (possibly inherited), whether it
   * implements ISerializable, and the classes it derives from.
   */
  datatype CmdClass = CmdClass(name: string, identifier: int, serializable: bool, ancestors: set<CmdClass>)

  datatype Py =
    | PNone
    | PBool(b: bool)
    | PInt(i: int)
    | PStr(s: string)
    | PList(items: seq<Py>)
    | PTuple(items: seq<Py>)
    | PDict(entries: map<string, Py>)
    /** an instance of a command class, with the state its own serialize writes */
    | PCmd(cls: CmdClass, state: seq<Py>)
    /** a comm.message.Message object */
    | PMessage
    /** any other object, by identity */
    | PObject(id: nat)

  /** isinstance(obj, cls): obj is a command whose class is cls or derives from it. */
  predicate IsInstance(obj: Py, cls: CmdClass)
  {
    obj.PCmd? && (obj.cls == cls || cls in obj.cls.ancestors)
  }

  datatype PyError =
    | SerializationError
    | InternalError
    | InvalidRequest
    | InterfaceError
    | KeyError
    | IndexError
    | TypeError
    | ValueError
    | NotImplementedError
    /** the stream holds no item of the kind a getter asked for */
    | StreamUnderflow

  /** `p[k]` for an integer k, as Python evaluates it. */
  function Index(p: Py, k: nat): (r: Result<Py>)
    ensures (p.PList? || p.PTuple?) && k < |p.items| ==> r == Ok(p.items[k])
    ensures p.PDict? ==> r == Err(KeyError)
  {
    match p
    case PList(items) => if k < |items| then Ok(items[k]) else Err(IndexError)
    case PTuple(items) => if k < |items| then Ok(items[k]) else Err(IndexError)
    case PStr(s) => if k < |s| then Ok(PStr([s[k]])) else Err(IndexError)
    case PDict(_) => Err(KeyError)
    case _ => Err(TypeError)
  }

  /** The value of a Python call: what it returns, or what it raises. */
  datatype Result<+T> = Ok(value: T) | Err(error: PyError)

  /** The outcome of a Python call that returns nothing. */
  datatype Outcome = Done | Raised(error: PyError)
}
