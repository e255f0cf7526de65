/**
 * Protocol_impl, the layer that owns the connection: only its interface
 * registry and its outbound stream are modelled. The registry maps a tag to
 * the receiving interface registered under it; every send appends one
 * envelope to the outbound log.
 */
module Protocol {
  import opened Json
  import opened RceTypes
  import opened Results

  /**
   * The registry after unregisterInterface(tag, iface): the binding is
   * dropped only when it is this interface's own, so a repeated or a stale
   * unregister never removes another interface.
   */
  function Unbind(registry: map<string, object>, tag: string, iface: object): (r: map<string, object>)
    ensures tag in r ==> r[tag] != iface
    ensures r.Keys <= registry.Keys
    ensures forall t :: t in r ==> r[t] == registry[t]
    ensures forall t :: t in registry && t !in r ==> t == tag && registry[t] == iface
  {
    if tag in registry && registry[tag] == iface then registry - {tag} else registry
  }

  /** Why registerInterface refuses a binding. */
  datatype RegistryError = DuplicateTag

  /**
   * The registry after registerInterface(tag, iface): a tag already bound
   * to a different interface is refused and keeps its first binding;
   * otherwise the tag is bound to the interface.
   */
  function Bind(registry: map<string, object>, tag: string, iface: object): (r: Result<map<string, object>, RegistryError>)
    ensures r.Err? <==> tag in registry && registry[tag] != iface
    ensures r.Err? ==> r.error == DuplicateTag
    ensures r.Ok? ==> tag in r.value && r.value[tag] == iface && r.value.Keys == registry.Keys + {tag}
    ensures r.Ok? ==> forall t :: t in registry && t != tag ==> r.value[t] == registry[t]
  {
    if tag in registry && registry[tag] != iface then Err(DuplicateTag) else Ok(registry[tag := iface])
  }

  /** Registering under a free tag and unregistering the same interface restores the registry. */
  lemma BindThenUnbind(registry: map<string, object>, tag: string, iface: object)
    requires tag !in registry
    ensures Bind(registry, tag, iface).Ok?
    ensures Unbind(Bind(registry, tag, iface).value, tag, iface) == registry
  {
    var bound := Bind(registry, tag, iface).value;
    assert Unbind(bound, tag, iface).Keys == registry.Keys;
  }

  /** Unregistering twice is unregistering once. */
  lemma UnbindIdempotent(registry: map<string, object>, tag: string, iface: object)
    ensures Unbind(Unbind(registry, tag, iface), tag, iface) == Unbind(registry, tag, iface)
  {
  }

  class ProtocolImpl {
    /** tag -> the interface registered under it */
    var registry: map<string, object>
    /** every envelope handed to the connection, in order */
    var outbox: seq<Envelope>

    constructor ()
      ensures registry == map[] && outbox == []
    {
      registry := map[];
      outbox := [];
    }

    method RegisterInterface(tag: string, iface: object) returns (r: Outcome<RegistryError>)
      modifies this
      ensures Bind(old(registry), tag, iface).Err? ==> r == Fail(DuplicateTag) && registry == old(registry)
      ensures Bind(old(registry), tag, iface).Ok? ==> r == Pass && registry == Bind(old(registry), tag, iface).value
      ensures outbox == old(outbox)
    {
      var bound := Bind(registry, tag, iface);
      if bound.Err? {
        return Fail(DuplicateTag);
      }
      registry := bound.value;
      r := Pass;
    }

    method UnregisterInterface(tag: string, iface: object)
      modifies this
      ensures registry == Unbind(old(registry), tag, iface)
      ensures outbox == old(outbox)
    {
      registry := Unbind(registry, tag, iface);
    }

    /** send(tag, type, msg, msgID): an envelope for one interface. */
    method Send(tag: string, msgType: string, data: Value, msgID: string)
      modifies this
      ensures outbox == old(outbox) + [Message(tag, msgType, data, msgID)]
      ensures registry == old(registry)
    {
      outbox := outbox + [Message(tag, msgType, data, msgID)];
    }

    /** send(RCE_..., data): a control operation. */
    method SendControl(op: ControlOp, data: Value)
      modifies this
      ensures outbox == old(outbox) + [Control(op, data)]
      ensures registry == old(registry)
    {
      outbox := outbox + [Control(op, data)];
    }
  }
}
