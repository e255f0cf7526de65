/**
 * The configuration commands of Client_impl: each builds the data of one
 * control envelope. Component commands wrap one component object in a
 * one-element array under the operation's key (configComponent); connection
 * commands do the same with a {tagA, tagB} object (configConnection).
 */
module Config {
  import opened Json
  import opened Results
  import opened RceTypes

  /** rce::interface_t */
  datatype InterfaceKind =
    | InterfaceServiceClient | InterfaceServiceProvider | InterfacePublisher | InterfaceSubscriber
    | ConverterServiceClient | ConverterServiceProvider | ConverterPublisher | ConverterSubscriber
    | ForwarderServiceClient | ForwarderServiceProvider | ForwarderPublisher | ForwarderSubscriber

  /** The `interfaceType` string addInterface puts on the wire for each kind. */
  function InterfaceTypeName(k: InterfaceKind): string
  {
    match k
    case InterfaceServiceClient => "ServiceInterface"
    case InterfaceServiceProvider => "ServiceProviderInterface"
    case InterfacePublisher => "PublisherInterface"
    case InterfaceSubscriber => "SubscriberInterface"
    case ConverterServiceClient => "ServiceConverter"
    case ConverterServiceProvider => "ServiceProviderConverter"
    case ConverterPublisher => "PublisherConverter"
    case ConverterSubscriber => "SubscriberConverter"
    case ForwarderServiceClient => "ServiceForwarder"
    case ForwarderServiceProvider => "ServiceProviderForwarder"
    case ForwarderPublisher => "PublisherForwarder"
    case ForwarderSubscriber => "SubscriberForwarder"
  }

  /** The reverse of InterfaceTypeName: which kind a type string names, if any. */
  function InterfaceKindNamed(s: string): (k: Option<InterfaceKind>)
    ensures k.Some? ==> InterfaceTypeName(k.value) == s
  {
    if s == "ServiceInterface" then Some(InterfaceServiceClient)
    else if s == "ServiceProviderInterface" then Some(InterfaceServiceProvider)
    else if s == "PublisherInterface" then Some(InterfacePublisher)
    else if s == "SubscriberInterface" then Some(InterfaceSubscriber)
    else if s == "ServiceConverter" then Some(ConverterServiceClient)
    else if s == "ServiceProviderConverter" then Some(ConverterServiceProvider)
    else if s == "PublisherConverter" then Some(ConverterPublisher)
    else if s == "SubscriberConverter" then Some(ConverterSubscriber)
    else if s == "ServiceForwarder" then Some(ForwarderServiceClient)
    else if s == "ServiceProviderForwarder" then Some(ForwarderServiceProvider)
    else if s == "PublisherForwarder" then Some(ForwarderPublisher)
    else if s == "SubscriberForwarder" then Some(ForwarderSubscriber)
    else None
  }

  /** The twelve kinds get twelve different type strings: the string names the kind back. */
  lemma InterfaceTypeNamesDistinct(k: InterfaceKind)
    ensures InterfaceKindNamed(InterfaceTypeName(k)) == Some(k)
  {
  }

  /** The single (key, component) a control envelope carries, when its data has that shape. */
  function Payload(e: Envelope): Option<(string, Value)>
  {
    if e.Control? && e.data.Obj? && |e.data.members| == 1 &&
       e.data.members[0].value.Arr? && |e.data.members[0].value.items| == 1
    then Some((e.data.members[0].name, e.data.members[0].value.items[0]))
    else None
  }

  /** A member of the single component of a control envelope, read back as find_value would. */
  function Field(e: Envelope, name: string): Value
  {
    match Payload(e)
    case Some((_, Obj(members))) => FindValue(members, name)
    case _ => Null
  }

  /** A component object built from members with distinct names; its fields read back as written. */
  function Component(members: seq<Member>): (v: Value)
    requires DistinctNames(members)
    ensures v == Obj(members)
    ensures forall k :: 0 <= k < |members| ==> FindValue(v.members, members[k].name) == members[k].value
  {
    FindValueDistinct(members);
    Obj(members)
  }

  /** configComponent(type, component) */
  function ConfigComponent(key: string, component: Value): (e: Envelope)
    ensures e.Control? && e.op == ConfigureComponent
    ensures Payload(e) == Some((key, component))
  {
    Control(ConfigureComponent, Obj([Member(key, Arr([component]))]))
  }

  /** A member of a component without repeated names reads back from its envelope as written. */
  lemma ComponentField(key: string, members: seq<Member>, k: nat)
    requires DistinctNames(members) && k < |members|
    ensures Field(ConfigComponent(key, Obj(members)), members[k].name) == members[k].value
  {
    FindValueDistinct(members);
  }

  /** configConnection(type, iTag1, iTag2) */
  function ConfigConnection(key: string, tag1: string, tag2: string): (e: Envelope)
    ensures e.Control? && e.op == ConfigureConnection
    ensures Payload(e).Some? && Payload(e).value.0 == key
    ensures Field(e, "tagA") == Str(tag1) && Field(e, "tagB") == Str(tag2)
  {
    var fields := [Member("tagA", Str(tag1)), Member("tagB", Str(tag2))];
    var connection := Component(fields);
    assert fields[0].name == "tagA" && fields[1].name == "tagB";
    Control(ConfigureConnection, Obj([Member(key, Arr([connection]))]))
  }

  /** createContainer(cTag): the container tag, not wrapped in an array. */
  function CreateContainer(cTag: string): (e: Envelope)
    ensures e.Control? && e.op == ControlOp.CreateContainer && Payload(e).None?
    ensures e.data.Obj? && FindValue(e.data.members, "containerTag") == Str(cTag)
  {
    Control(ControlOp.CreateContainer, Obj([Member("containerTag", Str(cTag))]))
  }

  /** destroyContainer(cTag) */
  function DestroyContainer(cTag: string): (e: Envelope)
    ensures e.Control? && e.op == ControlOp.DestroyContainer && Payload(e).None?
    ensures e.data.Obj? && FindValue(e.data.members, "containerTag") == Str(cTag)
  {
    Control(ControlOp.DestroyContainer, Obj([Member("containerTag", Str(cTag))]))
  }

  /** addNode(cTag, nTag, pkg, exe, args, name, namespace) */
  function AddNode(cTag: string, nTag: string, pkg: string, exe: string, args: string,
                   name: string, rosNamespace: string): (e: Envelope)
    ensures e.Control? && e.op == ConfigureComponent
    ensures Payload(e).Some? && Payload(e).value.0 == "addNodes"
    ensures && Field(e, "containerTag") == Str(cTag) && Field(e, "nodeTag") == Str(nTag)
            && Field(e, "pkg") == Str(pkg) && Field(e, "exe") == Str(exe)
            && Field(e, "args") == Str(args) && Field(e, "name") == Str(name)
            && Field(e, "namespace") == Str(rosNamespace)
  {
    var fields := [Member("containerTag", Str(cTag)), Member("nodeTag", Str(nTag)), Member("pkg", Str(pkg)),
                   Member("exe", Str(exe)), Member("args", Str(args)), Member("name", Str(name)),
                   Member("namespace", Str(rosNamespace))];
    NodeNamesDistinct(fields);
    ComponentField("addNodes", fields, 0);
    ComponentField("addNodes", fields, 1);
    ComponentField("addNodes", fields, 2);
    ComponentField("addNodes", fields, 3);
    ComponentField("addNodes", fields, 4);
    ComponentField("addNodes", fields, 5);
    ComponentField("addNodes", fields, 6);
    ConfigComponent("addNodes", Component(fields))
  }

  /** The seven member names of an addNode component are pairwise different. */
  lemma NodeNamesDistinct(fields: seq<Member>)
    requires |fields| == 7
    requires fields[0].name == "containerTag" && fields[1].name == "nodeTag" && fields[2].name == "pkg"
    requires fields[3].name == "exe" && fields[4].name == "args" && fields[5].name == "name"
    requires fields[6].name == "namespace"
    ensures DistinctNames(fields)
  {
    assert fields[2].name[0] != fields[3].name[0] && fields[4].name[0] != fields[5].name[0];
  }

  /** removeNode(cTag, nTag) */
  function RemoveNode(cTag: string, nTag: string): (e: Envelope)
    ensures e.Control? && e.op == ConfigureComponent
    ensures Payload(e).Some? && Payload(e).value.0 == "removeNodes"
    ensures Field(e, "containerTag") == Str(cTag) && Field(e, "nodeTag") == Str(nTag)
  {
    var fields := [Member("containerTag", Str(cTag)), Member("nodeTag", Str(nTag))];
    ComponentField("removeNodes", fields, 0);
    ComponentField("removeNodes", fields, 1);
    ConfigComponent("removeNodes", Component(fields))
  }

  /**
   * addParameter(cTag, name, value); the int, string, double and bool
   * overloads pass Int, Str, Real and Bool values.
   */
  function AddParameter(cTag: string, name: string, value: Value): (e: Envelope)
    ensures e.Control? && e.op == ConfigureComponent
    ensures Payload(e).Some? && Payload(e).value.0 == "setParam"
    ensures Field(e, "containerTag") == Str(cTag) && Field(e, "name") == Str(name) && Field(e, "value") == value
  {
    var fields := [Member("containerTag", Str(cTag)), Member("name", Str(name)), Member("value", value)];
    assert fields[1].name[0] != fields[2].name[0];
    ComponentField("setParam", fields, 0);
    ComponentField("setParam", fields, 1);
    ComponentField("setParam", fields, 2);
    ConfigComponent("setParam", Component(fields))
  }

  /** removeParameter(cTag, name) */
  function RemoveParameter(cTag: string, name: string): (e: Envelope)
    ensures e.Control? && e.op == ConfigureComponent
    ensures Payload(e).Some? && Payload(e).value.0 == "deleteParam"
    ensures Field(e, "containerTag") == Str(cTag) && Field(e, "name") == Str(name)
  {
    var fields := [Member("containerTag", Str(cTag)), Member("name", Str(name))];
    ComponentField("deleteParam", fields, 0);
    ComponentField("deleteParam", fields, 1);
    ConfigComponent("deleteParam", Component(fields))
  }

  /** addInterface(eTag, iTag, iType, iCls, addr); the caller's default addr is "". */
  function AddInterface(eTag: string, iTag: string, iType: InterfaceKind, iCls: string, addr: string): (e: Envelope)
    ensures e.Control? && e.op == ConfigureComponent
    ensures Payload(e).Some? && Payload(e).value.0 == "addInterfaces"
    ensures Field(e, "endpointTag") == Str(eTag) && Field(e, "interfaceTag") == Str(iTag)
    ensures Field(e, "className") == Str(iCls) && Field(e, "addr") == Str(addr)
    ensures Field(e, "interfaceType").Str? && InterfaceKindNamed(Field(e, "interfaceType").s) == Some(iType)
  {
    var fields := [Member("endpointTag", Str(eTag)), Member("interfaceTag", Str(iTag)),
                   Member("interfaceType", Str(InterfaceTypeName(iType))),
                   Member("className", Str(iCls)), Member("addr", Str(addr))];
    ComponentField("addInterfaces", fields, 0);
    ComponentField("addInterfaces", fields, 1);
    ComponentField("addInterfaces", fields, 2);
    ComponentField("addInterfaces", fields, 3);
    ComponentField("addInterfaces", fields, 4);
    InterfaceTypeNamesDistinct(iType);
    ConfigComponent("addInterfaces", Component(fields))
  }

  /** removeInterface(eTag, iTag) */
  function RemoveInterface(eTag: string, iTag: string): (e: Envelope)
    ensures e.Control? && e.op == ConfigureComponent
    ensures Payload(e).Some? && Payload(e).value.0 == "removeInterfaces"
    ensures Field(e, "endpointTag") == Str(eTag) && Field(e, "interfaceTag") == Str(iTag)
  {
    var fields := [Member("endpointTag", Str(eTag)), Member("interfaceTag", Str(iTag))];
    ComponentField("removeInterfaces", fields, 0);
    ComponentField("removeInterfaces", fields, 1);
    ConfigComponent("removeInterfaces", Component(fields))
  }

  /** The tag of an interface qualified by its endpoint, as the four-argument connection commands write it. */
  function QualifiedTag(eTag: string, iTag: string): string
  {
    eTag + "/" + iTag
  }

  /** Split a qualified tag at its first '/'. */
  function SplitQualified(s: string): (r: Option<(string, string)>)
    ensures r.Some? ==> QualifiedTag(r.value.0, r.value.1) == s && '/' !in r.value.0
    ensures r.None? ==> '/' !in s
  {
    if |s| == 0 then None
    else if s[0] == '/' then Some(("", s[1..]))
    else match SplitQualified(s[1..])
      case None => None
      case Some((e, i)) => Some(([s[0]] + e, i))
  }

  /**
   * A qualified tag names its endpoint and interface back when the endpoint
   * tag holds no '/'; then two different pairs never share a qualified tag.
   */
  lemma {:induction false} SplitQualifiedTag(eTag: string, iTag: string)
    requires '/' !in eTag
    ensures SplitQualified(QualifiedTag(eTag, iTag)) == Some((eTag, iTag))
  {
    var s := QualifiedTag(eTag, iTag);
    if eTag == [] {
      assert s[0] == '/' && s[1..] == iTag;
    } else {
      assert s[0] == eTag[0] && s[0] != '/';
      assert s[1..] == QualifiedTag(eTag[1..], iTag);
      SplitQualifiedTag(eTag[1..], iTag);
      assert [eTag[0]] + eTag[1..] == eTag;
    }
  }

  /** addConnection(iTag1, iTag2) */
  function AddConnection(iTag1: string, iTag2: string): (e: Envelope)
    ensures e.Control? && e.op == ConfigureConnection && Payload(e).Some? && Payload(e).value.0 == "connect"
    ensures Field(e, "tagA") == Str(iTag1) && Field(e, "tagB") == Str(iTag2)
  {
    ConfigConnection("connect", iTag1, iTag2)
  }

  /** addConnection(eTag1, iTag1, eTag2, iTag2): the tags travel as "endpoint/interface". */
  function AddQualifiedConnection(eTag1: string, iTag1: string, eTag2: string, iTag2: string): (e: Envelope)
    ensures e.Control? && e.op == ConfigureConnection && Payload(e).Some? && Payload(e).value.0 == "connect"
    ensures Field(e, "tagA") == Str(eTag1 + "/" + iTag1) && Field(e, "tagB") == Str(eTag2 + "/" + iTag2)
  {
    ConfigConnection("connect", QualifiedTag(eTag1, iTag1), QualifiedTag(eTag2, iTag2))
  }

  /** removeConnection(iTag1, iTag2) */
  function RemoveConnection(iTag1: string, iTag2: string): (e: Envelope)
    ensures e.Control? && e.op == ConfigureConnection && Payload(e).Some? && Payload(e).value.0 == "disconnect"
    ensures Field(e, "tagA") == Str(iTag1) && Field(e, "tagB") == Str(iTag2)
  {
    ConfigConnection("disconnect", iTag1, iTag2)
  }

  /** removeConnection(eTag1, iTag1, eTag2, iTag2) */
  function RemoveQualifiedConnection(eTag1: string, iTag1: string, eTag2: string, iTag2: string): (e: Envelope)
    ensures e.Control? && e.op == ConfigureConnection && Payload(e).Some? && Payload(e).value.0 == "disconnect"
    ensures Field(e, "tagA") == Str(eTag1 + "/" + iTag1) && Field(e, "tagB") == Str(eTag2 + "/" + iTag2)
  {
    ConfigConnection("disconnect", QualifiedTag(eTag1, iTag1), QualifiedTag(eTag2, iTag2))
  }
}
