# RoboEarth Cloud Engine core, modelled in Dafny

The RoboEarth Cloud Engine (RCE) runs ROS environments in the cloud on behalf of
robots. This project models two halves of it.

**The C++ robot client (`rce++`).** A `Client_impl` first asks the Master Manager
over HTTP for a key and a robot URL (`connectMaster`). It then opens a websocket
session guarded by the `_connecting` flag. It sends control envelopes to the
cloud: create or destroy containers, add or remove nodes, parameters, interfaces
and connections. It also hands out three kinds of interface objects bound to a
protocol:
- a `ServiceClient` keeps a list of pending calls keyed by message id and
  answers each response with the matching callback;
- a `Publisher` sends with the reserved id `"nil"`;
- a `Subscriber` checks the message type before it invokes its callback.

**The Python server framework.** The model covers:
- the serializers of `remote/message.py`, which write messages to and read them
  from a FIFO element stream: connect directives, communication info, requests,
  commands with a registry of command classes, tags and ROS messages;
- the `Messenger`, which delivers a ROS message locally or wraps it for another
  communication node;
- the stream handlers of `comm/handler.py`: the decision in `receive`
  (drop, end receiver or forwarder), and the chunked sender, forwarder and end
  receiver with their pause/resume/stop protocol;
- the ROS `Interface` of a container in `ServerUtil/Interface.py`. It reserves
  its ROS address, starts itself when the first user registers and stops when
  the last one leaves. It converts messages in both directions.

Modules:
- **Results, Json, RceTypes**: the values the client works on.
- **Handshake**: `connectMaster`.
- **Protocol**: the protocol's interface registry and outbox.
- **Interfaces**: the three interface objects.
- **Config**: the envelope builders.
- **Client**: the session and `Client_impl`.
- **PyValues, Stream**: Python values and the element stream.
- **Serializers, Commands, Messenger**: `message.py`.
- **Handler**: `handler.py`.
- **ServerInterface**: `Interface.py`.

Network I/O, HTTP and callbacks into code that is not shown become parameters:
- an HTTP reply is a `Reply` value;
- a callback is an opaque id, and invoking it is an `Invocation` returned to
  the caller;
- a ROS converter is a function parameter that may fail.

## Model

| member | source | states |
|---|---|---|
| Json.FindValue | rce++/include/client.hxx:507-509 | a missing member is Null; otherwise the value of the first member with that name |
| Json.FindValueDistinct | rce++/include/client.hxx:507-509 | with distinct names, every member's own value is found under its name |
| Handshake.ConnectMaster | rce++/include/client.hxx:438-525 | the handshake succeeds exactly when the reply is acceptable. It gives the curl error, the Master Manager error, an unreadable body, binary references and an invalid format as separate errors, and on success returns the key, the URL and the optional newer version |
| Json.FindValueFirst | rce++/include/client.hxx:507-509 | a lookup returns the value of the first member with the name, at whatever position it sits |
| Handshake.GrantIsFirstKeyAndUrl | rce++/include/client.hxx:505-524 | an object whose first "key" and first "url" members are strings, at any positions and in either order, and that has no "current" member grants exactly those key and URL with no newer version |
| Protocol.Bind | rce++/include/client.hxx:128 | registering refuses with DuplicateTag exactly when the tag is bound to a different interface; otherwise the tag is bound to the interface and every other binding is kept |
| Protocol.BindThenUnbind | rce++/include/client.hxx:122-136 | registering under a free tag and then unregistering the same interface restores the registry |
| Protocol.Unbind | rce++/include/client.hxx:132-134 | unregistering removes the tag only when it is bound to that interface and leaves every other binding unchanged |
| Protocol.UnbindIdempotent | rce++/include/client.hxx:186-199 | unregistering the same interface twice is the same as once |
| Protocol.ProtocolImpl.constructor | rce++/include/client.hxx:565 | a new protocol has no registered interfaces and has sent nothing |
| Protocol.ProtocolImpl.RegisterInterface | rce++/include/client.hxx:128 | the registry and outcome are those of Bind: a tag held by another interface is refused with DuplicateTag and keeps its first binding. Nothing is sent |
| Protocol.ProtocolImpl.UnregisterInterface | rce++/include/client.hxx:132-134 | the registry becomes Unbind of the old registry |
| Protocol.ProtocolImpl.Send | rce++/include/client.hxx:361-363 | appends exactly one interface message to the outbox |
| Protocol.ProtocolImpl.SendControl | rce++/include/client.hxx:605 | appends exactly one control envelope to the outbox |
| Interfaces.FirstMatch | rce++/include/client.hxx:374-380 | the search index is the first pending call with that id, or the length when none has it |
| Interfaces.RemoveAt | rce++/include/client.hxx:382-383 | erasing keeps the calls before and after in order, and the multiset loses exactly the erased call |
| Interfaces.FreshCallKeepsIdsDistinct | rce++/include/client.hxx:355-364 | appending a call with an id not pending keeps the ids distinct |
| Interfaces.MatchedCallIsGone | rce++/include/client.hxx:367-386 | after a response, its id is no longer pending, every other id is pending exactly as before, and the ids stay distinct |
| Interfaces.ServiceClient.constructor | rce++/include/client.hxx:122-130 | a new client with the default callback and no pending calls. It is registered under its tag exactly when the tag was free; otherwise the registry is unchanged |
| Interfaces.ServiceClient.Call | rce++/include/client.hxx:355-364 | records the call with its callback and sends the request under its id; the registration is kept |
| Interfaces.ServiceClient.CallWithDefault | rce++/include/client.hxx:348-352 | like Call, using the default callback; the registration is kept |
| Interfaces.ServiceClient.Receive | rce++/include/client.hxx:367-386 | rejects a wrong type. An unknown id fails and leaves the calls as they were. A known id invokes the first matching callback and removes that call. The registration is kept |
| Interfaces.ServiceClient.Release | rce++/include/client.hxx:132-134 | unregisters the client and drops its calls; whether it was registered is left as it was |
| Interfaces.Publisher.constructor | rce++/include/client.hxx:159-164 | binds the protocol, which may be null, the tag and the type |
| Interfaces.Publisher.Publish | rce++/include/client.hxx:391-398 | on a non-null protocol, sends the message with the no-correlation id "nil" |
| Interfaces.Subscriber.constructor | rce++/include/client.hxx:176-184 | a new subscriber with its callback. It is registered under its tag exactly when the tag was free; otherwise the registry is unchanged |
| Interfaces.Subscriber.Receive | rce++/include/client.hxx:401-409 | invokes the callback with the message exactly when the type matches, and otherwise reports an invalid message type |
| Interfaces.Subscriber.Unsubscribe | rce++/include/client.hxx:186-199 | unregisters the subscriber |
| Config.InterfaceKindNamed | rce++/include/client.hxx:697-758 | a recognised interface type name is the name of the kind it returns |
| Config.InterfaceTypeNamesDistinct | rce++/include/client.hxx:697-758 | the twelve interface kinds have twelve distinct names, and each name maps back to its kind |
| Config.Component | rce++/include/client.hxx:772-781 | a component object holds each of its distinct members under its own name |
| Config.ConfigComponent | rce++/include/client.hxx:772-781 | a configure-component envelope carrying the component under the given key |
| Config.ComponentField | rce++/include/client.hxx:772-781 | a member of a component without repeated names reads back from the envelope as written |
| Config.ConfigConnection | rce++/include/client.hxx:814-828 | a configure-connection envelope with both tags under the given key |
| Config.CreateContainer | rce++/include/client.hxx:600-606 | a create-container envelope carrying the container tag |
| Config.DestroyContainer | rce++/include/client.hxx:609-615 | a destroy-container envelope carrying the container tag |
| Config.AddNode | rce++/include/client.hxx:618-631 | an "addNodes" component with every field of the node |
| Config.RemoveNode | rce++/include/client.hxx:635-642 | a "removeNodes" component with the container and node tags |
| Config.AddParameter | rce++/include/client.hxx:646-682 | a "setParam" component with the container tag, name and value |
| Config.RemoveParameter | rce++/include/client.hxx:686-693 | a "deleteParam" component with the container tag and name |
| Config.AddInterface | rce++/include/client.hxx:697-758 | an "addInterfaces" component whose type name decodes back to the requested kind |
| Config.RemoveInterface | rce++/include/client.hxx:762-768 | a "removeInterfaces" component with the endpoint and interface tags |
| Config.AddConnection | rce++/include/client.hxx:792-795 | a "connect" connection between the two tags |
| Config.AddQualifiedConnection | rce++/include/client.hxx:785-788 | a "connect" connection between the two endpoint/interface tags |
| Config.RemoveConnection | rce++/include/client.hxx:807-810 | a "disconnect" connection between the two tags |
| Config.RemoveQualifiedConnection | rce++/include/client.hxx:799-803 | a "disconnect" connection between the two endpoint/interface tags |
| Config.SplitQualified | rce++/include/client.hxx:785-803 | a split qualified tag joins back to the input with a slash-free endpoint, and there is no split only when the input has no slash |
| Config.SplitQualifiedTag | rce++/include/client.hxx:785-803 | a qualified tag built from a slash-free endpoint splits back into its parts |
| Client.ConnectGuard | rce++/include/client.hxx:533-537 | connect is refused while connecting ("already connecting") or when connected ("already connected"), and is allowed otherwise |
| Client.RunStaysConsistent | rce++/include/client.hxx:529-597 | any sequence of connects and disconnects keeps the session consistent; connect is refused exactly while connecting or holding an endpoint |
| Client.ConnectingIsSticky | rce++/include/client.hxx:549-583 | once the connecting flag is set, no later connect or disconnect clears it, and every later connect is refused |
| Client.Client.constructor | rce++/include/client.hxx:238-243 | a new client holds its credentials and starts unconnected |
| Client.Client.Connect | rce++/include/client.hxx:529-583 | the session moves as ConnectStep says. A refused connect changes nothing and raises the guard's exception. Otherwise the handshake outcome is reported and the callback is kept |
| Client.Client.Disconnect | rce++/include/client.hxx:592-597 | drops the protocol and endpoint |
| Client.Client.Service | rce++/include/client.hxx:831-835 | a fresh service client registered under a free tag; a tag held by another interface fails with DuplicateTag and stays bound to it |
| Client.Client.Publisher | rce++/include/client.hxx:838-842 | a fresh publisher bound to the current protocol, null before connect |
| Client.Client.Subscriber | rce++/include/client.hxx:845-849 | a fresh subscriber registered under a free tag; a tag held by another interface fails with DuplicateTag and stays bound to it |
| Client.Client.Configure | rce++/include/client.hxx:605 | sends exactly the control envelope |
| PyValues.Index | framework/remote/message.py:61-62 | indexing a list or tuple in range gives its element; indexing a dict raises KeyError |
| Stream.Stream.AddInt | framework/remote/message.py:57 | appends one integer |
| Stream.Stream.AddElement | framework/remote/message.py:61-62 | appends one element |
| Stream.Stream.AddList | framework/remote/message.py:143 | appends one list |
| Stream.Stream.AddIdentifier | framework/remote/message.py:225 | appends one identifier of the given size |
| Stream.Stream.AddCommand | framework/remote/message.py:226 | appends one command state |
| Stream.GetInt | framework/remote/message.py:69 | succeeds exactly when the front item is an integer, and then splits it off |
| Stream.GetElement | framework/remote/message.py:103 | succeeds exactly when the front item is an element, and then splits it off |
| Stream.GetList | framework/remote/message.py:152 | succeeds exactly when the front item is a list, and then splits it off |
| Stream.GetIdentifier | framework/remote/message.py:231 | succeeds exactly when the front item is an identifier of that size, and then splits it off |
| Stream.GetCommand | framework/remote/message.py:235 | succeeds exactly when the front item is a command, and then splits it off |
| Serializers.PairWrite | framework/remote/message.py:60-66 | a pair is written exactly when both indexes succeed; a dict element is a SerializationError with nothing written |
| Serializers.PairWritesHead | framework/remote/message.py:59-62 | an indexable first element writes its pair in front of the rest of the list |
| Serializers.PairWritesAppend | framework/remote/message.py:59-66 | writing one more element extends the writes of the elements before it |
| Serializers.PairWritesPrefix | framework/remote/message.py:59-66 | after the first failing element, nothing more is written |
| Serializers.SerializeConnectDirective | framework/remote/message.py:56-66 | writes the count and then the pairs up to the first failure |
| Serializers.ReadPairs | framework/remote/message.py:68-69 | reading n pairs gives n 2-tuples |
| Serializers.DeserializeConnectDirective | framework/remote/message.py:68-69 | the result is a list of 2-tuples |
| Serializers.ReadPairsCons | framework/remote/message.py:69 | reading one more pair prepends that pair |
| Serializers.ReadPairsPrepend | framework/remote/message.py:69 | a pair in front of the stream is read as the first tuple |
| Serializers.ReadPairsRoundTrip | framework/remote/message.py:56-69 | reading back indexable elements gives each element's first two items as a tuple |
| Serializers.AsPairsOfPairs | framework/remote/message.py:56-69 | a list of 2-tuples is its own pair view |
| Serializers.DeserializeCount | framework/remote/message.py:68-69 | a non-negative count in front of the pair items and whatever follows them is the number of pairs read from there |
| Serializers.ConnectDirectiveRoundTrip | framework/remote/message.py:56-69 | serializing a list of 2-tuples and reading it back gives the list and leaves the rest of the stream |
| Serializers.SerializeCommInfo | framework/remote/message.py:99-100 | writes the message as one element |
| Serializers.DeserializeCommInfo | framework/remote/message.py:102-103 | reads one element exactly when the front item is one |
| Serializers.FieldWrites | framework/remote/message.py:135-147 | a keyed write ends Done or as SerializationError, never another error |
| Serializers.ReadElements | framework/remote/message.py:149-152 | reading n elements gives n values |
| Serializers.FieldWritesFail | framework/remote/message.py:135-147 | a keyed write succeeds exactly when every key is present |
| Serializers.FieldsRoundTrip | framework/remote/message.py:135-152 | reading back a successful keyed write gives the values in key order |
| Serializers.FieldWritesCons | framework/remote/message.py:135-147 | a keyed write is the first key's write followed by the rest |
| Serializers.RequestFieldOrder | framework/remote/message.py:135-147 | a request is written as user, then type, then the args list, stopping at the first missing key |
| Serializers.SerializeRequest | framework/remote/message.py:135-147 | the stream gains exactly the request writes, and the outcome is theirs |
| Serializers.DeserializeRequest | framework/remote/message.py:149-152 | a request read back has exactly user, type and args, and args is a tuple |
| Serializers.RequestRejects | framework/remote/message.py:135-147 | a request serializes exactly when it is a dict with user, type and args; otherwise it fails with SerializationError |
| Serializers.RequestRoundTrip | framework/remote/message.py:135-152 | a request read back has the same user and type, with args as a tuple of the same items |
| Serializers.TagFieldOrder | framework/remote/message.py:250-262 | a tag is written as user, tag, type, stopping at the first missing key |
| Serializers.SerializeTag | framework/remote/message.py:250-262 | the stream gains exactly the tag writes |
| Serializers.DeserializeTag | framework/remote/message.py:264-267 | a tag read back has exactly user, tag and type |
| Serializers.TagRejects | framework/remote/message.py:250-262 | a tag serializes exactly when all three keys are present; otherwise it fails with SerializationError |
| Serializers.TagRoundTrip | framework/remote/message.py:250-267 | a tag read back gives the same three fields |
| Serializers.RosMsgFieldOrder | framework/remote/message.py:345-358 | a ROS message is written as msg, destTag, srcTag, msgID, user, stopping at the first missing key |
| Serializers.SerializeRosMsg | framework/remote/message.py:345-358 | the stream gains exactly the ROS message writes |
| Serializers.DeserializeRosMsg | framework/remote/message.py:360-365 | a ROS message read back has exactly the five keys |
| Serializers.RosMsgRejects | framework/remote/message.py:345-358 | a ROS message serializes exactly when all five keys are present; otherwise it fails with SerializationError |
| Serializers.RosMsgRoundTrip | framework/remote/message.py:345-365 | a ROS message read back gives the same five fields |
| Commands.RegisterCompletes | framework/remote/message.py:172-185 | registering serializable classes succeeds and adds exactly their identifiers |
| Commands.RegisterKeepsOthers | framework/remote/message.py:172-185 | registration leaves untouched every identifier the list does not name |
| Commands.RegisterBindsLast | framework/remote/message.py:172-185 | when a list names an identifier more than once, the last class with it wins |
| Commands.RegisterStopsAtRefused | framework/remote/message.py:172-185 | the first non-serializable class stops registration with InterfaceError and keeps the classes registered before it |
| Commands.DeserializeCommand | framework/remote/message.py:228-235 | a decoded command has exactly user and cmd, and cmd is an instance of a registered class |
| Commands.RegisterKeepsCoherent | framework/remote/message.py:172-185 | each registered class stays keyed by its own identifier |
| Commands.CommandRejects | framework/remote/message.py:202-226 | a command serializes exactly when it is a dict with user and a serializable cmd that is an instance of the class registered under its IDENTIFIER, that class or a subclass. A non-dict raises TypeError and every other failure is a SerializationError |
| Commands.CommandRoundTrip | framework/remote/message.py:202-235 | a command read back has the same user and a command with the same state of the registered class: the very same command when its class is the registered one, its registered base class for a subclass instance |
| Commands.UnregisteredIdentifierRefused | framework/remote/message.py:228-235 | an unregistered identifier is refused with SerializationError |
| Commands.CommandSerializer.constructor | framework/remote/message.py:167-170 | a new serializer has no registered classes |
| Commands.CommandSerializer.RegisterCommand | framework/remote/message.py:172-185 | the registry and outcome are those of RegisterAll |
| Commands.CommandSerializer.UnregisterCommand | framework/remote/message.py:189-200 | an unknown identifier raises InternalError and changes nothing; otherwise exactly that identifier is removed |
| Commands.CommandSerializer.Serialize | framework/remote/message.py:202-226 | the stream gains exactly the command writes, and the outcome is theirs |
| Messenger.RouteAsWritten | framework/remote/message.py:387-425 | as written: local exactly for the own node, and a remote message carries the message class instead of the payload |
| Messenger.Route | framework/remote/message.py:387-425 | local delivery exactly for the own node, with every field passed through; otherwise a ROS message to that node carrying the payload |
| Messenger.Unpack | framework/remote/message.py:427-432 | a received message unpacks exactly when it is a dict with the five keys, with the origin as sender. A non-dict raises TypeError and a missing key raises KeyError |
| Messenger.RemoteDeliveryMatchesLocal | framework/remote/message.py:387-432 | a forwarded message, unpacked at its destination, carries the same six arguments as a local delivery (handed to the communication manager there rather than to the local manager) |
| Messenger.AsWrittenDropsPayload | framework/remote/message.py:417-424 | as written, every forwarded payload other than the message class itself is lost |
| Messenger.AsWrittenExample | framework/remote/message.py:417-424 | concrete case: "data" sent from node A to node B arrives as the message class |
| Messenger.Messenger.constructor | framework/remote/message.py:376-385 | a new messenger has delivered and sent nothing |
| Messenger.Messenger.Send | framework/remote/message.py:387-425 | records the local delivery or the outbound message that the corrected Route chooses, so a forwarded message carries its payload. The code as written at lines 417-420 is RouteAsWritten, which this method does not follow (see Findings) |
| Messenger.Messenger.ProcessMessage | framework/remote/message.py:427-432 | passes the unpacked delivery to the manager, or raises the unpacking error and forwards nothing |
| Handler.Receive | framework/comm/handler.py:301-360 | a too-long message is dropped. The handler is a sink exactly when the message cannot be taken. It forwards exactly when the message is neither for this node nor private. Only a forwarder registers with the router |
| Handler.PrivateNeverForwarded | framework/comm/handler.py:349-360 | a message for a private address is never forwarded or registered |
| Handler.SinkRegisterProducer | framework/comm/handler.py:55-62 | a sink accepts exactly streaming producers and otherwise raises NotImplementedError |
| Handler.ChunksCoverBuffer | framework/comm/handler.py:184-187 | the chunks concatenate back to the buffer and each holds between 1 and the chunk size characters |
| Handler.WriteCalls | framework/comm/handler.py:184-186 | each chunk becomes exactly one consumer write, in order |
| Handler.DrainWritesBuffer | framework/comm/handler.py:181-192 | an unpaused drain writes the whole buffer in chunks, counts it as sent and unregisters |
| Handler.DrainUnregistersEarly | framework/comm/handler.py:189-192 | a drain unregisters the consumer even when fewer than msgLen bytes have been sent |
| Handler.PausedDrainWritesNothing | framework/comm/handler.py:184-192 | a paused drain writes nothing and keeps buffer and count; it unregisters only when the message is complete, the buffer empty or the sender aborted |
| Handler.MessageHandler.Sender | framework/comm/handler.py:146-152 | a sender holding the whole message, unpaused, with nothing sent |
| Handler.MessageHandler.Forwarder | framework/comm/handler.py:221-233 | an empty forwarder with no producer or consumer |
| Handler.MessageHandler.EndReceiver | framework/comm/handler.py:259-263 | an empty end receiver |
| Handler.MessageHandler.RegisterProducer | framework/comm/handler.py:114-123 | accepts exactly streaming producers and otherwise raises NotImplementedError |
| Handler.MessageHandler.Drain | framework/comm/handler.py:181-192 | the sender state becomes Drained of the old state |
| Handler.MessageHandler.Send | framework/comm/handler.py:194-214 | a second consumer raises InternalError; otherwise registers the consumer and drains |
| Handler.MessageHandler.Pause | framework/comm/handler.py:161-165 | only sets the paused flag |
| Handler.MessageHandler.Resume | framework/comm/handler.py:167-171 | clears the flag and drains |
| Handler.MessageHandler.Stop | framework/comm/handler.py:173-179 | pauses and aborts. A sender unregisters its consumer; a forwarder also stops its producer |
| Handler.MessageHandler.Write | framework/comm/handler.py:125-130 | counts the received bytes. A forwarder with a consumer drains the data through; otherwise the data is buffered |
| Handler.ForwarderPassesThrough | framework/comm/handler.py:244-251 | data written to an unpaused forwarder goes out to its consumer |
| ServerInterface.InterfaceTypeNamed | framework/ServerUtil/Interface.py:37-39 | a type is known exactly when it is service, publisher or subscriber |
| ServerInterface.SplitParts | framework/ServerUtil/Interface.py:80-83 | splitting gives one more part than there are separators |
| ServerInterface.BalanceAppend | framework/ServerUtil/Interface.py:110-125 | the start/stop balance of joined logs is the sum of their balances |
| ServerInterface.FirstIndex | framework/ServerUtil/Interface.py:161 | the position of x, with no occurrence before it |
| ServerInterface.RemoveFirst | framework/ServerUtil/Interface.py:161 | removing one occurrence takes exactly one copy from the multiset |
| ServerInterface.UserStepBalance | framework/ServerUtil/Interface.py:127-173 | each register or unregister changes the start/stop balance exactly as it changes whether the interface has users |
| ServerInterface.UserRunBalance | framework/ServerUtil/Interface.py:127-173 | over any sequence of registrations, the interface is started exactly while it has users |
| ServerInterface.RegisterUserSends | framework/ServerUtil/Interface.py:127-149 | registering the first user starts the interface before announcing the user; later users are only announced |
| ServerInterface.UnregisterUserSends | framework/ServerUtil/Interface.py:151-173 | removing the last user stops the interface; otherwise the removal is announced |
| ServerInterface.Container.ReserveAddr | framework/ServerUtil/Interface.py:75-78 | a taken address raises ValueError and changes nothing; otherwise the address is reserved |
| ServerInterface.Interface.Make | framework/ServerUtil/Interface.py:67-73 | a new interface with the given configuration and no users |
| ServerInterface.Interface.RegisterUser | framework/ServerUtil/Interface.py:127-149 | the users and the container's messages follow UserStep, and the interface stays started exactly while it has users |
| ServerInterface.Interface.UnregisterUser | framework/ServerUtil/Interface.py:151-173 | an unknown user raises ValueError; otherwise as UserStep says, keeping the started-iff-users invariant |
| ServerInterface.ToMsgCls | framework/ServerUtil/Interface.py:85-94 | a service decodes into the request class and a publisher into the message class; a subscriber has no class to decode into |
| ServerInterface.FromMsgCls | framework/ServerUtil/Interface.py:85-94 | a service receives into the response class and a subscriber into the message class; a publisher has no class to receive into |
| ServerInterface.Interface.Send | framework/ServerUtil/Interface.py:175-203 | a missing type raises KeyError and a wrong type raises InvalidRequest. It succeeds exactly when the type matches and the message converts into the interface's ToMsgCls, and then sends one ROS message. A missing msg or msgID raises KeyError; a converter TypeError or ValueError becomes InvalidRequest and any other converter error passes through. A failure sends nothing |
| ServerInterface.Interface.Receive | framework/ServerUtil/Interface.py:205-222 | an interface without a FromMsgCls, a publisher, raises TypeError. A missing msg, uid or tag raises KeyError; a converter TypeError or ValueError becomes InvalidRequest and any other converter error passes through. Success hands exactly one message, with its type, id and tag, to the clients; a failure hands nothing |
| ServerInterface.Interface.Destroy | framework/ServerUtil/Interface.py:224-230 | stops the interface if it has users, frees its address, and ends with balance zero |
| ServerInterface.Open | framework/ServerUtil/Interface.py:41-96 | a taken address and a type not of the form pkg/msg raise InvalidRequest; an unknown interface type raises ValueError. The address stays reserved after a later failure. Success gives a fresh interface with that configuration |

## Left out

- libcurl setup and transfer (`curl_easy_*`): the HTTP exchange is a `Reply` value. The two allocation failures before the request are not modelled.
- The websocket connection, the client's run loop and `connected()` callback thread: connect ends at the handshake outcome.
- The generation of message ids in `Protocol_impl`: the uid is a parameter.
- `addParameter` overloads for int, float, bool, string and arrays are one value-typed builder; floating point is not modelled.
- Printing the "newer client version" notice.
- Thread hand-off (`reactor.callFromThread`) and the module-level `send` of `comm/handler.py`, which only starts a transfer.
- `_EndReceiver.unregisterProducer` and `_Receiver.unregisterProducer`: they deserialize through a `Message` class that is not part of this model.
- `comm/definition.py` and `comm/types.py` are not part of this model. `MAX_LENGTH`, `CHUNK_SIZE`, `NEIGHBOR_ADDR` and the private prefix are fields of `Handler.Definitions`.
- The message FIFO buffer is a plain sequence of characters; its internal layout is not modelled.
- A consumer that pauses or stops the sender from inside `write`: a drain runs to completion.
- The ROS message loader and converter: a loaded class is a `RosClass` value naming its type, and the converter is a decode/encode function that may fail. Decode is given the interface's `ToMsgCls`, which is absent for a subscriber.
- The body of `Protocol_impl::registerInterface` is not part of this model. Its refusal of a tag already bound to a different interface (DuplicateTag, the first binding staying routable) follows the router's documented contract. A refused construction is reported as an `Err` from `service` and `subscriber`.
- `verifyClass`/`verifyObject` are the `serializable` flag of a command class; a command's own `serialize` is its state.
- The processors of `message.py` other than the `Messenger` (for example `ConnectDirectiveProcessor`): they only forward to a manager.
- `framework/rce/error.py` supplies only error names, which are `PyError` constructors.
- `framework/robot.py` is not part of this model.
- ServerInterface.Interface.Validate: a plain comparison of the four configuration fields, with no contract.
- `__del__` running on a half-built interface after `__init__` raised: only destruction of a built interface is modelled.
- Serializers.SerializeConnectDirective: a message that is not a list is not modelled; its elements are the input.
- Serializers.SerializeRequest: requires that `args`, when present, is a list or tuple, because the stream's `addList` on any other value is not shown.
- Serializers.RequestWrites: same requirement on `args` as SerializeRequest.

## Findings

| source | as written | input that shows it | evidently intended | confidence | as-written member | corrected member |
|---|---|---|---|---|---|---|
| framework/remote/message.py:417-420 | `send` rebinds `msg` to a new `Message` before building the content for another node, so the forwarded content's "msg" is that `Message` rather than the payload | sending `"data"` from node A to node B | the forwarded content carries the payload, so the receiving node delivers what a local send would | not executed | Messenger.AsWrittenExample | Messenger.RemoteDeliveryMatchesLocal |

The rest of the model uses the corrected routing: `Messenger.Route`, and with it the class method `Messenger.Messenger.Send`, forward the payload. Only `Messenger.RouteAsWritten` and the lemmas about it describe the rebinding at lines 417-420.

Observations that are modelled as written and are not findings:
- `connect` sets `_connecting` and clears it only after a successful handshake. A failed handshake leaves it set, so every later `connect` is refused (Client.ConnectingIsSticky).
- `_send` unregisters its consumer whenever the buffer runs empty, even before `msgLen` bytes have been sent (Handler.DrainUnregistersEarly).
