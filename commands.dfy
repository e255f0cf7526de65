/**
 * The Command content serializer: a registry from a command class's
 * IDENTIFIER to the class, used to write a command instance onto the
 * stream and to rebuild it on the other side.
 */
module Commands {
  import opened PyValues
  import opened Stream

  /** registerCommand's effect: classes bound under their IDENTIFIER in list order, up to the first one verifyClass refuses. */
  function RegisterAll(reg: map<int, CmdClass>, cmdList: seq<CmdClass>): (map<int, CmdClass>, Outcome)
    decreases |cmdList|
  {
    if cmdList == [] then (reg, Done)
    else if !cmdList[0].serializable then (reg, Raised(InterfaceError))
    else RegisterAll(reg[cmdList[0].identifier := cmdList[0]], cmdList[1..])
  }

  /** Index k holds the last class of the list with its identifier. */
  predicate LastWithIdentifier(cmdList: seq<CmdClass>, k: int)
    requires 0 <= k < |cmdList|
  {
    forall j | k < j < |cmdList| :: cmdList[j].identifier != cmdList[k].identifier
  }

  function Identifiers(cmdList: seq<CmdClass>): set<int>
  {
    set c | c in cmdList :: c.identifier
  }

  /** A list of serializable classes registers completely, adding exactly its identifiers to the registry. */
  lemma {:induction false} RegisterCompletes(reg: map<int, CmdClass>, cmdList: seq<CmdClass>)
    requires forall c | c in cmdList :: c.serializable
    ensures RegisterAll(reg, cmdList).1 == Done
    ensures RegisterAll(reg, cmdList).0.Keys == reg.Keys + Identifiers(cmdList)
    decreases |cmdList|
  {
    if cmdList != [] {
      assert cmdList[0] in cmdList;
      assert forall c | c in cmdList[1..] :: c in cmdList;
      RegisterCompletes(reg[cmdList[0].identifier := cmdList[0]], cmdList[1..]);
      assert Identifiers(cmdList) == {cmdList[0].identifier} + Identifiers(cmdList[1..]) by {
        assert forall c | c in cmdList :: c == cmdList[0] || c in cmdList[1..];
      }
    }
  }

  /** Identifiers the list does not mention keep their old binding. */
  lemma {:induction false} RegisterKeepsOthers(reg: map<int, CmdClass>, cmdList: seq<CmdClass>, id: int)
    requires id in reg && id !in Identifiers(cmdList)
    ensures id in RegisterAll(reg, cmdList).0 && RegisterAll(reg, cmdList).0[id] == reg[id]
    decreases |cmdList|
  {
    if cmdList != [] && cmdList[0].serializable {
      assert cmdList[0] in cmdList;
      assert forall c | c in cmdList[1..] :: c in cmdList;
      RegisterKeepsOthers(reg[cmdList[0].identifier := cmdList[0]], cmdList[1..], id);
    }
  }

  /** With every class serializable, an identifier ends up bound to the LAST class of the list carrying it. */
  lemma {:induction false} RegisterBindsLast(reg: map<int, CmdClass>, cmdList: seq<CmdClass>, k: nat)
    requires forall c | c in cmdList :: c.serializable
    requires k < |cmdList| && LastWithIdentifier(cmdList, k)
    ensures cmdList[k].identifier in RegisterAll(reg, cmdList).0
    ensures RegisterAll(reg, cmdList).0[cmdList[k].identifier] == cmdList[k]
    decreases |cmdList|
  {
    var head := cmdList[0];
    var tail := cmdList[1..];
    assert head in cmdList;
    assert forall c | c in tail :: c in cmdList;
    var reg' := reg[head.identifier := head];
    if k == 0 {
      assert head.identifier !in Identifiers(tail) by {
        forall c | c in tail ensures c.identifier != head.identifier {
          var j :| 0 <= j < |tail| && tail[j] == c;
          assert cmdList[j + 1] == c;
        }
      }
      RegisterKeepsOthers(reg', tail, head.identifier);
    } else {
      assert cmdList[k] == tail[k - 1];
      assert LastWithIdentifier(tail, k - 1) by {
        forall j | k - 1 < j < |tail| ensures tail[j].identifier != tail[k - 1].identifier {
          assert tail[j] == cmdList[j + 1];
        }
      }
      RegisterBindsLast(reg', tail, k - 1);
    }
  }

  /** A refused class stops the loop: the classes before it stay registered, it and the later ones do not. */
  lemma {:induction false} RegisterStopsAtRefused(reg: map<int, CmdClass>, cmdList: seq<CmdClass>, k: nat)
    requires k < |cmdList| && !cmdList[k].serializable
    requires forall j | 0 <= j < k :: cmdList[j].serializable
    ensures RegisterAll(reg, cmdList) == (RegisterAll(reg, cmdList[..k]).0, Raised(InterfaceError))
    decreases k
  {
    if k == 0 {
      assert cmdList[..0] == [];
    } else {
      assert cmdList[..k][0] == cmdList[0];
      assert cmdList[..k][1..] == cmdList[1..][..k - 1];
      RegisterStopsAtRefused(reg[cmdList[0].identifier := cmdList[0]], cmdList[1..], k - 1);
    }
  }

  /** What Command's serialize pushes and how it ends, given the registry. */
  function CommandWrites(reg: map<int, CmdClass>, msg: Py): (seq<Item>, Outcome)
  {
    if !msg.PDict? then ([], Raised(TypeError))
    else if "user" !in msg.entries then ([], Raised(SerializationError))
    else
      var user := [ElementItem(msg.entries["user"])];
      if "cmd" !in msg.entries then (user, Raised(SerializationError))
      else
        var cmd := msg.entries["cmd"];
        if !(cmd.PCmd? && cmd.cls.serializable) then (user, Raised(SerializationError))
        else if cmd.cls.identifier !in reg || !IsInstance(cmd, reg[cmd.cls.identifier]) then (user, Raised(SerializationError))
        else (user + [IdentifierItem(cmd.cls.identifier, 1), CommandItem(cmd.state)], Done)
  }

  /** The command content as deserialize rebuilds it: the user, then an instance of the class registered under the identifier. */
  function DeserializeCommand(reg: map<int, CmdClass>, items: seq<Item>): (r: Result<(Py, seq<Item>)>)
    ensures r.Ok? ==> r.value.0.PDict? && r.value.0.entries.Keys == {"user", "cmd"}
    ensures r.Ok? ==> var cmd := r.value.0.entries["cmd"]; cmd.PCmd? && cmd.cls in reg.Values
  {
    match GetElement(items)
    case Err(e) => Err(e)
    case Ok((user, afterUser)) =>
      match GetIdentifier(afterUser, 1)
      case Err(e) => Err(e)
      case Ok((id, afterId)) =>
        if id !in reg then Err(SerializationError)
        else
          match GetCommand(afterId)
          case Err(e) => Err(e)
          case Ok((state, rest)) =>
            Ok((PDict(map["user" := user, "cmd" := PCmd(reg[id], state)]), rest))
  }

  /**
   * Serialization succeeds exactly for a dict with a user and a cmd that is
   * a serializable command and an instance of the class registered under
   * its IDENTIFIER (that class or a subclass of it); a non-dict raises
   * TypeError, every other failure SerializationError.
   */
  lemma CommandRejects(reg: map<int, CmdClass>, msg: Py)
    ensures CommandWrites(reg, msg).1 == Done <==>
              msg.PDict? && "user" in msg.entries && "cmd" in msg.entries && msg.entries["cmd"].PCmd?
              && msg.entries["cmd"].cls.serializable && msg.entries["cmd"].cls.identifier in reg
              && (reg[msg.entries["cmd"].cls.identifier] == msg.entries["cmd"].cls
                  || reg[msg.entries["cmd"].cls.identifier] in msg.entries["cmd"].cls.ancestors)
    ensures !msg.PDict? ==> CommandWrites(reg, msg).1 == Raised(TypeError)
    ensures msg.PDict? && CommandWrites(reg, msg).1 != Done ==> CommandWrites(reg, msg).1 == Raised(SerializationError)
  {
  }

  /** Every class is registered under its own IDENTIFIER. */
  predicate Coherent(reg: map<int, CmdClass>)
  {
    forall id | id in reg :: reg[id].identifier == id
  }

  /** registerCommand keeps the registry coherent, whether it completes or stops at a refused class. */
  lemma {:induction false} RegisterKeepsCoherent(reg: map<int, CmdClass>, cmdList: seq<CmdClass>)
    requires Coherent(reg)
    ensures Coherent(RegisterAll(reg, cmdList).0)
    decreases |cmdList|
  {
    if cmdList != [] && cmdList[0].serializable {
      RegisterKeepsCoherent(reg[cmdList[0].identifier := cmdList[0]], cmdList[1..]);
    }
  }

  /**
   * A command written with a registry reads back, with the same registry, as
   * the same user and a command with the same state whose class is the
   * registered one: the command itself when it was an instance of exactly
   * that class, its registered base class when it was a subclass instance.
   */
  lemma CommandRoundTrip(reg: map<int, CmdClass>, msg: Py, rest: seq<Item>)
    requires CommandWrites(reg, msg).1 == Done
    ensures msg.PDict? && "user" in msg.entries && "cmd" in msg.entries
    ensures var cmd := msg.entries["cmd"];
      && cmd.PCmd? && cmd.cls.identifier in reg
      && DeserializeCommand(reg, CommandWrites(reg, msg).0 + rest)
         == Ok((PDict(map["user" := msg.entries["user"], "cmd" := PCmd(reg[cmd.cls.identifier], cmd.state)]), rest))
    ensures var cmd := msg.entries["cmd"];
      reg[cmd.cls.identifier] == cmd.cls ==>
        DeserializeCommand(reg, CommandWrites(reg, msg).0 + rest)
        == Ok((PDict(map["user" := msg.entries["user"], "cmd" := cmd]), rest))
  {
    var d := msg.entries;
    var cmd := d["cmd"];
    var items := CommandWrites(reg, msg).0 + rest;
    assert items == [ElementItem(d["user"])] + ([IdentifierItem(cmd.cls.identifier, 1)] + ([CommandItem(cmd.state)] + rest));
    assert items[1..] == [IdentifierItem(cmd.cls.identifier, 1)] + ([CommandItem(cmd.state)] + rest);
    assert items[1..][1..] == [CommandItem(cmd.state)] + rest;
    assert items[1..][1..][1..] == rest;
  }

  /** An identifier nobody registered is refused with SerializationError. */
  lemma UnregisteredIdentifierRefused(reg: map<int, CmdClass>, user: Py, id: int, rest: seq<Item>)
    requires id !in reg
    ensures DeserializeCommand(reg, [ElementItem(user), IdentifierItem(id, 1)] + rest) == Err(SerializationError)
  {
    var items := [ElementItem(user), IdentifierItem(id, 1)] + rest;
    assert items[1..] == [IdentifierItem(id, 1)] + rest;
  }

  class CommandSerializer {
    var cmdCls: map<int, CmdClass>

    constructor ()
      ensures cmdCls == map[]
    {
      cmdCls := map[];
    }

    method RegisterCommand(cmdList: seq<CmdClass>) returns (r: Outcome)
      modifies this
      ensures (cmdCls, r) == RegisterAll(old(cmdCls), cmdList)
    {
      var i := 0;
      while i < |cmdList|
        invariant 0 <= i <= |cmdList|
        invariant RegisterAll(cmdCls, cmdList[i..]) == RegisterAll(old(cmdCls), cmdList)
      {
        assert cmdList[i..][0] == cmdList[i];
        assert cmdList[i..][1..] == cmdList[i + 1..];
        var cmd := cmdList[i];
        if !cmd.serializable {
          return Raised(InterfaceError);
        }
        cmdCls := cmdCls[cmd.identifier := cmd];
        i := i + 1;
      }
      assert cmdList[i..] == [];
      r := Done;
    }

    method UnregisterCommand(cmd: CmdClass) returns (r: Outcome)
      modifies this
      ensures cmd.identifier !in old(cmdCls) ==> r == Raised(InternalError) && cmdCls == old(cmdCls)
      ensures cmd.identifier in old(cmdCls) ==> r == Done && cmdCls == old(cmdCls) - {cmd.identifier}
    {
      if cmd.identifier !in cmdCls {
        return Raised(InternalError);
      }
      cmdCls := cmdCls - {cmd.identifier};
      r := Done;
    }

    method Serialize(s: Stream, msg: Py) returns (r: Outcome)
      modifies s
      ensures s.items == old(s.items) + CommandWrites(cmdCls, msg).0
      ensures r == CommandWrites(cmdCls, msg).1
    {
      if !msg.PDict? {
        return Raised(TypeError);
      }
      var d := msg.entries;
      if "user" !in d {
        return Raised(SerializationError);
      }
      s.AddElement(d["user"]);
      if "cmd" !in d {
        return Raised(SerializationError);
      }
      var cmd := d["cmd"];
      if !(cmd.PCmd? && cmd.cls.serializable) {
        return Raised(SerializationError);
      }
      if cmd.cls.identifier !in cmdCls {
        return Raised(SerializationError);
      }
      var cls := cmdCls[cmd.cls.identifier];
      if !IsInstance(cmd, cls) {
        return Raised(SerializationError);
      }
      s.AddIdentifier(cmd.cls.identifier, 1);
      s.AddCommand(cmd.state);
      r := Done;
    }
  }
}
