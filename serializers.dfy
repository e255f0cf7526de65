/**
 * The content serializers of the remote messages (ConnectDirective,
 * CommInfo, Request, Tag, ROSMsg): serialize pushes a fixed sequence of
 * items onto the stream, step by step, so a missing key leaves the items
 * already pushed in place; deserialize reads the same sequence back.
 */
module Serializers {
  import opened PyValues
  import opened Stream

  /** Inside a serializer's try block a KeyError becomes SerializationError; anything else propagates. */
  function Caught(e: PyError): PyError
  {
    if e == KeyError then SerializationError else e
  }

  // ---------------------------------------------------------------- ConnectDirective

  /** What one list element makes the loop body push: element[0], then element[1]. */
  function PairWrite(element: Py): (w: (seq<Item>, Outcome))
    ensures w.1 == Done ==> |w.0| == 2
    ensures w.1 == Done <==> Index(element, 0).Ok? && Index(element, 1).Ok?
    ensures element.PDict? ==> w == ([], Raised(SerializationError))
  {
    match Index(element, 0)
    case Err(e) => ([], Raised(Caught(e)))
    case Ok(a) =>
      match Index(element, 1)
      case Err(e) => ([ElementItem(a)], Raised(Caught(e)))
      case Ok(b) => ([ElementItem(a), ElementItem(b)], Done)
  }

  /** What the loop over the list pushes, up to the first element that raises. */
  function PairWrites(msg: seq<Py>): (seq<Item>, Outcome)
  {
    if msg == [] then ([], Done)
    else
      var first := PairWrite(msg[0]);
      if first.1 != Done then first
      else
        var rest := PairWrites(msg[1..]);
        (first.0 + rest.0, rest.1)
  }

  lemma {:induction false} PairWritesAppend(msg: seq<Py>, element: Py)
    requires PairWrites(msg).1 == Done
    ensures PairWrites(msg + [element]) == (PairWrites(msg).0 + PairWrite(element).0, PairWrite(element).1)
  {
    if msg == [] {
      assert msg + [element] == [element];
      assert [element][0] == element && [element][1..] == [];
      assert [] + PairWrite(element).0 == PairWrite(element).0;
      assert PairWrite(element).0 + [] == PairWrite(element).0;
    } else {
      assert (msg + [element])[0] == msg[0];
      assert (msg + [element])[1..] == msg[1..] + [element];
      PairWritesAppend(msg[1..], element);
      var first := PairWrite(msg[0]);
      assert first.1 == Done;
      assert PairWrites(msg + [element]).0 == first.0 + (PairWrites(msg[1..]).0 + PairWrite(element).0);
      assert first.0 + (PairWrites(msg[1..]).0 + PairWrite(element).0) == PairWrites(msg).0 + PairWrite(element).0;
    }
  }

  method SerializeConnectDirective(s: Stream, msg: seq<Py>) returns (r: Outcome)
    modifies s
    ensures s.items == old(s.items) + [IntItem(|msg|)] + PairWrites(msg).0
    ensures r == PairWrites(msg).1
  {
    s.AddInt(|msg|);
    var i := 0;
    while i < |msg|
      invariant 0 <= i <= |msg|
      invariant PairWrites(msg[..i]).1 == Done
      invariant s.items == old(s.items) + [IntItem(|msg|)] + PairWrites(msg[..i]).0
    {
      var element := msg[i];
      assert msg[..i + 1] == msg[..i] + [element];
      PairWritesAppend(msg[..i], element);
      var first := Index(element, 0);
      if first.Err? {
        r := Raised(Caught(first.error));
        assert msg[..i + 1] + msg[i + 1..] == msg;
        PairWritesPrefix(msg, i + 1);
        return;
      }
      s.AddElement(first.value);
      var second := Index(element, 1);
      if second.Err? {
        r := Raised(Caught(second.error));
        PairWritesPrefix(msg, i + 1);
        return;
      }
      s.AddElement(second.value);
      i := i + 1;
    }
    assert msg[..i] == msg;
    r := Done;
  }

  /** Once a prefix of the list raises, the rest of the list is never reached. */
  lemma {:induction false} PairWritesPrefix(msg: seq<Py>, n: nat)
    requires n <= |msg|
    requires PairWrites(msg[..n]).1 != Done
    ensures PairWrites(msg) == PairWrites(msg[..n])
  {
    if n == 0 {
    } else {
      assert msg[..n][0] == msg[0];
      assert msg[..n][1..] == msg[1..][..n - 1];
      if PairWrite(msg[0]).1 != Done {
      } else {
        PairWritesPrefix(msg[1..], n - 1);
      }
    }
  }

  /** The comprehension of the deserializer: n times a tuple of two elements. */
  function ReadPairs(items: seq<Item>, n: nat): (r: Result<(seq<Py>, seq<Item>)>)
    ensures r.Ok? ==> |r.value.0| == n
    ensures r.Ok? ==> forall p | p in r.value.0 :: p.PTuple? && |p.items| == 2
  {
    if n == 0 then Ok(([], items))
    else
      match GetElement(items)
      case Err(e) => Err(e)
      case Ok((a, afterA)) =>
        match GetElement(afterA)
        case Err(e) => Err(e)
        case Ok((b, afterB)) =>
          match ReadPairs(afterB, n - 1)
          case Err(e) => Err(e)
          case Ok((pairs, rest)) => Ok(([PTuple([a, b])] + pairs, rest))
  }

  /** deserialize: the count, then that many pairs (none for a negative count, as xrange gives). */
  function DeserializeConnectDirective(items: seq<Item>): (r: Result<(seq<Py>, seq<Item>)>)
    ensures r.Ok? ==> forall p | p in r.value.0 :: p.PTuple? && |p.items| == 2
  {
    match GetInt(items)
    case Err(e) => Err(e)
    case Ok((n, rest)) => ReadPairs(rest, if n < 0 then 0 else n)
  }

  /** The tuple the deserializer rebuilds from an element that could be indexed at 0 and 1. */
  function AsPair(element: Py): Py
    requires Index(element, 0).Ok? && Index(element, 1).Ok?
  {
    PTuple([Index(element, 0).value, Index(element, 1).value])
  }

  predicate Indexable(msg: seq<Py>)
  {
    forall e | e in msg :: Index(e, 0).Ok? && Index(e, 1).Ok?
  }

  function AsPairs(msg: seq<Py>): seq<Py>
    requires Indexable(msg)
  {
    if msg == [] then [] else
      assert msg[0] in msg;
      assert forall e | e in msg[1..] :: e in msg;
      [AsPair(msg[0])] + AsPairs(msg[1..])
  }

  lemma ReadPairsCons(a: Py, b: Py, tail: seq<Item>, n: nat)
    ensures ReadPairs([ElementItem(a), ElementItem(b)] + tail, n + 1)
         == match ReadPairs(tail, n)
            case Err(e) => Err(e)
            case Ok((pairs, rest)) => Ok(([PTuple([a, b])] + pairs, rest))
  {
    var items := [ElementItem(a), ElementItem(b)] + tail;
    assert items[0] == ElementItem(a);
    assert items[1..] == [ElementItem(b)] + tail;
    assert GetElement(items) == Ok((a, [ElementItem(b)] + tail));
    assert ([ElementItem(b)] + tail)[1..] == tail;
    assert GetElement([ElementItem(b)] + tail) == Ok((b, tail));
  }

  /** A list whose first element indexes at 0 and 1 writes that pair first, then the rest of the list. */
  lemma PairWritesHead(msg: seq<Py>)
    requires msg != [] && Index(msg[0], 0).Ok? && Index(msg[0], 1).Ok?
    ensures PairWrites(msg)
         == ([ElementItem(Index(msg[0], 0).value), ElementItem(Index(msg[0], 1).value)] + PairWrites(msg[1..]).0,
             PairWrites(msg[1..]).1)
  {
  }

  /** Reading a pair in front of a stream that reads back as `pairs` prepends that pair. */
  lemma ReadPairsPrepend(a: Py, b: Py, tail: seq<Item>, rest: seq<Item>, n: nat, pairs: seq<Py>)
    requires ReadPairs(tail + rest, n) == Ok((pairs, rest))
    ensures ReadPairs([ElementItem(a), ElementItem(b)] + tail + rest, n + 1) == Ok(([PTuple([a, b])] + pairs, rest))
  {
    assert [ElementItem(a), ElementItem(b)] + tail + rest == [ElementItem(a), ElementItem(b)] + (tail + rest);
    ReadPairsCons(a, b, tail + rest, n);
  }

  /** Every element indexable at 0 and 1: serialization succeeds and reading back gives the pairs, in order. */
  lemma {:induction false} ReadPairsRoundTrip(msg: seq<Py>, rest: seq<Item>)
    requires Indexable(msg)
    ensures PairWrites(msg).1 == Done
    ensures ReadPairs(PairWrites(msg).0 + rest, |msg|) == Ok((AsPairs(msg), rest))
  {
    if msg == [] {
      assert PairWrites(msg).0 + rest == rest;
    } else {
      assert msg[0] in msg;
      assert Indexable(msg[1..]) by {
        assert forall e | e in msg[1..] :: e in msg;
      }
      ReadPairsRoundTrip(msg[1..], rest);
      PairWritesHead(msg);
      ReadPairsPrepend(Index(msg[0], 0).value, Index(msg[0], 1).value, PairWrites(msg[1..]).0, rest, |msg| - 1, AsPairs(msg[1..]));
    }
  }

  /** A list of 2-tuples reads back as itself. */
  lemma {:induction false} AsPairsOfPairs(msg: seq<Py>)
    requires forall e | e in msg :: e.PTuple? && |e.items| == 2
    ensures Indexable(msg)
    ensures AsPairs(msg) == msg
  {
    if msg != [] {
      assert msg[0] in msg;
      assert forall e | e in msg[1..] :: e in msg;
      AsPairsOfPairs(msg[1..]);
      assert msg[0].items == [msg[0].items[0], msg[0].items[1]];
      assert msg == [msg[0]] + msg[1..];
    }
  }

  /** A non-negative count in front of the stream is the number of pairs the deserializer reads. */
  lemma DeserializeCount(n: nat, pairs: seq<Item>, rest: seq<Item>)
    ensures DeserializeConnectDirective([IntItem(n)] + pairs + rest) == ReadPairs(pairs + rest, n)
  {
    assert ([IntItem(n)] + pairs + rest)[1..] == pairs + rest;
  }

  /** A list of 2-tuples, as the directive is documented, survives the round trip unchanged. */
  lemma ConnectDirectiveRoundTrip(msg: seq<Py>, rest: seq<Item>)
    requires forall e | e in msg :: e.PTuple? && |e.items| == 2
    ensures PairWrites(msg).1 == Done
    ensures DeserializeConnectDirective([IntItem(|msg|)] + PairWrites(msg).0 + rest) == Ok((msg, rest))
  {
    AsPairsOfPairs(msg);
    ReadPairsRoundTrip(msg, rest);
    DeserializeCount(|msg|, PairWrites(msg).0, rest);
  }

  // ---------------------------------------------------------------- CommInfo

  method SerializeCommInfo(s: Stream, msg: Py)
    modifies s
    ensures s.items == old(s.items) + [ElementItem(msg)]
  {
    s.AddElement(msg);
  }

  function DeserializeCommInfo(items: seq<Item>): (r: Result<(Py, seq<Item>)>)
    ensures r.Ok? <==> items != [] && items[0].ElementItem?
    ensures r.Ok? ==> items == [ElementItem(r.value.0)] + r.value.1
  {
    GetElement(items)
  }

  // ---------------------------------------------------------------- keyed contents

  /** The elements pushed for `msg[k]`, k over the keys in order, up to the first missing key. */
  function FieldWrites(d: map<string, Py>, keys: seq<string>): (w: (seq<Item>, Outcome))
    ensures w.1 == Done || w.1 == Raised(SerializationError)
  {
    if keys == [] then ([], Done)
    else if keys[0] !in d then ([], Raised(SerializationError))
    else
      var rest := FieldWrites(d, keys[1..]);
      ([ElementItem(d[keys[0]])] + rest.0, rest.1)
  }

  /** The content's values for the keys, in order. */
  function Values(d: map<string, Py>, keys: seq<string>): seq<Py>
    requires forall k | k in keys :: k in d
  {
    if keys == [] then [] else
      assert keys[0] in keys;
      assert forall k | k in keys[1..] :: k in keys;
      [d[keys[0]]] + Values(d, keys[1..])
  }

  /** n successive getElement calls. */
  function ReadElements(items: seq<Item>, n: nat): (r: Result<(seq<Py>, seq<Item>)>)
    ensures r.Ok? ==> |r.value.0| == n
  {
    if n == 0 then Ok(([], items))
    else
      match GetElement(items)
      case Err(e) => Err(e)
      case Ok((v, after)) =>
        match ReadElements(after, n - 1)
        case Err(e) => Err(e)
        case Ok((vs, rest)) => Ok(([v] + vs, rest))
  }

  /** Writing keyed elements raises exactly when a key is missing, and then SerializationError. */
  lemma {:induction false} FieldWritesFail(d: map<string, Py>, keys: seq<string>)
    ensures FieldWrites(d, keys).1 == Done <==> forall k | k in keys :: k in d
  {
    if keys != [] {
      FieldWritesFail(d, keys[1..]);
      assert forall k | k in keys :: k == keys[0] || k in keys[1..];
    }
  }

  /** Reading back as many elements as were written returns the values, in key order. */
  lemma {:induction false} FieldsRoundTrip(d: map<string, Py>, keys: seq<string>, rest: seq<Item>)
    requires forall k | k in keys :: k in d
    ensures ReadElements(FieldWrites(d, keys).0 + rest, |keys|) == Ok((Values(d, keys), rest))
  {
    if keys == [] {
      assert FieldWrites(d, keys).0 + rest == rest;
    } else {
      assert forall k | k in keys[1..] :: k in keys;
      FieldsRoundTrip(d, keys[1..], rest);
      assert keys[0] in keys;
      var after := FieldWrites(d, keys[1..]).0 + rest;
      var items := FieldWrites(d, keys).0 + rest;
      assert items == [ElementItem(d[keys[0]])] + after;
      assert items[1..] == after;
      assert GetElement(items) == Ok((d[keys[0]], after));
      assert ReadElements(after, |keys| - 1) == Ok((Values(d, keys[1..]), rest));
      assert Values(d, keys) == [d[keys[0]]] + Values(d, keys[1..]);
      assert ReadElements(items, |keys|) == Ok(([d[keys[0]]] + Values(d, keys[1..]), rest));
    }
  }

  // ---------------------------------------------------------------- Request, Tag, ROSMsg keys

  const REQUEST_KEYS: seq<string> := ["user", "type"]
  const TAG_KEYS: seq<string> := ["user", "tag", "type"]
  const ROS_MSG_KEYS: seq<string> := ["msg", "destTag", "srcTag", "msgID", "user"]
  /** One step of FieldWrites, on a key list written as a head and a tail. */
  lemma FieldWritesCons(d: map<string, Py>, k: string, more: seq<string>)
    ensures FieldWrites(d, [k] + more)
         == if k !in d then ([], Raised(SerializationError))
            else ([ElementItem(d[k])] + FieldWrites(d, more).0, FieldWrites(d, more).1)
  {
    assert ([k] + more)[0] == k;
    assert ([k] + more)[1..] == more;
  }

  // ---------------------------------------------------------------- Request

  /** Request pushes user, then type, and stops at the first of them missing. */
  lemma RequestFieldOrder(d: map<string, Py>)
    ensures FieldWrites(d, REQUEST_KEYS)
         == if "user" !in d then ([], Raised(SerializationError))
            else if "type" !in d then ([ElementItem(d["user"])], Raised(SerializationError))
            else ([ElementItem(d["user"]), ElementItem(d["type"])], Done)
  {
    assert REQUEST_KEYS == ["user"] + ["type"];
    assert ["type"] == ["type"] + [];
    FieldWritesCons(d, "user", ["type"]);
    FieldWritesCons(d, "type", []);
    assert FieldWrites(d, []) == ([], Done);
    if "user" in d {
      var u := ElementItem(d["user"]);
      if "type" in d {
        var y := ElementItem(d["type"]);
        assert [u] + ([y] + []) == [u, y];
      } else {
        assert [u] + [] == [u];
      }
    }
  }

  predicate IsSequence(p: Py)
  {
    p.PList? || p.PTuple?
  }

  /** What Request's serialize pushes and how it ends. */
  function RequestWrites(msg: Py): (seq<Item>, Outcome)
    requires msg.PDict? && "args" in msg.entries ==> IsSequence(msg.entries["args"])
  {
    if !msg.PDict? then ([], Raised(SerializationError))
    else
      var fields := FieldWrites(msg.entries, REQUEST_KEYS);
      if fields.1 != Done then fields
      else if "args" !in msg.entries then (fields.0, Raised(SerializationError))
      else (fields.0 + [ListItem(msg.entries["args"].items)], Done)
  }

  method SerializeRequest(s: Stream, msg: Py) returns (r: Outcome)
    requires msg.PDict? && "args" in msg.entries ==> IsSequence(msg.entries["args"])
    modifies s
    ensures s.items == old(s.items) + RequestWrites(msg).0
    ensures r == RequestWrites(msg).1
  {
    if !msg.PDict? {
      return Raised(SerializationError);
    }
    var d := msg.entries;
    RequestFieldOrder(d);
    if "user" !in d {
      return Raised(SerializationError);
    }
    s.AddElement(d["user"]);
    if "type" !in d {
      return Raised(SerializationError);
    }
    s.AddElement(d["type"]);
    if "args" !in d {
      return Raised(SerializationError);
    }
    s.AddList(d["args"].items);
    r := Done;
  }

  function DeserializeRequest(items: seq<Item>): (r: Result<(Py, seq<Item>)>)
    ensures r.Ok? ==> r.value.0.PDict? && r.value.0.entries.Keys == {"user", "type", "args"}
    ensures r.Ok? ==> r.value.0.entries["args"].PTuple?
  {
    match ReadElements(items, 2)
    case Err(e) => Err(e)
    case Ok((vs, afterVs)) =>
      match GetList(afterVs)
      case Err(e) => Err(e)
      case Ok((args, rest)) =>
        Ok((PDict(map["user" := vs[0], "type" := vs[1], "args" := PTuple(args)]), rest))
  }

  /** Request rejects exactly the non-dict content and the content missing user, type or args, with SerializationError. */
  lemma RequestRejects(msg: Py)
    requires msg.PDict? && "args" in msg.entries ==> IsSequence(msg.entries["args"])
    ensures RequestWrites(msg).1 == Done <==> msg.PDict? && {"user", "type", "args"} <= msg.entries.Keys
    ensures RequestWrites(msg).1 != Done ==> RequestWrites(msg).1 == Raised(SerializationError)
  {
    if msg.PDict? {
      FieldWritesFail(msg.entries, REQUEST_KEYS);
      assert forall k | k in REQUEST_KEYS :: k == "user" || k == "type";
    }
  }

  /** The round trip keeps user and type and returns args as a tuple of the same elements. */
  lemma RequestRoundTrip(msg: Py, rest: seq<Item>)
    requires msg.PDict? && {"user", "type", "args"} <= msg.entries.Keys
    requires IsSequence(msg.entries["args"])
    ensures RequestWrites(msg).1 == Done
    ensures DeserializeRequest(RequestWrites(msg).0 + rest)
         == Ok((PDict(map["user" := msg.entries["user"], "type" := msg.entries["type"],
                          "args" := PTuple(msg.entries["args"].items)]), rest))
  {
    var d := msg.entries;
    RequestFieldOrder(d);
    var tail := [ListItem(d["args"].items)] + rest;
    FieldsRoundTrip(d, REQUEST_KEYS, tail);
    assert RequestWrites(msg).0 + rest == FieldWrites(d, REQUEST_KEYS).0 + tail;
    assert REQUEST_KEYS[1..] == ["type"] && REQUEST_KEYS[1..][1..] == [];
    assert Values(d, REQUEST_KEYS) == [d["user"], d["type"]];
  }

  // ---------------------------------------------------------------- Tag

  /** Tag pushes user, tag, type in that order and stops at the first of them missing. */
  lemma TagFieldOrder(d: map<string, Py>)
    ensures FieldWrites(d, TAG_KEYS)
         == if "user" !in d then ([], Raised(SerializationError))
            else if "tag" !in d then ([ElementItem(d["user"])], Raised(SerializationError))
            else if "type" !in d then ([ElementItem(d["user"]), ElementItem(d["tag"])], Raised(SerializationError))
            else ([ElementItem(d["user"]), ElementItem(d["tag"]), ElementItem(d["type"])], Done)
  {
    assert TAG_KEYS == ["user"] + ["tag", "type"];
    assert ["tag", "type"] == ["tag"] + ["type"];
    assert ["type"] == ["type"] + [];
    FieldWritesCons(d, "user", ["tag", "type"]);
    FieldWritesCons(d, "tag", ["type"]);
    FieldWritesCons(d, "type", []);
    assert FieldWrites(d, []) == ([], Done);
    if "user" in d {
      var u := ElementItem(d["user"]);
      if "tag" in d {
        var t := ElementItem(d["tag"]);
        if "type" in d {
          var y := ElementItem(d["type"]);
          assert [u] + ([t] + ([y] + [])) == [u, t, y];
        } else {
          assert [u] + ([t] + []) == [u, t];
        }
      } else {
        assert [u] + [] == [u];
      }
    }
  }

  /** What Tag's serialize pushes and how it ends. */
  function TagWrites(msg: Py): (seq<Item>, Outcome)
  {
    if !msg.PDict? then ([], Raised(SerializationError)) else FieldWrites(msg.entries, TAG_KEYS)
  }

  method SerializeTag(s: Stream, msg: Py) returns (r: Outcome)
    modifies s
    ensures s.items == old(s.items) + TagWrites(msg).0
    ensures r == TagWrites(msg).1
  {
    if !msg.PDict? {
      return Raised(SerializationError);
    }
    var d := msg.entries;
    TagFieldOrder(d);
    if "user" !in d {
      return Raised(SerializationError);
    }
    s.AddElement(d["user"]);
    if "tag" !in d {
      return Raised(SerializationError);
    }
    s.AddElement(d["tag"]);
    if "type" !in d {
      return Raised(SerializationError);
    }
    s.AddElement(d["type"]);
    r := Done;
  }

  function DeserializeTag(items: seq<Item>): (r: Result<(Py, seq<Item>)>)
    ensures r.Ok? ==> r.value.0.PDict? && r.value.0.entries.Keys == {"user", "tag", "type"}
  {
    match ReadElements(items, 3)
    case Err(e) => Err(e)
    case Ok((vs, rest)) => Ok((PDict(map["user" := vs[0], "tag" := vs[1], "type" := vs[2]]), rest))
  }

  /** Tag rejects exactly the non-dict content and the content missing user, tag or type. */
  lemma TagRejects(msg: Py)
    ensures TagWrites(msg).1 == Done <==> msg.PDict? && {"user", "tag", "type"} <= msg.entries.Keys
    ensures TagWrites(msg).1 != Done ==> TagWrites(msg).1 == Raised(SerializationError)
  {
    if msg.PDict? {
      FieldWritesFail(msg.entries, TAG_KEYS);
      assert forall k | k in TAG_KEYS :: k == "user" || k == "tag" || k == "type";
    }
  }

  /** The round trip returns user, tag and type, in that order on the stream. */
  lemma TagRoundTrip(msg: Py, rest: seq<Item>)
    requires msg.PDict? && {"user", "tag", "type"} <= msg.entries.Keys
    ensures TagWrites(msg).0 == [ElementItem(msg.entries["user"]), ElementItem(msg.entries["tag"]), ElementItem(msg.entries["type"])]
    ensures DeserializeTag(TagWrites(msg).0 + rest)
         == Ok((PDict(map["user" := msg.entries["user"], "tag" := msg.entries["tag"], "type" := msg.entries["type"]]), rest))
  {
    var d := msg.entries;
    TagFieldOrder(d);
    FieldsRoundTrip(d, TAG_KEYS, rest);
    assert TAG_KEYS[1..] == ["tag", "type"] && TAG_KEYS[1..][1..] == ["type"] && TAG_KEYS[1..][1..][1..] == [];
    assert Values(d, ["type"]) == [d["type"]];
    assert Values(d, ["tag", "type"]) == [d["tag"], d["type"]];
    assert Values(d, TAG_KEYS) == [d["user"], d["tag"], d["type"]];
  }

  // ---------------------------------------------------------------- ROSMsg

  /** ROSMsg pushes msg, destTag, srcTag, msgID, user in that order and stops at the first of them missing. */
  lemma RosMsgFieldOrder(d: map<string, Py>)
    ensures FieldWrites(d, ROS_MSG_KEYS)
         == if "msg" !in d then ([], Raised(SerializationError))
            else if "destTag" !in d then ([ElementItem(d["msg"])], Raised(SerializationError))
            else if "srcTag" !in d then ([ElementItem(d["msg"]), ElementItem(d["destTag"])], Raised(SerializationError))
            else if "msgID" !in d then
              ([ElementItem(d["msg"]), ElementItem(d["destTag"]), ElementItem(d["srcTag"])], Raised(SerializationError))
            else if "user" !in d then
              ([ElementItem(d["msg"]), ElementItem(d["destTag"]), ElementItem(d["srcTag"]), ElementItem(d["msgID"])],
               Raised(SerializationError))
            else
              ([ElementItem(d["msg"]), ElementItem(d["destTag"]), ElementItem(d["srcTag"]), ElementItem(d["msgID"]),
                ElementItem(d["user"])], Done)
  {
    assert ROS_MSG_KEYS == ["msg"] + ["destTag", "srcTag", "msgID", "user"];
    assert ["destTag", "srcTag", "msgID", "user"] == ["destTag"] + ["srcTag", "msgID", "user"];
    assert ["srcTag", "msgID", "user"] == ["srcTag"] + ["msgID", "user"];
    assert ["msgID", "user"] == ["msgID"] + ["user"];
    assert ["user"] == ["user"] + [];
    FieldWritesCons(d, "msg", ["destTag", "srcTag", "msgID", "user"]);
    FieldWritesCons(d, "destTag", ["srcTag", "msgID", "user"]);
    FieldWritesCons(d, "srcTag", ["msgID", "user"]);
    FieldWritesCons(d, "msgID", ["user"]);
    FieldWritesCons(d, "user", []);
    assert FieldWrites(d, []) == ([], Done);
    if "msg" in d {
      var m := ElementItem(d["msg"]);
      if "destTag" in d {
        var dt := ElementItem(d["destTag"]);
        if "srcTag" in d {
          var st := ElementItem(d["srcTag"]);
          if "msgID" in d {
            var id := ElementItem(d["msgID"]);
            if "user" in d {
              var u := ElementItem(d["user"]);
              assert [m] + ([dt] + ([st] + ([id] + ([u] + [])))) == [m, dt, st, id, u];
            } else {
              assert [m] + ([dt] + ([st] + ([id] + []))) == [m, dt, st, id];
            }
          } else {
            assert [m] + ([dt] + ([st] + [])) == [m, dt, st];
          }
        } else {
          assert [m] + ([dt] + []) == [m, dt];
        }
      } else {
        assert [m] + [] == [m];
      }
    }
  }

  /** What ROSMsg's serialize pushes and how it ends. */
  function RosMsgWrites(msg: Py): (seq<Item>, Outcome)
  {
    if !msg.PDict? then ([], Raised(SerializationError)) else FieldWrites(msg.entries, ROS_MSG_KEYS)
  }

  method SerializeRosMsg(s: Stream, msg: Py) returns (r: Outcome)
    modifies s
    ensures s.items == old(s.items) + RosMsgWrites(msg).0
    ensures r == RosMsgWrites(msg).1
  {
    if !msg.PDict? {
      return Raised(SerializationError);
    }
    var d := msg.entries;
    RosMsgFieldOrder(d);
    if "msg" !in d {
      return Raised(SerializationError);
    }
    s.AddElement(d["msg"]);
    if "destTag" !in d {
      return Raised(SerializationError);
    }
    s.AddElement(d["destTag"]);
    if "srcTag" !in d {
      return Raised(SerializationError);
    }
    s.AddElement(d["srcTag"]);
    if "msgID" !in d {
      return Raised(SerializationError);
    }
    s.AddElement(d["msgID"]);
    if "user" !in d {
      return Raised(SerializationError);
    }
    s.AddElement(d["user"]);
    r := Done;
  }

  function DeserializeRosMsg(items: seq<Item>): (r: Result<(Py, seq<Item>)>)
    ensures r.Ok? ==> r.value.0.PDict? && r.value.0.entries.Keys == {"msg", "destTag", "srcTag", "msgID", "user"}
  {
    match ReadElements(items, 5)
    case Err(e) => Err(e)
    case Ok((vs, rest)) =>
      Ok((PDict(map["msg" := vs[0], "destTag" := vs[1], "srcTag" := vs[2], "msgID" := vs[3], "user" := vs[4]]), rest))
  }

  /** ROSMsg rejects exactly the non-dict content and the content missing one of its five keys. */
  lemma RosMsgRejects(msg: Py)
    ensures RosMsgWrites(msg).1 == Done <==> msg.PDict? && {"msg", "destTag", "srcTag", "msgID", "user"} <= msg.entries.Keys
    ensures RosMsgWrites(msg).1 != Done ==> RosMsgWrites(msg).1 == Raised(SerializationError)
  {
    if msg.PDict? {
      FieldWritesFail(msg.entries, ROS_MSG_KEYS);
      assert forall k | k in ROS_MSG_KEYS :: k == "msg" || k == "destTag" || k == "srcTag" || k == "msgID" || k == "user";
    }
  }

  /** The round trip returns the five fields, written in the fixed order msg, destTag, srcTag, msgID, user. */
  lemma RosMsgRoundTrip(msg: Py, rest: seq<Item>)
    requires msg.PDict? && {"msg", "destTag", "srcTag", "msgID", "user"} <= msg.entries.Keys
    ensures RosMsgWrites(msg).0
         == [ElementItem(msg.entries["msg"]), ElementItem(msg.entries["destTag"]), ElementItem(msg.entries["srcTag"]),
             ElementItem(msg.entries["msgID"]), ElementItem(msg.entries["user"])]
    ensures DeserializeRosMsg(RosMsgWrites(msg).0 + rest)
         == Ok((PDict(map["msg" := msg.entries["msg"], "destTag" := msg.entries["destTag"], "srcTag" := msg.entries["srcTag"],
                          "msgID" := msg.entries["msgID"], "user" := msg.entries["user"]]), rest))
  {
    var d := msg.entries;
    RosMsgFieldOrder(d);
    FieldsRoundTrip(d, ROS_MSG_KEYS, rest);
    assert ROS_MSG_KEYS[1..] == ["destTag", "srcTag", "msgID", "user"];
    assert ROS_MSG_KEYS[1..][1..] == ["srcTag", "msgID", "user"];
    assert ROS_MSG_KEYS[1..][1..][1..] == ["msgID", "user"];
    assert ROS_MSG_KEYS[1..][1..][1..][1..] == ["user"];
    assert ROS_MSG_KEYS[1..][1..][1..][1..][1..] == [];
    assert Values(d, ["user"]) == [d["user"]];
    assert Values(d, ["msgID", "user"]) == [d["msgID"], d["user"]];
    assert Values(d, ["srcTag", "msgID", "user"]) == [d["srcTag"], d["msgID"], d["user"]];
    assert Values(d, ["destTag", "srcTag", "msgID", "user"]) == [d["destTag"], d["srcTag"], d["msgID"], d["user"]];
    assert Values(d, ROS_MSG_KEYS) == [d["msg"], d["destTag"], d["srcTag"], d["msgID"], d["user"]];
  }
}
