/**
 * The structured value of the C++ client's message codec (json_spirit with
 * its vector-backed Config): an object is an ordered list of name/value
 * members, a double is kept as an opaque token.
 */
module Json {

  datatype Value =
    | Null
    | Bool(b: bool)
    | Int(i: int)
    | Real(token: nat)
    | Str(s: string)
    | Arr(items: seq<Value>)
    | Obj(members: seq<Member>)

  datatype Member = Member(name: string, value: Value)

  predicate HasMember(members: seq<Member>, name: string)
  {
    exists i :: 0 <= i < |members| && members[i].name == name
  }

  /**
   * json_spirit::find_value on an object: the value of the FIRST member
   * with that name, or a null value when there is none.
   */
  function FindValue(members: seq<Member>, name: string): (v: Value)
    ensures !HasMember(members, name) ==> v == Null
    ensures HasMember(members, name) ==>
      exists i :: 0 <= i < |members| && members[i].name == name && v == members[i].value &&
        forall j :: 0 <= j < i ==> members[j].name != name
  {
    if |members| == 0 then Null
    else if members[0].name == name then members[0].value
    else
      var v := FindValue(members[1..], name);
      assert HasMember(members, name) ==> HasMember(members[1..], name) by {
        if HasMember(members, name) {
          var k :| 0 <= k < |members| && members[k].name == name;
          assert k != 0 && members[1..][k - 1].name == name;
        }
      }
      assert HasMember(members[1..], name) ==>
        exists i :: 0 <= i < |members| && members[i].name == name && v == members[i].value &&
          forall j :: 0 <= j < i ==> members[j].name != name by {
        if HasMember(members[1..], name) {
          var i :| 0 <= i < |members[1..]| && members[1..][i].name == name && v == members[1..][i].value &&
            forall j :: 0 <= j < i ==> members[1..][j].name != name;
          assert forall j :: 0 <= j < i + 1 ==> members[j].name != name by {
            forall j | 0 <= j < i + 1 ensures members[j].name != name {
              if j > 0 { assert members[j] == members[1..][j - 1]; }
            }
          }
        }
      }
      v
  }

  /** No two members share a name (what every object the client builds satisfies). */
  predicate DistinctNames(members: seq<Member>)
  {
    forall i, j :: 0 <= i < j < |members| ==> members[i].name != members[j].name
  }

  /** The member a lookup returns is the first one carrying the name, wherever it sits. */
  lemma FindValueFirst(members: seq<Member>, name: string, i: nat)
    requires i < |members| && members[i].name == name
    requires forall k :: 0 <= k < i ==> members[k].name != name
    ensures FindValue(members, name) == members[i].value
  {
    assert HasMember(members, name);
  }

  /** In an object without repeated names, find_value returns each member's own value. */
  lemma FindValueDistinct(members: seq<Member>)
    requires DistinctNames(members)
    ensures forall k :: 0 <= k < |members| ==> FindValue(members, members[k].name) == members[k].value
  {
    forall k | 0 <= k < |members| ensures FindValue(members, members[k].name) == members[k].value {
      assert HasMember(members, members[k].name);
    }
  }
}
