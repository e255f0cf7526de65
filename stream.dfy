/**
 * The serialization stream `s` the content serializers write to and read
 * from, as a FIFO of typed items: what addInt, addElement, addList and
 * addIdentifier push, the getters take back from the front in the same
 * order. A command's own serialize writes one opaque item.
 */
module Stream {
  import opened PyValues

  datatype Item =
    | IntItem(n: int)
    | ElementItem(e: Py)
    | ListItem(items: seq<Py>)
    | IdentifierItem(id: int, size: nat)
    | CommandItem(state: seq<Py>)

  class Stream {
    var items: seq<Item>

    constructor ()
      ensures items == []
    {
      items := [];
    }

    method AddInt(n: int)
      modifies this
      ensures items == old(items) + [IntItem(n)]
    {
      items := items + [IntItem(n)];
    }

    method AddElement(e: Py)
      modifies this
      ensures items == old(items) + [ElementItem(e)]
    {
      items := items + [ElementItem(e)];
    }

    method AddList(l: seq<Py>)
      modifies this
      ensures items == old(items) + [ListItem(l)]
    {
      items := items + [ListItem(l)];
    }

    method AddIdentifier(id: int, size: nat)
      modifies this
      ensures items == old(items) + [IdentifierItem(id, size)]
    {
      items := items + [IdentifierItem(id, size)];
    }

    /** What a command instance's own serialize(s) writes. */
    method AddCommand(state: seq<Py>)
      modifies this
      ensures items == old(items) + [CommandItem(state)]
    {
      items := items + [CommandItem(state)];
    }
  }

  /** getInt: the integer at the front and the rest of the stream. */
  function GetInt(items: seq<Item>): (r: Result<(int, seq<Item>)>)
    ensures r.Ok? <==> items != [] && items[0].IntItem?
    ensures r.Ok? ==> items == [IntItem(r.value.0)] + r.value.1
  {
    if items != [] && items[0].IntItem? then Ok((items[0].n, items[1..])) else Err(StreamUnderflow)
  }

  /** getElement */
  function GetElement(items: seq<Item>): (r: Result<(Py, seq<Item>)>)
    ensures r.Ok? <==> items != [] && items[0].ElementItem?
    ensures r.Ok? ==> items == [ElementItem(r.value.0)] + r.value.1
  {
    if items != [] && items[0].ElementItem? then Ok((items[0].e, items[1..])) else Err(StreamUnderflow)
  }

  /** getList */
  function GetList(items: seq<Item>): (r: Result<(seq<Py>, seq<Item>)>)
    ensures r.Ok? <==> items != [] && items[0].ListItem?
    ensures r.Ok? ==> items == [ListItem(r.value.0)] + r.value.1
  {
    if items != [] && items[0].ListItem? then Ok((items[0].items, items[1..])) else Err(StreamUnderflow)
  }

  /** getIdentifier(size) */
  function GetIdentifier(items: seq<Item>, size: nat): (r: Result<(int, seq<Item>)>)
    ensures r.Ok? <==> items != [] && items[0].IdentifierItem? && items[0].size == size
    ensures r.Ok? ==> items == [IdentifierItem(r.value.0, size)] + r.value.1
  {
    if items != [] && items[0].IdentifierItem? && items[0].size == size then Ok((items[0].id, items[1..]))
    else Err(StreamUnderflow)
  }

  /** A command class's deserialize(s): the state its instance wrote. */
  function GetCommand(items: seq<Item>): (r: Result<(seq<Py>, seq<Item>)>)
    ensures r.Ok? <==> items != [] && items[0].CommandItem?
    ensures r.Ok? ==> items == [CommandItem(r.value.0)] + r.value.1
  {
    if items != [] && items[0].CommandItem? then Ok((items[0].state, items[1..])) else Err(StreamUnderflow)
  }
}
