/** `caf::message`: a fixed-length, type-erased tuple behind a
    copy-on-write pointer. Elements are (type ID, value) pairs; the pointer
    is null for the default message, and the pointee carries the reference
    count that decides whether a write must copy first. */
module Messages {

  /** One element of a message: its type ID and its value. */
  datatype Element<V> = Element(typeId: nat, value: V)

  /** An argument of `matches`: `std::ignore` or a typed value. */
  datatype Pattern<V> = Ignore | Exactly(typeId: nat, value: V)

  /** The type ID list of a sequence of elements. */
  function TypesOf<V>(es: seq<Element<V>>): (r: seq<nat>)
    ensures |r| == |es|
    ensures forall i :: 0 <= i < |es| ==> r[i] == es[i].typeId
  {
    if |es| == 0 then [] else [es[0].typeId] + TypesOf(es[1..])
  }

  /** `matches_at<Pos>(value)`: a wildcard matches anything, a value matches
      an element of the same type that compares equal. */
  predicate MatchAt<V(==)>(e: Element<V>, p: Pattern<V>)
  {
    match p
    case Ignore => true
    case Exactly(t, v) => e.typeId == t && e.value == v
  }

  /** The fold `(matches_at<Is>(values) && ...)`. */
  function MatchesPrefix<V(==)>(es: seq<Element<V>>, pats: seq<Pattern<V>>): (r: bool)
    requires |pats| <= |es|
    ensures r <==> forall i :: 0 <= i < |pats| ==> MatchAt(es[i], pats[i])
  {
    if |pats| == 0 then true
    else MatchAt(es[0], pats[0]) && MatchesPrefix(es[1..], pats[1..])
  }

  /** `detail::message_data`: the elements and the reference count. */
  class MessageData<V> {
    var elements: seq<Element<V>>
    var refCount: nat

    /** A freshly built block holds one reference. */
    constructor(es: seq<Element<V>>)
      ensures elements == es && refCount == 1
    {
      elements := es;
      refCount := 1;
    }
  }

  class Message<V(==)> {
    /** `data_`, an `intrusive_cow_ptr<message_data>`. */
    var data: MessageData?<V>

    /** A non-null pointer holds at least the reference of this message. */
    predicate Valid()
      reads this, data
    {
      data != null ==> data.refCount >= 1
    }

    /** The elements, none for the null pointer. */
    function Contents(): seq<Element<V>>
      reads this, data
    {
      if data == null then [] else data.elements
    }

    /** `message()`: the null pointer. */
    constructor Default()
      ensures data == null
    {
      data := null;
    }

    /** `message(data_ptr)`: takes over the reference that the given
        pointer already holds, without adding one. */
    constructor Adopt(d: MessageData?<V>)
      requires d != null ==> d.refCount >= 1
      ensures data == d && Valid()
    {
      data := d;
    }

    /** `message(const message&)`: shares the other message's data and adds
        a reference to it. */
    constructor Share(other: Message<V>)
      requires other.Valid()
      modifies other.data
      ensures data == other.data && Valid()
      ensures Contents() == other.Contents() == old(other.Contents())
      ensures other.data != null ==> other.data.refCount == old(other.data.refCount) + 1
    {
      data := other.data;
      new;
      if data != null {
        data.refCount := data.refCount + 1;
      }
    }

    // -- properties -----------------------------------------------------------

    /** `types()`: the type IDs of the elements, the empty list for null. */
    function Types(): (r: seq<nat>)
      reads this, data
      ensures |r| == |Contents()|
      ensures forall i :: 0 <= i < |r| ==> r[i] == Contents()[i].typeId
    {
      if data == null then [] else TypesOf(data.elements)
    }

    /** `size()`. */
    function Size(): (r: nat)
      reads this, data
      ensures r == |Types()| && r == |Contents()|
    {
      |Types()|
    }

    /** `empty()`. */
    predicate Empty()
      reads this, data
      ensures Empty() <==> |Contents()| == 0
    {
      Size() == 0
    }

    /** `operator bool`: whether the pointer is set. A message without
        data has no elements. */
    predicate IsSet()
      reads this, data
      ensures !IsSet() ==> Size() == 0 && Types() == []
    {
      data != null
    }

    /** `match_elements<Ts...>()`: the type list is exactly `ts`. */
    predicate MatchElements(ts: seq<nat>)
      reads this, data
      ensures MatchElements(ts) <==>
        |ts| == |Contents()| && forall i :: 0 <= i < |ts| ==> ts[i] == Contents()[i].typeId
    {
      Types() == ts
    }

    /** `type_at(index)`. */
    function TypeAt(index: nat): (r: nat)
      requires index < Size()
      reads this, data
      ensures r == Contents()[index].typeId
    {
      Types()[index]
    }

    /** `match_element<T>(index)`. */
    predicate MatchElement(index: nat, t: nat)
      requires index < Size()
      reads this, data
      ensures MatchElement(index, t) <==> Contents()[index].typeId == t
    {
      TypeAt(index) == t
    }

    /** `matches(values...)`: every position holds a wildcard or an element
        of the value's type that compares equal to it. */
    predicate Matches(pats: seq<Pattern<V>>)
      requires |pats| <= Size()
      reads this, data
      ensures Matches(pats) <==> forall i :: 0 <= i < |pats| ==>
        pats[i].Ignore? || (MatchElement(i, pats[i].typeId) && Contents()[i].value == pats[i].value)
    {
      MatchesPrefix(Contents(), pats)
    }

    // -- modifiers ------------------------------------------------------------

    /** `swap(other)`: exchanges the two pointers. */
    method Swap(other: Message<V>)
      modifies this, other
      ensures data == old(other.data) && other.data == old(data)
    {
      var tmp := data;
      data := other.data;
      other.data := tmp;
    }

    /** `reset(new_ptr, add_ref)`: takes `newPtr`, adding a reference when
        `addRef` holds, and releases the reference on the old data. A
        pointer adopted without `addRef` brings along a reference of its
        own, besides this message's when it is the current data. Neither
        block's elements change, so other holders see what they saw. */
    method Reset(newPtr: MessageData?<V>, addRef: bool)
      requires Valid()
      requires newPtr != null && !addRef ==> newPtr.refCount >= (if newPtr == data then 2 else 1)
      modifies this, data, newPtr
      ensures data == newPtr && Valid()
      ensures old(data) != null ==> old(data).elements == old(data.elements)
      ensures newPtr != null ==> newPtr.elements == old(newPtr.elements)
      ensures Contents() == (if newPtr == null then [] else old(newPtr.elements))
      ensures newPtr != null && newPtr != old(data) ==>
        newPtr.refCount == old(newPtr.refCount) + (if addRef then 1 else 0)
      ensures old(data) != null && newPtr != old(data) ==> old(data).refCount == old(data.refCount) - 1
      ensures newPtr != null && newPtr == old(data) ==>
        newPtr.refCount == old(newPtr.refCount) + (if addRef then 1 else 0) - 1
    {
      var previous := data;
      if newPtr != null && addRef {
        newPtr.refCount := newPtr.refCount + 1;
      }
      data := newPtr;
      if previous != null {
        previous.refCount := previous.refCount - 1;
      }
    }

    /** `force_unshare()`: copies the data when another reference to it
        exists, releasing that reference, so that this message is then the
        only owner of what it holds. */
    method ForceUnshare()
      requires Valid()
      modifies this, data
      ensures Valid() && Contents() == old(Contents())
      ensures old(data) == null ==> data == null
      ensures old(data) != null && old(data.refCount) != 1 ==>
        && fresh(data) && data.refCount == 1
        && old(data).refCount == old(data.refCount) - 1
        && old(data).elements == old(data.elements)
      ensures old(data) != null && old(data.refCount) == 1 ==> data == old(data) && unchanged(data)
    {
      if data != null && data.refCount != 1 {
        var copy := new MessageData(data.elements);
        data.refCount := data.refCount - 1;
        data := copy;
      }
    }

    /** `get_mutable_as<T>(index) = v`: unshares, then overwrites the
        element in place. Data that another message still references is left
        as it was. */
    method SetAt(index: nat, t: nat, v: V)
      requires Valid() && index < Size() && MatchElement(index, t)
      modifies this, data
      ensures Valid() && Contents() == old(Contents())[index := Element(t, v)]
      ensures old(data.refCount) != 1 ==>
        && fresh(data) && data.refCount == 1
        && old(data).elements == old(data.elements)
        && old(data).refCount == old(data.refCount) - 1
      ensures old(data.refCount) == 1 ==> data == old(data)
    {
      ForceUnshare();
      data.elements := data.elements[index := Element(t, v)];
    }
  }

  // -- related non-members ----------------------------------------------------

  /** `make_message()`: the default message, with no type list, size 0,
      `empty()` true and no data. */
  method MakeEmptyMessage<V(==)>() returns (m: Message<V>)
    ensures m.Types() == [] && m.Size() == 0 && m.Empty() && !m.IsSet()
  {
    m := new Message.Default();
  }

  /** `make_message(xs...)`: a fresh data block adopted without adding a
      reference. */
  method MakeMessage<V(==)>(es: seq<Element<V>>) returns (m: Message<V>)
    ensures fresh(m) && fresh(m.data)
    ensures m.Valid() && m.data != null && m.data.refCount == 1
    ensures m.Contents() == es && m.Types() == TypesOf(es)
  {
    var d := new MessageData(es);
    m := new Message.Adopt(d);
  }

  /** Copy-on-write: a copy of a message shares its data; writing through
      the copy leaves the original's contents as they were. */
  method CopyOnWriteExample<V(==)>(a: V, b: V) returns (original: seq<Element<V>>, copied: seq<Element<V>>)
    ensures original == [Element(7, a)]
    ensures copied == [Element(7, b)]
  {
    var m1 := MakeMessage([Element(7, a)]);
    var m2 := new Message.Share(m1);
    assert m2.data == m1.data && m1.data.refCount == 2;
    m2.SetAt(0, 7, b);
    original := m1.Contents();
    copied := m2.Contents();
  }

  /** Resetting one of two messages that share their data leaves the other
      message's contents as they were and drops one reference. */
  method ResetSharedExample<V(==)>(a: V) returns (kept: seq<Element<V>>, refs: nat, cleared: seq<Element<V>>)
    ensures kept == [Element(5, a)]
    ensures refs == 1
    ensures cleared == []
  {
    var m1 := MakeMessage([Element(5, a)]);
    var m2 := new Message.Share(m1);
    m1.Reset(null, true);
    kept := m2.Contents();
    refs := m2.data.refCount;
    cleared := m1.Contents();
  }

  /** Writing into a message that is the only owner of its data happens in
      place, without a copy. */
  method WriteInPlaceExample<V(==)>(a: V, b: V) returns (sameBlock: bool, contents: seq<Element<V>>)
    ensures sameBlock
    ensures contents == [Element(3, b), Element(4, a)]
  {
    var m := MakeMessage([Element(3, a), Element(4, a)]);
    var before := m.data;
    m.SetAt(0, 3, b);
    sameBlock := m.data == before;
    contents := m.Contents();
  }

  /** `matches` with a wildcard: (1, x) matches `(ignore, x)` and `(1, x)`
      but not `(2, x)`. */
  lemma MatchesExamples<V>(x: V)
    ensures MatchesPrefix([Element(1, x), Element(2, x)], [Ignore, Exactly(2, x)])
    ensures MatchesPrefix([Element(1, x), Element(2, x)], [Exactly(1, x)])
    ensures !MatchesPrefix([Element(1, x), Element(2, x)], [Exactly(2, x)])
  {
  }
}
