/** A fixed ten-element list and a cursor over it. */
module IteratorPattern {

  /** LENGTH. */
  const Size := 10

  /** The elements ConcreteList(t) is initialised with, in storage order. */
  function Pattern(t: int): (r: seq<int>)
    ensures |r| == Size
  {
    [t, t + 4, t - 3, t - 4, t + 5, t - 1, t + 5, t + 8, t - 2, t + 3]
  }

  class ConcreteList {
    const list: array<int>

    ghost predicate Valid()
      reads this
    {
      list.Length == Size
    }

    constructor (t: int)
      ensures Valid() && fresh(list) && list[..] == Pattern(t)
    {
      var p := Pattern(t);
      list := new int[Size](i requires 0 <= i < Size => p[i]);
      new;
      assert list[..] == p;
    }

    /** The fixed LENGTH of the array. */
    function Length(): (r: int)
      ensures r == 10
    {
      Size
    }

    /** `list[index]`, with no bounds check: the index must be in range. */
    function GetElement(index: int): (r: int)
      requires Valid() && 0 <= index < Length()
      reads this, list
    {
      list[index]
    }

    method GetIterator() returns (it: ConcreteIterator)
      ensures fresh(it) && it.list == this && it.index == 0
    {
      it := new ConcreteIterator(this);
    }
  }

  class ConcreteIterator {
    const list: ConcreteList
    var index: int

    constructor (l: ConcreteList)
      ensures list == l && index == 0
    {
      list := l;
      index := 0;
    }

    /** Whether there is an element at the cursor; the cursor stays. */
    function MoveNext(): (r: bool)
      reads this
      ensures r <==> index < Size
    {
      index < list.Length()
    }

    function CurrentItem(): int
      requires list.Valid() && 0 <= index < list.Length()
      reads this, list, list.list
    {
      list.GetElement(index)
    }

    method First()
      modifies this
      ensures index == 0
    {
      index := 0;
    }

    /** Moves on only while index < Length, so the cursor saturates. */
    method Next()
      modifies this
      ensures index == if old(index) < list.Length() then old(index) + 1 else old(index)
    {
      if index < list.Length() {
        index := index + 1;
      }
    }
  }

  /** main's loop: while MoveNext, print CurrentItem and call Next. It visits
      every element once, in storage order, and the cursor ends at the
      length. */
  method Traverse(t: int) returns (visited: seq<int>)
    ensures visited == Pattern(t)
  {
    var l := new ConcreteList(t);
    var it := l.GetIterator();
    visited := [];
    while it.MoveNext()
      invariant 0 <= it.index <= Size
      invariant visited == Pattern(t)[..it.index]
      invariant l.list[..] == Pattern(t)
      decreases Size - it.index
    {
      visited := visited + [it.CurrentItem()];
      it.Next();
    }
    assert Pattern(t)[..Size] == Pattern(t);
  }

  /** For t = 7 main prints 7, 11, 4, 3, 12, 6, 12, 15, 5, 10. */
  lemma MainOutput()
    ensures Pattern(7) == [7, 11, 4, 3, 12, 6, 12, 15, 5, 10]
  {
  }
}
