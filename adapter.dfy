/** A stack adapted from a vector: push_back, back and pop_back behind
    Push, Peek and Pop. */
module AdapterPattern {

  /** What Pop returns and leaves: the top and the rest, or, on an empty
      stack, the value NULL converts to. */
  function Popped<T>(s: seq<T>, nullValue: T): (T, seq<T>) {
    if |s| == 0 then (nullValue, s) else (s[|s| - 1], s[..|s| - 1])
  }

  class AdapterStack<T> {
    var vec: seq<T>
    /** NULL converted to T: 0 for the int stack of main. */
    const nullValue: T

    constructor (nullValue: T)
      ensures vec == [] && this.nullValue == nullValue
    {
      vec := [];
      this.nullValue := nullValue;
    }

    method Push(item: T)
      modifies this
      ensures vec == old(vec) + [item]
    {
      vec := vec + [item];
    }

    /** `*(vec.end() - 1)`: undefined on an empty vector. */
    method Peek() returns (t: T)
      requires |vec| > 0
      ensures t == vec[|vec| - 1]
    {
      t := vec[|vec| - 1];
    }

    method Pop() returns (t: T)
      modifies this
      ensures (t, vec) == Popped(old(vec), nullValue)
    {
      if |vec| == 0 {
        return nullValue;
      }
      t := Peek();
      vec := vec[..|vec| - 1];
    }
  }

  /** Pop undoes Push: it returns the item and restores the previous
      stack. */
  lemma PopAfterPush<T>(s: seq<T>, x: T, nullValue: T)
    ensures Popped(s + [x], nullValue) == (x, s)
  {
    assert (s + [x])[..|s|] == s;
  }

  /** Pop on an empty stack returns the null value and leaves it empty. */
  lemma PopEmpty<T>(nullValue: T)
    ensures Popped([], nullValue) == (nullValue, [])
  {
  }

  /** The items k successive Pop calls return, and the stack they leave. */
  function PopMany<T>(s: seq<T>, nullValue: T, k: nat): (seq<T>, seq<T>)
    decreases k
  {
    if k == 0 then ([], s)
    else
      var (t, rest) := Popped(s, nullValue);
      var (ts, left) := PopMany(rest, nullValue, k - 1);
      ([t] + ts, left)
  }

  function Reverse<T>(s: seq<T>): (r: seq<T>)
    ensures |r| == |s|
    ensures forall i :: 0 <= i < |s| ==> r[i] == s[|s| - 1 - i]
  {
    if |s| == 0 then [] else [s[|s| - 1]] + Reverse(s[..|s| - 1])
  }

  /** LIFO order: popping as many items as were pushed returns them last
      first and leaves the stack as it was. */
  lemma {:induction false} LastInFirstOut<T>(s: seq<T>, xs: seq<T>, nullValue: T)
    ensures PopMany(s + xs, nullValue, |xs|) == (Reverse(xs), s)
    decreases |xs|
  {
    if |xs| > 0 {
      var init := xs[..|xs| - 1];
      assert s + xs == (s + init) + [xs[|xs| - 1]];
      PopAfterPush(s + init, xs[|xs| - 1], nullValue);
      LastInFirstOut(s, init, nullValue);
    } else {
      assert s + xs == s;
    }
  }

  /** main: Push(0x10), then Peek, Pop and Pop print 16, 16 and 0. */
  method MainSequence() returns (peeked: int, first: int, second: int)
    ensures peeked == 16 && first == 16 && second == 0
  {
    var stack := new AdapterStack<int>(0);
    stack.Push(0x10);
    peeked := stack.Peek();
    first := stack.Pop();
    second := stack.Pop();
  }
}
