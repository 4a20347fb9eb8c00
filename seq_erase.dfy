/** The `v.erase(std::remove(v.begin(), v.end(), x))` idiom shared by the
    Composite and Visitor collections. */
module SeqErase {

  /** How many times x occurs in s. */
  function Count<T(==)>(s: seq<T>, x: T): (n: nat)
    ensures n <= |s|
  {
    if s == [] then 0 else (if s[|s| - 1] == x then 1 else 0) + Count(s[..|s| - 1], x)
  }

  /** s with every occurrence of x left out, the others in order. */
  function Without<T(==)>(s: seq<T>, x: T): (r: seq<T>)
    ensures |r| == |s| - Count(s, x)
  {
    if s == [] then [] else Without(s[..|s| - 1], x) + (if s[|s| - 1] == x then [] else [s[|s| - 1]])
  }

  /** Count and Without over a prefix one element longer. */
  lemma Step<T>(s: seq<T>, i: nat, x: T)
    requires i < |s|
    ensures Count(s[..i + 1], x) == Count(s[..i], x) + (if s[i] == x then 1 else 0)
    ensures Without(s[..i + 1], x) == Without(s[..i], x) + (if s[i] == x then [] else [s[i]])
  {
    assert s[..i + 1][..i] == s[..i];
  }

  /** x is counted exactly when it occurs, and Without leaves none behind. */
  lemma {:induction false} Occurs<T>(s: seq<T>, x: T)
    ensures Count(s, x) == 0 <==> x !in s
    ensures x !in Without(s, x)
    decreases |s|
  {
    if s != [] {
      var init := s[..|s| - 1];
      Occurs(init, x);
      assert s == init + [s[|s| - 1]];
    }
  }

  /** std::remove moves the elements other than x to the front, in order,
      and leaves the positions after the new end as they were; erase with a
      single iterator then deletes the one element at the new end. x must
      occur: erasing at end() is undefined. */
  method RemoveErase<T(==)>(s: seq<T>, x: T) returns (r: seq<T>)
    requires x in s
    ensures 1 <= Count(s, x)
    ensures r == Without(s, x) + s[|s| - Count(s, x) + 1..]
    ensures |r| == |s| - 1
    ensures Count(s, x) == 1 ==> r == Without(s, x)
  {
    var a := s;
    var w := 0;
    for i := 0 to |s|
      invariant |a| == |s| && w == i - Count(s[..i], x)
      invariant a[..w] == Without(s[..i], x)
      invariant forall j :: w <= j < |s| ==> a[j] == s[j]
    {
      Step(s, i, x);
      if s[i] != x {
        assert a[w := s[i]][..w + 1] == a[..w] + [s[i]];
        a := a[w := s[i]];
        w := w + 1;
      }
    }
    assert s[..|s|] == s;
    Occurs(s, x);
    assert a[w + 1..] == s[w + 1..];
    r := a[..w] + a[w + 1..];
  }

  /** With a single occurrence, the idiom removes exactly that element and
      keeps the rest in order. */
  lemma {:induction false} RemoveSingle<T>(p: seq<T>, x: T, q: seq<T>)
    requires x !in p && x !in q
    ensures Count(p + [x] + q, x) == 1
    ensures Without(p + [x] + q, x) == p + q
    decreases |q|
  {
    var s := p + [x] + q;
    if q == [] {
      assert s[..|s| - 1] == p;
      NotThere(p, x);
    } else {
      var q' := q[..|q| - 1];
      assert s[..|s| - 1] == p + [x] + q';
      RemoveSingle(p, x, q');
      assert p + q' + [q[|q| - 1]] == p + q;
    }
  }

  /** Without leaves a sequence alone when x does not occur in it. */
  lemma {:induction false} NotThere<T>(s: seq<T>, x: T)
    requires x !in s
    ensures Without(s, x) == s && Count(s, x) == 0
    decreases |s|
  {
    if s != [] {
      NotThere(s[..|s| - 1], x);
    }
  }
}
