/** Singleton: one object behind a static pointer, created on the first
    request with val 0 and handed out on every request after that. The
    static pointer is a field of a holder object here. */
module SingletonPattern {

  class Singleton {
    var val: int

    /** The private constructor. */
    constructor ()
      ensures val == 0
    {
      val := 0;
    }

    function GetVal(): int
      reads this
    {
      val
    }

    method SetVal(v: int)
      modifies this
      ensures GetVal() == v
    {
      val := v;
    }
  }

  /** Holds Singleton::instance, null at program start. */
  class Holder {
    var instance: Singleton?

    constructor ()
      ensures instance == null
    {
      instance := null;
    }

    /** Creates the object on the first call only; every call returns the
        object the pointer then holds. */
    method Instance() returns (s: Singleton)
      modifies this
      ensures instance == s
      ensures old(instance) != null ==> s == old(instance) && s.val == old(s.val)
      ensures old(instance) == null ==> fresh(s) && s.GetVal() == 0
    {
      if instance == null {
        instance := new Singleton();
      }
      s := instance;
    }
  }

  /** A value set through one Instance() call is what a later, separate
      Instance() call reads, and no second object is made. */
  method SetThenGet(holder: Holder, v: int) returns (first: Singleton, second: Singleton, read: int)
    modifies holder, holder.instance
    ensures first == second == holder.instance
    ensures read == v
    ensures old(holder.instance) != null ==> first == old(holder.instance)
  {
    first := holder.Instance();
    first.SetVal(v);
    second := holder.Instance();
    read := second.GetVal();
  }

  /** main: setVal(12) through the first Instance(), then 12 is read back
      through the second. */
  method MainSequence() returns (read: int)
    ensures read == 12
  {
    var holder := new Holder();
    var first, second;
    first, second, read := SetThenGet(holder, 12);
  }
}
