/** Flyweight factory: character objects are created on first request for a
    (symbol, point size) pair and handed out again on every later request;
    the glyph metrics live in one shared record per symbol. */
module FlyweightPattern {

  /** CharactorA_Shared / CharactorB_Shared. */
  datatype Shared = Shared(symbol: char, width: int, height: int, ascent: int, descent: int)

  const SharedA := Shared('A', 120, 100, 70, 0)
  const SharedB := Shared('B', 120, 100, 70, 0)

  /** CharactorA and CharactorB: the shared record of their symbol and a
      point size of their own. */
  class Charactor {
    const shared: Shared
    var pointSize: int

    constructor (shared: Shared, size: int)
      ensures this.shared == shared && pointSize == size
    {
      this.shared := shared;
      pointSize := size;
    }

    function Symbol(): char { shared.symbol }
    function Width(): int { shared.width }
    function Height(): int { shared.height }
    function Ascent(): int { shared.ascent }
    function Descent(): int { shared.descent }

    method SetPointSize(size: int)
      modifies this
      ensures pointSize == size
    {
      pointSize := size;
    }
  }

  /** What a request yields: the object, or the key thrown for a symbol the
      factory cannot make. */
  datatype Lookup = Found(charactor: Charactor) | Thrown(key: char)

  /** The shared record for a symbol the factory knows. */
  function SharedOf(key: char): (r: Shared)
    requires key == 'A' || key == 'B'
    ensures r.symbol == key
  {
    if key == 'A' then SharedA else SharedB
  }

  class CharactorFactory {
    var charactors: map<(char, int), Charactor?>

    /** Every object in the table was made for its key's symbol, which is
        one the factory knows. */
    ghost predicate Valid()
      reads this
    {
      forall k :: k in charactors && charactors[k] != null ==>
        (k.0 == 'A' || k.0 == 'B') && charactors[k].shared == SharedOf(k.0)
    }

    constructor ()
      ensures Valid() && charactors == map[]
    {
      charactors := map[];
    }

    /** `charactors[key]` inserts a null entry for a missing key; a null entry
        leads to a new object for 'A' and 'B' and to a throw otherwise. */
    method GetCharactor(key: char, size: int) returns (r: Lookup)
      requires Valid()
      modifies this
      ensures Valid()
      ensures var k := (key, size);
              if k in old(charactors) && old(charactors)[k] != null then
                r == Found(old(charactors)[k]) && charactors == old(charactors)
              else if key == 'A' || key == 'B' then
                && r.Found? && fresh(r.charactor)
                && r.charactor.shared == SharedOf(key) && r.charactor.pointSize == size
                && charactors == old(charactors)[k := r.charactor]
              else
                r == Thrown(key) && charactors == old(charactors)[k := null]
    {
      var k := (key, size);
      if k !in charactors {
        charactors := charactors[k := null];
      }
      if charactors[k] == null {
        if key == 'A' || key == 'B' {
          var c := new Charactor(SharedOf(key), size);
          charactors := charactors[k := c];
        } else {
          return Thrown(key);
        }
      }
      r := Found(charactors[k]);
    }
  }

  /** Holds the static CharactorFactory::instance pointer, null at program
      start. */
  class FactoryHolder {
    var instance: CharactorFactory?

    /** The factory, once made, keeps its table invariant. */
    ghost predicate Valid()
      reads this, instance
    {
      instance != null ==> instance.Valid()
    }

    constructor ()
      ensures Valid() && instance == null
    {
      instance := null;
    }

    /** Creates the factory on the first call and returns the same one on
        every call; whoever calls gets a factory ready for GetCharactor. */
    method Instance() returns (f: CharactorFactory)
      requires Valid()
      modifies this
      ensures Valid() && f.Valid()
      ensures instance == f
      ensures old(instance) != null ==> f == old(instance)
      ensures old(instance) == null ==> fresh(f) && f.charactors == map[]
    {
      if instance == null {
        instance := new CharactorFactory();
      }
      f := instance;
    }
  }

  /** main: 'A' at size 10 twice gives one object, 'A' at size 12 another;
      all share the metrics of A. */
  method MainSequence() returns (ca1: Charactor, ca2: Charactor, ca3: Charactor)
    ensures ca1 == ca2 && ca1 != ca3
    ensures ca1.pointSize == 10 && ca3.pointSize == 12
    ensures ca1.Symbol() == ca3.Symbol() == 'A'
    ensures ca1.Width() == ca3.Width() == 120 && ca1.Height() == 100 && ca1.Ascent() == 70 && ca1.Descent() == 0
    ensures ca3.Height() == 100 && ca3.Ascent() == 70 && ca3.Descent() == 0 && ca1.shared == ca3.shared
  {
    var holder := new FactoryHolder();
    var factory := holder.Instance();
    var r1 := factory.GetCharactor('A', 10);
    var again := holder.Instance();
    var r2 := again.GetCharactor('A', 10);
    var r3 := holder.Instance();
    var r3c := r3.GetCharactor('A', 12);
    ca1, ca2, ca3 := r1.charactor, r2.charactor, r3c.charactor;
  }

  /** A key other than 'A' or 'B' throws on every request, however often it
      is repeated, and leaves no object behind. */
  method RepeatedThrow(factory: CharactorFactory, key: char, size: int) returns (first: Lookup, second: Lookup)
    requires factory.Valid() && key != 'A' && key != 'B'
    modifies factory
    ensures first == Thrown(key) && second == Thrown(key)
    ensures factory.charactors == old(factory.charactors)[(key, size) := null]
  {
    first := factory.GetCharactor(key, size);
    second := factory.GetCharactor(key, size);
  }
}
