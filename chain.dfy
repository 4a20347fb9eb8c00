/** Purchase approval along a chain of approvers: each approves amounts
    below its limit and passes the others on to its successor, if it has
    one. */
module ChainOfResponsibility {

  import opened Wrappers

  datatype Rank = Director | VicePresident | President

  /** The amount each rank approves strictly below. */
  function Limit(r: Rank): real {
    match r
    case Director => 10000.0
    case VicePresident => 25000.0
    case President => 100000.0
  }

  /** The position of the approver that handles a request for amount along
      a chain with these ranks, if any does. */
  function Handler(ranks: seq<Rank>, amount: real): Option<nat>
    decreases |ranks|
  {
    if |ranks| == 0 then None
    else if amount < Limit(ranks[0]) then Some(0)
    else match Handler(ranks[1..], amount)
      case None => None
      case Some(i) => Some(i + 1)
  }

  /** The handler is the first approver whose limit exceeds the amount; when
      there is none, every approver refused. */
  lemma {:induction false} HandlerIsFirst(ranks: seq<Rank>, amount: real)
    ensures match Handler(ranks, amount)
      case Some(i) =>
        && i < |ranks| && amount < Limit(ranks[i])
        && forall j :: 0 <= j < i ==> amount >= Limit(ranks[j])
      case None => forall j :: 0 <= j < |ranks| ==> amount >= Limit(ranks[j])
    decreases |ranks|
  {
    if |ranks| > 0 && amount >= Limit(ranks[0]) {
      HandlerIsFirst(ranks[1..], amount);
      forall j | 1 <= j < |ranks| ensures ranks[j] == ranks[1..][j - 1] {
      }
    }
  }

  class Purchase {
    var number: int
    var amount: real
    var purpose: string

    constructor (number: int, amount: real, purpose: string)
      ensures this.number == number && this.amount == amount && this.purpose == purpose
    {
      this.number, this.amount, this.purpose := number, amount, purpose;
    }

    method SetAmount(value: real)
      modifies this
      ensures amount == value && number == old(number) && purpose == old(purpose)
    {
      amount := value;
    }

    method SetPurpose(value: string)
      modifies this
      ensures purpose == value && number == old(number) && amount == old(amount)
    {
      purpose := value;
    }

    method SetNumber(value: int)
      modifies this
      ensures number == value && amount == old(amount) && purpose == old(purpose)
    {
      number := value;
    }
  }

  class Approver {
    const rank: Rank
    var successor: Approver?

    /** `new Director()` and the others value-initialise: no successor. */
    constructor (rank: Rank)
      ensures this.rank == rank && successor == null
    {
      this.rank := rank;
      successor := null;
    }

    method SetSuccessor(successor: Approver?)
      modifies this
      ensures this.successor == successor
    {
      this.successor := successor;
    }

    /** Approves the purchase or passes it on. Returns the approver that
        printed its approval, or null when the request fell off the end of
        the chain. */
    method ProcessRequest(purchase: Purchase, ghost chain: seq<Approver>) returns (approved: Approver?)
      requires IsChain(chain) && chain[0] == this
      ensures match Handler(Ranks(chain), purchase.amount)
        case None => approved == null
        case Some(i) => i < |chain| && approved == chain[i]
      decreases |chain|
    {
      if purchase.amount < Limit(rank) {
        approved := this;
      } else if successor != null {
        approved := successor.ProcessRequest(purchase, chain[1..]);
        assert Ranks(chain)[1..] == Ranks(chain[1..]);
      } else {
        approved := null;
      }
    }
  }

  /** chain lists the approvers reached from chain[0] by following the
      successors, ending at one without a successor: the chain is finite
      and has no cycle. */
  ghost predicate IsChain(chain: seq<Approver>)
    reads set a | a in chain
  {
    && |chain| > 0
    && (forall i :: 0 <= i < |chain| - 1 ==> chain[i].successor == chain[i + 1])
    && chain[|chain| - 1].successor == null
  }

  function Ranks(chain: seq<Approver>): (r: seq<Rank>)
    ensures |r| == |chain| && forall i :: 0 <= i < |chain| ==> r[i] == chain[i].rank
  {
    seq(|chain|, i requires 0 <= i < |chain| => chain[i].rank)
  }

  /** The limits are strict: an amount equal to a limit goes further up. */
  lemma StrictLimits()
    ensures Handler([Director, VicePresident, President], 9999.99) == Some(0)
    ensures Handler([Director, VicePresident, President], 10000.0) == Some(1)
    ensures Handler([Director, VicePresident, President], 25000.0) == Some(2)
    ensures Handler([Director, VicePresident, President], 100000.0) == None
  {
  }

  lemma MainHandlers(ranks: seq<Rank>)
    requires ranks == [Director, VicePresident, President]
    ensures Handler(ranks, 350.00) == Some(0)
    ensures Handler(ranks, 32590.10) == Some(2)
    ensures Handler(ranks, 122100.00) == None
  {
    var r1 := ranks[1..];
    var r2 := r1[1..];
    assert r2 == [President] && r2[1..] == [];
    assert Handler(r2, 32590.10) == Some(0) && Handler(r1, 32590.10) == Some(1);
    assert Handler(r2, 122100.00) == None && Handler(r1, 122100.00) == None;
  }

  /** main's chain: Larry (Director) -> Sam (VicePresident) -> Tammy
      (President), Tammy without a successor. */
  method BuildChain() returns (larry: Approver, sam: Approver, tammy: Approver)
    ensures IsChain([larry, sam, tammy])
    ensures Ranks([larry, sam, tammy]) == [Director, VicePresident, President]
  {
    larry := new Approver(Director);
    sam := new Approver(VicePresident);
    tammy := new Approver(President);
    larry.SetSuccessor(sam);
    sam.SetSuccessor(tammy);
  }

  /** main: 350 is approved by Larry, 32590.10 by Tammy, and 122100 by
      nobody. */
  method MainSequence() returns (larry: Approver, tammy: Approver, a1: Approver?, a2: Approver?, a3: Approver?)
    ensures a1 == larry && a2 == tammy && a3 == null
    ensures larry.rank == Director && tammy.rank == President
  {
    var sam;
    larry, sam, tammy := BuildChain();
    ghost var chain := [larry, sam, tammy];
    MainHandlers(Ranks(chain));
    var p := new Purchase(1034, 350.00, "Supplies");
    a1 := larry.ProcessRequest(p, chain);
    p := new Purchase(2035, 32590.10, "Project X");
    a2 := larry.ProcessRequest(p, chain);
    p := new Purchase(2036, 122100.00, "Project Y");
    a3 := larry.ProcessRequest(p, chain);
  }
}
