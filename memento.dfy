/** Memento: a sales prospect hands out a copy of its three fields, keeps
    changing, and can later be set back from that copy. The setters print
    the new value; the printing is not modelled. */
module MementoPattern {

  /** The state that is saved: name, phone and budget. */
  datatype Fields = Fields(name: string, phone: string, budget: real)

  /** One setter call on the prospect. */
  datatype Edit = SetName(name: string) | SetPhone(phone: string) | SetBudget(budget: real)

  /** What a single setter leaves behind. */
  function Apply(f: Fields, e: Edit): (r: Fields)
    ensures e.SetName? ==> r.name == e.name && r.phone == f.phone && r.budget == f.budget
    ensures e.SetPhone? ==> r.phone == e.phone && r.name == f.name && r.budget == f.budget
    ensures e.SetBudget? ==> r.budget == e.budget && r.name == f.name && r.phone == f.phone
  {
    match e
    case SetName(n) => f.(name := n)
    case SetPhone(p) => f.(phone := p)
    case SetBudget(b) => f.(budget := b)
  }

  function ApplyAll(f: Fields, es: seq<Edit>): Fields
    decreases |es|
  {
    if |es| == 0 then f else ApplyAll(Apply(f, es[0]), es[1..])
  }

  /** Setting the three fields in turn, as a restore does, reaches the given
      fields from any starting point. */
  lemma SetAllThree(f: Fields, g: Fields)
    ensures ApplyAll(f, [SetName(g.name), SetPhone(g.phone), SetBudget(g.budget)]) == g
  {
    var es := [SetName(g.name), SetPhone(g.phone), SetBudget(g.budget)];
    var f1 := Apply(f, es[0]);
    var f2 := Apply(f1, es[1]);
    assert es[1..][1..][1..] == [];
    assert ApplyAll(f2, es[1..][1..]) == Apply(f2, es[2]);
    assert ApplyAll(f1, es[1..]) == ApplyAll(f2, es[1..][1..]);
  }

  /** A field no edit in the run touches ends as it started. */
  lemma {:induction false} Untouched(f: Fields, es: seq<Edit>)
    ensures (forall i :: 0 <= i < |es| ==> !es[i].SetName?) ==> ApplyAll(f, es).name == f.name
    ensures (forall i :: 0 <= i < |es| ==> !es[i].SetPhone?) ==> ApplyAll(f, es).phone == f.phone
    ensures (forall i :: 0 <= i < |es| ==> !es[i].SetBudget?) ==> ApplyAll(f, es).budget == f.budget
    decreases |es|
  {
    if |es| > 0 {
      Untouched(Apply(f, es[0]), es[1..]);
      assert forall i :: 0 <= i < |es[1..]| ==> es[1..][i] == es[i + 1];
    }
  }

  /** A run of edits followed by one more edit. */
  lemma {:induction false} ApplyAllSnoc(f: Fields, es: seq<Edit>, e: Edit)
    ensures ApplyAll(f, es + [e]) == Apply(ApplyAll(f, es), e)
    decreases |es|
  {
    if |es| == 0 {
      assert [e][1..] == [];
    } else {
      assert (es + [e])[1..] == es[1..] + [e];
      ApplyAllSnoc(Apply(f, es[0]), es[1..], e);
    }
  }

  class Memento {
    var name: string
    var phone: string
    var budget: real

    function State(): Fields
      reads this
    {
      Fields(name, phone, budget)
    }

    constructor (name: string, phone: string, budget: real)
      ensures State() == Fields(name, phone, budget)
    {
      this.name, this.phone, this.budget := name, phone, budget;
    }

    method SetName(value: string)
      modifies this
      ensures State() == Apply(old(State()), Edit.SetName(value))
    {
      name := value;
    }

    method SetPhone(value: string)
      modifies this
      ensures State() == Apply(old(State()), Edit.SetPhone(value))
    {
      phone := value;
    }

    method SetBudget(value: real)
      modifies this
      ensures State() == Apply(old(State()), Edit.SetBudget(value))
    {
      budget := value;
    }
  }

  /** The caretaker: holds one memento, null until one is stored. */
  class ProspectMemory {
    var memento: Memento?

    constructor ()
      ensures memento == null
    {
      memento := null;
    }

    function GetMemento(): Memento?
      reads this
    {
      memento
    }

    method SetMemento(value: Memento?)
      modifies this
      ensures GetMemento() == value
    {
      memento := value;
    }
  }

  /** The originator. `new SalesProspect()` value-initialises its fields. */
  class SalesProspect {
    var name: string
    var phone: string
    var budget: real

    function State(): Fields
      reads this
    {
      Fields(name, phone, budget)
    }

    constructor ()
      ensures State() == Fields("", "", 0.0)
    {
      name, phone, budget := "", "", 0.0;
    }

    method SetName(value: string)
      modifies this
      ensures State() == Apply(old(State()), Edit.SetName(value))
    {
      name := value;
    }

    method SetPhone(value: string)
      modifies this
      ensures State() == Apply(old(State()), Edit.SetPhone(value))
    {
      phone := value;
    }

    method SetBudget(value: real)
      modifies this
      ensures State() == Apply(old(State()), Edit.SetBudget(value))
    {
      budget := value;
    }

    /** Performs one setter call. */
    method Perform(e: Edit)
      modifies this
      ensures State() == Apply(old(State()), e)
    {
      match e
      case SetName(n) => SetName(n);
      case SetPhone(p) => SetPhone(p);
      case SetBudget(b) => SetBudget(b);
    }

    /** A new memento holding a copy of the current fields. */
    method SaveMemento() returns (m: Memento)
      ensures fresh(m) && m.State() == State()
    {
      m := new Memento(name, phone, budget);
    }

    /** Sets the three fields from the memento, one setter at a time; the
        memento itself is left as it was. */
    method RestoreMemento(memento: Memento)
      modifies this
      ensures State() == memento.State()
      ensures State() == ApplyAll(old(State()), [Edit.SetName(memento.name), Edit.SetPhone(memento.phone), Edit.SetBudget(memento.budget)])
    {
      ghost var before := State();
      SetName(memento.name);
      SetPhone(memento.phone);
      SetBudget(memento.budget);
      SetAllThree(before, memento.State());
    }
  }

  /** Save, then any run of setter calls, then restore: the prospect is back
      where it was at the save, and the saved memento never changed. */
  method SaveEditRestore(s: SalesProspect, es: seq<Edit>) returns (m: Memento)
    modifies s
    ensures fresh(m) && m.State() == old(s.State())
    ensures s.State() == old(s.State())
  {
    m := s.SaveMemento();
    var i := 0;
    while i < |es|
      invariant 0 <= i <= |es|
      invariant m.State() == old(s.State())
      invariant s.State() == ApplyAll(old(s.State()), es[..i])
    {
      ApplyAllSnoc(old(s.State()), es[..i], es[i]);
      assert es[..i + 1] == es[..i] + [es[i]];
      s.Perform(es[i]);
      i := i + 1;
    }
    s.RestoreMemento(m);
  }

  /** main: after the restore the prospect holds the first set of values
      again, and the memory still holds the saved copy. */
  method MainSequence() returns (s: SalesProspect, memory: ProspectMemory)
    ensures s.State() == Fields("xiaoming", "(010)65236523", 28000.0)
    ensures memory.GetMemento() != null && memory.GetMemento().State() == s.State()
  {
    s := new SalesProspect();
    s.SetName("xiaoming");
    s.SetPhone("(010)65236523");
    s.SetBudget(28000.0);
    memory := new ProspectMemory();
    var saved := s.SaveMemento();
    memory.SetMemento(saved);
    s.SetName("deke");
    s.SetPhone("(029)85423657");
    s.SetBudget(80000.0);
    s.RestoreMemento(memory.GetMemento());
  }
}
