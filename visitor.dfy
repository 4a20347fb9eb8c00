/** Visitor: a collection of employees applies a visitor to every entry in
    turn; the visitor changes the employee's data. The lines the
    constructors and visitors print are not modelled. */
module VisitorPattern {
  import SeqErase

  /** Name, Income, VacationDays. Income is a double, taken here as an exact
      real. */
  datatype Record = Record(name: string, income: real, vacationDays: int)

  class Employee {
    var name: string
    var income: real
    var vacationDays: int

    function State(): Record
      reads this
    {
      Record(name, income, vacationDays)
    }

    constructor (n: string, i: real, v: int)
      ensures State() == Record(n, i, v)
    {
      name, income, vacationDays := n, i, v;
    }

    /** Clerk, Director and President only fix the initial data. */
    constructor Clerk()
      ensures State() == Record("Hank", 25000.0, 14)
    {
      name, income, vacationDays := "Hank", 25000.0, 14;
    }

    constructor Director()
      ensures State() == Record("Elly", 35000.0, 16)
    {
      name, income, vacationDays := "Elly", 35000.0, 16;
    }

    constructor President()
      ensures State() == Record("Dick", 45000.0, 21)
    {
      name, income, vacationDays := "Dick", 45000.0, 21;
    }

    /** Employee::Accept hands the employee to the visitor. */
    method Accept(visitor: Visitor)
      modifies this
      ensures State() == Visited(visitor, old(State()))
    {
      match visitor
      case IncomeVisitor => income := income * 1.10;
      case VacationVisitor => vacationDays := vacationDays + 3;
    }
  }

  /** The two concrete visitors; neither has state. */
  datatype Visitor = IncomeVisitor | VacationVisitor

  /** An employee's data after one visit: a 10% raise, or three more days of
      vacation; nothing else changes. */
  function Visited(v: Visitor, r: Record): (s: Record)
    ensures s.name == r.name
    ensures v.IncomeVisitor? ==> s.income == r.income * 1.10 && s.vacationDays == r.vacationDays
    ensures v.VacationVisitor? ==> s.vacationDays == r.vacationDays + 3 && s.income == r.income
  {
    match v
    case IncomeVisitor => r.(income := r.income * 1.10)
    case VacationVisitor => r.(vacationDays := r.vacationDays + 3)
  }

  /** An employee's data after n visits. */
  function VisitedTimes(v: Visitor, r: Record, n: nat): Record
    decreases n
  {
    if n == 0 then r else Visited(v, VisitedTimes(v, r, n - 1))
  }

  /** n vacation visits add exactly 3 days each and touch nothing else. */
  lemma {:induction false} VacationTimes(r: Record, n: nat)
    ensures VisitedTimes(VacationVisitor, r, n) == r.(vacationDays := r.vacationDays + 3 * n)
    decreases n
  {
    if n > 0 {
      VacationTimes(r, n - 1);
    }
  }

  /** Raises compound: n income visits multiply by 1.10 n times and touch
      nothing else. */
  lemma {:induction false} IncomeTimes(r: Record, n: nat)
    ensures VisitedTimes(IncomeVisitor, r, n) == r.(income := r.income * Power(1.10, n))
    decreases n
  {
    if n > 0 {
      IncomeTimes(r, n - 1);
      assert r.income * Power(1.10, n - 1) * 1.10 == r.income * Power(1.10, n);
    }
  }

  function Power(x: real, n: nat): real
    decreases n
  {
    if n == 0 then 1.0 else x * Power(x, n - 1)
  }

  class Employees {
    var employees: seq<Employee>

    constructor ()
      ensures employees == []
    {
      employees := [];
    }

    method Attach(employee: Employee)
      modifies this
      ensures employees == old(employees) + [employee]
    {
      employees := employees + [employee];
    }

    /** `employees.erase(remove(...))`: the employee must be in the
        collection. */
    method Detach(employee: Employee)
      requires employee in employees
      modifies this
      ensures 1 <= SeqErase.Count(old(employees), employee)
      ensures employees == SeqErase.Without(old(employees), employee) + old(employees)[|old(employees)| - SeqErase.Count(old(employees), employee) + 1..]
      ensures |employees| == |old(employees)| - 1
      ensures SeqErase.Count(old(employees), employee) == 1 ==> employees == SeqErase.Without(old(employees), employee)
    {
      employees := SeqErase.RemoveErase(employees, employee);
    }

    /** Visits the entries front to back: an employee listed k times is
        visited k times, everyone else is left alone. */
    method Accept(visitor: Visitor)
      modifies employees
      ensures forall e :: e in employees ==> e.State() == VisitedTimes(visitor, old(e.State()), SeqErase.Count(employees, e))
    {
      var i := 0;
      while i < |employees|
        invariant 0 <= i <= |employees|
        invariant forall e :: e in employees ==> e.State() == VisitedTimes(visitor, old(e.State()), SeqErase.Count(employees[..i], e))
      {
        CountStep(employees, i);
        var current := employees[i];
        label Before:
        current.Accept(visitor);
        forall e | e in employees
          ensures e.State() == VisitedTimes(visitor, old(e.State()), SeqErase.Count(employees[..i + 1], e))
        {
          if e != current {
            assert e.State() == old@Before(e.State());
          }
        }
        i := i + 1;
      }
      assert employees[..i] == employees;
    }
  }

  /** One more entry counts once more for itself and never for anyone
      else. */
  lemma CountStep(s: seq<Employee>, i: nat)
    requires i < |s|
    ensures SeqErase.Count(s[..i + 1], s[i]) == SeqErase.Count(s[..i], s[i]) + 1
    ensures forall e :: e != s[i] ==> SeqErase.Count(s[..i + 1], e) == SeqErase.Count(s[..i], e)
  {
    assert s[..i + 1][..i] == s[..i];
  }

  /** main: Hank, Elly and Dick get a 10% raise and three more days each. */
  method MainSequence() returns (e: Employees)
    ensures |e.employees| == 3
    ensures e.employees[0].State() == Record("Hank", 27500.0, 17)
    ensures e.employees[1].State() == Record("Elly", 38500.0, 19)
    ensures e.employees[2].State() == Record("Dick", 49500.0, 24)
  {
    e := new Employees();
    var clerk := new Employee.Clerk();
    e.Attach(clerk);
    var director := new Employee.Director();
    e.Attach(director);
    var president := new Employee.President();
    e.Attach(president);
    assert e.employees == [clerk, director, president];
    OnceEach(clerk, director, president);
    e.Accept(IncomeVisitor);
    e.Accept(VacationVisitor);
  }

  /** Three distinct employees are each listed once. */
  lemma OnceEach(a: Employee, b: Employee, c: Employee)
    requires a != b && b != c && a != c
    ensures SeqErase.Count([a, b, c], a) == 1 && SeqErase.Count([a, b, c], b) == 1 && SeqErase.Count([a, b, c], c) == 1
  {
    SeqErase.RemoveSingle([], a, [b, c]);
    assert [] + [a] + [b, c] == [a, b, c];
    SeqErase.RemoveSingle([a], b, [c]);
    assert [a] + [b] + [c] == [a, b, c];
    SeqErase.RemoveSingle([a, b], c, []);
    assert [a, b] + [c] + [] == [a, b, c];
  }
}
