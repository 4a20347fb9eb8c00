/** Account tiers: an account delegates Deposit, Withdraw and PayInterest to
    its current state object (Red, Silver or Gold), which updates its own
    balance and then may replace itself with a state of another tier. */
module StatePattern {

  datatype Tier = Red | Silver | Gold

  /** The limits and interest each state's Initialize sets. */
  function Interest(t: Tier): real {
    match t
    case Red => 0.0
    case Silver => 0.0
    case Gold => 0.05
  }

  function LowerLimit(t: Tier): real {
    match t
    case Red => -100.0
    case Silver => 0.0
    case Gold => 1000.0
  }

  function UpperLimit(t: Tier): real {
    match t
    case Red => 0.0
    case Silver => 1000.0
    case Gold => 10000000.0
  }


  /** The tier StateChangeCheck moves to from tier t at balance b: at most
      one step. */
  function Check(t: Tier, b: real): (r: Tier)
    ensures t == Red ==> r != Gold
    ensures r == Red ==> b <= UpperLimit(Red)
    ensures r == Silver ==> b >= LowerLimit(Silver)
    ensures r == Gold ==> b >= LowerLimit(Gold)
    ensures r == t <==> (t == Red || b >= LowerLimit(t)) && (t == Gold || b <= UpperLimit(t))
  {
    match t
    case Red => if b > UpperLimit(Red) then Silver else Red
    case Silver =>
      if b < LowerLimit(Silver) then Red
      else if b > UpperLimit(Silver) then Gold
      else Silver
    case Gold =>
      if b < 0.0 then Red
      else if b < LowerLimit(Gold) then Silver
      else Gold
  }

  /** What the account shows: the current state's tier and balance. */
  datatype Snapshot = Snapshot(tier: Tier, balance: real)

  function DepositOf(s: Snapshot, amount: real): Snapshot {
    var b := s.balance + amount;
    Snapshot(Check(s.tier, b), b)
  }

  function WithdrawOf(s: Snapshot, amount: real): Snapshot {
    if s.tier == Red then s
    else
      var b := s.balance - amount;
      Snapshot(Check(s.tier, b), b)
  }

  function PayInterestOf(s: Snapshot): Snapshot {
    if s.tier == Red then s
    else
      var b := s.balance + Interest(s.tier) * s.balance;
      Snapshot(Check(s.tier, b), b)
  }

  class State {
    const tier: Tier
    var balance: real
    var account: Account?

    /** SilverState(balance, account) and GoldState(balance, account). */
    constructor Initial(tier: Tier, balance: real, account: Account?)
      ensures this.tier == tier && this.balance == balance && this.account == account
    {
      this.tier, this.balance, this.account := tier, balance, account;
    }

    /** RedState(state), SilverState(state), GoldState(state): the new state
        takes over the balance and the account of the one it replaces. */
    constructor From(tier: Tier, previous: State)
      ensures this.tier == tier && balance == previous.balance && account == previous.account
    {
      this.tier, balance, account := tier, previous.balance, previous.account;
    }

    method Deposit(amount: real)
      requires account != null
      modifies this, account
      ensures balance == old(balance) + amount && account == old(account)
      ensures Moved(old(account.state))
    {
      balance := balance + amount;
      StateChangeCheck();
    }

    method Withdraw(amount: real)
      requires account != null
      modifies this, account
      ensures balance == (if tier == Red then old(balance) else old(balance) - amount)
      ensures account == old(account)
      ensures if tier == Red then account.state == old(account.state) else Moved(old(account.state))
    {
      // Red takes its 15.0 service fee from a local copy of the amount only,
      // withdraws nothing and makes no check
      if tier != Red {
        balance := balance - amount;
        StateChangeCheck();
      }
    }

    method PayInterest()
      requires account != null
      modifies this, account
      ensures balance == (if tier == Red then old(balance) else old(balance) + Interest(tier) * old(balance))
      ensures account == old(account)
      ensures if tier == Red then account.state == old(account.state) else Moved(old(account.state))
    {
      if tier != Red {
        balance := balance + Interest(tier) * balance;
        StateChangeCheck();
      }
    }

    /** After a check: either the account keeps its state, or it holds a new
        state of the tier Check names, with this state's balance and
        account. */
    twostate predicate Moved(previous: State)
      reads this, account, account.state
      requires account != null
    {
      if Check(tier, balance) == tier then account.state == previous
      else
        && fresh(account.state)
        && account.state.tier == Check(tier, balance)
        && account.state.balance == balance
        && account.state.account == account
    }

    method StateChangeCheck()
      requires account != null
      modifies account
      ensures Moved(old(account.state))
    {
      var next := Check(tier, balance);
      if next != tier {
        var s := new State.From(next, this);
        account.SetState(s);
      }
    }
  }

  class Account {
    var state: State
    const owner: string

    /** The current state belongs to this account. */
    ghost predicate Valid()
      reads this, state
    {
      state.account == this
    }

    function Current(): Snapshot
      reads this, state
    {
      Snapshot(state.tier, state.balance)
    }

    /** New accounts are Silver with balance 0. */
    constructor (owner: string)
      ensures Valid() && Current() == Snapshot(Silver, 0.0) && this.owner == owner
    {
      var s := new State.Initial(Silver, 0.0, null);
      this.owner := owner;
      state := s;
      new;
      s.account := this;
    }

    method SetState(value: State)
      modifies this
      ensures state == value
    {
      state := value;
    }

    method Deposit(amount: real)
      requires Valid()
      modifies this, state
      ensures Valid() && Current() == DepositOf(old(Current()), amount)
      ensures state == old(state) || fresh(state)
    {
      state.Deposit(amount);
    }

    method Withdraw(amount: real)
      requires Valid()
      modifies this, state
      ensures Valid() && Current() == WithdrawOf(old(Current()), amount)
      ensures state == old(state) || fresh(state)
    {
      state.Withdraw(amount);
    }

    method PayInterest()
      requires Valid()
      modifies this, state
      ensures Valid() && Current() == PayInterestOf(old(Current()))
      ensures state == old(state) || fresh(state)
    {
      state.PayInterest();
    }
  }

  /** Deposit adds the amount in every tier; Withdraw subtracts it in Silver
      and Gold. */
  lemma BalanceChanges(s: Snapshot, amount: real)
    ensures DepositOf(s, amount).balance == s.balance + amount
    ensures s.tier != Red ==> WithdrawOf(s, amount).balance == s.balance - amount
  {
  }

  /** In Red, Withdraw and PayInterest change neither balance nor tier. */
  lemma RedIsFrozen(b: real, amount: real)
    ensures WithdrawOf(Snapshot(Red, b), amount) == Snapshot(Red, b)
    ensures PayInterestOf(Snapshot(Red, b)) == Snapshot(Red, b)
  {
  }

  /** Silver moves to Red below 0 and to Gold above 1000; 0 and 1000 stay
      Silver. */
  lemma SilverThresholds(b: real)
    ensures Check(Silver, b) == Red <==> b < 0.0
    ensures Check(Silver, b) == Gold <==> b > 1000.0
    ensures Check(Silver, b) == Silver <==> 0.0 <= b <= 1000.0
  {
  }

  /** Gold moves to Red below 0 and to Silver below 1000; 1000 and anything
      above, however large, stay Gold. */
  lemma GoldThresholds(b: real)
    ensures Check(Gold, b) == Red <==> b < 0.0
    ensures Check(Gold, b) == Silver <==> 0.0 <= b < 1000.0
    ensures Check(Gold, b) == Gold <==> b >= 1000.0
  {
  }

  /** Red only ever moves to Silver, and only above 0. */
  lemma RedThresholds(b: real)
    ensures Check(Red, b) != Gold
    ensures Check(Red, b) == Silver <==> b > 0.0
  {
  }

  /** One transition per operation: a deposit that takes a Red account above
      1000 lands in Silver, and only the next check, here PayInterest, moves
      it on to Gold. */
  lemma SingleStep(b: real, amount: real)
    requires b + amount > 1000.0
    ensures DepositOf(Snapshot(Red, b), amount) == Snapshot(Silver, b + amount)
    ensures PayInterestOf(DepositOf(Snapshot(Red, b), amount)) == Snapshot(Gold, b + amount)
  {
  }

  /** main's trace, from a new account: 500 Silver, 800 Silver, 1350 Gold,
      1417.5 Gold after interest, -582.5 Red, and the second withdrawal is
      refused. */
  lemma MainTrace()
    ensures var s1 := DepositOf(Snapshot(Silver, 0.0), 500.0);
            var s2 := DepositOf(s1, 300.0);
            var s3 := DepositOf(s2, 550.0);
            var s4 := PayInterestOf(s3);
            var s5 := WithdrawOf(s4, 2000.0);
            var s6 := WithdrawOf(s5, 1100.0);
            && s1 == Snapshot(Silver, 500.0) && s2 == Snapshot(Silver, 800.0)
            && s3 == Snapshot(Gold, 1350.0) && s4 == Snapshot(Gold, 1417.5)
            && s5 == Snapshot(Red, -582.5) && s6 == Snapshot(Red, -582.5)
  {
  }

  /** main, on the objects. */
  method MainSequence() returns (account: Account)
    ensures account.Valid() && account.Current() == Snapshot(Red, -582.5)
  {
    account := new Account("Jim Johnson");
    account.Deposit(500.0);
    account.Deposit(300.0);
    account.Deposit(550.0);
    account.PayInterest();
    account.Withdraw(2000.0);
    account.Withdraw(1100.0);
    MainTrace();
  }
}
