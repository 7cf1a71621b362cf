/**
 * The accounts as objects. Each operation updates the balance and the ledger
 * of the account in place and is proved to produce the value the `Ledger`
 * module describes; the account number comes from a counter shared by every
 * account that is created.
 */
module Bank {
  import opened Wrappers
  import opened Timestamp
  import opened Records
  import opened Ledger
  import opened Storage

  /** The class-wide source of account numbers, starting at 1001. */
  class AccountCounter {
    var next: int

    constructor ()
      ensures next == 1001
    {
      next := 1001;
    }
  }

  class BankAccount {
    var accountNumber: int
    var owner: string
    var accountType: string
    var balance: real
    var transactions: seq<Transaction>
    var interestRate: real
    var fee: real
    var pin: int

    /** The account's state as a value. */
    function View(): Account
      reads this
    {
      Account(accountNumber, owner, accountType, balance, transactions, interestRate, fee, pin)
    }

    /**
     * Opens an account: it takes the counter's current value as its number
     * and advances the counter by one. `pin` is the randomly drawn PIN.
     */
    constructor (counter: AccountCounter, pin: int, owner: string,
                 initialBalance: real := 0.0, accountType: string := "Checking")
      modifies counter
      ensures View() == Open(old(counter.next), owner, initialBalance, accountType, pin)
      ensures counter.next == old(counter.next) + 1
    {
      accountNumber := counter.next;
      this.owner := owner;
      this.accountType := accountType;
      balance := initialBalance;
      transactions := [];
      interestRate := InterestRateFor(accountType);
      fee := FeeFor(accountType);
      this.pin := pin;
      new;
      counter.next := counter.next + 1;
    }

    function CheckPin(candidate: int): (r: bool)
      reads this
      ensures r <==> candidate == View().pin
    {
      pin == candidate
    }

    function GetBalance(): (r: real)
      reads this
      ensures r == View().balance
    {
      balance
    }

    method Deposit(amount: real, now: Moment) returns (ok: bool)
      modifies this
      ensures ok <==> amount > 0.0
      ensures View() == AfterDeposit(old(View()), amount, now)
      ensures Extends(old(View()), View())
    {
      ghost var before := View();
      ok := amount > 0.0;
      if ok {
        balance := balance + amount;
        transactions := transactions + [Transaction(now, KindDeposit, amount, balance)];
      }
      DepositLaw(before, amount, now);
      StepExtends(before, View(), KindDeposit, amount, now);
    }

    method Withdraw(amount: real, now: Moment) returns (ok: bool)
      modifies this
      ensures ok <==> 0.0 < amount <= old(balance)
      ensures View() == AfterWithdraw(old(View()), amount, now)
      ensures Extends(old(View()), View())
    {
      ghost var before := View();
      ok := 0.0 < amount <= balance;
      if ok {
        balance := balance - amount;
        transactions := transactions + [Transaction(now, KindWithdraw, amount, balance)];
      }
      WithdrawLaw(before, amount, now);
      StepExtends(before, View(), KindWithdraw, amount, now);
    }

    /**
     * Moves `amount` to `recipient` when the sender can cover it. Both
     * balances are updated before either transaction is appended, which
     * matters when the recipient is the sender itself.
     */
    method Transfer(amount: real, recipient: BankAccount, nowOut: Moment, nowIn: Moment) returns (ok: bool)
      modifies this, recipient
      ensures ok <==> 0.0 < amount <= old(balance)
      ensures recipient != this ==>
        (View(), recipient.View()) == AfterTransfer(old(View()), old(recipient.View()), amount, nowOut, nowIn)
      ensures recipient != this ==>
        Extends(old(View()), View()) && Extends(old(recipient.View()), recipient.View())
      ensures recipient == this ==> View() == AfterSelfTransfer(old(View()), amount, nowOut, nowIn)
      ensures Extends(old(View()), View())
    {
      ghost var sender, receiver := View(), recipient.View();
      ok := 0.0 < amount <= balance;
      if ok {
        balance := balance - amount;
        recipient.balance := recipient.balance + amount;
        transactions := transactions + [Transaction(nowOut, KindTransferOut, amount, balance)];
        recipient.transactions :=
          recipient.transactions + [Transaction(nowIn, KindTransferIn, amount, recipient.balance)];
      }
      if recipient != this {
        if ok {
          assert View() == Debit(sender, amount, nowOut);
          assert recipient.View() == Credit(receiver, amount, nowIn);
        }
        TransferExtends(sender, receiver, amount, nowOut, nowIn);
      } else {
        if ok {
          var b := (sender.balance - amount) + amount;
          assert View() == Post(Post(sender, nowOut, KindTransferOut, amount, b), nowIn, KindTransferIn, amount, b);
        }
        SelfTransferExtends(sender, amount, nowOut, nowIn);
      }
    }

    method ApplyInterest(now: Moment)
      modifies this
      ensures View() == AfterInterest(old(View()), now)
      ensures Extends(old(View()), View())
    {
      ghost var before := View();
      if accountType == "Savings" && balance > 0.0 {
        var interest := balance * interestRate;
        balance := balance + interest;
        transactions := transactions + [Transaction(now, KindInterest, interest, balance)];
        assert View() == Post(before, now, KindInterest, interest, before.balance + interest);
      }
      InterestLaw(before, now);
      StepExtends(before, View(), KindInterest, before.balance * before.interestRate, now);
    }

    method ApplyFee(now: Moment)
      modifies this
      ensures View() == AfterFee(old(View()), now)
      ensures Extends(old(View()), View())
    {
      ghost var before := View();
      if fee > 0.0 {
        balance := balance - fee;
        transactions := transactions + [Transaction(now, KindMonthlyFee, fee, balance)];
      }
      FeeLaw(before, now);
      StepExtends(before, View(), KindMonthlyFee, before.fee, now);
    }

    /** The stored record, which reads back as this very account. */
    function ToDict(): (v: Value)
      reads this
      ensures AccountFromDict(v) == Ok(View())
    {
      AccountRoundTrip(View());
      AccountToDict(View())
    }

    /**
     * Reads an account from a stored record. The account is first opened from
     * the stored owner, balance and type, which advances the counter, and then
     * takes the stored number, ledger, rate, fee and PIN; `drawnPin` is the
     * PIN drawn while opening, which the stored one replaces.
     */
    static method FromDict(data: Value, counter: AccountCounter, drawnPin: int) returns (r: Result<BankAccount, Error>)
      modifies counter
      ensures counter.next == old(counter.next) + (if OpeningFromDict(data).Ok? then 1 else 0)
      ensures r.Ok? ==> fresh(r.value) && AccountFromDict(data) == Ok(r.value.View())
      ensures r.Err? ==> AccountFromDict(data) == Err(r.error)
    {
      var o :- OpeningFromDict(data);
      var account := new BankAccount(counter, drawnPin, o.owner, o.balance, o.accountType);
      var a :- AccountFromDict(data);
      account.accountNumber, account.transactions := a.number, a.transactions;
      account.interestRate, account.fee, account.pin := a.interestRate, a.fee, a.pin;
      return Ok(account);
    }
  }

  /**
   * Storing an account and reading it back gives a new account equal to it
   * in every field, ledger in order; reading it advances the counter by one.
   */
  method Reload(a: BankAccount, counter: AccountCounter, drawnPin: int) returns (b: BankAccount)
    modifies counter
    ensures fresh(b) && b.View() == a.View()
    ensures counter.next == old(counter.next) + 1
  {
    var data := a.ToDict();
    var r := BankAccount.FromDict(data, counter, drawnPin);
    b := r.value;
  }
}
