/**
 * The account ledger as values: transactions, the state of one account, and
 * what each balance-changing operation does to that state. The class
 * `Bank.BankAccount` performs these operations in place and is proved to
 * produce exactly these values.
 */
module Ledger {
  import opened Timestamp

  const KindDeposit: string := "Deposit"
  const KindWithdraw: string := "Withdraw"
  const KindTransferOut: string := "Transfer Out"
  const KindTransferIn: string := "Transfer In"
  const KindInterest: string := "Interest"
  const KindMonthlyFee: string := "Monthly Fee"

  /**
   * One ledger event: when, what kind, how much, and the balance it left.
   * Every transaction is dated by a date-time (the clock when it is posted,
   * the parsed text when it is read back) and stores the text strftime
   * writes for it; the model keeps the date-time, to the second, and
   * `Format` gives that text wherever it is written out.
   */
  datatype Transaction = Transaction(date: Moment, kind: string, amount: real, balanceAfter: real)

  /** The state of one account. */
  datatype Account = Account(
    number: int,
    owner: string,
    accountType: string,
    balance: real,
    transactions: seq<Transaction>,
    interestRate: real,
    fee: real,
    pin: int)

  /** The interest rate an account of this type is opened with. */
  function InterestRateFor(accountType: string): (rate: real)
    ensures rate == 0.01 <==> accountType == "Savings"
    ensures rate == 0.0 <==> accountType != "Savings"
  {
    if accountType == "Savings" then 0.01 else 0.0
  }

  /** The monthly fee an account of this type is opened with. */
  function FeeFor(accountType: string): (fee: real)
    ensures fee == 5.0 <==> accountType == "Checking" || accountType == "Business"
    ensures fee == 0.0 <==> accountType != "Checking" && accountType != "Business"
  {
    if accountType == "Checking" || accountType == "Business" then 5.0 else 0.0
  }

  /** A newly created account: no transactions, rate and fee fixed by its type. */
  function Open(number: int, owner: string, initialBalance: real, accountType: string, pin: int): (a: Account)
    ensures a.transactions == [] && Consistent(a)
    ensures Net(a) == initialBalance
  {
    Account(number, owner, accountType, initialBalance, [], InterestRateFor(accountType), FeeFor(accountType), pin)
  }

  // ---------------------------------------------------------------------
  // What the ledger says about the balance

  /** The change in balance a transaction of this kind and amount records. */
  function Effect(kind: string, amount: real): real {
    if kind == KindDeposit || kind == KindTransferIn || kind == KindInterest then amount
    else if kind == KindWithdraw || kind == KindTransferOut || kind == KindMonthlyFee then -amount
    else 0.0
  }

  function SignedSum(ts: seq<Transaction>): real {
    if ts == [] then 0.0 else Effect(ts[0].kind, ts[0].amount) + SignedSum(ts[1..])
  }

  /** The opening balance the ledger implies: balance minus every recorded change. */
  function Net(a: Account): real {
    a.balance - SignedSum(a.transactions)
  }

  /** The last transaction, if any, records the current balance. */
  predicate Consistent(a: Account) {
    a.transactions == [] || a.transactions[|a.transactions| - 1].balanceAfter == a.balance
  }

  /** Everything but the balance and the ledger is the same. */
  predicate SameIdentity(a: Account, b: Account) {
    && a.number == b.number && a.owner == b.owner && a.accountType == b.accountType
    && a.interestRate == b.interestRate && a.fee == b.fee && a.pin == b.pin
  }

  predicate IsPrefix(s: seq<Transaction>, t: seq<Transaction>) {
    |s| <= |t| && t[..|s|] == s
  }

  /**
   * `r` is `a` with exactly one transaction appended: of the given kind and
   * amount, dated `now`, and recording `r`'s balance.
   */
  predicate AppendsOne(a: Account, r: Account, kind: string, amount: real, now: Moment) {
    && SameIdentity(a, r)
    && |r.transactions| == |a.transactions| + 1
    && r.transactions[..|a.transactions|] == a.transactions
    && r.transactions[|a.transactions|] == Transaction(now, kind, amount, r.balance)
  }

  lemma {:induction false} SignedSumAppend(ts: seq<Transaction>, t: Transaction)
    ensures SignedSum(ts + [t]) == SignedSum(ts) + Effect(t.kind, t.amount)
  {
    if ts != [] {
      assert (ts + [t])[1..] == ts[1..] + [t];
      SignedSumAppend(ts[1..], t);
    }
  }

  // ---------------------------------------------------------------------
  // The operations

  /** Set the balance and record it with one new transaction dated `now`. */
  function Post(a: Account, now: Moment, kind: string, amount: real, newBalance: real): Account {
    a.(balance := newBalance,
       transactions := a.transactions + [Transaction(now, kind, amount, newBalance)])
  }

  function AfterDeposit(a: Account, amount: real, now: Moment): Account {
    if amount > 0.0 then Post(a, now, KindDeposit, amount, a.balance + amount) else a
  }

  function AfterWithdraw(a: Account, amount: real, now: Moment): Account {
    if 0.0 < amount <= a.balance then Post(a, now, KindWithdraw, amount, a.balance - amount) else a
  }

  /** The sender's half of a transfer. */
  function Debit(a: Account, amount: real, now: Moment): Account {
    Post(a, now, KindTransferOut, amount, a.balance - amount)
  }

  /** The recipient's half of a transfer. */
  function Credit(b: Account, amount: real, now: Moment): Account {
    Post(b, now, KindTransferIn, amount, b.balance + amount)
  }

  /** A transfer between two different accounts: sender first, recipient second. */
  function AfterTransfer(a: Account, b: Account, amount: real, nowOut: Moment, nowIn: Moment): (Account, Account) {
    if 0.0 < amount <= a.balance then (Debit(a, amount, nowOut), Credit(b, amount, nowIn)) else (a, b)
  }

  /**
   * A transfer whose recipient is the sender: both balance updates happen
   * before either transaction is appended, so both record the unchanged balance.
   */
  function AfterSelfTransfer(a: Account, amount: real, nowOut: Moment, nowIn: Moment): Account {
    if 0.0 < amount <= a.balance then
      var b := (a.balance - amount) + amount;
      Post(Post(a, nowOut, KindTransferOut, amount, b), nowIn, KindTransferIn, amount, b)
    else a
  }

  function AfterInterest(a: Account, now: Moment): Account {
    if a.accountType == "Savings" && a.balance > 0.0 then
      var interest := a.balance * a.interestRate;
      Post(a, now, KindInterest, interest, a.balance + interest)
    else a
  }

  function AfterFee(a: Account, now: Moment): Account {
    if a.fee > 0.0 then Post(a, now, KindMonthlyFee, a.fee, a.balance - a.fee) else a
  }

  // ---------------------------------------------------------------------
  // What each operation guarantees

  /** Posting appends one clock-dated transaction and keeps the implied opening balance. */
  lemma PostLaw(a: Account, now: Moment, kind: string, amount: real, newBalance: real)
    requires newBalance == a.balance + Effect(kind, amount)
    ensures var r := Post(a, now, kind, amount, newBalance);
      AppendsOne(a, r, kind, amount, now) && Net(r) == Net(a)
  {
    SignedSumAppend(a.transactions, Transaction(now, kind, amount, newBalance));
  }

  lemma DepositLaw(a: Account, amount: real, now: Moment)
    ensures var r := AfterDeposit(a, amount, now);
      && (amount > 0.0 ==> r.balance == a.balance + amount && AppendsOne(a, r, KindDeposit, amount, now))
      && (amount <= 0.0 ==> r == a)
      && Net(r) == Net(a)
  {
    var r := AfterDeposit(a, amount, now);
    if amount > 0.0 {
      PostLaw(a, now, KindDeposit, amount, a.balance + amount);
      assert r == Post(a, now, KindDeposit, amount, a.balance + amount);
    } else {
      assert r == a;
    }
  }

  lemma WithdrawLaw(a: Account, amount: real, now: Moment)
    ensures var r := AfterWithdraw(a, amount, now);
      && (0.0 < amount <= a.balance ==> r.balance == a.balance - amount && AppendsOne(a, r, KindWithdraw, amount, now))
      && (!(0.0 < amount <= a.balance) ==> r == a)
      && (a.balance >= 0.0 ==> r.balance >= 0.0)
      && Net(r) == Net(a)
  {
    var r := AfterWithdraw(a, amount, now);
    if 0.0 < amount <= a.balance {
      PostLaw(a, now, KindWithdraw, amount, a.balance - amount);
      assert r == Post(a, now, KindWithdraw, amount, a.balance - amount);
    } else {
      assert r == a;
    }
  }

  lemma TransferLaw(a: Account, b: Account, amount: real, nowOut: Moment, nowIn: Moment)
    ensures var (a', b') := AfterTransfer(a, b, amount, nowOut, nowIn);
      && (0.0 < amount <= a.balance ==>
            && a'.balance == a.balance - amount && AppendsOne(a, a', KindTransferOut, amount, nowOut)
            && b'.balance == b.balance + amount && AppendsOne(b, b', KindTransferIn, amount, nowIn))
      && (!(0.0 < amount <= a.balance) ==> a' == a && b' == b)
      && a'.balance + b'.balance == a.balance + b.balance
      && Net(a') == Net(a) && Net(b') == Net(b)
  {
    var (a', b') := AfterTransfer(a, b, amount, nowOut, nowIn);
    if 0.0 < amount <= a.balance {
      PostLaw(a, nowOut, KindTransferOut, amount, a.balance - amount);
      PostLaw(b, nowIn, KindTransferIn, amount, b.balance + amount);
      assert a' == Debit(a, amount, nowOut) && b' == Credit(b, amount, nowIn);
    } else {
      assert a' == a && b' == b;
    }
  }

  /** The two records a transfer to oneself appends cancel out in the ledger. */
  lemma SelfTransferNet(a: Account, amount: real, nowOut: Moment, nowIn: Moment)
    ensures Net(AfterSelfTransfer(a, amount, nowOut, nowIn)) == Net(a)
  {
    var r := AfterSelfTransfer(a, amount, nowOut, nowIn);
    if 0.0 < amount <= a.balance {
      var out := Transaction(nowOut, KindTransferOut, amount, a.balance);
      var into := Transaction(nowIn, KindTransferIn, amount, a.balance);
      assert r.transactions == (a.transactions + [out]) + [into];
      SignedSumAppend(a.transactions, out);
      SignedSumAppend(a.transactions + [out], into);
    }
  }

  lemma SelfTransferLaw(a: Account, amount: real, nowOut: Moment, nowIn: Moment)
    ensures var r := AfterSelfTransfer(a, amount, nowOut, nowIn);
      && (0.0 < amount <= a.balance ==>
            && r.balance == a.balance
            && r.transactions == a.transactions + [
                 Transaction(nowOut, KindTransferOut, amount, a.balance),
                 Transaction(nowIn, KindTransferIn, amount, a.balance)])
      && (!(0.0 < amount <= a.balance) ==> r == a)
      && SameIdentity(a, r)
      && Net(r) == Net(a)
  {
    SelfTransferNet(a, amount, nowOut, nowIn);
  }

  lemma InterestLaw(a: Account, now: Moment)
    ensures var r := AfterInterest(a, now);
      && (a.accountType == "Savings" && a.balance > 0.0 ==>
            && r.balance == a.balance + a.balance * a.interestRate
            && AppendsOne(a, r, KindInterest, a.balance * a.interestRate, now))
      && (!(a.accountType == "Savings" && a.balance > 0.0) ==> r == a)
      && Net(r) == Net(a)
  {
    var r := AfterInterest(a, now);
    if a.accountType == "Savings" && a.balance > 0.0 {
      var interest := a.balance * a.interestRate;
      PostLaw(a, now, KindInterest, interest, a.balance + interest);
      assert r == Post(a, now, KindInterest, interest, a.balance + interest);
    } else {
      assert r == a;
    }
  }

  lemma FeeLaw(a: Account, now: Moment)
    ensures var r := AfterFee(a, now);
      && (a.fee > 0.0 ==> r.balance == a.balance - a.fee && AppendsOne(a, r, KindMonthlyFee, a.fee, now))
      && (a.fee <= 0.0 ==> r == a)
      && Net(r) == Net(a)
  {
    var r := AfterFee(a, now);
    if a.fee > 0.0 {
      PostLaw(a, now, KindMonthlyFee, a.fee, a.balance - a.fee);
      assert r == Post(a, now, KindMonthlyFee, a.fee, a.balance - a.fee);
    } else {
      assert r == a;
    }
  }

  // ---------------------------------------------------------------------
  // Any history of operations on one account

  /** One operation as it reaches one account; a transfer reaches the sender and the recipient separately. */
  datatype Op =
    | DepositOp(amount: real, now: Moment)
    | WithdrawOp(amount: real, now: Moment)
    | SendOp(amount: real, now: Moment)
    | ReceiveOp(amount: real, now: Moment)
    | SelfTransferOp(amount: real, nowOut: Moment, nowIn: Moment)
    | InterestOp(now: Moment)
    | FeeOp(now: Moment)

  function Apply(a: Account, op: Op): Account {
    match op
    case DepositOp(x, now) => AfterDeposit(a, x, now)
    case WithdrawOp(x, now) => AfterWithdraw(a, x, now)
    case SendOp(x, now) => if 0.0 < x <= a.balance then Debit(a, x, now) else a
    case ReceiveOp(x, now) => Credit(a, x, now)
    case SelfTransferOp(x, nowOut, nowIn) => AfterSelfTransfer(a, x, nowOut, nowIn)
    case InterestOp(now) => AfterInterest(a, now)
    case FeeOp(now) => AfterFee(a, now)
  }

  function Run(a: Account, ops: seq<Op>): Account
    decreases |ops|
  {
    if ops == [] then a else Run(Apply(a, ops[0]), ops[1..])
  }

  /**
   * `r` follows from `a` by appending only: either nothing changed, or records
   * were appended and the last one states the new balance; earlier records,
   * the account's fixed fields and the implied opening balance are kept.
   */
  predicate Extends(a: Account, r: Account) {
    && (r == a || (|r.transactions| > |a.transactions| && Consistent(r)))
    && SameIdentity(a, r)
    && IsPrefix(a.transactions, r.transactions)
    && Net(r) == Net(a)
  }

  /** An operation that either changed nothing or appended one clock-dated record, keeping the opening balance, extends. */
  lemma StepExtends(a: Account, r: Account, kind: string, amount: real, now: Moment)
    requires r == a || AppendsOne(a, r, kind, amount, now)
    requires Net(r) == Net(a)
    ensures Extends(a, r)
  {
  }

  lemma SelfTransferExtends(a: Account, x: real, nowOut: Moment, nowIn: Moment)
    ensures Extends(a, AfterSelfTransfer(a, x, nowOut, nowIn))
  {
    var r := AfterSelfTransfer(a, x, nowOut, nowIn);
    SelfTransferLaw(a, x, nowOut, nowIn);
    if r != a {
      var m := Post(a, nowOut, KindTransferOut, x, a.balance);
      assert r == Post(m, nowIn, KindTransferIn, x, a.balance);
      assert r.transactions[..|a.transactions|] == a.transactions;
    }
  }

  /** Both sides of a transfer between two different accounts extend their accounts. */
  lemma TransferExtends(a: Account, b: Account, amount: real, nowOut: Moment, nowIn: Moment)
    ensures Extends(a, AfterTransfer(a, b, amount, nowOut, nowIn).0)
    ensures Extends(b, AfterTransfer(a, b, amount, nowOut, nowIn).1)
  {
    TransferLaw(a, b, amount, nowOut, nowIn);
    if 0.0 < amount <= a.balance {
      StepExtends(a, Debit(a, amount, nowOut), KindTransferOut, amount, nowOut);
      StepExtends(b, Credit(b, amount, nowIn), KindTransferIn, amount, nowIn);
    }
  }

  lemma ExtendsTransitive(a: Account, m: Account, r: Account)
    requires Extends(a, m) && Extends(m, r)
    ensures Extends(a, r)
  {
  }

  /** Every single operation extends the account. */
  lemma ApplyLaw(a: Account, op: Op)
    ensures Extends(a, Apply(a, op))
  {
    var r := Apply(a, op);
    match op
    case DepositOp(x, now) =>
      DepositLaw(a, x, now);
      StepExtends(a, r, KindDeposit, x, now);
    case WithdrawOp(x, now) =>
      WithdrawLaw(a, x, now);
      StepExtends(a, r, KindWithdraw, x, now);
    case SendOp(x, now) =>
      TransferLaw(a, a, x, now, now);
      StepExtends(a, r, KindTransferOut, x, now);
    case ReceiveOp(x, now) =>
      PostLaw(a, now, KindTransferIn, x, a.balance + x);
      StepExtends(a, r, KindTransferIn, x, now);
    case SelfTransferOp(x, nowOut, nowIn) =>
      SelfTransferExtends(a, x, nowOut, nowIn);
    case InterestOp(now) =>
      InterestLaw(a, now);
      StepExtends(a, r, KindInterest, a.balance * a.interestRate, now);
    case FeeOp(now) =>
      FeeLaw(a, now);
      StepExtends(a, r, KindMonthlyFee, a.fee, now);
  }

  /** Any sequence of operations extends the account. */
  lemma {:induction false} RunLaw(a: Account, ops: seq<Op>)
    ensures Extends(a, Run(a, ops))
    decreases |ops|
  {
    if ops != [] {
      var m := Apply(a, ops[0]);
      ApplyLaw(a, ops[0]);
      RunLaw(m, ops[1..]);
      ExtendsTransitive(a, m, Run(m, ops[1..]));
    }
  }

  /**
   * A newly opened account, after any history of operations, has a balance
   * equal to its initial balance plus the signed amounts of its ledger, and
   * its last record states that balance.
   */
  lemma OpenThenRun(number: int, owner: string, initialBalance: real, accountType: string, pin: int, ops: seq<Op>)
    ensures var r := Run(Open(number, owner, initialBalance, accountType, pin), ops);
      && r.balance == initialBalance + SignedSum(r.transactions)
      && Consistent(r)
      && r.interestRate == InterestRateFor(accountType) && r.fee == FeeFor(accountType)
  {
    RunLaw(Open(number, owner, initialBalance, accountType, pin), ops);
  }
}
