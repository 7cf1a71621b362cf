/**
 * Converting transactions and accounts to plain records and back
 * (`to_dict` and `from_dict`). Reading a record follows the order in which
 * the keys are looked up, so the first missing or malformed field decides
 * the error.
 */
module Storage {
  import opened Wrappers
  import opened Timestamp
  import opened Records
  import opened Ledger

  function TransactionToDict(t: Transaction): (v: Value)
    ensures v.Object?
  {
    Object(map[
      "date" := Str(Format(t.date)),
      "type" := Str(t.kind),
      "amount" := Num(t.amount),
      "balance_after" := Num(t.balanceAfter)])
  }

  /** A stored transaction has exactly the four keys, the date written in the fixed format. */
  lemma TransactionToDictKeys(t: Transaction)
    ensures var v := TransactionToDict(t);
      && v.fields.Keys == {"date", "type", "amount", "balance_after"}
      && v.fields["date"] == Str(Format(t.date)) && Parse(v.fields["date"].s) == Some(t.date)
  {
    ParseFormat(t.date);
  }

  /**
   * Transaction.from_dict: the date text is parsed into a date-time, which
   * dates the new transaction; a text that does not parse is an error.
   */
  function TransactionFromDict(v: Value): (r: Result<Transaction, Error>)
    ensures !v.Object? ==> r == Err(NotAnObject)
    ensures v.Object? && "date" !in v.fields ==> r == Err(MissingKey("date"))
    ensures v.Object? && "date" in v.fields && v.fields["date"].Str? && Parse(v.fields["date"].s).None? ==>
              r == Err(BadDate(v.fields["date"].s))
    ensures r.Ok? ==> && v.Object?
                      && "date" in v.fields && v.fields["date"] == Str(Format(r.value.date))
                      && "type" in v.fields && v.fields["type"] == Str(r.value.kind)
                      && GetNumber(v.fields, "amount") == Ok(r.value.amount)
                      && GetNumber(v.fields, "balance_after") == Ok(r.value.balanceAfter)
  {
    if !v.Object? then Err(NotAnObject)
    else
      var text :- GetString(v.fields, "date");
      var moment := Parse(text);
      if moment.None? then Err(BadDate(text))
      else
        var kind :- GetString(v.fields, "type");
        var amount :- GetNumber(v.fields, "amount");
        var balanceAfter :- GetNumber(v.fields, "balance_after");
        FormatParse(text);
        Ok(Transaction(moment.value, kind, amount, balanceAfter))
  }

  /**
   * When a stored transaction reads: exactly when it is an object whose date
   * parses and whose type, amount and balance are present and well typed; a
   * missing key after the date is reported in the order the keys are looked up.
   */
  lemma TransactionFromDictCases(v: Value)
    ensures v.Object? && GetString(v.fields, "date").Ok? && Parse(v.fields["date"].s).Some? ==>
              && ("type" !in v.fields ==> TransactionFromDict(v) == Err(MissingKey("type")))
              && (GetString(v.fields, "type").Ok? && "amount" !in v.fields ==>
                    TransactionFromDict(v) == Err(MissingKey("amount")))
              && (GetString(v.fields, "type").Ok? && GetNumber(v.fields, "amount").Ok? && "balance_after" !in v.fields ==>
                    TransactionFromDict(v) == Err(MissingKey("balance_after")))
    ensures TransactionFromDict(v).Ok? <==>
              && v.Object? && GetString(v.fields, "date").Ok? && Parse(v.fields["date"].s).Some?
              && GetString(v.fields, "type").Ok?
              && GetNumber(v.fields, "amount").Ok? && GetNumber(v.fields, "balance_after").Ok?
  {
  }

  function TransactionsToDicts(ts: seq<Transaction>): (vs: seq<Value>)
    ensures |vs| == |ts|
  {
    if ts == [] then [] else [TransactionToDict(ts[0])] + TransactionsToDicts(ts[1..])
  }

  /** The `i`-th stored record is the `i`-th transaction's. */
  lemma {:induction false} TransactionsToDictsAt(ts: seq<Transaction>, i: nat)
    requires i < |ts|
    ensures TransactionsToDicts(ts)[i] == TransactionToDict(ts[i])
  {
    if i > 0 {
      TransactionsToDictsAt(ts[1..], i - 1);
    }
  }

  /** Every record read in order; the first that fails decides the error. */
  function TransactionsFromDicts(vs: seq<Value>): (r: Result<seq<Transaction>, Error>)
    ensures r.Ok? ==> |r.value| == |vs|
    ensures vs != [] && TransactionFromDict(vs[0]).Err? ==> r == Err(TransactionFromDict(vs[0]).error)
  {
    if vs == [] then Ok([])
    else
      var t :- TransactionFromDict(vs[0]);
      var rest :- TransactionsFromDicts(vs[1..]);
      Ok([t] + rest)
  }

  /** Reading a list of records succeeds exactly when every record can be read. */
  lemma TransactionsFromDictsOk(vs: seq<Value>)
    ensures TransactionsFromDicts(vs).Ok? <==> forall i :: 0 <= i < |vs| ==> TransactionFromDict(vs[i]).Ok?
  {
    if TransactionsFromDicts(vs).Ok? {
      forall i | 0 <= i < |vs|
        ensures TransactionFromDict(vs[i]).Ok?
      {
        TransactionsFromDictsAt(vs, TransactionsFromDicts(vs).value, i);
      }
    } else if forall i :: 0 <= i < |vs| ==> TransactionFromDict(vs[i]).Ok? {
      TransactionsFromDictsAll(vs);
    }
  }

  /** On success the `i`-th transaction is what the `i`-th record reads as: the order is kept. */
  lemma {:induction false} TransactionsFromDictsAt(vs: seq<Value>, ts: seq<Transaction>, i: nat)
    requires TransactionsFromDicts(vs) == Ok(ts) && i < |vs|
    ensures TransactionFromDict(vs[i]) == Ok(ts[i])
  {
    TransactionsFromDictsUnfold(vs, ts);
    if i > 0 {
      TransactionsFromDictsAt(vs[1..], ts[1..], i - 1);
      assert vs[1..][i - 1] == vs[i] && ts[1..][i - 1] == ts[i];
    }
  }

  /** A list that reads is its first record's transaction followed by the rest's. */
  lemma TransactionsFromDictsUnfold(vs: seq<Value>, ts: seq<Transaction>)
    requires vs != [] && TransactionsFromDicts(vs) == Ok(ts)
    ensures TransactionFromDict(vs[0]) == Ok(ts[0]) && TransactionsFromDicts(vs[1..]) == Ok(ts[1..])
  {
    var t := TransactionFromDict(vs[0]).value;
    var rest := TransactionsFromDicts(vs[1..]).value;
    assert ts == [t] + rest;
  }

  /** A list whose first record reads fails as its rest does. */
  lemma TransactionsFromDictsTailError(vs: seq<Value>)
    requires vs != [] && TransactionFromDict(vs[0]).Ok? && TransactionsFromDicts(vs[1..]).Err?
    ensures TransactionsFromDicts(vs) == TransactionsFromDicts(vs[1..])
  {
  }

  /** A list every record of which reads, reads. */
  lemma {:induction false} TransactionsFromDictsAll(vs: seq<Value>)
    requires forall i :: 0 <= i < |vs| ==> TransactionFromDict(vs[i]).Ok?
    ensures TransactionsFromDicts(vs).Ok?
  {
    if vs != [] {
      assert forall i :: 0 <= i < |vs| - 1 ==> vs[1..][i] == vs[i + 1];
      TransactionsFromDictsAll(vs[1..]);
      TransactionsFromDictsStep(vs);
    }
  }

  /** When every record before the `i`-th reads and the `i`-th does not, its error is the list's. */
  lemma {:induction false} TransactionsFromDictsFirstError(vs: seq<Value>, i: nat)
    requires i < |vs| && TransactionFromDict(vs[i]).Err?
    requires forall j :: 0 <= j < i ==> TransactionFromDict(vs[j]).Ok?
    ensures TransactionsFromDicts(vs) == Err(TransactionFromDict(vs[i]).error)
  {
    if i > 0 {
      var rest := vs[1..];
      assert TransactionFromDict(vs[0]).Ok?;
      assert rest[i - 1] == vs[i];
      forall j | 0 <= j < i - 1
        ensures TransactionFromDict(rest[j]).Ok?
      {
        assert rest[j] == vs[j + 1];
      }
      TransactionsFromDictsFirstError(rest, i - 1);
      assert TransactionsFromDicts(rest) == Err(TransactionFromDict(vs[i]).error);
      TransactionsFromDictsTailError(vs);
    }
  }

  /** A non-empty list reads exactly when its first record and the rest both read. */
  lemma TransactionsFromDictsStep(vs: seq<Value>)
    requires vs != []
    ensures TransactionsFromDicts(vs).Ok? <==>
      TransactionFromDict(vs[0]).Ok? && TransactionsFromDicts(vs[1..]).Ok?
  {
  }

  /** A transaction survives the conversion unchanged. */
  lemma TransactionRoundTrip(t: Transaction)
    ensures TransactionFromDict(TransactionToDict(t)) == Ok(t)
  {
    ParseFormat(t.date);
  }

  /** Reading a list whose first record and rest both read. */
  lemma TransactionsFromDictsCons(v: Value, vs: seq<Value>, t: Transaction, rest: seq<Transaction>)
    requires TransactionFromDict(v) == Ok(t) && TransactionsFromDicts(vs) == Ok(rest)
    ensures TransactionsFromDicts([v] + vs) == Ok([t] + rest)
  {
    assert ([v] + vs)[0] == v && ([v] + vs)[1..] == vs;
  }

  lemma {:induction false} TransactionsRoundTrip(ts: seq<Transaction>)
    ensures TransactionsFromDicts(TransactionsToDicts(ts)) == Ok(ts)
  {
    if ts != [] {
      var v, vs := TransactionToDict(ts[0]), TransactionsToDicts(ts[1..]);
      assert TransactionsToDicts(ts) == [v] + vs;
      TransactionRoundTrip(ts[0]);
      TransactionsRoundTrip(ts[1..]);
      TransactionsFromDictsCons(v, vs, ts[0], ts[1..]);
      assert ts == [ts[0]] + ts[1..];
    }
  }

  function AccountToDict(a: Account): (v: Value)
    ensures v.Object?
  {
    Object(map[
      "account_number" := Int(a.number),
      "owner" := Str(a.owner),
      "account_type" := Str(a.accountType),
      "balance" := Num(a.balance),
      "transactions" := List(TransactionsToDicts(a.transactions)),
      "interest_rate" := Num(a.interestRate),
      "fee" := Num(a.fee),
      "pin" := Int(a.pin)])
  }

  /** A stored account has exactly the eight keys, one record per transaction in ledger order. */
  lemma AccountToDictKeys(a: Account)
    ensures var v := AccountToDict(a);
      && v.fields.Keys ==
           {"account_number", "owner", "account_type", "balance", "transactions", "interest_rate", "fee", "pin"}
      && v.fields["transactions"].List? && |v.fields["transactions"].items| == |a.transactions|
      && forall i :: 0 <= i < |a.transactions| ==> v.fields["transactions"].items[i] == TransactionToDict(a.transactions[i])
  {
    forall i | 0 <= i < |a.transactions|
      ensures TransactionsToDicts(a.transactions)[i] == TransactionToDict(a.transactions[i])
    {
      TransactionsToDictsAt(a.transactions, i);
    }
  }

  /** The arguments BankAccount.from_dict passes to the constructor: owner, balance, account type. */
  datatype Opening = Opening(owner: string, balance: real, accountType: string)

  function OpeningFromDict(v: Value): (r: Result<Opening, Error>)
    ensures !v.Object? ==> r == Err(NotAnObject)
    ensures r.Ok? <==> && v.Object? && GetString(v.fields, "owner").Ok?
                       && GetNumber(v.fields, "balance").Ok? && GetString(v.fields, "account_type").Ok?
    ensures v.Object? && GetString(v.fields, "owner").Err? ==> r == Err(GetString(v.fields, "owner").error)
    ensures v.Object? && GetString(v.fields, "owner").Ok? && GetNumber(v.fields, "balance").Err? ==>
              r == Err(GetNumber(v.fields, "balance").error)
    ensures r.Ok? ==> && v.fields["owner"] == Str(r.value.owner)
                      && GetNumber(v.fields, "balance") == Ok(r.value.balance)
                      && v.fields["account_type"] == Str(r.value.accountType)
  {
    if !v.Object? then Err(NotAnObject)
    else
      var owner :- GetString(v.fields, "owner");
      var balance :- GetNumber(v.fields, "balance");
      var accountType :- GetString(v.fields, "account_type");
      Ok(Opening(owner, balance, accountType))
  }

  /**
   * BankAccount.from_dict on values: the account is opened from the owner,
   * balance and type, then its number, ledger, rate, fee and PIN are
   * replaced by the stored ones.
   */
  function AccountFromDict(v: Value): (r: Result<Account, Error>)
    ensures OpeningFromDict(v).Err? ==> r == Err(OpeningFromDict(v).error)
    ensures r.Ok? <==> && OpeningFromDict(v).Ok?
                       && GetInt(v.fields, "account_number").Ok?
                       && GetList(v.fields, "transactions").Ok?
                       && TransactionsFromDicts(v.fields["transactions"].items).Ok?
                       && GetNumber(v.fields, "interest_rate").Ok?
                       && GetNumber(v.fields, "fee").Ok?
                       && GetInt(v.fields, "pin").Ok?
    ensures r.Ok? ==> var o := OpeningFromDict(v).value;
      && r.value.owner == o.owner && r.value.balance == o.balance && r.value.accountType == o.accountType
      && v.fields["account_number"] == Int(r.value.number)
      && TransactionsFromDicts(v.fields["transactions"].items) == Ok(r.value.transactions)
      && GetNumber(v.fields, "interest_rate") == Ok(r.value.interestRate)
      && GetNumber(v.fields, "fee") == Ok(r.value.fee)
      && v.fields["pin"] == Int(r.value.pin)
  {
    var o :- OpeningFromDict(v);
    var number :- GetInt(v.fields, "account_number");
    var items :- GetList(v.fields, "transactions");
    var transactions :- TransactionsFromDicts(items);
    var rate :- GetNumber(v.fields, "interest_rate");
    var fee :- GetNumber(v.fields, "fee");
    var pin :- GetInt(v.fields, "pin");
    Ok(Account(number, o.owner, o.accountType, o.balance, transactions, rate, fee, pin))
  }

  /** An account is reproduced field for field, ledger in order. */
  lemma AccountRoundTrip(a: Account)
    ensures AccountFromDict(AccountToDict(a)) == Ok(a)
  {
    var v := AccountToDict(a);
    assert OpeningFromDict(v) == Ok(Opening(a.owner, a.balance, a.accountType));
    assert GetList(v.fields, "transactions") == Ok(TransactionsToDicts(a.transactions));
    TransactionsRoundTrip(a.transactions);
  }
}
