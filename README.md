# Bank account ledger

A Dafny model of the in-memory account ledger of `bank.py`: the `BankAccount`
class with its class-wide account-number counter, the five operations that
change a balance (deposit, withdraw, transfer, apply interest, apply the monthly
fee), and the conversion of accounts and their `Transaction` records to plain
records and back (`to_dict` / `from_dict`).

The project has six modules, one file each:

- `Wrappers`: `Option` and `Result`.
- `Timestamp`: dates and times to the second. `Format` writes a date-time as
  strftime does with `"%Y-%m-%d %H:%M:%S"`. `Parse` reads such text back as
  strptime does. Both round trips are proved.
- `Records`: the values a record is made of (strings, integers, numbers, lists
  and key/value objects), how a field is looked up, and the errors a lookup
  raises.
- `Ledger`: an account and its transactions as values. Each operation is a
  function (`AfterDeposit`, `AfterWithdraw`, `AfterTransfer`,
  `AfterSelfTransfer`, `AfterInterest`, `AfterFee`). Laws state each
  operation's guard, its effect on the balance and the exact record it appends.
  `Extends` states that the ledger is append-only and that its last record
  matches the balance. `Extends` is proved for any sequence of operations.
- `Storage`: `to_dict` and `from_dict` for transactions and accounts. Reading
  follows Python's key lookup order, so the first missing or malformed field
  decides the error. Both round trips are proved.
- `Bank`: the classes.
  - `AccountCounter` holds the next account number.
  - `BankAccount` has the source's fields and updates them in place. Each
    method is proved to leave the account in exactly the state the `Ledger`
    function gives (`View()`). Each also proves that the ledger was only
    extended.

Money is exact (`real`). The clock and the random PIN are parameters. A
transfer takes two clock readings, because the source calls
`datetime.now()` once for each of its two records.

A transfer whose recipient is the sender itself is modelled as written. Both
balance updates run before either record is appended. The balance ends
unchanged, and two records are appended, both stating that balance.

The monthly fee is charged only when it is positive (bank.py:84), so a zero or
negative fee leaves the account untouched.

## Model

| member | source | states |
|---|---|---|
| Bank.AccountCounter.constructor | bank.py:30 | account numbers start at 1001 |
| Bank.BankAccount.constructor | bank.py:32-41 | the new account takes the counter's current value as its number; the counter then grows by exactly one; the balance is the initial balance, the ledger is empty, and the rate and fee come from the account type |
| Ledger.InterestRateFor | bank.py:38 | the interest rate is 0.01 exactly when the type is "Savings", and 0 otherwise |
| Ledger.FeeFor | bank.py:39 | the fee is 5 exactly when the type is "Checking" or "Business", and 0 otherwise |
| Ledger.Open | bank.py:32-41 | a new account has an empty ledger, and the opening balance the ledger implies is the initial balance |
| Bank.BankAccount.CheckPin | bank.py:47-48 | true exactly when the candidate equals the account's PIN |
| Bank.BankAccount.GetBalance | bank.py:89-91 | returns the current balance |
| Bank.BankAccount.Deposit | bank.py:50-56 | succeeds exactly when the amount is positive; the new state is `AfterDeposit` of the old one; the ledger is only extended |
| Ledger.DepositLaw | bank.py:50-56 | a positive amount raises the balance by that amount and appends one "Deposit" record with the amount and the new balance; any other amount changes nothing |
| Bank.BankAccount.Withdraw | bank.py:58-64 | succeeds exactly when 0 < amount <= balance; the new state is `AfterWithdraw` of the old one; the ledger is only extended |
| Ledger.WithdrawLaw | bank.py:58-64 | when 0 < amount <= balance, the balance falls by the amount and one "Withdraw" record is appended; otherwise nothing changes; a non-negative balance stays non-negative |
| Bank.BankAccount.Transfer | bank.py:66-74 | succeeds exactly when 0 < amount <= the sender's balance; with a distinct recipient, both accounts end as `AfterTransfer` gives and both ledgers are only extended; with the sender as recipient, the account ends as `AfterSelfTransfer` gives |
| Ledger.TransferLaw | bank.py:66-74 | on success the sender loses the amount and gets one "Transfer Out" record, and the recipient gains it and gets one "Transfer In" record; the sum of the two balances is unchanged; on failure neither account changes |
| Ledger.TransferExtends | bank.py:66-74 | a transfer between two accounts only appends to each of them |
| Ledger.SelfTransferLaw | bank.py:66-74 | a successful transfer to oneself keeps the balance and appends a "Transfer Out" and a "Transfer In" record, both stating that balance; an unsuccessful one changes nothing |
| Ledger.SelfTransferExtends | bank.py:66-74 | a transfer to oneself only appends to the ledger |
| Bank.BankAccount.ApplyInterest | bank.py:76-81 | the new state is `AfterInterest` of the old one; the ledger is only extended |
| Ledger.InterestLaw | bank.py:76-81 | a "Savings" account with a positive balance gains balance times rate and gets one "Interest" record carrying that interest; any other account is unchanged |
| Bank.BankAccount.ApplyFee | bank.py:83-87 | the new state is `AfterFee` of the old one; the ledger is only extended |
| Ledger.FeeLaw | bank.py:83-87 | a positive fee is taken from the balance with no check that it is covered, and one "Monthly Fee" record is appended; otherwise nothing changes |
| Ledger.ApplyLaw | bank.py:50-87 | every operation, successful or not, keeps the account's identity and earlier records; when it changes the account, the last record states the new balance; the balance minus the ledger's signed sum is kept |
| Ledger.RunLaw | bank.py:50-87 | any sequence of operations keeps the account's identity, keeps every earlier record in order, and keeps the implied opening balance |
| Ledger.OpenThenRun | bank.py:32-87 | after any history, an account's balance is its initial balance plus the signed amounts of its ledger; its last record states the balance; its rate and fee are those of its type |
| Timestamp.Format | bank.py:8 | a date-time is written as 19 characters |
| Timestamp.Parse | bank.py:26 | text that parses has the layout "DDDD-DD-DD DD:DD:DD" |
| Timestamp.ParseFormat | bank.py:26 | parsing the text written for a date-time gives that date-time back |
| Timestamp.FormatParse | bank.py:26 | text that parses is exactly the text written for what it parses to |
| Records.GetString | bank.py:114 | a lookup succeeds exactly when the key is present and holds a string, and then returns it |
| Records.GetNumber | bank.py:114 | a lookup succeeds exactly when the key is present and holds an integer or a number; a stored number is returned as is, and a stored integer as the same value |
| Records.GetInt | bank.py:115 | a lookup succeeds exactly when the key is present and holds an integer, and then returns it |
| Records.GetList | bank.py:116 | a lookup succeeds exactly when the key is present and holds a list, and then returns it |
| Storage.TransactionToDict | bank.py:16-22 | a transaction is stored as a key/value object |
| Storage.TransactionToDictKeys | bank.py:16-22 | the stored object has exactly the keys "date", "type", "amount" and "balance_after"; the date is the formatted text, which parses back to the transaction's date |
| Storage.TransactionFromDict | bank.py:24-27 | a non-object, a missing "date" and an unparsable date are errors; on success the date, type, amount and balance read back are those stored |
| Storage.TransactionFromDictCases | bank.py:24-27 | a record reads exactly when it is an object whose date parses and whose type, amount and balance are present and well typed; extra keys are ignored; once the date parses, a missing "type", "amount" or "balance_after" is reported in that lookup order |
| Storage.TransactionRoundTrip | bank.py:16-27 | storing a transaction and reading it back gives the same transaction |
| Storage.TransactionsToDicts | bank.py:105 | one record per transaction |
| Storage.TransactionsToDictsAt | bank.py:105 | the i-th record is the i-th transaction's |
| Storage.TransactionsFromDicts | bank.py:116 | on success there is one transaction per record; a failing first record decides the error |
| Storage.TransactionsFromDictsAt | bank.py:116 | on success the i-th transaction is what the i-th record reads as, so the order is kept |
| Storage.TransactionsFromDictsFirstError | bank.py:116 | when every record before the i-th reads and the i-th does not, the list fails with the i-th record's error |
| Storage.TransactionsFromDictsOk | bank.py:116 | a list of records reads exactly when every record in it reads |
| Storage.TransactionsRoundTrip | bank.py:105 | storing a ledger and reading it back gives the same ledger, in order |
| Storage.AccountToDict | bank.py:98-109 | an account is stored as a key/value object |
| Storage.AccountToDictKeys | bank.py:98-109 | the stored object has exactly the eight keys, and one record per transaction in ledger order |
| Storage.OpeningFromDict | bank.py:114 | a non-object is an error; reading succeeds exactly when "owner", "balance" and "account_type" are present and well typed, and then yields their values; a failing "owner" and then "balance" lookup decide the error in that order |
| Storage.AccountFromDict | bank.py:111-120 | a failure reading the constructor's arguments is the error; reading succeeds exactly when those arguments, the number, every transaction record, the rate, the fee and the PIN read; on success the owner, balance and type are the constructor's arguments, and the number, ledger, rate, fee and PIN are the stored values that replace the constructor's |
| Storage.AccountRoundTrip | bank.py:98-120 | storing an account and reading it back reproduces every field, ledger in order |
| Bank.BankAccount.ToDict | bank.py:98-109 | the stored record reads back as this very account |
| Bank.BankAccount.FromDict | bank.py:111-120 | the counter grows by one exactly when the constructor's arguments can be read; on success a new account holding the record's values; on failure the error reading the record raises |
| Bank.Reload | bank.py:98-120 | storing an account and reading it back gives a new account equal to it in every field; the counter grows by one |

## Left out

- The console output: the `print` calls in every operation, `Transaction.__str__` (bank.py:13-14) and `print_statement` (bank.py:93-96), which only prints the ledger.
- `save_accounts` and `load_accounts` (bank.py:122-134): file access and JSON text. The record values of `Records` stand for the JSON data.
- The random PIN (bank.py:44-45): the constructor takes the drawn PIN as the parameter `pin`, and `FromDict` takes it as `drawnPin`.
- The clock: `datetime.now()` is a parameter of each operation. Microseconds are not modelled, since the stored text drops them.
- Floating-point rounding: money is exact.
- The demonstration script under `__main__` (bank.py:136-161).
- The `Transaction` constructor's branch that keeps a date given as text (bank.py:8). Every transaction the class creates is dated by a date-time, so the model keeps the date-time and formats it when storing.
- Timestamp.Parse: accepts only the exact zero-padded layout with one space between date and time. strptime also accepts fields with fewer digits, a day padded with a space, and any run of whitespace between date and time. No text written by `Format` has any of these.
- Timestamp.Format: pads years below 1000 to four digits. Some platforms' strftime does not.
- Storage.TransactionFromDict: a stored type, amount or balance of the wrong JSON type is an error. Python would store the value as it is.
- Storage.AccountFromDict: a stored field of the wrong JSON type is an error. Python would store the value as it is.
- Bank.BankAccount.FromDict: a stored field of the wrong JSON type is an error, for the same reason as `Storage.AccountFromDict`.
