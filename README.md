# ae_money ledger core in Dafny

This project models the double-entry ledger of ae_money, a small money
tracker. It also models the string checks and codecs around the ledger.

- **Package `transaction`** (module `Ledger`, file `ledger.dfy`).
  - A `Split` moves a signed amount into one `Account`.
  - A `Transaction` stages copies of Splits and keeps a running total.
  - `Valid` checks four rules, in this order: there is at least one Split,
    the total is zero, no Account is nil, and no Account repeats.
  - `Commit` runs `Valid`. If that passes, it stamps one transaction ID on
    copies of the Splits, appends each copy to its Account's history, adds
    each amount to its Account's total, and clears the Transaction.
  - Accounts are class objects, so the duplicate check compares
    references, as Go compares pointers.
  - `Account.Validate` trims the name in place. `MarshalJSON` gives the
    two-entry representation.
- **The datastore property codec** (`Account.Load`, `Account.Save`).
  - The property channel is a sequence of typed (name, value) properties.
  - Module `Properties` (file `properties.dfy`) specifies what a stream of
    properties does to an Account's fields.
- **Request checks of the `NewTransaction` handler** (module `Handler`,
  file `handler.dfy`): `parseDate` and the Amounts/Accounts length check.
- **Go library routines the code relies on** (module `GoStrings`, file
  `gostrings.dfy`): `strings.TrimSpace`, `strings.Split` on one character,
  `strconv.Atoi`, and the decimal form `fmt` prints for an integer.
  - Their partners are `strings.Join` and the round trip from printing an
    integer to parsing it back.

State is imperative, as in the source. `Transaction` and `Account` are
classes whose methods carry `modifies` clauses. `Transaction.Consistent()`
is the class invariant: `total` is the sum of the staged amounts. Each
method is stated against specification functions:

- `Check` (what `Valid` returns) and `AccountError`;
- `Properties.LoadAll` (what `Load` does);
- `IsDateString` and `DateOf` (what `parseDate` accepts and returns).

Lemmas then characterise those functions without reference to how they
are computed.

Some behaviour of the Go code is easy to assume otherwise. The model
follows the code:

- `Valid` does not reject a zero-amount Split. No other operation does
  either.
- A Transaction records nothing about having been committed. A second
  `Commit` fails only because the first one cleared the Splits.
- `Commit` stamps the transaction ID on the copies that go into Account
  histories. The Transaction's own staged Splits are never stamped; they
  are dropped by `clear`.
- The `Account` struct in transaction/account.go:14-17 declares no split
  history. Commit appends to one at transaction/transaction.go:106, so the
  model's `Account` has a `splits` field.

## Model

| member | source | states |
|---|---|---|
| `Ledger.NewSplit` | transaction/transaction.go:29-31 | the new Split has the given amount and Account and an empty transaction ID |
| `Ledger.Transaction.constructor` | transaction/transaction.go:52-55 | the zero Transaction has no Splits and a zero total, so it is consistent |
| `Ledger.Transaction.AddSplit` | transaction/transaction.go:64-67 | a copy of the Split is appended at the end, the total grows by its amount, and the total still equals the sum of the staged amounts |
| `Ledger.Transaction.AddSplits` | transaction/transaction.go:58-62 | the Splits are appended in order and the total grows by their sum, as if `AddSplit` were called on each |
| `Ledger.Transaction.Clear` | transaction/transaction.go:114-117 | no Splits and a zero total remain |
| `Ledger.Transaction.Valid` | transaction/transaction.go:73-94 | changes nothing and returns `Check(splits, total)`: the first rule that fails, or none |
| `Ledger.CheckOrder` | transaction/transaction.go:73-91 | no Splits gives the empty error; otherwise a nonzero total gives the error carrying that total; otherwise only the nil or duplicate errors or success can follow |
| `Ledger.CheckNone` | transaction/transaction.go:73-94 | `Valid` succeeds exactly when there are Splits, the total is zero, and every Split names a non-nil Account different from every other Split's |
| `Ledger.AccountErrorNone` | transaction/transaction.go:82-91 | the account scan passes exactly when no Account is nil and no two Splits share an Account |
| `Ledger.AccountErrorFirst` | transaction/transaction.go:83-90 | the first offending Split decides the error: nil gives the nil-account error and an Account seen earlier gives the duplicate error, whatever follows |
| `Ledger.NonzeroTotalMessage` | transaction/transaction.go:78-80 | the unbalanced message is "Nonzero total: " followed by the total in decimal, and that text parses back to the total |
| `Ledger.NonzeroTotalExample` | transaction/transaction_test.go:156 | the message for a total of -200 is "Nonzero total: -200" |
| `Ledger.Transaction.Commit` | transaction/transaction.go:97-112 | returns `Valid`'s verdict. On failure, the Transaction and every referenced Account are unchanged. On success, each referenced Account's total grows by its Split's amount and its history gains exactly that Split stamped with the given ID; the Transaction is then empty with a zero total; the sum of the referenced balances is unchanged. Only the Transaction and the totals and histories of the referenced Accounts may change: names and every other object are untouched |
| `Ledger.PostSplits` | transaction/transaction.go:104-108 | across distinct non-nil Accounts, each gets its own Split's amount added and its stamped copy appended, once; only those Accounts' totals and histories change |
| `Ledger.UnbalancedExample` | transaction/transaction_test.go:134-145 | Salary -1000 and Checking 800 alone are rejected as "Nonzero total: -200"; both Accounts keep a zero total and the Splits stay staged |
| `Ledger.StageTransfer` | transaction/transaction_test.go:141-147 | adding the two Splits together and Savings 200 on its own stages all three in order with a zero total, over three distinct fresh Accounts |
| `Ledger.TransferExample` | transaction/transaction_test.go:147-159 | once Savings 200 is staged, Commit succeeds; the totals become -1000, 800 and 200, and each Account has one history entry carrying the shared ID |
| `Ledger.CommitAgain` | transaction/transaction.go:97-117 | a second Commit right after a failed one fails with the same error, and the Transaction and the referenced Accounts are as before; right after a successful one it fails with the empty-transaction error, the Transaction stays empty, and each referenced Account shows its amount and stamped Split exactly once |
| `Ledger.RejectionExamples` | transaction/transaction.go:74-91 | an empty Transaction, a nil Account before a valid one, and a repeated Account give the empty, nil-account and duplicate errors |
| `Ledger.Account.constructor` | transaction/account.go:14-17 | a new Account has the given name, a zero total and an empty history |
| `Ledger.Account.Validate` | transaction/account.go:21-28 | the name becomes its trimmed form, even on success; the error is returned exactly when the trimmed name is empty; the total and history do not change |
| `Ledger.ValidateTwice` | transaction/account.go:21-28 | a second `Validate` gives the same verdict and leaves the trimmed name as it is; the total and history never change |
| `Ledger.TrimExample` | transaction/account_test.go:56-65 | "\ttrim whitespace   " trims to "trim whitespace" |
| `Ledger.ValidateAccepts` | transaction/account_test.go:45-65 | "valid" is accepted unchanged and "\ttrim whitespace   " is accepted as "trim whitespace" |
| `Ledger.ValidateRejects` | transaction/account_test.go:67-74 | the empty name is rejected, and so is the blank "  " of ae_money/account_handler_test.go:235-244 |
| `GoStrings.TrimSpaceShape` | transaction/account.go:22 | the trimmed name is an infix of the name with only whitespace cut off either side and no whitespace left at either end |
| `GoStrings.TrimSpaceOfTrimmed` | transaction/account.go:21-28 | a name with no whitespace at either end is left unchanged |
| `GoStrings.TrimSpaceIdempotent` | transaction/account.go:22-27 | trimming twice gives the same name as trimming once, so a second `Validate` sees the same name and the same verdict |
| `GoStrings.TrimSpaceEmpty` | transaction/account.go:24-27 | the trimmed name is empty exactly when the name is all whitespace, so empty and blank names are rejected |
| `Ledger.Account.MarshalJSON` | transaction/account.go:30-36 | the representation has exactly the keys "name" and "total", holding the name and the total |
| `Ledger.MarshalJSONDetermines` | transaction/account.go:30-36 | two Accounts have the same representation exactly when their names and totals agree; the history is not part of it |
| `Ledger.Account.Save` | transaction/account_pls.go:30-43 | emits exactly ("Name", name) then ("Total", total) and returns no error |
| `Ledger.Account.Load` | transaction/account_pls.go:13-27 | the name, total and error reached equal `LoadAll` of the stream from the Account's previous fields; the history is untouched |
| `Properties.LoadLastName` | transaction/account_pls.go:16-18 | the name is taken from the last "Name" property, so a later one overrides an earlier one |
| `Properties.LoadKeepsName` | transaction/account_pls.go:16-24 | with no "Name" property the name keeps its previous value |
| `Properties.LoadLastTotal` | transaction/account_pls.go:19-20 | the total is taken from the last "Total" property |
| `Properties.LoadKeepsTotal` | transaction/account_pls.go:16-24 | with no "Total" property the total keeps its previous value |
| `Properties.LoadNoError` | transaction/account_pls.go:14-26 | `Load` reports no error exactly when every property is "Name" or "Total" |
| `Properties.LoadLastError` | transaction/account_pls.go:21-23 | an unknown property records an error naming it, with the message "Unexpected property type " followed by the name; the stream goes on, and only a later unknown property replaces the error |
| `Properties.LoadOfSave` | transaction/account_pls.go:13-43 | loading what `Save` emits yields the saved name and total, whatever the fields were before, and no error |
| `Ledger.SaveThenLoad` | transaction/account_pls_test.go:11-31 | saving an Account and loading the stream into a fresh Account gives the same name and total and no error |
| `Handler.ParseDate` | ae_money/transaction_handler.go:26-49 | succeeds exactly when splitting on '-' gives three components that are all integers; the date is components 0, 1, 2 as year, month, day; on failure the message is "Could not parse <input> as a date" |
| `Handler.CheckRequest` | ae_money/transaction_handler.go:61-70 | different numbers of amounts and accounts are rejected with the length message before the date is looked at; otherwise the outcome is `parseDate`'s |
| `Handler.DateStringDashes` | ae_money/transaction_handler.go:31-35 | an accepted date string contains exactly two '-' characters |
| `Handler.ParseOfFormat` | ae_money/transaction_handler.go:31-48 | a date with non-negative parts, printed as year-month-day, is accepted and parses back to the same parts |
| `Handler.AcceptedDateExample` | ae_money/transaction_handler_test.go:68-87 | "2014-11-01" is accepted as year 2014, month 11, day 1 |
| `Handler.NoDashRejected` | ae_money/transaction_handler.go:31-35 | a string without '-' is one component, so it is never accepted as a date |
| `Handler.ParseDateAccepts` | ae_money/transaction_handler_test.go:68-87 | `parseDate` turns "2014-11-01" into year 2014, month 11, day 1 |
| `Handler.ParseDateRejects` | ae_money/transaction_handler_test.go:89-127 | "" and "Not a real date" fail with messages naming the input |
| `Handler.MismatchedLengthsExample` | ae_money/transaction_handler_test.go:129-147 | three amounts for two accounts are rejected with the length message |
| `GoStrings.Split` | ae_money/transaction_handler.go:31 | splitting always yields at least one component, so "" yields one and fails the three-component check |
| `GoStrings.JoinOfSplit` | ae_money/transaction_handler.go:31 | joining the components with '-' gives back the input |
| `GoStrings.SplitOfJoin` | ae_money/transaction_handler.go:31 | splitting a '-'-join of '-'-free pieces gives back the pieces |
| `GoStrings.SplitPiecesHaveNoSeparator` | ae_money/transaction_handler.go:31 | no component contains '-' |
| `GoStrings.SplitCount` | ae_money/transaction_handler.go:31-33 | there is one more component than there are '-' characters |
| `GoStrings.AtoiOfIntToString` | ae_money/transaction_handler.go:39 | `Atoi` reads back the decimal form of every integer |

## Left out

- UUID generation (transaction/transaction.go:102) is not modelled. `Commit` takes the transaction ID as a parameter `xid`.
- Amounts are unbounded integers. Go's `int64` wrap-around of `AmountType` sums is not modelled, and neither is `strconv.Atoi`'s out-of-range error.
- `Handler.ParseDate` returns the raw year, month and day. `time.Date`'s normalisation of out-of-range months and days is foreign library behaviour and is not modelled.
- `Ledger.Account.MarshalJSON` stops at the two-entry map. The bytes `json.Marshal` produces are not modelled.
- `Ledger.Account.Load` requires well-typed properties: a "Name" property carries a string and a "Total" property an integer. The Go type assertions panic otherwise, and that panic is not modelled.
- The property channel becomes a finite sequence. The goroutine on the other end, and `Save`'s `close`, are not modelled as concurrency.
- Strings are sequences of Unicode scalar values. `TrimSpace` uses the exact White_Space set of `unicode.IsSpace`, but decoding of invalid UTF-8 is not modelled.
- The accessors `Split.Account()` and `Split.TransactionID()` (transaction/transaction.go:33-39) are the datatype fields `account` and `transactionID`.
- `Ledger.Transaction.Commit`: its `modifies` clause states what stays unchanged: a Split's Account keeps its name, and unreferenced Accounts keep everything. No separate `ensures` says it.
- `Ledger.Transaction.AddSplit`, `Ledger.Transaction.AddSplits`, `Ledger.Transaction.Commit` and `Ledger.CommitAgain` require `Consistent()`. `Ledger.Transaction.Clear` does not need it and restores it. Every Transaction built through the package's operations satisfies it, starting from the zero value.
- Splits are values, so `NewSplit`, `AddSplit` and `AddSplits` never see a nil Split. In Go, `AddSplit(nil)` panics when it dereferences the pointer (transaction/transaction.go:65), and so does a nil entry passed to `AddSplits` (58-61). That panic is not modelled. A nil Account inside a Split is modelled.
- Only two checks of `NewTransaction` are modelled: the length check and date parsing. The rest is I/O or uses an older `transaction` API that transaction/transaction.go does not define (`ValidateAmount`, `AddAccount`, Split fields `Account`, `Memo`, `Date`). That covers JSON decoding, key building, the datastore transaction, and the two goroutines joined on `putStatus`.
- The HTTP handlers in ae_money/account_handler.go and account_handler.go are not modelled, including `DeleteAccount`'s "delete only if no splits" guard inside a datastore transaction. Neither are routing and login in ae_money/init.go, the test helpers, or the jQuery UI in ae_money/static/javascript/aemoney.js.
- The global `accountMap` and ID counter exercised by transaction/account_test.go:5-43 and the older transaction tests are not part of the shown code, so they are not modelled.
