# Finance tracker ledger, modelled in Dafny

This project models the in-memory ledger of the personal finance tracker, the
`FinanceManager` class of `finance_tracker/tracker.py`. The ledger is a
dictionary with two entries, either of which may be missing:

- `balances` maps an account category (`B` bank, `D` digital wallet, `P`
  physical cash, or any label first used by a transaction) to an amount;
- `transactions` holds two append-only lists of records, `spent` and
  `received`. Each record has an amount, a brief info text, a personal note
  and the account it belongs to.

Four operations change the ledger in place: balance seeding (part of
`initialize_files`), `update_balance`, `add_transaction` and
`transfer_money`.

Two files:

- `ledger.dfy`, module `Ledger`: the ledger as a value (`State`), one function
  per operation giving the state after it (`Seeded`, `Adjusted`, `Recorded`,
  `TransferOutcomeOf` and `AfterTransfer`), and the lemmas about them. The
  lemmas cover the sum of all balances (`Total`, `Holdings`) and how far the
  balances have moved from what the log accounts for (`Drift`).
- `tracker.dfy`, module `Tracker`: the class `FinanceManager`, whose fields
  `balances` and `transactions` are the two dictionary entries. Its methods
  update them in place and are proved to produce exactly the state that the
  `Ledger` functions describe. `SessionFromEmpty` is a client that walks
  through a short session and proves, from the contracts alone, the
  balances it reaches.

Amounts are whole cents (`int`). The source uses Python floats.

Behaviour of the code that the model keeps:

- Seeding fills in `{B: 0, D: 0, P: 0}` only when the whole `balances` entry
  is missing. It does not add a single missing category to an existing
  table. It is idempotent and never resets an existing balance.
- `update_balance` needs the `balances` entry to exist: the source indexes it
  directly and would raise otherwise. That is its precondition here. A
  missing account is created at zero first.
- `add_transaction` accepts any amount; it does not check that the amount is
  positive. A type other than `"spent"` or `"received"` appends nothing and
  moves no balance. Its only effect is to create an empty `transactions`
  entry when it is missing.
- `transfer_money` checks that both accounts exist and then that the source
  account holds at least `amount`. It accepts a zero or negative amount, and
  it accepts the same account on both sides: the balance then nets to zero
  but a record is still logged. A successful transfer logs one `spent`
  record under the source account and no `received` record.
- Because of that single-sided record, `add_transaction` keeps the sum of
  all balances equal to "received minus spent" in the log (`Drift` is
  unchanged), while every successful transfer raises `Drift` by the amount
  moved (`TransferDrift`).

## Model

| member | source | states |
|---|---|---|
| `Ledger.Seeded` | finance_tracker/tracker.py:54-55 | Seeding always leaves a balances table; a ledger that has one is returned unchanged; a missing one becomes exactly the accounts B, D and P, all at zero; the transactions entry is untouched |
| `Ledger.SeededIdempotent` | finance_tracker/tracker.py:54-55 | Seeding twice equals seeding once, and every balance present before seeding keeps its value |
| `Ledger.SeededEmptyHasNoDrift` | finance_tracker/tracker.py:54-55 | A freshly seeded empty ledger holds a total of zero and has an empty log, so its balances and log agree |
| `Ledger.Adjusted` | finance_tracker/tracker.py:65-69 | `update_balance` sets the account to its old value (zero if absent) plus the amount, adds no other account, leaves every other account and the whole log unchanged |
| `Ledger.AdjustedHoldings` | finance_tracker/tracker.py:65-69 | `update_balance` changes the sum of all balances by exactly the amount, also when it creates the account |
| `Ledger.Recorded` | finance_tracker/tracker.py:71-88 | `add_transaction` always leaves a log. "spent" appends exactly the built record to the end of `spent`, leaves `received` alone and lowers the account by the amount. "received" appends it to `received`, leaves `spent` alone and raises the account by the amount. Any other type leaves the balances and both lists as they were |
| `Ledger.RecordedKeepsDrift` | finance_tracker/tracker.py:83-88 | The balance change made by `add_transaction` equals the change its record makes to "received minus spent" in the log |
| `Ledger.Replay` | finance_tracker/tracker.py:71-88 | A sequence of `add_transaction` calls on a ledger with balances keeps a balances table |
| `Ledger.ReplayKeepsDrift` | finance_tracker/tracker.py:71-88 | Any sequence of `add_transaction` calls changes the sum of all balances by exactly as much as it changes the log's received-minus-spent |
| `Ledger.FreshSessionBalancesMatchLog` | finance_tracker/tracker.py:54-88 | After seeding an empty ledger and any number of added transactions, the sum of all balances equals received minus spent in the log |
| `Ledger.TransferOutcomeOf` | finance_tracker/tracker.py:94-101 | A transfer is refused, listing the known accounts, exactly when either account is missing (a missing balances table counts as empty). Otherwise it is refused for insufficient funds exactly when the source balance is below the amount. It goes ahead only when the source holds at least the amount |
| `Ledger.AfterTransfer` | finance_tracker/tracker.py:92-116 | A refused transfer changes nothing. A successful one keeps the same accounts, lowers `from` and raises `to` by the amount (no change when they are the same account), leaves the other accounts alone, appends exactly one `spent` record tagged with `from` and the note "Transfer", and leaves `received` unchanged |
| `Ledger.TransferConservesHoldings` | finance_tracker/tracker.py:103-104 | Every transfer preserves the sum of all balances, whatever its outcome |
| `Ledger.TransferDrift` | finance_tracker/tracker.py:103-116 | A successful transfer puts the balances and the log out of step by the amount moved, because it logs a `spent` record with no `received` partner; a refused one keeps them in step |
| `Tracker.FinanceManager.constructor` | finance_tracker/tracker.py:6-8 | The manager starts with exactly the ledger read back from storage |
| `Tracker.FinanceManager.InitializeFiles` | finance_tracker/tracker.py:54-55 | The object's new ledger is the seeded old ledger |
| `Tracker.FinanceManager.UpdateBalance` | finance_tracker/tracker.py:65-69 | Requires a balances table; the object's new ledger is the old one adjusted at `account` by `amount` |
| `Tracker.FinanceManager.AddTransaction` | finance_tracker/tracker.py:71-88 | Requires a balances table when the type is "spent" or "received"; the object's new ledger is the old one with the transaction recorded |
| `Tracker.FinanceManager.TransferMoney` | finance_tracker/tracker.py:92-116 | Returns the outcome of the transfer checks and leaves the object's ledger as the transfer describes it, unchanged when refused |

## Left out

- Key management (`load_key`, tracker.py:10-20): file I/O and the Fernet library, which is not part of this model.
- Reading and writing the data file (`read_data`, `write_data`, tracker.py:22-44): encryption, JSON encoding and file I/O. The constructor takes the ledger that was read as a parameter, and there is no save/load round trip.
- The data-file creation in `initialize_files` (tracker.py:48-51), its `write_data` call at line 56, and its message at line 57.
- `print_balance` and `view_transaction_history` (tracker.py:59-63, 119-139), and the messages the core methods print: console output only. The messages of a refused transfer are modelled as the returned `TransferOutcome`. The list of available accounts is a set, so its order is not kept.
- `main` (tracker.py:141-190): the interactive menu and the parsing of typed amounts.
- Float amounts and their rounding: amounts are exact integers (cents).
- The state after a `KeyError`. The source appends a "spent" or "received" record and only then raises when there is no balances table; callers always seed first. Here that case is excluded by `AddTransaction`'s precondition.
- Other dictionary keys, and a `transactions` entry that lacks a `spent` or `received` list: the data file is assumed to hold the shape the program writes.
