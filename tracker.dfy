/**
 * `FinanceManager` with its ledger held in place: the `balances` and
 * `transactions` entries of its data dictionary are fields that its methods
 * update. Each method is proved to leave the object in the state the
 * matching function of module Ledger describes.
 */
module Tracker {

  import opened Ledger

  class FinanceManager {
    /** The `balances` entry of the data dictionary, `None` while it is missing. */
    var balances: Option<map<string, int>>
    /** The `transactions` entry of the data dictionary, `None` while it is missing. */
    var transactions: Option<Transactions>

    /** The ledger the object currently holds. */
    ghost function Model(): State
      reads this
    {
      State(balances, transactions)
    }

    /** Starts from the ledger read back from the data file (reading and decrypting it is not modelled). */
    constructor (loaded: State)
      ensures Model() == loaded
    {
      balances := loaded.balances;
      transactions := loaded.transactions;
    }

    /** The balance-seeding part of `initialize_files`. */
    method InitializeFiles()
      modifies this
      ensures Model() == Seeded(old(Model()))
    {
      if balances.None? {
        balances := Some(DefaultBalances);
      }
    }

    method UpdateBalance(account: string, amount: int)
      requires balances.Some?
      modifies this
      ensures Model() == Adjusted(old(Model()), account, amount)
    {
      var table := balances.value;
      if account !in table {
        table := table[account := 0];
      }
      table := table[account := table[account] + amount];
      balances := Some(table);
    }

    method AddTransaction(txType: string, amount: int, briefInfo: string, personalNote: string, accountType: string)
      requires IsLoggedType(txType) ==> balances.Some?
      modifies this
      ensures Model() == Recorded(old(Model()), txType, amount, briefInfo, personalNote, accountType)
    {
      if transactions.None? {
        transactions := Some(NoTransactions);
      }
      var transaction := Txn(amount, briefInfo, personalNote, accountType);
      if txType == "spent" {
        transactions := Some(transactions.value.(spent := transactions.value.spent + [transaction]));
        UpdateBalance(accountType, -amount);
      } else if txType == "received" {
        transactions := Some(transactions.value.(received := transactions.value.received + [transaction]));
        UpdateBalance(accountType, amount);
      }
    }

    method TransferMoney(from: string, to: string, amount: int) returns (outcome: TransferOutcome)
      modifies this
      ensures outcome == TransferOutcomeOf(old(Model()), from, to, amount)
      ensures Model() == AfterTransfer(old(Model()), from, to, amount)
    {
      var known := if balances.Some? then balances.value else map[];
      if from !in known || to !in known {
        return UnknownAccount(known.Keys);
      }
      if known[from] < amount {
        return InsufficientFunds;
      }
      var table := known[from := known[from] - amount];
      table := table[to := table[to] + amount];
      balances := Some(table);
      var info := TransferRecord(from, to, amount);
      if transactions.None? {
        transactions := Some(NoTransactions);
      }
      transactions := Some(transactions.value.(spent := transactions.value.spent + [info]));
      outcome := Done;
    }
  }

  /**
   * A session from an empty ledger: seed, spend 50.00 from the bank, fail to
   * move 20.00 out of the overdrawn bank, receive 150.00, then move 20.00 from
   * the bank to the digital wallet. Amounts are in cents.
   */
  method SessionFromEmpty()
  {
    var fm := new FinanceManager(EmptyLedger);
    fm.InitializeFiles();
    assert fm.balances == Some(map["B" := 0, "D" := 0, "P" := 0]);

    fm.AddTransaction("spent", 5000, "groceries", "", "B");
    assert fm.balances.value == map["B" := -5000, "D" := 0, "P" := 0];
    assert fm.transactions.value.spent == [Txn(5000, "groceries", "", "B")];

    var before := fm.Model();
    var outcome := fm.TransferMoney("B", "D", 2000);
    assert outcome == InsufficientFunds;
    assert fm.Model() == before;

    fm.AddTransaction("received", 15000, "salary", "", "B");
    assert fm.balances.value == map["B" := 10000, "D" := 0, "P" := 0];

    outcome := fm.TransferMoney("B", "D", 2000);
    assert outcome == Done;
    assert fm.balances.value == map["B" := 8000, "D" := 2000, "P" := 0];
    assert |fm.transactions.value.spent| == 2;
    assert fm.transactions.value.spent[1].accountType == "B";
  }
}
