/**
 * The personal finance ledger as a value: a table of account balances and a
 * log of spent and received records, each of which may be absent (the ledger
 * starts as an empty dictionary). Amounts are whole cents.
 *
 * The functions below give the state after each ledger operation of
 * `FinanceManager`; the class in module Tracker is proved against them, and
 * the lemmas at the end state what the operations promise together:
 * conservation of the total by transfers, and the link between the balances
 * and the log.
 */
module Ledger {

  datatype Option<T> = None | Some(value: T)

  /** One logged record; its direction is given by the list that holds it. */
  datatype Txn = Txn(amount: int, briefInfo: string, personalNote: string, accountType: string)

  /** The `transactions` entry: two append-only lists. */
  datatype Transactions = Transactions(spent: seq<Txn>, received: seq<Txn>)

  /** The ledger dictionary; a `None` field is a key missing from it. */
  datatype State = State(balances: Option<map<string, int>>, transactions: Option<Transactions>)

  /** Outcome of a transfer, in place of the message the source prints. */
  datatype TransferOutcome =
    | UnknownAccount(available: set<string>)
    | InsufficientFunds
    | Done

  /** The three account categories a fresh ledger starts with: bank, digital wallet, physical cash. */
  const DefaultBalances: map<string, int> := map["B" := 0, "D" := 0, "P" := 0]

  const NoTransactions: Transactions := Transactions([], [])

  /** A missing account reads as zero. */
  function BalanceOf(m: map<string, int>, account: string): int
  {
    if account in m then m[account] else 0
  }

  /** `after` is `before` with `account` moved by `delta` (created at zero if it was missing) and every other account as it was. */
  ghost predicate MovedBy(before: map<string, int>, after: map<string, int>, account: string, delta: int)
  {
    && after.Keys == before.Keys + {account}
    && after[account] == BalanceOf(before, account) + delta
    && forall a :: a in before && a != account ==> after[a] == before[a]
  }

  // ---------------------------------------------------------------------------
  // The operations, as functions of the state
  // ---------------------------------------------------------------------------

  /** Balance seeding: defaults only when the whole `balances` entry is missing. */
  function Seeded(s: State): (r: State)
    ensures r.balances.Some? && r.transactions == s.transactions
    ensures s.balances.Some? ==> r == s
    ensures s.balances.None? ==> r.balances.value.Keys == {"B", "D", "P"}
    ensures forall a :: a in r.balances.value ==> r.balances.value[a] == BalanceOf(BalanceTable(s), a)
  {
    if s.balances.None? then s.(balances := Some(DefaultBalances)) else s
  }

  /** The balances table, or the empty table when the entry is missing (the source's `.get('balances', {})`). */
  function BalanceTable(s: State): map<string, int>
  {
    if s.balances.Some? then s.balances.value else map[]
  }

  /** The log, created empty when missing. */
  function Log(s: State): Transactions
  {
    if s.transactions.Some? then s.transactions.value else NoTransactions
  }

  /** `update_balance`: the account moves by `amount`; nothing else changes. */
  function Adjusted(s: State, account: string, amount: int): (r: State)
    requires s.balances.Some?
    ensures r.balances.Some? && MovedBy(s.balances.value, r.balances.value, account, amount)
    ensures r.transactions == s.transactions
  {
    var m := s.balances.value;
    var m0 := if account in m then m else m[account := 0];
    s.(balances := Some(m0[account := m0[account] + amount]))
  }

  /** `add_transaction` reaches `update_balance` only for these two types. */
  predicate IsLoggedType(txType: string)
  {
    txType == "spent" || txType == "received"
  }

  /**
   * `add_transaction`: the log is created if missing; a "spent" record is
   * appended to `spent` and charged to its account, a "received" record is
   * appended to `received` and credited; any other type records nothing.
   */
  function Recorded(s: State, txType: string, amount: int, briefInfo: string, personalNote: string, accountType: string): (r: State)
    requires IsLoggedType(txType) ==> s.balances.Some?
    ensures r.transactions.Some?
    ensures txType == "spent" ==>
      && r.transactions.value.spent == Log(s).spent + [Txn(amount, briefInfo, personalNote, accountType)]
      && r.transactions.value.received == Log(s).received
      && r.balances.Some? && MovedBy(s.balances.value, r.balances.value, accountType, -amount)
    ensures txType == "received" ==>
      && r.transactions.value.received == Log(s).received + [Txn(amount, briefInfo, personalNote, accountType)]
      && r.transactions.value.spent == Log(s).spent
      && r.balances.Some? && MovedBy(s.balances.value, r.balances.value, accountType, amount)
    ensures !IsLoggedType(txType) ==> r.balances == s.balances && r.transactions.value == Log(s)
  {
    var log := Log(s);
    var rec := Txn(amount, briefInfo, personalNote, accountType);
    if txType == "spent" then
      Adjusted(s.(transactions := Some(log.(spent := log.spent + [rec]))), accountType, -amount)
    else if txType == "received" then
      Adjusted(s.(transactions := Some(log.(received := log.received + [rec]))), accountType, amount)
    else
      s.(transactions := Some(log))
  }

  /** The checks `transfer_money` makes, in order, before it moves anything. */
  function TransferOutcomeOf(s: State, from: string, to: string, amount: int): (o: TransferOutcome)
    ensures o.UnknownAccount? <==> from !in BalanceTable(s) || to !in BalanceTable(s)
    ensures o.UnknownAccount? ==> o.available == BalanceTable(s).Keys
    ensures o.InsufficientFunds? <==> !o.UnknownAccount? && BalanceTable(s)[from] < amount
    ensures o.Done? ==> s.balances.Some? && amount <= s.balances.value[from]
  {
    var m := BalanceTable(s);
    if from !in m || to !in m then UnknownAccount(m.Keys)
    else if m[from] < amount then InsufficientFunds
    else Done
  }

  /** The single record a transfer logs, under `spent` and tagged with the source account. */
  function TransferRecord(from: string, to: string, amount: int): Txn
  {
    Txn(amount, "Transfer from " + from + " to " + to, "Transfer", from)
  }

  /**
   * `transfer_money`: when the checks pass, `from` goes down and `to` goes up
   * by `amount` (so they cancel when the two are the same account) and one
   * `spent` record is appended; when they fail, nothing changes.
   */
  function AfterTransfer(s: State, from: string, to: string, amount: int): (r: State)
    ensures !TransferOutcomeOf(s, from, to, amount).Done? ==> r == s
    ensures TransferOutcomeOf(s, from, to, amount).Done? ==>
      && r.balances.Some?
      && r.balances.value.Keys == s.balances.value.Keys
      && (from != to ==> r.balances.value[from] == s.balances.value[from] - amount)
      && (from != to ==> r.balances.value[to] == s.balances.value[to] + amount)
      && (from == to ==> r.balances.value == s.balances.value)
      && (forall a :: a in s.balances.value && a != from && a != to ==> r.balances.value[a] == s.balances.value[a])
      && r.transactions == Some(Log(s).(spent := Log(s).spent + [TransferRecord(from, to, amount)]))
  {
    if !TransferOutcomeOf(s, from, to, amount).Done? then s
    else
      var m := s.balances.value;
      var m1 := m[from := m[from] - amount];
      var m2 := m1[to := m1[to] + amount];
      var log := Log(s);
      State(Some(m2), Some(log.(spent := log.spent + [TransferRecord(from, to, amount)])))
  }

  // ---------------------------------------------------------------------------
  // Totals
  // ---------------------------------------------------------------------------

  /** The sum of all balances in a table. */
  ghost function Total(m: map<string, int>): int
    decreases m.Keys
  {
    if m == map[] then 0
    else
      var k :| k in m;
      m[k] + Total(m - {k})
  }

  /** The total can be taken apart at any account, not only at the one `Total` picks. */
  lemma {:induction false} TotalAt(m: map<string, int>, k: string)
    requires k in m
    ensures Total(m) == m[k] + Total(m - {k})
    decreases m.Keys
  {
    var j :| j in m && Total(m) == m[j] + Total(m - {j});
    assert (m - {j}).Keys < m.Keys && (m - {k}).Keys < m.Keys;
    if j != k {
      TotalAt(m - {j}, k);
      TotalAt(m - {k}, j);
      assert m - {j} - {k} == m - {k} - {j};
    }
  }

  /** Setting one account changes the total by the difference, a missing account counting as zero. */
  lemma TotalAfterSet(m: map<string, int>, k: string, v: int)
    ensures Total(m[k := v]) == Total(m) - BalanceOf(m, k) + v
  {
    TotalAt(m[k := v], k);
    assert m[k := v] - {k} == m - {k};
    if k in m {
      TotalAt(m, k);
    } else {
      assert m - {k} == m;
    }
  }

  /** A table of zeros sums to zero. */
  lemma {:induction false} TotalOfZeros(m: map<string, int>)
    requires forall a :: a in m ==> m[a] == 0
    ensures Total(m) == 0
    decreases m.Keys
  {
    if m != map[] {
      var k :| k in m;
      TotalAt(m, k);
      assert (m - {k}).Keys < m.Keys;
      TotalOfZeros(m - {k});
    }
  }

  /** The money held across all accounts (zero when there is no balances entry). */
  ghost function Holdings(s: State): int
  {
    Total(BalanceTable(s))
  }

  /** `update_balance` changes the holdings by exactly `amount`. */
  lemma AdjustedHoldings(s: State, account: string, amount: int)
    requires s.balances.Some?
    ensures Holdings(Adjusted(s, account, amount)) == Holdings(s) + amount
  {
    var m := s.balances.value;
    var m0 := if account in m then m else m[account := 0];
    TotalAfterSet(m, account, 0);
    TotalAfterSet(m0, account, m0[account] + amount);
  }

  /** A transfer never creates or destroys money, whatever its outcome. */
  lemma TransferConservesHoldings(s: State, from: string, to: string, amount: int)
    ensures Holdings(AfterTransfer(s, from, to, amount)) == Holdings(s)
  {
    if TransferOutcomeOf(s, from, to, amount).Done? {
      var m := s.balances.value;
      var m1 := m[from := m[from] - amount];
      TotalAfterSet(m, from, m[from] - amount);
      TotalAfterSet(m1, to, m1[to] + amount);
    }
  }

  // ---------------------------------------------------------------------------
  // Balances against the log
  // ---------------------------------------------------------------------------

  /** The sum of the amounts of a list of records. */
  function SumAmounts(txns: seq<Txn>): int
  {
    if txns == [] then 0 else txns[0].amount + SumAmounts(txns[1..])
  }

  lemma {:induction false} SumAmountsAppend(txns: seq<Txn>, t: Txn)
    ensures SumAmounts(txns + [t]) == SumAmounts(txns) + t.amount
  {
    if txns != [] {
      assert (txns + [t])[1..] == txns[1..] + [t];
      SumAmountsAppend(txns[1..], t);
    }
  }

  /** The net effect on the balances that the log accounts for: received minus spent. */
  function LogNet(s: State): int
  {
    SumAmounts(Log(s).received) - SumAmounts(Log(s).spent)
  }

  /** How far the holdings have moved away from what the log explains. */
  ghost function Drift(s: State): int
  {
    Holdings(s) - LogNet(s)
  }

  /** `add_transaction` moves the balances exactly as far as its record moves the log. */
  lemma RecordedKeepsDrift(s: State, txType: string, amount: int, briefInfo: string, personalNote: string, accountType: string)
    requires IsLoggedType(txType) ==> s.balances.Some?
    ensures Drift(Recorded(s, txType, amount, briefInfo, personalNote, accountType)) == Drift(s)
  {
    var log := Log(s);
    var rec := Txn(amount, briefInfo, personalNote, accountType);
    if txType == "spent" {
      var s1 := s.(transactions := Some(log.(spent := log.spent + [rec])));
      AdjustedHoldings(s1, accountType, -amount);
      SumAmountsAppend(log.spent, rec);
    } else if txType == "received" {
      var s1 := s.(transactions := Some(log.(received := log.received + [rec])));
      AdjustedHoldings(s1, accountType, amount);
      SumAmountsAppend(log.received, rec);
    }
  }

  /**
   * A successful transfer leaves the holdings alone but logs a `spent` record
   * with no `received` partner, so the log no longer explains the balances:
   * the drift grows by the amount transferred.
   */
  lemma TransferDrift(s: State, from: string, to: string, amount: int)
    ensures Drift(AfterTransfer(s, from, to, amount))
         == Drift(s) + (if TransferOutcomeOf(s, from, to, amount).Done? then amount else 0)
  {
    TransferConservesHoldings(s, from, to, amount);
    if TransferOutcomeOf(s, from, to, amount).Done? {
      SumAmountsAppend(Log(s).spent, TransferRecord(from, to, amount));
    }
  }

  /** The ledger as first loaded when there is no data file. */
  const EmptyLedger: State := State(None, None)

  /** Seeding an empty ledger gives a ledger with nothing to explain. */
  lemma SeededEmptyHasNoDrift()
    ensures Drift(Seeded(EmptyLedger)) == 0
  {
    TotalOfZeros(DefaultBalances);
  }

  /** Seeding twice is seeding once, and seeding never touches a balance that exists. */
  lemma SeededIdempotent(s: State)
    ensures Seeded(Seeded(s)) == Seeded(s)
    ensures forall a :: a in BalanceTable(s) ==> a in BalanceTable(Seeded(s)) && BalanceTable(Seeded(s))[a] == BalanceTable(s)[a]
  {
  }

  /** The arguments of one `add_transaction` call. */
  datatype Entry = Entry(txType: string, amount: int, briefInfo: string, personalNote: string, accountType: string)

  /** A session of `add_transaction` calls, in order. */
  function Replay(s: State, entries: seq<Entry>): (r: State)
    requires s.balances.Some?
    ensures r.balances.Some?
    decreases |entries|
  {
    if entries == [] then s
    else
      var e := entries[0];
      Replay(Recorded(s, e.txType, e.amount, e.briefInfo, e.personalNote, e.accountType), entries[1..])
  }

  /** However many transactions are added, the balances move exactly as the log says. */
  lemma {:induction false} ReplayKeepsDrift(s: State, entries: seq<Entry>)
    requires s.balances.Some?
    ensures Drift(Replay(s, entries)) == Drift(s)
    decreases |entries|
  {
    if entries != [] {
      var e := entries[0];
      RecordedKeepsDrift(s, e.txType, e.amount, e.briefInfo, e.personalNote, e.accountType);
      ReplayKeepsDrift(Recorded(s, e.txType, e.amount, e.briefInfo, e.personalNote, e.accountType), entries[1..]);
    }
  }

  /** From a fresh ledger, the sum of all balances is always received minus spent as logged. */
  lemma FreshSessionBalancesMatchLog(entries: seq<Entry>)
    ensures Holdings(Replay(Seeded(EmptyLedger), entries)) == LogNet(Replay(Seeded(EmptyLedger), entries))
  {
    SeededEmptyHasNoDrift();
    ReplayKeepsDrift(Seeded(EmptyLedger), entries);
  }
}
