/**
 * The transaction store: an append-only log of transactions, read back whole and
 * summarised per period and category. The backing CSV file is the `log` field.
 */
module Store {
  import opened Calendar
  import opened Wrappers
  import opened Aggregation

  /** The two tables a summary returns: expense rows and income rows. */
  datatype Summary = Summary(expenses: seq<Row>, income: seq<Row>)

  /**
   * The summary of a log for a period string: expense rows from the records of type
   * "expense" and income rows from those of type "income", each grouped by
   * (bucket, category), ordered by key, and adding up to the total of that type.
   */
  function Summarize(log: seq<Transaction>, period: string): (s: Summary)
    ensures Ascending(s.expenses) && Ascending(s.income)
    ensures SumRows(s.expenses) == KindTotal(log, "expense")
    ensures SumRows(s.income) == KindTotal(log, "income")
    ensures log == [] ==> s.expenses == [] && s.income == []
  {
    GroupSumConserves(log, period, "expense");
    GroupSumConserves(log, period, "income");
    Summary(GroupSum(log, period, "expense"), GroupSum(log, period, "income"))
  }

  /** A record whose type is neither "expense" nor "income" changes no summary. */
  lemma SummarizeIgnoresOtherTypes(log: seq<Transaction>, t: Transaction, period: string)
    requires t.kind != "expense" && t.kind != "income"
    ensures Summarize(log + [t], period) == Summarize(log, period)
  {
    assert (log + [t])[..|log|] == log;
  }

  /**
   * Two expense records with the same bucket and category make a single row holding
   * their sum, whatever else differs between their dates.
   */
  lemma SameBucketOneRow(t1: Transaction, t2: Transaction, period: string)
    requires t1.kind == "expense" && t2.kind == "expense" && t1.category == t2.category
    requires PeriodKey(period, t1.date) == PeriodKey(period, t2.date)
    ensures Summarize([t1, t2], period)
         == Summary([Row(PeriodKey(period, t1.date), t1.category, t1.amount + t2.amount)], [])
  {
    var k := PeriodKey(period, t1.date);
    assert [t1, t2][..1] == [t1] && [t1][..0] == [];
    assert GroupSum([t1], period, "expense") == [Row(k, t1.category, t1.amount)];
    assert [Row(k, t1.category, t1.amount)][1..] == [];
    GroupSumNoneOfKind([t1, t2], period, "income");
  }

  /**
   * Under "month" only the month is kept: January 2023 and January 2024 spending in
   * one category land in one row.
   */
  lemma MonthBucketMergesYears()
    ensures Summarize([Transaction(Date(2023, 1, 5), 100, "Food", "expense"),
                       Transaction(Date(2024, 1, 9), 50, "Food", "expense")], "month")
         == Summary([Row(1, "Food", 150)], [])
  {
    SameBucketOneRow(Transaction(Date(2023, 1, 5), 100, "Food", "expense"),
                     Transaction(Date(2024, 1, 9), 50, "Food", "expense"), "month");
  }

  /** Expenses of January and February 2024 and one January salary, summarised by month. */
  lemma MonthlySummaryExample()
    ensures Summarize([Transaction(Date(2024, 1, 15), 100, "Food", "expense"),
                       Transaction(Date(2024, 1, 20), 50, "Food", "expense"),
                       Transaction(Date(2024, 2, 1), 200, "Food", "expense"),
                       Transaction(Date(2024, 1, 10), 1000, "Salary", "income")], "month")
         == Summary([Row(1, "Food", 150), Row(2, "Food", 200)], [Row(1, "Salary", 1000)])
  {
    var t1 := Transaction(Date(2024, 1, 15), 100, "Food", "expense");
    var t2 := Transaction(Date(2024, 1, 20), 50, "Food", "expense");
    var t3 := Transaction(Date(2024, 2, 1), 200, "Food", "expense");
    var t4 := Transaction(Date(2024, 1, 10), 1000, "Salary", "income");
    var log := [t1, t2, t3, t4];
    assert log[..3] == [t1, t2, t3] && [t1, t2, t3][..2] == [t1, t2];
    assert [t1, t2][..1] == [t1] && [t1][..0] == [];
    assert GroupSum([t1], "month", "expense") == [Row(1, "Food", 100)];
    assert GroupSum([t1, t2], "month", "expense") == [Row(1, "Food", 150)];
    assert [Row(1, "Food", 150)][1..] == [];
    assert GroupSum([t1, t2, t3], "month", "expense") == [Row(1, "Food", 150), Row(2, "Food", 200)];
    GroupSumNoneOfKind([t1, t2, t3], "month", "income");
    assert GroupSum(log, "month", "income") == [Row(1, "Salary", 1000)];
  }

  class TransactionStore {
    /** Every transaction ever added, in insertion order. */
    var log: seq<Transaction>

    /**
     * Opening the store keeps the log already persisted, or starts an empty one when
     * nothing is persisted yet.
     */
    constructor (persisted: Option<seq<Transaction>>)
      ensures log == if persisted.Some? then persisted.value else []
    {
      log := if persisted.Some? then persisted.value else [];
    }

    /** Appends one record; the records before it stay as they were, in the same order. */
    method AddTransaction(date: ValidDate, amount: int, category: string, kind: string)
      modifies this
      ensures log == old(log) + [Transaction(date, amount, category, kind)]
    {
      log := log + [Transaction(date, amount, category, kind)];
    }

    /** Reads back every record, in insertion order, with nothing filtered or reordered. */
    method GetTransactions() returns (txs: seq<Transaction>)
      ensures txs == log
    {
      txs := log;
    }

    /** The summary of the stored log; an empty log gives two empty tables. */
    function GetSummary(period: string): (s: Summary)
      reads this
      ensures s == Summarize(log, period)
      ensures log == [] ==> s == Summary([], [])
    {
      Summarize(log, period)
    }
  }

  /** A fresh store, four additions, then a read-back and a monthly summary. */
  method AddThenSummarize()
  {
    var store := new TransactionStore(None);
    store.AddTransaction(Date(2024, 1, 15), 100, "Food", "expense");
    store.AddTransaction(Date(2024, 1, 20), 50, "Food", "expense");
    store.AddTransaction(Date(2024, 2, 1), 200, "Food", "expense");
    store.AddTransaction(Date(2024, 1, 10), 1000, "Salary", "income");
    var txs := store.GetTransactions();
    assert |txs| == 4 && txs[2] == Transaction(Date(2024, 2, 1), 200, "Food", "expense");
    assert store.log == [Transaction(Date(2024, 1, 15), 100, "Food", "expense"),
                         Transaction(Date(2024, 1, 20), 50, "Food", "expense"),
                         Transaction(Date(2024, 2, 1), 200, "Food", "expense"),
                         Transaction(Date(2024, 1, 10), 1000, "Salary", "income")];
    MonthlySummaryExample();
    assert store.GetSummary("month").expenses == [Row(1, "Food", 150), Row(2, "Food", 200)];
  }
}
