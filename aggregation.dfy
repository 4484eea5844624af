/**
 * The transaction log and its period/category aggregation: every transaction of one
 * type is put in a bucket (its ISO week, its month or its year), and the amounts are
 * summed per (bucket, category) pair. Rows come out ordered by (bucket, category),
 * the order of a sorted group-by.
 */
module Aggregation {
  import opened Calendar
  import opened Wrappers

  /**
   * One record of the log. `kind` is the record's type column: the store accepts any
   * string there; only "expense" and "income" are ever summarised. Amounts are exact
   * integers (cents).
   */
  datatype Transaction = Transaction(date: ValidDate, amount: int, category: string, kind: string)

  /** One summary row: a bucket, a category and the summed amount of that group. */
  datatype Row = Row(period: int, category: string, amount: int)

  /**
   * The bucket of a date: its ISO week number for "week", its month for "month",
   * and its year for every other period string.
   */
  function PeriodKey(period: string, d: ValidDate): (k: int)
    ensures period == "week" ==> 1 <= k <= 53
    ensures period == "month" ==> 1 <= k <= 12
    ensures period != "week" && period != "month" ==> k == d.year
  {
    if period == "week" then IsoWeek(d)
    else if period == "month" then d.month
    else d.year
  }

  // ---------------------------------------------------------------------------
  // Ordering of group keys

  /** Lexicographic order of strings by character code, as Python compares `str` values. */
  predicate StrLess(a: string, b: string)
  {
    if |a| == 0 then |b| > 0
    else if |b| == 0 then false
    else if a[0] != b[0] then a[0] < b[0]
    else StrLess(a[1..], b[1..])
  }

  lemma {:induction false} StrLessIrreflexive(a: string)
    ensures !StrLess(a, a)
  {
    if |a| > 0 {
      StrLessIrreflexive(a[1..]);
    }
  }

  lemma {:induction false} StrLessTransitive(a: string, b: string, c: string)
    requires StrLess(a, b) && StrLess(b, c)
    ensures StrLess(a, c)
  {
    if |a| > 0 && a[0] == b[0] && b[0] == c[0] {
      StrLessTransitive(a[1..], b[1..], c[1..]);
    }
  }

  lemma {:induction false} StrLessTotal(a: string, b: string)
    requires a != b
    ensures StrLess(a, b) || StrLess(b, a)
  {
    if |a| > 0 && |b| > 0 && a[0] == b[0] {
      assert a == [a[0]] + a[1..] && b == [b[0]] + b[1..];
      StrLessTotal(a[1..], b[1..]);
    }
  }

  /** Group keys are ordered by bucket first and category second. */
  predicate KeyLess(p1: int, c1: string, p2: int, c2: string)
  {
    p1 < p2 || (p1 == p2 && StrLess(c1, c2))
  }

  lemma KeyLessTransitive(p1: int, c1: string, p2: int, c2: string, p3: int, c3: string)
    requires KeyLess(p1, c1, p2, c2) && KeyLess(p2, c2, p3, c3)
    ensures KeyLess(p1, c1, p3, c3)
  {
    if p1 == p2 == p3 {
      StrLessTransitive(c1, c2, c3);
    }
  }

  predicate RowLess(r: Row, s: Row)
  {
    KeyLess(r.period, r.category, s.period, s.category)
  }

  /** Strictly ascending group keys: sorted, and so no group key appears twice. */
  predicate Ascending(rows: seq<Row>)
  {
    forall i, j :: 0 <= i < j < |rows| ==> RowLess(rows[i], rows[j])
  }

  /** Every row's key is above the key (p, c). */
  predicate AllAbove(rows: seq<Row>, p: int, c: string)
  {
    forall i :: 0 <= i < |rows| ==> KeyLess(p, c, rows[i].period, rows[i].category)
  }

  // ---------------------------------------------------------------------------
  // Rows as a finite map from group keys to amounts

  /** The amount stored for group (p, c), or None when the rows have no such group. */
  function Lookup(rows: seq<Row>, p: int, c: string): Option<int>
  {
    if rows == [] then None
    else if rows[0].period == p && rows[0].category == c then Some(rows[0].amount)
    else Lookup(rows[1..], p, c)
  }

  function SumRows(rows: seq<Row>): int
  {
    if rows == [] then 0 else rows[0].amount + SumRows(rows[1..])
  }

  /**
   * Adds `a` to group (p, c): to its row when there is one, otherwise in a new row
   * placed where it keeps the keys ascending.
   */
  function Accumulate(rows: seq<Row>, p: int, c: string, a: int): seq<Row>
  {
    if rows == [] then [Row(p, c, a)]
    else if rows[0].period == p && rows[0].category == c then [Row(p, c, rows[0].amount + a)] + rows[1..]
    else if KeyLess(p, c, rows[0].period, rows[0].category) then [Row(p, c, a)] + rows
    else [rows[0]] + Accumulate(rows[1..], p, c, a)
  }

  lemma {:induction false} AccumulateAbove(rows: seq<Row>, p: int, c: string, a: int, lo: int, loc: string)
    requires AllAbove(rows, lo, loc) && KeyLess(lo, loc, p, c)
    ensures AllAbove(Accumulate(rows, p, c, a), lo, loc)
  {
    if rows != [] && !(rows[0].period == p && rows[0].category == c) && !KeyLess(p, c, rows[0].period, rows[0].category) {
      AccumulateAbove(rows[1..], p, c, a, lo, loc);
    }
  }

  /** A key below the first key of ascending rows is below all of them. */
  lemma AscendingAbove(rows: seq<Row>, p: int, c: string)
    requires Ascending(rows) && rows != [] && KeyLess(p, c, rows[0].period, rows[0].category)
    ensures AllAbove(rows, p, c)
  {
    forall i | 0 < i < |rows|
      ensures KeyLess(p, c, rows[i].period, rows[i].category)
    {
      KeyLessTransitive(p, c, rows[0].period, rows[0].category, rows[i].period, rows[i].category);
    }
  }

  /** Accumulating keeps the keys strictly ascending. */
  lemma {:induction false} AccumulateAscending(rows: seq<Row>, p: int, c: string, a: int)
    requires Ascending(rows)
    ensures Ascending(Accumulate(rows, p, c, a))
  {
    if rows == [] {
    } else if rows[0].period == p && rows[0].category == c {
    } else if KeyLess(p, c, rows[0].period, rows[0].category) {
      AscendingAbove(rows, p, c);
    } else {
      var r := rows[0];
      if r.period == p {
        StrLessTotal(r.category, c);
      }
      assert AllAbove(rows[1..], r.period, r.category);
      AccumulateAscending(rows[1..], p, c, a);
      AccumulateAbove(rows[1..], p, c, a, r.period, r.category);
    }
  }

  /** No row of rows above (p, c) has the key (p, c). */
  lemma {:induction false} AboveHasNoKey(rows: seq<Row>, p: int, c: string)
    requires AllAbove(rows, p, c)
    ensures Lookup(rows, p, c) == None
  {
    if rows != [] {
      StrLessIrreflexive(c);
      AboveHasNoKey(rows[1..], p, c);
    }
  }

  /** The amount of a group, zero when the group is absent. */
  function AmountOf(rows: seq<Row>, p: int, c: string): int
  {
    match Lookup(rows, p, c)
    case None => 0
    case Some(v) => v
  }

  /** Accumulating into (p, c) adds `a` to that group, creates it if absent, and leaves every other group alone. */
  lemma {:induction false} AccumulateLookup(rows: seq<Row>, p: int, c: string, a: int, p2: int, c2: string)
    requires Ascending(rows)
    ensures Lookup(Accumulate(rows, p, c, a), p2, c2)
         == if p2 == p && c2 == c then Some(AmountOf(rows, p, c) + a) else Lookup(rows, p2, c2)
  {
    if rows == [] {
    } else if rows[0].period == p && rows[0].category == c {
    } else if KeyLess(p, c, rows[0].period, rows[0].category) {
      AscendingAbove(rows, p, c);
      AboveHasNoKey(rows, p, c);
    } else {
      AccumulateLookup(rows[1..], p, c, a, p2, c2);
    }
  }

  lemma {:induction false} AccumulateSum(rows: seq<Row>, p: int, c: string, a: int)
    ensures SumRows(Accumulate(rows, p, c, a)) == SumRows(rows) + a
  {
    if rows != [] && !(rows[0].period == p && rows[0].category == c) && !KeyLess(p, c, rows[0].period, rows[0].category) {
      AccumulateSum(rows[1..], p, c, a);
    }
  }

  /** In ascending rows, looking up a row's own key finds that row's amount. */
  lemma {:induction false} LookupFindsRow(rows: seq<Row>, k: nat)
    requires Ascending(rows) && k < |rows|
    ensures Lookup(rows, rows[k].period, rows[k].category) == Some(rows[k].amount)
  {
    if k > 0 {
      assert RowLess(rows[0], rows[k]);
      StrLessIrreflexive(rows[k].category);
      LookupFindsRow(rows[1..], k - 1);
    }
  }

  // ---------------------------------------------------------------------------
  // The group-by-sum and its specification

  /**
   * The rows of the summary for records whose type is `kind`: one row per
   * (bucket, category) group, in ascending key order.
   */
  function GroupSum(log: seq<Transaction>, period: string, kind: string): (rows: seq<Row>)
    ensures Ascending(rows)
  {
    if log == [] then []
    else
      var t := log[|log| - 1];
      var rows := GroupSum(log[..|log| - 1], period, kind);
      if t.kind == kind then
        AccumulateAscending(rows, PeriodKey(period, t.date), t.category, t.amount);
        Accumulate(rows, PeriodKey(period, t.date), t.category, t.amount)
      else rows
  }

  /** Record t falls in group (p, c) of the summary for type `kind`. */
  predicate Matches(t: Transaction, period: string, kind: string, p: int, c: string)
  {
    t.kind == kind && PeriodKey(period, t.date) == p && t.category == c
  }

  /** The sum of the amounts of all records in group (p, c) of type `kind`. */
  function GroupTotal(log: seq<Transaction>, period: string, kind: string, p: int, c: string): int
  {
    if log == [] then 0
    else
      var t := log[|log| - 1];
      GroupTotal(log[..|log| - 1], period, kind, p, c) + (if Matches(t, period, kind, p, c) then t.amount else 0)
  }

  /** The sum of the amounts of all records of type `kind`. */
  function KindTotal(log: seq<Transaction>, kind: string): int
  {
    if log == [] then 0
    else
      var t := log[|log| - 1];
      KindTotal(log[..|log| - 1], kind) + (if t.kind == kind then t.amount else 0)
  }

  /** The records of type `kind`, in log order. */
  function OfKind(log: seq<Transaction>, kind: string): (r: seq<Transaction>)
    ensures |r| <= |log|
  {
    if log == [] then []
    else
      var t := log[|log| - 1];
      OfKind(log[..|log| - 1], kind) + (if t.kind == kind then [t] else [])
  }

  /** Some record of the log falls in group (p, c) of type `kind`. */
  predicate SomeMatch(log: seq<Transaction>, period: string, kind: string, p: int, c: string)
  {
    exists i :: 0 <= i < |log| && Matches(log[i], period, kind, p, c)
  }

  lemma SomeMatchSplit(log: seq<Transaction>, period: string, kind: string, p: int, c: string)
    requires log != []
    ensures SomeMatch(log, period, kind, p, c)
        <==> SomeMatch(log[..|log| - 1], period, kind, p, c) || Matches(log[|log| - 1], period, kind, p, c)
  {
    var n := |log| - 1;
    if SomeMatch(log, period, kind, p, c) {
      var i :| 0 <= i < |log| && Matches(log[i], period, kind, p, c);
      if i < n {
        assert log[..n][i] == log[i];
      }
    }
    if SomeMatch(log[..n], period, kind, p, c) {
      var i :| 0 <= i < n && Matches(log[..n][i], period, kind, p, c);
      assert log[i] == log[..n][i];
    }
  }

  /** A group's amount in the summary is the sum of the amounts of its records (zero when it has none). */
  lemma {:induction false} GroupSumAmount(log: seq<Transaction>, period: string, kind: string, p: int, c: string)
    ensures AmountOf(GroupSum(log, period, kind), p, c) == GroupTotal(log, period, kind, p, c)
  {
    if log != [] {
      var n := |log| - 1;
      var t := log[n];
      GroupSumAmount(log[..n], period, kind, p, c);
      if t.kind == kind {
        AccumulateLookup(GroupSum(log[..n], period, kind), PeriodKey(period, t.date), t.category, t.amount, p, c);
      }
    }
  }

  /**
   * A group is in the summary exactly when some record of type `kind` falls into it
   * (no zero-filled groups, no missing ones), and its amount is the sum over those records.
   */
  lemma {:induction false} GroupSumLookup(log: seq<Transaction>, period: string, kind: string, p: int, c: string)
    ensures Lookup(GroupSum(log, period, kind), p, c).Some? <==> SomeMatch(log, period, kind, p, c)
    ensures AmountOf(GroupSum(log, period, kind), p, c) == GroupTotal(log, period, kind, p, c)
  {
    GroupSumAmount(log, period, kind, p, c);
    if log != [] {
      var n := |log| - 1;
      var t := log[n];
      GroupSumLookup(log[..n], period, kind, p, c);
      SomeMatchSplit(log, period, kind, p, c);
      if t.kind == kind {
        AccumulateLookup(GroupSum(log[..n], period, kind), PeriodKey(period, t.date), t.category, t.amount, p, c);
      }
    }
  }

  /**
   * Every row of the summary is one group: some record of type `kind` lies in it,
   * its amount is the group's total, and no other row has the same key.
   */
  lemma GroupSumRows(log: seq<Transaction>, period: string, kind: string)
    ensures forall k :: 0 <= k < |GroupSum(log, period, kind)| ==>
      var r := GroupSum(log, period, kind)[k];
      && SomeMatch(log, period, kind, r.period, r.category)
      && r.amount == GroupTotal(log, period, kind, r.period, r.category)
    ensures forall k, l :: 0 <= k < l < |GroupSum(log, period, kind)| ==>
      GroupSum(log, period, kind)[k].period != GroupSum(log, period, kind)[l].period
      || GroupSum(log, period, kind)[k].category != GroupSum(log, period, kind)[l].category
  {
    var rows := GroupSum(log, period, kind);
    forall k | 0 <= k < |rows|
      ensures SomeMatch(log, period, kind, rows[k].period, rows[k].category)
      ensures rows[k].amount == GroupTotal(log, period, kind, rows[k].period, rows[k].category)
    {
      LookupFindsRow(rows, k);
      GroupSumLookup(log, period, kind, rows[k].period, rows[k].category);
    }
    forall k, l | 0 <= k < l < |rows|
      ensures rows[k].period != rows[l].period || rows[k].category != rows[l].category
    {
      assert RowLess(rows[k], rows[l]);
      StrLessIrreflexive(rows[k].category);
    }
  }

  /** Every record of type `kind` is counted in some row: the one of its own group. */
  lemma GroupSumCoversLog(log: seq<Transaction>, period: string, kind: string, i: nat)
    requires i < |log| && log[i].kind == kind
    ensures exists k ::
      && 0 <= k < |GroupSum(log, period, kind)|
      && GroupSum(log, period, kind)[k].period == PeriodKey(period, log[i].date)
      && GroupSum(log, period, kind)[k].category == log[i].category
  {
    var p, c := PeriodKey(period, log[i].date), log[i].category;
    GroupSumLookup(log, period, kind, p, c);
    LookupHasRow(GroupSum(log, period, kind), p, c);
  }

  lemma {:induction false} LookupHasRow(rows: seq<Row>, p: int, c: string)
    requires Lookup(rows, p, c).Some?
    ensures exists k :: 0 <= k < |rows| && rows[k].period == p && rows[k].category == c
  {
    if !(rows[0].period == p && rows[0].category == c) {
      LookupHasRow(rows[1..], p, c);
      var k :| 0 <= k < |rows[1..]| && rows[1..][k].period == p && rows[1..][k].category == c;
      assert rows[k + 1] == rows[1..][k];
    }
  }

  /** Conservation: the rows of one type add up to the total amount of the records of that type. */
  lemma {:induction false} GroupSumConserves(log: seq<Transaction>, period: string, kind: string)
    ensures SumRows(GroupSum(log, period, kind)) == KindTotal(log, kind)
  {
    if log != [] {
      var n := |log| - 1;
      var t := log[n];
      GroupSumConserves(log[..n], period, kind);
      if t.kind == kind {
        AccumulateSum(GroupSum(log[..n], period, kind), PeriodKey(period, t.date), t.category, t.amount);
      }
    }
  }

  /** The summary for type `kind` is built from the records of that type alone. */
  lemma {:induction false} GroupSumOnlyOfKind(log: seq<Transaction>, period: string, kind: string)
    ensures GroupSum(log, period, kind) == GroupSum(OfKind(log, kind), period, kind)
  {
    if log != [] {
      var n := |log| - 1;
      var t := log[n];
      GroupSumOnlyOfKind(log[..n], period, kind);
      var pre := OfKind(log[..n], kind);
      if t.kind == kind {
        assert OfKind(log, kind) == pre + [t];
        assert (pre + [t])[..|pre|] == pre;
      } else {
        assert OfKind(log, kind) == pre;
      }
    }
  }

  /** With no record of type `kind` the summary for that type is empty. */
  lemma {:induction false} GroupSumNoneOfKind(log: seq<Transaction>, period: string, kind: string)
    requires forall i :: 0 <= i < |log| ==> log[i].kind != kind
    ensures GroupSum(log, period, kind) == []
  {
    if log != [] {
      var n := |log| - 1;
      assert forall i :: 0 <= i < n ==> log[..n][i] == log[i];
      GroupSumNoneOfKind(log[..n], period, kind);
    }
  }

  /** When every amount is positive (as the entry form ensures), every row's amount is positive. */
  lemma {:induction false} GroupTotalPositive(log: seq<Transaction>, period: string, kind: string, p: int, c: string)
    requires forall i :: 0 <= i < |log| ==> log[i].amount > 0
    ensures GroupTotal(log, period, kind, p, c) >= 0
    ensures SomeMatch(log, period, kind, p, c) ==> GroupTotal(log, period, kind, p, c) > 0
  {
    if log != [] {
      var n := |log| - 1;
      assert forall i :: 0 <= i < n ==> log[..n][i] == log[i];
      GroupTotalPositive(log[..n], period, kind, p, c);
      SomeMatchSplit(log, period, kind, p, c);
    }
  }

  lemma GroupSumPositive(log: seq<Transaction>, period: string, kind: string)
    requires forall i :: 0 <= i < |log| ==> log[i].amount > 0
    ensures forall k :: 0 <= k < |GroupSum(log, period, kind)| ==> GroupSum(log, period, kind)[k].amount > 0
  {
    GroupSumRows(log, period, kind);
    var rows := GroupSum(log, period, kind);
    forall k | 0 <= k < |rows|
      ensures rows[k].amount > 0
    {
      GroupTotalPositive(log, period, kind, rows[k].period, rows[k].category);
    }
  }
}
