/** The aggregator behind get_statistics (app_enhanced.py) and get_summary
    (stop.py): totals by kind, balance, count, average, and the
    per-category and per-month breakdowns. Amounts are in cents; the
    rounding to two decimals the trackers apply on output is not modelled. */
module Statistics {
  import opened Text
  import opened Transactions

  /** One entry of `monthly_breakdown`. */
  datatype MonthTotals = MonthTotals(income: int, expense: int)

  /** The dictionary get_statistics returns. */
  datatype Statistics = Statistics(
    totalIncome: int,
    totalExpenses: int,
    balance: int,
    count: nat,
    incomeByCategory: map<string, int>,
    expenseByCategory: map<string, int>,
    monthly: map<string, MonthTotals>,
    average: real)

  /** The dictionary get_summary returns. */
  datatype Summary = Summary(totalIncome: int, totalExpenses: int, balance: int, count: nat)

  /** `sum(t['amount'] for t in ts if t['type'] == kind)`. */
  function KindTotal(ts: seq<Transaction>, kind: Kind): int {
    if ts == [] then 0
    else KindTotal(ts[..|ts| - 1], kind) + (if ts[|ts| - 1].kind == kind then ts[|ts| - 1].amount else 0)
  }

  /** `sum(t['amount'] for t in ts)`. */
  function Total(ts: seq<Transaction>): int {
    if ts == [] then 0 else Total(ts[..|ts| - 1]) + ts[|ts| - 1].amount
  }

  /** `average_transaction`: the mean amount, 0 for no transactions. */
  function Average(ts: seq<Transaction>): (a: real)
    ensures ts == [] ==> a == 0.0
    ensures ts != [] ==> a * |ts| as real == Total(ts) as real
  {
    if ts == [] then 0.0 else Total(ts) as real / |ts| as real
  }

  /** `d.get(k, 0)`. */
  function Get(d: map<string, int>, k: string): int {
    if k in d then d[k] else 0
  }

  /** The map the category loop builds for `kind`: the amount of each
      transaction of that kind added under its category. */
  function CategoryTotals(ts: seq<Transaction>, kind: Kind): map<string, int> {
    if ts == [] then map[]
    else
      var d := CategoryTotals(ts[..|ts| - 1], kind);
      var t := ts[|ts| - 1];
      if t.kind == kind then d[t.category := Get(d, t.category) + t.amount] else d
  }

  /** `t['date'][:7]`: the year and month of an ISO date. */
  function MonthKey(t: Transaction): string {
    Take(t.date, 7)
  }

  /** The map the monthly loop builds: each month's entry starts at zero
      for both kinds and takes the amount under the transaction's kind. */
  function MonthlyTotals(ts: seq<Transaction>): map<string, MonthTotals> {
    if ts == [] then map[]
    else AddToMonth(MonthlyTotals(ts[..|ts| - 1]), ts[|ts| - 1])
  }

  /** One turn of the monthly loop: the month's entry, zero for both kinds
      when new, takes the amount under the transaction's kind. */
  function AddToMonth(d: map<string, MonthTotals>, t: Transaction): map<string, MonthTotals> {
    var e := if MonthKey(t) in d then d[MonthKey(t)] else MonthTotals(0, 0);
    d[MonthKey(t) := if t.kind == Income then e.(income := e.income + t.amount) else e.(expense := e.expense + t.amount)]
  }

  /** get_statistics over the listed transactions. */
  function StatisticsOf(ts: seq<Transaction>): (s: Statistics)
    ensures s.totalIncome == KindTotal(ts, Income) && s.totalExpenses == KindTotal(ts, Expense)
    ensures s.balance == s.totalIncome - s.totalExpenses
    ensures s.count == |ts|
    ensures s.average == Average(ts)
  {
    var income := KindTotal(ts, Income);
    var expenses := KindTotal(ts, Expense);
    Statistics(income, expenses, income - expenses, |ts|,
      CategoryTotals(ts, Income), CategoryTotals(ts, Expense), MonthlyTotals(ts), Average(ts))
  }

  /** get_summary over the listed transactions. */
  function SummaryOf(ts: seq<Transaction>): (s: Summary)
    ensures s.balance == s.totalIncome - s.totalExpenses
    ensures s.count == |ts|
  {
    var income := KindTotal(ts, Income);
    var expenses := KindTotal(ts, Expense);
    Summary(income, expenses, income - expenses, |ts|)
  }

  /** The statistics loops of get_statistics: the totals as sums, then one
      pass that adds each amount to its kind's category map, then one pass
      that adds it to its month's entry. */
  method ComputeStatistics(ts: seq<Transaction>) returns (s: Statistics)
    ensures s == StatisticsOf(ts)
  {
    var totalIncome := KindTotal(ts, Income);
    var totalExpenses := KindTotal(ts, Expense);
    var balance := totalIncome - totalExpenses;
    var incomeByCategory, expenseByCategory := CategoryPass(ts);
    var monthly := MonthlyPass(ts);
    s := Statistics(totalIncome, totalExpenses, balance, |ts|,
      incomeByCategory, expenseByCategory, monthly, Average(ts));
  }

  /** The category loop: each amount added under its category in its
      kind's map. */
  method CategoryPass(ts: seq<Transaction>) returns (incomeByCategory: map<string, int>, expenseByCategory: map<string, int>)
    ensures incomeByCategory == CategoryTotals(ts, Income)
    ensures expenseByCategory == CategoryTotals(ts, Expense)
  {
    incomeByCategory, expenseByCategory := map[], map[];
    for i := 0 to |ts|
      invariant incomeByCategory == CategoryTotals(ts[..i], Income)
      invariant expenseByCategory == CategoryTotals(ts[..i], Expense)
    {
      assert ts[..i + 1][..i] == ts[..i];
      var t := ts[i];
      if t.kind == Income {
        incomeByCategory := incomeByCategory[t.category := Get(incomeByCategory, t.category) + t.amount];
      } else {
        expenseByCategory := expenseByCategory[t.category := Get(expenseByCategory, t.category) + t.amount];
      }
    }
    assert ts[..|ts|] == ts;
  }

  /** The monthly loop: a month seen for the first time starts at zero for
      both kinds, then the amount is added under the transaction's kind. */
  method MonthlyPass(ts: seq<Transaction>) returns (monthly: map<string, MonthTotals>)
    ensures monthly == MonthlyTotals(ts)
  {
    monthly := map[];
    for i := 0 to |ts|
      invariant monthly == MonthlyTotals(ts[..i])
    {
      assert ts[..i + 1][..i] == ts[..i];
      var t := ts[i];
      ghost var before := monthly;
      var month := Take(t.date, 7);
      if month !in monthly {
        monthly := monthly[month := MonthTotals(0, 0)];
      }
      if t.kind == Income {
        monthly := monthly[month := monthly[month].(income := monthly[month].income + t.amount)];
      } else {
        monthly := monthly[month := monthly[month].(expense := monthly[month].expense + t.amount)];
      }
      assert monthly == AddToMonth(before, t);
    }
    assert ts[..|ts|] == ts;
  }

  /** Every transaction is income or expense, so the two totals make up
      the total of all amounts. */
  lemma {:induction false} KindsMakeTotal(ts: seq<Transaction>)
    ensures KindTotal(ts, Income) + KindTotal(ts, Expense) == Total(ts)
  {
    if ts != [] {
      KindsMakeTotal(ts[..|ts| - 1]);
    }
  }

  /** Over stored rows (every amount positive) the totals are never
      negative, and a kind's total is positive exactly when some row of
      that kind is listed. */
  lemma {:induction false} TotalsOfStoredRows(ts: seq<Transaction>, kind: Kind)
    requires forall i :: 0 <= i < |ts| ==> ts[i].amount > 0
    ensures KindTotal(ts, kind) >= 0
    ensures KindTotal(ts, kind) > 0 <==> exists i :: 0 <= i < |ts| && ts[i].kind == kind
  {
    if ts != [] {
      var init := ts[..|ts| - 1];
      TotalsOfStoredRows(init, kind);
      if exists i :: 0 <= i < |init| && init[i].kind == kind {
        var i :| 0 <= i < |init| && init[i].kind == kind;
        assert ts[i] == init[i];
      }
      if exists i :: 0 <= i < |ts| && ts[i].kind == kind {
        var i :| 0 <= i < |ts| && ts[i].kind == kind;
        if i < |init| {
          assert init[i] == ts[i];
        }
      }
    }
  }

  /** A category is a key of a kind's map exactly when some listed
      transaction of that kind has it. */
  lemma {:induction false} CategoryKeys(ts: seq<Transaction>, kind: Kind)
    ensures forall c :: c in CategoryTotals(ts, kind) <==>
      exists i :: 0 <= i < |ts| && ts[i].kind == kind && ts[i].category == c
  {
    if ts != [] {
      var init := ts[..|ts| - 1];
      CategoryKeys(init, kind);
      forall c ensures c in CategoryTotals(ts, kind) <==>
        exists i :: 0 <= i < |ts| && ts[i].kind == kind && ts[i].category == c
      {
        if exists i :: 0 <= i < |init| && init[i].kind == kind && init[i].category == c {
          var i :| 0 <= i < |init| && init[i].kind == kind && init[i].category == c;
          assert ts[i] == init[i];
        }
        if exists i :: 0 <= i < |ts| && ts[i].kind == kind && ts[i].category == c {
          var i :| 0 <= i < |ts| && ts[i].kind == kind && ts[i].category == c;
          if i < |init| {
            assert init[i] == ts[i];
          }
        }
      }
    }
  }

  /** A month is a key of `monthly_breakdown` exactly when it is the
      `date[:7]` of some listed transaction. */
  lemma {:induction false} MonthKeys(ts: seq<Transaction>)
    ensures forall m :: m in MonthlyTotals(ts) <==> exists i :: 0 <= i < |ts| && MonthKey(ts[i]) == m
  {
    if ts != [] {
      var init := ts[..|ts| - 1];
      MonthKeys(init);
      forall m ensures m in MonthlyTotals(ts) <==> exists i :: 0 <= i < |ts| && MonthKey(ts[i]) == m {
        if exists i :: 0 <= i < |init| && MonthKey(init[i]) == m {
          var i :| 0 <= i < |init| && MonthKey(init[i]) == m;
          assert ts[i] == init[i];
        }
        if exists i :: 0 <= i < |ts| && MonthKey(ts[i]) == m {
          var i :| 0 <= i < |ts| && MonthKey(ts[i]) == m;
          if i < |init| {
            assert init[i] == ts[i];
          }
        }
      }
    }
  }

  /** The sum of the values of a map, in no particular order. */
  ghost function SumValues(d: map<string, int>): int
    decreases |d|
  {
    if d == map[] then 0
    else
      var k :| k in d;
      d[k] + SumValues(d - {k})
  }

  /** The sum does not depend on which key is taken out first. */
  lemma SumValuesWithout(d: map<string, int>, k: string)
    requires k in d
    ensures SumValues(d) == d[k] + SumValues(d - {k})
    decreases |d|
  {
    var j :| j in d && SumValues(d) == d[j] + SumValues(d - {j});
    if j != k {
      SumValuesWithout(d - {j}, k);
      SumValuesWithout(d - {k}, j);
      assert d - {j} - {k} == d - {k} - {j};
    }
  }

  /** Adding `x` under one key adds `x` to the sum. */
  lemma AddUnder(d: map<string, int>, k: string, x: int)
    ensures SumValues(d[k := Get(d, k) + x]) == SumValues(d) + x
  {
    var e := d[k := Get(d, k) + x];
    SumValuesWithout(e, k);
    if k in d {
      SumValuesWithout(d, k);
      assert e - {k} == d - {k};
    } else {
      assert e - {k} == d;
    }
  }

  /** The values of a kind's category map add up to that kind's total. */
  lemma {:induction false} CategoryValuesSum(ts: seq<Transaction>, kind: Kind)
    ensures SumValues(CategoryTotals(ts, kind)) == KindTotal(ts, kind)
  {
    if ts == [] {
    } else {
      var init := ts[..|ts| - 1];
      var t := ts[|ts| - 1];
      CategoryValuesSum(init, kind);
      if t.kind == kind {
        AddUnder(CategoryTotals(init, kind), t.category, t.amount);
      }
    }
  }

  /** The value under a category is the total of that kind's transactions
      in that category. */
  function CategoryTotal(ts: seq<Transaction>, kind: Kind, c: string): int {
    if ts == [] then 0
    else
      var t := ts[|ts| - 1];
      CategoryTotal(ts[..|ts| - 1], kind, c) + (if t.kind == kind && t.category == c then t.amount else 0)
  }

  lemma {:induction false} CategoryValue(ts: seq<Transaction>, kind: Kind, c: string)
    ensures Get(CategoryTotals(ts, kind), c) == CategoryTotal(ts, kind, c)
  {
    if ts != [] {
      CategoryValue(ts[..|ts| - 1], kind, c);
    }
  }

  /** One kind's column of `monthly_breakdown`. */
  function Column(d: map<string, MonthTotals>, kind: Kind): map<string, int> {
    map m | m in d :: if kind == Income then d[m].income else d[m].expense
  }

  /** Each column of `monthly_breakdown` adds up to that kind's total. */
  lemma {:induction false} MonthlyColumnsSum(ts: seq<Transaction>, kind: Kind)
    ensures SumValues(Column(MonthlyTotals(ts), kind)) == KindTotal(ts, kind)
  {
    if ts == [] {
      assert Column(MonthlyTotals(ts), kind) == map[];
    } else {
      var init := ts[..|ts| - 1];
      var t := ts[|ts| - 1];
      MonthlyColumnsSum(init, kind);
      var before := Column(MonthlyTotals(init), kind);
      var x := if t.kind == kind then t.amount else 0;
      ColumnStep(MonthlyTotals(init), t, kind);
      AddUnder(before, MonthKey(t), x);
    }
  }

  /** One turn of the monthly loop adds the amount, or zero, under the
      transaction's month in each column. */
  lemma ColumnStep(d: map<string, MonthTotals>, t: Transaction, kind: Kind)
    ensures var before := Column(d, kind);
      Column(AddToMonth(d, t), kind)
      == before[MonthKey(t) := Get(before, MonthKey(t)) + (if t.kind == kind then t.amount else 0)]
  {
    var k := MonthKey(t);
    var e := if k in d then d[k] else MonthTotals(0, 0);
    var e' := if t.kind == Income then e.(income := e.income + t.amount) else e.(expense := e.expense + t.amount);
    ColumnUpdate(d, k, e', kind);
    ColumnAt(d, kind, k);
  }

  /** A month's entry in a column, zero for a month not in the breakdown. */
  lemma ColumnAt(d: map<string, MonthTotals>, kind: Kind, k: string)
    ensures Get(Column(d, kind), k) == if k !in d then 0 else if kind == Income then d[k].income else d[k].expense
  {
  }

  /** Setting one month's entry sets that month in each column. */
  lemma ColumnUpdate(d: map<string, MonthTotals>, k: string, e: MonthTotals, kind: Kind)
    ensures Column(d[k := e], kind) == Column(d, kind)[k := if kind == Income then e.income else e.expense]
  {
    var a := Column(d[k := e], kind);
    var b := Column(d, kind)[k := if kind == Income then e.income else e.expense];
    assert a.Keys == b.Keys;
    forall m | m in a ensures a[m] == b[m] {
      if m != k {
        assert (d[k := e])[m] == d[m];
      }
    }
  }

  /** get_summary reports what get_statistics reports for the same list. */
  lemma SummaryAgrees(ts: seq<Transaction>)
    ensures var s, t := SummaryOf(ts), StatisticsOf(ts);
      s.totalIncome == t.totalIncome && s.totalExpenses == t.totalExpenses
      && s.balance == t.balance && s.count == t.count
  {
  }
}
