/**
 * The aggregations the report and dashboard controllers ask of the
 * database, as functions over table rows, and the two loops the
 * controllers run over the query results: the running balance and the
 * Sankey edge list.
 */
module Aggregation {
  import opened Store
  import opened Sorting

  // -------------------------------------------------------------- JOIN

  /** A row of `SELECT e.*, c.category_name FROM ... JOIN categories c`. */
  datatype ListedEntry = ListedEntry(entry: Entry, categoryName: string)

  /** `FROM rows JOIN categories c ON category_id WHERE user_id = userId`, in storage order. */
  function Joined(rows: seq<Entry>, userId: int, categories: map<int, string>): (r: seq<ListedEntry>)
    ensures forall x :: x in r <==> x.entry in rows && x.entry.userId == userId
                                    && Resolves(x.entry, categories, x.categoryName)
  {
    if |rows| == 0 then []
    else
      var rest := Joined(rows[1..], userId, categories);
      assert rows == [rows[0]] + rows[1..];
      var e := rows[0];
      if e.userId == userId && e.categoryId in categories then [ListedEntry(e, categories[e.categoryId])] + rest
      else rest
  }

  /**
   * `... ORDER BY <first> LIMIT n` over the joined rows of one user: at
   * most n of them, in the order `first`, and no joined row left out comes
   * before a listed one.
   */
  function Latest(rows: seq<Entry>, userId: int, categories: map<int, string>, n: nat,
                  first: (ListedEntry, ListedEntry) -> bool): (r: seq<ListedEntry>)
    requires TotalPreorder(first)
    ensures |r| == if |Joined(rows, userId, categories)| < n then |Joined(rows, userId, categories)| else n
    ensures SortedBy(r, first)
    ensures multiset(r) <= multiset(Joined(rows, userId, categories))
    ensures forall x :: x in r ==> x.entry in rows && x.entry.userId == userId
                                   && Resolves(x.entry, categories, x.categoryName)
    ensures forall x, y :: x in r && y in Joined(rows, userId, categories) && y !in r ==> first(x, y)
  {
    var sorted := SortBy(Joined(rows, userId, categories), first);
    LimitOfSorted(sorted, n, first);
    LimitIsTop(sorted, n, first);
    var r := Limit(sorted, n);
    assert forall x :: x in r ==> x in multiset(Joined(rows, userId, categories)) by {
      forall x | x in r ensures x in multiset(Joined(rows, userId, categories)) {
        assert x in multiset(r);
      }
    }
    assert forall y :: y in Joined(rows, userId, categories) ==> y in sorted by {
      forall y | y in Joined(rows, userId, categories) ensures y in sorted {
        assert y in multiset(Joined(rows, userId, categories));
      }
    }
    r
  }

  // --------------------------------------------------------------- SUM

  /** `COALESCE(SUM(amount), 0)`: zero for no rows. */
  function Total(rows: seq<Entry>): int
  {
    if |rows| == 0 then 0 else rows[0].amount + Total(rows[1..])
  }

  /** The total of two batches of rows is the sum of their totals. */
  lemma {:induction false} TotalAppend(a: seq<Entry>, b: seq<Entry>)
    ensures Total(a + b) == Total(a) + Total(b)
  {
    if |a| > 0 {
      assert (a + b)[1..] == a[1..] + b;
      TotalAppend(a[1..], b);
    } else {
      assert a + b == b;
    }
  }

  /** Totals of non-negative amounts are non-negative. */
  lemma {:induction false} TotalNonNegative(rows: seq<Entry>)
    requires forall k :: 0 <= k < |rows| ==> rows[k].amount >= 0
    ensures Total(rows) >= 0
  {
    if |rows| > 0 {
      TotalNonNegative(rows[1..]);
    }
  }

  // ------------------------------------- GROUP BY c.category_name (JOIN)

  /** One row of a `SELECT c.category_name, SUM(amount) ... GROUP BY c.category_name` result. */
  datatype CategoryTotal = CategoryTotal(name: string, total: int)

  ghost predicate DistinctNames(g: seq<CategoryTotal>)
  {
    forall i, j :: 0 <= i < j < |g| ==> g[i].name != g[j].name
  }

  ghost predicate Listed(g: seq<CategoryTotal>, name: string)
  {
    exists i :: 0 <= i < |g| && g[i].name == name
  }

  /** The total a grouped result shows for `name`, 0 when it has no such group. */
  function TotalOf(g: seq<CategoryTotal>, name: string): int
  {
    if |g| == 0 then 0
    else if g[0].name == name then g[0].total
    else TotalOf(g[1..], name)
  }

  /** The inner join: the row's category exists and carries `name`. */
  predicate Resolves(e: Entry, categories: map<int, string>, name: string)
  {
    e.categoryId in categories && categories[e.categoryId] == name
  }

  ghost predicate HasCategory(rows: seq<Entry>, categories: map<int, string>, name: string)
  {
    exists e :: e in rows && Resolves(e, categories, name)
  }

  /** The sum of the amounts of the joined rows whose category is called `name`. */
  function SumFor(rows: seq<Entry>, categories: map<int, string>, name: string): int
  {
    if |rows| == 0 then 0
    else (if Resolves(rows[0], categories, name) then rows[0].amount else 0)
         + SumFor(rows[1..], categories, name)
  }

  lemma ListedCons(h: CategoryTotal, t: seq<CategoryTotal>)
    ensures forall n :: Listed([h] + t, n) <==> h.name == n || Listed(t, n)
  {
    var r := [h] + t;
    forall n ensures Listed(r, n) <==> h.name == n || Listed(t, n) {
      if h.name == n {
        assert r[0].name == n;
      }
      if Listed(t, n) {
        var i :| 0 <= i < |t| && t[i].name == n;
        assert r[i + 1].name == n;
      }
      if Listed(r, n) && n != h.name {
        var i :| 0 <= i < |r| && r[i].name == n;
        assert t[i - 1].name == n;
      }
    }
  }

  /** Adds `amount` to the group called `name`, opening the group at the end if there is none. */
  function AddTo(g: seq<CategoryTotal>, name: string, amount: int): (r: seq<CategoryTotal>)
    requires DistinctNames(g)
    ensures DistinctNames(r)
    ensures forall n :: Listed(r, n) <==> Listed(g, n) || n == name
    ensures forall n :: TotalOf(r, n) == TotalOf(g, n) + (if n == name then amount else 0)
  {
    if |g| == 0 then
      ListedCons(CategoryTotal(name, amount), []);
      assert [CategoryTotal(name, amount)] + [] == [CategoryTotal(name, amount)];
      [CategoryTotal(name, amount)]
    else
      assert g == [g[0]] + g[1..];
      ListedCons(g[0], g[1..]);
      assert !Listed(g[1..], g[0].name) by {
        forall i | 0 <= i < |g| - 1 ensures g[1..][i].name != g[0].name {
          assert g[1..][i] == g[i + 1];
        }
      }
      if g[0].name == name then
        ListedCons(CategoryTotal(name, g[0].total + amount), g[1..]);
        assert forall n :: n != name ==> TotalOf(g[1..], n) == TotalOf(g, n);
        [CategoryTotal(name, g[0].total + amount)] + g[1..]
      else
        var rest := AddTo(g[1..], name, amount);
        ListedCons(g[0], rest);
        assert !Listed(rest, g[0].name);
        [g[0]] + rest
  }

  /**
   * `SELECT c.category_name, SUM(amount) FROM rows JOIN categories ... GROUP BY c.category_name`:
   * one group per category name that some joined row carries, holding the
   * sum of those rows' amounts. Rows whose category is unknown are dropped.
   */
  function CategoryTotals(rows: seq<Entry>, categories: map<int, string>): (r: seq<CategoryTotal>)
    ensures DistinctNames(r)
    ensures forall n :: Listed(r, n) <==> HasCategory(rows, categories, n)
    ensures forall n :: TotalOf(r, n) == SumFor(rows, categories, n)
  {
    if |rows| == 0 then []
    else
      var rest := CategoryTotals(rows[1..], categories);
      assert rows == [rows[0]] + rows[1..];
      assert forall n :: HasCategory(rows, categories, n)
                         <==> Resolves(rows[0], categories, n) || HasCategory(rows[1..], categories, n);
      if rows[0].categoryId in categories then AddTo(rest, categories[rows[0].categoryId], rows[0].amount)
      else rest
  }

  /** In a grouped result with distinct names, a group's total is what `TotalOf` reads for its name. */
  lemma {:induction false} TotalOfAt(g: seq<CategoryTotal>, i: int)
    requires DistinctNames(g) && 0 <= i < |g|
    ensures TotalOf(g, g[i].name) == g[i].total
  {
    if i > 0 {
      assert g[0].name != g[i].name;
      TotalOfAt(g[1..], i - 1);
    }
  }

  /** Every group of `CategoryTotals` holds the sum of the joined rows of its category. */
  lemma CategoryTotalsAt(rows: seq<Entry>, categories: map<int, string>, i: int)
    requires 0 <= i < |CategoryTotals(rows, categories)|
    ensures var g := CategoryTotals(rows, categories);
            g[i].total == SumFor(rows, categories, g[i].name)
            && HasCategory(rows, categories, g[i].name)
  {
    var g := CategoryTotals(rows, categories);
    TotalOfAt(g, i);
    assert Listed(g, g[i].name);
  }

  /** `rows.map(r => r.category_name)`. */
  function Labels(g: seq<CategoryTotal>): (r: seq<string>)
    ensures |r| == |g| && forall i :: 0 <= i < |g| ==> r[i] == g[i].name
  {
    if |g| == 0 then [] else [g[0].name] + Labels(g[1..])
  }

  /** `rows.map(r => parseFloat(r.total))`. */
  function Values(g: seq<CategoryTotal>): (r: seq<int>)
    ensures |r| == |g| && forall i :: 0 <= i < |g| ==> r[i] == g[i].total
  {
    if |g| == 0 then [] else [g[0].total] + Values(g[1..])
  }

  // ------------------------------- GROUP BY date_column ORDER BY date_column

  /** One row of the line query: a day and its `SUM(inc) - SUM(exp)`. */
  datatype DayNet = DayNet(day: Date, net: int)

  ghost predicate Ascending(ds: seq<Date>)
  {
    forall i, j :: 0 <= i < j < |ds| ==> Before(ds[i], ds[j])
  }

  ghost function DatesOf(rows: seq<Entry>): set<Date>
  {
    set e | e in rows :: e.date
  }

  /** Puts `d` into an ascending list of distinct dates, unless it is there already. */
  function InsertDate(ds: seq<Date>, d: Date): (r: seq<Date>)
    requires Ascending(ds)
    ensures Ascending(r)
    ensures forall x :: x in r <==> x in ds || x == d
  {
    if |ds| == 0 then [d]
    else if ds[0] == d then ds
    else if Before(d, ds[0]) then [d] + ds
    else
      var rest := InsertDate(ds[1..], d);
      assert ds == [ds[0]] + ds[1..];
      assert forall x :: x in rest ==> Before(ds[0], x);
      [ds[0]] + rest
  }

  /** The dates the rows fall on, each once, in ascending order. */
  function DistinctDates(rows: seq<Entry>): (r: seq<Date>)
    ensures Ascending(r)
    ensures forall d :: d in r <==> d in DatesOf(rows)
  {
    if |rows| == 0 then []
    else
      assert rows == [rows[0]] + rows[1..];
      assert DatesOf(rows) == {rows[0].date} + DatesOf(rows[1..]);
      InsertDate(DistinctDates(rows[1..]), rows[0].date)
  }

  /** The sum of the amounts of the rows dated `d`. */
  function SumOn(rows: seq<Entry>, d: Date): int
  {
    if |rows| == 0 then 0
    else (if rows[0].date == d then rows[0].amount else 0) + SumOn(rows[1..], d)
  }

  /** For each date of `ds`, income on that date minus expense on that date. */
  function NetSeries(ds: seq<Date>, incomes: seq<Entry>, expenses: seq<Entry>): (r: seq<DayNet>)
    ensures |r| == |ds|
    ensures forall i :: 0 <= i < |ds| ==> r[i].day == ds[i]
  {
    if |ds| == 0 then []
    else [DayNet(ds[0], SumOn(incomes, ds[0]) - SumOn(expenses, ds[0]))] + NetSeries(ds[1..], incomes, expenses)
  }

  /**
   * The line query over the (already filtered) income and expense rows:
   * `UNION ALL` of both, `GROUP BY date_column ORDER BY date_column ASC`,
   * with `SUM(inc) - SUM(exp)` per date. There is no join, so rows of
   * unknown categories count too.
   */
  function DailyNet(incomes: seq<Entry>, expenses: seq<Entry>): (r: seq<DayNet>)
    ensures forall i, j :: 0 <= i < j < |r| ==> Before(r[i].day, r[j].day)
    ensures forall d :: d in DatesOf(incomes + expenses) <==> exists i :: 0 <= i < |r| && r[i].day == d
    ensures forall i :: 0 <= i < |r| ==> r[i].net == SumOn(incomes, r[i].day) - SumOn(expenses, r[i].day)
  {
    var ds := DistinctDates(incomes + expenses);
    var r := NetSeries(ds, incomes, expenses);
    NetSeriesNets(ds, incomes, expenses);
    assert forall d :: d in ds <==> exists i :: 0 <= i < |r| && r[i].day == d by {
      forall d ensures d in ds <==> exists i :: 0 <= i < |r| && r[i].day == d {
        if d in ds {
          var i :| 0 <= i < |ds| && ds[i] == d;
          assert r[i].day == d;
        }
      }
    }
    r
  }

  lemma {:induction false} NetSeriesNets(ds: seq<Date>, incomes: seq<Entry>, expenses: seq<Entry>)
    ensures var r := NetSeries(ds, incomes, expenses);
            forall i :: 0 <= i < |r| ==> r[i].net == SumOn(incomes, ds[i]) - SumOn(expenses, ds[i])
  {
    if |ds| > 0 {
      NetSeriesNets(ds[1..], incomes, expenses);
    }
  }

  /** `rows.map(r => r.day)`. */
  function Days(line: seq<DayNet>): (r: seq<Date>)
    ensures |r| == |line| && forall i :: 0 <= i < |line| ==> r[i] == line[i].day
  {
    if |line| == 0 then [] else [line[0].day] + Days(line[1..])
  }

  /** `rows.map(r => parseFloat(r.daily_net_change))`. */
  function Nets(line: seq<DayNet>): (r: seq<int>)
    ensures |r| == |line| && forall i :: 0 <= i < |line| ==> r[i] == line[i].net
  {
    if |line| == 0 then [] else [line[0].net] + Nets(line[1..])
  }

  // ----------------------------------------------------- net totals

  /** The sum, over the dates of `ds`, of the amounts dated on each. */
  function SumOnAll(ds: seq<Date>, rows: seq<Entry>): int
  {
    if |ds| == 0 then 0 else SumOn(rows, ds[0]) + SumOnAll(ds[1..], rows)
  }

  lemma {:induction false} SumOnAllCons(ds: seq<Date>, rows: seq<Entry>)
    requires Ascending(ds) && |rows| > 0
    ensures SumOnAll(ds, rows)
            == (if rows[0].date in ds then rows[0].amount else 0) + SumOnAll(ds, rows[1..])
  {
    if |ds| > 0 {
      SumOnAllCons(ds[1..], rows);
      assert ds == [ds[0]] + ds[1..];
      assert rows[0].date == ds[0] ==> rows[0].date !in ds[1..] by {
        forall k | 0 <= k < |ds| - 1 ensures ds[1..][k] != ds[0] {
          assert Before(ds[0], ds[k + 1]);
        }
      }
    }
  }

  /** Summing per date over dates that cover every row, each once, is summing all rows. */
  lemma {:induction false} SumOnAllTotal(ds: seq<Date>, rows: seq<Entry>)
    requires Ascending(ds)
    requires forall k :: 0 <= k < |rows| ==> rows[k].date in ds
    ensures SumOnAll(ds, rows) == Total(rows)
  {
    if |rows| == 0 {
      SumOnAllEmpty(ds, rows);
    } else {
      SumOnAllCons(ds, rows);
      SumOnAllTotal(ds, rows[1..]);
    }
  }

  lemma {:induction false} SumOnAllEmpty(ds: seq<Date>, rows: seq<Entry>)
    requires |rows| == 0
    ensures SumOnAll(ds, rows) == 0
  {
    if |ds| > 0 {
      SumOnAllEmpty(ds[1..], rows);
    }
  }

  lemma {:induction false} NetSeriesSum(ds: seq<Date>, incomes: seq<Entry>, expenses: seq<Entry>)
    ensures SumInts(Nets(NetSeries(ds, incomes, expenses)))
            == SumOnAll(ds, incomes) - SumOnAll(ds, expenses)
  {
    if |ds| > 0 {
      NetSeriesSum(ds[1..], incomes, expenses);
      var r := NetSeries(ds, incomes, expenses);
      assert r[1..] == NetSeries(ds[1..], incomes, expenses);
      assert Nets(r)[1..] == Nets(r[1..]);
    }
  }

  /** The net changes of the line add up to the income total minus the expense total. */
  lemma DailyNetSum(incomes: seq<Entry>, expenses: seq<Entry>)
    ensures SumInts(Nets(DailyNet(incomes, expenses))) == Total(incomes) - Total(expenses)
  {
    var ds := DistinctDates(incomes + expenses);
    NetSeriesSum(ds, incomes, expenses);
    forall k | 0 <= k < |incomes| ensures incomes[k].date in ds {
      assert (incomes + expenses)[k] == incomes[k];
    }
    forall k | 0 <= k < |expenses| ensures expenses[k].date in ds {
      assert (incomes + expenses)[|incomes| + k] == expenses[k];
    }
    SumOnAllTotal(ds, incomes);
    SumOnAllTotal(ds, expenses);
  }

  // ------------------------------------------------------ running balance

  function SumInts(s: seq<int>): int
  {
    if |s| == 0 then 0 else s[0] + SumInts(s[1..])
  }

  lemma {:induction false} SumIntsSnoc(s: seq<int>, x: int)
    ensures SumInts(s + [x]) == SumInts(s) + x
  {
    if |s| > 0 {
      assert (s + [x])[1..] == s[1..] + [x];
      SumIntsSnoc(s[1..], x);
    }
  }

  /** Each value added to the running balance `acc`, left to right. */
  function Fold(nets: seq<int>, acc: int): (r: seq<int>)
    ensures |r| == |nets|
  {
    if |nets| == 0 then [] else [acc + nets[0]] + Fold(nets[1..], acc + nets[0])
  }

  /** The balance series of the line chart: a running balance that starts from 0. */
  function PrefixSums(nets: seq<int>): (r: seq<int>)
    ensures |r| == |nets|
  {
    Fold(nets, 0)
  }

  lemma {:induction false} FoldAt(nets: seq<int>, acc: int, i: int)
    requires 0 <= i < |nets|
    ensures Fold(nets, acc)[i] == acc + SumInts(nets[..i + 1])
  {
    assert nets[..i + 1][1..] == nets[1..][..i];
    if i > 0 {
      FoldAt(nets[1..], acc + nets[0], i - 1);
    }
  }

  /** Point `i` of the balance series is the sum of the first `i + 1` net changes. */
  lemma PrefixSumsAt(nets: seq<int>, i: int)
    requires 0 <= i < |nets|
    ensures PrefixSums(nets)[i] == SumInts(nets[..i + 1])
  {
    FoldAt(nets, 0, i);
  }

  /** The last point of a non-empty balance series is the sum of all net changes. */
  lemma PrefixSumsLast(nets: seq<int>)
    requires |nets| > 0
    ensures PrefixSums(nets)[|nets| - 1] == SumInts(nets)
  {
    PrefixSumsAt(nets, |nets| - 1);
    assert nets[..|nets|] == nets;
  }

  /**
   * `let currentBalance = 0; rows.map(r => { currentBalance += net; return currentBalance; })`.
   */
  method RunningBalance(nets: seq<int>) returns (balance: seq<int>)
    ensures |balance| == |nets|
    ensures forall i :: 0 <= i < |nets| ==> balance[i] == SumInts(nets[..i + 1])
    ensures balance == PrefixSums(nets)
  {
    var currentBalance := 0;
    balance := [];
    var i := 0;
    while i < |nets|
      invariant 0 <= i <= |nets|
      invariant |balance| == i
      invariant currentBalance == SumInts(nets[..i])
      invariant forall k :: 0 <= k < i ==> balance[k] == SumInts(nets[..k + 1])
    {
      assert nets[..i + 1] == nets[..i] + [nets[i]];
      SumIntsSnoc(nets[..i], nets[i]);
      currentBalance := currentBalance + nets[i];
      balance := balance + [currentBalance];
      i := i + 1;
    }
    forall k | 0 <= k < |nets| ensures balance[k] == PrefixSums(nets)[k] {
      PrefixSumsAt(nets, k);
    }
  }

  // --------------------------------------------------------------- Sankey

  /** The node every income flows into and every expense flows out of. */
  const Wallet: string := "Wallet \U{1F4B0}"

  datatype FlowEdge = FlowEdge(from: string, to: string, flow: int)

  /** Income edges `category -> Wallet` in query order, then expense edges `Wallet -> category`. */
  function SankeyEdges(incomeFlow: seq<CategoryTotal>, expenseFlow: seq<CategoryTotal>): (r: seq<FlowEdge>)
    ensures |r| == |incomeFlow| + |expenseFlow|
  {
    if |incomeFlow| > 0 then
      [FlowEdge(incomeFlow[0].name, Wallet, incomeFlow[0].total)] + SankeyEdges(incomeFlow[1..], expenseFlow)
    else if |expenseFlow| > 0 then
      [FlowEdge(Wallet, expenseFlow[0].name, expenseFlow[0].total)] + SankeyEdges([], expenseFlow[1..])
    else []
  }

  lemma {:induction false} SankeyEdgesAt(incomeFlow: seq<CategoryTotal>, expenseFlow: seq<CategoryTotal>)
    ensures var r := SankeyEdges(incomeFlow, expenseFlow);
            && (forall i :: 0 <= i < |incomeFlow| ==>
                  r[i] == FlowEdge(incomeFlow[i].name, Wallet, incomeFlow[i].total))
            && (forall j :: 0 <= j < |expenseFlow| ==>
                  r[|incomeFlow| + j] == FlowEdge(Wallet, expenseFlow[j].name, expenseFlow[j].total))
  {
    if |incomeFlow| > 0 {
      SankeyEdgesAt(incomeFlow[1..], expenseFlow);
    } else if |expenseFlow| > 0 {
      SankeyEdgesAt([], expenseFlow[1..]);
    }
  }

  /**
   * The two `forEach(r => sankeyData.push(...))` loops: one edge per income
   * group into the wallet, then one edge per expense group out of it.
   */
  method BuildSankey(incomeFlow: seq<CategoryTotal>, expenseFlow: seq<CategoryTotal>)
    returns (sankeyData: seq<FlowEdge>)
    ensures |sankeyData| == |incomeFlow| + |expenseFlow|
    ensures forall i :: 0 <= i < |incomeFlow| ==>
              sankeyData[i] == FlowEdge(incomeFlow[i].name, Wallet, incomeFlow[i].total)
    ensures forall j :: 0 <= j < |expenseFlow| ==>
              sankeyData[|incomeFlow| + j] == FlowEdge(Wallet, expenseFlow[j].name, expenseFlow[j].total)
    ensures sankeyData == SankeyEdges(incomeFlow, expenseFlow)
  {
    sankeyData := [];
    for i := 0 to |incomeFlow|
      invariant |sankeyData| == i
      invariant forall k :: 0 <= k < i ==>
                  sankeyData[k] == FlowEdge(incomeFlow[k].name, Wallet, incomeFlow[k].total)
    {
      sankeyData := sankeyData + [FlowEdge(incomeFlow[i].name, Wallet, incomeFlow[i].total)];
    }
    for j := 0 to |expenseFlow|
      invariant |sankeyData| == |incomeFlow| + j
      invariant forall k :: 0 <= k < |incomeFlow| ==>
                  sankeyData[k] == FlowEdge(incomeFlow[k].name, Wallet, incomeFlow[k].total)
      invariant forall k :: 0 <= k < j ==>
                  sankeyData[|incomeFlow| + k] == FlowEdge(Wallet, expenseFlow[k].name, expenseFlow[k].total)
    {
      sankeyData := sankeyData + [FlowEdge(Wallet, expenseFlow[j].name, expenseFlow[j].total)];
    }
    SankeyEdgesAt(incomeFlow, expenseFlow);
    var spec := SankeyEdges(incomeFlow, expenseFlow);
    forall k | 0 <= k < |spec| ensures sankeyData[k] == spec[k] {
      if k >= |incomeFlow| {
        var j := k - |incomeFlow|;
        assert sankeyData[|incomeFlow| + j] == FlowEdge(Wallet, expenseFlow[j].name, expenseFlow[j].total);
        assert spec[|incomeFlow| + j] == FlowEdge(Wallet, expenseFlow[j].name, expenseFlow[j].total);
      }
    }
  }

  // ----------------------------------------------------------- chart data

  /** The `chartData` object both pages render. */
  datatype ChartData = ChartData(
    pieLabels: seq<string>, pieValues: seq<int>,
    lineLabels: seq<Date>, lineValues: seq<int>,
    barIncome: int, barExpense: int,
    sankey: seq<FlowEdge>)

  /** Label arrays and value arrays have the same length. */
  predicate Aligned(c: ChartData)
  {
    |c.pieLabels| == |c.pieValues| && |c.lineLabels| == |c.lineValues|
  }

  /** `user_id = $1 AND EXTRACT(MONTH FROM date) = $2 AND EXTRACT(YEAR FROM date) = $3`. */
  predicate InMonth(e: Entry, userId: int, month: int, year: int)
  {
    e.userId == userId && e.date.month == month && e.date.year == year
  }

  function MonthRows(rows: seq<Entry>, userId: int, month: int, year: int): seq<Entry>
  {
    Where(rows, e => InMonth(e, userId, month, year))
  }

  // ------------------------------------------- what the charts guarantee

  /**
   * The pie built from grouped rows: distinct labels, one per category
   * name among the joined rows, each with the sum of its rows.
   */
  lemma GroupedSlices(rows: seq<Entry>, categories: map<int, string>)
    ensures var g := CategoryTotals(rows, categories);
            var labels := Labels(g);
            var values := Values(g);
            && |labels| == |values|
            && (forall i, j :: 0 <= i < j < |labels| ==> labels[i] != labels[j])
            && (forall i :: 0 <= i < |labels| ==> values[i] == SumFor(rows, categories, labels[i]))
            && (forall name :: name in labels <==> HasCategory(rows, categories, name))
  {
    var g := CategoryTotals(rows, categories);
    var labels := Labels(g);
    forall i | 0 <= i < |g| ensures Values(g)[i] == SumFor(rows, categories, labels[i]) {
      CategoryTotalsAt(rows, categories, i);
    }
    forall name ensures name in labels <==> HasCategory(rows, categories, name) {
      if Listed(g, name) {
        var i :| 0 <= i < |g| && g[i].name == name;
        assert labels[i] == name;
      }
    }
  }

  /**
   * The balance line over income rows `inc` and expense rows `exp`: one
   * point per date they fall on, in ascending order; point `i` is the sum
   * of the first `i + 1` daily net changes, and the last point is the
   * income total minus the expense total.
   */
  lemma BalanceLine(inc: seq<Entry>, exp: seq<Entry>)
    ensures var line := DailyNet(inc, exp);
            var labels := Days(line);
            var values := PrefixSums(Nets(line));
            && |labels| == |values|
            && (forall i, j :: 0 <= i < j < |labels| ==> Before(labels[i], labels[j]))
            && (forall d :: d in labels <==> d in DatesOf(inc + exp))
            && (forall i :: 0 <= i < |labels| ==> Nets(line)[i] == SumOn(inc, labels[i]) - SumOn(exp, labels[i]))
            && (forall i :: 0 <= i < |values| ==> values[i] == SumInts(Nets(line)[..i + 1]))
            && (|values| > 0 ==> values[|values| - 1] == Total(inc) - Total(exp))
  {
    var line := DailyNet(inc, exp);
    var labels := Days(line);
    var nets := Nets(line);
    forall i | 0 <= i < |nets| ensures PrefixSums(nets)[i] == SumInts(nets[..i + 1]) {
      PrefixSumsAt(nets, i);
    }
    forall d ensures d in labels <==> d in DatesOf(inc + exp) {
      if d in labels {
        var i :| 0 <= i < |labels| && labels[i] == d;
        assert line[i].day == d;
      }
      if d in DatesOf(inc + exp) {
        var i :| 0 <= i < |line| && line[i].day == d;
        assert labels[i] == d;
      }
    }
    if |nets| > 0 {
      PrefixSumsLast(nets);
      DailyNetSum(inc, exp);
    }
  }

  /**
   * `flow` is a grouped result of `rows`: each entry is a category of the
   * joined rows with its sum, no category is listed twice, and every
   * category of the joined rows is listed.
   */
  ghost predicate FlowsOf(rows: seq<Entry>, categories: map<int, string>, flow: seq<CategoryTotal>)
  {
    && (forall i :: 0 <= i < |flow| ==>
          HasCategory(rows, categories, flow[i].name) && flow[i].total == SumFor(rows, categories, flow[i].name))
    && DistinctNames(flow)
    && (forall name :: HasCategory(rows, categories, name) ==> Listed(flow, name))
  }

  lemma CategoryTotalsFlows(rows: seq<Entry>, categories: map<int, string>)
    ensures FlowsOf(rows, categories, CategoryTotals(rows, categories))
  {
    forall i | 0 <= i < |CategoryTotals(rows, categories)|
      ensures var g := CategoryTotals(rows, categories);
              HasCategory(rows, categories, g[i].name) && g[i].total == SumFor(rows, categories, g[i].name)
    {
      CategoryTotalsAt(rows, categories, i);
    }
  }

  /**
   * `edges` is the Sankey of income rows `inc` and expense rows `exp`:
   * the first `n` edges go into the wallet, one for each income category
   * and carrying its sum; the others leave the wallet, one for each
   * expense category and carrying its sum.
   */
  ghost predicate SankeyOfRows(inc: seq<Entry>, exp: seq<Entry>, categories: map<int, string>,
                               edges: seq<FlowEdge>, n: int)
  {
    && 0 <= n <= |edges|
    && (forall i :: 0 <= i < n ==>
          edges[i].to == Wallet && HasCategory(inc, categories, edges[i].from)
          && edges[i].flow == SumFor(inc, categories, edges[i].from))
    && (forall j :: n <= j < |edges| ==>
          edges[j].from == Wallet && HasCategory(exp, categories, edges[j].to)
          && edges[j].flow == SumFor(exp, categories, edges[j].to))
    && (forall name :: HasCategory(inc, categories, name) ==> exists i :: 0 <= i < n && edges[i].from == name)
    && (forall name :: HasCategory(exp, categories, name) ==> exists j :: n <= j < |edges| && edges[j].to == name)
    && (forall i, k :: 0 <= i < k < n ==> edges[i].from != edges[k].from)
    && (forall j, l :: n <= j < l < |edges| ==> edges[j].to != edges[l].to)
  }

  /** Edge `j` past the income edges is the expense edge `j - |incomeFlow|`. */
  lemma SankeyEdgesOut(incomeFlow: seq<CategoryTotal>, expenseFlow: seq<CategoryTotal>)
    ensures var r := SankeyEdges(incomeFlow, expenseFlow);
            forall j :: |incomeFlow| <= j < |r| ==>
              r[j] == FlowEdge(Wallet, expenseFlow[j - |incomeFlow|].name, expenseFlow[j - |incomeFlow|].total)
  {
    var r := SankeyEdges(incomeFlow, expenseFlow);
    var n := |incomeFlow|;
    SankeyEdgesAt(incomeFlow, expenseFlow);
    forall j | n <= j < |r|
      ensures r[j] == FlowEdge(Wallet, expenseFlow[j - n].name, expenseFlow[j - n].total)
    {
      var k := j - n;
      assert r[n + k] == FlowEdge(Wallet, expenseFlow[k].name, expenseFlow[k].total);
    }
  }

  /** The edges built from two grouped results: income entries into the wallet, then expense entries out of it. */
  lemma SankeyOfFlows(inc: seq<Entry>, exp: seq<Entry>, categories: map<int, string>,
                      incomeFlow: seq<CategoryTotal>, expenseFlow: seq<CategoryTotal>)
    requires FlowsOf(inc, categories, incomeFlow) && FlowsOf(exp, categories, expenseFlow)
    ensures SankeyOfRows(inc, exp, categories, SankeyEdges(incomeFlow, expenseFlow), |incomeFlow|)
  {
    var edges := SankeyEdges(incomeFlow, expenseFlow);
    var n := |incomeFlow|;
    SankeyEdgesAt(incomeFlow, expenseFlow);
    SankeyEdgesOut(incomeFlow, expenseFlow);
    forall name | HasCategory(inc, categories, name)
      ensures exists i :: 0 <= i < n && edges[i].from == name
    {
      var i :| 0 <= i < n && incomeFlow[i].name == name;
      assert edges[i].from == name;
    }
    forall name | HasCategory(exp, categories, name)
      ensures exists j :: n <= j < |edges| && edges[j].to == name
    {
      var k :| 0 <= k < |expenseFlow| && expenseFlow[k].name == name;
      assert edges[n + k].to == name;
    }
  }

  /** The Sankey over income rows `inc` and expense rows `exp`, one edge per category of each. */
  lemma SankeyFlows(inc: seq<Entry>, exp: seq<Entry>, categories: map<int, string>)
    ensures var incomeFlow := CategoryTotals(inc, categories);
            var expenseFlow := CategoryTotals(exp, categories);
            var edges := SankeyEdges(incomeFlow, expenseFlow);
            && |edges| == |incomeFlow| + |expenseFlow|
            && SankeyOfRows(inc, exp, categories, edges, |incomeFlow|)
  {
    CategoryTotalsFlows(inc, categories);
    CategoryTotalsFlows(exp, categories);
    SankeyOfFlows(inc, exp, categories, CategoryTotals(inc, categories), CategoryTotals(exp, categories));
  }
}
