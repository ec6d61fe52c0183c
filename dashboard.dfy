/**
 * The dashboard page (`getDashboard`): the user's five most recent
 * expenses and incomes, today's summary, and chart data over three
 * different windows (last 30 days, current month, all time).
 */
module Dashboard {
  import opened Optional
  import opened Store
  import opened Aggregation
  import opened Sorting

  // ---------------------------------------------------------- recent lists

  /** `ORDER BY date DESC, created_at DESC`: `a` may come before `b`. */
  predicate NewerOrSame(a: ListedEntry, b: ListedEntry)
  {
    Before(b.entry.date, a.entry.date) || (a.entry.date == b.entry.date && a.entry.createdAt >= b.entry.createdAt)
  }

  lemma NewerOrSameIsPreorder()
    ensures TotalPreorder(NewerOrSame)
  {
    forall a, b, c | NewerOrSame(a, b) && NewerOrSame(b, c) ensures NewerOrSame(a, c) {
      if Before(c.entry.date, b.entry.date) && Before(b.entry.date, a.entry.date) {
        BeforeTransitive(c.entry.date, b.entry.date, a.entry.date);
      }
    }
  }

  /**
   * `... ORDER BY date DESC, created_at DESC LIMIT 5`: at most five of the
   * user's rows with a known category, newest first; no joined row left
   * out is newer than a listed one.
   */
  function Recent(rows: seq<Entry>, userId: int, categories: map<int, string>): (r: seq<ListedEntry>)
    ensures |r| == if |Joined(rows, userId, categories)| < 5 then |Joined(rows, userId, categories)| else 5
    ensures SortedBy(r, NewerOrSame)
    ensures multiset(r) <= multiset(Joined(rows, userId, categories))
    ensures forall x :: x in r ==> x.entry in rows && x.entry.userId == userId
                                   && Resolves(x.entry, categories, x.categoryName)
    ensures forall x, y :: x in r && y in Joined(rows, userId, categories) && y !in r ==> NewerOrSame(x, y)
  {
    NewerOrSameIsPreorder();
    Latest(rows, userId, categories, 5, NewerOrSame)
  }

  // ---------------------------------------------------------- daily stats

  datatype DailyStats = DailyStats(totalIncome: int, totalExpense: int)

  predicate SummaryOf(s: DailySummary, userId: int, today: Date)
  {
    s.userId == userId && s.date == today
  }

  /** `summary.rows[0] || { total_income: 0, total_expense: 0 }`. */
  function TodayStats(summaries: seq<DailySummary>, userId: int, today: Date): (r: DailyStats)
    ensures (forall k :: 0 <= k < |summaries| ==> !SummaryOf(summaries[k], userId, today)) ==> r == DailyStats(0, 0)
    ensures (exists k :: 0 <= k < |summaries| && SummaryOf(summaries[k], userId, today)) ==>
              exists k :: 0 <= k < |summaries| && SummaryOf(summaries[k], userId, today)
                          && (forall j :: 0 <= j < k ==> !SummaryOf(summaries[j], userId, today))
                          && r == DailyStats(summaries[k].totalIncome, summaries[k].totalExpense)
  {
    if |summaries| == 0 then DailyStats(0, 0)
    else if SummaryOf(summaries[0], userId, today) then
      DailyStats(summaries[0].totalIncome, summaries[0].totalExpense)
    else
      var r := TodayStats(summaries[1..], userId, today);
      assert forall k :: 1 <= k < |summaries| ==> summaries[k] == summaries[1..][k - 1];
      assert (exists k :: 0 <= k < |summaries| && SummaryOf(summaries[k], userId, today)) ==>
               exists k :: 0 <= k < |summaries| - 1 && SummaryOf(summaries[1..][k], userId, today);
      r
  }

  // --------------------------------------------------------------- pie

  /** A row of the user_category_totals view, whose definition is not part of this model. */
  datatype CategoryTotalRow = CategoryTotalRow(userId: int, categoryName: string, totalExpense: int)

  /** `WHERE user_id = $1 AND total_expense > 0`, as (name, total) pairs. */
  function PositiveTotals(view: seq<CategoryTotalRow>, userId: int): (r: seq<CategoryTotal>)
    ensures forall x :: x in r <==> exists v :: v in view && v.userId == userId && v.totalExpense > 0
                                                 && x == CategoryTotal(v.categoryName, v.totalExpense)
  {
    if |view| == 0 then []
    else
      var rest := PositiveTotals(view[1..], userId);
      assert view == [view[0]] + view[1..];
      var v := view[0];
      if v.userId == userId && v.totalExpense > 0 then [CategoryTotal(v.categoryName, v.totalExpense)] + rest
      else rest
  }

  /** `ORDER BY total_expense DESC`: `a` may come before `b`. */
  predicate LargerOrSame(a: CategoryTotal, b: CategoryTotal)
  {
    a.total >= b.total
  }

  /** The dashboard pie: the user's categories with a positive total, largest first. */
  function DashboardPie(view: seq<CategoryTotalRow>, userId: int): (r: seq<CategoryTotal>)
    ensures multiset(r) == multiset(PositiveTotals(view, userId))
    ensures forall i :: 0 <= i < |r| ==> r[i].total > 0
    ensures SortedBy(r, LargerOrSame)
  {
    var r := SortBy(PositiveTotals(view, userId), LargerOrSame);
    assert forall i :: 0 <= i < |r| ==> r[i] in PositiveTotals(view, userId) by {
      forall i | 0 <= i < |r| ensures r[i] in PositiveTotals(view, userId) {
        assert r[i] in multiset(r);
      }
    }
    r
  }

  /** The pie chart's labels: `pieData.map(r => r.category_name)`. */
  function PieLabels(view: seq<CategoryTotalRow>, userId: int): seq<string>
  {
    Labels(DashboardPie(view, userId))
  }

  /** The pie chart's values: `pieData.map(r => parseFloat(r.total))`. */
  function PieValues(view: seq<CategoryTotalRow>, userId: int): seq<int>
  {
    Values(DashboardPie(view, userId))
  }

  // ------------------------------------------------------------ chart data

  /** `user_id = $1 AND date_column >= CURRENT_DATE - INTERVAL '30 days'`: no upper bound. */
  function SinceRows(rows: seq<Entry>, userId: int, cutoff: Date): seq<Entry>
  {
    Where(rows, (e: Entry) => e.userId == userId && !Before(e.date, cutoff))
  }

  /** `WHERE user_id = $1`, all time. */
  function UserRows(rows: seq<Entry>, userId: int): seq<Entry>
  {
    Where(rows, (e: Entry) => e.userId == userId)
  }

  /** The user's daily net over the rows dated on or after `cutoff`. */
  function WindowDays(userId: int, cutoff: Date, incomes: seq<Entry>, expenses: seq<Entry>): seq<DayNet>
  {
    DailyNet(SinceRows(incomes, userId, cutoff), SinceRows(expenses, userId, cutoff))
  }

  /** The line chart's days: the window starts 30 days before today. */
  function RecentDays(userId: int, today: Date, incomes: seq<Entry>, expenses: seq<Entry>): seq<DayNet>
    requires ValidDate(today)
  {
    WindowDays(userId, DaysBefore(today, 30), incomes, expenses)
  }

  /** A bar of the bar chart: the sum of the user's rows of the current calendar month. */
  function MonthTotal(rows: seq<Entry>, userId: int, today: Date): int
  {
    Total(MonthRows(rows, userId, today.month, today.year))
  }

  /** The Sankey edges over all of the user's rows, whatever their date. */
  function AllTimeFlows(userId: int, incomes: seq<Entry>, expenses: seq<Entry>, categories: map<int, string>): seq<FlowEdge>
  {
    SankeyEdges(CategoryTotals(UserRows(incomes, userId), categories),
                CategoryTotals(UserRows(expenses, userId), categories))
  }

  /** The chart data of the dashboard, query by query. */
  function DashboardChart(userId: int, today: Date, incomes: seq<Entry>, expenses: seq<Entry>,
                          categories: map<int, string>, view: seq<CategoryTotalRow>): ChartData
    requires ValidDate(today)
  {
    var line := RecentDays(userId, today, incomes, expenses);
    ChartData(PieLabels(view, userId), PieValues(view, userId), Days(line), PrefixSums(Nets(line)),
              MonthTotal(incomes, userId, today), MonthTotal(expenses, userId, today),
              AllTimeFlows(userId, incomes, expenses, categories))
  }

  datatype DashboardView = DashboardView(
    expenses: seq<ListedEntry>, incomes: seq<ListedEntry>, stats: DailyStats, chartData: ChartData)

  datatype DashboardResponse = Render(view: DashboardView) | Send(text: string)

  /**
   * `getDashboard`. `failure` is the message of the error a query threw,
   * if one did: unlike the report page, the dashboard then sends that
   * message instead of a page.
   */
  method GetDashboard(userId: int, today: Date, incomes: seq<Entry>, expenses: seq<Entry>,
                      categories: map<int, string>, summaries: seq<DailySummary>,
                      view: seq<CategoryTotalRow>, failure: Option<string>)
    returns (response: DashboardResponse)
    requires ValidDate(today)
    ensures failure.Some? ==> response == Send("An error occurred: " + failure.value)
    ensures failure.None? ==>
              && response.Render?
              && response.view.expenses == Recent(expenses, userId, categories)
              && response.view.incomes == Recent(incomes, userId, categories)
              && response.view.stats == TodayStats(summaries, userId, today)
              && response.view.chartData == DashboardChart(userId, today, incomes, expenses, categories, view)
  {
    if failure.Some? {
      return Send("An error occurred: " + failure.value);
    }
    var recentExpenses := Recent(expenses, userId, categories);
    var recentIncomes := Recent(incomes, userId, categories);
    var dailyStats := TodayStats(summaries, userId, today);
    var line := RecentDays(userId, today, incomes, expenses);
    var balanceData := RunningBalance(Nets(line));
    var sankeyData := BuildSankey(CategoryTotals(UserRows(incomes, userId), categories),
                                  CategoryTotals(UserRows(expenses, userId), categories));
    var chartData := ChartData(PieLabels(view, userId), PieValues(view, userId), Days(line), balanceData,
                               MonthTotal(incomes, userId, today), MonthTotal(expenses, userId, today),
                               sankeyData);
    response := Render(DashboardView(recentExpenses, recentIncomes, dailyStats, chartData));
  }

  /**
   * The dashboard line (`RecentDays` takes the cutoff 30 days before
   * today): one point per date, ascending, on which the user has a row
   * dated on or after the cutoff; values are the running balance from 0,
   * ending at the window's income minus expense.
   */
  lemma DashboardLine(userId: int, cutoff: Date, incomes: seq<Entry>, expenses: seq<Entry>)
    ensures var line := WindowDays(userId, cutoff, incomes, expenses);
            var labels := Days(line);
            var values := PrefixSums(Nets(line));
            var inc := SinceRows(incomes, userId, cutoff);
            var exp := SinceRows(expenses, userId, cutoff);
            && |labels| == |values|
            && (forall i, j :: 0 <= i < j < |labels| ==> Before(labels[i], labels[j]))
            && (forall d :: d in labels <==> d in DatesOf(inc + exp))
            && (forall i :: 0 <= i < |values| ==> values[i] == SumInts(Nets(line)[..i + 1]))
            && (|values| > 0 ==> values[|values| - 1] == Total(inc) - Total(exp))
  {
    BalanceLine(SinceRows(incomes, userId, cutoff), SinceRows(expenses, userId, cutoff));
  }

  /** Every date with a row has a point on the line. */
  lemma RowPlotted(inc: seq<Entry>, exp: seq<Entry>, e: Entry)
    requires e in inc + exp
    ensures e.date in Days(DailyNet(inc, exp))
  {
    var line := DailyNet(inc, exp);
    assert e.date in DatesOf(inc + exp);
    var i :| 0 <= i < |line| && line[i].day == e.date;
    assert Days(line)[i] == e.date;
  }

  /** Every one of the user's rows dated on or after the cutoff, even a future one, has its date on the line. */
  lemma WindowRowsPlotted(userId: int, cutoff: Date, incomes: seq<Entry>, expenses: seq<Entry>)
    ensures forall e :: e in incomes + expenses && e.userId == userId && !Before(e.date, cutoff) ==>
              e.date in Days(WindowDays(userId, cutoff, incomes, expenses))
  {
    var inc := SinceRows(incomes, userId, cutoff);
    var exp := SinceRows(expenses, userId, cutoff);
    forall e | e in incomes + expenses && e.userId == userId && !Before(e.date, cutoff)
      ensures e.date in Days(DailyNet(inc, exp))
    {
      assert e in inc + exp;
      RowPlotted(inc, exp, e);
    }
  }

  /** The dashboard pie's values are positive and descending, one per label. */
  lemma PieDescending(view: seq<CategoryTotalRow>, userId: int)
    ensures |PieLabels(view, userId)| == |PieValues(view, userId)|
    ensures forall i :: 0 <= i < |PieValues(view, userId)| ==> PieValues(view, userId)[i] > 0
    ensures forall i, j :: 0 <= i < j < |PieValues(view, userId)| ==> PieValues(view, userId)[i] >= PieValues(view, userId)[j]
  {
    var pie := DashboardPie(view, userId);
    var values := PieValues(view, userId);
    forall i, j | 0 <= i < j < |values| ensures values[i] >= values[j] {
      assert LargerOrSame(pie[i], pie[j]);
    }
  }

  /** The view has a row for the user with this category name and total. */
  predicate InView(view: seq<CategoryTotalRow>, userId: int, name: string, total: int)
  {
    exists v :: v in view && v.userId == userId && v.categoryName == name && v.totalExpense == total
  }

  /** A slice of the dashboard pie is the user's row of the view with that name and total. */
  lemma SliceOfView(view: seq<CategoryTotalRow>, userId: int, i: int)
    requires 0 <= i < |PieLabels(view, userId)|
    ensures InView(view, userId, PieLabels(view, userId)[i], PieValues(view, userId)[i])
  {
    var pie := DashboardPie(view, userId);
    assert pie[i] in multiset(pie);
    assert pie[i] in PositiveTotals(view, userId);
    var v :| v in view && v.userId == userId && v.totalExpense > 0
             && pie[i] == CategoryTotal(v.categoryName, v.totalExpense);
    assert v.categoryName == PieLabels(view, userId)[i] && v.totalExpense == PieValues(view, userId)[i];
  }

  /** Every slice of the dashboard pie is one of the user's rows of the view. */
  lemma SlicesOfView(view: seq<CategoryTotalRow>, userId: int)
    ensures forall i :: 0 <= i < |PieLabels(view, userId)| ==>
              InView(view, userId, PieLabels(view, userId)[i], PieValues(view, userId)[i])
  {
    forall i | 0 <= i < |PieLabels(view, userId)|
      ensures InView(view, userId, PieLabels(view, userId)[i], PieValues(view, userId)[i])
    {
      SliceOfView(view, userId, i);
    }
  }

  /** A row of the view for the user with a positive total is a slice of the dashboard pie. */
  lemma ViewRowIsSlice(view: seq<CategoryTotalRow>, userId: int, v: CategoryTotalRow)
    requires v in view && v.userId == userId && v.totalExpense > 0
    ensures exists i :: 0 <= i < |PieLabels(view, userId)| && PieLabels(view, userId)[i] == v.categoryName
                        && PieValues(view, userId)[i] == v.totalExpense
  {
    var pie := DashboardPie(view, userId);
    var x := CategoryTotal(v.categoryName, v.totalExpense);
    assert x in PositiveTotals(view, userId);
    assert x in multiset(PositiveTotals(view, userId));
    assert x in multiset(pie);
    var i :| 0 <= i < |pie| && pie[i] == x;
    assert PieLabels(view, userId)[i] == v.categoryName && PieValues(view, userId)[i] == v.totalExpense;
  }

  /** No row of the view for the user with a positive total is missing from the dashboard pie. */
  lemma ViewRowsAreSlices(view: seq<CategoryTotalRow>, userId: int)
    ensures forall v :: v in view && v.userId == userId && v.totalExpense > 0 ==>
              exists i :: 0 <= i < |PieLabels(view, userId)| && PieLabels(view, userId)[i] == v.categoryName
                          && PieValues(view, userId)[i] == v.totalExpense
  {
    forall v | v in view && v.userId == userId && v.totalExpense > 0
      ensures exists i :: 0 <= i < |PieLabels(view, userId)| && PieLabels(view, userId)[i] == v.categoryName
                          && PieValues(view, userId)[i] == v.totalExpense
    {
      ViewRowIsSlice(view, userId, v);
    }
  }

  /**
   * The dashboard bar counts only the user's rows of the current calendar
   * month: adding rows of other users, other months or other years leaves
   * it unchanged, and adding rows of that month raises it by their sum.
   */
  lemma DashboardBar(rows: seq<Entry>, more: seq<Entry>, userId: int, today: Date)
    ensures MonthTotal(rows + more, userId, today) == MonthTotal(rows, userId, today) + MonthTotal(more, userId, today)
    ensures (forall k :: 0 <= k < |more| ==> !InMonth(more[k], userId, today.month, today.year)) ==>
              MonthTotal(rows + more, userId, today) == MonthTotal(rows, userId, today)
  {
    WhereAppend(rows, more, e => InMonth(e, userId, today.month, today.year));
    TotalAppend(MonthRows(rows, userId, today.month, today.year), MonthRows(more, userId, today.month, today.year));
  }

  /**
   * The dashboard Sankey covers all of the user's rows, whatever their
   * date: one edge into the wallet per income category first, then one
   * edge out of it per expense category.
   */
  lemma DashboardSankey(userId: int, incomes: seq<Entry>, expenses: seq<Entry>, categories: map<int, string>)
    ensures var edges := AllTimeFlows(userId, incomes, expenses, categories);
            var inc := UserRows(incomes, userId);
            var exp := UserRows(expenses, userId);
            var n := |CategoryTotals(inc, categories)|;
            && |edges| == n + |CategoryTotals(exp, categories)|
            && SankeyOfRows(inc, exp, categories, edges, n)
  {
    SankeyFlows(UserRows(incomes, userId), UserRows(expenses, userId), categories);
  }
}
