/**
 * The monthly report page (`getReports`): the selected period, the
 * stored procedure's totals, and the pie, line, bar and Sankey data for
 * one user and one calendar month.
 */
module Reports {
  import opened Optional
  import opened JsParse
  import opened Store
  import opened Aggregation

  /** `parseInt(query) || current`: NaN and 0 fall back; any other number, 13 included, is kept. */
  function SelectPeriod(query: Option<string>, current: int): (r: int)
    ensures r == current || (ParseQuery(query) == Some(r) && r != 0)
    ensures (ParseQuery(query).None? || ParseQuery(query) == Some(0)) ==> r == current
    ensures ParseQuery(query).Some? && ParseQuery(query).value != 0 ==> r == ParseQuery(query).value
  {
    var parsed := ParseQuery(query);
    if parsed.Some? && parsed.value != 0 then parsed.value else current
  }

  /** A period written as a number selects that number, unless it is 0. */
  lemma SelectPeriodOfNumber(n: int, current: int)
    ensures SelectPeriod(Some(DecimalString(n)), current) == if n == 0 then current else n
  {
    ParseIntDecimalString(n);
  }

  /** A period with no digits after the blanks and sign ("abc", "") selects the current one. */
  lemma SelectPeriodOfText(s: string, current: int)
    requires var t := TrimStart(s);
             var u := if |t| > 0 && (t[0] == '-' || t[0] == '+') then t[1..] else t;
             u == [] || !('0' <= u[0] <= '9')
    ensures SelectPeriod(Some(s), current) == current
  {
    ParseIntNoDigits(s, false);
  }

  /** The row of `CALL get_monthly_report(...)`, whose body is not part of this model. */
  datatype MonthlyReport = MonthlyReport(totalIncome: int, totalExpense: int)

  datatype ReportView = ReportView(
    year: int, month: int, income: int, expense: int, chartData: Option<ChartData>)

  /** The chart data of the report for one user and month, query by query. */
  function ReportChart(userId: int, month: int, year: int, incomes: seq<Entry>, expenses: seq<Entry>,
                       categories: map<int, string>): ChartData
  {
    var inc := MonthRows(incomes, userId, month, year);
    var exp := MonthRows(expenses, userId, month, year);
    var pie := CategoryTotals(exp, categories);
    var line := DailyNet(inc, exp);
    ChartData(Labels(pie), Values(pie), Days(line), PrefixSums(Nets(line)), Total(inc), Total(exp),
              SankeyEdges(CategoryTotals(inc, categories), pie))
  }

  /**
   * `getReports`. `procedureRow` is what the stored procedure returned and
   * `queryFails` says whether any of the queries threw; the page then
   * still shows the selected period, with zero totals and no chart data.
   */
  method GetReports(userId: int, yearQuery: Option<string>, monthQuery: Option<string>, today: Date,
                    incomes: seq<Entry>, expenses: seq<Entry>, categories: map<int, string>,
                    procedureRow: Option<MonthlyReport>, queryFails: bool)
    returns (view: ReportView)
    ensures view.year == SelectPeriod(yearQuery, today.year)
    ensures view.month == SelectPeriod(monthQuery, today.month)
    ensures queryFails ==> view.income == 0 && view.expense == 0 && view.chartData == None
    ensures !queryFails ==>
              && view.income == (if procedureRow.Some? then procedureRow.value.totalIncome else 0)
              && view.expense == (if procedureRow.Some? then procedureRow.value.totalExpense else 0)
              && view.chartData == Some(ReportChart(userId, view.month, view.year, incomes, expenses, categories))
  {
    var selectedYear := SelectPeriod(yearQuery, today.year);
    var selectedMonth := SelectPeriod(monthQuery, today.month);
    if queryFails {
      return ReportView(selectedYear, selectedMonth, 0, 0, None);
    }
    var report := procedureRow.GetOr(MonthlyReport(0, 0));
    var inc := MonthRows(incomes, userId, selectedMonth, selectedYear);
    var exp := MonthRows(expenses, userId, selectedMonth, selectedYear);
    var pie := CategoryTotals(exp, categories);
    var line := DailyNet(inc, exp);
    var balanceData := RunningBalance(Nets(line));
    var sankeyData := BuildSankey(CategoryTotals(inc, categories), CategoryTotals(exp, categories));
    var chartData := ChartData(Labels(pie), Values(pie), Days(line), balanceData, Total(inc), Total(exp), sankeyData);
    view := ReportView(selectedYear, selectedMonth, report.totalIncome, report.totalExpense, Some(chartData));
  }

  /** Labels and values line up, and there is one Sankey edge per income group and per expense group. */
  lemma ReportChartShape(userId: int, month: int, year: int, incomes: seq<Entry>, expenses: seq<Entry>,
                         categories: map<int, string>)
    ensures var c := ReportChart(userId, month, year, incomes, expenses, categories);
            && Aligned(c)
            && |c.sankey| == |CategoryTotals(MonthRows(incomes, userId, month, year), categories)|
                             + |c.pieLabels|
  {
  }

  /**
   * The pie has one slice per category name among the user's joined
   * expenses of the month, each holding the sum of those expenses.
   */
  lemma ReportPie(userId: int, month: int, year: int, incomes: seq<Entry>, expenses: seq<Entry>,
                  categories: map<int, string>)
    ensures var c := ReportChart(userId, month, year, incomes, expenses, categories);
            var exp := MonthRows(expenses, userId, month, year);
            && (forall i, j :: 0 <= i < j < |c.pieLabels| ==> c.pieLabels[i] != c.pieLabels[j])
            && (forall i :: 0 <= i < |c.pieLabels| ==>
                  c.pieValues[i] == SumFor(exp, categories, c.pieLabels[i]))
            && (forall name :: name in c.pieLabels <==> HasCategory(exp, categories, name))
  {
    GroupedSlices(MonthRows(expenses, userId, month, year), categories);
  }

  /**
   * The line has one point per date, in ascending order, on which the user
   * has an income or expense row in the month (known category or not);
   * point `i` is the running balance from 0 over the first `i + 1` dates,
   * and the last point equals the bar's income minus its expense.
   */
  lemma ReportLine(userId: int, month: int, year: int, incomes: seq<Entry>, expenses: seq<Entry>,
                   categories: map<int, string>)
    ensures var c := ReportChart(userId, month, year, incomes, expenses, categories);
            var inc := MonthRows(incomes, userId, month, year);
            var exp := MonthRows(expenses, userId, month, year);
            var nets := Nets(DailyNet(inc, exp));
            && (forall i, j :: 0 <= i < j < |c.lineLabels| ==> Before(c.lineLabels[i], c.lineLabels[j]))
            && (forall d :: d in c.lineLabels <==> d in DatesOf(inc + exp))
            && (forall i :: 0 <= i < |c.lineLabels| ==>
                  nets[i] == SumOn(inc, c.lineLabels[i]) - SumOn(exp, c.lineLabels[i]))
            && (forall i :: 0 <= i < |c.lineValues| ==> c.lineValues[i] == SumInts(nets[..i + 1]))
            && (|c.lineValues| > 0 ==> c.lineValues[|c.lineValues| - 1] == c.barIncome - c.barExpense)
  {
    BalanceLine(MonthRows(incomes, userId, month, year), MonthRows(expenses, userId, month, year));
  }

  /**
   * The Sankey lists, for each income category of the month, one edge
   * into the wallet carrying its total, and after all of them, for each
   * expense category, one edge out of the wallet carrying its total.
   */
  lemma ReportSankey(userId: int, month: int, year: int, incomes: seq<Entry>, expenses: seq<Entry>,
                     categories: map<int, string>)
    ensures var c := ReportChart(userId, month, year, incomes, expenses, categories);
            var inc := MonthRows(incomes, userId, month, year);
            var exp := MonthRows(expenses, userId, month, year);
            var n := |CategoryTotals(inc, categories)|;
            && |c.sankey| == n + |c.pieLabels|
            && SankeyOfRows(inc, exp, categories, c.sankey, n)
  {
    SankeyFlows(MonthRows(incomes, userId, month, year), MonthRows(expenses, userId, month, year), categories);
  }

  /** With non-negative amounts, the bar's totals are non-negative. */
  lemma ReportBarNonNegative(userId: int, month: int, year: int, incomes: seq<Entry>, expenses: seq<Entry>,
                             categories: map<int, string>)
    requires forall k :: 0 <= k < |incomes| ==> incomes[k].amount >= 0
    requires forall k :: 0 <= k < |expenses| ==> expenses[k].amount >= 0
    ensures var c := ReportChart(userId, month, year, incomes, expenses, categories);
            c.barIncome >= 0 && c.barExpense >= 0
  {
    var inc := MonthRows(incomes, userId, month, year);
    var exp := MonthRows(expenses, userId, month, year);
    assert forall k :: 0 <= k < |inc| ==> inc[k] in incomes;
    assert forall k :: 0 <= k < |exp| ==> exp[k] in expenses;
    TotalNonNegative(inc);
    TotalNonNegative(exp);
  }

  /** A month without rows gives empty pie, line and Sankey and a zero bar. */
  lemma ReportEmptyMonth(userId: int, month: int, year: int, incomes: seq<Entry>, expenses: seq<Entry>,
                         categories: map<int, string>)
    requires forall k :: 0 <= k < |incomes| ==> !InMonth(incomes[k], userId, month, year)
    requires forall k :: 0 <= k < |expenses| ==> !InMonth(expenses[k], userId, month, year)
    ensures ReportChart(userId, month, year, incomes, expenses, categories)
            == ChartData([], [], [], [], 0, 0, [])
  {
  }
}
