# Expense tracker: reports, dashboard and table handlers

This project models the core of a personal-finance web application. Users
record incomes and expenses, each tagged with a category and a date. Five
Express controllers are modelled:

- **Reports** (`getReports`) picks a month and a year from the query
  string. It then builds the chart data for that month: a pie of expense
  totals per category, a line of the running balance per date, a bar of
  the month's income and expense totals, and a Sankey graph of income
  categories flowing into a wallet node and out to expense categories.
  Any failed query still renders the page, with zero totals and no chart
  data.
- **Dashboard** (`getDashboard`) shows the five newest expenses and incomes,
  today's summary and the same four charts. Each chart has its own window:
  the pie reads a view of per-category totals, the line covers the last 30
  days with no upper bound, the bar covers the current month, and the
  Sankey covers all time. Any failure sends the error message instead of
  the page.
- **Admin** lists users newest first and shows one user's details with
  their 20 latest expenses and incomes. It can toggle a user's active or
  admin flag, or delete a user together with the rows that carry their
  id. None of the three actions may target the acting admin.
- **Expenses** and **Incomes** add, delete, fetch for editing and update
  one row. Every statement is scoped to the row's id *and* its owner.
  Updating an expense may also record a subscription, whose next payment
  date is one month or one year on, and an installment plan.

The database is the class `Store.Database`. Its fields are the tables, as
sequences of rows, plus the two serial counters that number new expenses
and incomes. `Valid()` says that ids are unique and lie below their serial,
and that user ids are unique. Every SQL statement a handler runs is a pure
function over those sequences:

- `Where` filters rows.
- `Joined` is the inner join with the categories.
- `CategoryTotals` is `GROUP BY category_name`.
- `DailyNet` is the per-date `SUM(inc) - SUM(exp)` of the line query.
- `Latest` is `ORDER BY … LIMIT n`.
- `UpdateOwned` and `RemoveOwned` are the owner-scoped `UPDATE` and
  `DELETE`.

Handlers that write to the database are module-level methods that take the
`db: Database` object and modify the fields of the tables they write.
Handlers that only read are functions, or methods where the source runs a
loop: the running-balance fold and the Sankey `push` loops.

Modelling choices:

- **Amounts** are integers (cents).
- **Dates** are `(year, month, day)` with the Gregorian calendar. JavaScript
  `setMonth`/`setFullYear` overflow is modelled exactly, so 31 January plus
  one month is 3 March (2 March in a leap year). `CURRENT_DATE - 30 days`
  is exact as well.
- **`parseInt`** is modelled on strings. It skips leading JavaScript blanks,
  takes an optional sign, and reads a `0x` prefix as hexadecimal when no
  radix is given.
- **NaN and out-of-range ids.** A NaN id, or one outside PostgreSQL's
  32-bit `integer` range, makes the statement fail, because the driver
  sends NaN as the text "NaN".
- **Route ids and form dates** reach PostgreSQL as text. `None` stands for
  a text PostgreSQL rejects. An expense or income id that is `Some(n)`
  carries a value inside the 32-bit `integer` range of `expense_id` and
  `income_id`; an id outside it is rejected like any other bad text and is
  `None`.
- **Other failures**, such as an unknown category or a dropped connection,
  are boolean or `Option` parameters.

Three behaviours of the code that the model keeps as they are:

- The report pie and Sankey keep categories whose total is zero: the
  queries have no `HAVING` clause.
- The dashboard sends "An error occurred: " and the message on any
  failure, instead of rendering the page.
- The dashboard line has no upper date bound, so rows dated in the future
  are plotted.

## Model

| member | source | states |
|---|---|---|
| JsParse.LeadingBlanks | src/controllers/adminController.js:23 | `parseInt` skips exactly the leading JavaScript blanks: all skipped characters are blanks and the next one is not |
| JsParse.ParseIntDecimalString | src/controllers/adminController.js:23 | an integer written in decimal, with a minus sign if negative, is read back as itself by `parseInt` with or without radix 10 |
| JsParse.ParseIntNoDigits | src/controllers/reportsController.js:9-10 | a text with no digit after the blanks and sign parses to NaN |
| Reports.SelectPeriod | src/controllers/reportsController.js:6-10 | the selected period is the value `parseInt` reads from the query when that is a nonzero number (" +7", "3rd" and "0x0C" included), and otherwise the current one |
| Reports.SelectPeriodOfNumber | src/controllers/reportsController.js:9-10 | a number in the query selects itself, out-of-range values such as 13 included, except 0, which selects the current period |
| Reports.SelectPeriodOfText | src/controllers/reportsController.js:9-10 | non-numeric or empty query text selects the current period |
| Reports.GetReports | src/controllers/reportsController.js:3-132 | year and month are always the selected ones; a failing query gives income 0, expense 0 and no chart data; otherwise the totals are the procedure row's, or 0 when it returned none, and the chart data is the month's |
| Reports.ReportChartShape | src/controllers/reportsController.js:102-110 | pie and line labels and values have equal lengths, and the Sankey has one edge per income group plus one per expense group |
| Reports.ReportPie | src/controllers/reportsController.js:23-30 | the pie's names are distinct, each value is the sum of the user's joined expenses of the month in that category, and a name appears iff such an expense exists |
| Reports.ReportLine | src/controllers/reportsController.js:33-56 | one point per date with a row of the user in the month, ascending, joined or not; each net is income minus expense on that date; values are running sums from 0; the last value equals bar income minus bar expense |
| Reports.ReportSankey | src/controllers/reportsController.js:76-100 | for the month's rows: exactly one edge into the wallet per income category, carrying its total, then exactly one edge out of it per expense category, carrying its total |
| Reports.ReportBarNonNegative | src/controllers/reportsController.js:59-73 | with non-negative amounts, both bar totals are non-negative |
| Reports.ReportEmptyMonth | src/controllers/reportsController.js:23-100 | a month without rows of the user gives empty pie, line and Sankey and zero bar totals |
| Aggregation.Joined | src/controllers/dashboardController.js:10-14 | the inner join keeps exactly the user's rows whose category exists, each with its category name |
| Aggregation.Latest | src/controllers/dashboardController.js:10-17 | `ORDER BY … LIMIT n` returns min(n, joined) rows in order, all from the join, and no row left out comes before a listed one |
| Aggregation.TotalAppend | src/controllers/reportsController.js:61-72 | `COALESCE(SUM(amount), 0)` distributes over concatenation of rows |
| Aggregation.TotalNonNegative | src/controllers/reportsController.js:61-72 | the sum of non-negative amounts is non-negative |
| Aggregation.CategoryTotals | src/controllers/reportsController.js:23-30 | `GROUP BY category_name`: names are distinct, a name is listed iff a joined row has it, and its total is the sum of those rows |
| Aggregation.GroupedSlices | src/controllers/reportsController.js:103-104 | the pie's labels and values are aligned, distinct, and each value is its category's sum |
| Aggregation.DailyNet | src/controllers/reportsController.js:33-50 | one entry per distinct date of the rows, strictly ascending, each the income minus expense dated that day |
| Aggregation.DailyNetSum | src/controllers/reportsController.js:36-45 | the daily nets add up to total income minus total expense |
| Aggregation.RunningBalance | src/controllers/reportsController.js:52-56 | the loop returns the prefix sums of the daily nets starting from 0: entry i is the sum of nets 0..i |
| Aggregation.BuildSankey | src/controllers/reportsController.js:94-100 | the two `push` loops produce every income edge (category to wallet) and then every expense edge (wallet to category), in group order |
| Aggregation.BalanceLine | src/controllers/reportsController.js:33-56 | line labels and values are aligned, ascending and one per date; each value is a running sum; the last equals income minus expense |
| Aggregation.SankeyFlows | src/controllers/reportsController.js:76-100 | every income category has exactly one edge into the wallet carrying its sum, and every expense category exactly one edge out of it carrying its sum; no edge names a category without rows |
| Dashboard.Recent | src/controllers/dashboardController.js:10-26 | at most 5 joined rows of the user, newest date first and then latest creation first; no omitted joined row is newer than a listed one |
| Dashboard.TodayStats | src/controllers/dashboardController.js:28-34 | the first summary row of the user for today, or zeros when there is none |
| Dashboard.PositiveTotals | src/controllers/dashboardController.js:39-42 | exactly the view rows of the user with a positive total |
| Dashboard.DashboardPie | src/controllers/dashboardController.js:39-44 | a permutation of the user's positive view rows, ordered by total descending |
| Dashboard.PieDescending | src/controllers/dashboardController.js:39-44 | pie labels and values are aligned, every value is positive, and values do not increase |
| Dashboard.SlicesOfView | src/controllers/dashboardController.js:39-44 | every slice is a row of the view for the user, with that name and total |
| Dashboard.ViewRowsAreSlices | src/controllers/dashboardController.js:39-44 | every view row of the user with a positive total is a slice |
| Dashboard.DashboardLine | src/controllers/dashboardController.js:48-70 | for the window from the cutoff on: labels ascending, one per date with a row of the user; values are running sums from 0 ending at the window's income minus expense |
| Dashboard.WindowRowsPlotted | src/controllers/dashboardController.js:61 | every row of the user dated on or after the cutoff, future dates included, has its date on the line |
| Store.DaysBefore | src/controllers/dashboardController.js:61 | `CURRENT_DATE - INTERVAL '30 days'` is a valid date whose day number is exactly 30 below today's |
| Store.DaysBeforeUnique | src/controllers/dashboardController.js:61 | it is the only valid date that many days earlier |
| Store.DayNumberOrder | src/controllers/dashboardController.js:61 | day numbers follow calendar order, so "that many days earlier" is a distance in days |
| Dashboard.DashboardBar | src/controllers/dashboardController.js:73-87 | the bar total of more rows is the old total plus theirs; rows of other users, months or years leave it unchanged |
| Dashboard.DashboardSankey | src/controllers/dashboardController.js:90-112 | over all of the user's rows, whatever their date: exactly one edge per income category with its sum first, then exactly one per expense category |
| Dashboard.GetDashboard | src/controllers/dashboardController.js:3-140 | a failure sends "An error occurred: " and its message; otherwise the page holds the recent lists, today's stats and the chart data of the four windows |
| Sorting.SortBy | src/controllers/adminController.js:5-9 | the result is a permutation of the input, sorted by the given total preorder |
| Sorting.LimitIsTop | src/controllers/dashboardController.js:15-16 | the first n rows of a sorted list come before every row left out |
| Admin.AdminDashboard | src/controllers/adminController.js:3-20 | a failing query gives 500 "Server error"; otherwise all users, newest account first |
| Admin.StatementIdOfDecimal | src/controllers/adminController.js:23-32 | an id sent as a decimal number reaches the statement iff it fits PostgreSQL's 32-bit `integer`, so "2147483648" is rejected |
| Admin.FlipActive | src/controllers/adminController.js:29-32 | only `is_active` of rows with the target id changes, and only those rows change |
| Admin.FlipAdmin | src/controllers/adminController.js:93-96 | only `is_admin` of rows with the target id changes, and only those rows change |
| Admin.FlipActiveTwice | src/controllers/adminController.js:29-32 | toggling active twice restores the table |
| Admin.FlipAdminTwice | src/controllers/adminController.js:93-96 | toggling admin twice restores the table |
| Admin.FlipsKeepTable | src/controllers/adminController.js:29-34 | an id matching no user changes nothing, and the flips keep user ids unique |
| Admin.ToggleActive | src/controllers/adminController.js:22-35 | self gives 400 and no change; a failed or rejected statement sends nothing and changes nothing; otherwise redirect to /admin with the target's active flag flipped |
| Admin.ToggleAdmin | src/controllers/adminController.js:84-103 | self gives 400 and no change; a failure gives 500 and no change; otherwise redirect to /admin with the target's admin flag flipped |
| Admin.DeleteUser | src/controllers/adminController.js:105-121 | self gives 400 and a failure gives 500, both with no table changed; otherwise the user and every row carrying their id are removed and the response is a redirect; the database stays valid |
| Admin.RemoveUser | src/controllers/adminController.js:113-114 | the DELETE and its cascade: each table loses exactly the target user's rows |
| Admin.WithoutUser | src/controllers/adminController.js:114 | the users left are exactly those with another id |
| Admin.WithoutUserCount | src/controllers/adminController.js:114 | deleting an existing user removes one row and an unknown id none; ids stay unique |
| Admin.CascadeEntries | src/controllers/adminController.js:113 | the expenses or incomes left are exactly those of other users |
| Admin.CascadeKeepsValid | src/controllers/adminController.js:113-114 | the delete with its cascade keeps every key unique and below its serial |
| Admin.FindUser | src/controllers/adminController.js:42-50 | the row found has the id, and none is found iff no row has it |
| Admin.LatestTwenty | src/controllers/adminController.js:52-70 | at most 20 joined rows of the user, date descending; no omitted row is later than a listed one |
| Admin.GetUserDetails | src/controllers/adminController.js:38-82 | a failure or unusable id gives 500; an unknown user gives 404 "User not found"; otherwise the user's row and their 20 latest expenses and incomes |
| Admin.ActionsSpareSelf | src/controllers/adminController.js:25-27 | when the target is not the acting admin, toggling and deleting leave the acting admin's row in place and unchanged |
| Admin.SpareOther | src/controllers/adminController.js:29-32 | flipping or deleting one id leaves every other user's row as it was |
| Store.FindOwned | src/controllers/expenseController.js:38-44 | the row found has both the id and the owner; none is found iff no row has both |
| Store.RemoveOwned | src/controllers/expenseController.js:22-25 | exactly the rows with both the id and the owner go; another user's id changes nothing; ids stay unique |
| Store.RemoveOwnedCount | src/controllers/expenseController.js:22-25 | at most one row goes, and exactly one when the user owns that id |
| Store.UpdateOwned | src/controllers/expenseController.js:64-69 | only the row with both the id and the owner changes, and only its amount, category, description and date |
| Store.FindAfterUpdate | src/controllers/expenseController.js:64-69 | after the update, the owned row is found with the new values |
| Expenses.AddExpense | src/controllers/expenseController.js:3-16 | on success one row, owned by the acting user with the form's values, is appended under the next serial id, and the response redirects to /dashboard; otherwise "Error adding expense." and no change |
| Expenses.DeleteExpense | src/controllers/expenseController.js:18-31 | on success only the owned row goes; otherwise "Delete failed." and no change |
| Expenses.GetEditExpense | src/controllers/expenseController.js:33-51 | "Could not fetch data." on failure; a redirect iff no row has both the id and the owner; otherwise the form for that row |
| Expenses.AddedExpenseIsEditable | src/controllers/expenseController.js:3-11 | a row just added is the one its owner's edit form shows |
| Expenses.DeletedExpenseIsGone | src/controllers/expenseController.js:22-25 | after its owner deleted a row, editing it redirects to /dashboard |
| Expenses.UpdatedExpenseIsEditable | src/controllers/expenseController.js:64-69 | after an update the edit form shows the new values with the old id and owner |
| Store.AddOneMonth | src/controllers/expenseController.js:74 | `setMonth(getMonth() + 1)` keeps the day in the next month when it exists there, and otherwise rolls the excess days into the month after (31 January to 3 March) |
| Store.AddOneMonthDays | src/controllers/expenseController.js:74 | one month on is exactly as many days later as the starting month has |
| Store.AddOneYear | src/controllers/expenseController.js:75 | `setFullYear(getFullYear() + 1)` keeps month and day in the next year, except that 29 February becomes 1 March |
| Expenses.NextPaymentDate | src/controllers/expenseController.js:73-75 | MONTHLY is a starting month's length in days later; YEARLY is the same month and day a year on, 29 February giving 1 March; any other cycle is the expense date itself |
| Expenses.InstallmentPlan | src/controllers/expenseController.js:85-95 | a plan exists iff both counts are numbers within the integer range; then remaining + current = total, total amount = monthly × total, monthly = the expense amount |
| Expenses.InstallmentPlanOfNumbers | src/controllers/expenseController.js:86-94 | counts sent as decimal numbers in range record exactly the plan for them |
| Expenses.InstallmentPlanOfText | src/controllers/expenseController.js:86-87 | a total with no digits records no plan |
| Expenses.NewSubscriptions | src/controllers/expenseController.js:72-83 | a subscription row is added iff `is_subscription` is "true" and its insert succeeds, with the expense's name, amount, cycle and next payment date |
| Expenses.NewInstallments | src/controllers/expenseController.js:85-97 | an installment row is added iff `is_installment` is "true", the plan exists and its insert succeeds, and it is that plan |
| Expenses.UpdateExpense | src/controllers/expenseController.js:53-104 | a failed UPDATE changes nothing; otherwise the owned row is updated even if none matched; then subscription and installment rows are added independently; a failing insert keeps earlier writes and sends "Error during update: " with the database message |
| Expenses.EditExpenseRow | src/controllers/expenseController.js:64-69 | the UPDATE rewrites the owned row and keeps the table valid |
| Expenses.RecordSubscription | src/controllers/expenseController.js:72-83 | appends the new subscription rows and reports whether the block got through |
| Expenses.RecordInstallment | src/controllers/expenseController.js:85-97 | appends the new installment rows and reports whether the block got through |
| Incomes.AddIncome | src/controllers/incomeController.js:3-16 | on success one row, owned by the acting user with the form's values, is appended under the next serial id; otherwise "Error adding income." and no change |
| Incomes.DeleteIncome | src/controllers/incomeController.js:18-31 | on success only the owned row goes; otherwise "Delete failed." and no change |
| Incomes.GetEditIncome | src/controllers/incomeController.js:33-51 | "Could not fetch data." on failure; a redirect iff no row has both the id and the owner; otherwise the form for that row |
| Incomes.AddedIncomeIsEditable | src/controllers/incomeController.js:7-10 | a row just added is the one its owner's edit form shows |
| Incomes.DeletedIncomeIsGone | src/controllers/incomeController.js:22-25 | after its owner deleted a row, editing it redirects to /dashboard |
| Incomes.UpdatedIncomeIsEditable | src/controllers/incomeController.js:60-64 | after an update the edit form shows the new values with the old id and owner |
| Incomes.UpdateIncome | src/controllers/incomeController.js:53-71 | on success only the owned row's four form columns change; otherwise "Update failed." and no change |

## Left out

- Routing, sessions, JWT verification and the `requireAdmin`/`requireLogin` middleware are not modelled; the acting user's id is a parameter. `server.js`, `src/app.js`, the routes, the auth controller and the category controller are not part of this model.
- Which user id a handler reads: expenses and reports use the session's id, while incomes, the dashboard and admin use the token's. The model takes one acting id and assumes the two agree.
- JsParse.ParseInt: reads the digits as an exact, unbounded integer, whereas JavaScript's `parseInt` returns a double that is rounded above 2^53 and is `Infinity` for digit strings of more than about 309 characters. Admin ids and installment counts are unaffected, because the 32-bit range check rejects such values either way; only the period echoed by the reports page differs for such a query.
- JsParse.ParseIntDecimalString: holds as stated in the model for every integer; in JavaScript it holds only up to 2^53 in magnitude, for the reason given for `JsParse.ParseInt`.
- Reports.SelectPeriodOfNumber: every nonzero number selects itself in the model; in JavaScript a number above 2^53 in magnitude selects its rounded double, and a very long one `Infinity`.
- Floating point: `parseFloat` of amounts and totals is not modelled; amounts are exact integer cents, so the installment debt `parseFloat(amount) * total` is exact.
- Time zones: `new Date(date)` and `CURRENT_DATE` are taken in UTC; today is a parameter.
- The stored procedure `get_monthly_report`, the `user_category_totals` view and the trigger that fills `daily_summaries` have no visible bodies: their rows are inputs, and adding an expense or income does not update the summaries.
- The schema is not visible: the cascade on user delete follows the code's comment and covers expenses, incomes, subscriptions, installments and daily summaries. Foreign-key and type errors other than non-integer ids and unreadable dates are folded into the failure parameters.
- A failed insert consumes no serial number in the model, whereas PostgreSQL does consume one; only uniqueness of ids depends on the serial.
- `ORDER BY` ties are resolved in table order; PostgreSQL leaves their order unspecified. The order of `GROUP BY` groups is insertion order, also unspecified in PostgreSQL. The `SELECT * FROM categories ORDER BY category_name` list is a map, without its collation order.
- Express behaviour after an unhandled rejection, that is, whether and when the request times out, is left out; `Admin.ToggleActive` reports it as `Unhandled`.
- Rendering, logging, the `username`/`isAdmin` fields copied into the pages, and the dashboard's `categories` list (`categories.rows`, the input of its add-row forms) are left out.
- Dashboard.DashboardLine: stated for an arbitrary cutoff; the dashboard applies it with the cutoff `DaysBefore(today, 30)` through `Dashboard.RecentDays`.
