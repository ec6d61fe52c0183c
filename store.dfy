/**
 * The tables the controllers read and write, and the calendar their
 * date columns live in. A table is a sequence of rows in storage order;
 * the serial columns are counters in the `Database` object.
 */
module Store {
  import opened Optional

  // ---------------------------------------------------------------- calendar

  datatype Date = Date(year: int, month: int, day: int)

  predicate IsLeapYear(y: int)
  {
    (y % 4 == 0 && y % 100 != 0) || y % 400 == 0
  }

  function DaysInMonth(y: int, m: int): (n: int)
    ensures 28 <= n <= 31
  {
    if m == 2 then (if IsLeapYear(y) then 29 else 28)
    else if m == 4 || m == 6 || m == 9 || m == 11 then 30
    else 31
  }

  /** A calendar date: what a DATE column or an HTML date field holds. */
  predicate ValidDate(d: Date)
  {
    1 <= d.month <= 12 && 1 <= d.day <= DaysInMonth(d.year, d.month)
  }

  /** Strict calendar order, the order of ORDER BY on a DATE column. */
  predicate Before(a: Date, b: Date)
  {
    a.year < b.year || (a.year == b.year && (a.month < b.month || (a.month == b.month && a.day < b.day)))
  }

  lemma BeforeTransitive(a: Date, b: Date, c: Date)
    requires Before(a, b) && Before(b, c)
    ensures Before(a, c)
  {
  }

  function DaysInYear(y: int): int
  {
    if IsLeapYear(y) then 366 else 365
  }

  /** Days from 1 January of year 0 to 1 January of year `y`, negative for earlier years. */
  function YearStart(y: int): int
    decreases if y < 0 then -y else y
  {
    if y == 0 then 0
    else if y > 0 then YearStart(y - 1) + DaysInYear(y - 1)
    else YearStart(y + 1) - DaysInYear(y)
  }

  lemma YearStartStep(y: int)
    ensures YearStart(y + 1) == YearStart(y) + DaysInYear(y)
  {
  }

  /** Days from 1 January to the first of month `m` of year `y`. */
  function DaysBeforeMonth(y: int, m: int): int
  {
    var common :=
      if m <= 1 then 0 else if m == 2 then 31 else if m == 3 then 59 else if m == 4 then 90
      else if m == 5 then 120 else if m == 6 then 151 else if m == 7 then 181 else if m == 8 then 212
      else if m == 9 then 243 else if m == 10 then 273 else if m == 11 then 304 else 334;
    common + (if m > 2 && IsLeapYear(y) then 1 else 0)
  }

  /** The position of `d` in a count of days, so that consecutive dates differ by one. */
  function DayNumber(d: Date): int
  {
    YearStart(d.year) + DaysBeforeMonth(d.year, d.month) + d.day - 1
  }

  /**
   * Day `d` of month `m` of year `y`, rolled into the next month when the
   * month is shorter, as JavaScript's Date setters do (January 31 plus one
   * month is March 3, or March 2 in a leap year).
   */
  function RollOver(y: int, m: int, d: int): (r: Date)
    requires 1 <= m <= 12 && 1 <= d <= 31
    ensures ValidDate(r)
    ensures r == Date(y, m, d) || (Before(Date(y, m, 31), r) && r.day <= 3)
  {
    var n := DaysInMonth(y, m);
    if d <= n then Date(y, m, d)
    else if m == 12 then Date(y + 1, 1, d - n)
    else Date(y, m + 1, d - n)
  }

  /** `date.setMonth(date.getMonth() + 1)` with the server's local time zone at UTC. */
  function AddOneMonth(d: Date): (r: Date)
    requires ValidDate(d)
    ensures ValidDate(r) && Before(d, r)
    ensures var (y, m) := if d.month == 12 then (d.year + 1, 1) else (d.year, d.month + 1);
            && (d.day <= DaysInMonth(y, m) ==> r == Date(y, m, d.day))
            && (d.day > DaysInMonth(y, m) ==> m < 12 && r == Date(y, m + 1, d.day - DaysInMonth(y, m)))
  {
    if d.month == 12 then RollOver(d.year + 1, 1, d.day) else RollOver(d.year, d.month + 1, d.day)
  }

  /** `date.setFullYear(date.getFullYear() + 1)`: February 29 becomes March 1. */
  function AddOneYear(d: Date): (r: Date)
    requires ValidDate(d)
    ensures ValidDate(r) && Before(d, r)
    ensures r == if d.month == 2 && d.day == 29 && !IsLeapYear(d.year + 1) then Date(d.year + 1, 3, 1)
                 else Date(d.year + 1, d.month, d.day)
  {
    RollOver(d.year + 1, d.month, d.day)
  }

  /** The calendar day before `d`. */
  function PreviousDay(d: Date): (r: Date)
    requires ValidDate(d)
    ensures ValidDate(r) && Before(r, d)
    ensures forall e :: Before(r, e) && Before(e, d) ==> !ValidDate(e)
    ensures DayNumber(r) == DayNumber(d) - 1
  {
    if d.day > 1 then Date(d.year, d.month, d.day - 1)
    else if d.month == 1 then
      YearStartStep(d.year - 1);
      Date(d.year - 1, 12, 31)
    else Date(d.year, d.month - 1, DaysInMonth(d.year, d.month - 1))
  }

  /** `d - INTERVAL 'n days'` as a date. */
  function DaysBefore(d: Date, n: nat): (r: Date)
    requires ValidDate(d)
    ensures ValidDate(r)
    ensures n > 0 ==> Before(r, d)
    ensures DayNumber(r) == DayNumber(d) - n
    decreases n
  {
    if n == 0 then d
    else
      var r := DaysBefore(PreviousDay(d), n - 1);
      r
  }

  lemma {:induction false} YearStartMonotone(y: int, z: int)
    requires y <= z
    ensures YearStart(y) + (z - y) * 365 <= YearStart(z)
    decreases z - y
  {
    if y < z {
      YearStartStep(y);
      YearStartMonotone(y + 1, z);
    }
  }

  /** A month ends no later than the next one starts, and the last one ends with the year. */
  lemma MonthEnds(y: int, m: int, k: int)
    requires 1 <= m < k <= 13
    ensures DaysBeforeMonth(y, m) + DaysInMonth(y, m) <= if k == 13 then DaysInYear(y) else DaysBeforeMonth(y, k)
  {
  }

  /** Day numbers follow calendar order: an earlier valid date has a smaller number. */
  lemma DayNumberOrder(a: Date, b: Date)
    requires ValidDate(a) && ValidDate(b) && Before(a, b)
    ensures DayNumber(a) < DayNumber(b)
  {
    if a.year < b.year {
      MonthEnds(a.year, a.month, 13);
      YearStartStep(a.year);
      YearStartMonotone(a.year + 1, b.year);
    } else if a.month < b.month {
      MonthEnds(a.year, a.month, b.month);
    }
  }

  /** Distinct valid dates have distinct day numbers. */
  lemma DayNumberInjective(a: Date, b: Date)
    requires ValidDate(a) && ValidDate(b) && DayNumber(a) == DayNumber(b)
    ensures a == b
  {
    if Before(a, b) {
      DayNumberOrder(a, b);
    } else if Before(b, a) {
      DayNumberOrder(b, a);
    }
  }

  /** One month on is exactly as many days later as the starting month has. */
  lemma AddOneMonthDays(d: Date)
    requires ValidDate(d)
    ensures DayNumber(AddOneMonth(d)) == DayNumber(d) + DaysInMonth(d.year, d.month)
  {
    if d.month == 12 {
      YearStartStep(d.year);
    }
  }

  /** `d - INTERVAL 'n days'` is the only valid date exactly `n` days before `d`. */
  lemma DaysBeforeUnique(d: Date, n: nat, e: Date)
    requires ValidDate(d) && ValidDate(e) && DayNumber(e) == DayNumber(d) - n
    ensures e == DaysBefore(d, n)
  {
    DayNumberInjective(e, DaysBefore(d, n));
  }

  /** PostgreSQL's `integer` type: a 32-bit signed value. */
  predicate IsInt4(n: int)
  {
    -0x8000_0000 <= n < 0x8000_0000
  }

  // ------------------------------------------------------------------- rows

  /** A row of the expenses table or of the incomes table (the two have the same columns). */
  datatype Entry = Entry(
    id: int, userId: int, categoryId: int, amount: int,
    description: string, date: Date, createdAt: int)

  datatype User = User(
    userId: int, username: string, email: string,
    isAdmin: bool, isActive: bool, createdAt: int)

  datatype Subscription = Subscription(
    userId: int, expenseId: int, name: string, amount: int,
    cycle: string, nextPaymentDate: Date)

  datatype Installment = Installment(
    userId: int, expenseId: int, productName: string,
    totalAmount: int, monthlyAmount: int,
    totalInstallments: int, remainingInstallments: int)

  ghost predicate UniqueIds(rows: seq<Entry>)
  {
    forall i, j :: 0 <= i < j < |rows| ==> rows[i].id != rows[j].id
  }

  ghost predicate IdsBelow(rows: seq<Entry>, next: int)
  {
    forall i :: 0 <= i < |rows| ==> rows[i].id < next
  }

  ghost predicate UniqueUserIds(users: seq<User>)
  {
    forall i, j :: 0 <= i < j < |users| ==> users[i].userId != users[j].userId
  }

  /** A row of the daily_summaries table, which a trigger fills; the trigger is not part of this model. */
  datatype DailySummary = DailySummary(userId: int, date: Date, totalIncome: int, totalExpense: int)

  // ----------------------------------------------------------------- WHERE

  /** `WHERE keep(row)`, keeping storage order. */
  function Where<T(!new)>(rows: seq<T>, keep: T -> bool): (r: seq<T>)
    ensures forall x :: x in r <==> x in rows && keep(x)
    ensures |r| <= |rows|
    ensures (forall k :: 0 <= k < |rows| ==> !keep(rows[k])) ==> r == []
  {
    if |rows| == 0 then []
    else
      var rest := Where(rows[1..], keep);
      assert rows == [rows[0]] + rows[1..];
      if keep(rows[0]) then [rows[0]] + rest else rest
  }

  /** A filter distributes over concatenation, keeping the order of rows. */
  lemma {:induction false} WhereAppend<T(!new)>(a: seq<T>, b: seq<T>, keep: T -> bool)
    ensures Where(a + b, keep) == Where(a, keep) + Where(b, keep)
  {
    if |a| > 0 {
      assert (a + b)[1..] == a[1..] + b;
      WhereAppend(a[1..], b, keep);
    } else {
      assert a + b == b;
    }
  }

  // ------------------------------------------- owner-scoped row statements

  /** `WHERE <id column> = id AND user_id = userId`. */
  predicate Owned(e: Entry, id: int, userId: int)
  {
    e.id == id && e.userId == userId
  }

  /** `SELECT * ... WHERE id AND user_id`, first row. */
  function FindOwned(rows: seq<Entry>, id: int, userId: int): (r: Option<Entry>)
    ensures r.None? <==> forall k :: 0 <= k < |rows| ==> !Owned(rows[k], id, userId)
    ensures r.Some? ==> r.value in rows && Owned(r.value, id, userId)
  {
    if |rows| == 0 then None
    else if Owned(rows[0], id, userId) then Some(rows[0])
    else FindOwned(rows[1..], id, userId)
  }

  /** `DELETE ... WHERE id AND user_id`: the rows that remain, in their order. */
  function RemoveOwned(rows: seq<Entry>, id: int, userId: int): (r: seq<Entry>)
    ensures forall e :: e in r <==> e in rows && !Owned(e, id, userId)
    ensures (forall k :: 0 <= k < |rows| ==> !Owned(rows[k], id, userId)) ==> r == rows
    ensures UniqueIds(rows) ==> UniqueIds(r)
  {
    if |rows| == 0 then []
    else
      var rest := RemoveOwned(rows[1..], id, userId);
      assert UniqueIds(rows) ==> forall k :: 0 <= k < |rest| ==> rest[k].id != rows[0].id by {
        if UniqueIds(rows) {
          forall k | 0 <= k < |rest| ensures rest[k].id != rows[0].id {
            assert rest[k] in rows[1..];
            var m :| 0 <= m < |rows| - 1 && rows[1..][m] == rest[k];
            assert rows[m + 1] == rest[k];
          }
        }
      }
      if Owned(rows[0], id, userId) then rest else [rows[0]] + rest
  }

  /** With unique ids, an owner-scoped DELETE removes one row when the user owns `id` and none otherwise. */
  lemma {:induction false} RemoveOwnedCount(rows: seq<Entry>, id: int, userId: int)
    requires UniqueIds(rows)
    ensures |RemoveOwned(rows, id, userId)|
            == |rows| - (if FindOwned(rows, id, userId).Some? then 1 else 0)
  {
    if |rows| > 0 {
      RemoveOwnedCount(rows[1..], id, userId);
      if Owned(rows[0], id, userId) {
        assert forall k :: 0 <= k < |rows| - 1 ==> rows[1..][k].id != id by {
          forall k | 0 <= k < |rows| - 1 ensures rows[1..][k].id != id {
            assert rows[k + 1].id != rows[0].id;
          }
        }
      }
    }
  }

  /** The row an owner-scoped UPDATE writes: only the four edited columns change. */
  function Edited(e: Entry, amount: int, categoryId: int, description: string, date: Date): Entry
  {
    e.(amount := amount, categoryId := categoryId, description := description, date := date)
  }

  /**
   * `UPDATE ... SET amount, category_id, description, <date> WHERE id AND user_id`.
   */
  function UpdateOwned(rows: seq<Entry>, id: int, userId: int, amount: int, categoryId: int,
                       description: string, date: Date): (r: seq<Entry>)
    ensures |r| == |rows|
    ensures forall k :: 0 <= k < |rows| ==>
              && r[k].id == rows[k].id && r[k].userId == rows[k].userId
              && r[k].createdAt == rows[k].createdAt
              && (Owned(rows[k], id, userId) ==>
                    r[k].amount == amount && r[k].categoryId == categoryId
                    && r[k].description == description && r[k].date == date)
              && (!Owned(rows[k], id, userId) ==> r[k] == rows[k])
  {
    if |rows| == 0 then []
    else
      var head := if Owned(rows[0], id, userId) then Edited(rows[0], amount, categoryId, description, date)
                  else rows[0];
      [head] + UpdateOwned(rows[1..], id, userId, amount, categoryId, description, date)
  }

  // ---------------------------------------------------------------- database

  /** Primary keys are unique and every key was handed out by its serial. */
  ghost predicate ValidTables(users: seq<User>, expenses: seq<Entry>, nextExpenseId: int,
                              incomes: seq<Entry>, nextIncomeId: int)
  {
    && UniqueUserIds(users)
    && UniqueIds(expenses) && IdsBelow(expenses, nextExpenseId)
    && UniqueIds(incomes) && IdsBelow(incomes, nextIncomeId)
  }

  /** The application's database: every table the core controllers touch. */
  class Database {
    var users: seq<User>
    var categories: map<int, string>
    var expenses: seq<Entry>
    var incomes: seq<Entry>
    var subscriptions: seq<Subscription>
    var installments: seq<Installment>
    var summaries: seq<DailySummary>
    /** The next values of the expense_id and income_id serials. */
    var nextExpenseId: int
    var nextIncomeId: int

    /** Primary keys are unique and every key was handed out by its serial. */
    ghost predicate Valid()
      reads this`users, this`expenses, this`nextExpenseId, this`incomes, this`nextIncomeId
    {
      ValidTables(users, expenses, nextExpenseId, incomes, nextIncomeId)
    }

    /** A database with the given users and categories and empty ledgers. */
    constructor (users: seq<User>, categories: map<int, string>)
      requires UniqueUserIds(users)
      ensures Valid()
      ensures this.users == users && this.categories == categories
      ensures expenses == [] && incomes == [] && subscriptions == [] && installments == [] && summaries == []
    {
      this.users := users;
      this.categories := categories;
      expenses, incomes := [], [];
      subscriptions, installments, summaries := [], [], [];
      nextExpenseId, nextIncomeId := 1, 1;
    }
  }

  /** Once its owner deleted it, a row can no longer be found for them. */
  lemma FindAfterRemove(rows: seq<Entry>, id: int, userId: int)
    ensures FindOwned(RemoveOwned(rows, id, userId), id, userId) == None
  {
    var r := RemoveOwned(rows, id, userId);
    forall k | 0 <= k < |r| ensures !Owned(r[k], id, userId) {
      assert r[k] in r;
    }
  }

  /** A row appended under the serial's next key is the one its owner finds under that key. */
  lemma {:induction false} FindAfterAppend(rows: seq<Entry>, e: Entry)
    requires IdsBelow(rows, e.id)
    ensures FindOwned(rows + [e], e.id, e.userId) == Some(e)
  {
    if |rows| > 0 {
      assert (rows + [e])[1..] == rows[1..] + [e];
      FindAfterAppend(rows[1..], e);
    }
  }

  /** An owner-scoped UPDATE of an owned row is what its owner then finds under its key. */
  lemma {:induction false} FindAfterUpdate(rows: seq<Entry>, id: int, userId: int, amount: int, categoryId: int,
                                           description: string, date: Date)
    requires FindOwned(rows, id, userId).Some?
    ensures FindOwned(UpdateOwned(rows, id, userId, amount, categoryId, description, date), id, userId)
            == Some(Edited(FindOwned(rows, id, userId).value, amount, categoryId, description, date))
  {
    if !Owned(rows[0], id, userId) {
      FindAfterUpdate(rows[1..], id, userId, amount, categoryId, description, date);
    }
  }

  /** Dropping rows keeps the keys unique and below the serial. */
  lemma {:induction false} WhereKeepsIds(rows: seq<Entry>, keep: Entry -> bool, next: int)
    requires UniqueIds(rows) && IdsBelow(rows, next)
    ensures UniqueIds(Where(rows, keep)) && IdsBelow(Where(rows, keep), next)
  {
    if |rows| > 0 {
      var rest := rows[1..];
      WhereKeepsIds(rest, keep, next);
      var w := Where(rest, keep);
      forall k | 0 <= k < |w| ensures w[k].id != rows[0].id {
        assert w[k] in rest;
        var m :| 0 <= m < |rest| && rest[m] == w[k];
        assert rows[m + 1] == w[k];
      }
      if keep(rows[0]) {
        ConsFreshId(rows[0], w, next);
      }
    }
  }

  lemma ConsFreshId(e: Entry, rows: seq<Entry>, next: int)
    requires UniqueIds(rows) && IdsBelow(rows, next) && e.id < next
    requires forall k :: 0 <= k < |rows| ==> rows[k].id != e.id
    ensures UniqueIds([e] + rows) && IdsBelow([e] + rows, next)
  {
    var r := [e] + rows;
    assert forall k :: 1 <= k < |r| ==> r[k] == rows[k - 1];
  }

  /** Rewriting rows without touching their keys keeps the keys unique and below the serial. */
  lemma SameIds(a: seq<Entry>, b: seq<Entry>, next: int)
    requires |a| == |b| && forall k :: 0 <= k < |a| ==> a[k].id == b[k].id
    requires UniqueIds(a) && IdsBelow(a, next)
    ensures UniqueIds(b) && IdsBelow(b, next)
  {
  }

  /** Appending a row whose key is the serial's next value keeps the keys unique. */
  lemma AppendFreshId(rows: seq<Entry>, e: Entry, next: int)
    requires UniqueIds(rows) && IdsBelow(rows, next) && e.id == next
    ensures UniqueIds(rows + [e]) && IdsBelow(rows + [e], next + 1)
  {
  }
}
