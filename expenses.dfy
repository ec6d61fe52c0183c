/**
 * The expense controller: add, delete, fetch for editing and update one
 * of the user's expenses. An update may also record a subscription and an
 * installment plan for the expense; the three statements run without a
 * transaction, so a later failure keeps the earlier writes.
 *
 * Route ids reach PostgreSQL as text: `None` stands for a text that is
 * not an integer, which makes the statement fail. A form date reaches it
 * the same way: `None` stands for a text PostgreSQL does not read as a
 * date. Failures of any other kind (a missing category, a dropped
 * connection) are the parameters `insertFails`, `queryFails` and
 * `failure`.
 */
module Expenses {
  import opened Optional
  import opened JsParse
  import opened Store
  import opened Forms

  /** `addExpense`: a new row owned by the acting user, dated as the form says. */
  method AddExpense(db: Database, userId: int, categoryId: int, amount: int, description: string,
                    date: Option<Date>, now: int, insertFails: bool)
    returns (response: Response)
    requires db.Valid()
    modifies db`expenses, db`nextExpenseId
    ensures db.Valid()
    ensures date.None? || insertFails ==>
              response == Send("Error adding expense.")
              && db.expenses == old(db.expenses) && db.nextExpenseId == old(db.nextExpenseId)
    ensures date.Some? && !insertFails ==>
              && response == Redirect("/dashboard")
              && db.expenses == old(db.expenses)
                                + [Entry(old(db.nextExpenseId), userId, categoryId, amount, description, date.value, now)]
              && db.nextExpenseId == old(db.nextExpenseId) + 1
  {
    if date.None? || insertFails {
      return Send("Error adding expense.");
    }
    var e := Entry(db.nextExpenseId, userId, categoryId, amount, description, date.value, now);
    AppendFreshId(db.expenses, e, db.nextExpenseId);
    db.expenses := db.expenses + [e];
    db.nextExpenseId := db.nextExpenseId + 1;
    response := Redirect("/dashboard");
  }

  /** `deleteExpense`: removes the row only when the acting user owns it. */
  method DeleteExpense(db: Database, userId: int, id: Option<int>, queryFails: bool)
    returns (response: Response)
    requires db.Valid()
    modifies db`expenses
    ensures db.Valid()
    ensures id.None? || queryFails ==> response == Send("Delete failed.") && db.expenses == old(db.expenses)
    ensures id.Some? && !queryFails ==>
              response == Redirect("/dashboard") && db.expenses == RemoveOwned(old(db.expenses), id.value, userId)
  {
    if id.None? || queryFails {
      return Send("Delete failed.");
    }
    db.expenses := RemoveOwned(db.expenses, id.value, userId);
    assert forall k :: 0 <= k < |db.expenses| ==> db.expenses[k] in old(db.expenses);
    response := Redirect("/dashboard");
  }

  /** `getEditExpense`: the form for an owned row; anyone else's row, or no row, sends the user back. */
  function GetEditExpense(expenses: seq<Entry>, categories: map<int, string>, userId: int,
                          id: Option<int>, queryFails: bool): (r: Response)
    ensures id.None? || queryFails ==> r == Send("Could not fetch data.")
    ensures id.Some? && !queryFails ==>
              && (r.Redirect? <==> forall k :: 0 <= k < |expenses| ==> !Owned(expenses[k], id.value, userId))
              && (r.Redirect? ==> r.location == "/dashboard")
              && (r.EditForm? ==> r.row in expenses && Owned(r.row, id.value, userId) && r.categories == categories)
              && !r.Send?
  {
    if id.None? || queryFails then Send("Could not fetch data.")
    else
      match FindOwned(expenses, id.value, userId)
      case None => Redirect("/dashboard")
      case Some(e) => EditForm(e, categories)
  }

  /** A row just added is the one its owner's edit form shows under its new id. */
  lemma AddedExpenseIsEditable(rows: seq<Entry>, e: Entry, categories: map<int, string>)
    requires IdsBelow(rows, e.id)
    ensures GetEditExpense(rows + [e], categories, e.userId, Some(e.id), false) == EditForm(e, categories)
  {
    FindAfterAppend(rows, e);
  }

  /** After its owner deleted a row, asking to edit it sends them back to the dashboard. */
  lemma DeletedExpenseIsGone(rows: seq<Entry>, id: int, userId: int, categories: map<int, string>)
    ensures GetEditExpense(RemoveOwned(rows, id, userId), categories, userId, Some(id), false) == Redirect("/dashboard")
  {
    FindAfterRemove(rows, id, userId);
  }

  /** After its owner updated a row, the edit form shows the new values and the old id, owner and creation time. */
  lemma UpdatedExpenseIsEditable(rows: seq<Entry>, id: int, userId: int, amount: int, categoryId: int,
                                description: string, date: Date, categories: map<int, string>)
    requires FindOwned(rows, id, userId).Some?
    ensures var r := GetEditExpense(UpdateOwned(rows, id, userId, amount, categoryId, description, date),
                             categories, userId, Some(id), false);
            && r.EditForm?
            && r.row == Edited(FindOwned(rows, id, userId).value, amount, categoryId, description, date)
            && r.row.id == id && r.row.userId == userId
            && r.row.amount == amount && r.row.categoryId == categoryId
            && r.row.description == description && r.row.date == date
  {
    FindAfterUpdate(rows, id, userId, amount, categoryId, description, date);
  }

  // ------------------------------------------------- subscriptions and plans

  /**
   * The `next_payment_date` of a new subscription: the expense date one
   * month or one year on, or the expense date itself for any other cycle.
   */
  function NextPaymentDate(date: Date, cycle: string): (r: Date)
    requires ValidDate(date)
    ensures ValidDate(r)
    ensures cycle == "MONTHLY" || cycle == "YEARLY" ==> Before(date, r)
    ensures cycle == "MONTHLY" ==> DayNumber(r) == DayNumber(date) + DaysInMonth(date.year, date.month)
    ensures cycle == "YEARLY" ==>
              if (date.month, date.day) == (2, 29) then r == Date(date.year + 1, 3, 1)
              else r == Date(date.year + 1, date.month, date.day)
    ensures cycle != "MONTHLY" && cycle != "YEARLY" ==> r == date
  {
    if cycle == "MONTHLY" then
      AddOneMonthDays(date);
      AddOneMonth(date)
    else if cycle == "YEARLY" then AddOneYear(date)
    else date
  }

  /**
   * The installment row for the parsed counts, or None when a count is NaN
   * or outside PostgreSQL's `integer` range, which makes the INSERT fail.
   * The monthly amount is the expense amount; the debt is that amount
   * times the number of installments.
   */
  function InstallmentPlan(userId: int, expenseId: int, productName: string, amount: int,
                           total: Option<int>, current: Option<int>): (r: Option<Installment>)
    ensures r.Some? <==> && total.Some? && current.Some?
                         && IsInt4(total.value) && IsInt4(total.value - current.value)
    ensures r.Some? ==>
              && r.value.totalInstallments == total.value
              && r.value.remainingInstallments + current.value == r.value.totalInstallments
              && r.value.totalAmount == r.value.monthlyAmount * r.value.totalInstallments
              && r.value.monthlyAmount == amount
              && r.value.userId == userId && r.value.expenseId == expenseId && r.value.productName == productName
  {
    if total.Some? && current.Some? && IsInt4(total.value) && IsInt4(total.value - current.value) then
      Some(Installment(userId, expenseId, productName, amount * total.value, amount, total.value,
                       total.value - current.value))
    else None
  }

  /** A form that sends both counts as plain decimal numbers in range records a plan for them. */
  lemma InstallmentPlanOfNumbers(userId: int, expenseId: int, productName: string, amount: int,
                                 total: int, current: int)
    requires IsInt4(total) && IsInt4(total - current)
    ensures InstallmentPlan(userId, expenseId, productName, amount,
                            ParseInt(DecimalString(total), false), ParseInt(DecimalString(current), false))
            == Some(Installment(userId, expenseId, productName, amount * total, amount, total, total - current))
  {
    var totalCount := ParseInt(DecimalString(total), false);
    var currentCount := ParseInt(DecimalString(current), false);
    ParseIntDecimalString(total);
    ParseIntDecimalString(current);
    PlanOfCounts(userId, expenseId, productName, amount, totalCount, currentCount, total, current);
  }

  lemma PlanOfCounts(userId: int, expenseId: int, productName: string, amount: int,
                     totalCount: Option<int>, currentCount: Option<int>, total: int, current: int)
    requires totalCount == Some(total) && currentCount == Some(current)
    requires IsInt4(total) && IsInt4(total - current)
    ensures InstallmentPlan(userId, expenseId, productName, amount, totalCount, currentCount)
            == Some(Installment(userId, expenseId, productName, amount * total, amount, total, total - current))
  {
  }

  /** A count with no digits, such as an empty field, records no plan. */
  lemma InstallmentPlanOfText(userId: int, expenseId: int, productName: string, amount: int,
                              totalText: string, currentText: string)
    requires var t := TrimStart(totalText);
             var u := if |t| > 0 && (t[0] == '-' || t[0] == '+') then t[1..] else t;
             u == [] || !('0' <= u[0] <= '9')
    ensures InstallmentPlan(userId, expenseId, productName, amount,
                            ParseInt(totalText, false), ParseInt(currentText, false)).None?
  {
    ParseIntNoDigits(totalText, false);
  }

  /** The statements of `updateExpense`, in the order they run. */
  datatype Step = UpdateStep | SubscriptionStep | InstallmentStep

  /** Whether the UPDATE of `updateExpense` succeeds. */
  predicate UpdateRuns(id: Option<int>, date: Option<Date>, failure: Option<Step>)
  {
    id.Some? && date.Some? && failure != Some(UpdateStep)
  }

  /** The subscription rows `updateExpense` adds, given that its UPDATE succeeded. */
  function NewSubscriptions(userId: int, expenseId: int, amount: int, description: string, date: Date,
                            isSubscription: string, subCycle: string, failure: Option<Step>): (r: seq<Subscription>)
    requires ValidDate(date)
    ensures |r| <= 1
    ensures |r| == 1 <==> isSubscription == "true" && failure != Some(SubscriptionStep)
    ensures |r| == 1 ==> r[0].userId == userId && r[0].expenseId == expenseId && r[0].name == description
                         && r[0].amount == amount && r[0].cycle == subCycle
                         && r[0].nextPaymentDate == NextPaymentDate(date, subCycle)
  {
    if isSubscription == "true" && failure != Some(SubscriptionStep) then
      [Subscription(userId, expenseId, description, amount, subCycle, NextPaymentDate(date, subCycle))]
    else []
  }

  /** Whether `updateExpense` gets past its subscription block, given that its UPDATE succeeded. */
  predicate SubscriptionPasses(isSubscription: string, failure: Option<Step>)
  {
    isSubscription != "true" || failure != Some(SubscriptionStep)
  }

  /** The installment rows `updateExpense` adds, given that it got past the subscription block. */
  function NewInstallments(userId: int, expenseId: int, amount: int, description: string,
                           isInstallment: string, totalInstallments: string, currentInstallment: string,
                           failure: Option<Step>): (r: seq<Installment>)
    ensures |r| <= 1
    ensures |r| == 1 <==> && isInstallment == "true" && failure != Some(InstallmentStep)
                          && InstallmentPlan(userId, expenseId, description, amount,
                                             ParseInt(totalInstallments, false),
                                             ParseInt(currentInstallment, false)).Some?
    ensures |r| == 1 ==> Some(r[0]) == InstallmentPlan(userId, expenseId, description, amount,
                                                       ParseInt(totalInstallments, false),
                                                       ParseInt(currentInstallment, false))
  {
    var plan := InstallmentPlan(userId, expenseId, description, amount,
                                ParseInt(totalInstallments, false), ParseInt(currentInstallment, false));
    if isInstallment == "true" && failure != Some(InstallmentStep) && plan.Some? then [plan.value] else []
  }

  /**
   * `updateExpense`. `failure` names a statement that fails for a reason
   * not modelled here; `dbMessage` is the message PostgreSQL gives for a
   * failing statement, whatever made it fail. A failing statement ends the
   * handler, and the writes before it stay.
   */
  method UpdateExpense(db: Database, userId: int, id: Option<int>, amount: int, categoryId: int,
                       description: string, date: Option<Date>,
                       isSubscription: string, subCycle: string,
                       isInstallment: string, totalInstallments: string, currentInstallment: string,
                       failure: Option<Step>, dbMessage: string)
    returns (response: Response)
    requires db.Valid()
    requires date.Some? ==> ValidDate(date.value)
    modifies db`expenses, db`subscriptions, db`installments
    ensures db.Valid()
    ensures !UpdateRuns(id, date, failure) ==>
              && response == Send("Error during update: " + dbMessage)
              && db.expenses == old(db.expenses) && db.subscriptions == old(db.subscriptions)
              && db.installments == old(db.installments)
    ensures UpdateRuns(id, date, failure) ==>
              && db.expenses == UpdateOwned(old(db.expenses), id.value, userId, amount, categoryId,
                                            description, date.value)
              && db.subscriptions == old(db.subscriptions)
                                     + NewSubscriptions(userId, id.value, amount, description, date.value,
                                                        isSubscription, subCycle, failure)
    ensures UpdateRuns(id, date, failure) && !SubscriptionPasses(isSubscription, failure) ==>
              response == Send("Error during update: " + dbMessage) && db.installments == old(db.installments)
    ensures UpdateRuns(id, date, failure) && SubscriptionPasses(isSubscription, failure) ==>
              var added := NewInstallments(userId, id.value, amount, description, isInstallment,
                                           totalInstallments, currentInstallment, failure);
              && db.installments == old(db.installments) + added
              && response == (if isInstallment != "true" || |added| == 1 then Redirect("/dashboard")
                              else Send("Error during update: " + dbMessage))
  {
    if !UpdateRuns(id, date, failure) {
      return Send("Error during update: " + dbMessage);
    }
    var expenseId, day := id.value, date.value;
    EditExpenseRow(db, userId, expenseId, amount, categoryId, description, day);
    var subscriptionOk := RecordSubscription(db, userId, expenseId, amount, description, day,
                                             isSubscription, subCycle, failure);
    if !subscriptionOk {
      return Send("Error during update: " + dbMessage);
    }
    var installmentOk := RecordInstallment(db, userId, expenseId, amount, description, isInstallment,
                                           totalInstallments, currentInstallment, failure);
    if !installmentOk {
      return Send("Error during update: " + dbMessage);
    }
    response := Redirect("/dashboard");
  }

  /** The UPDATE of `updateExpense`: the user's row with that id takes the new values; ids stay as they were. */
  method EditExpenseRow(db: Database, userId: int, id: int, amount: int, categoryId: int,
                        description: string, date: Date)
    requires db.Valid()
    modifies db`expenses
    ensures db.Valid()
    ensures db.expenses == UpdateOwned(old(db.expenses), id, userId, amount, categoryId, description, date)
  {
    SameIds(db.expenses, UpdateOwned(db.expenses, id, userId, amount, categoryId, description, date),
            db.nextExpenseId);
    db.expenses := UpdateOwned(db.expenses, id, userId, amount, categoryId, description, date);
  }

  /** The subscription block of `updateExpense`: `ok` is false when its INSERT fails. */
  method RecordSubscription(db: Database, userId: int, expenseId: int, amount: int, description: string,
                            date: Date, isSubscription: string, subCycle: string, failure: Option<Step>)
    returns (ok: bool)
    requires ValidDate(date)
    modifies db`subscriptions
    ensures ok == SubscriptionPasses(isSubscription, failure)
    ensures db.subscriptions == old(db.subscriptions)
                                + NewSubscriptions(userId, expenseId, amount, description, date,
                                                   isSubscription, subCycle, failure)
  {
    if isSubscription == "true" {
      if failure == Some(SubscriptionStep) {
        return false;
      }
      var nextDate := NextPaymentDate(date, subCycle);
      db.subscriptions := db.subscriptions + [Subscription(userId, expenseId, description, amount, subCycle, nextDate)];
    }
    ok := true;
  }

  /** The installment block of `updateExpense`: `ok` is false when its INSERT fails. */
  method RecordInstallment(db: Database, userId: int, expenseId: int, amount: int, description: string,
                           isInstallment: string, totalInstallments: string, currentInstallment: string,
                           failure: Option<Step>)
    returns (ok: bool)
    modifies db`installments
    ensures var added := NewInstallments(userId, expenseId, amount, description, isInstallment,
                                         totalInstallments, currentInstallment, failure);
            && db.installments == old(db.installments) + added
            && (ok <==> isInstallment != "true" || |added| == 1)
  {
    if isInstallment == "true" {
      var total := ParseInt(totalInstallments, false);
      var current := ParseInt(currentInstallment, false);
      var plan := InstallmentPlan(userId, expenseId, description, amount, total, current);
      if plan.None? || failure == Some(InstallmentStep) {
        return false;
      }
      db.installments := db.installments + [plan.value];
    }
    ok := true;
  }
}
