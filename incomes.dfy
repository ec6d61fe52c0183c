/**
 * The income controller: add, delete, fetch for editing and update one of
 * the user's incomes. Ids and dates are read as in the expense
 * controller; every failure sends a fixed message.
 */
module Incomes {
  import opened Optional
  import opened Store
  import opened Forms

  /** `addIncome`: a new row owned by the acting user. */
  method AddIncome(db: Database, userId: int, categoryId: int, amount: int, description: string,
                   date: Option<Date>, now: int, insertFails: bool)
    returns (response: Response)
    requires db.Valid()
    modifies db`incomes, db`nextIncomeId
    ensures db.Valid()
    ensures date.None? || insertFails ==>
              response == Send("Error adding income.")
              && db.incomes == old(db.incomes) && db.nextIncomeId == old(db.nextIncomeId)
    ensures date.Some? && !insertFails ==>
              && response == Redirect("/dashboard")
              && db.incomes == old(db.incomes)
                               + [Entry(old(db.nextIncomeId), userId, categoryId, amount, description, date.value, now)]
              && db.nextIncomeId == old(db.nextIncomeId) + 1
  {
    if date.None? || insertFails {
      return Send("Error adding income.");
    }
    var e := Entry(db.nextIncomeId, userId, categoryId, amount, description, date.value, now);
    AppendFreshId(db.incomes, e, db.nextIncomeId);
    db.incomes := db.incomes + [e];
    db.nextIncomeId := db.nextIncomeId + 1;
    response := Redirect("/dashboard");
  }

  /** `deleteIncome`: removes the row only when the acting user owns it. */
  method DeleteIncome(db: Database, userId: int, id: Option<int>, queryFails: bool)
    returns (response: Response)
    requires db.Valid()
    modifies db`incomes
    ensures db.Valid()
    ensures id.None? || queryFails ==> response == Send("Delete failed.") && db.incomes == old(db.incomes)
    ensures id.Some? && !queryFails ==>
              response == Redirect("/dashboard") && db.incomes == RemoveOwned(old(db.incomes), id.value, userId)
  {
    if id.None? || queryFails {
      return Send("Delete failed.");
    }
    db.incomes := RemoveOwned(db.incomes, id.value, userId);
    assert forall k :: 0 <= k < |db.incomes| ==> db.incomes[k] in old(db.incomes);
    response := Redirect("/dashboard");
  }

  /** `getEditIncome`: the form for an owned row; anyone else's row, or no row, sends the user back. */
  function GetEditIncome(incomes: seq<Entry>, categories: map<int, string>, userId: int,
                         id: Option<int>, queryFails: bool): (r: Response)
    ensures id.None? || queryFails ==> r == Send("Could not fetch data.")
    ensures id.Some? && !queryFails ==>
              && (r.Redirect? <==> forall k :: 0 <= k < |incomes| ==> !Owned(incomes[k], id.value, userId))
              && (r.Redirect? ==> r.location == "/dashboard")
              && (r.EditForm? ==> r.row in incomes && Owned(r.row, id.value, userId) && r.categories == categories)
              && !r.Send?
  {
    if id.None? || queryFails then Send("Could not fetch data.")
    else
      match FindOwned(incomes, id.value, userId)
      case None => Redirect("/dashboard")
      case Some(e) => EditForm(e, categories)
  }

  /** A row just added is the one its owner's edit form shows under its new id. */
  lemma AddedIncomeIsEditable(rows: seq<Entry>, e: Entry, categories: map<int, string>)
    requires IdsBelow(rows, e.id)
    ensures GetEditIncome(rows + [e], categories, e.userId, Some(e.id), false) == EditForm(e, categories)
  {
    FindAfterAppend(rows, e);
  }

  /** After its owner deleted a row, asking to edit it sends them back to the dashboard. */
  lemma DeletedIncomeIsGone(rows: seq<Entry>, id: int, userId: int, categories: map<int, string>)
    ensures GetEditIncome(RemoveOwned(rows, id, userId), categories, userId, Some(id), false) == Redirect("/dashboard")
  {
    FindAfterRemove(rows, id, userId);
  }

  /** After its owner updated a row, the edit form shows the new values and the old id, owner and creation time. */
  lemma UpdatedIncomeIsEditable(rows: seq<Entry>, id: int, userId: int, amount: int, categoryId: int,
                                description: string, date: Date, categories: map<int, string>)
    requires FindOwned(rows, id, userId).Some?
    ensures var r := GetEditIncome(UpdateOwned(rows, id, userId, amount, categoryId, description, date),
                             categories, userId, Some(id), false);
            && r.EditForm?
            && r.row == Edited(FindOwned(rows, id, userId).value, amount, categoryId, description, date)
            && r.row.id == id && r.row.userId == userId
            && r.row.amount == amount && r.row.categoryId == categoryId
            && r.row.description == description && r.row.date == date
  {
    FindAfterUpdate(rows, id, userId, amount, categoryId, description, date);
  }

  /** `updateIncome`: rewrites the four form columns of an owned row; other rows are untouched. */
  method UpdateIncome(db: Database, userId: int, id: Option<int>, amount: int, categoryId: int,
                      description: string, date: Option<Date>, queryFails: bool)
    returns (response: Response)
    requires db.Valid()
    modifies db`incomes
    ensures db.Valid()
    ensures id.None? || date.None? || queryFails ==>
              response == Send("Update failed.") && db.incomes == old(db.incomes)
    ensures id.Some? && date.Some? && !queryFails ==>
              && response == Redirect("/dashboard")
              && db.incomes == UpdateOwned(old(db.incomes), id.value, userId, amount, categoryId,
                                           description, date.value)
  {
    if id.None? || date.None? || queryFails {
      return Send("Update failed.");
    }
    SameIds(db.incomes, UpdateOwned(db.incomes, id.value, userId, amount, categoryId, description, date.value),
            db.nextIncomeId);
    db.incomes := UpdateOwned(db.incomes, id.value, userId, amount, categoryId, description, date.value);
    response := Redirect("/dashboard");
  }
}
