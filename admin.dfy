/**
 * The admin controller: the user list, one user's details, and the three
 * actions on a user (toggle active, toggle admin, delete), each of which
 * refuses to act on the acting admin's own account.
 *
 * The route parameter is read with `parseInt(id, 10)` and handed to
 * PostgreSQL as the `$1` of an integer column: NaN (sent as the text
 * "NaN") and values outside the 32-bit `integer` range make the
 * statement fail.
 */
module Admin {
  import opened Optional
  import opened JsParse
  import opened Store
  import opened Aggregation
  import opened Sorting

  /** `user_id` as read by `SELECT user_id, username, email, is_admin, created_at`. */
  datatype TargetUser = TargetUser(userId: int, username: string, email: string, isAdmin: bool, createdAt: int)

  datatype Response =
    | Redirect(location: string)
    | Status(code: int, text: string)
    /** A rejected promise no handler catches: no response is sent. */
    | Unhandled
    | UserList(users: seq<User>)
    | UserDetails(target: TargetUser, expenses: seq<ListedEntry>, incomes: seq<ListedEntry>)

  const ServerError: Response := Status(500, "Server error")

  /** The id the statement receives, or None when PostgreSQL rejects the parameter. */
  function StatementId(target: Option<int>): (r: Option<int>)
    ensures r.Some? <==> target.Some? && IsInt4(target.value)
    ensures r.Some? ==> r == target
  {
    if target.Some? && IsInt4(target.value) then target else None
  }

  /** An id sent as a decimal number reaches the statement iff it fits PostgreSQL's `integer`: "2147483648" is rejected. */
  lemma StatementIdOfDecimal(n: int)
    ensures StatementId(ParseInt(DecimalString(n), true)) == if IsInt4(n) then Some(n) else None
  {
    ParseIntDecimalString(n);
  }

  // ------------------------------------------------------ the users table

  /** `UPDATE users SET is_active = NOT is_active WHERE user_id = id`. */
  function FlipActive(users: seq<User>, id: int): (r: seq<User>)
    ensures |r| == |users|
    ensures forall k :: 0 <= k < |r| ==>
              && r[k].(isActive := users[k].isActive) == users[k]
              && (r[k].isActive != users[k].isActive <==> users[k].userId == id)
  {
    if |users| == 0 then []
    else
      var u := users[0];
      [if u.userId == id then u.(isActive := !u.isActive) else u] + FlipActive(users[1..], id)
  }

  /** `UPDATE users SET is_admin = NOT is_admin WHERE user_id = id`. */
  function FlipAdmin(users: seq<User>, id: int): (r: seq<User>)
    ensures |r| == |users|
    ensures forall k :: 0 <= k < |r| ==>
              && r[k].(isAdmin := users[k].isAdmin) == users[k]
              && (r[k].isAdmin != users[k].isAdmin <==> users[k].userId == id)
  {
    if |users| == 0 then []
    else
      var u := users[0];
      [if u.userId == id then u.(isAdmin := !u.isAdmin) else u] + FlipAdmin(users[1..], id)
  }

  /** Toggling a user's active flag twice restores the table. */
  lemma FlipActiveTwice(users: seq<User>, id: int)
    ensures FlipActive(FlipActive(users, id), id) == users
  {
    var r := FlipActive(FlipActive(users, id), id);
    forall k | 0 <= k < |users| ensures r[k] == users[k] {
      assert FlipActive(users, id)[k].userId == users[k].userId;
    }
  }

  /** Toggling a user's admin flag twice restores the table. */
  lemma FlipAdminTwice(users: seq<User>, id: int)
    ensures FlipAdmin(FlipAdmin(users, id), id) == users
  {
    var r := FlipAdmin(FlipAdmin(users, id), id);
    forall k | 0 <= k < |users| ensures r[k] == users[k] {
      assert FlipAdmin(users, id)[k].userId == users[k].userId;
    }
  }

  /** An id that matches no user changes nothing; the flips keep user ids unique. */
  lemma FlipsKeepTable(users: seq<User>, id: int)
    ensures (forall k :: 0 <= k < |users| ==> users[k].userId != id) ==>
              FlipActive(users, id) == users && FlipAdmin(users, id) == users
    ensures UniqueUserIds(users) ==> UniqueUserIds(FlipActive(users, id)) && UniqueUserIds(FlipAdmin(users, id))
  {
    var a, b := FlipActive(users, id), FlipAdmin(users, id);
    assert forall k :: 0 <= k < |users| ==> a[k].userId == users[k].userId && b[k].userId == users[k].userId;
  }

  /** The row with the given user id, if any. */
  function FindUser(users: seq<User>, id: int): (r: Option<User>)
    ensures r.None? <==> forall k :: 0 <= k < |users| ==> users[k].userId != id
    ensures r.Some? ==> r.value in users && r.value.userId == id
  {
    if |users| == 0 then None
    else if users[0].userId == id then Some(users[0])
    else
      var r := FindUser(users[1..], id);
      assert forall k :: 1 <= k < |users| ==> users[k] == users[1..][k - 1];
      r
  }

  /**
   * `DELETE FROM users WHERE user_id = id`, and the `ON DELETE CASCADE`
   * the schema declares on the rows that carry the user's id.
   */
  function WithoutUser(users: seq<User>, id: int): (r: seq<User>)
    ensures forall u :: u in r <==> u in users && u.userId != id
  {
    Where(users, (u: User) => u.userId != id)
  }

  /** The cascade on a table of entries: every row of the deleted user goes. */
  function CascadeEntries(rows: seq<Entry>, id: int): (r: seq<Entry>)
    ensures forall e :: e in r <==> e in rows && e.userId != id
  {
    Where(rows, (e: Entry) => e.userId != id)
  }

  lemma CascadeKeepsIds(rows: seq<Entry>, id: int, next: int)
    requires UniqueIds(rows) && IdsBelow(rows, next)
    ensures UniqueIds(CascadeEntries(rows, id)) && IdsBelow(CascadeEntries(rows, id), next)
  {
    WhereKeepsIds(rows, (e: Entry) => e.userId != id, next);
  }

  /** Deleting a user and cascading to their entries keeps every key unique and below its serial. */
  lemma CascadeKeepsValid(users: seq<User>, expenses: seq<Entry>, nextExpenseId: int,
                          incomes: seq<Entry>, nextIncomeId: int, id: int)
    requires ValidTables(users, expenses, nextExpenseId, incomes, nextIncomeId)
    ensures ValidTables(WithoutUser(users, id), CascadeEntries(expenses, id), nextExpenseId,
                        CascadeEntries(incomes, id), nextIncomeId)
  {
    WithoutUserCount(users, id);
    CascadeKeepsIds(expenses, id, nextExpenseId);
    CascadeKeepsIds(incomes, id, nextIncomeId);
  }

  function CascadeSubscriptions(rows: seq<Subscription>, id: int): (r: seq<Subscription>)
    ensures forall s :: s in r <==> s in rows && s.userId != id
  {
    Where(rows, (s: Subscription) => s.userId != id)
  }

  function CascadeInstallments(rows: seq<Installment>, id: int): (r: seq<Installment>)
    ensures forall p :: p in r <==> p in rows && p.userId != id
  {
    Where(rows, (p: Installment) => p.userId != id)
  }

  function CascadeSummaries(rows: seq<DailySummary>, id: int): (r: seq<DailySummary>)
    ensures forall s :: s in r <==> s in rows && s.userId != id
  {
    Where(rows, (s: DailySummary) => s.userId != id)
  }

  /** Deleting an existing user removes one row; deleting an unknown one removes none. */
  lemma {:induction false} WithoutUserCount(users: seq<User>, id: int)
    requires UniqueUserIds(users)
    ensures |WithoutUser(users, id)| == |users| - (if FindUser(users, id).Some? then 1 else 0)
    ensures UniqueUserIds(WithoutUser(users, id))
    decreases |users|
  {
    if |users| > 0 {
      var u, rest := users[0], users[1..];
      UniqueTail(users);
      WithoutUserCount(rest, id);
      var w := WithoutUser(rest, id);
      if u.userId == id {
        assert WithoutUser(users, id) == w;
        assert FindUser(rest, id).None? by {
          forall k | 0 <= k < |rest| ensures rest[k].userId != id {
            assert rest[k] == users[k + 1];
          }
        }
      } else {
        assert WithoutUser(users, id) == [u] + w;
        assert FindUser(users, id) == FindUser(rest, id);
        forall k | 0 <= k < |w| ensures w[k].userId != u.userId {
          assert w[k] in rest;
          var j :| 0 <= j < |rest| && rest[j] == w[k];
          assert users[j + 1] == w[k];
        }
        UniqueCons(u, w);
      }
    }
  }

  lemma UniqueTail(users: seq<User>)
    requires |users| > 0 && UniqueUserIds(users)
    ensures UniqueUserIds(users[1..])
  {
    var rest := users[1..];
    forall i, j | 0 <= i < j < |rest| ensures rest[i].userId != rest[j].userId {
      assert rest[i] == users[i + 1] && rest[j] == users[j + 1];
    }
  }

  lemma UniqueCons(u: User, w: seq<User>)
    requires UniqueUserIds(w)
    requires forall k :: 0 <= k < |w| ==> w[k].userId != u.userId
    ensures UniqueUserIds([u] + w)
  {
    var v := [u] + w;
    forall i, j | 0 <= i < j < |v| ensures v[i].userId != v[j].userId {
      assert v[j] == w[j - 1];
      if i > 0 {
        assert v[i] == w[i - 1];
      }
    }
  }

  // ------------------------------------------------------------- handlers

  /** `getAdminDashboard`: the user list, newest account first. */
  predicate NewerAccount(a: User, b: User)
  {
    a.createdAt >= b.createdAt
  }

  function AdminDashboard(users: seq<User>, queryFails: bool): (r: Response)
    ensures queryFails ==> r == ServerError
    ensures !queryFails ==> r.UserList? && multiset(r.users) == multiset(users)
                            && SortedBy(r.users, NewerAccount)
  {
    if queryFails then ServerError else UserList(SortBy(users, NewerAccount))
  }

  /** `ORDER BY <date> DESC` (ties in no particular order). */
  predicate LaterOrSameDay(a: ListedEntry, b: ListedEntry)
  {
    !Before(a.entry.date, b.entry.date)
  }

  lemma LaterOrSameDayIsPreorder()
    ensures TotalPreorder(LaterOrSameDay)
  {
    forall a, b, c | LaterOrSameDay(a, b) && LaterOrSameDay(b, c) ensures LaterOrSameDay(a, c) {
      if Before(a.entry.date, c.entry.date) {
        assert !Before(a.entry.date, b.entry.date);
        if Before(c.entry.date, b.entry.date) {
          BeforeTransitive(a.entry.date, c.entry.date, b.entry.date);
        }
      }
    }
  }

  /** `... WHERE user_id = $1 ORDER BY <date> DESC LIMIT 20`. */
  function LatestTwenty(rows: seq<Entry>, userId: int, categories: map<int, string>): (r: seq<ListedEntry>)
    ensures |r| <= 20
    ensures |r| == if |Joined(rows, userId, categories)| < 20 then |Joined(rows, userId, categories)| else 20
    ensures SortedBy(r, LaterOrSameDay)
    ensures multiset(r) <= multiset(Joined(rows, userId, categories))
    ensures forall x :: x in r ==> x.entry in rows && x.entry.userId == userId
    ensures forall x, y :: x in r && y in Joined(rows, userId, categories) && y !in r ==> LaterOrSameDay(x, y)
  {
    LaterOrSameDayIsPreorder();
    Latest(rows, userId, categories, 20, LaterOrSameDay)
  }

  /** `getUserDetails`. */
  function GetUserDetails(users: seq<User>, expenses: seq<Entry>, incomes: seq<Entry>,
                          categories: map<int, string>, idParam: string, queryFails: bool): (r: Response)
    ensures queryFails || StatementId(ParseInt(idParam, true)).None? ==> r == ServerError
    ensures !queryFails && StatementId(ParseInt(idParam, true)).Some? ==>
              var id := ParseInt(idParam, true).value;
              && (FindUser(users, id).None? ==> r == Status(404, "User not found"))
              && (FindUser(users, id).Some? ==>
                    && r.UserDetails?
                    && r.target.userId == id
                    && (exists u :: u in users && u.userId == id && r.target ==
                          TargetUser(u.userId, u.username, u.email, u.isAdmin, u.createdAt))
                    && r.expenses == LatestTwenty(expenses, id, categories)
                    && r.incomes == LatestTwenty(incomes, id, categories))
  {
    var id := StatementId(ParseInt(idParam, true));
    if queryFails || id.None? then ServerError
    else
      match FindUser(users, id.value)
      case None => Status(404, "User not found")
      case Some(u) =>
        UserDetails(TargetUser(u.userId, u.username, u.email, u.isAdmin, u.createdAt),
                    LatestTwenty(expenses, id.value, categories), LatestTwenty(incomes, id.value, categories))
  }

  /**
   * `toggleActive`. Its statement is not inside a try block, so a failed
   * statement leaves the request without a response.
   */
  method ToggleActive(db: Database, actingUserId: int, idParam: string, queryFails: bool)
    returns (response: Response)
    requires db.Valid()
    modifies db`users
    ensures db.Valid()
    ensures var target := ParseInt(idParam, true);
            && (target == Some(actingUserId) ==>
                  response == Status(400, "You cannot disable your own account.") && db.users == old(db.users))
            && (target != Some(actingUserId) && (queryFails || StatementId(target).None?) ==>
                  response == Unhandled && db.users == old(db.users))
            && (target != Some(actingUserId) && !queryFails && StatementId(target).Some? ==>
                  response == Redirect("/admin") && db.users == FlipActive(old(db.users), target.value))
  {
    var target := ParseInt(idParam, true);
    if target == Some(actingUserId) {
      return Status(400, "You cannot disable your own account.");
    }
    var id := StatementId(target);
    if queryFails || id.None? {
      return Unhandled;
    }
    FlipsKeepTable(db.users, id.value);
    db.users := FlipActive(db.users, id.value);
    response := Redirect("/admin");
  }

  /** `toggleAdmin`. */
  method ToggleAdmin(db: Database, actingUserId: int, idParam: string, queryFails: bool)
    returns (response: Response)
    requires db.Valid()
    modifies db`users
    ensures db.Valid()
    ensures var target := ParseInt(idParam, true);
            && (target == Some(actingUserId) ==>
                  response == Status(400, "You cannot change your own admin status.") && db.users == old(db.users))
            && (target != Some(actingUserId) && (queryFails || StatementId(target).None?) ==>
                  response == ServerError && db.users == old(db.users))
            && (target != Some(actingUserId) && !queryFails && StatementId(target).Some? ==>
                  response == Redirect("/admin") && db.users == FlipAdmin(old(db.users), target.value))
  {
    var target := ParseInt(idParam, true);
    if target == Some(actingUserId) {
      return Status(400, "You cannot change your own admin status.");
    }
    var id := StatementId(target);
    if queryFails || id.None? {
      return ServerError;
    }
    FlipsKeepTable(db.users, id.value);
    db.users := FlipAdmin(db.users, id.value);
    response := Redirect("/admin");
  }

  /** `deleteUser`: the user row and, by cascade, every row that carries the user's id. */
  method DeleteUser(db: Database, actingUserId: int, idParam: string, queryFails: bool)
    returns (response: Response)
    requires db.Valid()
    modifies db`users, db`expenses, db`incomes, db`subscriptions, db`installments, db`summaries
    ensures db.Valid()
    ensures var target := ParseInt(idParam, true);
            var deleted := !queryFails && target != Some(actingUserId) && StatementId(target).Some?;
            && (target == Some(actingUserId) ==> response == Status(400, "You cannot delete your own account."))
            && (target != Some(actingUserId) && !deleted ==> response == ServerError)
            && (!deleted ==> db.users == old(db.users) && db.expenses == old(db.expenses)
                             && db.incomes == old(db.incomes) && db.subscriptions == old(db.subscriptions)
                             && db.installments == old(db.installments) && db.summaries == old(db.summaries))
            && (deleted ==>
                  var id := target.value;
                  && response == Redirect("/admin")
                  && db.users == WithoutUser(old(db.users), id)
                  && db.expenses == CascadeEntries(old(db.expenses), id)
                  && db.incomes == CascadeEntries(old(db.incomes), id)
                  && db.subscriptions == CascadeSubscriptions(old(db.subscriptions), id)
                  && db.installments == CascadeInstallments(old(db.installments), id)
                  && db.summaries == CascadeSummaries(old(db.summaries), id))
  {
    var target := ParseInt(idParam, true);
    if target == Some(actingUserId) {
      return Status(400, "You cannot delete your own account.");
    }
    var id := StatementId(target);
    if queryFails || id.None? {
      return ServerError;
    }
    CascadeKeepsValid(db.users, db.expenses, db.nextExpenseId, db.incomes, db.nextIncomeId, id.value);
    RemoveUser(db, id.value);
    response := Redirect("/admin");
  }

  /**
   * `DELETE FROM users WHERE user_id = id` with its cascade; that it keeps
   * every key unique is `CascadeKeepsValid`.
   */
  method RemoveUser(db: Database, id: int)
    modifies db`users, db`expenses, db`incomes, db`subscriptions, db`installments, db`summaries
    ensures db.users == WithoutUser(old(db.users), id)
    ensures db.expenses == CascadeEntries(old(db.expenses), id)
    ensures db.incomes == CascadeEntries(old(db.incomes), id)
    ensures db.subscriptions == CascadeSubscriptions(old(db.subscriptions), id)
    ensures db.installments == CascadeInstallments(old(db.installments), id)
    ensures db.summaries == CascadeSummaries(old(db.summaries), id)
  {
    db.users := WithoutUser(db.users, id);
    db.expenses := CascadeEntries(db.expenses, id);
    db.incomes := CascadeEntries(db.incomes, id);
    db.subscriptions := CascadeSubscriptions(db.subscriptions, id);
    db.installments := CascadeInstallments(db.installments, id);
    db.summaries := CascadeSummaries(db.summaries, id);
  }

  /** No action of the admin controller changes the acting admin's own row. */
  lemma ActionsSpareSelf(users: seq<User>, actingUserId: int, idParam: string)
    requires ParseInt(idParam, true).Some? && ParseInt(idParam, true).value != actingUserId
    ensures var id := ParseInt(idParam, true).value;
            && FindUser(FlipActive(users, id), actingUserId) == FindUser(users, actingUserId)
            && FindUser(FlipAdmin(users, id), actingUserId) == FindUser(users, actingUserId)
            && FindUser(WithoutUser(users, id), actingUserId) == FindUser(users, actingUserId)
  {
    var id := ParseInt(idParam, true).value;
    SpareOther(users, id, actingUserId);
  }

  lemma {:induction false} SpareOther(users: seq<User>, id: int, other: int)
    requires id != other
    ensures FindUser(FlipActive(users, id), other) == FindUser(users, other)
    ensures FindUser(FlipAdmin(users, id), other) == FindUser(users, other)
    ensures FindUser(WithoutUser(users, id), other) == FindUser(users, other)
  {
    if |users| > 0 {
      SpareOther(users[1..], id, other);
      assert FlipActive(users, id)[1..] == FlipActive(users[1..], id);
      assert FlipAdmin(users, id)[1..] == FlipAdmin(users[1..], id);
      if FindUser(users, other).Some? {
        assert FindUser(users, other).value in WithoutUser(users, id);
      }
    }
  }
}
