/**
 * The `Expense` record.  The constructor stamps the creation time when none
 * is given; `to_dict` produces the row sent for storage (without the
 * identifier, and with a datetime turned into its ISO text); `from_dict`
 * reads a stored row back.
 */
module ExpenseModel {
  import opened Wrappers
  import opened PyValues

  datatype Expense = Expense(
    id: Value, userId: Value, description: Value, amount: Value, category: Value, addedAt: Value)

  /** The keys of a serialised expense. */
  const RowKeys: set<string> := {"user_id", "description", "amount", "category", "added_at"}

  /**
   * `Expense(user_id, description, amount, category, added_at=None, id=None)`,
   * evaluated at time `now`: every field is stored as given, except that a
   * falsy `added_at` is replaced by `now`; so the result always has a
   * creation time.
   */
  function NewExpense(now: DateTime, userId: Value, description: Value, amount: Value, category: Value,
                      addedAt: Value := Null, id: Value := Null): (e: Expense)
    ensures e.id == id && e.userId == userId && e.description == description
    ensures e.amount == amount && e.category == category
    ensures Truthy(addedAt) ==> e.addedAt == addedAt
    ensures !Truthy(addedAt) ==> e.addedAt == Time(now)
    ensures Truthy(e.addedAt)
  {
    Expense(id, userId, description, amount, category, if Truthy(addedAt) then addedAt else Time(now))
  }

  /** `added_at` as stored: a datetime becomes its ISO text, anything else is passed through. */
  function SerialiseAddedAt(v: Value): (r: Value)
    ensures v.Time? ==> r == Str(IsoFormat(v.t))
    ensures !v.Time? ==> r == v
    ensures !r.Time?
    ensures Truthy(r) == Truthy(v)
  {
    match v
    case Time(t) => Str(IsoFormat(t))
    case _ => v
  }

  /** `to_dict()`: exactly the five stored fields, never the identifier. */
  function ToDict(e: Expense): (row: Row)
    ensures row.Keys == RowKeys
    ensures "id" !in row
    ensures row["user_id"] == e.userId && row["description"] == e.description
    ensures row["amount"] == e.amount && row["category"] == e.category
    ensures row["added_at"] == SerialiseAddedAt(e.addedAt)
  {
    map["user_id" := e.userId, "description" := e.description, "amount" := e.amount,
        "category" := e.category, "added_at" := SerialiseAddedAt(e.addedAt)]
  }

  /**
   * `Expense.from_dict(data)`, evaluated at time `now`: no expense for a
   * missing or empty dictionary; otherwise each field is read with `.get`
   * (None when missing), and a missing or falsy `added_at` becomes `now`.
   */
  function FromDict(data: Option<Row>, now: DateTime): (r: Option<Expense>)
    ensures r.None? <==> data.None? || data.value == map[]
    ensures r.Some? ==> r.value.id == Get(data.value, "id") && r.value.userId == Get(data.value, "user_id")
    ensures r.Some? ==> r.value.description == Get(data.value, "description")
    ensures r.Some? ==> r.value.amount == Get(data.value, "amount") && r.value.category == Get(data.value, "category")
    ensures r.Some? ==> r.value.addedAt == if Truthy(Get(data.value, "added_at")) then data.value["added_at"] else Time(now)
  {
    if data.None? || data.value == map[] then None
    else
      var d := data.value;
      Some(NewExpense(now, id := Get(d, "id"), userId := Get(d, "user_id"), description := Get(d, "description"),
                      amount := Get(d, "amount"), category := Get(d, "category"), addedAt := Get(d, "added_at")))
  }

  /**
   * Reading back a serialised expense keeps user, description, amount and
   * category, loses the identifier, and turns a datetime into its ISO text.
   */
  lemma RoundTrip(e: Expense, now: DateTime)
    requires Truthy(e.addedAt)
    ensures FromDict(Some(ToDict(e)), now)
         == Some(Expense(Null, e.userId, e.description, e.amount, e.category, SerialiseAddedAt(e.addedAt)))
  {
    assert "user_id" in ToDict(e);
  }

  /** After one round trip, serialising gives the same row again. */
  lemma SerialisationStable(e: Expense, now: DateTime)
    requires Truthy(e.addedAt)
    ensures ToDict(FromDict(Some(ToDict(e)), now).value) == ToDict(e)
  {
    RoundTrip(e, now);
  }

  /**
   * Two expenses stamped with datetimes that serialise to the same row agree
   * on every field but the identifier: the ISO text loses no information.
   */
  lemma ToDictDeterminesExpense(e1: Expense, e2: Expense)
    requires e1.addedAt.Time? && e2.addedAt.Time?
    requires ToDict(e1) == ToDict(e2)
    ensures e1.(id := Null) == e2.(id := Null)
  {
    assert Str(IsoFormat(e1.addedAt.t)) == ToDict(e1)["added_at"];
    IsoFormatInjective(e1.addedAt.t, e2.addedAt.t);
  }
}
