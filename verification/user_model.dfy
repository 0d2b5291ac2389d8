/**
 * The `User` record: a Telegram chat identifier and the internal identifier
 * the database assigns.  Serialising a user sends only the chat identifier,
 * so a round trip through a dictionary forgets the internal identifier.
 */
module UserModel {
  import opened Wrappers
  import opened PyValues

  datatype User = User(id: Value, telegramId: Value)

  /** `User(telegram_id, id=None)`: both fields stored as given, `id` absent by default. */
  function NewUser(telegramId: Value, id: Value := Null): (u: User)
    ensures u.telegramId == telegramId
    ensures u.id == id
  {
    User(id, telegramId)
  }

  /** `to_dict()`: the row sent for storage holds the chat identifier and nothing else. */
  function ToDict(u: User): (row: Row)
    ensures row.Keys == {"telegram_id"}
    ensures "id" !in row
    ensures row["telegram_id"] == u.telegramId
  {
    map["telegram_id" := u.telegramId]
  }

  /**
   * `User.from_dict(data)`: no user for a missing or empty dictionary;
   * otherwise each field is read with `.get`, so a missing key gives None.
   */
  function FromDict(data: Option<Row>): (r: Option<User>)
    ensures r.None? <==> data.None? || data.value == map[]
    ensures r.Some? ==> ("id" in data.value ==> r.value.id == data.value["id"])
    ensures r.Some? ==> ("id" !in data.value ==> r.value.id == Null)
    ensures r.Some? ==> ("telegram_id" in data.value ==> r.value.telegramId == data.value["telegram_id"])
    ensures r.Some? ==> ("telegram_id" !in data.value ==> r.value.telegramId == Null)
  {
    if data.None? || data.value == map[] then None
    else Some(NewUser(id := Get(data.value, "id"), telegramId := Get(data.value, "telegram_id")))
  }

  /** Reading back a serialised user keeps the chat identifier and loses the internal one. */
  lemma RoundTrip(u: User)
    ensures FromDict(Some(ToDict(u))) == Some(User(Null, u.telegramId))
  {
    assert ToDict(u) != map[] by { assert "telegram_id" in ToDict(u); }
  }

  /** Serialising is stable under a round trip: the row sent is the same the second time. */
  lemma SerialisationStable(u: User)
    ensures ToDict(FromDict(Some(ToDict(u))).value) == ToDict(u)
  {
    RoundTrip(u);
  }
}
