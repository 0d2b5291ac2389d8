/**
 * The `/process-message` handler: one inbound `(telegram_id, message)`
 * request runs down an early-return cascade and ends in exactly one reply.
 *
 *   no body                         -> 400 "No data received"
 *   no chat id or no message        -> 400 "Missing required data"
 *   the registration phrase         -> "already registered", or the user is created
 *   a user not yet registered       -> the onboarding text
 *   not an expense                  -> silence
 *   the user's record has no id     -> 404 "User not found"
 *   otherwise                       -> the expense is stored, "<category> expense added ✅"
 *
 * The user table and the expense table are the object's state: the first
 * maps a chat identifier to the internal identifier of its row, the second
 * holds the rows written, in order.  What the outside world decides is
 * passed in: the completion service's reply, `json.loads`, the identifier
 * the database assigns to a new user (None when the insert fails), whether
 * the expense insert succeeds, and the current time.
 *
 * Line numbers in the comments refer to controllers/message_controller.py.
 */
module MessageController {
  import opened Wrappers
  import opened PyValues
  import opened PyStrings
  import ExpenseModel
  import opened ExpenseParser

  const RegistrationPhrase: string := "quiero registrarme a la aplicacion"
  const NoDataText: string := "No data received"
  const MissingDataText: string := "Missing required data"
  const AlreadyRegisteredText: string := "Usted ya est\U{E1} registrado en la aplicaci\U{F3}n."
  const WelcomeText: string := "Usted se ha registrado con \U{E9}xito. Ya puede comenzar a utilizar el bot."
  const RegistrationErrorText: string := "Error al registrar el usuario"
  const OnboardingText: string :=
    "Para utilizar el bot, primero debe registrarse enviando el mensaje 'Quiero registrarme a la aplicacion'"
  const UserNotFoundText: string := "User not found"
  const ExpenseAddedSuffix: string := " expense added \U{2705}"

  /** The JSON reply and its HTTP status; an absent key is None. */
  datatype Response = Response(
    status: int,
    success: bool,
    error: Option<string>,
    telegramId: Option<Value>,
    message: Option<string>,
    userWhitelisted: Option<bool>,
    expenseCreated: Option<bool>,
    shouldRespond: Option<bool>,
    responseMessage: Option<string>,
    expenseData: Option<ExpenseData>)

  /** A validated request: a truthy chat identifier and a non-empty message text. */
  datatype Request = Request(telegramId: Value, message: string)

  function ErrorResponse(status: int, error: string): Response {
    Response(status, false, Some(error), None, None, None, None, None, None, None)
  }

  function AlreadyRegistered(req: Request): Response {
    Response(200, true, None, Some(req.telegramId), Some(req.message), Some(true), None, Some(true),
             Some(AlreadyRegisteredText), None)
  }

  function Welcome(req: Request): Response {
    Response(200, true, None, Some(req.telegramId), Some(req.message), Some(true), None, Some(true),
             Some(WelcomeText), None)
  }

  function Onboarding(req: Request): Response {
    Response(200, true, None, Some(req.telegramId), Some(req.message), Some(false), Some(false), Some(true),
             Some(OnboardingText), None)
  }

  function NotAnExpense(req: Request): Response {
    Response(200, true, None, Some(req.telegramId), Some(req.message), Some(true), Some(false), Some(false),
             None, None)
  }

  /** The confirmation text: the category as an f-string renders it, then " expense added ✅". */
  function ExpenseAddedText(category: Value): string {
    PyStr(category) + ExpenseAddedSuffix
  }

  /** Line 162: the confirmation names the category, and two equal confirmations name the same one. */
  lemma ConfirmationNamesCategory(c1: Value, c2: Value)
    ensures ExpenseAddedText(c1)[..|PyStr(c1)|] == PyStr(c1)
    ensures ExpenseAddedText(c1) == ExpenseAddedText(c2) ==> PyStr(c1) == PyStr(c2)
  {
    var t1, t2 := ExpenseAddedText(c1), ExpenseAddedText(c2);
    if t1 == t2 {
      assert |PyStr(c1)| == |PyStr(c2)|;
      assert t1[..|PyStr(c1)|] == PyStr(c1);
      assert t2[..|PyStr(c2)|] == PyStr(c2);
    }
  }

  function ExpenseAdded(req: Request, data: ExpenseData): Response {
    Response(200, true, None, Some(req.telegramId), Some(req.message), Some(true), Some(true), Some(true),
             Some(ExpenseAddedText(data.category)), Some(data))
  }

  /**
   * Lines 51-64 and the `.lower()` of line 73: a falsy body is "No data
   * received"; a truthy body that is not a dictionary has no `.get` and
   * ends in the catch-all 500 with Python's error text; a falsy chat id or
   * message is "Missing required data"; a truthy message that is not a
   * string has no `.lower` and also ends in the catch-all 500.  Everything
   * else is a request.
   */
  function ReadRequest(body: Value): (r: Result<Request, Response>)
    ensures !Truthy(body) ==> r == Err(ErrorResponse(400, NoDataText))
    ensures Truthy(body) && !body.Dict? ==> r == Err(ErrorResponse(500, AttributeErrorText(body, "get")))
    ensures Truthy(body) && body.Dict? ==>
              var id, msg := Get(body.entries, "telegram_id"), Get(body.entries, "message");
              && (!Truthy(id) || !Truthy(msg) ==> r == Err(ErrorResponse(400, MissingDataText)))
              && (Truthy(id) && Truthy(msg) && !msg.Str? ==> r == Err(ErrorResponse(500, AttributeErrorText(msg, "lower"))))
              && (Truthy(id) && Truthy(msg) && msg.Str? ==> r == Ok(Request(id, msg.s)))
    ensures r.Ok? ==> Truthy(r.value.telegramId) && |r.value.message| > 0
    ensures r.Err? ==> !r.error.success && r.error.status in {400, 500}
  {
    if !Truthy(body) then Err(ErrorResponse(400, NoDataText))
    else if !body.Dict? then Err(ErrorResponse(500, AttributeErrorText(body, "get")))
    else
      var id, msg := Get(body.entries, "telegram_id"), Get(body.entries, "message");
      if !Truthy(id) || !Truthy(msg) then Err(ErrorResponse(400, MissingDataText))
      else if !msg.Str? then Err(ErrorResponse(500, AttributeErrorText(msg, "lower")))
      else Ok(Request(id, msg.s))
  }

  /**
   * Line 73: the message, trimmed and case-folded, is the registration
   * phrase.  The source folds case first and trims second;
   * `RegistrationTestOrder` shows the two orders agree.
   */
  predicate IsRegistrationRequest(message: string) {
    Lower(Strip(message)) == RegistrationPhrase
  }

  /** The test as line 73 writes it, `message.lower().strip()`, is this predicate. */
  lemma RegistrationTestOrder(message: string)
    ensures IsRegistrationRequest(message) <==> Strip(Lower(message)) == RegistrationPhrase
  {
    LowerStripCommute(message);
  }

  /** Whitespace around the message does not change the outcome of the test. */
  lemma RegistrationIgnoresPadding(p: string, message: string, q: string)
    requires AllSpace(p) && AllSpace(q)
    ensures IsRegistrationRequest(p + message + q) <==> IsRegistrationRequest(message)
  {
    StripIgnoresPadding(p, message, q);
  }

  /** Lines 150-159: the row written for a new expense, as `Expense(...).to_dict()` builds it at time `now`. */
  function ExpenseRow(userId: Value, data: ExpenseData, now: DateTime): (row: Row)
    ensures row.Keys == ExpenseModel.RowKeys
    ensures row["user_id"] == userId
    ensures row["description"] == data.description && row["amount"] == data.amount
    ensures row["category"] == data.category
    ensures row["added_at"] == Str(IsoFormat(now))
  {
    ExpenseModel.ToDict(ExpenseModel.NewExpense(now, userId, data.description, data.amount, data.category,
                                                addedAt := Time(now)))
  }

  /**
   * What the handler keeps true of the tables: every expense row has the
   * serialised shape and belongs to a registered user through that user's
   * (truthy) internal identifier.
   */
  ghost predicate ValidStores(users: map<Value, Value>, expenses: seq<Row>) {
    forall i :: 0 <= i < |expenses| ==>
      && expenses[i].Keys == ExpenseModel.RowKeys
      && Truthy(expenses[i]["user_id"])
      && expenses[i]["user_id"] in users.Values
  }

  /** Registering a new chat identifier keeps every existing internal identifier. */
  lemma ValuesGrow(m: map<Value, Value>, k: Value, v: Value)
    requires k !in m
    ensures m.Values <= m[k := v].Values
  {
    forall x | x in m.Values ensures x in m[k := v].Values {
      var t :| t in m && m[t] == x;
      assert m[k := v][t] == x;
    }
  }

  class MessageProcessor {
    /** The user table: chat identifier -> internal identifier (None when the row has none). */
    var users: map<Value, Value>
    /** The expense table: the rows inserted, oldest first. */
    var expenses: seq<Row>
    /** The messages sent to the completion service, in order. */
    ghost var completionLog: seq<string>

    ghost predicate Valid()
      reads this
    {
      ValidStores(users, expenses)
    }

    constructor (users0: map<Value, Value>, expenses0: seq<Row>)
      requires ValidStores(users0, expenses0)
      ensures Valid()
      ensures users == users0 && expenses == expenses0 && completionLog == []
    {
      users := users0;
      expenses := expenses0;
      completionLog := [];
    }

    /**
     * What the registration branch (lines 73-105) does for `req`: a known
     * chat is told it is already registered; otherwise the user row is
     * created with the identifier the database assigns (`createdId`), or,
     * when the insert fails, the reply is the 500 registration error.  The
     * completion service is never asked and no expense is written.
     */
    twostate predicate RegistrationHandled(req: Request, createdId: Option<Value>, resp: Response)
      reads this
    {
      if req.telegramId in old(users) then resp == AlreadyRegistered(req) && unchanged(this)
      else if createdId.None? then resp == ErrorResponse(500, RegistrationErrorText) && unchanged(this)
      else
        && resp == Welcome(req)
        && users == old(users)[req.telegramId := createdId.value]
        && expenses == old(expenses) && completionLog == old(completionLog)
    }

    /**
     * What the expense branch (lines 125-178) does for a registered chat:
     * the message goes to the completion service once; no expense means
     * silence; a user row without an identifier means 404; otherwise the
     * reply confirms the category, and the row is appended when the insert
     * is accepted.  The user table is not touched.
     */
    twostate predicate ExpenseHandled(req: Request, reply: Option<string>, loads: string -> Option<Value>,
                                      insertOk: bool, now: DateTime, resp: Response)
      reads this
    {
      && req.telegramId in old(users)
      && users == old(users)
      && completionLog == old(completionLog) + [req.message]
      && match ParseExpense(reply, loads)
         case None => resp == NotAnExpense(req) && expenses == old(expenses)
         case Some(data) =>
           var userId := old(users)[req.telegramId];
           if !Truthy(userId) then
             resp == ErrorResponse(404, UserNotFoundText) && expenses == old(expenses)
           else
             && resp == ExpenseAdded(req, data)
             && expenses == old(expenses) + (if insertOk then [ExpenseRow(userId, data, now)] else [])
    }

    /**
     * What every request keeps, whichever branch it takes: only a 200 reply
     * is a success; no registration is lost or altered; at most one expense
     * row is appended, only behind a confirmation, and earlier rows stay as
     * they were; the completion service is asked at most once.
     */
    twostate predicate RequestInvariant(resp: Response)
      reads this
    {
      && (resp.success <==> resp.status == 200)
      && old(users).Keys <= users.Keys
      && (forall t :: t in old(users) ==> users[t] == old(users)[t])
      && |old(expenses)| <= |expenses| <= |old(expenses)| + 1
      && expenses[..|old(expenses)|] == old(expenses)
      && (expenses != old(expenses) ==> resp.expenseCreated == Some(true))
      && |old(completionLog)| <= |completionLog| <= |old(completionLog)| + 1
    }

    /** Lines 73-105: the registration phrase. */
    method Register(req: Request, createdId: Option<Value>) returns (resp: Response)
      requires Valid()
      modifies this
      ensures Valid()
      ensures RegistrationHandled(req, createdId, resp)
      ensures RequestInvariant(resp)
    {
      if req.telegramId in users {
        return AlreadyRegistered(req);
      }
      if createdId.None? {
        return ErrorResponse(500, RegistrationErrorText);
      }
      ValuesGrow(users, req.telegramId, createdId.value);
      users := users[req.telegramId := createdId.value];
      return Welcome(req);
    }

    /** Lines 125-178: free text from a registered chat. */
    method RecordExpense(req: Request, reply: Option<string>, loads: string -> Option<Value>,
                         insertOk: bool, now: DateTime)
      returns (resp: Response)
      requires Valid() && req.telegramId in users
      modifies this
      ensures Valid()
      ensures ExpenseHandled(req, reply, loads, insertOk, now, resp)
      ensures RequestInvariant(resp)
    {
      completionLog := completionLog + [req.message];
      var data := ParseExpense(reply, loads);
      if data.None? {
        return NotAnExpense(req);
      }

      var userId := users[req.telegramId];
      if !Truthy(userId) {
        return ErrorResponse(404, UserNotFoundText);
      }

      if insertOk {
        var row := ExpenseRow(userId, data.value, now);
        assert row["user_id"] in users.Values;
        expenses := expenses + [row];
      }
      resp := ExpenseAdded(req, data.value);
    }

    /**
     * `process_message` (lines 43-182).  `reply` is what the completion
     * service answers for this message (None: the call failed); `loads` is
     * `json.loads`; `createdId` is the identifier the database gives a new
     * user (None: the insert failed); `insertOk` says whether the expense
     * insert is accepted (the repository swallows a failure, so the reply
     * does not depend on it); `now` is the clock.
     */
    method ProcessMessage(body: Value, reply: Option<string>, loads: string -> Option<Value>,
                          createdId: Option<Value>, insertOk: bool, now: DateTime)
      returns (resp: Response)
      requires Valid()
      modifies this
      ensures Valid()
      // Invalid input: the error reply, nothing written, no completion call.
      ensures ReadRequest(body).Err? ==> resp == ReadRequest(body).error && unchanged(this)
      // A request: the registration phrase, free text from a chat that is not
      // registered (onboarding, no completion call), or free text from a
      // registered chat.
      ensures ReadRequest(body).Ok? ==>
                var req := ReadRequest(body).value;
                if IsRegistrationRequest(req.message) then RegistrationHandled(req, createdId, resp)
                else if req.telegramId !in old(users) then resp == Onboarding(req) && unchanged(this)
                else ExpenseHandled(req, reply, loads, insertOk, now, resp)
      ensures RequestInvariant(resp)
    {
      var request := ReadRequest(body);
      if request.Err? {
        return request.error;
      }
      var req := request.value;
      if IsRegistrationRequest(req.message) {
        resp := Register(req, createdId);
      } else if req.telegramId !in users {
        resp := Onboarding(req);
      } else {
        resp := RecordExpense(req, reply, loads, insertOk, now);
      }
    }
  }

  /**
   * Sending the registration phrase twice.  The first request succeeds
   * exactly when the chat ends up registered; once it has, the second is
   * answered "already registered" and creates nothing, whatever the
   * database would have done.
   */
  method RegisterTwice(users0: map<Value, Value>, expenses0: seq<Row>, body: Value,
                       reply: Option<string>, loads: string -> Option<Value>,
                       createdId: Option<Value>, secondCreatedId: Option<Value>, insertOk: bool, now: DateTime)
    returns (first: Response, second: Response, usersBetween: map<Value, Value>, usersAfter: map<Value, Value>)
    requires ValidStores(users0, expenses0)
    requires ReadRequest(body).Ok? && IsRegistrationRequest(ReadRequest(body).value.message)
    ensures first.success <==> ReadRequest(body).value.telegramId in usersBetween
    ensures first.success ==> second == AlreadyRegistered(ReadRequest(body).value)
    ensures first.success ==> usersAfter == usersBetween
    ensures usersBetween.Keys <= users0.Keys + {ReadRequest(body).value.telegramId}
  {
    var processor := new MessageProcessor(users0, expenses0);
    first := processor.ProcessMessage(body, reply, loads, createdId, insertOk, now);
    usersBetween := processor.users;
    second := processor.ProcessMessage(body, reply, loads, secondCreatedId, insertOk, now);
    usersAfter := processor.users;
  }

  /** The body a Telegram webhook forwards: a chat identifier and a text. */
  function MessageBody(telegramId: Value, text: string): Value {
    Dict(map["telegram_id" := telegramId, "message" := Str(text)])
  }

  lemma MessageBodyIsRequest(telegramId: Value, text: string)
    requires Truthy(telegramId) && |text| > 0
    ensures ReadRequest(MessageBody(telegramId, text)) == Ok(Request(telegramId, text))
  {
    assert Get(MessageBody(telegramId, text).entries, "message") == Str(text);
  }

  /** A text shorter than the phrase cannot be a registration request. */
  lemma ShortTextIsNotRegistration(text: string)
    requires |text| < |RegistrationPhrase|
    ensures !IsRegistrationRequest(text)
  {
    assert |Lower(Strip(text))| <= |text|;
  }

  /** The completion service's answer for "Taxi $20", once parsed. */
  lemma TaxiReplyParses(reply: string, loads: string -> Option<Value>)
    requires loads(ExtractJson(reply)) == Some(Dict(map[
      "is_expense" := Bool(true), "description" := Str("Taxi"),
      "amount" := Int(20), "category" := Str("Transportation")]))
    ensures ParseExpense(Some(reply), loads) == Some(ExpenseData(Str("Taxi"), Int(20), Str("Transportation")))
  {
  }

  lemma TransportationConfirmation()
    ensures ExpenseAddedText(Str("Transportation")) == "Transportation expense added \U{2705}"
  {
  }

  /**
   * A registered user writes "Taxi $20" and the completion service answers
   * with a Transportation expense: the expense is stored for that user and
   * the reply is "Transportation expense added ✅".
   */
  method TaxiExpense(users0: map<Value, Value>, expenses0: seq<Row>, telegramId: Value,
                     reply: string, loads: string -> Option<Value>, now: DateTime)
    returns (resp: Response, expensesAfter: seq<Row>)
    requires ValidStores(users0, expenses0)
    requires Truthy(telegramId) && telegramId in users0 && Truthy(users0[telegramId])
    requires loads(ExtractJson(reply)) == Some(Dict(map[
      "is_expense" := Bool(true), "description" := Str("Taxi"),
      "amount" := Int(20), "category" := Str("Transportation")]))
    ensures resp.expenseCreated == Some(true) && resp.shouldRespond == Some(true)
    ensures resp.responseMessage == Some("Transportation expense added \U{2705}")
    ensures expensesAfter == expenses0 + [ExpenseRow(users0[telegramId],
              ExpenseData(Str("Taxi"), Int(20), Str("Transportation")), now)]
  {
    var body := MessageBody(telegramId, "Taxi $20");
    var req := Request(telegramId, "Taxi $20");
    var data := ExpenseData(Str("Taxi"), Int(20), Str("Transportation"));
    MessageBodyIsRequest(telegramId, req.message);
    ShortTextIsNotRegistration(req.message);
    TaxiReplyParses(reply, loads);
    var processor := new MessageProcessor(users0, expenses0);
    resp := processor.ProcessMessage(body, Some(reply), loads, None, true, now);
    expensesAfter := processor.expenses;
    assert resp == ExpenseAdded(req, data);
    TransportationConfirmation();
  }

  /**
   * A registered user writes "hello" and the completion service says it is
   * not an expense: no reply is sent and nothing is stored.
   */
  method HelloIsIgnored(users0: map<Value, Value>, expenses0: seq<Row>, telegramId: Value,
                        reply: string, loads: string -> Option<Value>, now: DateTime)
    returns (resp: Response, usersAfter: map<Value, Value>, expensesAfter: seq<Row>)
    requires ValidStores(users0, expenses0)
    requires Truthy(telegramId) && telegramId in users0
    requires loads(ExtractJson(reply)) == Some(Dict(map["is_expense" := Bool(false)]))
    ensures resp.success && resp.shouldRespond == Some(false) && resp.expenseCreated == Some(false)
    ensures resp.responseMessage.None?
    ensures usersAfter == users0 && expensesAfter == expenses0
  {
    var body := MessageBody(telegramId, "hello");
    var req := Request(telegramId, "hello");
    MessageBodyIsRequest(telegramId, req.message);
    ShortTextIsNotRegistration(req.message);
    var processor := new MessageProcessor(users0, expenses0);
    resp := processor.ProcessMessage(body, Some(reply), loads, None, true, now);
    usersAfter, expensesAfter := processor.users, processor.expenses;
  }
}
