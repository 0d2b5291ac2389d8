# BotService message pipeline, modelled in Dafny

BotService is the back end of a Telegram expense bot. A connector forwards each chat message as a JSON body `{telegram_id, message}` to `/process-message`. The handler validates the body and then checks for the registration phrase "Quiero registrarme a la aplicacion". The phrase registers an unregistered chat, and a failed insert gives a 500. For a chat that is already registered, the phrase is answered "already registered". Any other text from an unregistered chat gets onboarding instructions. Any other text from a registered chat goes to a language-model completion service, which decides whether it describes an expense. When it does not, the handler stays silent. When it does, the handler stores an expense row (user, description, amount, category, creation time) and replies "`<category>` expense added ✅". A user row without an internal id gets 404 "User not found" instead.

The model covers:

- `UserModel`, `ExpenseModel`: the `User` and `Expense` records, their serialisation to rows and back, and what a round trip loses.
- `ExpenseParser`: how the completion service's reply is cut down to the JSON text handed to `json.loads`, covering code fences with and without the `json` tag. Also how the parsed object becomes an expense, with the default fields.
- `MessageController`: the request handler as a class. Its state is the user table (chat identifier to internal identifier), the expense table (rows in insertion order) and a ghost log of the messages sent to the completion service.
- `PyValues`, `PyStrings`: the pieces of Python the code relies on. These are truthiness, `dict.get`, `str()` in f-strings, the text of an `AttributeError`, `datetime.isoformat()`, `strip`, `lower`, `in` and `split`. `join` is modelled only as the inverse of `split`, for the `JoinSplit` lemma.

Things outside the process are parameters:
- the completion service's reply (`None` when the call fails);
- `json.loads` (a function returning `None` when it raises);
- the identifier the database assigns to a new user (`None` when the insert fails);
- whether the expense insert is accepted;
- the current time.

How the handler treats its inputs:

- The amount the completion service returns is stored unchanged.
- Only the exact registration phrase registers a chat, after `lower()` and `strip()`. Any other text from an unregistered chat gets the onboarding reply with `should_respond` true.
- The repository swallows a rejected expense insert. The reply still says the expense was added.

## Model

| member | source | states |
|---|---|---|
| UserModel.NewUser | models/user.py:7-9 | both fields are stored as given; the internal id defaults to None |
| UserModel.ToDict | models/user.py:14-20 | the row holds exactly the key `telegram_id`, with the chat id; never the internal id |
| UserModel.FromDict | models/user.py:27-33 | None exactly for a missing or empty dict; otherwise each field is the `.get` value, None when the key is absent |
| UserModel.RoundTrip | models/user.py:14-33 | reading back a serialised user keeps the chat id and loses the internal id |
| UserModel.SerialisationStable | models/user.py:14-33 | after one round trip, serialising gives the same row again |
| ExpenseModel.NewExpense | models/expense.py:7-13 | every field is stored as given, except a falsy `added_at`, which becomes the current time; the result always has a truthy creation time |
| ExpenseModel.SerialiseAddedAt | models/expense.py:27 | a datetime becomes its ISO text, anything else passes through; truthiness is preserved and no datetime remains |
| ExpenseModel.ToDict | models/expense.py:18-28 | the row has exactly the five keys user_id, description, amount, category, added_at, with the expense's values; never the id |
| ExpenseModel.FromDict | models/expense.py:30-45 | None exactly for a missing or empty dict; fields come from `.get`, and a missing or falsy `added_at` becomes the current time |
| ExpenseModel.RoundTrip | models/expense.py:18-45 | a round trip keeps user, description, amount and category, loses the id, and turns a datetime into its ISO text |
| ExpenseModel.SerialisationStable | models/expense.py:18-45 | after one round trip, serialising gives the same row again |
| ExpenseModel.ToDictDeterminesExpense | models/expense.py:18-28 | two datetime-stamped expenses with equal rows agree on every field but the id |
| PyValues.IsoFormat | models/expense.py:27 | `isoformat()` text is 19 characters long, or 26 with microseconds |
| PyValues.IsoFormatLayout | models/expense.py:27 | each date and time field sits zero-padded at its fixed position in the ISO text |
| PyValues.IsoFormatInjective | models/expense.py:27 | the ISO text determines the datetime |
| PyValues.Truthy | controllers/message_controller.py:54-64 | a value is false exactly when it is None, False, a zero, or an empty string, list or dict; this is the test behind every `not x` of the handler |
| PyValues.Get | controllers/message_controller.py:59-60 | `dict.get`: the stored value when the key is present, otherwise the default, which is None unless given |
| PyValues.AttributeErrorText | controllers/message_controller.py:180-182 | the text `str(e)` gives for an AttributeError: `'<type name>' object has no attribute '<attribute>'` |
| PyValues.PyStr | controllers/message_controller.py:162 | `str()` as an f-string applies it: exact for None, booleans, integers and strings |
| PyStrings.Lower | controllers/message_controller.py:73 | `lower()` keeps the length and folds each character on its own: ASCII capitals become lower case, every other character is kept |
| PyStrings.Strip | controllers/message_controller.py:211-215 | `strip()` returns an infix whose removed ends are all whitespace and whose own ends are not |
| PyStrings.StripPadded | controllers/message_controller.py:211-215 | any whitespace around a trimmed text is removed exactly |
| PyStrings.StripIgnoresPadding | controllers/message_controller.py:73 | extra whitespace at either end does not change `strip()` |
| PyStrings.StripIdempotent | controllers/message_controller.py:211-215 | stripping twice is stripping once |
| PyStrings.LowerStripCommute | controllers/message_controller.py:73 | `lower()` then `strip()` equals `strip()` then `lower()` |
| PyStrings.Find | controllers/message_controller.py:210-212 | finds the leftmost occurrence, or reports that there is none |
| PyStrings.Contains | controllers/message_controller.py:210-212 | `pat in s` holds exactly when `pat` occurs at some index |
| PyStrings.Split | controllers/message_controller.py:211-213 | there are at least two pieces exactly when the separator occurs; the first piece is the text before the first occurrence; no piece contains the separator |
| PyStrings.JoinSplit | controllers/message_controller.py:211-213 | joining the pieces with the separator gives back the text |
| ExpenseParser.ExtractJson | controllers/message_controller.py:210-215 | the text handed to `json.loads` is trimmed and never contains a fence, and Dafny's bounds check on `Split(...)[1]` shows the `[1]` index is always in range |
| ExpenseParser.ExtractTagged | controllers/message_controller.py:210-211 | tagged branch: the text after the first "```json", up to the next fence, or to a second "```json" that starts one or two characters after that fence |
| ExpenseParser.ExtractUntagged | controllers/message_controller.py:212-213 | untagged branch: the text between the first two fences, or to the end |
| ExpenseParser.ExtractBare | controllers/message_controller.py:214-215 | a reply without a fence is only stripped |
| ExpenseParser.TaggedBlock | controllers/message_controller.py:210-211 | prose, a "```json" block and a closing fence not followed by a backtick yield exactly the trimmed block body |
| ExpenseParser.UntaggedBlock | controllers/message_controller.py:212-213 | prose and a plain fenced block yield exactly the trimmed block body |
| ExpenseParser.BareReply | controllers/message_controller.py:214-215 | a reply without backticks is parsed whole, after trimming |
| ExpenseParser.TaggedStrayBacktick | controllers/message_controller.py:210-211 | a second tag written with four backticks leaves a stray backtick in the text parsed |
| ExpenseParser.ToExpenseData | controllers/message_controller.py:225-233 | an expense exactly when the object is a dict with a truthy `is_expense`; present fields are copied, absent ones become "Unknown expense", 0 or "Other" |
| ExpenseParser.ParseExpense | controllers/message_controller.py:192-239 | an expense exactly when there was a reply, its extracted text parsed, and the object is an expense; every failure is "no expense" |
| MessageController.ErrorResponse | controllers/message_controller.py:143-146 | an error reply: the given status, `success` false, the `error` text and no other key (the shape of lines 56, 64, 102-105 and 182 as well) |
| MessageController.AlreadyRegistered | controllers/message_controller.py:79-86 | status 200, `success`, the request's chat id and text, `user_whitelisted` and `should_respond` true, and "Usted ya está registrado en la aplicación." |
| MessageController.Welcome | controllers/message_controller.py:92-99 | status 200, `success`, the request's chat id and text, `user_whitelisted` and `should_respond` true, and the welcome text |
| MessageController.Onboarding | controllers/message_controller.py:114-122 | status 200, `success`, the request's chat id and text, `user_whitelisted` and `expense_created` false, `should_respond` true, and the instruction to send the registration phrase |
| MessageController.NotAnExpense | controllers/message_controller.py:130-137 | status 200, `success`, the request's chat id and text, `user_whitelisted` true, `expense_created` and `should_respond` false, and no response message |
| MessageController.ExpenseAdded | controllers/message_controller.py:169-178 | status 200, `success`, the request's chat id and text, `user_whitelisted`, `expense_created` and `should_respond` true, the extracted expense data and the confirmation text |
| MessageController.ExpenseAddedText | controllers/message_controller.py:162 | the confirmation: the category as an f-string renders it, followed by " expense added ✅" |
| MessageController.ReadRequest | controllers/message_controller.py:51-64 | falsy body gives 400 "No data received"; a non-dict body gives 500 with the `.get` AttributeError text; a falsy id or message gives 400 "Missing required data"; a non-string message gives 500 with the `.lower` AttributeError text; otherwise the request |
| MessageController.IsRegistrationRequest | controllers/message_controller.py:73 | the message, trimmed and case-folded, equals "quiero registrarme a la aplicacion" |
| MessageController.RegistrationTestOrder | controllers/message_controller.py:73 | the registration test as written (`lower().strip()`) is the model's predicate |
| MessageController.RegistrationIgnoresPadding | controllers/message_controller.py:73 | whitespace around the message does not change whether it is the registration phrase |
| MessageController.ExpenseRow | controllers/message_controller.py:150-159 | the stored row carries the user's internal id, the extracted description, amount and category, and the ISO text of the current time |
| MessageController.ConfirmationNamesCategory | controllers/message_controller.py:162 | the confirmation starts with the category as rendered, and equal confirmations name the same category |
| MessageController.MessageProcessor.constructor | controllers/message_controller.py:17-19 | the handler starts from the given tables, which satisfy the invariant |
| MessageController.MessageProcessor.Register | controllers/message_controller.py:73-105 | a known chat gets "already registered" with nothing changed; a failed insert gives 500 "Error al registrar el usuario" with nothing changed; otherwise exactly that chat is added and the welcome text returned |
| MessageController.MessageProcessor.RecordExpense | controllers/message_controller.py:124-178 | the completion service is asked once; no expense gives success with `should_respond` false and no write; a user without id gives 404 "User not found"; otherwise the reply confirms the category and exactly one row is appended when the insert is accepted; the reply does not depend on the insert |
| MessageController.MessageProcessor.ProcessMessage | controllers/message_controller.py:43-182 | every request ends in exactly one branch of the cascade: invalid input changes nothing and never reaches the completion service; the registration phrase goes to `Register`; an unregistered chat gets the onboarding reply with no store change and no completion call; a registered chat goes to `RecordExpense`. Every row keeps a registered, truthy owner; registrations are never lost; at most one row is appended, only with a confirmation; success holds exactly for status 200 |
| MessageController.RegisterTwice | controllers/message_controller.py:73-105 | once the phrase has succeeded, sending it again answers "already registered" and leaves the user table as it was |
| MessageController.MessageBodyIsRequest | controllers/message_controller.py:51-64 | a body with a truthy chat id and a non-empty text is read as that request |
| MessageController.ShortTextIsNotRegistration | controllers/message_controller.py:73 | a text shorter than the phrase never registers |
| MessageController.TaxiExpense | controllers/message_controller.py:124-178 | "Taxi $20" from a registered chat, with a Transportation expense returned, stores that expense and replies "Transportation expense added ✅" |
| MessageController.HelloIsIgnored | controllers/message_controller.py:124-137 | "hello" from a registered chat, judged not an expense, gets no reply and writes nothing |

## Left out

- The completion service and the prompt (`EXPENSE_PROMPT`, the model settings, the network call) are not part of this model. The service's answer is a parameter.
- `json.loads` is a parameter. JSON syntax and the values it produces are not modelled.
- Supabase persistence is reduced to its outcome. The user table is a map keyed by chat id, and an insert either yields an identifier or fails. The expense table is a sequence, and an insert is accepted or rejected. Read failures in the repositories are not modelled. `get_by_telegram_id` catches every exception and returns None (repositories/user_repository.py:22-24), and `user_exists` then answers False (lines 44-49 of the same file). So a failed read makes a registered chat look unregistered: the phrase would try to register it again, and any other text would get the onboarding reply.
- The second user lookup (controllers/message_controller.py:140) reads the same table as the first, and always succeeds in the model. In the code, a read failure there, or a concurrent delete, makes `get_user` return None, and a chat whose user has an id gets 404 "User not found". The model cannot produce that path. It reaches the 404 only for a stored user without an id.
- The Flask wiring is left out: `home`, `health`, the root-level forwarder `root_process_message`, the blueprints, and the authentication middleware. `request.json` failing on a non-JSON content type is left out too.
- Configuration, the database client and logging (`print`) are left out.
- PyStrings.Lower: folds ASCII letters only; Python's `lower()` also folds other Unicode letters. This is exact for the registration test at controllers/message_controller.py:73. Only two non-ASCII characters lower to text containing ASCII: U+212A (Kelvin sign) becomes "k", which the phrase does not contain, and U+0130 becomes "i" followed by U+0307, which is not ASCII. So a text matches the phrase in Python exactly when it matches in the model. For other non-ASCII text the folded result differs, but no other part of the handler depends on it.
- PyValues.PyStr: exact for None, booleans, integers and strings; floats, lists, dicts and datetimes get stand-in texts. So the confirmation text for such a category is not the exact Python rendering.
- Floating-point amounts are exact reals; NaN and infinities are not represented.
- `Expense.__str__` and `User.__str__` only feed log lines and are not modelled.
- Concurrency between requests is not modelled; each request runs to completion on the current tables.
