# homework_bot, modelled in Dafny

A Telegram bot polls the Yandex Practicum review API every ten minutes and
tells its owner when the review status of their newest homework changes.
This project models the decision logic of `homework.py`:

- the start-up check of the three settings (`check_tokens`);
- how the API's answer is classified (`get_api_answer`);
- the shape check of the decoded answer (`check_response`);
- the formatting of a homework record (`parse_status`, with the verdict
  table `HOMEWORK_VERDICTS`);
- the main loop, over its two variables `timestamp` (the `from_date`
  cursor) and `last_message` (the last text the chat received).

The network, the messaging client and the clock are inputs. A pass of the
loop takes the API's outcome, the clock's value and what each possible send
would do. The model then says what the loop does with them.

Files:

- `errors.dfy` (module `Errors`): the exception classes as an `ErrorKind`
  and an `Error` with its `str()` text, plus `Option`, `Result`, and `Check`
  for a call that returns nothing or raises.
- `py_value.dfy` (module `PyValue`): the Python values that JSON decoding
  yields. On top of them, the built-ins the bot applies: truthiness,
  `dict.get`, `in`, `type()`, `str()`/`repr()`, and `int()` of a value. `int()`
  skips the padding CPython skips: ASCII tab, line feed, vertical tab, form
  feed, carriage return and space, and non-ASCII white space, but not the
  separators U+001C to U+001F. It also takes a sign and `_` digit groups.
- `homework.dfy` (module `Homework`): the pure functions of `homework.py`.
- `main_loop.dfy` (module `MainLoop`):
  - `Step`, one pass of `while True` as a function of the loop's state and
    the pass's inputs, and `Run`, several passes;
  - the lemmas about them;
  - the class `Poller`, which holds the two loop variables and performs the
    passes in place. Each of its methods is proved to agree with `Step`/`Run`.
    A ghost `outbox` records what the chat received, and a ghost `queries`
    records the cursor sent with each request;
  - `Launch`, which is `main`.

The model follows the code, also where a tidier policy would behave otherwise:

- The code's `check_response` does not look inside the list's elements.
- On a record that has a name, a non-empty list or dict `status` raises
  `TypeError`, because it is not hashable. An empty one is falsy, so it is
  reported as a missing status.
- A refused status message (telebot's `ApiTelegramException`) skips both the
  cursor update and the failure report.
- Any other failed send goes to the general handler.
- `last_message` changes only when a send returns normally, including the
  send of a failure report.

## Model

| member | source | states |
|---|---|---|
| `Homework.MissingAmong` | homework.py:35-38 | a name is listed exactly when it is among the names and not set (absent or empty); never more names than given |
| `Homework.MissingTokensInOrder` | homework.py:35-38 | the missing settings are exactly those of PRACTICUM_TOKEN, TELEGRAM_TOKEN, TELEGRAM_CHAT_ID that are unset, each once, in that order |
| `Homework.CheckTokens` | homework.py:32-45 | passes exactly when all three settings are set; otherwise raises TokenNotFound whose text is the fixed prefix followed by the missing names joined by ", " |
| `Homework.GetApiAnswer` | homework.py:55-67 | yields the decoded body exactly when the request answered 200 and the body decoded; a transport failure or any other status is APIError, an undecodable 200 body the decoder's error |
| `Homework.CheckResponse` | homework.py:70-82 | accepts exactly a dict whose `homeworks` is a list; in order, a non-dict is TypeError, a missing key KeyError, a non-list value TypeError; elements are not inspected |
| `Homework.ParseStatus` | homework.py:85-99 | the checks run in order (non-dict record → AttributeError, falsy status → status KeyError, falsy name → name KeyError, unhashable status → TypeError, status outside the verdict table → ValueError); success exactly for a named record with a known status, giving the sentence with the name and that status's verdict |
| `Homework.ApprovedExample` | homework.py:25-29 | an approved record named hw1 yields `Изменился статус проверки работы "hw1". ` followed by the approval verdict |
| `Homework.EmptyRecordReportsStatus` | homework.py:88-93 | a record with neither field is reported for its missing status, not its name |
| `PyValue.Lookup` | homework.py:76-78 | `key in d` fails exactly when no member has the key; a value found is stored under the key |
| `PyValue.IntOf` | homework.py:124 | `int(v)` succeeds exactly for a bool, an int or a string holding a base-10 literal; None, lists and dicts raise TypeError, other strings ValueError; an int converts to itself |
| `PyValue.SeparatorIsNotPadding` | homework.py:124 | `int(" 5")` is 5, while a `current_date` of U+001C followed by 5 raises ValueError |
| `PyValue.IntOfDisplay` | homework.py:124 | a `current_date` sent as the decimal string of an integer is read back as that integer |
| `MainLoop.AdvanceCursor` | homework.py:124 | the cursor update finishes exactly when `int(current_date)` (or the clock) converts, and the cursor then becomes that value; otherwise it raises `int()`'s own exception, which is not a Telegram error; `last_message` and the deliveries so far are kept |
| `MainLoop.Notify` | homework.py:116-124 | after the shape check, at most one message is delivered: the newest record's notification, only when it differs from `last_message`, and `last_message` becomes it, and only when its send returned normally. When that notification is new and its send succeeds, it is delivered. Only a refused send ends in the Telegram handler, carrying the refusal; any other failed send is not caught there |
| `MainLoop.TryBlock` | homework.py:113-124 | the same guarantees for the whole try block, stated of the API's answer: what is delivered is its newest record's notification after a send that returned normally, a new one whose send succeeds is delivered, and only a refused send ends in the Telegram handler |
| `MainLoop.Report` | homework.py:128-134 | the general handler delivers the report of the exception exactly when the report differs from `last_message` and its send succeeds, and otherwise nothing |
| `MainLoop.Step` | homework.py:112-136 | after any pass, no message was delivered right after an identical one, `last_message` is the last message delivered (or unchanged when none), at most two messages were sent, and the cursor is unchanged unless the try block ran through; a refused status message changes nothing; the general handler never catches a Telegram error |
| `MainLoop.FailureIsNotStatus` | homework.py:99-129 | a failure report never equals a status notification |
| `MainLoop.LatestIsNotFailure` | homework.py:118-129 | the newest record's notification differs from every failure report |
| `MainLoop.CursorMovesOnlyOnCompletion` | homework.py:113-124 | a pass completes exactly when every step of the try block succeeds; then the cursor becomes `current_date` (or the clock when the answer has none), otherwise it stays |
| `MainLoop.NewStatusDelivered` | homework.py:117-124 | a new newest-record notification whose send succeeds is delivered and becomes `last_message`; when `current_date` converts, the pass runs through and the cursor moves |
| `MainLoop.DeliversStatusOrReport` | homework.py:116-134 | a pass delivers nothing but the newest record's notification and the report of the exception that ended it, each only when its own send succeeded, and it delivers that notification first whenever it is new and its send succeeds |
| `MainLoop.UnsentReportSwallowed` | homework.py:128-134 | whatever raised in the try block, a failure report that cannot be sent is dropped: the pass delivers only what the try block did, and `last_message` stays where the try block left it |
| `MainLoop.ShapeFailureReported` | homework.py:115-134 | an answer that `check_response` rejects ends the pass with that exception: the cursor stays, only its report can be delivered, and `last_message` becomes the report exactly when it is |
| `MainLoop.ParseFailureReported` | homework.py:116-134 | a checked answer whose newest record `parse_status` rejects ends the pass with that exception, reported the same way; nothing is sent for the record and the cursor stays |
| `MainLoop.ClientFailureReported` | homework.py:119-134 | a new status whose send fails other than by a Telegram refusal ends the pass in the general handler with the client's exception: the status is not delivered, only that exception's report can be, and the cursor stays |
| `MainLoop.CursorFailureReported` | homework.py:116-134 | a checked answer with nothing new to send, whose `current_date` `int()` rejects, ends the pass with `int()`'s exception, reported as any other failure; the cursor stays |
| `MainLoop.ApiFailureKeepsCursor` | homework.py:128-134 | an API failure keeps the cursor, reports the error unless it is the last message sent, and a report that cannot be sent leaves `last_message` as it was |
| `MainLoop.OnlyNewestRecordRead` | homework.py:116-118 | two answers that agree on their first record and on `current_date` lead to the same pass, whatever their other records |
| `MainLoop.EmptyListAdvancesCursor` | homework.py:116-124 | an empty homework list sends nothing, keeps `last_message` and still moves the cursor |
| `MainLoop.TelegramRefusalChangesNothing` | homework.py:119-126 | when the messaging API refuses a new status message, neither variable changes and nothing is sent |
| `MainLoop.RepeatedAnswerNotResent` | homework.py:119-121 | after a pass that ran through, the same answer sends nothing and completes again |
| `MainLoop.UnchangedAnswerFinishes` | homework.py:116-124 | a checked answer whose newest record is already `last_message`, and whose `current_date` converts, runs through without sending and moves the cursor |
| `MainLoop.BadCurrentDatePass` | homework.py:119-134 | a new status in an answer whose `current_date` `int()` rejects delivers the status message and then the failure report, which becomes `last_message`; the cursor stays |
| `MainLoop.BadCurrentDateResends` | homework.py:119-134 | such an answer makes every pass deliver the same two messages again |
| `MainLoop.Run` | homework.py:112-136 | across any number of passes no message is delivered twice in a row and `last_message` is the last message delivered; one query and one outcome per pass |
| `MainLoop.FailedPassesKeepCursor` | homework.py:113-124 | passes that all fail query the starting cursor every time and leave it unchanged |
| `MainLoop.PersistentFailureReportedOnce` | homework.py:128-134 | an API that keeps failing the same way is reported at most once, and the cursor never moves meanwhile |
| `MainLoop.Poller.constructor` | homework.py:109-110 | the loop starts with the clock as cursor and an empty `last_message`, and the chat has received nothing |
| `MainLoop.Poller.SendMessage` | homework.py:48-52 | the chat receives the message exactly when the send succeeds; otherwise the client's exception is returned |
| `MainLoop.Poller.Attempt` | homework.py:113-124 | the try block performed in place ends in the state and with the exception that `TryBlock` describes |
| `MainLoop.Poller.NotifyLatest` | homework.py:116-124 | the rest of the try block performed in place agrees with `Notify` |
| `MainLoop.Poller.ReportFailure` | homework.py:128-134 | the handler performed in place delivers what `Report` gives and sets `last_message` only if the report went through |
| `MainLoop.Poller.Cycle` | homework.py:112-136 | one pass in place: the new variables, the messages the chat received and the outcome are those of `Step`, the cursor queried is recorded, and the chat keeps having no adjacent repeats and ending with `last_message` |
| `MainLoop.Poller.Serve` | homework.py:112-136 | the passes over a sequence of inputs agree with `Run` |
| `MainLoop.Launch` | homework.py:102-112 | a missing setting stops the program before any pass; otherwise the loop starts at the clock and runs the passes that `Run` describes |

## Left out

- The HTTP request, `response.json()`, the endpoint and the headers: a
  request's result is the input `ApiOutcome`. The texts of a transport or
  decoding exception are that input's strings.
- The Telegram client: each send's fate is an input (`SendResult`). The chat
  is the ghost `outbox`, and the chat id and bot token are not used.
- The clock: `int(time.time())` is the integer input `now`. Truncating a
  floating-point time is not modelled.
- `time.sleep(RETRY_PERIOD)` in the `finally`: it has no effect on the
  state.
- The endless `while True`: the model runs a finite sequence of passes.
- Process exit after a missing setting: `Launch` returns its failure.
- `load_dotenv`, `os.getenv`, `globals()`: the environment is a map from
  setting names to values, where a setting that is absent was not set.
- Logging and `logging.basicConfig`.
- JSON floats are not a `Value`. So `int()` of a float `current_date` and
  float statuses are not modelled.
- `repr()` of a string does not escape quotes or control characters.
- `int()` of a string accepts ASCII digits only, not other Unicode decimal
  digits.
- `PyValue.IntOf` has no limit on the length of a literal. CPython 3.11 and
  later reject base-10 strings of more than 4300 digits with ValueError.
- The text of `int()`'s ValueError quotes the whole string. CPython cuts
  that `repr()` to 200 characters.
- Duplicate keys in a decoded object are not modelled: JSON decoding keeps
  the last value, and `Lookup` reads the first.
- Exceptions outside the try body, such as an interrupt, are not modelled.
- `exceptions.py` defines only the two exception classes, which are
  `ErrorKind` values here.
