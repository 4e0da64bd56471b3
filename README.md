# homework_bot: a Dafny model of the polling core

homework_bot is a small Telegram bot. It polls the Practicum homework-review
API every ten minutes and tells one chat when the status of the newest
homework changes. This project models the decision logic of `homework.py`
and proves properties of it:

- `check_tokens`: the configuration check.
- `check_response`: validation of the decoded API answer.
- `parse_status` with the `HOMEWORK_VERDICTS` table: the notification text
  for one homework record.
- One pass of the `while True` loop in `main`, over the loop's two variables
  `timestamp` and `first_message`. The loop itself is modelled over a finite
  sequence of passes.

Modules:

- `Payload` (`payload.dfy`): the decoded JSON value (`None`, `bool`, `int`,
  `str`, `list`, `dict`). It also holds the Python built-ins the core applies
  to such values: truthiness, `type(v).__name__`, `str(v)` and substring
  search.
- `Errors` (`errors.dfy`): the exception classes of `exceptions.py` and the
  Python built-in exceptions the core raises or meets. `Text` is `str(error)`.
- `Homework` (`homework.dfy`): the verdict table as a constant map, and
  `check_tokens`, `check_response` and `parse_status` as pure functions.
  `CheckTokens` returns a `bool`; the two functions that raise return a
  `Result` holding the value or the exception.
- `Bot` (`bot.dfy`): the loop. A `Cycle` value supplies everything outside
  the program: what the fetch returned or raised, and how the first and the
  second `send_message` call of that pass ended. The pure specification is
  `Step` for one pass and `Run` for several passes. `PollOnce` is the loop
  body, written imperatively with the source's variables and proved equal to
  `Step`: `TryBlock` is its `try` block and `HandleFailure` its two `except`
  clauses. `MainLoop` is the `while` loop, proved equal to `Run`.

The model follows the code as written, also where the code does less than
its own names suggest:

- The exception class `NotForSendInTelegram` suggests that delivery failures
  are not forwarded to the chat. But `send_message` raises `TelegramError`,
  which is not a `NotForSendInTelegram`, so the generic `except` sends a
  failure notice about the failed delivery.
- That notice is sent outside the `try`. If the notice fails too, the
  exception leaves the loop and ends `main`. So an error can stop the process
  after start-up.
- `first_message` changes only after `send_message` returns. A failed send
  leaves it unchanged.
- An answer that is not a dict fails at `response.get` (homework.py:151)
  with an `AttributeError`. It never reaches the `TypeError` check in
  `check_response`.
- The window `timestamp` is updated before validation. A pass that then
  fails still moves it. It takes whatever value `current_date` holds, which
  is not necessarily an integer.

## Model

| member | source | states |
|---|---|---|
| `Payload.ContainsIsSubstring` | homework.py:121 | For a string record, `'homework_name' in homework` holds exactly when the key occurs at some offset of the string. |
| `Payload.Digits` | homework.py:130 | The digits Python's `str` writes for a natural number: decimal digits only, their decimal value is the number, and a leading `0` occurs only in `0` itself, written as the single digit. |
| `Payload.FormatInt` | homework.py:130-134 | `str(i)` for an `int`: a minus sign exactly when `i` is negative, then digits whose decimal value is the magnitude, with no zero right after the sign; `0` is written `0`. |
| `Payload.Format` | homework.py:130-134 | `str(v)` as the f-string and `format` insert it: a string unchanged, `None` as `None`, a bool as `True`/`False`, an int as `FormatInt` writes it. |
| `Errors.Text` | homework.py:166-169 | `str(error)` is the error's argument, except that a `KeyError` wraps its message in single quotes, one before and one after. |
| `Errors.NoAttributeGet` | homework.py:151 | Calling `.get` on an answer that is not a dict raises an `AttributeError` whose message names the answer's type. |
| `Errors.NotIterable` | homework.py:121 | `in` on `None`, a boolean or an integer record raises a `TypeError` whose message names the record's type. |
| `Errors.Unhashable` | homework.py:129 | Looking up a list or dict status in the verdict table raises a `TypeError` that names the status's type and differs from the not-iterable error. |
| `Homework.All` | homework.py:47 | `all(...)` is true exactly when every setting is present and non-empty. |
| `Homework.CheckTokens` | homework.py:41-47 | True exactly when the Practicum token, the Telegram token and the chat id are all non-`None` and non-empty. |
| `Homework.RequestTimestamp` | homework.py:70 | The request window is the stored timestamp when that is truthy, otherwise the clock reading. With a non-zero clock the window is never falsy. |
| `Homework.CheckResponse` | homework.py:97-111 | Returns exactly `response['homeworks']`, unchanged, when the answer is a dict with both keys and `homeworks` is a list. Otherwise it fails with the first failing check: a non-dict gives `TypeError`, a missing key gives `EmptyResponse`, a non-list `homeworks` (including null) gives `TypeError`. |
| `Homework.HasKey` | homework.py:121 | Python's `in` for each kind of record: dict keys, list elements, substrings of a string. Any other value raises. |
| `Homework.IsKnownStatus` | homework.py:128-129 | A status is known exactly when it is a string key of the verdict table. A list or dict status raises instead. |
| `Homework.ParseStatus` | homework.py:114-134 | Succeeds exactly when the record is a dict with a non-null `homework_name` (an empty name is accepted) and a `status` in `{approved, reviewing, rejected}`. The result is then `Изменился статус проверки работы "<name>". <verdict>`. Every failure is exact. `None`, a bool or an int record raises the not-iterable `TypeError`. A list or string record that contains `homework_name` fails at `.get` with `AttributeError`. A record without the key gives `KeyError('В API отсутствует ключ homework_name')`, and a null name gives `KeyError('Отсутствует имя работы: None')`, whatever the status. After that, a list or dict status raises the unhashable `TypeError`. Any other unknown status, absent (`None`), null, bool, int or an unknown string, gives `ValueError` naming it. |
| `Homework.ParseStatusExamples` | homework.py:27-31 | The record `lab1`/`approved` gives the exact sentence with the approved verdict. The status `pending` gives `ValueError`. |
| `Bot.Startup` | homework.py:139-147 | `main` stops when any setting is missing. Otherwise it starts with the window at the current time and `first_message` empty. |
| `Bot.NextTimestamp` | homework.py:151-153 | The new window is the answer's `current_date` when present, otherwise the old window. A non-dict answer raises `AttributeError`. |
| `Bot.OnlyNewestRecordCounts` | homework.py:155-158 | An empty list gives `Нет новых статусов`. A non-empty list gives `parse_status` of element 0, and the later elements never change the result. |
| `Bot.NormalMessageIsNoNotice` | homework.py:155-169 | A message chosen in the `try` block never starts with the failure-notice prefix. |
| `Bot.SendError` | homework.py:58-62 | A failed bot call raises the project's `TelegramError`, whose text is `Не удачная отправка сообщение ` followed by the library error. It is not a `NotForSendInTelegram`. |
| `Bot.ChooseMessage` | homework.py:155-158 | An empty list gives `Нет новых статусов`. Otherwise the message exists exactly when the first record is one `parse_status` accepts, and it is that record's notification. |
| `Bot.CycleTimestamp` | homework.py:150-153 | The window after the `try` block is the answer's `current_date` when the fetch returned a dict that has one, and the old window otherwise. |
| `Bot.CycleMessage` | homework.py:150-158 | A failed fetch raises its own exception. A non-dict answer raises the `AttributeError` from `.get`. A failing `check_response` raises its exception. When `check_response` succeeds, the result is `ChooseMessage` of the returned list, so the message or the `parse_status` error of its first record. A message results exactly when the answer passes `check_response` and its list is empty or starts with an accepted record. |
| `Bot.SendIfNew` | homework.py:159-164 | A send happens exactly when the message differs from `first_message`. `first_message` becomes the message exactly when the send returned, and stays otherwise. A failed send raises the Telegram error. |
| `Bot.Except` | homework.py:165-173 | A `NotForSendInTelegram` is only logged. Any other exception sends the failure notice `Сбой в работе программы: <error>` unless it equals `first_message`. `first_message` becomes the notice exactly when that send returns. An exception escapes exactly when that send fails, and it is the send's Telegram error. The window never changes here. |
| `Bot.Step` | homework.py:149-175 | One pass: the window is `CycleTimestamp`'s. At most two sends are made. An escaping exception is a Telegram error and leaves `first_message` unchanged. When a message is chosen and either repeats `first_message` or is delivered, nothing escapes, `first_message` becomes the message, and the message is sent once exactly when it was new. When the `try` block raises before sending, the pass is exactly `Except` of that exception over the moved window, with the first send outcome. |
| `Bot.TimestampMovesBeforeValidation` | homework.py:150-154 | After any pass, the window is the answer's `current_date` whenever the answer is a dict that has one, even if validation or parsing then fails. Otherwise the window is unchanged. |
| `Bot.EmptyAnswerStillMovesWindow` | homework.py:151-154 | An answer with `current_date` but no `homeworks` moves the window and sends the `Пустой ответ API` failure notice. |
| `Bot.NonDictAnswerFailsAtGet` | homework.py:150-153 | A non-dict answer fails with the `AttributeError` from `.get`, not with check_response's `TypeError`, and the window stays. |
| `Bot.FirstMessageTracksDelivery` | homework.py:159-173 | In one pass, `first_message` changes exactly when a message reaches the chat, and it changes to that message. At most one message is delivered per pass. |
| `Bot.DeliveryFailureTriggersNotice` | homework.py:159-173 | A pass makes at most two sends. A second send happens only after the first delivery failed. It is the failure notice for that Telegram error, and it never repeats the first message. |
| `Bot.EscapeOnlyWhenNoticeFails` | homework.py:168-175 | An exception leaves the loop exactly when a failure-notice send fails. It is a Telegram error, and `first_message` is unchanged. |
| `Bot.NotForSendIsSilent` | homework.py:165-167 | A `NotForSendInTelegram` failure sends nothing and changes neither variable. |
| `Bot.RepeatedMessageSentOnce` | homework.py:155-173 | Two consecutive passes with the same message or the same failure make at most one send, provided the first send got through. |
| `Bot.DistinctMessagesBothSent` | homework.py:155-164 | Two consecutive passes with different messages both send, and `first_message` follows each. |
| `Bot.Run` | homework.py:148-175 | The loop over a sequence of passes, stopping at the first escaping exception. No passes change nothing. Each pass adds at most two sends. An exception that ends the loop is a Telegram error. |
| `Bot.RunAfterEscape` | homework.py:148-175 | Once an exception has left the loop, no later pass runs. |
| `Bot.DeliveriesNeverRepeat` | homework.py:148-175 | Over any run, the chat never receives the same text twice in a row. The first delivered text differs from the initial `first_message`, and `first_message` is always the last delivered text. |
| `Bot.TryBlock` | homework.py:149-164 | The imperative `try` block sets the window as `CycleTimestamp` does. When `CycleMessage` fails it raises that exception and sends nothing. Otherwise it sends as `SendIfNew` specifies and, after a failed send, leaves the second send outcome for the `except` clause. |
| `Bot.HandleFailure` | homework.py:165-173 | The imperative `except` clauses append the sends `Except` specifies to the log and leave `first_message` and the escaping exception as `Except` gives them. |
| `Bot.PollOnce` | homework.py:149-175 | The imperative loop body (try block, both except clauses) leaves the window, `first_message`, the sends and any escaping exception exactly as `Step` specifies. |
| `Bot.MainLoop` | homework.py:148-175 | The `while` loop, run over the given passes or until an exception escapes, ends exactly as `Run` specifies. Its deliveries never repeat back to back, and `first_message` is the last of them. |

## Left out

- `get_api_answer` (homework.py:68-94): the HTTP request, the status-code check and JSON decoding are network I/O. A pass receives the fetch as an abstract outcome, a decoded value or any raised exception. The `BadResponse` and `JSONDecodeError` it raises are variants of `Errors.Error`.
- `send_message` and `telegram.Bot` (homework.py:50-65, 143): external messaging calls. Each call is an abstract outcome, returned or failed with a Telegram error text. The model wraps that text in `TelegramError` as lines 58-62 do. Exceptions of other kinds raised by the bot library are not modelled.
- `time.sleep(RETRY_PERIOD)` (homework.py:175) and the unbounded `while True`: pacing and non-termination have nothing to verify. `MainLoop` runs a finite sequence of passes.
- `time.time()`: the clock reading is a parameter (`now`).
- Logging, `load_dotenv` and `os.getenv` (homework.py:15-20, 33-38): the three settings are a `Config` parameter. `sys.exit` is `Startup` returning `None`.
- JSON floating-point numbers are not among the modelled values.
- Payload.Format: renders a list or dict as a fixed placeholder instead of Python's `str`. For a list, that text depends on Python's `repr` of every element: the choice of quote character and the escaping inside strings, which the model does not define. For a dict it also depends on insertion order, which a `map` does not keep. Two different compound homework names therefore give the same notification text in the model.
- Errors.Text: for a `KeyError` it adds quotes but does not escape quotes or backslashes inside the message the way Python's repr would. The two `KeyError` messages the core raises contain neither.
- Errors.NoAttributeGet, Errors.NotIterable, Errors.Unhashable: the messages follow CPython 3's wording; other interpreter versions may word them differently.
- `BaseException` subclasses such as `KeyboardInterrupt`, which `except Exception` does not catch, are not modelled.
- Python's inheritance among exceptions is not modelled beyond the fact that none of the classes raised here is a `NotForSendInTelegram`.
