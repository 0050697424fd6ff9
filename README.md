# homework_bot — a verified model of the polling core

homework_bot polls the Yandex Practicum homework-review API and relays status
changes to a Telegram chat. This project models in Dafny the part of
`homework.py` that makes decisions, and proves properties about it:

- the credential check run at start-up (`check_tokens`);
- the API client's outcome (`get_api_answer`), with the network reply as an input;
- the response validator (`check_response`) and the status formatter
  (`parse_status`) with the closed verdict table `HOMEWORK_VERDICTS`;
- the body of `main`'s `while True` loop: one polling cycle, and the
  de-duplication of status and error notifications through the two strings
  `prev_homework_message` and `last_message`.

Modules, one per component:

- `Wrappers` (wrappers.dfy): `Option`, and `Result` in place of raised exceptions.
- `PyJson` (json.dfy): decoded JSON values (section 3 of RFC 8259) and the
  parts of Python's semantics the bot uses on them: truthiness (`not x`),
  `type(x)`, `dict.get` and `str(x)`.
- `Errors` (errors.dfy): one variant per exception the cycle can catch, among
  them the classes of `exceptions.py`. Also `str(error)`.
- `Homework` (homework.dfy): `check_tokens`, `get_api_answer`, `check_response`,
  `HOMEWORK_VERDICTS`, `parse_status`, and `Cycle`, which covers the statements
  of `main`'s `try` up to `homework_message` (homework.py:143-148).
- `Polling` (polling.dfy): the loop's state `PollState`, the functions
  `Step` and `Run` (one cycle, and a fold over a finite sequence of cycle results),
  the lemmas about de-duplication, `Notify` (the branches of the loop body)
  and `RunBot`, which models `main`.

`RunBot` is the loop itself. It is a method with the two local strings,
a `while` loop over the API's answers and loop invariants. Its contract ties
the notifications it sends and its final state to `Run`. It also records the
`from_date` of every request, and proves each one equals the start time: the
timestamp is never advanced (homework.py:139, 143). That behaviour is kept as
written. Every cycle re-queries from the same origin, whether or not that was
meant.

Notable behaviour the model keeps from the code:

- A record that is not a dict makes `homework.get` raise `AttributeError`.
  The loop catches it like any other error.
- A non-empty list or dict `status` is unhashable. Looking it up in the
  verdict table raises `TypeError`, not `KeyError`.
- `str(KeyError(m))` puts the message between quotes. This changes the error
  notice, which is compared to `last_message`.
- Adjacent string literals in the source are joined without a space, and the
  messages keep the source's spelling.
- The HTTP body is decoded only for a 200 reply. A body that does not parse
  raises the decoder's error. That error escapes `get_api_answer` and is
  caught by the loop.

More behaviour of the code that the model keeps:

- The messages are the source's Russian texts.
- A hashable verdict code outside the table raises `KeyError`.
- `prev_homework_message` is updated whenever a new status is handed to
  `send_message`, whether or not delivery succeeds.

These Python built-ins are defined as plain functions without contracts of
their own:

- `PyJson.Get` is `dict.get`: the stored value, or None for an absent key.
- `Errors.ErrorText` is `str(error)`: a `KeyError` renders its message
  between single quotes, and every other kind renders its message as it is.
- `PyJson.Truthy`, `PyJson.ClassRepr` and `PyJson.PyStr` are `bool(x)`,
  `str(type(x))` and `str(x)`.

## Model

| member | source | states |
|---|---|---|
| Homework.All | homework.py:46 | `all(values)` holds exactly when every environment value is neither None nor empty |
| Homework.CheckTokens | homework.py:39-46 | true exactly when PRACTICUM_TOKEN, TELEGRAM_CHAT_ID and TELEGRAM_TOKEN are all set and non-empty |
| Homework.GetApiAnswer | homework.py:60-71 | no reply gives APIRequestError, any status other than 200 gives IncorrectRequestStatus, an unparsable 200 body gives the decoder's error, and only a parsed 200 body is returned, unchanged |
| Homework.CheckResponse | homework.py:74-97 | a non-dict answer is a TypeError before any key is checked; a missing `homeworks` or `current_date` is a KeyError; a non-list `homeworks` (null included) is a TypeError; otherwise the result is exactly the `homeworks` list, possibly empty, and it succeeds in no other case |
| Homework.CheckResponseIdempotent | homework.py:90-97 | re-validating an answer rebuilt from the returned list gives the same list back |
| Homework.VerdictFor | homework.py:112 | `HOMEWORK_VERDICTS.get(status)` finds a verdict only for a string key of the table, and that verdict is the table's entry; a list or dict status raises `TypeError("unhashable type: 'list'")` (or `'dict'`), and only those do; any other value finds nothing |
| Homework.VerdictTableClosed | homework.py:25-29 | the table has exactly the keys approved, reviewing and rejected, and no verdict is empty |
| Homework.ParseStatus | homework.py:100-119 | a non-dict record is an AttributeError; a missing or falsy name is a KeyError whatever the status is; then a missing or falsy status is a KeyError; then a truthy list or dict status is a TypeError (unhashable); then any other status outside the table (an int, a float, true, an unknown string) is a KeyError; it succeeds exactly for a dict with a truthy name and a table status, and then returns `Изменился статус проверки работы "<name>". <verdict>` |
| Homework.ParseStatusApproved | homework.py:100-119 | the record named "Project 1" with status approved yields the full approved message |
| Homework.Cycle | homework.py:143-148 | an error raised by the fetch, or by `check_response` on a fetched payload, is the cycle's error, unchanged; every message a cycle produces is non-empty, and is either "Нет домашки" or a formatted status |
| Homework.CycleNoHomework | homework.py:144-146 | a well-formed answer with an empty list yields "Нет домашки" |
| Homework.CycleFormatsFirstOnly | homework.py:144-148 | for a well-formed non-empty list the outcome is the formatting of element 0; later records never matter |
| PyJson.TypeName | homework.py:76-78 | the Python class name of a decoded value; "dict" exactly for objects and "list" exactly for arrays |
| PyJson.IntToDecimal | homework.py:119 | `str(i)` of an int name: a minus sign exactly when the int is negative, followed by decimal digits without a leading zero that denote its absolute value |
| PyJson.NatToDecimalValue | homework.py:119 | the digits produced for a natural number denote that number |
| Polling.Step | homework.py:145-157 | one cycle, once its result is known, sends at most one message |
| Polling.Run | homework.py:141-159 | over n cycles at most n messages are sent |
| Polling.RunSendsOnlyNotices | homework.py:150-157 | every message the loop sends is `Новый статус домашки: ...` or `Сбой в работе программы: ...` |
| Polling.Notify | homework.py:145-157 | the `if` and `except` branches of the loop body send and update exactly as `Step` says; `send_message` never raises, so the state update does not depend on delivery |
| Polling.StepOnSuccess | homework.py:145-151 | a successful cycle sends `Новый статус домашки: <msg>` exactly when msg differs from prev_homework_message, sets it to msg, and leaves last_message unchanged |
| Polling.StepOnError | homework.py:152-157 | a failed cycle sends `Сбой в работе программы: <error>` exactly when it differs from last_message, sets last_message to it, and leaves prev_homework_message unchanged |
| Polling.RunTracksLastResults | homework.py:137-157 | after any run, prev_homework_message is the last produced message and last_message the last error notice, each defined independently of de-duplication |
| Polling.SuccessesKeepLastMessage | homework.py:145-151 | any number of successful cycles leave last_message unchanged |
| Polling.ErrorsKeepPrevMessage | homework.py:152-157 | any number of failed cycles leave prev_homework_message unchanged |
| Polling.RepeatedResultSilent | homework.py:145-157 | after a result has been seen, further cycles with the same result send nothing and change no state |
| Polling.TwoIdenticalResultsNotifyOnce | homework.py:145-157 | two consecutive cycles with the same result send what the first alone sends, exactly one notice when the result is new |
| Polling.DistinctErrorsEachNotified | homework.py:152-157 | two consecutive different error notices, the first new, are both sent, in order |
| Polling.ErrorNotResentAfterSuccesses | homework.py:138-157 | an error that recurs after any number of successful cycles is not sent again |
| Polling.FirstSuccessNotifies | homework.py:137-151 | from the start state, a successful cycle that follows only failed ones always sends its status notice, because prev_homework_message is still empty and the message is not (every message `Cycle` produces is non-empty) |
| Polling.CycleResults | homework.py:143-148 | one result per answer |
| Polling.CycleResultsAt | homework.py:141-148 | the k-th result is the cycle run on the k-th answer, so the results are the cycles' results, in order |
| Polling.RunBot | homework.py:122-159 | missing credentials end at once with the fatal message and no cycle; otherwise the sent notices and the final state are those of `Run` from empty strings over the cycles' results, and every request uses the start timestamp |

## Left out

- The HTTP GET in `get_api_answer` (homework.py:60-71): the endpoint and the OAuth header are not modelled. The reply is an input: no reply, or a status code with a body.
- JSON decoding (`response.json()`): a body is given as parsed, or as unparsable with the decoder's message. Objects are maps, so key order and duplicate keys are not represented. Numbers are exact integers or exact reals, and NaN and infinities are not represented.
- `send_message` and `telegram.Bot` (homework.py:49-57, 136): a send is modelled as appending the text to `sent`. A failed delivery is logged and swallowed and changes no loop state, so delivery outcomes and the chat id are not modelled.
- Logging (homework.py:31-36 and every `logger` call): side effects only.
- `load_dotenv` and `os.getenv` (homework.py:13-18): the three variables are parameters of `RunBot`.
- `time.time()`, `time.sleep(RETRY_PERIOD)` and the endless `while True`: the start time is the parameter `now`, and the loop runs over a finite sequence of answers, one per cycle. `sys.exit` is the `Exited` result.
- PyJson.PyStr: a `homework_name` that is a float, list or dict is rendered as a placeholder naming its type, not by Python's `str()`. Strings, ints and bools are rendered exactly.
- Errors.ErrorText: the quoting of a KeyError message is exact only for messages without quotes or backslashes. Every KeyError the bot raises has such a message.
- `MessageSendError` (exceptions.py:9-10) is declared and never raised. It is an `Error` variant that nothing constructs.
