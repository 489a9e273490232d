# Homework-status bot, modelled in Dafny

The bot polls the Practicum review-status API on behalf of one student. It
asks for the homeworks changed since a timestamp cursor, checks the shape of
the answer, and turns the status of the newest homework into a Russian chat
message. It then moves the cursor to the server's `current_date`. Any
exception raised during a pass is reported in the chat, the cursor stays
where it was, and the loop goes on. After a pass that raised nothing, the
loop stops if one of the three required settings is missing.

The model has three modules:

- `Json` (`json.dfy`) holds the decoded JSON values the bot works on. A dict
  is an ordered list of pairs, so that an iteration order can be stated. The
  module also has the parts of Python's `str`/`repr` that the bot's
  f-strings and exception texts use: integers in decimal, and strings
  quoted.
- `Homework` (`homework.dfy`) holds the decision functions of
  `homework.py`: the status table, `check_response`, `parse_status`,
  `check_tokens`, and the status-code branch of `get_api_answer`.
  `CheckResponse`, `ParseStatus` and `GetApiAnswer` return a `Traced`
  value: what the Python function returns or raises, plus the one chat
  notification it tries on the way through `error_logging`, if any.
  `CheckTokens` returns a `TokenCheck` and sends nothing, `FromDate` is a
  plain value, and the status table is a constant map.
- `Poller` (`poller.dfy`) holds one pass of `main`'s loop.
  - The pass is built from stage functions (`Advance`, `Announce`,
    `Validate`, `Cycle`). `Next` is its effect on the bot's state, and
    `Run` is the loop over a finite sequence of ticks.
  - The class `Bot` keeps the cursor and the outbox as fields that its
    methods update. Each method is proved to leave exactly the state these
    functions describe.
  - Chat delivery is a per-tick flag `up`. Every message tried goes into
    `attempted`. Only messages sent while the chat is up go into
    `delivered`. A failed delivery never raises, as in `send_message`.

Some of what the code does is not what a reader of the bot would expect.
The model keeps the code's behaviour in each case:

- **`check_response` depends on the order of keys.** It decides on the
  first key of the dict alone. A dict whose first key is neither
  `current_date` nor `homeworks` is rejected even when a good `homeworks`
  list follows it (`Homework.UnexpectedFirstKeyHidesHomeworks`). A plain
  check that the key is there would accept such a dict. That check is
  `Homework.CheckResponseByPresence`, and
  `Homework.CheckResponseVersusPresence` gives exactly the inputs on which
  the two differ.
- **A 404 answer sends two chat messages.** One is the "endpoint
  unavailable" note from `get_api_answer`; the other is the cycle's own
  failure report (`Poller.NotFoundCycle`).
- **A missing token does not stop the start.** The result of the first
  `check_tokens()` is ignored, so with `PRACTICUM_TOKEN` or
  `TELEGRAM_CHAT_ID` missing the loop starts anyway. With `TELEGRAM_TOKEN`
  missing, whether the start gets that far depends on building the chat
  client at homework.py:139, which is not part of this model. It leaves right
  after its first pass that raises nothing, however many failing passes
  came before (`Poller.MissingTokenBreaksAtFirstSuccess`). Failing passes
  go on forever (`Poller.FailingCyclesKeepCursor`).
- **The cursor can move backwards.** It is set to whatever `current_date`
  the server sends (`Poller.CursorCanMoveBack`).
- **A pass can send a status message and still fail.** If `current_date` is
  missing, the `KeyError` is raised after the status message has been sent
  (`Poller.MessageSentThenCursorLookupFails`).

## Model

| member | source | states |
|---|---|---|
| Json.Truthy | homework.py:61 | a value is falsy exactly when it is `None`, `False`, `0`, `""`, `[]` or `{}` |
| Json.StrRepr | homework.py:156 | Python's `repr` of a str is wrapped in a matching pair of quotes, double exactly when the text has a single quote and no double one, with the escaped text between them |
| Json.EscapeRoundTrip | homework.py:156 | unescaping the text between the quotes gives back the original string |
| Json.StrReprInjective | homework.py:156 | two strings with the same `repr` are the same string |
| Json.IntStr | homework.py:73 | the decimal text of an integer is non-empty and starts with `-` exactly when the integer is negative |
| Json.Str | homework.py:111 | an f-string shows a str as it is and any other value as its `repr`, which is never empty |
| Json.Repr | homework.py:114 | `repr` is never empty; an integer prints in decimal, a str quoted, a list in brackets and a dict in braces |
| Json.Lookup | homework.py:107-108 | `d[key]` finds the first pair with that key; absent exactly when no pair carries it |
| Json.NatStrRoundTrip | homework.py:73 | the decimal text of a status code reads back as that code |
| Json.IntStrInjective | homework.py:80 | two different integers never print the same, so `f'Error {code}'` identifies the code |
| Json.PlainRepr | homework.py:156 | `str` of a `KeyError` on a key with nothing to escape is the key in single quotes |
| Homework.ErrorText | homework.py:156 | `str(error)` is the message as it is, except for a `KeyError`, whose text is the `repr` of its key: the key, escaped, between matching quotes |
| Homework.StatusTableIsClosed | homework.py:24-28 | the table has exactly the codes approved, reviewing and rejected, with three different verdicts |
| Homework.Subscript | homework.py:107-108 | subscripting a dict returns the bound value or raises `KeyError(key)`; any other value raises `TypeError` |
| Homework.CheckResponse | homework.py:83-102 | an empty dict raises `IndexError`, a non-dict `TypeError`, an unexpected first key `KeyError`, each after one note; otherwise it returns exactly the `homeworks` list, or raises `KeyError('homeworks')` / `TypeError` without a note |
| Homework.CheckResponseSeesOnlyFirstKey | homework.py:90-99 | dicts that agree on the first key and on `homeworks` get the same verdict |
| Homework.UnexpectedFirstKeyHidesHomeworks | homework.py:90-99 | an unexpected first key is rejected even when a valid `homeworks` list follows |
| Homework.CheckResponseByPresence | homework.py:88-96 | a presence check accepts exactly the non-empty dicts holding a `homeworks` list, and returns that list |
| Homework.CheckResponseVersusPresence | homework.py:88-99 | the code and the presence check agree exactly when the first key is expected, or the value is not a non-empty dict; whatever the code accepts, the presence check accepts alike |
| Homework.ParseStatus | homework.py:105-115 | accepts exactly a dict with a name and one of the three documented status strings, giving the message with the name and that code's verdict; a note goes out only with a `ValueError`; a non-dict raises `TypeError`, a missing name `KeyError('homework_name')` and a missing status `KeyError('status')`, each without a note |
| Homework.ParseStatusAccepts | homework.py:109-111 | a documented code gives the templated message, which is never empty |
| Homework.ParseStatusFailsClosed | homework.py:112-115 | any other status string raises `ValueError('Invalid status "…"')` after one note naming it |
| Homework.ParseStatusRejectsOtherValues | homework.py:109-115 | a status that is not a documented string and not a list or dict raises `ValueError('Invalid status "…"')` with the value's text, after one note naming it |
| Homework.ParseStatusUnhashable | homework.py:109 | a list or dict status raises `TypeError("unhashable type: …")` at the table lookup, before any note |
| Homework.StatusMessage | homework.py:111 | the message is the fixed lead, then the homework name as an f-string shows it, then the verdict at the end |
| Homework.UndocumentedStatusNote | homework.py:113-114 | the note is the fixed lead (with the source's missing space) followed by the status as an f-string shows it |
| Homework.InvalidStatusMsg | homework.py:115 | the error text is `Invalid status "`, the status as an f-string shows it, and a closing quote |
| Homework.ParseStatusNeedsStatus | homework.py:108 | a dict with a name but no `status` raises `KeyError('status')` and sends nothing |
| Homework.ParseStatusNotADict | homework.py:107 | an element 0 that is not a dict raises the `TypeError` of subscripting it and sends nothing |
| Homework.ParseStatusNeedsNameFirst | homework.py:107 | a missing name raises `KeyError('homework_name')` before the status is read, and sends nothing |
| Homework.StatusMessageIdentifiesCode | homework.py:110-111 | for one homework, different codes give different messages |
| Homework.ApprovedExample | homework.py:105-111 | the approved work "X" yields the prefix, the name, and the approved verdict |
| Homework.Present | homework.py:120-128 | a setting counts as present exactly when it is set and not empty |
| Homework.CheckTokens | homework.py:118-134 | true exactly when all three settings are non-empty; otherwise names the first missing one, in declaration order |
| Homework.CheckTokensReportsEarliest | homework.py:120-132 | when setting i is missing, the name reported is setting i or an earlier one |
| Homework.FromDate | homework.py:61 | the request uses the cursor when truthy, otherwise the current time |
| Homework.GetApiAnswer | homework.py:59-80 | 200 returns the decoded body; a body that does not decode returns `None` after one note; 404 and other codes raise `ValueError('Error <code>')` after the matching note; a request that raised makes the function raise `UnboundLocalError` after one note carrying the request's error |
| Homework.NotFoundMsg | homework.py:71-73 | the 404 note is the failure lead, the endpoint, the fixed middle text ` недоступен. Код ответа API: `, and the status code in decimal at the end |
| Homework.ErrorCodeMsg | homework.py:80 | the error text is `Error ` followed by the status code in decimal |
| Homework.ErrorCodeIdentifiesStatus | homework.py:79-80 | two non-OK answers raise the same error only for the same code |
| Homework.NotFoundNoteNamesEndpointAndCode | homework.py:69-74 | the 404 note differs from the generic one, holds the endpoint, and ends in "404" |
| Homework.UndecodableBodyReturnsNone | homework.py:67-68 | a 200 answer whose `.json()` raises returns `None` after one note |
| Poller.FailureMessage | homework.py:156 | the report is the prefix "Сбой в работе программы: " followed by `str(error)` |
| Poller.FailureMessageShowsError | homework.py:156 | two reports are equal only when the errors' texts are equal |
| Poller.FailureMessageShowsKey | homework.py:156 | two reports of a `KeyError` are equal only for the same key |
| Poller.Failed | homework.py:155-158 | the `except` branch keeps the cursor, sends one report, and goes on |
| Poller.Advance | homework.py:152 | that step succeeds exactly when `current_date` can be read; it moves the cursor there and continues exactly when the tokens are present; on failure it reports and keeps the cursor |
| Poller.Announce | homework.py:146-152 | an empty list goes straight to the cursor step; otherwise element 0 parses and its message goes out before that step; on failure the cursor stays and an error is reported last |
| Poller.Validate | homework.py:144-145 | a pass goes on past `check_response` only when that accepts the response |
| Poller.Cycle | homework.py:143-161 | a pass either raises, with the cursor kept and the report sent last, or had a 200 answer with a decoded body |
| Poller.SuccessfulCycle | homework.py:143-161 | a pass that raises nothing was accepted, set the cursor to `current_date`, sent nothing for an empty list or exactly element 0's message, and goes on exactly when all tokens are present |
| Poller.FetchFailureCycle | homework.py:144 | when `get_api_answer` raises, the pass reports exactly that error, after that function's note, and keeps the cursor |
| Poller.RejectedResponseCycle | homework.py:145 | when `check_response` raises, the pass reports exactly that error, after the notes of `get_api_answer` and `check_response`, and keeps the cursor |
| Poller.UnparsedStatusCycle | homework.py:146-147 | when element 0 does not parse, the pass reports exactly the error `parse_status` raised, after its note, and keeps the cursor |
| Poller.MissingDateCycle | homework.py:146-152 | with `current_date` missing, the status message (if any) goes out, then `KeyError('current_date')` is reported and the cursor kept |
| Poller.CycleIgnoresCursor | homework.py:144-152 | for the same answer from the server, what a pass raises and sends does not depend on the cursor it starts from |
| Poller.AnnouncingCycle | homework.py:146-152 | a valid response with a documented newest status sends that one message and moves the cursor |
| Poller.OnlyNewestHomeworkMatters | homework.py:146-147 | responses that differ only after element 0 lead to the same pass |
| Poller.EmptyListAdvancesCursor | homework.py:150-152 | an empty list sends nothing and still moves the cursor |
| Poller.NotFoundCycle | homework.py:69-80 | a 404 answer keeps the cursor and sends two messages, the endpoint note and then the failure report |
| Poller.MessageSentThenCursorLookupFails | homework.py:147-152 | with `current_date` missing, the status message goes out and then `KeyError` is reported, with the cursor kept |
| Poller.CursorKeyErrorText | homework.py:156 | the report for a missing `current_date` quotes the key |
| Poller.CursorCanMoveBack | homework.py:152 | the cursor takes the server's date even when it is earlier |
| Poller.Start | homework.py:140 | the bot starts with the cursor at the current time and nothing sent, so the first request asks from that time |
| Poller.Sent | homework.py:50-56 | a send attempt keeps the cursor, appends the messages to those tried, and to those delivered only when the chat is up |
| Poller.Next | homework.py:142-161 | a pass only ever appends to the outbox |
| Poller.Run | homework.py:142-161 | the loop leaves by `break` only in a pass, and only when a token is missing; the messages already tried are kept |
| Poller.TokensPresentNeverBreak | homework.py:159-161 | with every token set, the loop never leaves |
| Poller.MissingTokenBreaksAfterSuccess | homework.py:141-161 | with a token missing and a first pass that raises nothing, the loop leaves after that pass, with that pass's cursor |
| Poller.MissingTokenBreaksAtFirstSuccess | homework.py:141-161 | with a token missing, after any number of failing passes, the loop leaves right after the first pass that raises nothing, in the state that running up to that pass gives and with that pass's cursor |
| Poller.FailingCyclesKeepCursor | homework.py:155-158 | passes that all raise never move the cursor or stop the loop, and each sends at least one message |
| Poller.RunExtendsOutbox | homework.py:39-56 | messages already tried or delivered are kept, and with the chat always up every tried message is delivered |
| Poller.TwoCycleScenario | homework.py:142-152 | a "hw1"/reviewing pass at date 1000 sends one message and sets the cursor to 1000; the next fetch asks from 1000; an empty pass at 1600 sends nothing and sets the cursor to 1600; the loop runs both passes and does not leave |
| Poller.Bot.constructor | homework.py:139-141 | the bot starts with the cursor at the current time and an empty outbox, whatever the tokens |
| Poller.Bot.Send | homework.py:50-56 | one delivery attempt: the message is tried, kept only when the chat is up, and nothing raises |
| Poller.Bot.SendNote | homework.py:39-47 | a callee's notification, when there is one, is sent through the same path |
| Poller.Bot.Report | homework.py:155-158 | the report of a caught error is sent, and the cursor is unchanged |
| Poller.Bot.AdvanceStep | homework.py:152-161 | the object's new state is the cursor step `Advance` applied to its old state |
| Poller.Bot.AnnounceStep | homework.py:146-152 | the object's new state is `Announce` applied to its old state |
| Poller.Bot.ValidateStep | homework.py:144-145 | the object's new state is `Validate` applied to its old state |
| Poller.Bot.Step | homework.py:143-161 | one pass asks from `FromDate` of the old cursor, leaves the state `Next` gives, and reports whether the loop goes on |
| Poller.Bot.Loop | homework.py:142-161 | running the loop over a sequence of ticks leaves the state and the break flag that `Run` gives |

## Left out

- `time.sleep(RETRY_TIME)`: the 600-second pause between passes has no observable effect on the state, so it is not modelled.
- Logging: log lines are not modelled. `CheckTokens` does return the name that the critical log line shows.
- Environment and transport: `load_dotenv`/`os.getenv` become the `Tokens` value. `requests.get` becomes the `Fetch` outcome of each tick, `.json()` becomes `Body`, and `time.time()` becomes `Tick.now`. The `Authorization` header and the query parameters beyond `from_date` are not modelled.
- `telegram.Bot(…)`: building the client is not modelled, in `main` or in `error_logging`. With an unusable token, the library's own exception is not modelled either.
- Poller.Bot.Loop: `main`'s `while True` runs over a finite sequence of ticks. An unbounded run is every finite prefix of it.
- Homework.GetApiAnswer: when `requests.get` raises, the model uses the `UnboundLocalError` text of CPython up to 3.10; newer versions word it differently. The TypeError texts in `Subscript` and `ParseStatus` follow CPython 3.10 too.
- Json.Escape, Json.StrRepr, Json.Repr, Homework.ErrorText: control characters other than `\n`, `\r`, `\t`, and other non-printable characters, are not escaped the way Python's `repr` does it. This affects the quoted text of strings in `repr` and of `KeyError` keys in failure reports.
- JSON numbers with a fractional part are not modelled. A decoded dict is assumed to have no repeated key.
- Poller.Tick: the chat is either up or down for a whole pass. In the source each send is a separate attempt, so one message of a pass (say the 404 note) can fail while a later one (the failure report) gets through. The model does not capture that mix.
- Exceptions raised by a notification (`send_message`) are swallowed, as in the source. The model has no way for the chat client to fail other than not delivering.
