# xybAutoSign in Dafny

A model of the core of xybAutoSign, a tool that clocks interns in and out of
the 校友邦 (xybsyw) internship attendance service. It covers three parts:

- **The attendance account (`xyb.py`).**
  - An `XybAccount` logs in, then loads its account, its default training plan and the plan's detail, in that order. The detail gives the coordinates and whether today's sign-in and sign-out already exist.
  - `sign_in` and `sign_out` pick one of the three clock submissions (auto, new, update) from those two flags and the `overwrite` switch, or log why they submit nothing.
  - An `XybSign` keeps the accounts in a dictionary keyed by openid and hands them out in key order.
- **The helpers of `utils.py`.**
  - The five-field time-window strings of `TimeTools` ("weekday month day hour minute", with ranges `a-b`) and the list normalisation around them.
  - The append-only `LiteLog` buffer with its print threshold and level filter.
  - The configuration checks of the Qmsg, SMTP and Pushplus channels.
  - Qmsg's rewriting of digits into bold digits.
  - `SendMessage.send`, which tries every channel and keeps going after one fails.
- **The cloud-function entry point (`index.py`).** It maps a timer's trigger name to signing everyone in or everyone out.

Every server response is a parameter: `Resp(code, data)` for the
attendance service, `NetOutcome` for the notification channels. Each
account keeps two ghost traces:

- `requests`: every request it made, in order.
- `logged`: every line its logger wrote.

Properties such as "exactly one update submission with status 2" are stated
over these traces. Python's behaviour is written out where the code relies
on it:

- Response codes are compared with the string `"200"`.
- `bool()` truthiness and `str()` are modelled.
- Negative list indices count from the end.
- A dictionary keeps a key's first position while a later assignment replaces its value.
- The regular expressions' `$` also matches before one final newline.
- `int("")` raises ValueError.
- A comprehension raises the first error it meets.

The code does not sign its requests, does not re-read the two flags after
a submission, never replaces the plan's coordinates with a configured
location and does not validate the status argument. The model follows it:

- The flags are loaded once and never refreshed.
- `status` is passed through unchecked.
- The coordinates of the plan detail are used unconditionally.

Files:

- `py.dfy`: Python values, exceptions, `Result`/`Option`, truthiness and `str()`.
- `text.dfy`: split/join, replacement and decimal text.
- `time_tools.dfy`: `TimeTools`.
- `lite_log.dfy`: `LiteLog`.
- `notify.dfy`: Qmsg, Smtp, Pushplus and SendMessage.
- `xyb.dfy`: `XybAccount` and `XybSign`.
- `index.dfy`: `main_handler`.

## Model

| member | source | states |
|---|---|---|
| Xyb.XybAccount.constructor | xyb.py:49-65 | openid, unionid and location are stored; the session fields start as empty strings, the coordinates at zero and both flags false |
| Xyb.XybAccount.RequestError | xyb.py:69-72 | logs the message as an error and the offending response, then raises RuntimeError with that message |
| Xyb.XybAccount.Login | xyb.py:74-88 | one login request; on code "200" loginer id, session id and phone come from the response data and success is logged; on any other code RuntimeError("Login failed: openid") is raised and the three fields keep their previous values |
| Xyb.LoadStep | xyb.py:90-121 | loading passes exactly when the account, plan and detail lookups all answer "200"; the first rejected lookup decides the error; it never raises KeyError |
| Xyb.LoadRequests | xyb.py:94-112 | the lookups come in the order account, plan, detail; each is made only when all earlier ones succeeded; the detail is posted with the plan's trainee id |
| Xyb.XybAccount.LoadInfo | xyb.py:90-121 | outcome, request trace and log are those of the three lookups; the user name is set only when the account lookup succeeds and the trainee id only when the plan lookup also does; on success the coordinates come from the detail and `isSignIn`/`isSignOut` are the truthiness of `inTime`/`outTime`; on failure they are unchanged |
| Xyb.XybAccount.LoadDetail | xyb.py:112-121 | the detail lookup posts the trainee id; on "200" it sets the coordinates and both flags and logs them; otherwise it raises and changes nothing |
| Xyb.StepOutcome | xyb.py:69-72 | a step completes exactly when it passed; a rejection raises RuntimeError with its message and a missing location key raises KeyError |
| Xyb.BehaviorStep | xyb.py:123-163 | the behaviour report passes exactly when the IP lookup and the report answer "200" and the location has province, country and city |
| Xyb.XybAccount.BehaviorOf | xyb.py:133-160 | the behaviour report: the event time, the IP, the openid as device token, the user name and loginer id, and the province, country and city of the location |
| Xyb.XybAccount.SignBehavior | xyb.py:123-163 | the IP lookup is made first; the report follows only when the IP was obtained and the three location keys exist; outcome and log follow BehaviorStep |
| Xyb.PrepareStep | xyb.py:165-183 | preparation passes exactly when the behaviour report passes and the location has adcode and address |
| Xyb.XybAccount.PayloadOf | xyb.py:172-183 | the record has clockStatus = status, traineeId = train id, lat/lng = the loaded coordinates, adcode/address from the location, punchInStatus 1, deviceName "microsoft", and empty imgUrl and reason |
| Xyb.XybAccount.PrepareSign | xyb.py:165-183 | returns that record exactly when the preparation passes, otherwise the preparation's exception; the status is not checked |
| Xyb.XybAccount.PrepareRequests | xyb.py:131-171 | preparing a sign never submits a clock record |
| Xyb.XybAccount.AttemptSubmissions | xyb.py:185-213 | one attempt submits exactly one record, with the given primitive and status, when its preparation passes, and none otherwise |
| Xyb.SubmitStep | xyb.py:185-213 | after a passing preparation, a submission raises exactly when the answer is not "200", with the primitive's own failure message; a failing preparation's error passes through |
| Xyb.XybAccount.Submit | xyb.py:185-213 | `auto_sign`/`new_sign`/`update_sign`: outcome, requests and log are those of SubmitStep, with the record posted to the primitive's URL |
| Xyb.XybAccount.PostClock | xyb.py:185-213 | the clock record is posted once; a "200" answer completes and logs nothing, any other answer logs the primitive's failure and the response and raises it as RuntimeError |
| Xyb.SubmissionsAppend | xyb.py:185-213 | the submissions of two request runs are the submissions of each, in order |
| Xyb.SignInDecision | xyb.py:215-231 | submits exactly when not signed in, or when overwriting and not signed out; always with status 2 and never with the new-clock primitive; auto clock exactly when not signed in; a skip logs an error exactly when overwriting, otherwise a warning |
| Xyb.SignOutDecision | xyb.py:233-249 | submits exactly when signed in and either not signed out or overwriting; always with status 1 and never with the auto primitive; update exactly when already signed out; a skip logs an error exactly when not signed in, otherwise a warning |
| Xyb.XybAccount.Perform | xyb.py:215-249 | a skip logs its message and makes no request; a submission makes one attempt and logs the success line only when it passes |
| Xyb.XybAccount.SignIn | xyb.py:215-231 | carries out SignInDecision; the trace gains exactly one submission (that primitive, status 2) when the decision submits and the preparation passes, and none otherwise; the flags are not changed |
| Xyb.XybAccount.SignOut | xyb.py:233-249 | carries out SignOutDecision; the trace gains exactly one submission (that primitive, status 1) when the decision submits and the preparation passes, and none otherwise; the flags are not changed |
| Xyb.StartStep | xyb.py:66-67 | building an account passes exactly when the login and all three lookups answer "200" |
| Xyb.NewAccount | xyb.py:49-67 | `XybAccount(**acc)` succeeds exactly when StartStep passes and otherwise raises its exception; on success every session field, both flags and the coordinates are those of the responses, and the requests are the login followed by the three lookups |
| Xyb.Started | xyb.py:49-121 | the state a built account is in: its entry's openid, unionid and location, loginer id, session id and phone from the login, user name from the account lookup, train id from the plan, coordinates and the two `bool()` flags from the detail |
| Xyb.Registry | xyb.py:38-40 | every key of the openid dictionary maps to an entry with that openid |
| Xyb.RegistryKeys | xyb.py:38-40 | the dictionary's keys are exactly the openids in the accounts file |
| Xyb.RegistryLast | xyb.py:39-40 | an openid maps to the last entry carrying it |
| Xyb.KeyOrder | xyb.py:38-40 | the key order has no duplicates and holds exactly the dictionary's keys |
| Xyb.DistinctKeyOrder | xyb.py:39-40 | with distinct openids the keys come in file order |
| Xyb.DistinctRegistry | xyb.py:39-40 | with distinct openids each openid maps to its own entry |
| Xyb.FirstFailure | xyb.py:39-40 | the loop stops at the first entry whose build fails, and that build's error is the load's |
| Xyb.FirstFailurePasses | xyb.py:39-40 | the load passes exactly when every entry builds its account |
| Xyb.Exchanges | xyb.py:39-40 | the answers kept per openid have exactly the dictionary's keys |
| Xyb.ExchangesLast | xyb.py:39-40 | an openid keeps the answers given to the last entry carrying it |
| Xyb.StartedPut | xyb.py:40 | storing an account built from an entry keeps every stored account in the state its own entry and answers put it in |
| Xyb.PrefixStep | xyb.py:39-40 | one more entry replaces its openid's entry and answers, and appends the openid to the key order when it is new |
| Xyb.LoadedStep | xyb.py:39-40 | storing the account built from the next entry loads one entry more: the keys gain its openid, a new openid goes last, and every account is still in the state its entry and answers put it in |
| Xyb.XybSign.constructor | xyb.py:38 | the dictionary starts empty |
| Xyb.XybSign.Put | xyb.py:40 | a new key goes last, and a known key keeps its place and gets the new account |
| Xyb.XybSign.Add | xyb.py:40 | a built account is a new object stored under its openid, in the state of `Started`: its entry's openid, unionid and location, the session of the login, the user name and train id of the lookups, the plan's coordinates and both flags; a failed build raises and stores nothing |
| Xyb.XybSign.AddEntry | xyb.py:39-40 | one turn of the loop: the outcome is that entry's build; after a build every stored account is still in the state its entry and answers put it in, the keys gain the openid and a new openid goes last |
| Xyb.XybSign.AddAll | xyb.py:39-40 | the loop ends with the first failing build's exception, or with the dictionary, its key order and every account's state those of the whole file |
| Xyb.XybSign.ReportLoaded | xyb.py:41 | logs "Loaded n account(s)" with the dictionary's size |
| Xyb.XybSign.GetAccounts | xyb.py:43-45 | returns the accounts in key order, one per key, and every stored account appears |
| Xyb.LoadXybSign | xyb.py:33-41 | `XybSign.__init__` succeeds exactly when every entry builds, and otherwise raises the first failure; on success the dictionary and its key order are those of the file, each account is in the state its last entry and that entry's answers put it in (session, user, train id, coordinates, both flags), and the count is logged |
| TimeTools.NowFields | utils.py:90-92 | the time is read as five components, and the weekday runs from Monday = 1 |
| TimeTools.ParseInts | utils.py:88 | reading the entries gives one integer per entry, or ValueError |
| TimeTools.SubstItems | utils.py:85 | substitution keeps one text per item, or fails with ValueError |
| TimeTools.FieldValues | utils.py:85-88 | a field either reads as integers or raises ValueError |
| TimeTools.FieldsValues | utils.py:87-88 | the five fields read as one list each, or raise ValueError |
| TimeTools.FullMatch | utils.py:74 | the time-window pattern: five space-separated fields of comma-separated `\d+-?\d*` items, `$` also matching before a final newline; IsInTime raises the plain Exception exactly when it fails |
| TimeTools.RangeText | utils.py:78-84 | `formating`: the bounds are swapped when reversed and every integer from the lower to the upper bound is written, comma-separated (RangeTextSymmetric and RangeValues state it) |
| TimeTools.IsInTime | utils.py:59-99 | TypeError for a non-string; a plain Exception for a string the pattern rejects; otherwise a verdict or ValueError |
| TimeTools.IsInTimeMeaning | utils.py:74-99 | on an admitted string: ValueError exactly when some range has no upper bound; otherwise true exactly when each of weekday, month, day, hour and minute is denoted by an item of its field, so one mismatching field gives false |
| TimeTools.NoOpenSpanWhenRead | utils.py:85-88 | fields that read as integers contain no open range |
| TimeTools.OpenSpanWhenUnread | utils.py:85-88 | fields that fail to read contain an open range |
| TimeTools.AdmitsWhenRead | utils.py:87-99 | a component is in its field's integer list exactly when an item of the field denotes it |
| TimeTools.FieldValuesMeaning | utils.py:78-88 | a field raises exactly when it holds an open range; otherwise its integers are exactly those its items denote |
| TimeTools.ItemsValues | utils.py:78-88 | expanding and reading a comma list gives exactly the integers its items denote, and fails exactly on an open range |
| TimeTools.ItemValue | utils.py:78-88 | the same for a single item |
| TimeTools.RangeTextSymmetric | utils.py:82-84 | "b-a" is written out like "a-b", and "a-a" as just a |
| TimeTools.RangeValues | utils.py:78-84 | a range a-b expands to every integer from min(a, b) to max(a, b) inclusive |
| TimeTools.DecimalsValues | utils.py:84 | the decimals written for range(lo, hi) read back as exactly the integers lo ≤ x < hi |
| TimeTools.ParseIntsAppend | utils.py:88 | reading two runs of entries reads each, in order |
| TimeTools.StrInPlace | utils.py:118-119 | every slot of the list is replaced by its `str()` |
| TimeTools.FormatStrList | utils.py:106-120 | a string gives a one-element list; a list or tuple gives one `str()` per element, same length and order; another falsy value gives []; anything else raises TypeError |
| TimeTools.Search | utils.py:50-56 | the loop over the entries: its answer is the default false or the verdict of one of the entries |
| TimeTools.SearchTrue | utils.py:49-56 | the search answers true exactly when some entry matches and every entry before it is a well-formed mismatch |
| TimeTools.SearchFalse | utils.py:49-56 | the search answers false exactly when every entry is a well-formed mismatch, so an empty list gives false |
| TimeTools.SearchErr | utils.py:50-51 | an exception comes from the first entry that raises, after only mismatches |
| TimeTools.IsInTimeList | utils.py:40-56 | TypeError for a value `formatStrList` refuses; otherwise the answer of the search over the verdicts of the normalised entries |
| Text.Split | utils.py:87 | `split` gives at least one piece and no piece contains the separator |
| Text.JoinSplit | utils.py:87 | joining the pieces of a split restores the string |
| Text.SplitJoinInverse | utils.py:84-88 | splitting a join of separator-free pieces restores the pieces |
| Text.SplitJoin | utils.py:85-88 | splitting a join splits each piece |
| Text.SplitAround | utils.py:87-88 | splitting around one separator splits both sides |
| Text.DecimalRoundTrip | utils.py:84-88 | `int(str(n))` is n for a natural number n |
| Text.Decimal | utils.py:84 | the decimal text of a natural number is a non-empty run of digits |
| Text.Replace | utils.py:356-357 | replacing a character by one character keeps the length and changes exactly that character; the target does not occur in the result unless the replacement contains it |
| Py.Collect | utils.py:88 | a comprehension that completes yields one value per element |
| Py.CollectErr | utils.py:88 | a comprehension raises exactly when some element raises, and then it raises that element's exception |
| Py.CollectAt | utils.py:88 | the value of a completed comprehension at each position is the element's own value |
| LiteLog.LiteLog.constructor | utils.py:125-129 | prefix "main", empty list, print level 0 |
| LiteLog.LiteLog.Log | utils.py:148-156 | without arguments nothing happens; otherwise the item (type, each argument's `str()` followed by a newline) is appended, and it is printed when its type reaches the print level; a type with no display name raises IndexError once it is appended |
| LiteLog.FormatText | utils.py:132-140 | the text has at least one character per argument and, when there are arguments, ends with a newline |
| LiteLog.Selected | utils.py:162-164 | the test `level <= item[1]` keeps at most the items logged |
| LiteLog.RenderAll | utils.py:162-164 | rendering fails only with IndexError and otherwise renders one line per item |
| LiteLog.SelectedMeaning | utils.py:159-165 | the items read back are exactly those whose type is at least the level |
| LiteLog.SelectedAppend | utils.py:154-164 | appending an item adds it to what is read back exactly when its type reaches the level |
| LiteLog.RenderAllMeaning | utils.py:143-145 | rendering completes exactly when every type has a display name (Python indexing, negatives from the end), with one rendered line per item carrying the prefix and the name; otherwise it raises IndexError |
| LiteLog.ReadStep | utils.py:162-164 | one turn of the `getLog` loop renders the item when selected and goes on with the rest |
| LiteLog.LiteLog.GetLog | utils.py:159-165 | renders the selected items in log order, or raises IndexError at the first one without a display name |
| Notify.KeyPattern | utils.py:343 | `^[0-9a-f]{32}$`: exactly 32 lower-case hex digits, also before a final newline |
| Notify.QqPattern | utils.py:345 | `^\d+(,\d+)*$` read as comma-separated digit runs; QqPatternChars gives its character-level reading |
| Notify.QqTailPieces | utils.py:345 | after the first digit, the split reading and the character reading of the QQ pattern agree |
| Notify.QqPatternChars | utils.py:345 | `^\d+(,\d+)*$` (comma-separated digit runs) holds exactly when the text is non-empty, contains only digits and commas, has digits at both ends and never two commas in a row |
| Notify.QmsgIsCorrectConfig | utils.py:337-348 | holds exactly when key and qq are strings, the key is 32 lower-case hex digits and qq is digit runs separated by single commas (each tolerating one final newline) |
| Notify.BoldDigit | utils.py:356 | a bold digit is not an ASCII digit |
| Notify.BoldText | utils.py:356-357 | the rewritten message has the same length and no ASCII digit |
| Notify.BoldRoundTrip | utils.py:356-357 | only the digits change: reading bold digits back restores a message that had none |
| Notify.QmsgReply | utils.py:359-366 | "无效配置" exactly when the configuration was rejected; an exception exactly when it was accepted and the post raised |
| Notify.Qmsg.constructor | utils.py:326-335 | key, qq and isGroup are stored |
| Notify.Qmsg.Request | utils.py:354-365 | a post is made exactly for an accepted configuration, carrying the message with every digit in bold |
| Notify.Qmsg.Send | utils.py:350-366 | the digit loop turns the message into its bold form; the post and the answer are those above |
| Notify.SmtpConfigOk | utils.py:388-399 | the configuration SMTP accepts: a list of receivers, and host, user, key, sender and every receiver non-empty strings without `*`; the sender's name is not checked |
| Notify.SmtpIsCorrectConfig | utils.py:388-399 | accepts exactly when receivers is a list and host, user, key, sender and every receiver are non-empty strings without `*`; the sender name is not checked |
| Notify.MailHtml | utils.py:406-407 | the HTML body has no newline left |
| Notify.SmtpReply | utils.py:409-429 | "无效配置" exactly when the configuration was rejected; an exception exactly when it was accepted and sending raised |
| Notify.Smtp.constructor | utils.py:372-386 | the six settings are stored, and the verdict of the check is kept |
| Notify.Smtp.Request | utils.py:401-428 | a mail is sent exactly for an accepted configuration, over port 465, with the title as subject and a body without newlines |
| Notify.Smtp.SendMail | utils.py:401-429 | the mail and the answer are those above |
| Notify.Pushplus.constructor | utils.py:271-280 | parameters and isNew are stored |
| Notify.Pushplus.ConfigIsCorrect | utils.py:282-288 | accepted exactly when the parameters are a non-empty string |
| Notify.PushplusReply | utils.py:313-320 | "发送成功" exactly on status 200, "发送失败" on any other status, "无效配置" exactly for a rejected configuration, and an exception exactly when the post raised |
| Notify.Pushplus.Request | utils.py:290-314 | a post is made exactly for an accepted configuration, to the API chosen by isNew, as a query string exactly when the parameters contain `=`, with newlines turned into `</br>` |
| Notify.Pushplus.SendPushplus | utils.py:290-320 | the post and the answer are those above |
| Notify.Get | utils.py:241-249 | `con.get(name)`: the value of a present key, otherwise None, where a non-dict counts as empty |
| Notify.SendMessage.constructor | utils.py:240-250 | each channel is built from its settings and the report starts as "推送情况\n" |
| Notify.SendMessage.Send | utils.py:252-265 | every channel is tried in turn, and the report gains each channel's answer or its exception text, so one failing channel does not stop the others |
| Index.IndexOf | index.py:10 | `tuple.index`: the first position holding the name |
| Index.MainHandler | index.py:6-12 | dispatches exactly when TriggerName is present and equal to "SignIn" or "SignOut", and otherwise raises RuntimeError with the configuration message; "SignIn" signs in and "SignOut" signs out, always with overwrite |
| Index.MainHandlerAsWritten | index.py:9-10 | as written: the dispatch decision, then the registry is built, then the chosen method is looked up on `XybSign`; a method it does not define raises AttributeError |
| Index.HandlerAlwaysRaises | index.py:9-10 | as written, the handler raises on every event: a valid trigger that loads every account ends in AttributeError |
| Index.SignInTriggerRaises | index.py:10 | the sign-in trigger ends in AttributeError("sign_in_all") |

## Left out

- Network I/O. `requests` sessions, SMTP and the Qmsg and Pushplus posts are not modelled. Responses are parameters and requests are recorded as values, and a response is reduced to its code and the data fields the code reads.
- The clock. `time.time()` in `sign_behavior` is a parameter, and the `time.localtime` conversion in `isInTime` is replaced by its five fields as input. `formatStartTime`, `executionSeconds` and the float elapsed-time stamp of `LiteLog` are wall-clock values.
- File I/O. `TextData`, the reading of `accounts.json` (the model starts from the parsed list of entries), `LiteLog.saveLog` and `FileOut` are not part of this model.
- `init_logger` and the renaming of an account's logger after the account lookup are logging setup only.
- LiteLog.Log: the `yaml.dump` branch of `formatLog` for dict and list arguments is not modelled, because `yaml` is never imported in utils.py. Arguments are scalars. As written, a dict or list argument makes `formatLog` raise NameError for `yaml` before anything is appended to the log.
- LiteLog.LiteLog.GetLog: returns the rendered items rather than the joined text with the `%0.3f` time stamp.
- The Pushplus `parse_qs`/`urlparse` decoding of query-string parameters is a library call. The query text is kept as it is.
- MIME construction, attachments, sender-name encoding and the constant headers and behaviour-report fields are not modelled.
- TimeTools.IsInTime: `\d` is taken to be an ASCII digit. Python's `str` patterns also accept other Unicode decimal digits.
- Notify.QmsgIsCorrectConfig: `\d` in the QQ pattern of utils.py:345 is taken to be an ASCII digit. Python's `str` pattern also accepts other Unicode decimal digits (a fullwidth "１", say), which this model rejects, so `Qmsg.Send` answers "无效配置" where the code would post.
- Notify.QqPattern: the same ASCII reading of `\d`.
- TimeTools.FormatStrList: of the `collections.abc.Sequence` types, only lists and tuples are modelled. Bytes, ranges and other sequences are not. The elements of a list or tuple are scalars (None, bool, int or str), so `str()` of a float, a nested list or a dict element is not modelled.
- A message or title passed to the channels is a string, so their `str(msg)` conversion is the identity here.
- Keyword-argument errors of `XybAccount(**acc)` for a malformed accounts entry are not modelled, and openids are strings.
- A response whose `data` lacks a key the code reads, or a non-JSON response, is not modelled.
- What `sign_in_all`/`sign_out_all` would do is not modelled, since no such methods exist (see Findings). The model stops at the dispatch decision.

## Findings

| source | as written | input that shows it | evidently intended | confidence | as-written member | corrected member |
|---|---|---|---|---|---|---|
| index.py:10 | calls `tools.sign_in_all(True)` / `tools.sign_out_all(True)`, methods `XybSign` does not define (it has only `get_accounts`) | event `{"TriggerName": "SignIn"}` with every account loading: AttributeError `sign_in_all`, so no account is ever signed | sign every account in (or out) with overwrite, as the dispatch decision says | high, not executed | Index.MainHandlerAsWritten | Index.MainHandler |
