# tsync connection core in Dafny

tsync links a Telegram account to a web page and to an n8n webhook. It
comes in two server variants:

- a Flask + Socket.IO server (`app.py`), which runs the Telethon login in a
  dedicated thread with its own event loop;
- a FastAPI + Socket.IO server (`main.py`), which runs it as an asyncio
  task. An older copy of this variant (`templates/main.py`) keeps its own
  log buffer, which as written is never appended to (see "## Left out").

Both variants hold the connection state in module globals: `connected`,
`telegram_client`, `user_info`, `current_session`, the task or thread, and
the auth queue. HTTP routes, Socket.IO handlers and the login flow all
update that state.

This project models it as follows:

- The state of each server is a class whose fields are those globals. Each
  method is one atomic step of the source, meaning the code between two
  `await`s or thread hand-offs. Each method is proved equal to a pure step
  function over a `State` datatype. The Socket.IO `status_update` events a
  step emits accumulate in a ghost `events` list.
- Lemmas about the step functions state the guards and outcomes of every
  step. They also prove two invariants over every reachable state:
  - for `main.py`, connected means online with the held client;
  - for `app.py`, no thread is ever in `run_forever`.
- Around the servers sit:
  - the auth queue;
  - the bounded log buffer;
  - automatic log clearing;
  - session listing;
  - the recent-chats filter;
  - the client wrapper in `telegram_sync.py`;
  - the send paths of `main.py`.

Python semantics the source relies on are written out:

- truthiness of JSON values and optional strings;
- `int()` on text;
- `str.strip` / `lstrip` / `strip('-')`;
- `s[-n:]`;
- floor division by 60;
- `isinstance(True, int)`;
- variables that a function assigns without declaring them `global`.

Telethon calls are parameters: what `connect()`, `start()`,
`is_user_authorized()`, `get_me()`, `iter_dialogs()`, `get_entity()` and
`send_file()` returned. The file system is the set of names whose
`<name>.session` file is in the working directory, where the routes look
(main.py:210-211, app.py:248-249). Telethon keeps its own session under
`sessions/<name>.session` (telegram_sync.py:41, 61), so a successful login
never adds a name to this set, and connecting the same name again still
needs a phone. The `Queue` class of `auth_queue.dfy` is the stand-alone
view of `auth_queue`; the two servers keep the queue as a field of their
own state, put through the same `Put`, and take from its front inline. A
timeout is an explicit outcome. Where the code and a comment disagree, the
model follows the code. The scoping defects are modelled as written:

- `main.py:447` does not declare `telegram_client`, `current_session` or
  `user_info` global;
- the inner coroutine at `app.py:667` does not declare `loop` global;
- `app.py:656` does not declare `telegram_thread` global.

| file | module |
|---|---|
| `python.dfy` | `Python`: Option, JSON values, truthiness, string and integer conversions |
| `lifecycle.dfy` | `Lifecycle`: `user_info`, prompts, Telethon outcomes, Socket.IO events, route replies |
| `auth_queue.dfy` | `AuthQueue`: the code/password hand-off queue |
| `logs.dfy` | `Logs`: the bounded log buffer of all three servers |
| `sessions.dfy` | `Sessions`: `*.session` listing |
| `auto_clear.dfy` | `AutoClear`: automatic log clearing and its settings routes |
| `entities.dfy`, `chats.dfy` | `Entities`, `Chats`: the recent-chats listing |
| `telegram_sync.dfy` | `TelegramSync`: display names, chat-id coercion, webhook payloads, `start` |
| `send_photo.dfy` | `SendPhoto`: `send_message_logic` and `send_photo_logic` of `main.py` |
| `task_lifecycle.dfy` | `TaskLifecycle`: the `main.py` connection lifecycle |
| `thread_lifecycle.dfy` | `ThreadLifecycle`: the `app.py` connection lifecycle |

## Model

| member | source | states |
|---|---|---|
| Python.OrEmpty | main.py:593-598 | `caption or ""`: the text when it is a non-empty string, otherwise the empty string |
| Python.LStripSpec | main.py:567 | `lstrip` removes exactly a leading run of the given characters and stops at the first other one |
| Python.RStripSpec | main.py:567 | `rstrip` removes exactly a trailing run of the given characters |
| Python.NatToStrValue | telegram_sync.py:206-207 | the decimal text of a natural number is its digits and reads back as that number |
| Python.IntToStrRoundTrip | main.py:535-538 | `int(str(i)) == i` for every integer, negative ones included |
| Python.LowerSpec | main.py:558 | `lower()` keeps the length, leaves no ASCII capital, changes no other character, and lowering twice is lowering once |
| Python.StripDecimal | main.py:567 | the decimal text of an integer has no surrounding whitespace, so `strip()` keeps it |
| Python.RemoveAll | main.py:123 | `str.replace(m, "")` never lengthens the text |
| Python.RemoveAllAbsent | main.py:123 | `replace` leaves text without the pattern unchanged |
| AuthQueue.Delivered | app.py:855-875 | only truthy responses reach the queue, so at most one per response |
| AuthQueue.DeliveredMembers | app.py:855-875 | a value is queued exactly when some response carried it as a non-empty string; nothing empty is ever queued |
| AuthQueue.Get | app.py:827-832 | a timed get returns the front item and the rest, or `None` exactly on an empty queue |
| AuthQueue.GetN | app.py:822-850 | one result per get |
| AuthQueue.PutAllAppends | main.py:657-673 | a run of `code_response`/`password_response` calls appends the truthy values in order; nothing else is queued and none is lost |
| AuthQueue.GetNReturnsQueue | main.py:322-354 | successive gets return the queued items front first |
| AuthQueue.FifoHandOff | main.py:360-362 | starting from a drained queue, the callbacks receive exactly the truthy answers, in the order they were sent |
| AuthQueue.Queue.constructor | app.py:73 | the queue starts empty |
| AuthQueue.Queue.PutResponse | app.py:857-860 | the put behind the truthiness check, in place |
| AuthQueue.Queue.GetNowait | app.py:773 | `get_nowait` pops the front item; `None` stands for `queue.Empty` |
| AuthQueue.Queue.Drain | app.py:772-774 | the `while not empty()` loop leaves the queue empty |
| Logs.TailSliceIsSuffix | app.py:83-87 | cutting back to `n` keeps at most `n` entries, and they are a suffix of the list: the newest ones, oldest first |
| Logs.TailSliceAppend | app.py:83-87 | appending to an already cut-back buffer and cutting back equals cutting back the whole history |
| Logs.AppendAllWindow | main.py:71-73 | after any run of appends the buffer is exactly the newest `MAX_LOGS` entries of the whole history |
| Logs.WindowOfWindow | app.py:83-87 | cutting back early loses nothing that a later cut-back keeps, whatever is appended in between |
| Logs.AppendKeepsNewest | app.py:83-87 | after an append and the cut-back the bound holds and the new entry is last |
| Logs.LogBuffer.constructor | app.py:66-67 | an empty buffer with its `MAX_LOGS` bound |
| Logs.LogBuffer.Emit | app.py:79-87 | `SocketIOHandler.emit`: append, then keep the last `MAX_LOGS` entries |
| Logs.LogBuffer.LogAndStore | main.py:59-73 | `log_and_store`: append, then the unconditional cut-back to `MAX_LOGS` (200) |
| Logs.LogBuffer.Clear | main.py:154-162 | main.py's manual clear empties the buffer and reports how many entries went |
| Logs.LogBuffer.ClearAndAnnounce | app.py:199-203 | a clear followed by the clearing's own log line: the buffer holds exactly that line |
| Logs.LogBuffer.AutoClearIfNonEmpty | main.py:77-88 | main.py's tick clears exactly when auto-clear is on and the buffer is non-empty, and otherwise keeps it |
| Logs.LogBuffer.AutoClearIfEnabled | templates/main.py:154-173 | the templates' tick empties the buffer and reports the previous count when `AUTO_CLEAR_LOGS` is set, and leaves it unchanged otherwise |
| Sessions.Glob | app.py:118 | `glob("*.session")` keeps exactly the listed files that end in `.session` and are not hidden |
| Sessions.AvailableSessionsMembership | main.py:121-123 | a name is offered exactly when some globbed file's name becomes it under `replace` |
| Sessions.OfferedWithoutOwnFile | main.py:123 | because `replace` drops every `.session`, `a.sessionb.session` is offered as the plain name `ab`, whose own file is absent |
| Sessions.RemoveAllBeforeSuffix | main.py:123 | a plain name followed by `.session` loses exactly its suffix under `replace` |
| Sessions.SessionFileRoundTrip | app.py:113-122 | a plain session's file is globbed and maps back to the same name |
| Sessions.ListedSessionIsAvailable | app.py:113-122 | every plain session whose file is on disk is offered |
| Sessions.CollectSessions | app.py:113-122 | app.py's `for` loop builds exactly main.py's listing |
| AutoClear.Minutes | app.py:235 | `AUTO_CLEAR_INTERVAL // 60` is the floor of the seconds divided by 60 |
| AutoClear.MinutesRoundTrip | main.py:188-190 | storing `m * 60` seconds and reporting `// 60` returns `m` |
| AutoClear.CancelCurrent | app.py:154-156 | cancelling touches only the held timer and keeps every other timer |
| AutoClear.AppStartupInv | app.py:889 | scheduling at start-up leaves exactly one pending clear, every `AUTO_CLEAR_INTERVAL` seconds |
| AutoClear.CancelCurrentNonePending | app.py:154-156 | after cancelling the held timer no clear is pending |
| AutoClear.AppScheduleInv | app.py:151-162 | `schedule_log_clearing` keeps the invariant and arms a clear exactly when auto-clear is truthy |
| AutoClear.AppToggleInv | app.py:206-236 | the toggle route keeps the invariant |
| AutoClear.AppFireInv | app.py:127-146 | a timer firing keeps the invariant |
| AutoClear.AppOnePending | app.py:151-162 | at most one clear is ever pending |
| AutoClear.AppToggleInterval | app.py:223-235 | the interval is accepted only as an `int` of at least 1 and stored as `interval * 60` seconds; otherwise it is kept |
| AutoClear.AppToggleEnabled | app.py:210-211 | the auto-clear flag is stored as sent, whatever JSON value it is |
| AutoClear.AppToggleTrueInterval | app.py:223-225 | a JSON `true` passes `isinstance(…, int)` and is taken as one minute |
| AutoClear.AppToggleStringFalseEnables | app.py:210-215 | the string `"false"` is truthy, so it leaves a clear armed |
| AutoClear.AppToggleArms | app.py:216-235 | after a toggle a clear is pending exactly when auto-clear is truthy |
| AutoClear.AppStatusInSeconds | app.py:173-181 | after setting `m` minutes, the toggle reports `m` while the status route reports `m * 60` |
| AutoClear.AppFireClears | app.py:127-146 | a fire from a reachable state always clears, announces the dropped count and re-arms with the current interval |
| AutoClear.AppAutoClear.constructor | app.py:68-70 | the import-time values: on, 300 seconds, no timer |
| AutoClear.AppAutoClear.CancelHeld | app.py:154-156 | `log_clear_timer.cancel()` in place |
| AutoClear.AppAutoClear.Schedule | app.py:151-162 | `schedule_log_clearing` in place |
| AutoClear.AppAutoClear.Toggle | app.py:206-236 | the toggle route updates the globals and answers as the step function says |
| AutoClear.AppAutoClear.Fire | app.py:127-146 | `clear_logs_task` on the shared buffer: it clears and announces when on, leaves the buffer alone when off, and re-arms |
| AutoClear.CancelTask | main.py:183-184 | the cancel stops only the held task |
| AutoClear.MainStartupInv | main.py:90-97 | after start-up exactly the held task runs, and auto-clear is on |
| AutoClear.CancelCreateInv | main.py:183-186 | cancel-then-create leaves only the new task running |
| AutoClear.MainToggleInv | main.py:173-201 | the toggle keeps main.py's invariant: the task runs exactly when auto-clear is on, and the interval is a whole number of minutes from 1 to 60 |
| AutoClear.ApplyEnabledInv | main.py:178-186 | setting `enabled` keeps the invariant: the old task is cancelled and a new one runs exactly when auto-clear is now on |
| AutoClear.ApplyIntervalInv | main.py:188-196 | setting an interval of 1 to 60 minutes keeps the invariant: it is stored as whole minutes in seconds and a running task is restarted |
| AutoClear.MainToggleOutcomes | main.py:168-201 | an interval outside 1..60 is refused by validation; no setting gives 400; otherwise success with the new values |
| AutoClear.MainToggleMessage | main.py:176-201 | the success message names each setting given, in order, joined by a space |
| AutoClear.MainStatusRoundTrip | main.py:133-141 | once started, the status route's minutes times 60 are exactly the stored seconds |
| AutoClear.MainAutoClear.constructor | main.py:54-55 | the import-time values: on, 900 seconds, no task |
| AutoClear.MainAutoClear.CancelHeld | main.py:183-184 | the cancel, in place |
| AutoClear.MainAutoClear.StartTask | main.py:185-186 | `create_task`, in place |
| AutoClear.MainAutoClear.Startup | main.py:90-97 | the startup event, in place |
| AutoClear.MainAutoClear.Toggle | main.py:173-201 | the toggle route, in place |
| AutoClear.ConnectSnapshot | templates/main.py:129-141 | the snapshot for a connecting client carries `connected`, `user_info`, `current_session` and the flag, with the interval in floor minutes |
| AutoClear.ConnectSnapshotInitial | templates/main.py:45 | with the module's initial interval a client is told 5 minutes |
| Entities.AttrOrText | telegram_sync.py:95-97 | `getattr(x, name, '') or ''` is the same text as `x.name or ''` behind `hasattr`; a read is truthy exactly for a non-empty value, or an absent one with a non-empty default |
| Chats.KeyIfTruthy | main.py:516-519 | an optional key is set exactly when its value is truthy |
| Chats.GetChats | main.py:504-527 | the loop yields exactly the filtered records and the marker id of the filter and marker functions |
| Chats.RecentChatsAppend | main.py:509-524 | the filter works dialog by dialog and keeps iteration order |
| Chats.RecentChatsSingle | main.py:512-522 | one record per kept dialog, none for a stale one |
| Chats.CutoffIsInclusive | main.py:511-513 | a dialog exactly seven days old is listed; an older one is not |
| Chats.ChatNameDefaults | main.py:515-520 | a `User` with a last name gets the stripped "first last"; an empty name becomes `(Nome Indisponível)` |
| Chats.MarkerIdLastWins | main.py:521 | `reconquest_map_id` is `None` exactly when no kept dialog is marked, and otherwise the id of the last marked one |
| Lifecycle.UserInfoOf | main.py:409 | `user_info` after login holds the account's first name and id, and is never the reset value |
| Lifecycle.Resets | main.py:443 | counts the reset status updates; zero exactly when there are none |
| Lifecycle.ResetsAppend | main.py:497-502 | reset counts add up over concatenated runs of events |
| TelegramSync.StripDropsTrailingSpace | telegram_sync.py:85 | `strip` removes the space left by a missing last name |
| TelegramSync.StripDropsLeadingSpace | telegram_sync.py:85 | `strip` removes the space left by a missing first name |
| TelegramSync.FormatUserNameCases | telegram_sync.py:81-85 | `None` counts as `""`: the name is "first last", either part alone, or `""` for two empty parts |
| TelegramSync.DigitsAndDashes | telegram_sync.py:140 | text whose `strip('-')` is all digits consists of digits and dashes |
| TelegramSync.DashDigitParse | telegram_sync.py:141 | over digits and dashes, `int()` accepts exactly plain and minus-signed digit strings |
| TelegramSync.DashStripOfNumber | telegram_sync.py:140 | `strip('-')` leaves digits alone and drops one leading minus |
| TelegramSync.CoerceChatIdSpec | telegram_sync.py:139-143 | the coercion turns text into an integer exactly when it is a plain or minus-signed number, and keeps it otherwise |
| TelegramSync.CoerceDecimalText | telegram_sync.py:139-143 | an integer sent as its decimal text comes back as that integer |
| TelegramSync.CoerceKeepsStrayDash | telegram_sync.py:139-143 | `"12-"` passes the `isdigit` test, `int()` refuses it, and it stays text |
| TelegramSync.CoerceKeepsDoubledMinus | telegram_sync.py:139-143 | `"--5"` stays text |
| TelegramSync.CoerceNegativeGroupId | telegram_sync.py:139-143 | a group id in text becomes the negative integer |
| TelegramSync.SendPhoto | telegram_sync.py:169-182 | `send_photo` coerces the chat id as `send_message` does and forwards the file, caption and parse mode unchanged |
| TelegramSync.GetUserInfo | telegram_sync.py:87-111 | a failed lookup gives the caller's id with empty first name, last name and username; a successful one gives the entity's id |
| TelegramSync.IncomingPayload | telegram_sync.py:197-215 | the incoming payload: direction, event type, chat id as text, message, privacy flag, a username that is never `None`, and the chat title or "Direct Message" |
| TelegramSync.IncomingFoundSender | telegram_sync.py:199-208 | for a sender the lookup finds, `user_name` is the formatted name of its attributes and `username` its username, each `""` when absent or `None` |
| TelegramSync.IncomingSender | telegram_sync.py:199-208 | `user_id` is the looked-up id, falling back to the event's sender id |
| TelegramSync.OutgoingPayload | telegram_sync.py:222-256 | the outgoing payload defaults `user_id` to the chat id and the name to the chat title; the peer's details replace them only for a private chat whose peer lookup succeeds |
| TelegramSync.ChatActionPayloads | telegram_sync.py:264-332 | no payload for other actions; otherwise one per listed user id, in order, with the join or leave type; without listed ids, one for a truthy `user_id`, and none when that is missing or zero |
| TelegramSync.ActionPayloadNamesUser | telegram_sync.py:285-331 | each chat-action payload names the user it is about |
| TelegramSync.StartResultSpec | telegram_sync.py:351-380 | the client calls stop at the first that raises, and `start` raises exactly when its last call did; it returns `True` only after `get_me` returned and `False` only when the account is not authorized |
| TelegramSync.WrapperHasCallback | telegram_sync.py:342-359 | the password wrapper is handed over only with a callback, so its `RuntimeError` cannot be raised through `start` |
| SendPhoto.SendMessageTargetSpec | main.py:535-538 | `int(chat_id)` on text: an integer exactly when the text parses, and then the parsed value; otherwise the original text; an integer passes unchanged, and converting twice is converting once |
| SendPhoto.SendMessageTargetDecimal | main.py:535-538 | the decimal text of an integer is converted back to that integer |
| SendPhoto.SendMessageLogic | main.py:529-546 | no client gives 500 "Cliente Telegram não inicializado"; otherwise the message is sent to the converted chat id; a sent message gives its id, and a failure a 500 "Erro ao enviar mensagem: " with the exception text |
| SendPhoto.SendMessageDecimalText | main.py:529-546 | a chat id given as the decimal text of an integer is sent to exactly as that integer |
| SendPhoto.NormaliseParseMode | main.py:555-561 | the parse mode is the lower-cased name exactly when it is `markdown` or `html` in any case, and `None` otherwise |
| SendPhoto.ParseModeAnyCase | main.py:557-559 | `HTML` becomes `html`, `Markdown` becomes `markdown`, `md` is dropped |
| SendPhoto.DashesThenDigits | main.py:567 | text passing `lstrip('-').isdigit()` is non-empty digits after leading dashes |
| SendPhoto.LStripOfNumber | main.py:567 | `lstrip('-')` leaves digits alone and drops the one minus of a negative number |
| SendPhoto.GuardedParse | main.py:567-568 | behind the `lstrip('-').isdigit()` guard, `int()` succeeds exactly for plain or singly minus-signed digits |
| SendPhoto.CoerceEntityIdSpec | main.py:564-571 | the coercion yields an integer exactly for blank-padded plain or minus-signed numbers, and keeps the text otherwise |
| SendPhoto.StripBlankFive | main.py:567 | `" 5".strip()` is `"5"` |
| SendPhoto.ParseBlankFive | main.py:568 | `int(" 5")` is 5 |
| SendPhoto.CoerceEntityIdBlanks | main.py:564-571 | unlike the client wrapper's, this coercion accepts surrounding blanks |
| SendPhoto.CatchAll | main.py:613-622 | the catch-all maps a download failure to 400, an unresolved entity to 404, and anything else to 500 |
| SendPhoto.SendPhotoLogic | main.py:548-622 | no connected client gives 400; the coerced chat id is looked up, and a failed lookup goes through the catch-all with its exception text; a found chat gets the `send_file` call built from the caption and parse mode; a sent photo gives its id; a `ForbiddenError` gives 403 with the permission text quoting the chat and Telegram's error, a `UserIsBlockedError` 403 with the blocked text quoting the chat; any other failure goes through the catch-all |
| SendPhoto.CoerceEntityIdDecimal | main.py:564-571 | the decimal text of an integer is coerced to that integer |
| SendPhoto.SendPhotoDecimalText | main.py:548-622 | a chat id given as the decimal text of an integer gets exactly the answer the integer gets |
| SendPhoto.SendPhotoNormalisedInputs | main.py:555-561 | a missing caption and an empty one, and `HTML` and `html`, give the same `send_file` call and answer |
| SendPhoto.PhotoCallSpec | main.py:593-598 | the `send_file` call carries the entity found and the URL; the caption is empty exactly when it was missing or empty; the parse mode is set exactly when the given one is `markdown` or `html` in some case, and then lower-cased |
| SendPhoto.StatusDigits | main.py:582-585 | the status codes 400 and 404 print as "400" and "404" |
| SendPhoto.NotFoundPartsPlain | main.py:582 | the fixed parts of the 404 text mention neither catch-all marker |
| SendPhoto.ShortNotContains | main.py:614-618 | a text shorter than a marker cannot contain it |
| SendPhoto.QuotedPlain | main.py:582-588 | a quoted chat id mentions a marker only when one of its parts does |
| SendPhoto.QuotedAfter | main.py:613-622 | a prefix in front of a quotation stays in front of it |
| SendPhoto.NotFoundText | main.py:582 | `str()` of the 404 exception is "404: " followed by its detail |
| SendPhoto.NotFoundTextPlain | main.py:582 | the 404 text of an unresolved chat mentions neither catch-all marker |
| SendPhoto.BadTypeText | main.py:585 | `str()` of the 400 exception is "400: " followed by its detail |
| SendPhoto.BadTypePartsPlain | main.py:585 | the fixed parts of the 400 text mention neither marker |
| SendPhoto.BadTypeTextPlain | main.py:585 | the 400 text of a badly typed chat mentions neither marker |
| SendPhoto.NotFoundBecomes500 | main.py:573-622 | as written, a chat that `get_entity` cannot resolve gets a 500, not the 404 raised for it |
| SendPhoto.BadTypeBecomes500 | main.py:573-622 | as written, a `TypeError` from the lookup gets a 500, not the 400 raised for it |
| TaskLifecycle.DisconnectLogicStep | main.py:463-502 | `disconnect_telegram_logic` as a step: the run it cancels and the reset it performs. It raises on `None.cancel()` (line 477) exactly when the run, let finish by the client's disconnect, has already cleared `telegram_client_task` in its `finally` (lines 436-442); otherwise it answers `True` |
| TaskLifecycle.FinallyGuard | main.py:434-443 | the run's `finally` clears the four globals and the task, and emits one reset, exactly when the ending run's session is the current one; otherwise it only marks the task done |
| TaskLifecycle.FailureReported | main.py:434-443 | a failure is one status update naming the session, followed by what the `finally` does |
| TaskLifecycle.BeginDrains | main.py:358-375 | every run starts from an empty auth queue; an existing file is validated first, a new session starts with its phone; nothing else changes |
| TaskLifecycle.FailStepFacts | main.py:428-434 | a caught exception keeps the session files and its status update comes first |
| TaskLifecycle.ValidationOutcomes | main.py:375-394 | a validated session logs in without the phone; a failed validation removes the file and reports the wrapped error |
| TaskLifecycle.AuthorizationRecordsAccount | main.py:406-417 | on authorization the client, `user_info`, `connected` and `current_session` are set together, and exactly one connected status update is emitted |
| TaskLifecycle.LoginFailures | main.py:421-433 | a refused login removes the file and reports "Falha na autorização final"; a raised one reports the exception, an unnamed kind with "Erro inesperado: " |
| TaskLifecycle.CancelBeforeStartRunsNothing | main.py:449-454 | cancelling a task that never ran executes none of its code |
| TaskLifecycle.InitialInv | main.py:45-49 | the start-up state satisfies the invariant |
| TaskLifecycle.InvPreserved | main.py:356-502 | every task step and every route keeps the invariant that connected means online with the held client and the current session, and that otherwise nothing is held |
| TaskLifecycle.ExecuteKeepsInv | main.py:356-502 | hence every reachable state satisfies it |
| TaskLifecycle.StartLogicKeepsInv | main.py:445-461 | a restart keeps the invariant and leaves the server not connected |
| TaskLifecycle.PartialResetKeepsSession | main.py:447-457 | as written, the forced reset clears only `connected` and the task; the client, `user_info` and `current_session` survive it |
| TaskLifecycle.PartialResetDormant | main.py:451-457 | from any reachable state the forced reset never fires: a restart emits only what the cancelled run's `finally` emitted, one reset when it was connected |
| TaskLifecycle.DisconnectLogicClears | main.py:463-502 | from any reachable state a disconnect leaves nothing held and no live task, and emits exactly one reset when it was connected, none otherwise |
| TaskLifecycle.DisconnectWithoutTaskIdempotent | main.py:497-502 | with no live task a disconnect resets once if connected, otherwise changes nothing; it answers `True`, and a second call changes nothing |
| TaskLifecycle.ConnectApiOutcomes | main.py:208-224 | a new session without a phone gets 400 and starts nothing; otherwise a fresh task starts for the session |
| TaskLifecycle.RemoteFirstDisconnectRaises | main.py:227-239 | from any reachable connected state, a disconnect whose run ends first raises after the reset, and `disconnect_api` answers a plain 500; when the cancellation arrives first it answers the success message |
| TaskLifecycle.DisconnectApiNotConnected | main.py:227-239 | when not connected, `disconnect_api` answers "Não conectado" and changes nothing |
| TaskLifecycle.RemoveSessionOutcomes | main.py:245-266 | the file goes and the new listing is announced exactly when it existed and the disconnect before it did not raise; when that disconnect raises (line 253), the file stays, no listing is announced and the route answers a plain 500; a missing file is reported; removing the current session disconnects it |
| TaskLifecycle.TaskServer.constructor | main.py:45-49 | the import-time globals over the session files on disk |
| TaskLifecycle.TaskServer.ForceReset | main.py:456-457 | the forced reset, in place |
| TaskLifecycle.TaskServer.RunFinally | main.py:434-443 | the run's `finally`, in place |
| TaskLifecycle.TaskServer.Fail | main.py:428-433 | a reported failure, then the `finally` |
| TaskLifecycle.TaskServer.Begin | main.py:356-373 | the start of the run, with its `while` drain of the queue |
| TaskLifecycle.TaskServer.Validated | main.py:375-394 | the validation outcome, in place |
| TaskLifecycle.TaskServer.Ask | main.py:322-354 | a login callback asks for the code or password |
| TaskLifecycle.TaskServer.TakeAnswer | main.py:328-331 | the callback gets the queue's front item |
| TaskLifecycle.TaskServer.WaitTimesOut | main.py:332-334 | the callback's wait times out |
| TaskLifecycle.TaskServer.LoginEnded | main.py:399-433 | the end of `start`: authorized and online, refused, or raised |
| TaskLifecycle.TaskServer.ClientDisconnected | main.py:419-443 | `run_until_disconnected` returns and the `finally` runs |
| TaskLifecycle.TaskServer.CancelAndAwait | main.py:449-454 | cancelling the live task and awaiting it |
| TaskLifecycle.TaskServer.StartLogic | main.py:445-461 | `start_telegram_client_logic`, in place; it answers `True` |
| TaskLifecycle.TaskServer.DisconnectLogic | main.py:463-502 | `disconnect_telegram_logic`, in place: the new globals, the events and the outcome (`True`, or the raise on `None.cancel()`) are those of `DisconnectLogicStep` |
| TaskLifecycle.TaskServer.DisconnectApi | main.py:227-239 | `POST /api/disconnect`, in place, as `DisconnectApiStep`: a raise from the disconnect becomes a plain 500 |
| TaskLifecycle.TaskServer.ConnectApi | main.py:208-224 | `POST /api/connect`, in place |
| TaskLifecycle.TaskServer.RemoveSessionApi | main.py:245-266 | `POST /api/remove-session`, in place, as `RemoveSessionStep`: a raise from the disconnect ends the route before the file is touched |
| TaskLifecycle.TaskServer.Response | main.py:657-673 | `code_response` / `password_response`, in place |
| ThreadLifecycle.CoroutineEnds | app.py:757-795 | the coroutine's end keeps the set of threads; what it does (the thread closing and the failure report) is stated by `CoroutineEndsInFailure`, and its `finally` by `CoroutineFinallyGuard` |
| ThreadLifecycle.LoopStoppedStep | app.py:785-804 | a processed `loop.stop` keeps the set of threads and the stop request; that it closes the thread and reports the internal thread error is stated by `LoopStopReported` |
| ThreadLifecycle.ThreadFinallyStep | app.py:805-818 | the thread's `finally` keeps the set of threads; when it resets and what it leaves alone is stated by `ThreadFinallyGuard` and `ThreadFinallyAfterRouteReset` |
| ThreadLifecycle.JoinStep | app.py:301-307 | a join keeps the set of threads; which thread ends is stated by `JoinOutcomes` |
| ThreadLifecycle.PostStop | app.py:300 | posting `loop.stop` to a loop not yet closed keeps the set of threads; its effect is stated by `PostStopOutcomes` |
| ThreadLifecycle.WhileRouteWaits | app.py:291-307 | what the threads do while the route waits, including the held client's thread closing the loop before the stop is posted, keeps the set of threads; the outcome it gives the route is stated by `DisconnectRouteResets` |
| ThreadLifecycle.HeldClientEnds | app.py:281-286 | disconnecting the held client keeps the set of threads; when its coroutine ends is stated by `HeldClientEndsOutcomes` |
| ThreadLifecycle.StopAndJoin | app.py:297-303 | posting the stop and joining the thread keeps the set of threads; the two parts are stated by `PostStopOutcomes` and `JoinOutcomes` |
| ThreadLifecycle.DisconnectRouteStep | app.py:275-332 | `disconnect_route` keeps the set of threads; its replies and resets are stated by `DisconnectRouteNotConnected` and `DisconnectRouteResets` |
| ThreadLifecycle.SetPhaseNoForever | app.py:782-795 | moving a thread to any phase other than `run_forever` keeps the invariant |
| ThreadLifecycle.CoroutineEndsInFailure | app.py:666-795 | every way the coroutine ends reports "Falha na conexão ou autenticação inicial." as the last event and leaves the thread closing, never in `run_forever` |
| ThreadLifecycle.ThreadFinallyNoForever | app.py:805-818 | the thread's `finally` keeps the invariant |
| ThreadLifecycle.LoopStoppedNoForever | app.py:797-804 | a processed stop keeps the invariant |
| ThreadLifecycle.JoinNoForever | app.py:301-307 | a join keeps the invariant |
| ThreadLifecycle.DisconnectRouteNoForever | app.py:275-332 | `disconnect_route` keeps the invariant |
| ThreadLifecycle.NoForeverPreserved | app.py:655-818 | no step of any thread or route puts a thread into `run_forever` |
| ThreadLifecycle.StartThreadNoForever | app.py:628-653 | `connect` starting a thread keeps the invariant |
| ThreadLifecycle.ExecuteNoForever | app.py:782-787 | hence the `run_forever` branch is unreachable from start-up |
| ThreadLifecycle.InitialNoForever | app.py:62-73 | the start-up state has no thread at all |
| ThreadLifecycle.CoroutineFinallyGuard | app.py:757-767 | the coroutine's `finally` clears the four globals and emits one reset exactly when the ending session is current, and otherwise changes nothing; the global `loop` is never touched |
| ThreadLifecycle.ThreadFinallyGuard | app.py:805-818 | the thread's `finally` never emits, and resets the globals only when `loop.close()` succeeds and the session is current; `telegram_thread` is not reset |
| ThreadLifecycle.ThreadFinallyAfterRouteReset | app.py:808 | after the route has cleared `loop`, `None.close()` fails and the thread skips its reset |
| ThreadLifecycle.LoopStopReported | app.py:797-804 | a stop processed inside `run_until_complete` is reported as the internal thread error |
| ThreadLifecycle.BeginDrains | app.py:658-683 | every run starts from an empty auth queue with its loop stored globally, and validates an existing file first |
| ThreadLifecycle.AuthorizationRecordsAccount | app.py:713-728 | on authorization the client, `user_info`, `connected` and `current_session` are set together, and exactly one connected status update is emitted |
| ThreadLifecycle.DisconnectRouteNotConnected | app.py:278-279 | when not connected, or when no client is held, the route answers "Não conectado" and changes nothing |
| ThreadLifecycle.DisconnectRouteResets | app.py:291-331 | every other path resets the six globals and ends with exactly one reset. It reports success exactly when the loop was running, `future.result` returned, and the held client's thread did not close that loop before the stop was posted (line 300). When it did, the route answers "Erro ao desconectar: Event loop is closed" |
| ThreadLifecycle.HeldClientEndsOutcomes | app.py:281-286 | the held client's coroutine ends, reported as a connection failure, exactly when it is online and its loop is not the stopped one or resumes first; no other thread moves |
| ThreadLifecycle.PostStopOutcomes | app.py:300 | posting the stop marks a running loop as asked to stop and otherwise changes nothing; no phase or global changes |
| ThreadLifecycle.JoinOutcomes | app.py:301-307 | the joined thread finishes exactly when it is already closing or a posted stop ends its loop, and no other thread moves |
| ThreadLifecycle.ConnectOutcomes | app.py:239-272 | a missing name, or a new session without a phone, is refused and starts nothing; an existing file starts a thread with phone `None`, even if one was sent; a new one starts with its phone |
| ThreadLifecycle.RemoveSessionOutcomes | app.py:335-365 | a missing file is reported and nothing else changes after the disconnect; an existing one is removed, and the current session no longer names it |
| ThreadLifecycle.ThreadServer.constructor | app.py:62-73 | the import-time globals over the session files on disk |
| ThreadLifecycle.ThreadServer.MovePhase | app.py:666-818 | a thread changes phase in place |
| ThreadLifecycle.ThreadServer.CoroutineFinally | app.py:757-767 | the coroutine's `finally`, in place |
| ThreadLifecycle.ThreadServer.CoroutineReturns | app.py:778-795 | the coroutine returns to `run_until_complete` |
| ThreadLifecycle.ThreadServer.Begin | app.py:658-683 | the thread's start, with its `while` drain of the queue |
| ThreadLifecycle.ThreadServer.Validated | app.py:682-698 | the validation outcome, in place |
| ThreadLifecycle.ThreadServer.Ask | app.py:822-850 | a login callback asks for the code or password |
| ThreadLifecycle.ThreadServer.TakeAnswer | app.py:827-829 | the callback gets the queue's front item |
| ThreadLifecycle.ThreadServer.WaitTimesOut | app.py:830-832 | the callback's wait times out |
| ThreadLifecycle.ThreadServer.LoginEnded | app.py:705-756 | the end of `start`: authorized and online, refused, or raised |
| ThreadLifecycle.ThreadServer.ClientDisconnected | app.py:734-767 | `run_until_disconnected` returns and the coroutine's `finally` runs |
| ThreadLifecycle.ThreadServer.LoopStopped | app.py:797-804 | a posted stop is processed |
| ThreadLifecycle.ThreadServer.ThreadFinally | app.py:805-818 | the thread's `finally`, in place |
| ThreadLifecycle.ThreadServer.Join | app.py:301-307 | `telegram_thread.join(timeout)`, in place |
| ThreadLifecycle.ThreadServer.PostStopOn | app.py:300 | `call_soon_threadsafe(loop.stop)` on a loop not yet closed, in place, as `PostStop` |
| ThreadLifecycle.ThreadServer.RouteWaits | app.py:291-307 | the threads' steps while the route waits, and the error posting the stop raises when the loop was closed first, as `WhileRouteWaits` |
| ThreadLifecycle.ThreadServer.DisconnectHeld | app.py:281-286 | the held client's thread leaves `run_until_disconnected` as the step function says |
| ThreadLifecycle.ThreadServer.StopAndJoinThread | app.py:297-303 | the stop and the join change the state as the step function says |
| ThreadLifecycle.ThreadServer.ResetAll | app.py:310-316 | the route's six assignments, in place |
| ThreadLifecycle.ThreadServer.DisconnectRoute | app.py:275-332 | `POST /api/disconnect`, in place, as `DisconnectRouteStep`, including the `except` answer for a loop closed first |
| ThreadLifecycle.ThreadServer.StartThread | app.py:628-653 | `start_telegram_thread`, in place |
| ThreadLifecycle.ThreadServer.Connect | app.py:239-272 | `POST /api/connect`, in place |
| ThreadLifecycle.ThreadServer.RemoveSession | app.py:335-365 | `POST /api/remove-session`, in place |
| ThreadLifecycle.ThreadServer.Response | app.py:855-875 | `code_response` / `password_response`, in place |

## Left out

- Socket.IO delivery, HTTP routing, `jsonify` and Jinja templates: events are recorded in a ghost list, and a route's answer is a `Reply` value.
- Threads, event loops, `asyncio` cancellation and the time limits (300, 60, 30, 10 and 5 seconds): each stretch between two hand-offs is one atomic step, and a timeout or a race is an explicit parameter.
- The interleaving of steps *inside* one `await` of a foreign call is not modelled. Telethon's own behaviour is taken as given outcomes.
- The clock: `datetime.now()`, timestamps in log entries and webhook payloads. The chat filter receives `now` as a parameter.
- Log-record formatting, and the logger lines each step writes: the buffer holds finished text, and only the clears' own log lines are appended in the model, since they are what decides the buffer's contents after a clear.
- Unicode digits and full case folding: `isdigit`, `int()` and `lower()` are modelled on ASCII.
- Pydantic validation in main.py: only the `1 <= interval <= 60` bound is modelled, as the `Unprocessable` reply. Type coercion of the request fields is not.
- app.py's toggle route on a body that is not a JSON object: the model takes a map of fields.
- `OSError` from `os.remove`: the file is always removed.
- Logs.LogBuffer.Emit: it models app.py's handler only. As written, templates/main.py:74 calls `datetime.now()` without importing `datetime` (its imports are lines 4-20), so the templates' `log_to_clients` raises `NameError` before its append at lines 76-78, inside a task nobody awaits, and that variant's `logs` stays empty. The model does not cover the templates variant's append.
- TaskLifecycle.RemoveSessionStep: the `sessions_updated` payload is the model's set of remaining names, not main.py:259's `get_available_sessions()` list. Its order and duplicates, hidden files, and names merged by `replace` (see Sessions.OfferedWithoutOwnFile) are not captured there.
- app.py's `connect` and `remove_session` read `session_name` with `data.get` (app.py:241-248, 344-347), so any JSON value can arrive; the model takes an optional string, and what a number or list does in the file name is not captured.
- Garbage collection of a coroutine abandoned by a stopped loop.
- main.py's `except Exception` branch of `disconnect_telegram_logic` (main.py:490-496): it is reached only when awaiting the cancelled task raises something other than `CancelledError`, which is taken not to happen. So `disconnect_api`'s own 500 "Falha ao iniciar/concluir a desconexão" (main.py:239) is never answered in the model.
- ThreadLifecycle.ThreadServer.PostStopOn: the model keeps no record of which loops are closed, so `PostStop` and `PostStopOn` do not raise the `RuntimeError` a closed loop gives at app.py:300. Within the route they are never reached with a closed loop: the one schedule in which the route posts to a closed loop, when the held client's thread closes it first, is handled in `WhileRouteWaits`, which gives the route its "Event loop is closed" answer.
- The templates clearing task's exception retry: the model covers its tick only.
- main.py's shutdown event, the webhook routes of app.py (app.py:472-624), `send_photo_api` and `send_message_api` wrappers, the `requests.post` that delivers a webhook payload, `telegram_ui.py`, `run.py` and the browser scripts. These are plumbing around the modelled logic.
- Timer-thread races in app.py's auto-clear: a timer that fires while the toggle route runs is modelled as a step before or after it.
