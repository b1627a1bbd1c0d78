# HR recruitment bot: verified model

This project models the Telegram HR bot in `main.py`. The bot asks every
user to subscribe to a channel. It then offers two buttons, "HDP LC" and
"Omon School", and counts each user's clicks on them in a SQLite `users`
table. The admin can ask for totals with `/admin`. The bot serves Telegram
through a webhook whose URL comes from the `BOT_TOKEN` and `WEBHOOK_HOST`
environment variables.

Modules:

- `Wrappers`: `Option` and `Result`.
- `Config`: the start-up guard on the two environment variables. Python's
  truthiness test rejects a missing variable and an empty one alike, and
  `BOT_TOKEN` is checked first. Also `rstrip('/')`, `WEBHOOK_PATH` and
  `WEBHOOK_URL`.
- `Store`: the `users` table as `map<int, Row>`, keyed by `user_id`. The
  pure functions `AddUser`, `Increment` and `GetStats` give the meaning of
  the three SQL statements. The class `UserStore` holds the table and updates
  it in place; each of its methods is proved against the matching function.
  `GetStats` goes through the raw SQL answer, where `SUM` over no rows is
  NULL, and then applies `or 0`.
- `Handlers`: the subscription predicate and the four handlers. Each handler
  is a pure transition (`Step`) from a table to a new table plus replies.
  The class `Bot` runs the handlers against a `UserStore` and is proved
  against `Step`. Lemmas over sequences of updates (`Run`) relate the user
  count and the click totals to the updates handled.

The network is an input. Each membership lookup is a `Lookup`: either the
status string Telegram returned or `LookupError` for an exception. A click
by an unsubscribed user makes `send_welcome` look the membership up a second
time, so a click update carries two lookups (`sub` and `recheck`).

A subscribed user who has no row yet (one who never sent `/start`) gets the
form link, but the click is not counted: the `UPDATE` matches no row, and
the user is not registered either. `ClickGating` and `RunClicks` state this.

## Model

| member | source | states |
|---|---|---|
| Config.Load | main.py:13-25 | the start-up guard passes exactly when both variables are set and non-empty; a missing or empty token gives `MissingToken` first, then a missing or empty host gives `MissingHost`; on success the settings carry the webhook path and URL |
| Config.LoadedUrlEndsWithPath | main.py:24-25 | the registered webhook URL ends with the path the server listens on |
| Config.StripTrailingSlashes | main.py:25 | `rstrip('/')` returns a prefix of the input that does not end in '/', and only '/' characters follow it in the input |
| Config.StripTrailingSlashesUnique | main.py:25 | those three properties determine the stripped string uniquely |
| Config.StripTrailingSlashesIdempotent | main.py:25 | stripping twice gives the same result as stripping once |
| Config.StripTrailingSlashesIgnoresExtraSlashes | main.py:25 | appending any number of '/' to the input does not change the result |
| Config.WebhookPath | main.py:24 | the path is `/webhook/` followed by the token, exactly |
| Config.WebhookUrl | main.py:25 | the URL ends with the webhook path; the part before it is a prefix of the host that does not end in '/', and only slashes of the host are dropped |
| Config.WebhookUrlIgnoresTrailingSlashes | main.py:25 | adding trailing slashes to the host does not change the URL |
| Config.WebhookUrlEqualIff | main.py:25 | two hosts give the same URL if and only if they agree once trailing slashes are stripped |
| Store.Bump | main.py:67 | `col = col + 1` raises the named column by one and leaves the other column unchanged |
| Store.AddUser | main.py:58-62 | insert-if-absent: the id is in the result and no other key is added; a known id leaves the table unchanged; a new id gets the row (0, 0) and every other row is kept |
| Store.Increment | main.py:64-68 | the keys are unchanged; an unknown id leaves the table unchanged; a known id has exactly the named column raised by 1, and every other user's row is kept |
| Store.SumColumn | main.py:73 | the column sum is 0 on the empty table and at least the value of every single row |
| Store.SelectStats | main.py:73-74 | the raw answer holds the row count; each SUM is NULL exactly on the empty table and is the column sum otherwise |
| Store.OrZero | main.py:76-78 | `or 0` turns NULL into 0 and keeps a number |
| Store.SqlSum | main.py:73-74 | SQL `SUM` is NULL exactly on the empty table |
| Store.GetStats | main.py:70-79 | the stats are the number of rows and the two column sums; the empty table gives (0, 0, 0) |
| Store.SumColumnRemove | main.py:73 | a column sum equals any one row's value plus the sum over the other rows |
| Store.SumColumnUpdate | main.py:73 | replacing one row changes the column sum by exactly the change in that row |
| Store.SumColumnInsert | main.py:73 | adding a row for a new key adds that row's value to the column sum |
| Store.AddUserStats | main.py:58-62 | registering a new user adds one to the user count and changes neither click total; registering a known user changes no statistic |
| Store.IncrementStats | main.py:64-68 | a click by a known user adds exactly one to that column's total and changes neither the other total nor the user count; an unknown id changes no statistic |
| Store.AddUserIdempotent | main.py:61 | adding the same id twice gives the same table as adding it once |
| Store.UserStore.constructor | main.py:46-56 | `init_db` keeps an existing table and otherwise starts with no rows |
| Store.UserStore.AddUserRow | main.py:58-62 | the stored table becomes `AddUser` of the old table |
| Store.UserStore.IncrementCounter | main.py:64-68 | the stored table becomes `Increment` of the old table |
| Store.UserStore.ReadStats | main.py:70-79 | returns `GetStats` of the current table, without changing it |
| Handlers.IsSubscribed | main.py:96-103 | a lookup counts as subscribed if and only if the status is `member`, `administrator` or `creator`; a lookup error and every other status (`left`, `kicked`, `restricted`) count as not subscribed |
| Handlers.TextUpdate | main.py:130-146 | a text message reaches a menu handler if and only if its text is "HDP LC" or "Omon School", with the column the text names, the sender and both lookups |
| Handlers.Welcome | main.py:106-115 | `send_welcome` registers the user (existing rows kept, a new user gets (0, 0)) and sends one reply: the main menu if and only if the user is subscribed, the subscribe prompt otherwise |
| Handlers.CheckSub | main.py:117-128 | the "check" callback leaves the table unchanged and thanks the user if and only if they are subscribed, alerting them otherwise |
| Handlers.Click | main.py:130-146 | a subscribed click is `Increment` of the clicked column and answers with that form link; an unsubscribed click keeps every existing row, registers the user, and answers with the warning followed by the welcome, which is the main menu if the second lookup says subscribed and the subscribe prompt otherwise |
| Handlers.Admin | main.py:148-160 | `/admin` leaves the table unchanged; the admin gets the row count and both column sums, anyone else the refusal |
| Handlers.Step | main.py:106-160 | every update gets at least one reply, and the table either stays the same or changes by exactly one `add_user` or one `increment_counter` |
| Handlers.ButtonColumn | main.py:130 | the text filter routes "HDP LC" to `Hdp` and "Omon School" to `Omon`, and no other text to either |
| Handlers.StartIdempotent | main.py:106-115 | a second `/start` by the same user leaves the table and the reply exactly as the first one left them |
| Handlers.ClickGating | main.py:130-146 | a subscribed click increments exactly that user's chosen counter, and the total rises by one only if the user has a row; an unsubscribed click changes no counter, registers the user through `send_welcome`, and the warning comes before the welcome reply |
| Handlers.AdminGating | main.py:148-160 | `/admin` answers with the `get_stats` result if and only if the sender is `ADMIN_ID` |
| Handlers.StepMonotone | main.py:106-160 | no update removes a user or lowers any counter |
| Handlers.StepKeys | main.py:106-146 | an update adds to the table exactly the id it passes to `add_user`, if any |
| Handlers.RunKeys | main.py:58-62 | after any sequence of updates, the users are those already present plus every id passed to `add_user` |
| Handlers.UserCountIsDistinctRegistrations | main.py:51 | starting from an empty table, the user count equals the number of distinct ids passed to `add_user` |
| Handlers.StepClicks | main.py:130-146 | one update raises a column total by one exactly when it is a subscribed click on that column by a registered user; otherwise the total is unchanged |
| Handlers.RunClicks | main.py:130-146 | after any sequence of updates, each column total has grown by exactly the number of counted clicks on that column |
| Handlers.Bot.constructor | main.py:38-44 | every handler works on the one given users store |
| Handlers.Bot.SendWelcome | main.py:106-115 | the new table and the reply are those of the `Welcome` transition of the old table |
| Handlers.Bot.CheckSubscription | main.py:117-128 | the "check" button thanks a subscribed user and alerts anyone else, without touching the table |
| Handlers.Bot.MenuClick | main.py:130-146 | the new table and the replies are those of the `Click` transition of the old table |
| Handlers.Bot.AdminPanel | main.py:148-160 | the admin gets the user count and both click totals of the current table; anyone else gets the refusal; nothing changes |
| Handlers.Bot.Handle | main.py:106-160 | dispatching any update gives the new table and the replies of `Step` applied to the old table |

## Left out

- Telegram I/O: the aiogram `Bot`/`Dispatcher`, `get_chat_member`, `answer`, `send_message`, `answer_callback_query` and `delete_message` are network calls into a foreign library. Lookup answers are inputs, and replies are abstract `Reply` values without their wording or keyboards.
- Reply delivery: every reply is assumed to be delivered. If `message.answer` raises before `send_welcome` (main.py:136, main.py:145), the source aborts the handler and does not call `add_user`; `Click`, `ClickGating` and `RunKeys` do not cover that case.
- Start-up beyond the guard: aiogram's own token-format check when `Bot(token=...)` is built (main.py:39) and failures of `start_webhook` are not modelled. `Load` decides only the environment-variable guard of main.py:16-22, so a badly formed token such as "abc" passes it.
- Keyboard construction (`get_sub_keyboard`, `get_main_keyboard`) and the Markdown layout of the admin message. The model keeps only that the message carries the three statistics.
- The failed `delete_message` in the "check" callback is swallowed by the source. The model's `CallbackThanks` reply covers both outcomes.
- Command parsing by the dispatcher (`/start@botname`, arguments). An update arrives already classified as an `Update`.
- SQLite mechanics: connections, commits, cursors, persistence across restarts. The constructor takes any table that already exists.
- Counter width: the counters are unbounded `nat`s. SQLite's 64-bit integer limit, where an overflowing `+ 1` turns the value into a REAL, is not modelled.
- The f-string column name in the `UPDATE` statement. The column is the closed enum `Column`, which matches the only two call sites.
- Logging, `load_dotenv` and `sys.exit`. Only the decision "valid settings or refuse to start" is kept.
- Webhook server start-up and shut-down (`on_startup`, `on_shutdown`, `start_webhook`, `WEBAPP_HOST`, `WEBAPP_PORT`). These are server lifecycle effects.
- Concurrency: the webhook server runs handlers concurrently, and they interleave at their `await`s. `Run` handles one update at a time, and its order is the order in which the table statements execute, not the order in which updates arrive. This loses nothing, because each handler writes the table at most once (`Step` states this) and the lookups are inputs.
- Telegram's `restricted` status counts as not subscribed, as in the source. `IsSubscribed` states this; whether it was intended is not judged.
- `src/App.tsx`: static page markup and cosmetic animation delays, with no logic.
