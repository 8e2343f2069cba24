# Telegram to-do bot: a Dafny model of its core

The bot (`webhook_bot.py`) lets chat users register, add free-text tasks,
list them, and mark them complete. This project models the part of it that
can be stated precisely:

- **The store** (`store.dfy`, module `TaskStore`). The two sqlite tables
  are held in memory by class `Store`. `users` is a map keyed by user id, so
  `REPLACE INTO` is a map update. `tasks` is a sequence in rowid order.
  `nextId` is the AUTOINCREMENT counter. The class invariant says that ids
  strictly increase along the table and stay below `nextId`. The row-level
  meaning of `SELECT ... WHERE user_id = ?` is the function `OwnedBy`. The
  meaning of `UPDATE ... SET status='completed' WHERE id = ?` is the function
  `MarkCompleted`. The lemmas about these two carry the store's guarantees.
- **The handlers and their dispatch** (`bot.dfy`, module `Dispatch`). Each
  handler (`start`, `save_name`, `begin_task`, `store_task`, `done`, `show`,
  `complete`) is a method of class `Bot` that returns its reply instead of
  sending it. Conversation callbacks also return the next state
  (REGISTER, ADDING_TASK or END). The five handlers sit in one group, and the
  first one that matches an update handles it. That rule is the pure
  function `FirstMatch`. `Bot.Process` runs one update through it.
  Per user, each conversation keeps the state its callbacks last returned.
  Each of the two conversations has a single state, so each is modelled as a
  set of user ids (`registering`, `adding`).
- **Pure helpers** (`commands.dfy`, module `Commands`; `strings.dfy`, module
  `Strings`). These are the `/showtask` formatter, the `/complete <n>`
  resolution with Python's negative indexing, and the Python builtins those
  two use: `int(s)`, `str(n)` and `"\n".join`. A line splitter is added as
  the inverse of the join.
- **Walkthroughs** (`walkthrough.dfy`, module `Walkthrough`). These are
  clients verified against the contracts alone: a user registers, adds two
  tasks, lists them, completes number 2, then tries number 5.

Behaviour of the code that the model proves, and that the bot's own
messages do not suggest:

- `/start` is registered as a plain command handler, not as an entry point of
  the registration conversation. For an unknown user it asks for a name, but
  it returns REGISTER to a handler that ignores the return value. The next
  text message is therefore not taken as a name. Only `/register` enters
  REGISTER (`Dispatch.Bot.Process`, `Dispatch.FirstMatch`).
- `/register` from a registered user replies "welcome back" and never
  enters REGISTER. So when a user talks to the bot in one chat only (a
  private chat), a stored profile is never replaced through the chat (the
  `Bot.Valid` invariant and `Process`'s postcondition). Across several chats
  this does not hold: see "## Left out". The store's `RegisterUser` itself
  does full replacement (upsert).
- `/complete 0` completes the *last* task, and `/complete -1` the one
  before it. This is because `int(n) - 1` indexes a Python list
  (`Commands.CompleteZeroIsLast`, `Commands.CompleteWrapsAround`).
- `/showtask` and `/complete` are registered before both conversations, so
  they are answered even while a conversation is active. `/addtask` during
  ADDING_TASK and `/register` during REGISTER are ignored.
- A text sent while the user is in both REGISTER and ADDING_TASK is taken as
  the name, not as a task, because the registration conversation is
  registered first.
- `/addtask` does not require registration.

## Model

| member | source | states |
|---|---|---|
| `TaskStore.Store.constructor` | webhook_bot.py:25-31 | A fresh database has both tables empty, and the first id to be handed out is 1. |
| `TaskStore.Store.GetUser` | webhook_bot.py:35 | There is a row exactly when the id is registered, and it is that user's record. |
| `TaskStore.Store.RegisterUser` | webhook_bot.py:36 | Upsert: the record for `uid` becomes exactly the new name, username and time. Every other user's record is unchanged. Tasks and the counter are unchanged. |
| `TaskStore.Store.AddTask` | webhook_bot.py:37 | Appends exactly one pending row owned by `uid`, with id `nextId`. That id is above every existing id. Old rows are kept. The owner's listing grows by that row, and no other user's listing changes. |
| `TaskStore.Store.GetTasks` | webhook_bot.py:38 | The result holds exactly the tasks `uid` owns, and under the store invariant in ascending id order. |
| `TaskStore.Store.CompleteTask` | webhook_bot.py:39 | The table becomes `MarkCompleted` of the old table. Users and the counter are unchanged. No row is lost, renumbered or reopened. |
| `TaskStore.OwnedBy` | webhook_bot.py:38 | Membership: a task is in the result iff it is in the table and owned by `uid`. The result is never longer than the table. |
| `TaskStore.OwnedByIncreasing` | webhook_bot.py:38 | The listing of an id-ordered table is id-ordered (insertion order). |
| `TaskStore.SameMembersIncreasing` | webhook_bot.py:38 | Two id-ordered sequences with the same elements are equal. |
| `TaskStore.OwnedByCharacterized` | webhook_bot.py:38 | Any id-ordered sequence holding exactly one owner's rows is that owner's listing, so membership plus order fully specify `get_tasks`. |
| `TaskStore.OwnedByAppend` | webhook_bot.py:37-38 | Inserting a row extends its owner's listing by that row and leaves every other listing unchanged. |
| `TaskStore.StatusText` | webhook_bot.py:29 | The status column reads `pending` exactly for a pending task (the column default) and `completed` exactly for a completed task. It contains no newline or bracket, so it cannot break a listing line. |
| `TaskStore.CompletedRow` | webhook_bot.py:39 | The `SET` clause: status becomes completed and `updated_at` becomes `now`. Id, owner, text and creation time are kept. |
| `TaskStore.MarkCompleted` | webhook_bot.py:39 | The update keeps the row count and each row's id, owner, text and creation time. |
| `TaskStore.MarkCompletedAt` | webhook_bot.py:39 | Row by row: a row with the target id becomes completed with `updated_at = now`, and every other row is unchanged. |
| `TaskStore.MarkCompletedOnlyTarget` | webhook_bot.py:39 | Rows with another id are untouched. Rows with the target id end completed and stamped `now`. |
| `TaskStore.MarkCompletedAbsent` | webhook_bot.py:39 | With an id no row carries, the update is a silent no-op. |
| `TaskStore.MarkCompletedIdempotent` | webhook_bot.py:39 | Completing twice equals completing once at the later time. |
| `TaskStore.MarkCompletedNeverReopens` | webhook_bot.py:39 | A row is completed afterwards iff it was completed before or carries the target id. Nothing goes back to pending. |
| `TaskStore.OwnedByMarkCompleted` | webhook_bot.py:38-39 | Listing an owner's rows commutes with the completion update. |
| `TaskStore.MarkCompletedUniqueAt` | webhook_bot.py:39 | In an id-ordered listing, completing row `k`'s id replaces exactly row `k` by its completed form. |
| `TaskStore.MarkCompletedOtherOwner` | webhook_bot.py:38-39 | Completing a row one user owns leaves every other user's listing unchanged. |
| `Strings.NatToDecimal` | webhook_bot.py:75 | `str(n)` for `n >= 0` is a non-empty run of digits with no leading zero. |
| `Strings.DecimalValue` | webhook_bot.py:75 | The digits `str` prints have value `n`. |
| `Strings.ParseShowInt` | webhook_bot.py:75-80 | `int(str(n)) == n` for every integer, so the number shown in a listing parses back to itself. |
| `Strings.SplitJoinLines` | webhook_bot.py:75 | Splitting `"\n".join(lines)` at newlines gives `lines` back, when no line contains a newline. |
| `Strings.ParseInt` | webhook_bot.py:80 | `int(s)` succeeds exactly on an optional sign followed by one or more digits. A leading `-` gives a value `<= 0`, anything else a value `>= 0`. `ParseShowInt` makes it a left inverse of `ShowInt`. It is not a right inverse, because `"+1"`, `"01"` and `"1"` all read as 1. |
| `Strings.LeadingZeroValue` | webhook_bot.py:80 | A leading zero does not change the value of a run of digits. |
| `Strings.ParseIntLeadingZeroAndSign` | webhook_bot.py:80 | `int("0"+d) == int(d)`, `int("+"+d) == int(d)` and `int("-"+d) == -int(d)` for a non-empty run of digits `d`. |
| `Strings.ShowInt` | webhook_bot.py:75 | `str(n)` is non-empty, starts with `-` exactly when `n < 0`, and is digits after that sign. `ParseShowInt` reads it back. |
| `Strings.JoinLines` | webhook_bot.py:75 | `"\n".join` of no lines is empty. Otherwise the result starts with the first line. `SplitJoinLines` recovers the lines. |
| `Strings.JoinLinesNewlines` | webhook_bot.py:75 | Joining `k > 0` newline-free lines gives exactly `k - 1` newlines. |
| `Commands.TaskLine` | webhook_bot.py:75 | A listing line opens with its number, which `int` reads back. A task text without a newline gives a line without a newline. |
| `Commands.TaskListReply` | webhook_bot.py:72-76 | The reply is `"📭 No tasks."` exactly when the listing is empty. Otherwise it starts with the header on a line of its own. `TaskListReplyLines` reads the rest line by line. |
| `Commands.TaskLines` | webhook_bot.py:75 | The comprehension yields one line per task. |
| `Commands.TaskListReplyLines` | webhook_bot.py:70-76 | An empty listing gets `"📭 No tasks."`. Otherwise the reply, read line by line, is the header and then one line per task, in list order. Line `i` is `"{i+1}. {text} [{status}]"`. |
| `Commands.PyIndex` | webhook_bot.py:82 | Python indexing succeeds iff `-len <= k < len`. The position read is `k mod len`, so a negative `k` counts from the end. |
| `Commands.ResolveComplete` | webhook_bot.py:80-82 | `/complete` resolves iff there is an argument, it parses as an integer `n`, and `-len <= n-1 < len`. The position is `(n-1) mod len`. |
| `Commands.CompleteShownNumber` | webhook_bot.py:75-82 | `/complete i+1` acts on task `i`, the task the listing prints as number `i+1`. |
| `Commands.CompleteWrapsAround` | webhook_bot.py:80-82 | For `1-len <= n <= 0`, `/complete n` acts on position `len+n-1`. |
| `Commands.CompleteZeroIsLast` | webhook_bot.py:80-82 | `/complete 0` on a non-empty listing completes the last task. |
| `Commands.CompleteOnEmptyFails` | webhook_bot.py:78-85 | With no tasks, every `/complete` fails. |
| `Dispatch.FirstMatch` | webhook_bot.py:87-101 | First-match routing in registration order. `/start`, `/showtask` and `/complete` always reach their handlers. Only `/register` from a user not in REGISTER reaches the registration entry. Non-command text reaches `save_name` in REGISTER, otherwise `store_task` in ADDING_TASK. `/addtask` enters only when the user is not in ADDING_TASK. `/donetask` is taken only in ADDING_TASK. |
| `Dispatch.RegisteredReply` | webhook_bot.py:54 | The confirmation is the fixed prefix, the name and the fixed suffix, so the name can be read back out of it. |
| `Dispatch.UsernameOrDefault` | webhook_bot.py:52 | `username or "no_username"`: the result is never empty. It is the username when that is present and non-empty, else the sentinel. |
| `Dispatch.AfterCallback` | webhook_bot.py:91-101 | After a callback, the user is in the conversation iff the callback did not return END. No other user's state changes. |
| `Dispatch.Bot.constructor` | webhook_bot.py:91-101 | No user is in either conversation at start. |
| `Dispatch.Bot.Start` | webhook_bot.py:41-47 | Unknown user: name prompt and REGISTER. Known user: welcome-back and END. |
| `Dispatch.Bot.SaveName` | webhook_bot.py:49-55 | The message text, verbatim, becomes the user's name, with `UsernameOrDefault` as the username. Only that record changes. Replies with the confirmation and END. |
| `Dispatch.Bot.BeginTask` | webhook_bot.py:57-59 | Replies with the instructions and returns ADDING_TASK. The store is not touched. |
| `Dispatch.Bot.StoreTask` | webhook_bot.py:61-64 | Adds exactly one pending task for the user, and only the user's listing grows. Replies "Task added." and stays in ADDING_TASK. |
| `Dispatch.Bot.Done` | webhook_bot.py:66-68 | Replies and returns END. The store is not touched. |
| `Dispatch.Bot.Show` | webhook_bot.py:70-76 | The reply is the formatted listing of the user's own tasks. It is the "no tasks" reply iff the listing is empty. |
| `Dispatch.Bot.Complete` | webhook_bot.py:78-85 | On failure: the usage reply, and no row changes. On success: the listed task at the resolved position, and only that one, becomes completed. Every other user's listing is unchanged. |
| `Dispatch.Bot.Process` | webhook_bot.py:87-101 | The whole next state and the reply, by matched handler. Other users' conversation states and listings are unchanged. Stored profiles are never replaced. Tasks are never lost, renumbered or reopened. Only `/register` from an unregistered user enters REGISTER. |
| `Walkthrough.TwoTaskListing` | webhook_bot.py:70-76 | Two pending tasks list as the header, then `"1. {first} [pending]"`, then `"2. {second} [pending]"`. |

## Left out

- The Flask routes `home` and `webhook` and the JSON-to-update decoding (webhook_bot.py:103-116): HTTP transport and a foreign library.
- Loading the environment, the fatal check on missing settings (webhook_bot.py:12-17), and webhook registration at start-up (webhook_bot.py:118-124): I/O and network.
- Opening, committing and closing sqlite connections, durability, and data surviving a restart. `Store.constructor` is `setup_db` on a fresh file. `CREATE TABLE IF NOT EXISTS` on an existing file is a no-op that is not modelled.
- Database failures. `/complete` would catch one and give the usage reply. In every other handler it would propagate. Neither case is modelled.
- Timestamps are an opaque `Clock` value passed in by the caller. Nothing beyond "stamped on write" is stated about them.
- async/await and sending: replies are returned values. Message-length limits on long listings are not modelled.
- Concurrency between updates: updates are processed one at a time.
- AUTOINCREMENT picks one more than the largest of the highest rowid and the stored sequence value. Since nothing is ever deleted, that is `nextId`. The foreign reference from a task to its owner is not enforced, as in the schema.
- Python `int()` accepts more than an optional sign and ASCII digits: surrounding whitespace, `_` separators, non-ASCII digits. Only the sign-and-digits form is modelled.
- Framework details of command matching: case-insensitive command names, the `@botname` suffix, edited messages. A `Command` carries the already-normalised name and the whitespace-split arguments.
- The framework keys conversations by chat and user. The model keys them by user only, which is the same thing when a user talks to the bot in one chat only. `Dispatch.Bot.Valid` (no user in REGISTER is registered) and `Dispatch.Bot.Process`'s promise that stored profiles are never replaced depend on this one-key-per-user reading. A user who is not registered can send `/register` in two chats (a private chat and a group, say), enter REGISTER under both keys, and answer in each. The second `save_name` then replaces the profile stored by the first.
- Non-text messages are one `NonText` case that no handler accepts.
- `Commands.TaskListReplyLines`: the one-line-per-task reading is proved only when no task text contains a newline, because a multi-line task text spans several lines of the reply.
