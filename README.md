# Anonymous relay bot: album aggregator and reply router

This project models the in-memory core of a chat bot that relays anonymous
messages from users to one admin chat and routes admin replies back to the
user they answer.

- **Album aggregator.** The parts of an album (messages that share a media-group
  id) are buffered per `(chat id, group id)` key. The first part of a key
  schedules a single delayed flush. The flush posts the whole album to the admin
  chat as one media group, then posts a notification with a "Reply" button bound
  to the sender.
- **Reply router.** Each admin either has no target or is replying to one user.
  Pressing "Reply" in the admin chat sets the target, and "Cancel" clears it.
  The admin's next message in the admin chat is re-sent to the target as one
  call, chosen by the first content kind present. The target is cleared only
  when that call succeeds.
- **Helpers.** The caption join used in notifications, and the callback data
  `reply:<id>` of the "Reply" button, which is parsed back when the button is
  pressed.

Files:

- `platform.dfy` (module `Platform`): messages, album items, keyboards and the
  `Send` records that stand for outbound platform calls.
- `texts.dfy` (module `Texts`): `AdminCaption`, decimal text of integers, the
  reply button's data and its parser, and the keyboard.
- `albums.dfy` (module `Albums`): what a part adds to a buffer, what a run of
  parts builds, and the calls a flush makes.
- `replies.dfy` (module `Replies`): the first-match-wins choice of content kind
  and the re-send call.
- `bot.dfy` (module `Bot`): class `Relay`. Its fields are the three
  dictionaries of the source (`replyTargets`, `albumBuffer`,
  `albumTimerRunning`) and a ghost `outbox` that logs every outbound call. Its
  methods are the five handlers. Three client methods, `AlbumOfTwoParts`,
  `AlbumWithoutMedia` and `ReplyThenIdle`, show what callers can conclude from
  the contracts.

How the environment is represented:

- Every platform call the handlers make is appended to `outbox`, whether or not
  the platform accepts it. That includes the acknowledgements.
- A call that raises is a boolean input: `mediaGroupFails` for the flush and
  `sendFails` for the admin reply.
- The flush timer is a `FlushTask` that `OnAlbumPart` returns when it schedules
  one. The task captures the key, the sender and the date of the scheduling
  part. The environment later passes it to `Flush` exactly once. A ghost map
  `pending` records the scheduled tasks that have not run yet.
- The handlers' `requires` state what the dispatcher's filters guarantee. An
  album part has a media-group id. An admin-chat message comes from the admin
  chat.

Two consequences of `bot.py` that are easy to miss:

- Only the item appended to an empty buffer keeps a caption, and it keeps
  `caption or ""` (bot.py:75-85). A caption on any later part of the album is
  dropped.
- If the first item's caption is empty, the album is posted and announced with
  the placeholder caption (bot.py:103-110).

So for a captionless photo followed by a document captioned "hi", the admin
sees the placeholder and never sees "hi". `Bot.AlbumOfTwoParts` shows this.

## Model

| member | source | states |
|---|---|---|
| Texts.AdminCaption | bot.py:51-52 | The prefix alone exactly when the text is empty. The prefix always starts the result. `CaptionBody` reads the text back only from the prefix followed by the blank-line separator, so the separator is always present when the text is non-empty. |
| Texts.IntDecimalRoundTrip | bot.py:154 | Parsing the decimal text of any integer (sign included) returns that integer. |
| Texts.ReplyDataRoundTrip | bot.py:46 | The data `reply:<id>` built for a button is parsed by the reply handler (bot.py:154) back to the same id. |
| Texts.ReplyKeyboard | bot.py:43-49 | Two rows: a "Reply" button whose data parses back to the user, and a "Cancel" button with data `cancel`. |
| Albums.Contribution | bot.py:75-85 | A part yields an item exactly when it has a photo, video, document, audio or animation. The item's file id is that attachment's (a photo's largest size). Every album kind earlier in the order photo, video, document, audio, animation is absent. The item carries the part's caption or "". Voice, sticker and video note yield nothing. |
| Albums.AppendPart | bot.py:73-85 | Appends exactly one item at the end, after the untouched old items, when the part has an album attachment, and nothing otherwise. The item keeps its caption only when the buffer was empty. It preserves "only the first item has a caption". |
| Albums.CollectInArrivalOrder | bot.py:72-85 | A buffer built from any run of parts holds exactly the parts' items in the order the handler processes them (arrival order, with each handler run as one step). Only the first item keeps its caption, and every later caption is dropped. |
| Albums.BuffersAreIndependent | bot.py:72-73 | With interleaved parts for many keys, a key has a buffer exactly when one of its parts arrived, and that buffer is what its own parts alone build. |
| Albums.WithPlaceholder | bot.py:103-104 | The first item gets the placeholder caption when its caption is missing or empty. A non-empty caption is left alone, so the first caption is always non-empty. The other items, and all kinds and file ids, are unchanged. |
| Albums.FlushSends | bot.py:99-112 | A non-empty flush makes one media-group call to the admin chat with exactly `WithPlaceholder` of the buffer. Unless that call raised, it then makes one text call. The text is the header plus the posted first caption, never the bare header, and carries the user's reply keyboard. |
| Replies.ChooseContent | bot.py:173-205 | First match wins. The chosen kind is present and every kind earlier in the order is absent (plain text without caption, photo, video, document, audio, voice, animation, sticker, video note). Nothing is chosen only when no kind is present. |
| Replies.ReplyOf | bot.py:173-205 | One call to the target of the chosen kind with the admin's file id. Text and captions are the admin's content after the "Ответ от админа:" prefix. Stickers and video notes have no caption. |
| Bot.Relay.constructor | bot.py:23-40 | Needs a non-zero admin chat. All three tables and the outbound log start empty. |
| Bot.Relay.OnAlbumPart | bot.py:68-89 | Acknowledges the sender and changes only its own key: the buffer becomes `AppendPart` of the old one (or of []), and the flag is set. A flush task is scheduled, and recorded as pending, iff the flag was unset. Reply targets are unchanged. |
| Bot.Relay.Flush | bot.py:91-114 | Runs a pending task once and removes the key's buffer, flag and pending task. An empty buffer makes no call. Otherwise it makes exactly the `FlushSends` calls. The other keys and the reply targets are unchanged. |
| Bot.Relay.CbReply | bot.py:148-157 | Outside the admin chat it answers "unavailable" and changes nothing. Otherwise the parsed id replaces the admin's target (last writer wins). Data that does not parse changes nothing. |
| Bot.Relay.CbCancel | bot.py:159-162 | Removes only the presser's target, whether or not one was set, and answers the callback. |
| Bot.Relay.OnAdminChatMessage | bot.py:164-214 | With no target or target 0, nothing is sent and nothing changes. Otherwise it makes at most one re-send call, to the target, then one outcome acknowledgement. The target is removed iff a kind was found and the call did not raise. |

## Left out

- Each handler is modelled as one atomic step. In bot.py the handlers await platform calls before they change state: `on_album_part` awaits the acknowledgement (bot.py:70) before appending (bot.py:73-85), and `on_admin_chat_message` awaits the send and the reply (bot.py:174-211) before removing the target (bot.py:212). With updates handled concurrently, a buffer holds parts in the order the handlers resume, and that removal can drop a target that `cb_reply` set during the send. The model does not capture these interleavings.
- Delayed scheduling (`asyncio.create_task`, the 1.4 s sleep) is not modelled. A flush runs when the environment calls `Flush` with the task that `OnAlbumPart` returned.
- Date arithmetic and formatting are left out. A message carries `stamp`, the already formatted time, which the flush pastes into its header.
- Platform calls are not executed. They are `Send` records in the ghost outbox, and the network and aiogram are outside the model.
- The acknowledgement calls (`message.answer`, `message.reply`, `callback.answer`) are assumed not to raise. In the source, a raise at bot.py:70 would abort the album part before it is buffered, and a raise at bot.py:211 would skip removing the target.
- Bot.Relay.Flush: a failure of the notification call after a successful media-group call is not a separate input, because the source catches it and nothing else follows.
- Logging of caught exceptions is not modelled.
- Environment loading, the fail-fast check beyond "admin chat is non-zero", logging setup, `cmd_start`, `cmd_here` and the single-message relay `on_any_message` (bot.py:117-145) are I/O glue and are not modelled.
- The dispatcher and its registration order are not modelled. Each handler is called directly. In the source the catch-all handler at bot.py:117 is registered before the admin-chat handler at bot.py:164.
- Texts.ParseReplyData: reads an optional sign and ASCII digits only. Python's `int` also accepts surrounding whitespace, underscores and non-ASCII digits, and those inputs parse to None here. Data built by `ReplyKeyboard` never has them.
