# Music bot playback queue, modelled in Dafny

The bot streams music into Telegram group voice calls. Its only stateful
logic is the process-wide dictionary `queue` in `bot.py`, which maps a chat
id to the ordered list of tracks `(url, title, requester, duration)` for
that chat. The head of the list is the track playing now. Five handlers act
on it:

- `/play` saves the group id, resolves the query, and then either creates a
  one-entry queue and joins the call, or appends to the existing queue.
- `/skip` (admins only) and the inline "skip" button drop the head and
  switch the stream to the new head. They only do this when more than one
  entry is queued.
- the "pause" and "resume" buttons call the driver and never look at the
  queue.
- `/stop` leaves the call and deletes the chat's key.
- `/queue` lists the entries, numbered from 1.

The model has these modules:

- `Types`: tracks, resolver results, driver calls (`Join`, `ChangeStream`,
  `Pause`, `Resume`, `Leave`) and replies.
- `Machine`: each handler as a pure transition over the whole state. The
  state is the queue map, the log of driver calls issued so far, and the
  lines of the groups file. This module also holds the invariant and
  isolation lemmas.
- `Bot.Player`: a class whose fields are that state. Its methods update the
  fields in place, as the handlers do, and each is proved to take the
  transition `Machine` defines. `ShowQueue` builds the listing in a loop.
- `Listing`: the text of the `/queue` reply.
- `Text`: Python's `str(int)` and the `m:ss` duration field of the
  now-playing card.
- `IdStore`: the de-duplicating append of `save_id`, over the file's lines.

The main invariant (`Machine.Valid`) is kept by every handler. It says:

- every stored queue is non-empty;
- its head is the url the driver was last told to stream in that chat;
- a chat has a key exactly when the bot's last join/leave in that chat was
  a join.

The code does less than a fuller playback design would, and the model
follows the code:

- there is no paused flag;
- pause and resume have no idle check;
- nothing advances the queue when a track ends by itself;
- nothing locks a chat;
- `/stop` deletes the key rather than emptying the list;
- the inline skip button has no admin check.

## Model

| member | source | states |
|---|---|---|
| `Machine.Play` | bot.py:60-82 | The group id is saved first, whatever follows. With no query, or when the resolver fails, the queue and the driver log are unchanged. On a chat without a key, the queue becomes exactly `[track]`, exactly one `Join(chat, url)` is issued, and the reply is the now-playing card of that track. On a chat with a key, the track is appended after all earlier entries and no driver call is made. Other chats are untouched. |
| `Machine.Advance` | bot.py:93-96 | The shared skip step shortens the chat's queue by one. Entry k of the new queue is old entry k+1, so the new head is old entry 1. Exactly one `ChangeStream(chat, newHead.url)` is issued and other chats are untouched. |
| `Machine.Skip` | bot.py:85-99 | A non-admin changes nothing. An admin skips only when more than one entry is queued; otherwise nothing changes and no driver call is made. |
| `Machine.Button` | bot.py:113-135 | The "skip" button has the same guard and step as `/skip` but no admin check, and replies with the now-playing card of the new head. "pause" and "resume" append one driver call and leave the queue alone. "close" and any other data change nothing. The queue changes only on a successful skip. |
| `Machine.Stop` | bot.py:138-143 | The chat's key is gone afterwards, whether or not it was there before. One `Leave(chat)` is issued and every other chat's queue is unchanged. |
| `Machine.QueueReply` | bot.py:102-110 | Reports "empty" exactly when the key is absent or the list is empty; otherwise returns the numbered listing of the chat's entries. |
| `Machine.InitialValid` | bot.py:13 | The process starts with an empty dictionary and no driver calls, and that state satisfies the invariant. |
| `Machine.ApplyKeepsValid` | bot.py:73-143 | Each handler preserves the invariant: queues are non-empty, each head is the last streamed url, and a key exists iff the bot is in that chat's call. |
| `Machine.RunKeepsValid` | bot.py:13 | The invariant holds after any sequence of handler calls. |
| `Machine.QueueEmptyIffAbsent` | bot.py:105 | Under the invariant, "Queue is empty." is reported exactly for chats without a key. |
| `Machine.ApplyShape` | bot.py:73-142 | Each handler changes at most its own chat's entry and adds at most one driver call, which concerns its own chat. |
| `Machine.ApplyOtherChat` | bot.py:73-142 | A handler for one chat leaves every other chat's queue and driver calls as they were. |
| `Machine.ApplySameChat` | bot.py:60-143 | A handler's effect on its own chat, and its reply, depend only on that chat's queue and driver calls. |
| `Machine.RunIsolation` | bot.py:13 | What any interleaving of commands does to one chat equals what that chat's own commands alone do. |
| `Machine.SessionScenario` | bot.py:73-142 | Play a, play b, skip, skip, stop in one chat gives the expected replies. The second skip is refused with a single entry left, and the driver sees exactly join a, change to b, leave. |
| `Bot.Player.constructor` | bot.py:13 | The object starts with no queues and no driver calls, and satisfies the invariant. |
| `Bot.Player.Play` | bot.py:60-82 | The in-place update of the fields equals `Machine.Play`'s transition and reply, and keeps the invariant. |
| `Bot.Player.PopAndChangeStream` | bot.py:118-121 | Popping the head in place and switching the stream equals `Machine.Advance`; returns old entry 1. |
| `Bot.Player.Skip` | bot.py:85-99 | The in-place update equals `Machine.Skip`'s transition and reply, and keeps the invariant. |
| `Bot.Player.Button` | bot.py:113-135 | The in-place update equals `Machine.Button`'s transition and reply, and keeps the invariant. |
| `Bot.Player.Stop` | bot.py:138-143 | The in-place update equals `Machine.Stop`'s transition and reply, and keeps the invariant. |
| `Bot.Player.ShowQueue` | bot.py:102-110 | The text built line by line is the header followed by one line per entry, numbered from 1. It equals `Machine.QueueReply`, and nothing is modified. |
| `Listing.QueueTextAppend` | bot.py:107-109 | Appending an entry to a queue appends exactly one line, numbered with the new length, to the listing. |
| `Listing.LinesNumbered` | bot.py:108-109 | The k-th listing line reads back as position k+1, so entries are numbered 1..n in queue order. |
| `Text.IntTextRoundTrip` | bot.py:39 | The decimal text of any integer, with a sign for negatives, parses back to that integer. |
| `Text.DurationFields` | bot.py:39 | The duration text is an integer, a colon and exactly two digits. The seconds field is in 0..59 and minutes*60 + seconds equals the duration, for negative durations too. |
| `Text.NowPlayingFields` | bot.py:36-40 | The card is a fixed header, the title, a lead into the duration field, the `m:ss` field, and a tail ending in the requester. Read at its place in the card, the field has seconds in 0..59 and minutes*60 + seconds equal to the duration. |
| `Text.DurationFieldsUnique` | bot.py:39 | Any minutes/seconds split with seconds in 0..59 is the one printed, so the fields are floor division and remainder. |
| `IdStore.SaveId` | bot.py:22-27 | The id's text ends up among the lines. Earlier lines keep their places. At most one line is added, and none is added exactly when the text was already present. |
| `IdStore.SaveIdKeepsDistinct` | bot.py:26-27 | Saving never introduces a duplicate line. |
| `IdStore.SaveIdIdempotent` | bot.py:26-27 | Saving the same id twice equals saving it once. |
| `Text.IntToStringInjective` | bot.py:26 | Two ids have the same text exactly when they are equal, so the membership test compares ids. |
| `IdStore.SaveIdsExact` | bot.py:22-27 | After any run of saves, the file holds the old lines plus each saved id's text, with no duplicates. |

## Left out

- Driver failures: the model assumes every call to the voice-call driver
  returns normally. In the code, a driver call that raises (for example a
  leave when the bot is not in the call, or a join that fails after the
  entry was stored) leaves the queue however far the handler got. The
  model does not capture that.
- Calls that end outside the bot: the code registers no handler for a
  track or call ending by itself. The model therefore has no such event.
  The driver's own view of the call is modelled only through the log of
  calls the bot issued.
- Resolver: `get_audio` (yt_dlp) is an input `Option<Audio>`, where `None`
  stands for the exception it raises. Durations are integers. A `None` or
  float duration (even a whole-valued float) makes the `:02d` format of
  bot.py:39 raise. In `/play` and the skip button that happens after the
  queue update and the driver call, so the state changes and no card is
  sent. The model does not capture this.
- Requester: `message.from_user.mention` (bot.py:71) raises when the
  message has no sender user, for example from an anonymous admin. This
  happens before any queue change, so the state is as on the
  `ResolveFailed` path. Only the reply differs, and the model does not
  distinguish it.
- Messaging: `reply`, `edit` and `delete` and the inline keyboard of
  `player_controls` are reduced to which reply is sent (`Types.Reply`).
  Only the now-playing card (`Text.NowPlayingText`) and the `/queue`
  listing are modelled as text.
- The admin lookup `get_chat_member` is an input boolean. The
  `filters.group` and command parsing become the `query: Option<string>`
  input.
- `save_id`'s file I/O (open, seek, `splitlines`, write) is reduced to the
  rule over a sequence of lines. Only the groups file is part of the
  state, since `/play` writes it. The `/start` handler writes both files
  with the same rule and is not modelled.
- Concurrency: each handler is one atomic step. Between its awaits, a
  handler's queue test and queue update contain no await, so they do run
  without interleaving. The delivery order of driver calls relative to
  later handlers is taken to be the order of issue. `/stop` is the
  exception: it awaits `leave_group_call` (bot.py:141) before
  `queue.pop` (bot.py:142), so a `/skip` or `/play` in the same chat can
  run in between. The model's single `Stop` step hides this. For example,
  the driver can see `Leave` and then `ChangeStream`, with the key still
  gone afterwards, which no atomic order produces.
- `ping` (wall-clock time), `broadcast` (network iteration) and `get_data`
  (document upload) are not part of the queue and are not modelled.
- The "prev" button has no branch in `cb_handler` and is modelled as no
  reply and no change. No button of the keyboard sends "resume"; the
  branch is modelled as written.
