# Telegram reminder assistant: a Dafny model of the message and reminder core

This project models the sequential core of a Telegram assistant (main.py and
reminder_extraction.py) and proves properties of that model. The assistant
stores each incoming chat message. It builds a 30-minute context window of
the chat's unprocessed messages, has a language model summarise and classify
it, and then either replies conversationally or extracts a reminder. An
extracted reminder is parsed, stored as `pending` and registered as a one-shot
scheduler job under its id. When the job fires, a rendered reminder is sent
with up to three attempts, and the outcome is written back as `sent` or
`failed`.

Layout, one module per file:

- `wrappers.dfy`: `Option`. `None` stands for Python's `None` and for an external call that raised.
- `datetimes.dfy`: the strict `"%Y-%m-%d %H:%M"` parse, its formatting inverse, and both round trips.
- `extraction.dfy`: the `ReminderExtraction` record and its four null/non-null combinations.
- `message_log.dfy`: messages, the window filter, `"\n".join` with its split inverse, and the `processed` flag flip.
- `reminders.dfy`: reminder records, their status write-back, the job table with `replace_existing`, and the job invariants.
- `delivery.dfy`: the bounded retry loop of `send_telegram_message` and `send_reminder`.
- `routing.dfy`: intent routing, the four-way decision table and the reply texts.
- `store.dfy`: the whole state as a value and one function per handler, with the lemmas about them.
- `assistant.dfy`: class `ReminderBot`. It holds the same state in mutable fields. Each handler is an imperative method proved to move the state exactly as the matching `Store` function does.
- `scenarios.dfy`: worked examples (retries, window boundary, decision table, end to end, re-scheduling) checked against the contracts alone.

Modelling choices:

- Language-model calls are parameters of type `string -> Option<string>` (or `Option<ReminderExtraction>`). Any answer or any failure is possible, and a failure is `None`.
- Each send attempt's outcome is one element of a `seq<bool>`. The 2-second pauses are counted, not taken.
- Timestamps are the store's values: integers in milliseconds, since the store keeps a datetime to whole milliseconds. The window is `30 * 60 * 1000` ticks. The query's cutoff is computed on the microsecond clock and truncated on its way to the store; `MessageLog.StoredCutoff` shows that this is the stored clock reading minus the window, so comparing stored values is exact.
- A message's id is its position in the log, which stands for unique ObjectIds. Reminder ids come from a counter, which stands for fresh ObjectIds.
- `outbox` lists the texts handed to `send_telegram_message`, one per call. The turn handlers ignore whether the send got through.
- `ReminderBot.FireJob` models the scheduler running a one-shot `'date'` job: the job is removed, then `trigger_reminder` runs.

Behaviour of the code worth stating; the model follows the code:

- The window query has no sort and no limit. Messages come back in log order (the model's stand-in for the store's natural order), and ascending timestamps are not promised.
- The window filter does not look at a message's origin. Assistant replies are never stored.
- A schedule time earlier than "now" is not rejected. The future-time rule exists only in the extraction prompt. When the time is earlier than "now" by more than the scheduler's misfire grace time (1 second by default), the scheduler drops the job without running it (`Store.Miss`), and the reminder stays pending.
- `trigger_reminder` does not check the previous status: triggering a `sent` reminder again overwrites it. Only the scheduler's removal of a fired job keeps a reminder from being settled twice (`Store.FireEffect`).
- The classifier's label is used as it comes back. Only the exact string `"conversation"` selects the conversation branch.

## Model

| member | source | states |
|---|---|---|
| DateTimes.ParseScheduleTime | main.py:289 | an accepted schedule time is 16 characters long and names a real calendar minute in years 1..9999; anything else is the parse error |
| DateTimes.ParseFormat | main.py:289 | every representable minute, written as "YYYY-MM-DD HH:MM", parses back to itself |
| DateTimes.ParseIsCanonical | main.py:392 | the parse is strict: a string it accepts is exactly the formatting of its result, so parse and format are inverse bijections |
| Extraction.PresenceOf | reminder_extraction.py:4-6 | sorts a record into exactly one of the four combinations of a present or `None` message and schedule time |
| Extraction.FourCombinations | reminder_extraction.py:5-6 | each of the four combinations is taken by some record, since either field may be `None` |
| Routing.Decide | main.py:335-343 | both fields missing asks for both; only the message missing asks for the message; only the time missing asks for the time; creation happens exactly when both are present, with their values |
| Routing.RepliesAreDistinct | main.py:336-343 | the three questions differ from each other; no question and not the general error reads as a confirmation; every confirmation does |
| Routing.UnvalidatedTimeReachesCreation | reminder_extraction.py:6 | the record's time is a plain unvalidated string: a record with both fields can reach creation and still fail the parse |
| MessageLog.Window | main.py:226-232 | a message is in the window iff it is in the log, has this chat id, is unprocessed and has a timestamp at or after now minus 30 minutes (boundary inclusive) |
| MessageLog.StoredMillis | main.py:209 | the stored timestamp is the clock reading truncated to whole milliseconds: at most the reading and less than one millisecond below it |
| MessageLog.StoredCutoff | main.py:230 | the truncated cutoff "now minus 30 minutes" equals the truncated clock reading minus 30 minutes in milliseconds, so `InWindow` compares what the query compares |
| MessageLog.WindowAppend | main.py:226-232 | the window is a plain filter in log order: the window of a concatenation is the concatenation of the windows |
| MessageLog.SavedMessageInWindow | main.py:352-354 | a message saved just before the query is in the window (last, in the model's log order) unless more than 30 minutes pass between save and query; a clock going backwards cannot exclude it |
| MessageLog.JoinSplit | main.py:233 | splitting the summariser's input on newlines and joining again gives it back |
| MessageLog.SplitJoin | main.py:233 | for a non-empty window, when no text holds a newline, the joined input determines the window's texts: splitting recovers them |
| MessageLog.MarkProcessedFrame | main.py:310-314 | marking changes only the `processed` flag, and only for the named ids, to true |
| MessageLog.MarkProcessedCompose | main.py:310-314 | marking in two rounds equals marking the union; marking already marked messages again changes nothing |
| MessageLog.MarkOneMore | main.py:311-314 | one `update_one` by id flips one flag in place, and marking an id no message has is a no-op |
| MessageLog.MarkWindow | main.py:310-314 | consuming a window flags exactly the messages the window filter selected, and no others |
| MessageLog.WindowAfterMark | main.py:310-314 | after consumption the window at the same `now` is the earlier window minus the consumed messages; unconsumed ones stay eligible |
| Reminders.AddJob | main.py:300-307 | after adding, the id holds exactly the new job, other ids keep theirs, and no other id appears |
| Reminders.AddJobCount | main.py:306 | with replace_existing the job count grows by one for a new id and not at all for a taken one: never a duplicate |
| Reminders.AddJobTwice | main.py:306 | scheduling the same id twice leaves only the second job |
| Reminders.SettleInEffect | main.py:181-199 | an unknown id changes nothing; otherwise only that record's status (sent iff success), last attempt (now) and error (none iff success, else "Timeout error") change |
| Reminders.InsertKeepsJobInvariants | main.py:292-307 | inserting a fresh pending reminder and its job keeps "every job runs an existing reminder at its time" and "a job exists exactly while pending" |
| Reminders.FireKeepsJobInvariants | main.py:188-199 | a fired, removed job whose reminder is settled keeps both job invariants |
| Reminders.MissBreaksPendingScheduled | main.py:300-307 | a job dropped unrun keeps every remaining job matched to its reminder, but its reminder stays pending with no job, so "a job exists exactly while pending" fails |
| Delivery.SendWithRetry | main.py:155-175 | at most max_retries attempts; success iff some attempt within the bound succeeds; stops at the first success; on total failure all attempts are made; pauses only between attempts (attempts minus one) |
| Delivery.SendReminder | main.py:132-152 | a failed render returns false with zero attempts and zero pauses; otherwise the result is that of up to 3 attempts on the rendered text, and a send that fails has made all 3 attempts and 2 pauses |
| Store.SaveEffect | main.py:203-213 | a save appends one unprocessed message with this chat, text and clock reading at the next position, and changes nothing else; from any valid state, keeping consistency when it held |
| Store.InsertEffect | main.py:292-307 | an insertion adds exactly one pending reminder under a fresh id and exactly one job under that id at its time, and keeps the invariants |
| Store.CreateReminderEffect | main.py:287-314 | fails iff the time does not parse, and then writes nothing; otherwise one pending reminder, one job, and `processed` set on exactly the given messages |
| Store.ScheduleEndpointEffect | main.py:384-415 | a malformed time answers error with the "Invalid format" text and writes nothing; otherwise it answers success quoting the time, after one pending reminder and one job are added and no message changes |
| Store.ReminderTurnEffect | main.py:316-346 | exactly one reply; it is a confirmation iff a reminder is created, and then it quotes the schedule time literally; otherwise the table's question or the general error is sent and nothing is written |
| Store.TurnRouting | main.py:354-364 | only the exact label "conversation" gets the conversation reply (or the general error); any other label goes to the reminder branch; a failed summary or classification sends the general error |
| Store.TurnRepliesOnce | main.py:348-364 | every turn hands exactly one reply to send_telegram_message, after what was already sent |
| Store.TurnShape | main.py:348-364 | a turn is either a creation followed by its confirmation, or the save followed by one reply |
| Store.TurnEffect | main.py:348-364 | from any valid state (also after a missed or lost job): validity holds after a turn, consistency is kept when it held, and the incoming message is saved first; a reminder is created iff the label is not "conversation" and the extraction creates one, and then exactly the window's messages are flagged; otherwise only the save is written |
| Store.TurnSeesItsMessage | main.py:352-354 | the message a turn saves is in that turn's window (within 30 minutes) and is consumed when the turn creates a reminder |
| Store.TriggerEffect | main.py:178-201 | an unknown id changes nothing; otherwise the rendering, if there is one, is sent, and only that reminder's outcome fields change |
| Store.FireEffect | main.py:188-199 | a fired job is removed and its reminder ends sent or failed, never pending, so it cannot fire again; from any valid state, validity holds after and consistency is kept when it held |
| Store.MissEffect | main.py:300-307 | a missed job leaves the state valid but not consistent: the reminder is unchanged and pending, its job is gone, and nothing else changes |
| Store.RestartEffect | main.py:37-39 | a restart empties the job table and keeps the state valid; it stays consistent iff no reminder was pending |
| Assistant.ReminderBot.SaveMessage | main.py:203-213 | appends the message as `Store.Save` says |
| Assistant.ReminderBot.Post | main.py:155-156 | records one call of send_telegram_message with this text |
| Assistant.ReminderBot.InsertAndSchedule | main.py:292-307 | inserts and schedules in place as `Store.Insert`, returning the fresh id |
| Assistant.ReminderBot.MarkConsumed | main.py:310-314 | the loop flips each consumed message's flag in place; the result equals `MarkProcessed` of the consumed ids |
| Assistant.ReminderBot.CreateReminder | main.py:287-314 | no id and an unchanged state iff the time does not parse; otherwise the state `Store.CreateReminder` gives |
| Assistant.ReminderBot.ScheduleReminder | main.py:384-415 | the answer and the new state are those of `Store.ScheduleEndpoint` |
| Assistant.ReminderBot.HandleConversation | main.py:272-285 | sends the model's reply, or the general error when the call raised |
| Assistant.ReminderBot.HandleReminder | main.py:316-346 | the source's if-chain moves the state exactly as `Store.ReminderTurn` (the decision table) does |
| Assistant.ReminderBot.HandleMessage | main.py:348-364 | the state after the turn is `Store.Turn` of the state before |
| Assistant.ReminderBot.TriggerReminder | main.py:178-201 | the state after is `Store.Trigger` of the state before |
| Assistant.ReminderBot.FireJob | main.py:300-307 | the state after is `Store.Fire`: job removed, then trigger |
| Assistant.ReminderBot.MissJob | main.py:300-307 | the state after is `Store.Miss`: the job is removed and trigger_reminder does not run |
| Assistant.ReminderBot.RestartScheduler | main.py:37-39 | the state after is `Store.Restart`: no job survives |

## Left out

- Language-model calls (summarise, classify, converse, extract, render) are oracles. Prompt texts and model settings are not modelled.
- The Telegram `Bot.send_message` call, its timeouts and the real `asyncio.sleep(2)` are not modelled: each attempt's outcome is an input, and pauses are only counted.
- MongoDB, ObjectId generation and the store's natural order are replaced by in-memory sequences and maps, positional message ids and a counter for reminder ids. A malformed id string makes `ObjectId(reminder_id)` raise in the `find_one` lookup, before any update; the exception is swallowed. In the model that is simply an id with no record.
- APScheduler internals: when a job actually fires, the timezone of `run_date`, and the misfire grace time itself. Only "one job per id", "a fired one-shot job is removed", "a missed one is removed unrun" and "a restart loses every job" are modelled; which jobs miss is the caller's choice of `Store.Miss`.
- Store.Consistent (and Reminders.PendingScheduled inside it) holds only while no job is missed or lost: a past schedule time, which the code accepts, or a restart breaks it, and a pending reminder then never fires (`Store.MissEffect`, `Store.RestartEffect`). The save, turn, trigger and fire lemmas therefore need only `Store.Valid`, which every transition keeps, and promise consistency only when it held before.
- The pytz "Europe/Madrid" clock and the naive `datetime.now()` of `last_attempt` are integer clock readings passed in. The extractor's reference time is part of the extraction oracle.
- Absent and null fields of a stored reminder are both `None` (`lastAttempt`, `error`).
- DateTimes.ParseScheduleTime: stricter than Python's strptime, which also accepts, for example, one-digit month, day, hour and minute fields, a space-padded day, a run of whitespace for the separating space and non-ASCII decimal digits; the model rejects those.
- Delivery.SendWithRetry: with max_retries of 0 the source returns None rather than False; the model returns false, which is how every caller reads it.
- The webhook endpoint, payload parsing, background tasks, environment configuration and the printed logs are transport and configuration.
- Concurrency between asynchronous tasks: every handler runs to completion on its own.
- Storage and scheduler failures: inserts, updates and `add_job` are assumed not to raise.
- Behaviour the code does not have is not added: sorting or limiting the window, storing assistant replies, rejecting past schedule times, reloading jobs after a restart, cancelling reminders.
