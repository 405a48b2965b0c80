/**
 * The handlers of main.py as imperative code over the bot's mutable state:
 * the two collections, the scheduler's job table and the outbound texts.
 * Each method is proved to move the state exactly as the matching function
 * of module Store says; the properties are proved there, about those functions.
 */
module Assistant {
  import opened Wrappers
  import opened DateTimes
  import opened Extraction
  import opened MessageLog
  import opened Reminders
  import opened Delivery
  import opened Routing
  import opened Store

  class ReminderBot {
    var messages: seq<Message>
    var reminders: map<nat, Reminder>
    var jobs: map<nat, Job>
    var nextId: nat
    var outbox: seq<string>

    /** The state as a value. */
    function Snapshot(): State
      reads this
    {
      State(messages, reminders, jobs, nextId, outbox)
    }

    ghost predicate Valid()
      reads this
    {
      Store.Valid(Snapshot())
    }

    constructor ()
      ensures Snapshot() == Initial() && Consistent(Snapshot())
    {
      messages, reminders, jobs, nextId, outbox := [], map[], map[], 0, [];
    }

    /** save_message. */
    method SaveMessage(text: string, chatId: string, now: int)
      requires Valid()
      modifies this
      ensures Valid()
      ensures Snapshot() == Save(old(Snapshot()), text, chatId, now)
    {
      messages := messages + [Message(|messages|, chatId, text, now, false)];
    }

    /** Hand a text to send_telegram_message; the turn handlers ignore whether it got through. */
    method Post(text: string)
      requires Valid()
      modifies this
      ensures Valid()
      ensures Snapshot() == Send(old(Snapshot()), text)
    {
      outbox := outbox + [text];
    }

    /** The insert_one and add_job(..., replace_existing=True) shared by both creation paths. */
    method InsertAndSchedule(message: string, t: DateTime) returns (id: nat)
      requires Valid()
      modifies this
      ensures Valid()
      ensures id == old(nextId)
      ensures Snapshot() == Insert(old(Snapshot()), message, t)
    {
      InsertEffect(Snapshot(), message, t);
      id := nextId;
      reminders := reminders[id := NewReminder(message, t)];
      jobs := AddJob(jobs, id, Job(t, id));
      nextId := nextId + 1;
    }

    /** The loop of create_reminder that sets `processed` on each consumed message by id. */
    method MarkConsumed(consumed: seq<Message>)
      requires Valid()
      modifies this`messages
      ensures Valid()
      ensures messages == MarkProcessed(old(messages), IdsOf(consumed))
    {
      ghost var before := messages;
      MarkKeepsIds(before, IdsOf(consumed));
      var i := 0;
      while i < |consumed|
        invariant 0 <= i <= |consumed|
        invariant messages == MarkProcessed(before, IdsOf(consumed[..i]))
      {
        var m := consumed[i];
        MarkOneMore(before, IdsOf(consumed[..i]), m.id);
        assert consumed[..i + 1] == consumed[..i] + [m];
        IdsOfAppend(consumed[..i], m);
        if m.id < |messages| {
          messages := messages[m.id := messages[m.id].(processed := true)];
        }
        i := i + 1;
      }
      assert consumed[..i] == consumed;
    }

    /** create_reminder: parse first, then insert, schedule, and consume the messages. */
    method CreateReminder(message: string, scheduleTime: string, consumed: seq<Message>) returns (id: Option<nat>)
      requires Valid()
      modifies this
      ensures Valid()
      ensures id.None? <==> ParseScheduleTime(scheduleTime).None?
      ensures id.None? ==> Snapshot() == old(Snapshot())
      ensures id.Some? ==> (id.value == old(nextId)
                            && Some(Snapshot()) == Store.CreateReminder(old(Snapshot()), message, scheduleTime, consumed))
    {
      var parsed := ParseScheduleTime(scheduleTime);
      if parsed.None? {
        return None;
      }
      var newId := InsertAndSchedule(message, parsed.value);
      MarkConsumed(consumed);
      id := Some(newId);
    }

    /** The schedule_reminder endpoint. */
    method ScheduleReminder(message: string, scheduleTime: string) returns (resp: Response)
      requires Valid()
      modifies this
      ensures Valid()
      ensures (resp, Snapshot()) == ScheduleEndpoint(old(Snapshot()), message, scheduleTime)
    {
      var parsed := ParseScheduleTime(scheduleTime);
      if parsed.None? {
        return Response("error", InvalidFormat);
      }
      var _ := InsertAndSchedule(message, parsed.value);
      resp := Response("success", ProgrammedPrefix + scheduleTime);
    }

    /** handle_conversation: the model's reply, or the general error when the call raised. */
    method HandleConversation(summary: string, converse: string -> Option<string>)
      requires Valid()
      modifies this
      ensures Valid()
      ensures Snapshot() == Send(old(Snapshot()), converse(summary).GetOr(GeneralError))
    {
      var response := converse(summary);
      if response.Some? {
        Post(response.value);
      } else {
        Post(GeneralError);
      }
    }

    /** handle_reminder: one extraction call, the four-way table, and creation on the last branch. */
    method HandleReminder(window: seq<Message>, summary: string, extract: string -> Option<ReminderExtraction>)
      requires Valid()
      modifies this
      ensures Valid()
      ensures Snapshot() == ReminderTurn(old(Snapshot()), window, extract(summary))
    {
      var response := extract(summary);
      if response.None? {
        Post(GeneralError);
        return;
      }
      var e := response.value;
      if e.message.None? && e.scheduleTime.None? {
        Post(AskBothReply);
      } else if e.message.None? {
        Post(AskMessageReply);
      } else if e.scheduleTime.None? {
        Post(AskTimeReply);
      } else {
        var created := CreateReminder(e.message.value, e.scheduleTime.value, window);
        if created.None? {
          Post(GeneralError);
        } else {
          Post(Confirmation(e.scheduleTime.value));
        }
      }
    }

    /** handle_message: save first, then window, summary, intent, and the route. */
    method HandleMessage(text: string, chatId: string, savedAt: int, queriedAt: int, o: Oracles)
      requires Valid()
      modifies this
      ensures Valid()
      ensures Snapshot() == Turn(old(Snapshot()), Inbound(text, chatId, savedAt, queriedAt), o)
    {
      SaveMessage(text, chatId, savedAt);
      var window := Window(messages, chatId, queriedAt);
      var summary := o.summarize(JoinLines(Texts(window)));
      if summary.None? {
        Post(GeneralError);
        return;
      }
      var intent := o.classify(summary.value);
      if intent.None? {
        Post(GeneralError);
        return;
      }
      if intent.value == ConversationLabel {
        HandleConversation(summary.value, o.converse);
      } else {
        HandleReminder(window, summary.value, o.extract);
      }
    }

    /** trigger_reminder: look the record up, deliver, and write the outcome back. */
    method TriggerReminder(id: nat, now: int, render: string -> Option<string>, outcomes: seq<bool>)
      requires Valid()
      requires MaxRetries <= |outcomes|
      modifies this
      ensures Valid()
      ensures Snapshot() == Trigger(old(Snapshot()), id, now, render, outcomes)
    {
      TriggerEffect(Snapshot(), id, now, render, outcomes);
      if id !in reminders {
        return;
      }
      var reminder := reminders[id];
      var rendered := render(reminder.message);
      var success, _, _ := SendReminder(rendered, outcomes);
      if rendered.Some? {
        outbox := outbox + [rendered.value];
      }
      reminders := reminders[id := reminder.(
        status := if success then Sent else Failed,
        lastAttempt := Some(now),
        error := if success then None else Some(TimeoutError))];
    }

    /** The scheduler firing the one-shot job registered under `id`. */
    method FireJob(id: nat, now: int, render: string -> Option<string>, outcomes: seq<bool>)
      requires Valid()
      requires MaxRetries <= |outcomes|
      requires id in jobs
      modifies this
      ensures Valid()
      ensures Snapshot() == Fire(old(Snapshot()), id, now, render, outcomes)
    {
      jobs := jobs - {id};
      TriggerReminder(id, now, render, outcomes);
    }

    /** The scheduler dropping a missed one-shot job unrun. */
    method MissJob(id: nat)
      requires Valid()
      modifies this
      ensures Valid()
      ensures Snapshot() == Miss(old(Snapshot()), id)
    {
      jobs := jobs - {id};
    }

    /** A restart empties the in-memory job store. */
    method RestartScheduler()
      requires Valid()
      modifies this
      ensures Valid()
      ensures Snapshot() == Store.Restart(old(Snapshot()))
    {
      jobs := map[];
    }
  }
}
