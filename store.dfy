/**
 * The state main.py works on, as a value: the messages collection, the
 * reminders collection, the scheduler's job table, the source of fresh
 * reminder ids, and the texts handed to send_telegram_message. Each handler
 * is a function from the state before to the state after; the class in
 * assistant.dfy performs the same steps in place.
 */
module Store {
  import opened Wrappers
  import opened DateTimes
  import opened Extraction
  import opened MessageLog
  import opened Reminders
  import opened Delivery
  import opened Routing

  datatype State = State(
    messages: seq<Message>,
    reminders: map<nat, Reminder>,
    jobs: map<nat, Job>,
    nextId: nat,
    outbox: seq<string>)

  /** The model calls a turn consults; `None` is a call that raised. */
  datatype Oracles = Oracles(
    summarize: string -> Option<string>,
    classify: string -> Option<string>,
    converse: string -> Option<string>,
    extract: string -> Option<ReminderExtraction>)

  /** One inbound message, with the clock readings at the save and at the window query. */
  datatype Inbound = Inbound(text: string, chatId: string, savedAt: int, queriedAt: int)

  /** The JSON body the schedule_reminder endpoint answers with. */
  datatype Response = Response(status: string, message: string)

  const InvalidFormat: string := "Invalid format. Use " + "'YYYY-MM-DD HH:MM'"
  const ProgrammedPrefix: string := "Reminder programmed for "

  /** Ids are fresh and unique, and every job runs an existing reminder at its time. */
  ghost predicate Valid(s: State) {
    && IdsAreIndices(s.messages)
    && (forall id :: id in s.reminders ==> id < s.nextId)
    && JobsMatch(s.reminders, s.jobs)
  }

  /** Valid, and a reminder has a job exactly while it is pending. */
  ghost predicate Consistent(s: State) {
    Valid(s) && PendingScheduled(s.reminders, s.jobs)
  }

  function Initial(): State {
    State([], map[], map[], 0, [])
  }

  /** save_message: append an unprocessed message stamped with the clock. */
  function Save(s: State, text: string, chatId: string, now: int): State {
    s.(messages := s.messages + [Message(|s.messages|, chatId, text, now, false)])
  }

  /** A call of send_telegram_message with this text. */
  function Send(s: State, text: string): State {
    s.(outbox := s.outbox + [text])
  }

  /** Insert a pending reminder under a fresh id and add its job with replace_existing. */
  function Insert(s: State, message: string, t: DateTime): State {
    s.(reminders := s.reminders[s.nextId := NewReminder(message, t)],
       jobs := AddJob(s.jobs, s.nextId, Job(t, s.nextId)),
       nextId := s.nextId + 1)
  }

  /** create_reminder: parse first (None is the ValueError), then insert, schedule and consume. */
  function CreateReminder(s: State, message: string, scheduleTime: string, consumed: seq<Message>): Option<State> {
    match ParseScheduleTime(scheduleTime)
    case None => None
    case Some(t) => Some(Insert(s, message, t).(messages := MarkProcessed(s.messages, IdsOf(consumed))))
  }

  /** The schedule_reminder endpoint. */
  function ScheduleEndpoint(s: State, message: string, scheduleTime: string): (Response, State) {
    match ParseScheduleTime(scheduleTime)
    case None => (Response("error", InvalidFormat), s)
    case Some(t) => (Response("success", ProgrammedPrefix + scheduleTime), Insert(s, message, t))
  }

  /** handle_reminder, given the extraction call's result. */
  function ReminderTurn(s: State, window: seq<Message>, ex: Option<ReminderExtraction>): State {
    match ex
    case None => Send(s, GeneralError)
    case Some(e) =>
      match Decide(e)
      case Create(message, scheduleTime) =>
        (match CreateReminder(s, message, scheduleTime, window)
         case None => Send(s, GeneralError)
         case Some(created) => Send(created, Confirmation(scheduleTime)))
      case _ => Send(s, Question(Decide(e)))
  }

  /** The state after save_message, in which the window is queried. */
  function Saved(s: State, msg: Inbound): State {
    Save(s, msg.text, msg.chatId, msg.savedAt)
  }

  function TurnWindow(s: State, msg: Inbound): seq<Message> {
    Window(Saved(s, msg).messages, msg.chatId, msg.queriedAt)
  }

  /** The summary of the window's joined texts (get_recent_messages_summary). */
  function TurnSummary(s: State, msg: Inbound, o: Oracles): Option<string> {
    o.summarize(JoinLines(Texts(TurnWindow(s, msg))))
  }

  function TurnIntent(s: State, msg: Inbound, o: Oracles): Option<string> {
    match TurnSummary(s, msg, o)
    case None => None
    case Some(summary) => o.classify(summary)
  }

  /** handle_message: save, query the window, summarise, classify, route. */
  function Turn(s: State, msg: Inbound, o: Oracles): State {
    var saved := Saved(s, msg);
    match TurnSummary(s, msg, o)
    case None => Send(saved, GeneralError)
    case Some(summary) =>
      match o.classify(summary)
      case None => Send(saved, GeneralError)
      case Some(intent) =>
        if intent == ConversationLabel then Send(saved, o.converse(summary).GetOr(GeneralError))
        else ReminderTurn(saved, TurnWindow(s, msg), o.extract(summary))
  }

  /** trigger_reminder: render, send with retries, write the outcome back, only if the record exists. */
  function Trigger(s: State, id: nat, now: int, render: string -> Option<string>, outcomes: seq<bool>): State
    requires MaxRetries <= |outcomes|
  {
    if id !in s.reminders then s
    else
      var rendered := render(s.reminders[id].message);
      var sent := if rendered.Some? then Send(s, rendered.value) else s;
      sent.(reminders := SettleIn(s.reminders, id, Delivered(rendered, outcomes), now))
  }

  /** The scheduler firing a one-shot job: the job is removed and trigger_reminder runs. */
  function Fire(s: State, id: nat, now: int, render: string -> Option<string>, outcomes: seq<bool>): State
    requires MaxRetries <= |outcomes|
  {
    Trigger(s.(jobs := s.jobs - {id}), id, now, render, outcomes)
  }

  /**
   * The scheduler dropping a job without running it: a one-shot job whose run
   * date is already past its misfire grace time is removed unrun. The reminder
   * record is not touched.
   */
  function Miss(s: State, id: nat): State {
    s.(jobs := s.jobs - {id})
  }

  /** A process restart: the scheduler's in-memory job store starts empty again. */
  function Restart(s: State): State {
    s.(jobs := map[])
  }

  // ---------------------------------------------------------------------------
  // Properties

  /** A saved message takes the next position, unprocessed, and nothing else changes. */
  lemma SaveEffect(s: State, text: string, chatId: string, now: int)
    requires Valid(s)
    ensures var r := Save(s, text, chatId, now);
            && Valid(r) && (Consistent(s) ==> Consistent(r))
            && |r.messages| == |s.messages| + 1
            && r.messages[..|s.messages|] == s.messages
            && r.messages[|s.messages|] == Message(|s.messages|, chatId, text, now, false)
            && r.reminders == s.reminders && r.jobs == s.jobs && r.nextId == s.nextId && r.outbox == s.outbox
  {
    var r := Save(s, text, chatId, now);
    assert r.messages[..|s.messages|] == s.messages;
  }

  /** Inserting gives a fresh id exactly one pending reminder and exactly one job. */
  lemma InsertEffect(s: State, message: string, t: DateTime)
    requires Valid(s)
    ensures var r := Insert(s, message, t);
            && s.nextId !in s.reminders && s.nextId !in s.jobs
            && r.reminders == s.reminders[s.nextId := NewReminder(message, t)]
            && |r.reminders| == |s.reminders| + 1
            && r.jobs == s.jobs[s.nextId := Job(t, s.nextId)]
            && |r.jobs| == |s.jobs| + 1
            && r.messages == s.messages && r.outbox == s.outbox
            && Valid(r)
            && (Consistent(s) ==> Consistent(r))
  {
    var r := Insert(s, message, t);
    assert s.nextId !in s.jobs;
    AddJobCount(s.jobs, s.nextId, Job(t, s.nextId));
    assert r.reminders.Keys == s.reminders.Keys + {s.nextId};
    if Consistent(s) {
      InsertKeepsJobInvariants(s.reminders, s.jobs, s.nextId, message, t);
    }
  }

  /**
   * create_reminder parses before writing: a malformed time changes nothing;
   * a well-formed one inserts one pending reminder, one job, and flags exactly
   * the given messages.
   */
  lemma CreateReminderEffect(s: State, message: string, scheduleTime: string, consumed: seq<Message>)
    requires Valid(s)
    ensures CreateReminder(s, message, scheduleTime, consumed).None? <==> ParseScheduleTime(scheduleTime).None?
    ensures CreateReminder(s, message, scheduleTime, consumed).Some? ==>
              var r := CreateReminder(s, message, scheduleTime, consumed).value;
              var t := ParseScheduleTime(scheduleTime).value;
              && r.reminders == s.reminders[s.nextId := NewReminder(message, t)]
              && |r.reminders| == |s.reminders| + 1
              && r.jobs == s.jobs[s.nextId := Job(t, s.nextId)]
              && |r.jobs| == |s.jobs| + 1
              && r.messages == MarkProcessed(s.messages, IdsOf(consumed))
              && r.outbox == s.outbox
              && Valid(r)
              && (Consistent(s) ==> Consistent(r))
  {
    if ParseScheduleTime(scheduleTime).Some? {
      InsertEffect(s, message, ParseScheduleTime(scheduleTime).value);
      MarkKeepsIds(s.messages, IdsOf(consumed));
    }
  }

  /** The endpoint: malformed time, an error answer and no write; otherwise one pending reminder and one job. */
  lemma ScheduleEndpointEffect(s: State, message: string, scheduleTime: string)
    requires Valid(s)
    ensures var (resp, r) := ScheduleEndpoint(s, message, scheduleTime);
            && (ParseScheduleTime(scheduleTime).None? ==>
                  resp == Response("error", InvalidFormat) && r == s)
            && (ParseScheduleTime(scheduleTime).Some? ==>
                  var t := ParseScheduleTime(scheduleTime).value;
                  && resp == Response("success", ProgrammedPrefix + scheduleTime)
                  && r.reminders == s.reminders[s.nextId := NewReminder(message, t)]
                  && |r.reminders| == |s.reminders| + 1
                  && r.jobs == s.jobs[s.nextId := Job(t, s.nextId)]
                  && |r.jobs| == |s.jobs| + 1
                  && r.messages == s.messages && r.outbox == s.outbox
                  && Valid(r) && (Consistent(s) ==> Consistent(r)))
  {
    if ParseScheduleTime(scheduleTime).Some? {
      InsertEffect(s, message, ParseScheduleTime(scheduleTime).value);
    }
  }

  /**
   * handle_reminder sends exactly one reply. It is a confirmation exactly when a
   * reminder is created, and then it quotes the schedule time literally; the
   * decision table's three questions are sent otherwise and nothing is written.
   */
  lemma ReminderTurnEffect(s: State, window: seq<Message>, ex: Option<ReminderExtraction>)
    requires Valid(s)
    ensures var r := ReminderTurn(s, window, ex);
            && |r.outbox| == |s.outbox| + 1
            && r.outbox[..|s.outbox|] == s.outbox
            && (IsConfirmation(r.outbox[|s.outbox|]) <==> Creates(ex))
            && (Creates(ex) ==>
                  var e := ex.value;
                  var t := ParseScheduleTime(e.scheduleTime.value).value;
                  && r.outbox[|s.outbox|] == Confirmation(e.scheduleTime.value)
                  && r.reminders == s.reminders[s.nextId := NewReminder(e.message.value, t)]
                  && r.jobs == s.jobs[s.nextId := Job(t, s.nextId)]
                  && r.messages == MarkProcessed(s.messages, IdsOf(window))
                  && Valid(r))
            && (!Creates(ex) ==>
                  && r == Send(s, r.outbox[|s.outbox|])
                  && (ex.Some? && !Decide(ex.value).Create? ==> r.outbox[|s.outbox|] == Question(Decide(ex.value)))
                  && (ex.None? || Decide(ex.value).Create? ==> r.outbox[|s.outbox|] == GeneralError))
  {
    RepliesAreDistinct();
    var r := ReminderTurn(s, window, ex);
    assert r.outbox[..|s.outbox|] == s.outbox;
    if Creates(ex) {
      var e := ex.value;
      CreateReminderEffect(s, e.message.value, e.scheduleTime.value, window);
    } else if ex.Some? && Decide(ex.value).Create? {
      CreateReminderEffect(s, ex.value.message.value, ex.value.scheduleTime.value, window);
    }
  }

  /** Every turn hands exactly one reply to send_telegram_message, after what was already sent. */
  lemma TurnRepliesOnce(s: State, msg: Inbound, o: Oracles)
    requires Valid(s)
    ensures |Turn(s, msg, o).outbox| == |s.outbox| + 1
    ensures Turn(s, msg, o).outbox[..|s.outbox|] == s.outbox
  {
    var saved := Saved(s, msg);
    MarkKeepsIds(s.messages, {});
    assert Valid(saved);
    if TurnSummary(s, msg, o).Some? {
      var summary := TurnSummary(s, msg, o).value;
      if o.classify(summary).Some? && o.classify(summary).value != ConversationLabel {
        ReminderTurnEffect(saved, TurnWindow(s, msg), o.extract(summary));
      }
    }
    assert Turn(s, msg, o).outbox[..|s.outbox|] == s.outbox;
  }

  /**
   * Routing: only the exact label "conversation" selects the conversation reply;
   * every other label, "reminder" or anything else, goes to handle_reminder.
   */
  lemma TurnRouting(s: State, msg: Inbound, o: Oracles)
    ensures TurnIntent(s, msg, o) == Some(ConversationLabel) ==>
              Turn(s, msg, o) == Send(Saved(s, msg), o.converse(TurnSummary(s, msg, o).value).GetOr(GeneralError))
    ensures TurnIntent(s, msg, o).Some? && TurnIntent(s, msg, o).value != ConversationLabel ==>
              Turn(s, msg, o) == ReminderTurn(Saved(s, msg), TurnWindow(s, msg), o.extract(TurnSummary(s, msg, o).value))
    ensures TurnIntent(s, msg, o).None? ==> Turn(s, msg, o) == Send(Saved(s, msg), GeneralError)
  {
  }

  /** The turn's route: a reminder is created iff the label is not exactly "conversation" and the extraction creates one. */
  predicate TurnCreates(s: State, msg: Inbound, o: Oracles) {
    && TurnIntent(s, msg, o).Some?
    && TurnIntent(s, msg, o).value != ConversationLabel
    && Creates(o.extract(TurnSummary(s, msg, o).value))
  }

  /** The two shapes a turn can take: a creation followed by its confirmation, or the save and one reply. */
  lemma TurnShape(s: State, msg: Inbound, o: Oracles)
    requires Valid(s)
    ensures TurnCreates(s, msg, o) ==>
              var e := o.extract(TurnSummary(s, msg, o).value).value;
              && CreateReminder(Saved(s, msg), e.message.value, e.scheduleTime.value, TurnWindow(s, msg)).Some?
              && Turn(s, msg, o)
                   == Send(CreateReminder(Saved(s, msg), e.message.value, e.scheduleTime.value, TurnWindow(s, msg)).value,
                           Confirmation(e.scheduleTime.value))
    ensures !TurnCreates(s, msg, o) ==>
              exists reply :: Turn(s, msg, o) == Send(Saved(s, msg), reply)
  {
    var saved := Saved(s, msg);
    MarkKeepsIds(s.messages, {});
    assert Valid(saved);
    if TurnIntent(s, msg, o).Some? && TurnIntent(s, msg, o).value != ConversationLabel {
      var ex := o.extract(TurnSummary(s, msg, o).value);
      ReminderTurnEffect(saved, TurnWindow(s, msg), ex);
      if !Creates(ex) {
        var r := Turn(s, msg, o);
        assert r == Send(saved, r.outbox[|saved.outbox|]);
      }
    } else {
      var r := Turn(s, msg, o);
      assert r == Send(saved, r.outbox[|saved.outbox|]);
    }
  }

  /**
   * A turn saves the inbound message first. When it creates a reminder, the new
   * pending record sits at the next id and the flags of exactly the window's
   * messages are set; otherwise the save is the turn's only write besides the reply.
   */
  lemma TurnEffect(s: State, msg: Inbound, o: Oracles)
    requires Valid(s)
    ensures var r := Turn(s, msg, o);
            var saved := Saved(s, msg).messages;
            && Valid(r) && (Consistent(s) ==> Consistent(r))
            && |r.messages| == |s.messages| + 1
            && (forall i :: 0 <= i < |r.messages| ==>
                  r.messages[i] == saved[i].(processed := r.messages[i].processed))
            && (TurnCreates(s, msg, o) ==>
                  && |r.reminders| == |s.reminders| + 1
                  && r.reminders[s.nextId].status == Pending
                  && s.nextId in r.jobs
                  && (forall i :: 0 <= i < |r.messages| ==>
                        r.messages[i].processed == (saved[i].processed || InWindow(saved[i], msg.chatId, msg.queriedAt))))
            && (!TurnCreates(s, msg, o) ==>
                  r.messages == saved && r.reminders == s.reminders && r.jobs == s.jobs && r.nextId == s.nextId)
  {
    var savedState := Saved(s, msg);
    var saved := savedState.messages;
    SaveEffect(s, msg.text, msg.chatId, msg.savedAt);
    TurnShape(s, msg, o);
    if TurnCreates(s, msg, o) {
      var e := o.extract(TurnSummary(s, msg, o).value).value;
      var window := TurnWindow(s, msg);
      CreateReminderEffect(savedState, e.message.value, e.scheduleTime.value, window);
      forall i | 0 <= i < |saved|
        ensures MarkProcessed(saved, IdsOf(window))[i].processed
                == (saved[i].processed || InWindow(saved[i], msg.chatId, msg.queriedAt))
      {
        MarkWindow(saved, msg.chatId, msg.queriedAt, i);
      }
    }
  }

  /**
   * The message a turn saves is in the window the same turn queries, unless the
   * query runs more than 30 minutes after the save; when the turn creates a
   * reminder, that message is consumed with the rest of the window.
   */
  lemma TurnSeesItsMessage(s: State, msg: Inbound, o: Oracles)
    requires Valid(s)
    requires msg.queriedAt <= msg.savedAt + WindowMillis
    ensures var m := Message(|s.messages|, msg.chatId, msg.text, msg.savedAt, false);
            && TurnWindow(s, msg) == Window(s.messages, msg.chatId, msg.queriedAt) + [m]
            && (TurnCreates(s, msg, o) ==> Turn(s, msg, o).messages[|s.messages|].processed)
  {
    SavedMessageInWindow(s.messages, msg.text, msg.chatId, msg.savedAt, msg.queriedAt);
    TurnEffect(s, msg, o);
  }

  /** trigger_reminder: an unknown id changes nothing; otherwise only that record's outcome fields and the outbox change. */
  lemma TriggerEffect(s: State, id: nat, now: int, render: string -> Option<string>, outcomes: seq<bool>)
    requires MaxRetries <= |outcomes|
    requires Valid(s)
    ensures var r := Trigger(s, id, now, render, outcomes);
            && Valid(r)
            && (id !in s.reminders ==> r == s)
            && (id in s.reminders ==>
                  var rendered := render(s.reminders[id].message);
                  var success := Delivered(rendered, outcomes);
                  && r.messages == s.messages && r.jobs == s.jobs && r.nextId == s.nextId
                  && r.reminders == s.reminders[id := Settle(s.reminders[id], success, now)]
                  && (r.reminders[id].status == Sent <==> success)
                  && r.reminders[id].error == (if success then None else Some(TimeoutError))
                  && r.outbox == s.outbox + (if rendered.Some? then [rendered.value] else []))
  {
    SettleInEffect(s.reminders, id, Delivered(if id in s.reminders then render(s.reminders[id].message) else None, outcomes), now);
  }

  /**
   * A fired job is removed and leaves its reminder sent or failed, never pending:
   * the job invariants survive, and the same reminder cannot fire again. This
   * holds also after another job was missed or lost.
   */
  lemma FireEffect(s: State, id: nat, now: int, render: string -> Option<string>, outcomes: seq<bool>)
    requires MaxRetries <= |outcomes|
    requires Valid(s) && id in s.jobs
    ensures var r := Fire(s, id, now, render, outcomes);
            && Valid(r) && (Consistent(s) ==> Consistent(r))
            && id !in r.jobs
            && id in r.reminders
            && r.reminders[id].status == (if Delivered(render(s.reminders[id].message), outcomes) then Sent else Failed)
  {
    var success := Delivered(render(s.reminders[id].message), outcomes);
    if Consistent(s) {
      FireKeepsJobInvariants(s.reminders, s.jobs, id, success, now);
    }
  }

  /**
   * `Consistent` relies on every job being run: a missed job keeps the state
   * `Valid`, but leaves its reminder pending with no job, and nothing in the
   * model ever settles it afterwards.
   */
  lemma MissEffect(s: State, id: nat)
    requires Consistent(s) && id in s.jobs
    ensures var r := Miss(s, id);
            && Valid(r) && !Consistent(r)
            && r.messages == s.messages && r.reminders == s.reminders && r.outbox == s.outbox
            && r.jobs == s.jobs - {id} && r.nextId == s.nextId
            && id in r.reminders && r.reminders[id].status == Pending && id !in r.jobs
  {
    MissBreaksPendingScheduled(s.reminders, s.jobs, id);
  }

  /** After a restart the state is still `Valid`; it is `Consistent` iff no reminder was pending. */
  lemma RestartEffect(s: State)
    requires Consistent(s)
    ensures var r := Restart(s);
            && Valid(r) && r.jobs == map[]
            && r.messages == s.messages && r.reminders == s.reminders
            && (Consistent(r) <==> forall id :: id in s.reminders ==> s.reminders[id].status != Pending)
  {
  }
}
