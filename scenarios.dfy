/**
 * Worked examples: clients of the model that check concrete runs against the
 * contracts alone.
 */
module Scenarios {
  import opened Wrappers
  import opened DateTimes
  import opened Extraction
  import opened MessageLog
  import opened Reminders
  import opened Delivery
  import opened Routing
  import opened Store
  import opened Assistant

  const Minute: int := 60 * 1000

  /** Two failures, then a success: delivered on the third attempt after two pauses. */
  method RetryThenSucceed() {
    var ok, attempts, waits := SendWithRetry([false, false, true], MaxRetries);
    assert AnySuccess([false, false, true], MaxRetries) by {
      assert [false, false, true][2];
    }
    assert ok && attempts == 3 && waits == 2;
  }

  /** Three failures exhaust the default retries. */
  method RetryExhausted() {
    var ok, attempts, waits := SendWithRetry([false, false, false], MaxRetries);
    assert !ok && attempts == 3 && waits == 2;
  }

  /** A message 29 minutes old is in the window, one 31 minutes old is not, and 30 minutes exactly still is. */
  method WindowBoundary(now: int) {
    var recent := Message(0, "c", "a", now - 29 * Minute, false);
    var edge := Message(1, "c", "b", now - 30 * Minute, false);
    var stale := Message(2, "c", "d", now - 31 * Minute, false);
    var w := Window([recent, edge, stale], "c", now);
    assert recent in w && edge in w && stale !in w;
  }

  /** "Remind me at 16" yields a time without a message: the turn asks for the message only. */
  method AskForMessageOnly() {
    var e := ReminderExtraction(None, Some("2025-02-01 16:00"));
    assert Question(Decide(e)) == AskMessageReply;
  }

  /** End to end: a reminder request becomes a pending reminder, its job, and a confirmation quoting the time. */
  method EndToEnd(now: int) {
    var at := DateTime(2025, 6, 1, 18, 0);
    var extracted := ReminderExtraction(Some("llame al médico"), Some(Format(at)));
    var o := Oracles(_ => Some("llamar al médico a las 18"), _ => Some("reminder"), _ => None, _ => Some(extracted));
    var msg := Inbound("recuérdame a las 18 que llame al médico", "chat", now, now);
    var bot := new ReminderBot();
    bot.HandleMessage(msg.text, msg.chatId, msg.savedAt, msg.queriedAt, o);
    ParseFormat(at);
    assert TurnCreates(Initial(), msg, o);
    TurnSeesItsMessage(Initial(), msg, o);
    TurnEffect(Initial(), msg, o);
    assert bot.reminders[0].status == Pending && 0 in bot.jobs;
    assert bot.messages[0].processed;
    TurnShape(Initial(), msg, o);
    assert bot.outbox == [Confirmation(Format(at))];
  }

  /** Scheduling the same id for two times leaves the later job only. */
  method RescheduleReplaces(t1: DateTime, t2: DateTime) {
    var jobs := AddJob(AddJob(map[], 7, Job(t1, 7)), 7, Job(t2, 7));
    AddJobTwice(map[], 7, Job(t1, 7), Job(t2, 7));
    assert jobs == map[7 := Job(t2, 7)];
  }
}
