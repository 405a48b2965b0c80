/**
 * The pure decisions of a turn in main.py: routing on the intent label, the
 * four-way table over the extraction record, and the reply texts.
 */
module Routing {
  import opened Wrappers
  import opened DateTimes
  import opened Extraction

  /** The only intent label that selects the conversation branch. */
  const ConversationLabel: string := "conversation"

  // The long texts are written in two pieces so that the verifier sees their characters.
  const GeneralError: string := "Ups, parece que he tenido " + "un fallo. ¿Que me decías?"
  const AskBothReply: string := "Mmm... ¿Qué mensaje quieres " + "que te recuerde y en qué fecha y hora?"
  const AskMessageReply: string := "Mmm... ¿Qué mensaje quieres " + "que te recuerde?"
  const AskTimeReply: string := "Mmm... ¿En qué fecha y hora " + "quieres que te lo recuerde?"
  const ConfirmationPrefix: string := "¡Perfecto! Te he programado " + "un recordatorio para el "

  /** The confirmation quotes the extracted schedule time literally. */
  function Confirmation(scheduleTime: string): string {
    ConfirmationPrefix + scheduleTime
  }

  predicate IsConfirmation(reply: string) {
    ConfirmationPrefix <= reply
  }

  /** What handle_reminder does with an extraction record. */
  datatype Decision = AskBoth | AskMessage | AskTime | Create(message: string, scheduleTime: string)

  /** The decision table: a reminder is created exactly when both fields are present. */
  function Decide(e: ReminderExtraction): (d: Decision)
    ensures d.AskBoth? <==> PresenceOf(e) == Neither
    ensures d.AskMessage? <==> PresenceOf(e) == TimeOnly
    ensures d.AskTime? <==> PresenceOf(e) == MessageOnly
    ensures d.Create? <==> PresenceOf(e) == Both
    ensures d.Create? ==> d.message == e.message.value && d.scheduleTime == e.scheduleTime.value
  {
    if e.message.None? && e.scheduleTime.None? then AskBoth
    else if e.message.None? then AskMessage
    else if e.scheduleTime.None? then AskTime
    else Create(e.message.value, e.scheduleTime.value)
  }

  /** The clarifying question of a decision that does not create a reminder. */
  function Question(d: Decision): string
    requires !d.Create?
  {
    match d
    case AskBoth => AskBothReply
    case AskMessage => AskMessageReply
    case AskTime => AskTimeReply
  }

  /** An extraction that creates a reminder: both fields present and the time well-formed. */
  predicate Creates(ex: Option<ReminderExtraction>) {
    && ex.Some?
    && Decide(ex.value).Create?
    && ParseScheduleTime(ex.value.scheduleTime.value).Some?
  }

  /** No reply other than a confirmation starts like one, and the three questions differ. */
  lemma RepliesAreDistinct()
    ensures !IsConfirmation(GeneralError)
    ensures !IsConfirmation(AskBothReply) && !IsConfirmation(AskMessageReply) && !IsConfirmation(AskTimeReply)
    ensures AskBothReply != AskMessageReply && AskMessageReply != AskTimeReply && AskBothReply != AskTimeReply
    ensures forall t :: IsConfirmation(Confirmation(t))
  {
    assert GeneralError[0] != ConfirmationPrefix[0];
    assert AskBothReply[0] != ConfirmationPrefix[0];
    assert AskMessageReply[0] != ConfirmationPrefix[0];
    assert AskTimeReply[0] != ConfirmationPrefix[0];
    assert |AskMessageReply| != |AskBothReply| && |AskMessageReply| != |AskTimeReply|;
    assert AskBothReply[8] != AskTimeReply[8];
  }

  /** The extraction record's schedule time is not checked by its type: a record can reach creation and still fail the parse. */
  lemma UnvalidatedTimeReachesCreation()
    ensures var e := ReminderExtraction(Some("llamar al médico"), Some("mañana a las 6"));
            Decide(e).Create? && !Creates(Some(e))
  {
  }
}
