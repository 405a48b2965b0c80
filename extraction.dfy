/**
 * The structured record the reminder extractor returns (reminder_extraction.py):
 * two fields that must both be stated, each of which may be `None`.
 */
module Extraction {
  import opened Wrappers

  /**
   * `message` and `scheduleTime` are required positional fields (no defaults);
   * `None` is an explicit "not found". `scheduleTime` is a plain string: its
   * "YYYY-MM-DD HH:MM" shape is not checked here but at reminder creation.
   */
  datatype ReminderExtraction = ReminderExtraction(message: Option<string>, scheduleTime: Option<string>)

  /** Which of the two fields were extracted. */
  datatype Presence = Neither | TimeOnly | MessageOnly | Both

  function PresenceOf(e: ReminderExtraction): (p: Presence)
    ensures p == Neither <==> e.message.None? && e.scheduleTime.None?
    ensures p == TimeOnly <==> e.message.None? && e.scheduleTime.Some?
    ensures p == MessageOnly <==> e.message.Some? && e.scheduleTime.None?
    ensures p == Both <==> e.message.Some? && e.scheduleTime.Some?
  {
    match (e.message, e.scheduleTime)
    case (None, None) => Neither
    case (None, Some(_)) => TimeOnly
    case (Some(_), None) => MessageOnly
    case (Some(_), Some(_)) => Both
  }

  /** Each of the four null/non-null combinations is taken by some record. */
  lemma {:induction false} FourCombinations(p: Presence)
    ensures exists e :: PresenceOf(e) == p
  {
    match p
    case Neither => assert PresenceOf(ReminderExtraction(None, None)) == p;
    case TimeOnly => assert PresenceOf(ReminderExtraction(None, Some(""))) == p;
    case MessageOnly => assert PresenceOf(ReminderExtraction(Some(""), None)) == p;
    case Both => assert PresenceOf(ReminderExtraction(Some(""), Some(""))) == p;
  }
}
