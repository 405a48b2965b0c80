/**
 * The reminders collection and the scheduler's job table of main.py: reminder
 * records with their lifecycle status, one-shot jobs keyed by reminder id, and
 * the write-back trigger_reminder performs after a delivery attempt.
 */
module Reminders {
  import opened Wrappers
  import opened DateTimes

  datatype Status = Pending | Sent | Failed

  /**
   * A stored reminder. `lastAttempt` and `error` are `None` until the reminder
   * is triggered (absent fields); after that `error` is `None` on success.
   */
  datatype Reminder = Reminder(
    message: string,
    scheduleTime: DateTime,
    status: Status,
    lastAttempt: Option<int>,
    error: Option<string>)

  const TimeoutError: string := "Timeout error"

  /** The record both creation paths insert. */
  function NewReminder(message: string, t: DateTime): Reminder {
    Reminder(message, t, Pending, None, None)
  }

  /** A one-shot 'date' job: run trigger_reminder with `reminderId` at `runAt`. */
  datatype Job = Job(runAt: DateTime, reminderId: nat)

  /** scheduler.add_job(..., id=id, replace_existing=True). */
  function AddJob(jobs: map<nat, Job>, id: nat, job: Job): (r: map<nat, Job>)
    ensures id in r && r[id] == job
    ensures forall k :: k in jobs && k != id ==> k in r && r[k] == jobs[k]
    ensures forall k :: k in r ==> k in jobs || k == id
  {
    jobs[id := job]
  }

  /** Adding a job under an id that is taken replaces the old job: the count never grows. */
  lemma AddJobCount(jobs: map<nat, Job>, id: nat, job: Job)
    ensures |AddJob(jobs, id, job)| == if id in jobs then |jobs| else |jobs| + 1
  {
    var r := AddJob(jobs, id, job);
    if id in jobs {
      assert r.Keys == jobs.Keys;
    } else {
      assert r.Keys == jobs.Keys + {id};
    }
  }

  /** Scheduling the same id twice leaves one job: the second. */
  lemma AddJobTwice(jobs: map<nat, Job>, id: nat, first: Job, second: Job)
    ensures AddJob(AddJob(jobs, id, first), id, second) == AddJob(jobs, id, second)
  {
  }

  /** The write-back of trigger_reminder: status, last attempt and error; the previous status is not looked at. */
  function Settle(r: Reminder, success: bool, now: int): Reminder {
    r.(status := if success then Sent else Failed,
       lastAttempt := Some(now),
       error := if success then None else Some(TimeoutError))
  }

  /** update_one by id: changes the record if there is one, nothing otherwise. */
  function SettleIn(table: map<nat, Reminder>, id: nat, success: bool, now: int): map<nat, Reminder> {
    if id in table then table[id := Settle(table[id], success, now)] else table
  }

  /** What a trigger write-back changes, and everything it leaves alone. */
  lemma SettleInEffect(table: map<nat, Reminder>, id: nat, success: bool, now: int)
    ensures var t := SettleIn(table, id, success, now);
            && t.Keys == table.Keys
            && (id !in table ==> t == table)
            && (forall k :: k in table && k != id ==> t[k] == table[k])
            && (id in table ==>
                  && t[id].message == table[id].message
                  && t[id].scheduleTime == table[id].scheduleTime
                  && (t[id].status == Sent <==> success)
                  && (t[id].status == Failed <==> !success)
                  && t[id].lastAttempt == Some(now)
                  && (t[id].error == None <==> success)
                  && (!success ==> t[id].error == Some(TimeoutError)))
  {
  }

  /** Every job runs trigger_reminder for an existing reminder, at that reminder's time. */
  ghost predicate JobsMatch(reminders: map<nat, Reminder>, jobs: map<nat, Job>) {
    forall id :: id in jobs ==> id in reminders && jobs[id] == Job(reminders[id].scheduleTime, id)
  }

  /** A reminder has a live job exactly while it is pending. */
  ghost predicate PendingScheduled(reminders: map<nat, Reminder>, jobs: map<nat, Job>) {
    forall id :: id in reminders ==> (id in jobs <==> reminders[id].status == Pending)
  }

  /** Inserting a fresh pending reminder and its job keeps both job invariants. */
  lemma InsertKeepsJobInvariants(reminders: map<nat, Reminder>, jobs: map<nat, Job>, id: nat, message: string, t: DateTime)
    requires id !in reminders
    requires JobsMatch(reminders, jobs) && PendingScheduled(reminders, jobs)
    ensures var rs := reminders[id := NewReminder(message, t)];
            var js := AddJob(jobs, id, Job(t, id));
            JobsMatch(rs, js) && PendingScheduled(rs, js)
  {
  }

  /** A job that fires is removed, and its reminder leaves `Pending`: both invariants hold after. */
  lemma FireKeepsJobInvariants(reminders: map<nat, Reminder>, jobs: map<nat, Job>, id: nat, success: bool, now: int)
    requires id in jobs
    requires JobsMatch(reminders, jobs) && PendingScheduled(reminders, jobs)
    ensures var rs := SettleIn(reminders, id, success, now);
            var js := jobs - {id};
            JobsMatch(rs, js) && PendingScheduled(rs, js)
  {
  }

  /**
   * A job the scheduler drops without running (a run date already past its
   * grace time, or a job store lost on restart): job-to-reminder matching
   * survives, but the reminder stays pending with no job left to settle it.
   */
  lemma MissBreaksPendingScheduled(reminders: map<nat, Reminder>, jobs: map<nat, Job>, id: nat)
    requires id in jobs
    requires JobsMatch(reminders, jobs) && PendingScheduled(reminders, jobs)
    ensures JobsMatch(reminders, jobs - {id})
    ensures id in reminders && reminders[id].status == Pending && id !in jobs - {id}
    ensures !PendingScheduled(reminders, jobs - {id})
  {
  }
}
