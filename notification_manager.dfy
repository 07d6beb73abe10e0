/*
 * Scheduling a reminder's local notification: cancel the request already held
 * for the reminder, skip if the notify date has passed, otherwise add one
 * request and, once the add has succeeded, move the reminder to Pending if its
 * window is open.
 *
 * The platform's notification centre is reduced to the set of pending
 * requests. A request's identifier is the reminder object itself, standing for
 * the text of the object's hash value.
 */
module NotificationManager {
  import opened ReminderModel
  import ContentView

  /** What the scheduler decides for a reminder at `now`. */
  datatype ScheduleOutcome = Skipped | Armed(fireAt: int)

  /** The notification fires at the notify date, unless that date is already
      in the past; a notify date equal to `now` is still armed. */
  function ScheduleDecision(date: int, notifyBefore: NotificationInterval, now: int): (o: ScheduleOutcome)
    ensures o.Skipped? <==> NotifyDate(date, notifyBefore) < now
    ensures o.Armed? ==> o.fireAt == NotifyDate(date, notifyBefore) && now <= o.fireAt < date
  {
    var notifyDate := date - TimeInterval(notifyBefore);
    if notifyDate < now then Skipped else Armed(notifyDate)
  }

  /** The skip test is strict and the window test is not: a reminder whose
      notify date is exactly `now` is armed and is already inside its window. */
  lemma ArmedAtWindowStart(date: int, notifyBefore: NotificationInterval, now: int)
    requires NotifyDate(date, notifyBefore) == now
    ensures ScheduleDecision(date, notifyBefore, now) == Armed(now)
    ensures InWindow(date, notifyBefore, now)
  {
  }

  /** A reminder is skipped exactly when its window has opened before `now`
      (whether or not it has also closed). */
  lemma SkippedOnceWindowOpened(date: int, notifyBefore: NotificationInterval, now: int)
    ensures ScheduleDecision(date, notifyBefore, now).Skipped? <==>
      (InWindow(date, notifyBefore, now) && now != NotifyDate(date, notifyBefore)) || now > date
  {
  }

  /** The status the scheduler's follow-up writes: Pending whenever `now` is in
      the window, whatever the status was; otherwise the status is kept. */
  function FollowUpStatus(status: ReminderStatus, date: int, notifyBefore: NotificationInterval,
                          now: int): (s: ReminderStatus)
    ensures s == Pending <==> status == Pending || InWindow(date, notifyBefore, now)
    ensures !InWindow(date, notifyBefore, now) ==> s == status
  {
    if InWindow(date, notifyBefore, now) then Pending else status
  }

  /** On Active and Pending reminders the follow-up agrees with the
      reconciliation pass. */
  lemma FollowUpAgreesUnlessFinished(status: ReminderStatus, date: int, notifyBefore: NotificationInterval, now: int)
    requires status != Finished
    ensures FollowUpStatus(status, date, notifyBefore, now) ==
            ContentView.ReconciledStatus(status, date, notifyBefore, now)
  {
  }

  /** Unlike the reconciliation pass, the follow-up does not look at the
      current status: inside the window it turns a Finished reminder back into
      a Pending one, which the pass never does. */
  lemma FollowUpReopensFinished(date: int, notifyBefore: NotificationInterval, now: int)
    requires InWindow(date, notifyBefore, now)
    ensures FollowUpStatus(Finished, date, notifyBefore, now) == Pending
    ensures ContentView.ReconciledStatus(Finished, date, notifyBefore, now) == Finished
  {
  }

  /** A pending notification request: its identifier, its content and the
      instant it is due to fire. */
  datatype Request = Request(id: Reminder, title: string, body: string, fireAt: int)

  /** The pending requests filed under identifier `id`. */
  function RequestsFor(pending: set<Request>, id: Reminder): (rs: set<Request>)
    ensures rs <= pending
    ensures forall q :: q in rs ==> q.id == id
    ensures forall q :: q in pending && q.id == id ==> q in rs
  {
    set q | q in pending && q.id == id
  }

  /** At most one pending request per identifier. */
  ghost predicate UniqueIds(pending: set<Request>)
  {
    forall a, b :: a in pending && b in pending && a.id == b.id ==> a == b
  }

  /** Removing the requests with one identifier. */
  function Cancel(pending: set<Request>, id: Reminder): (p: set<Request>)
    ensures RequestsFor(p, id) == {}
    ensures p <= pending && forall q :: q in pending && q.id != id ==> q in p
  {
    pending - RequestsFor(pending, id)
  }

  /** Adding a request replaces any pending request with the same
      identifier: afterwards exactly the new request is under it, the other
      requests are kept and identifiers stay unique. Cancelling first changes
      nothing about the result. */
  lemma CancelThenAdd(pending: set<Request>, q: Request)
    requires UniqueIds(pending)
    ensures UniqueIds(Cancel(pending, q.id) + {q})
    ensures RequestsFor(Cancel(pending, q.id) + {q}, q.id) == {q}
    ensures Cancel(Cancel(pending, q.id) + {q}, q.id) == Cancel(pending, q.id)
    ensures Cancel(Cancel(pending, q.id), q.id) + {q} == Cancel(pending, q.id) + {q}
  {
    var p := Cancel(pending, q.id) + {q};
    forall x | x in RequestsFor(p, q.id)
      ensures x == q
    {
      assert x in pending - RequestsFor(pending, q.id) || x == q;
    }
  }

  /** The requests pending in the platform's notification centre. */
  class NotificationCenter {
    var pending: set<Request>

    constructor ()
      ensures pending == {}
    {
      pending := {};
    }

    method RemovePendingNotificationRequests(id: Reminder)
      modifies this
      ensures pending == Cancel(old(pending), id)
    {
      pending := Cancel(pending, id);
    }

    /** Adds a request, replacing a pending one with the same identifier;
        `succeeds` stands for the platform's answer, and a failed add leaves
        the pending set as it was. */
    method Add(q: Request, succeeds: bool) returns (added: bool)
      modifies this
      ensures added == succeeds
      ensures pending == if succeeds then Cancel(old(pending), q.id) + {q} else old(pending)
    {
      added := succeeds;
      if succeeds {
        pending := Cancel(pending, q.id) + {q};
      }
    }
  }

  /** The delayed follow-up: if `now` lies in the reminder's window its status
      becomes Pending, whatever it was; otherwise nothing changes. */
  method UpdateReminderStatusToPending(reminder: Reminder, now: int)
    modifies reminder
    ensures reminder.Data() == old(reminder.Data()).(status :=
      FollowUpStatus(old(reminder.status), old(reminder.date), old(reminder.notifyBefore), now))
  {
    var notifyDate := reminder.date - TimeInterval(reminder.notifyBefore);
    if notifyDate <= now && now <= reminder.date {
      reminder.status := Pending;
    }
  }

  /** Schedules the notification for `reminder` at `now`. `addSucceeds` is the
      platform's answer to the add and `followUpNow` the instant the delayed
      follow-up runs. Afterwards the reminder has exactly one pending request,
      due at its notify date, if scheduling was armed and the add succeeded,
      and none otherwise; other reminders' requests are untouched. The
      follow-up runs only after a successful add. */
  method ScheduleNotification(center: NotificationCenter, reminder: Reminder, now: int,
                              addSucceeds: bool, followUpNow: int)
    requires UniqueIds(center.pending)
    modifies center, reminder
    ensures UniqueIds(center.pending)
    ensures Cancel(center.pending, reminder) == Cancel(old(center.pending), reminder)
    ensures var o := ScheduleDecision(old(reminder.date), old(reminder.notifyBefore), now);
      RequestsFor(center.pending, reminder) ==
        if o.Armed? && addSucceeds
        then {Request(reminder, old(reminder.title), old(reminder.notes), o.fireAt)}
        else {}
    ensures var o := ScheduleDecision(old(reminder.date), old(reminder.notifyBefore), now);
      reminder.Data() ==
        if o.Armed? && addSucceeds
        then old(reminder.Data()).(status :=
          FollowUpStatus(old(reminder.status), old(reminder.date), old(reminder.notifyBefore), followUpNow))
        else old(reminder.Data())
  {
    center.RemovePendingNotificationRequests(reminder);

    var title := reminder.title;
    var body := reminder.notes;
    var notifyDate := reminder.date - TimeInterval(reminder.notifyBefore);

    if notifyDate < now {
      return;
    }

    var q := Request(reminder, title, body, notifyDate);
    CancelThenAdd(old(center.pending), q);
    var added := center.Add(q, addSucceeds);
    if added {
      UpdateReminderStatusToPending(reminder, followUpNow);
    }
  }

  /** The scheduler with the removal at its start left out, to show what the
      removal is for: a skipped reschedule then leaves the pending set as it
      was, and an armed one replaces the request as before. */
  method ScheduleWithoutRemoval(center: NotificationCenter, reminder: Reminder, now: int,
                                addSucceeds: bool, followUpNow: int)
    requires UniqueIds(center.pending)
    modifies center, reminder
    ensures UniqueIds(center.pending)
    ensures var o := ScheduleDecision(old(reminder.date), old(reminder.notifyBefore), now);
      center.pending ==
        if o.Armed? && addSucceeds
        then Cancel(old(center.pending), reminder) +
          {Request(reminder, old(reminder.title), old(reminder.notes), o.fireAt)}
        else old(center.pending)
    ensures var o := ScheduleDecision(old(reminder.date), old(reminder.notifyBefore), now);
      reminder.Data() ==
        if o.Armed? && addSucceeds
        then old(reminder.Data()).(status :=
          FollowUpStatus(old(reminder.status), old(reminder.date), old(reminder.notifyBefore), followUpNow))
        else old(reminder.Data())
  {
    var notifyDate := reminder.date - TimeInterval(reminder.notifyBefore);
    if notifyDate < now {
      return;
    }
    var q := Request(reminder, reminder.title, reminder.notes, notifyDate);
    CancelThenAdd(center.pending, q);
    var added := center.Add(q, addSucceeds);
    if added {
      UpdateReminderStatusToPending(reminder, followUpNow);
    }
  }

  /** A reminder due a week ahead with a one-day lead is scheduled at `now`;
      its date is then moved to an hour ahead, so its notify date has passed,
      and it is scheduled again. With the removal it has no request left;
      without it the first request stays live and fires six days after the
      new due date. */
  method RescheduleIntoPast(now: int)
    returns (reminder: Reminder, withRemoval: NotificationCenter, withoutRemoval: NotificationCenter)
    ensures reminder.date == now + 3600
    ensures RequestsFor(withRemoval.pending, reminder) == {}
    ensures RequestsFor(withoutRemoval.pending, reminder) == {Request(reminder, "", "", now + 518400)}
    ensures forall q :: q in withoutRemoval.pending ==> q.fireAt > reminder.date
  {
    reminder := new Reminder(now, "", "", now + 604800, Active, Day);
    withRemoval := new NotificationCenter();
    withoutRemoval := new NotificationCenter();
    ScheduleNotification(withRemoval, reminder, now, true, now + 1);
    ScheduleWithoutRemoval(withoutRemoval, reminder, now, true, now + 1);
    var first := Request(reminder, "", "", now + 518400);
    assert withoutRemoval.pending == {first};

    reminder.date := now + 3600;
    ScheduleNotification(withRemoval, reminder, now, true, now + 1);
    ScheduleWithoutRemoval(withoutRemoval, reminder, now, true, now + 1);
  }
}
