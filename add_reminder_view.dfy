/*
 * The add/edit form: its initial values and what saving does to the stored
 * reminders and to the pending notification requests.
 */
module AddReminderView {
  import opened ReminderModel
  import opened Store
  import opened NotificationManager

  class AddReminderForm {
    var title: string
    var notes: string
    var date: int
    var status: ReminderStatus
    var notifyBefore: NotificationInterval

    /** The reminder being edited, or null for a new one. */
    const editingReminder: Reminder?

    /** An edit form starts from the edited reminder's fields; a new form
        starts empty, due an hour from `now`, Active, with a one-hour lead. */
    constructor (editingReminder: Reminder?, now: int)
      ensures this.editingReminder == editingReminder
      ensures editingReminder == null ==>
        title == "" && notes == "" && date == now + 3600 && status == Active && notifyBefore == Hour
      ensures editingReminder != null ==>
        title == editingReminder.title && notes == editingReminder.notes && date == editingReminder.date &&
        status == editingReminder.status && notifyBefore == editingReminder.notifyBefore
    {
      this.editingReminder := editingReminder;
      if editingReminder != null {
        title := editingReminder.title;
        notes := editingReminder.notes;
        date := editingReminder.date;
        status := editingReminder.status;
        notifyBefore := editingReminder.notifyBefore;
      } else {
        title := "";
        notes := "";
        date := now + 3600;
        status := Active;
        notifyBefore := Hour;
      }
    }

    /** The form's values as a reminder's fields, created at `creationDate`. */
    function Entered(creationDate: int): ReminderData
      reads this
    {
      ReminderData(title, notes, date, creationDate, status, notifyBefore)
    }

    /** The first half of saving: an edit overwrites the edited reminder's
        five form fields in place, keeping its creation date and the list; a
        new reminder built from the form at `now` is inserted. Returns the
        stored reminder. */
    method Persist(context: ModelContext, now: int) returns (saved: Reminder)
      requires context.Valid()
      modifies context, editingReminder
      ensures context.Valid()
      ensures forall r :: r in old(context.reminders) && r != editingReminder ==> r.Data() == old(r.Data())
      ensures editingReminder != null ==>
        saved == editingReminder && context.reminders == old(context.reminders) &&
        saved.Data() == Entered(old(editingReminder.creationDate))
      ensures editingReminder == null ==>
        fresh(saved) && context.reminders == old(context.reminders) + [saved] &&
        saved.Data() == Entered(now)
    {
      if editingReminder != null {
        editingReminder.title := title;
        editingReminder.notes := notes;
        editingReminder.date := date;
        editingReminder.status := status;
        editingReminder.notifyBefore := notifyBefore;
        saved := editingReminder;
      } else {
        saved := new Reminder(now, title, notes, date, status, notifyBefore);
        context.Insert(saved);
      }
    }

    /** Saving the form at `now`. `saveSucceeds` is the outcome of the store's
        save, `addSucceeds` the platform's answer to adding the request and
        `followUpNow` the instant the scheduler's delayed follow-up runs.
        Scheduling happens only after a successful save, and then for the
        edited reminder or, for a new reminder, for a second reminder built
        from the form rather than the inserted one: that one never gets a
        request and the follow-up never reaches it. */
    method SaveReminder(context: ModelContext, center: NotificationCenter, now: int,
                        saveSucceeds: bool, addSucceeds: bool, followUpNow: int) returns (dismissed: bool)
      requires context.Valid() && UniqueIds(center.pending)
      modifies context, center, editingReminder
      ensures context.Valid() && UniqueIds(center.pending)
      ensures dismissed == saveSucceeds
      ensures forall r :: r in old(context.reminders) && r != editingReminder ==> r.Data() == old(r.Data())
      ensures !saveSucceeds ==> center.pending == old(center.pending)
      ensures var armed := saveSucceeds && ScheduleDecision(date, notifyBefore, now).Armed? && addSucceeds;
        editingReminder != null ==>
          context.reminders == old(context.reminders) &&
          editingReminder.Data() == Entered(old(editingReminder.creationDate)).(status :=
            if armed then FollowUpStatus(status, date, notifyBefore, followUpNow) else status) &&
          (saveSucceeds ==>
            Cancel(center.pending, editingReminder) == Cancel(old(center.pending), editingReminder) &&
            RequestsFor(center.pending, editingReminder) ==
              if armed then {Request(editingReminder, title, notes, NotifyDate(date, notifyBefore))} else {})
      ensures var armed := saveSucceeds && ScheduleDecision(date, notifyBefore, now).Armed? && addSucceeds;
        editingReminder == null ==>
          |context.reminders| == |old(context.reminders)| + 1 &&
          context.reminders[..|old(context.reminders)|] == old(context.reminders) &&
          fresh(context.reminders[|old(context.reminders)|]) &&
          context.reminders[|old(context.reminders)|].Data() == Entered(now) &&
          RequestsFor(center.pending, context.reminders[|old(context.reminders)|]) == {} &&
          old(center.pending) <= center.pending &&
          (center.pending == old(center.pending) <==> !armed) &&
          forall q :: q in center.pending && q !in old(center.pending) ==>
            fresh(q.id) && q.id !in context.reminders &&
            q == Request(q.id, title, notes, NotifyDate(date, notifyBefore))
    {
      ghost var pending := center.pending;
      var saved := Persist(context, now);
      assert forall q :: q in pending ==> q.id != saved || editingReminder != null;
      if saveSucceeds {
        var target: Reminder;
        if editingReminder != null {
          target := editingReminder;
        } else {
          target := new Reminder(now, title, notes, date, status, notifyBefore);
        }
        ScheduleNotification(center, target, now, addSucceeds, followUpNow);
        if editingReminder == null {
          assert forall q :: q in pending ==> q.id != target;
          assert Cancel(pending, target) == pending;
          assert center.pending == Cancel(center.pending, target) + RequestsFor(center.pending, target);
        }
        dismissed := true;
      } else {
        dismissed := false;
      }
    }

    /** Saving as evidently intended: the request is scheduled for the stored
        reminder itself, new or edited, so its identifier is the stored one
        and the follow-up updates the stored status. */
    method SaveReminderScheduleStored(context: ModelContext, center: NotificationCenter, now: int,
                                      saveSucceeds: bool, addSucceeds: bool, followUpNow: int)
      returns (dismissed: bool, saved: Reminder)
      requires context.Valid() && UniqueIds(center.pending)
      modifies context, center, editingReminder
      ensures context.Valid() && UniqueIds(center.pending)
      ensures dismissed == saveSucceeds
      ensures editingReminder != null ==> saved == editingReminder && context.reminders == old(context.reminders)
      ensures editingReminder == null ==> fresh(saved) && context.reminders == old(context.reminders) + [saved]
      ensures forall r :: r in old(context.reminders) && r != editingReminder ==> r.Data() == old(r.Data())
      ensures !saveSucceeds ==> center.pending == old(center.pending)
      ensures var armed := saveSucceeds && ScheduleDecision(date, notifyBefore, now).Armed? && addSucceeds;
        saved.Data() == Entered(saved.creationDate).(status :=
          if armed then FollowUpStatus(status, date, notifyBefore, followUpNow) else status) &&
        (saveSucceeds ==>
          Cancel(center.pending, saved) == Cancel(old(center.pending), saved) &&
          RequestsFor(center.pending, saved) ==
            if armed then {Request(saved, title, notes, NotifyDate(date, notifyBefore))} else {})
    {
      saved := Persist(context, now);
      if saveSucceeds {
        ScheduleNotification(center, saved, now, addSucceeds, followUpNow);
        dismissed := true;
      } else {
        dismissed := false;
      }
    }
  }

  /** A reminder due a week ahead with a one-day lead, added at `now` and
      edited unchanged an hour later, with every save and add succeeding and
      each follow-up one second after its save. The add files its request
      under an identifier no stored reminder has; the edit cannot cancel it
      and adds a second request: the one stored reminder ends up with two
      pending notifications, both due a day before its date. */
  method NewThenEditAsWritten(now: int) returns (context: ModelContext, center: NotificationCenter)
    ensures |context.reminders| == 1
    ensures |RequestsFor(center.pending, context.reminders[0])| == 1
    ensures exists q :: q in center.pending && q.id != context.reminders[0] &&
                        q.fireAt == NotifyDate(context.reminders[0].date, context.reminders[0].notifyBefore)
  {
    context := new ModelContext();
    center := new NotificationCenter();
    var form := new AddReminderForm(null, now);
    form.date, form.notifyBefore := now + 604800, Day;
    var _ := form.SaveReminder(context, center, now, true, true, now + 1);
    var stored := context.reminders[0];
    var stale :| stale in center.pending;
    assert stale.id != stored;

    var edit := new AddReminderForm(stored, now + 3600);
    var _ := edit.SaveReminder(context, center, now + 3600, true, true, now + 3601);
    assert stale in Cancel(center.pending, stored);
    var live := Request(stored, "", "", now + 518400);
    assert RequestsFor(center.pending, stored) == {live};
  }

  /** The same two saves with the stored reminder scheduled: one request,
      under the stored reminder's identifier. */
  method NewThenEditScheduleStored(now: int) returns (context: ModelContext, center: NotificationCenter)
    ensures |context.reminders| == 1
    ensures center.pending == {Request(context.reminders[0], "", "", now + 518400)}
  {
    context := new ModelContext();
    center := new NotificationCenter();
    var form := new AddReminderForm(null, now);
    form.date, form.notifyBefore := now + 604800, Day;
    var _, stored := form.SaveReminderScheduleStored(context, center, now, true, true, now + 1);
    assert context.reminders == [stored];

    var edit := new AddReminderForm(stored, now + 3600);
    var _, _ := edit.SaveReminderScheduleStored(context, center, now + 3600, true, true, now + 3601);
    var live := Request(stored, "", "", now + 518400);
    assert RequestsFor(center.pending, stored) == {live};
    assert Cancel(center.pending, stored) == {};
    assert center.pending == Cancel(center.pending, stored) + RequestsFor(center.pending, stored);
  }
}
