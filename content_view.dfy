/*
 * The reminder list: the status engine it applies on every refresh, the
 * reconciliation pass over all stored reminders, the three status filters the
 * list is drawn from, and the two manual actions (mark as finished, delete).
 */
module ContentView {
  import opened ReminderModel
  import opened Store

  /** The status a reminder should have at `now` under the automatic rule:
      an Active reminder whose notify window contains `now` becomes Pending;
      every other reminder keeps its status. */
  function ReconciledStatus(status: ReminderStatus, date: int, notifyBefore: NotificationInterval,
                            now: int): (s: ReminderStatus)
    ensures s == Pending <==> status == Pending || (status == Active && InWindow(date, notifyBefore, now))
    ensures s == Finished <==> status == Finished
  {
    if status == Active && InWindow(date, notifyBefore, now) then Pending else status
  }

  /** One reminder after the automatic rule: only its status may differ. */
  function Reconcile(d: ReminderData, now: int): (e: ReminderData)
    ensures e.(status := d.status) == d
  {
    d.(status := ReconciledStatus(d.status, d.date, d.notifyBefore, now))
  }

  /** The engine never moves a status backwards and never finishes a reminder:
      Finished and Pending are kept, Active becomes Pending exactly inside the
      window and stays Active outside it. */
  lemma ReconcileTransitions(d: ReminderData, now: int)
    ensures d.status == Finished ==> Reconcile(d, now).status == Finished
    ensures d.status == Pending ==> Reconcile(d, now).status == Pending
    ensures d.status == Active ==>
      (Reconcile(d, now).status == Pending <==> InWindow(d.date, d.notifyBefore, now)) &&
      (Reconcile(d, now).status == Active <==> !InWindow(d.date, d.notifyBefore, now))
  {
  }

  /** Applying the rule twice at the same instant is applying it once. */
  lemma ReconcileIdempotent(d: ReminderData, now: int)
    ensures Reconcile(Reconcile(d, now), now) == Reconcile(d, now)
  {
  }

  /** The rule applied to every reminder of a list, in order. */
  function ReconcileAll(ds: seq<ReminderData>, now: int): (es: seq<ReminderData>)
    ensures |es| == |ds|
    ensures forall i :: 0 <= i < |ds| ==> es[i] == Reconcile(ds[i], now)
  {
    if ds == [] then [] else [Reconcile(ds[0], now)] + ReconcileAll(ds[1..], now)
  }

  /** Running the whole pass twice at the same instant gives the state the
      first run left. */
  lemma {:induction false} ReconcileAllIdempotent(ds: seq<ReminderData>, now: int)
    ensures ReconcileAll(ReconcileAll(ds, now), now) == ReconcileAll(ds, now)
  {
    if ds != [] {
      ReconcileAllIdempotent(ds[1..], now);
      ReconcileIdempotent(ds[0], now);
      assert ReconcileAll(ds, now)[1..] == ReconcileAll(ds[1..], now);
    }
  }

  /** A reminder created at `d0`, due an hour later with a one-hour lead: its
      window opens at `d0` itself, so it is Active just before `d0`, Pending
      from `d0` on, and still Pending after the due date has passed. */
  lemma HourLeadScenario(d0: int)
    ensures var r := ReminderData("", "", d0 + 3600, d0, Active, Hour);
      Reconcile(r, d0 - 1).status == Active &&
      Reconcile(r, d0).status == Pending &&
      Reconcile(r, d0 + 1800).status == Pending &&
      Reconcile(Reconcile(r, d0 + 1800), d0 + 3601).status == Pending
  {
  }

  /** The fields of every reminder of a list, in order. */
  function Snapshot(rs: seq<Reminder>): (ds: seq<ReminderData>)
    reads rs
    ensures |ds| == |rs|
    ensures forall i :: 0 <= i < |rs| ==> ds[i] == rs[i].Data()
  {
    if rs == [] then [] else [rs[0].Data()] + Snapshot(rs[1..])
  }

  /** The periodic (and pull-to-refresh, and notification-tap) pass: every
      Active reminder whose window contains `now` becomes Pending; nothing else
      about any reminder, nor the list itself, changes. */
  method UpdateReminderStatuses(context: ModelContext, now: int)
    requires context.Valid()
    modifies context.reminders
    ensures context.reminders == old(context.reminders)
    ensures Snapshot(context.reminders) == ReconcileAll(old(Snapshot(context.reminders)), now)
  {
    var reminders := context.reminders;
    for i := 0 to |reminders|
      invariant forall k :: 0 <= k < i ==> reminders[k].Data() == Reconcile(old(reminders[k].Data()), now)
      invariant forall k :: i <= k < |reminders| ==> reminders[k].Data() == old(reminders[k].Data())
    {
      var reminder := reminders[i];
      if reminder.status == Active {
        var notifyDate := reminder.date - TimeInterval(reminder.notifyBefore);
        if notifyDate <= now && now <= reminder.date {
          reminder.status := Pending;
        }
      }
    }
  }

  /** The reminders of the list with status `s`, in list order. */
  function StatusFilter(rs: seq<Reminder>, s: ReminderStatus): (f: seq<Reminder>)
    reads rs
    ensures |f| <= |rs|
    ensures forall i :: 0 <= i < |f| ==> f[i] in rs && f[i].status == s
    ensures forall i :: 0 <= i < |rs| && rs[i].status == s ==> rs[i] in f
  {
    if rs == [] then []
    else if rs[0].status == s then [rs[0]] + StatusFilter(rs[1..], s)
    else StatusFilter(rs[1..], s)
  }

  /** The Active, Pending and Finished sections split the list: each reminder
      is in exactly one of them and together they are as long as the list. */
  lemma {:induction false} FiltersPartition(rs: seq<Reminder>)
    ensures |StatusFilter(rs, Active)| + |StatusFilter(rs, Pending)| + |StatusFilter(rs, Finished)| == |rs|
    ensures forall i :: 0 <= i < |rs| ==>
      (rs[i] in StatusFilter(rs, Active) <==> rs[i].status == Active) &&
      (rs[i] in StatusFilter(rs, Pending) <==> rs[i].status == Pending) &&
      (rs[i] in StatusFilter(rs, Finished) <==> rs[i].status == Finished)
  {
    if rs != [] {
      FiltersPartition(rs[1..]);
    }
  }

  predicate SortedByDate(rs: seq<Reminder>)
    reads rs
  {
    forall i, j :: 0 <= i < j < |rs| ==> rs[i].date <= rs[j].date
  }

  /** A section drawn from the date-sorted list is itself sorted by date. */
  lemma {:induction false} FilterKeepsOrder(rs: seq<Reminder>, s: ReminderStatus)
    requires SortedByDate(rs)
    ensures SortedByDate(StatusFilter(rs, s))
  {
    if rs != [] {
      assert SortedByDate(rs[1..]);
      FilterKeepsOrder(rs[1..], s);
      var tail := StatusFilter(rs[1..], s);
      forall j | 0 <= j < |tail|
        ensures rs[0].date <= tail[j].date
      {
        var k :| 0 <= k < |rs[1..]| && rs[1..][k] == tail[j];
        assert rs[k + 1] == tail[j];
      }
    }
  }

  /** The swipe action on a Pending reminder: it becomes Finished and nothing
      else about it changes. */
  method MarkAsFinished(reminder: Reminder)
    modifies reminder
    ensures reminder.Data() == old(reminder.Data()).(status := Finished)
  {
    reminder.status := Finished;
  }

  /** A Finished reminder stays Finished through every later pass. */
  lemma FinishedIsTerminal(d: ReminderData, now: int)
    requires d.status == Finished
    ensures Reconcile(d, now) == d
  {
  }

  /** The delete swipe action: exactly that reminder leaves the list, the
      others keep their order. Its scheduled notification is not cancelled. */
  method DeleteReminder(context: ModelContext, reminder: Reminder)
    requires context.Valid()
    modifies context
    ensures context.Valid()
    ensures context.reminders == Without(old(context.reminders), reminder)
    ensures forall i :: 0 <= i < |old(context.reminders)| && old(context.reminders)[i] == reminder ==>
      context.reminders == old(context.reminders)[..i] + old(context.reminders)[i + 1..]
  {
    ghost var before := context.reminders;
    context.Delete(reminder);
    forall i | 0 <= i < |before| && before[i] == reminder
      ensures context.reminders == before[..i] + before[i + 1..]
    {
      WithoutAt(before, i);
    }
  }
}
