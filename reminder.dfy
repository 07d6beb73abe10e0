/*
 * The reminder entity: its status domain, the closed set of notification lead
 * times, the reminder record itself and the icon/colour chosen per status.
 *
 * Time is a whole number of seconds supplied by the caller: nothing in the
 * model reads a clock.
 */
module ReminderModel {

  /** Lifecycle of a reminder: Active, then Pending once inside the notify
      window, then Finished by an explicit user action. */
  datatype ReminderStatus = Active | Pending | Finished

  /** The raw value each status is encoded as (the enum is `String`-backed and
      `Codable`; the form's status picker shows the same text). */
  function StatusRawValue(s: ReminderStatus): string
  {
    match s
    case Active => "Active"
    case Pending => "Pending"
    case Finished => "Finished"
  }

  /** Decoding a raw value back to a status, as the enum's failable
      `init(rawValue:)` does: any other text decodes to nothing. */
  function StatusFromRawValue(raw: string): (s: Option<ReminderStatus>)
    ensures s.Some? ==> StatusRawValue(s.value) == raw
  {
    if raw == "Active" then Some(Active)
    else if raw == "Pending" then Some(Pending)
    else if raw == "Finished" then Some(Finished)
    else None
  }

  /** Every status survives an encode/decode round trip, so the three raw
      values are pairwise distinct. */
  lemma StatusRawValueRoundTrip(s: ReminderStatus)
    ensures StatusFromRawValue(StatusRawValue(s)) == Some(s)
  {
  }

  lemma StatusRawValueInjective(a: ReminderStatus, b: ReminderStatus)
    ensures StatusRawValue(a) == StatusRawValue(b) ==> a == b
  {
    StatusRawValueRoundTrip(a);
    StatusRawValueRoundTrip(b);
  }

  /** How long before the due date the notification should fire. */
  datatype NotificationInterval = Hour | Day | Week

  /** The cases in declaration order (`allCases`), the order the form's picker
      lists them in. */
  function AllIntervals(): seq<NotificationInterval>
  {
    [Hour, Day, Week]
  }

  /** Lead duration in seconds: a positive whole number of hours. */
  function TimeInterval(n: NotificationInterval): (secs: nat)
    ensures secs > 0 && secs % 3600 == 0
  {
    match n
    case Hour => 3600
    case Day => 86400
    case Week => 604800
  }

  /** The lead durations grow strictly along `allCases`: a day is 24 hours
      and a week is 7 days. */
  lemma LeadDurations()
    ensures TimeInterval(Hour) == 3600
    ensures TimeInterval(Day) == 24 * TimeInterval(Hour)
    ensures TimeInterval(Week) == 7 * TimeInterval(Day)
    ensures forall i, j :: 0 <= i < j < |AllIntervals()| ==>
      TimeInterval(AllIntervals()[i]) < TimeInterval(AllIntervals()[j])
  {
  }

  /** `allCases` lists every interval exactly once. */
  lemma AllIntervalsComplete(n: NotificationInterval)
    ensures n in AllIntervals()
    ensures forall i, j :: 0 <= i < j < |AllIntervals()| ==> AllIntervals()[i] != AllIntervals()[j]
  {
  }

  function IntervalRawValue(n: NotificationInterval): string
  {
    match n
    case Hour => "Hour"
    case Day => "Day"
    case Week => "Week"
  }

  function IntervalFromRawValue(raw: string): (n: Option<NotificationInterval>)
    ensures n.Some? ==> IntervalRawValue(n.value) == raw
  {
    if raw == "Hour" then Some(Hour)
    else if raw == "Day" then Some(Day)
    else if raw == "Week" then Some(Week)
    else None
  }

  lemma IntervalRawValueRoundTrip(n: NotificationInterval)
    ensures IntervalFromRawValue(IntervalRawValue(n)) == Some(n)
  {
  }

  datatype Option<T> = None | Some(value: T)

  /** The instant a reminder's notification is due: its date minus the lead
      time. It always lies strictly before the date, a whole number of hours
      earlier. */
  function NotifyDate(date: int, notifyBefore: NotificationInterval): (at: int)
    ensures at < date && (date - at) % 3600 == 0
  {
    date - TimeInterval(notifyBefore)
  }

  /** The notify window: from the notify date up to and including the due
      date. Both the reconciliation pass and the scheduler's follow-up use it. */
  predicate InWindow(date: int, notifyBefore: NotificationInterval, now: int): (b: bool)
    ensures b <==> 0 <= date - now <= TimeInterval(notifyBefore)
  {
    NotifyDate(date, notifyBefore) <= now && now <= date
  }

  /** A window is never empty: it contains at least its two end points. */
  lemma WindowEnds(date: int, notifyBefore: NotificationInterval)
    ensures InWindow(date, notifyBefore, date)
    ensures InWindow(date, notifyBefore, NotifyDate(date, notifyBefore))
    ensures !InWindow(date, notifyBefore, date + 1)
    ensures !InWindow(date, notifyBefore, NotifyDate(date, notifyBefore) - 1)
  {
  }

  /** Every field of a reminder, as a value. */
  datatype ReminderData = ReminderData(
    title: string,
    notes: string,
    date: int,
    creationDate: int,
    status: ReminderStatus,
    notifyBefore: NotificationInterval)

  /** A stored reminder. It is an object: the list view, the form and the
      scheduler all update its fields in place, and two reminders with equal
      fields are still two reminders. */
  class Reminder {
    var title: string
    var notes: string
    var date: int
    var creationDate: int
    var status: ReminderStatus
    var notifyBefore: NotificationInterval

    /** The creation date is the construction instant `now`; the rest is
        stored as given, with defaults for notes, status and lead time. */
    constructor (now: int, title: string, notes: string := "", date: int,
                 status: ReminderStatus := Active, notifyBefore: NotificationInterval := Day)
      ensures Data() == ReminderData(title, notes, date, now, status, notifyBefore)
    {
      this.title := title;
      this.notes := notes;
      this.date := date;
      this.creationDate := now;
      this.status := status;
      this.notifyBefore := notifyBefore;
    }

    function Data(): ReminderData
      reads this
    {
      ReminderData(title, notes, date, creationDate, status, notifyBefore)
    }
  }

  /** A reminder built with only a title and a date is Active, has empty notes
      and a lead time of one day. */
  method NewWithDefaults(now: int, title: string, date: int) returns (r: Reminder)
    ensures fresh(r)
    ensures r.status == Active && r.notes == "" && r.notifyBefore == Day
    ensures r.title == title && r.date == date && r.creationDate == now
  {
    r := new Reminder(now, title, date := date);
  }

  /** The colours the views use. */
  datatype Color = Blue | Yellow | Green | Red

  /** The SF Symbol shown for a status: always a filled circle. */
  function StatusIcon(s: ReminderStatus): (icon: string)
    ensures |icon| > 12 && icon[|icon| - 12..] == ".circle.fill"
  {
    match s
    case Active => "bolt.circle.fill"
    case Pending => "hourglass.circle.fill"
    case Finished => "checkmark.circle.fill"
  }

  /** The tint of a status icon; red is left to the progress bar. */
  function StatusColor(s: ReminderStatus): (c: Color)
    ensures c != Red
  {
    match s
    case Active => Blue
    case Pending => Yellow
    case Finished => Green
  }

  /** Icon and colour each tell the three statuses apart. */
  lemma StatusIconAndColorInjective(a: ReminderStatus, b: ReminderStatus)
    ensures StatusIcon(a) == StatusIcon(b) ==> a == b
    ensures StatusColor(a) == StatusColor(b) ==> a == b
  {
  }
}
