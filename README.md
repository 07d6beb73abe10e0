# RemindMe reminder lifecycle and notification scheduling, in Dafny

RemindMe is a small SwiftUI reminder app. This project models its core logic:

- the status lifecycle of a reminder: Active, then Pending once inside its notify window, then Finished by hand;
- the reconciliation pass the reminder list runs every minute, on pull-to-refresh and when a notification is tapped;
- the decision to schedule a local notification, and the status follow-up after a successful schedule;
- the time-remaining text, the progress bar and its colour band shown in each row;
- the add/edit form: its initial values and what saving does to the store and to the pending requests.

Modules follow the source files:

- `ReminderModel` (`reminder.dfy`) covers `Reminder.swift`. It holds the status and lead-time enums with their raw values, the `Reminder` class, the notify date and the notify window.
- `Store` (`store.dfy`) is the SwiftData model context, reduced to a list of reminder objects with insert and delete.
- `ContentView` (`content_view.dfy`) holds the status engine, the reconciliation pass, the three section filters, mark-as-finished and delete.
- `NotificationManager` (`notification_manager.dfy`) holds the scheduling decision, the follow-up status write and the pending-request set of the platform's notification centre.
- `ReminderRow` (`reminder_row.dfy`) holds the remaining-time breakdown and text, and the progress clamp with its colour bands.
- `AddReminderView` (`add_reminder_view.dfy`) holds the form and the save flow.

Reminders are Dafny objects, as they are Swift objects. The list view, the form and the scheduler update their fields in place, and the form's quirk depends on the difference between two objects with equal fields. Time is an `int` number of seconds passed in as `now`. The save outcome, the platform's answer to an add, and the instant the delayed follow-up runs are parameters too.

A notification request is identified by the reminder object itself. This stands for the text of the object's hash value: the model assumes distinct objects get distinct identifiers.

Some behaviours of the code are easy to miss; the model keeps them as written:

- A reminder is Pending from the instant its window opens, because the test is `notifyDate <= now` (`ContentView.HourLeadScenario`).
- Progress is the clamp of `elapsed / total` as it is. For a due date before the creation date the bar stays empty once created (`ReminderRow.ProgressDueBeforeCreation`). For a due date equal to the creation date the division gives an infinity or NaN, and Swift's `min` and `max` then clamp it to 1 from creation on and 0 before (`ReminderRow.ProgressZeroSpan`).
- Deleting a reminder does not cancel its notification: `ContentView.DeleteReminder` touches only the store.
- The scheduler's follow-up does not check the status, so it turns a Finished reminder inside its window back into Pending (`NotificationManager.FollowUpReopensFinished`).
- Adding a notification request replaces a pending request with the same identifier. The removal before the skip test therefore matters when scheduling is skipped: it withdraws the old request, which would otherwise still fire. `NotificationManager.ScheduleWithoutRemoval` is the scheduler without the removal, and `NotificationManager.RescheduleIntoPast` runs both on a reminder whose date is moved forward.

## Model

| member | source | states |
|---|---|---|
| `ReminderModel.StatusFromRawValue` | RemindMe/Reminder.swift:6-10 | decoding a raw value gives a status only for that status's own raw value ("Active", "Pending", "Finished") |
| `ReminderModel.StatusRawValueRoundTrip` | RemindMe/Reminder.swift:6-10 | every status decodes back from its raw value |
| `ReminderModel.StatusRawValueInjective` | RemindMe/Reminder.swift:6-10 | the three raw values are pairwise distinct |
| `ReminderModel.TimeInterval` | RemindMe/Reminder.swift:17-23 | every lead duration is a positive whole number of hours |
| `ReminderModel.LeadDurations` | RemindMe/Reminder.swift:17-23 | Hour is 3600 s, Day is 24 hours, Week is 7 days, and the durations strictly increase along `allCases` |
| `ReminderModel.AllIntervalsComplete` | RemindMe/Reminder.swift:12-15 | `allCases` lists each of the three lead times exactly once |
| `ReminderModel.IntervalFromRawValue` | RemindMe/Reminder.swift:12-15 | decoding a raw value gives a lead time only for that lead time's own raw value |
| `ReminderModel.IntervalRawValueRoundTrip` | RemindMe/Reminder.swift:12-15 | every lead time decodes back from its raw value |
| `ReminderModel.NotifyDate` | RemindMe/NotificationManager.swift:51-52 | the notify date lies strictly before the due date, a whole number of hours earlier |
| `ReminderModel.InWindow` | RemindMe/ContentView.swift:141-142 | `now` is in the window iff the time left until the due date is between 0 and the lead time, both included; the follow-up at RemindMe/NotificationManager.swift:80-82 uses the same test |
| `ReminderModel.WindowEnds` | RemindMe/ContentView.swift:141-142 | the notify window includes both its ends and nothing just outside them |
| `ReminderModel.Reminder.constructor` | RemindMe/Reminder.swift:35-42 | the given title, notes, date, status and lead time are stored unchanged, and the creation date is the construction instant |
| `ReminderModel.NewWithDefaults` | RemindMe/Reminder.swift:35 | built with the default arguments, a reminder is Active, has empty notes and a one-day lead |
| `ReminderModel.StatusIcon` | RemindMe/Reminder.swift:45-51 | every status icon is a filled-circle symbol |
| `ReminderModel.StatusColor` | RemindMe/Reminder.swift:53-59 | a status colour is never red |
| `ReminderModel.StatusIconAndColorInjective` | RemindMe/Reminder.swift:45-59 | distinct statuses get distinct icons and distinct colours |
| `Store.Without` | RemindMe/ContentView.swift:121-124 | deleting removes the reminder and keeps every other one, never lengthens the list, and shortens it if the reminder was there |
| `Store.WithoutDistinct` | RemindMe/ContentView.swift:121-124 | deleting keeps a repeat-free list repeat-free |
| `Store.WithoutAt` | RemindMe/ContentView.swift:121-124 | in a repeat-free list, deleting the reminder at position i leaves exactly the reminders before it followed by those after it |
| `Store.WithoutAbsent` | RemindMe/ContentView.swift:121-124 | deleting a reminder the list does not hold changes nothing |
| `Store.ModelContext.Insert` | RemindMe/AddReminderView.swift:107 | inserting appends the new reminder and keeps the list repeat-free |
| `Store.ModelContext.Delete` | RemindMe/ContentView.swift:122 | the list afterwards is the old list without that reminder |
| `ContentView.ReconciledStatus` | RemindMe/ContentView.swift:140-143 | the result is Pending iff the status was Pending or was Active with `now` in the window; it is Finished iff the status was Finished |
| `ContentView.Reconcile` | RemindMe/ContentView.swift:140-144 | the engine changes nothing about a reminder except its status |
| `ContentView.ReconcileTransitions` | RemindMe/ContentView.swift:140-143 | Finished and Pending are kept; Active becomes Pending iff `date - lead <= now <= date` and stays Active otherwise; the engine never produces Finished |
| `ContentView.ReconcileIdempotent` | RemindMe/ContentView.swift:140-143 | applying the engine twice at the same instant equals applying it once |
| `ContentView.ReconcileAll` | RemindMe/ContentView.swift:138-147 | the pass keeps the list's length and applies the engine to each reminder in place |
| `ContentView.ReconcileAllIdempotent` | RemindMe/ContentView.swift:138-147 | running the whole pass twice at the same instant leaves the state the first run left |
| `ContentView.HourLeadScenario` | RemindMe/ContentView.swift:140-143 | with a one-hour reminder created at d0 and a one-hour lead, the reminder is Active at d0-1, Pending at d0 and at d0+1800, and still Pending after the due date |
| `ContentView.Snapshot` | RemindMe/ContentView.swift:6 | the value view of a list holds each reminder's fields in list order |
| `ContentView.UpdateReminderStatuses` | RemindMe/ContentView.swift:138-147 | the list is unchanged, and every reminder's fields afterwards are the engine applied to its fields before |
| `ContentView.StatusFilter` | RemindMe/ContentView.swift:108-118 | a section holds exactly the list's reminders with that status, no more than the list |
| `ContentView.FiltersPartition` | RemindMe/ContentView.swift:108-118 | each reminder is in exactly one of the Active, Pending and Finished sections, and their lengths add up to the list's |
| `ContentView.FilterKeepsOrder` | RemindMe/ContentView.swift:108-118 | a section drawn from a date-sorted list is date-sorted |
| `ContentView.MarkAsFinished` | RemindMe/ContentView.swift:126-129 | the reminder becomes Finished and nothing else about it changes |
| `ContentView.FinishedIsTerminal` | RemindMe/ContentView.swift:140 | a Finished reminder comes out of the engine unchanged at every instant |
| `ContentView.DeleteReminder` | RemindMe/ContentView.swift:121-124 | exactly that reminder leaves the list and the others keep their order |
| `NotificationManager.ScheduleDecision` | RemindMe/NotificationManager.swift:51-57 | scheduling is skipped iff the notify date is before `now`; otherwise it fires at the notify date, between `now` and the due date |
| `NotificationManager.ArmedAtWindowStart` | RemindMe/NotificationManager.swift:54-57 | a notify date equal to `now` is scheduled, because the skip test is strict, and `now` is then inside the window |
| `NotificationManager.SkippedOnceWindowOpened` | RemindMe/NotificationManager.swift:51-57 | scheduling is skipped exactly when the window opened before `now` or has already closed |
| `NotificationManager.FollowUpStatus` | RemindMe/NotificationManager.swift:80-83 | the follow-up yields Pending iff the status was Pending or `now` is in the window, and keeps the status unchanged outside the window |
| `NotificationManager.FollowUpAgreesUnlessFinished` | RemindMe/NotificationManager.swift:80-83 | on Active and Pending reminders the follow-up gives the same status as the reconciliation pass |
| `NotificationManager.FollowUpReopensFinished` | RemindMe/NotificationManager.swift:82-83 | inside the window the follow-up turns Finished into Pending, where the reconciliation pass keeps Finished |
| `NotificationManager.RequestsFor` | RemindMe/NotificationManager.swift:42-44 | the requests under one identifier are exactly the pending requests carrying that identifier |
| `NotificationManager.Cancel` | RemindMe/NotificationManager.swift:44 | after removal no request carries the identifier, and every request with another identifier is still pending; nothing is added |
| `NotificationManager.CancelThenAdd` | RemindMe/NotificationManager.swift:42-64 | adding replaces the request under the same identifier: identifiers stay unique, exactly the new request is under its identifier, the others are left alone, and removing first gives the same set |
| `NotificationManager.ScheduleWithoutRemoval` | RemindMe/NotificationManager.swift:40-75 | the scheduler without the removal at line 44: a skipped reschedule leaves the pending set exactly as it was; an armed, successful one replaces the reminder's request and runs the follow-up |
| `NotificationManager.RescheduleIntoPast` | RemindMe/NotificationManager.swift:44-57 | a reminder scheduled a day before a date a week ahead, then moved to an hour ahead and scheduled again, has no request with the removal, and keeps its first request, firing after the new due date, without it |
| `NotificationManager.NotificationCenter.RemovePendingNotificationRequests` | RemindMe/NotificationManager.swift:44 | the pending set loses exactly the requests with that identifier |
| `NotificationManager.NotificationCenter.Add` | RemindMe/NotificationManager.swift:64-67 | a successful add puts the request in place of any pending request with the same identifier; a failed one leaves the set as it was |
| `NotificationManager.UpdateReminderStatusToPending` | RemindMe/NotificationManager.swift:77-91 | the status becomes Pending iff `now` is in the window, whatever it was before; nothing else changes |
| `NotificationManager.ScheduleNotification` | RemindMe/NotificationManager.swift:40-75 | afterwards the reminder has one request, with its title, notes and notify date, iff scheduling was armed and the add succeeded, and none otherwise; other requests and identifier uniqueness are kept; the status follow-up happens only on the armed, successful path |
| `AddReminderView.AddReminderForm.constructor` | RemindMe/AddReminderView.swift:18-27 | a new form starts with empty title and notes, due `now + 3600`, Active, with a one-hour lead; an edit form starts with the edited reminder's five fields |
| `AddReminderView.AddReminderForm.Persist` | RemindMe/AddReminderView.swift:99-108 | an edit overwrites the five form fields, keeps the creation date and the list; a new reminder with the form's values, created at `now`, is appended; no other reminder changes |
| `AddReminderView.AddReminderForm.SaveReminder` | RemindMe/AddReminderView.swift:98-117 | nothing is scheduled after a failed save; an edit is scheduled under the edited reminder's identifier; a new reminder is scheduled under a fresh object's identifier, so the inserted reminder gets no request and its status is not followed up |
| `AddReminderView.AddReminderForm.SaveReminderScheduleStored` | RemindMe/AddReminderView.swift:110-112 | scheduling the stored reminder instead puts its request under its own identifier and lets the follow-up update its status |
| `AddReminderView.NewThenEditAsWritten` | RemindMe/AddReminderView.swift:112 | adding a reminder due a week ahead with a one-day lead, then editing it an hour later, leaves two pending requests for the one stored reminder, both due at its notify date |
| `AddReminderView.NewThenEditScheduleStored` | RemindMe/AddReminderView.swift:112 | with the stored reminder scheduled, the same two saves leave exactly one request, under the stored reminder |
| `ReminderRow.RemainingSeconds` | RemindMe/ReminderRow.swift:82 | remaining time is zero iff `now` is at or past the due date, and otherwise the time to the due date |
| `ReminderRow.Decompose` | RemindMe/ReminderRow.swift:84-86 | hours are below 24 and minutes below 60 |
| `ReminderRow.DecomposeReconstructs` | RemindMe/ReminderRow.swift:84-86 | `days*86400 + hours*3600 + minutes*60 <= r < days*86400 + hours*3600 + minutes*60 + 60` |
| `ReminderRow.DecomposeUnique` | RemindMe/ReminderRow.swift:84-86 | any in-range breakdown that rebuilds `r` to the minute is the one computed |
| `ReminderRow.NatToString` | RemindMe/ReminderRow.swift:89-93 | an interpolated number is non-empty decimal digits without a leading zero |
| `ReminderRow.NatToStringRoundTrip` | RemindMe/ReminderRow.swift:89-93 | reading the digits back gives the number |
| `ReminderRow.NatToStringLength` | RemindMe/ReminderRow.swift:89-93 | one digit below 10, at most two below 100, so hours and minutes show at most two digits |
| `ReminderRow.TimeRemaining` | RemindMe/ReminderRow.swift:81-95 | the text starts with a digit and ends in "h left" exactly when a full day or more is left, and in "m left" otherwise |
| `ReminderRow.TimeRemainingShape` | RemindMe/ReminderRow.swift:81-95 | the text is "Dd Hh left" from a full day left, "Hh Mm left" from a full hour left, "Mm left" below that |
| `ReminderRow.TimeRemainingWhenDue` | RemindMe/ReminderRow.swift:82-93 | at and after the due date the text is "0m left" |
| `ReminderRow.Progress` | RemindMe/ReminderRow.swift:68-72 | progress lies in [0, 1] at every instant, for every span |
| `ReminderRow.ProgressZeroSpan` | RemindMe/ReminderRow.swift:68-72 | for a due date equal to the creation date, progress is 1 from creation on and 0 before |
| `ReminderRow.ProgressEnds` | RemindMe/ReminderRow.swift:68-72 | for a due date after creation, progress is 0 up to creation, 1 from the due date, and the elapsed share in between |
| `ReminderRow.ProgressMonotone` | RemindMe/ReminderRow.swift:68-72 | for a due date after creation, progress never decreases as time passes |
| `ReminderRow.ProgressDueBeforeCreation` | RemindMe/ReminderRow.swift:68-72 | for a due date before creation, progress is 0 from creation on |
| `ReminderRow.ProgressColor` | RemindMe/ReminderRow.swift:74-78 | the colour is green iff progress is below 0.33, red iff it is 0.66 or more, and never blue |
| `ReminderRow.ProgressColorMonotone` | RemindMe/ReminderRow.swift:74-78 | green below 0.33, yellow below 0.66, red otherwise: higher progress never gives an earlier band |
| `ReminderRow.ColorNeverMovesBack` | RemindMe/ReminderRow.swift:68-78 | over a reminder's life the bar's colour only moves from green towards red |

## Left out

- SwiftUI view bodies, sections, swipe-action layout, sheets, toolbar and the app entry point: presentation only.
- `Item.swift`: an unused template model.
- The 60-second timers and the dispatch delays: each run is an explicit call with its own `now`. The scheduler's follow-up runs with `followUpNow` right after the add. No other change can come in between.
- Notification permission requests, the delegate callbacks and the `reminderTapped` broadcast: these are platform calls. Tapping a notification leads to `UpdateReminderStatuses`, which is modelled.
- Calendar date components and date formatting: library calls. The notify date is kept as whole seconds.
- The request identifier `"\(reminder.hashValue)"`: modelled as the reminder object, which is injective. Real hash values can also differ from one launch to the next, which the model does not capture.
- The request's sound: not modelled. Its title and body are.
- SwiftData persistence: the store is a list of objects. The `@Query` date sort is not modelled, so `FilterKeepsOrder` takes a date-sorted list as given. `Insert` appends. The swallowed `try?` saves in the list view are dropped. In the form, a failed save is a boolean parameter.
- `Date` and `Double` arithmetic: time is whole seconds. Fractional seconds, which the breakdown truncates, do not arise.
- Codable encoding beyond the raw values: not modelled.

## Findings

| source | as written | input that shows it | evidently intended | confidence | as-written member | corrected member |
|---|---|---|---|---|---|---|
| RemindMe/AddReminderView.swift:112 | a new reminder is scheduled through a second `Reminder` built from the form, not the inserted one, so its request is filed under that object's identifier and the follow-up sets that object's status | save a new reminder due `now + 604800` with a one-day lead, the add succeeding; an hour later edit it and save unchanged | schedule the stored reminder: an edit then replaces its request, and the follow-up updates the stored status | medium; not executed; assumes two objects get different hash values | `AddReminderView.NewThenEditAsWritten` | `AddReminderView.NewThenEditScheduleStored` |
