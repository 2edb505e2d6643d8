# Location Reminders: the reminder data-source contract and its callers

This project models the decision logic of the Location Reminders Android app in Dafny:

- **The two in-memory reminder data sources.** `FakeDataSource` is used by the unit tests and `FakeAndroidDataSource` by the instrumented tests. Each keeps an ordered, mutable list of reminder records. Each supports save, list-all, get-by-id and delete-all; `FakeDataSource` also supports delete-by-id. Results come back in the tagged `Success(data)` / `Error(message)` type, and each source has a switch that simulates failures.
- **The save-reminder view model.** It covers validation of a reminder (title first, then location), the form-field setters, and the save and delete flows. It also covers the outputs those flows publish: the loading indicator, toast, snackbars and navigation.
- **The geofence broadcast receiver's guard chain.** It decides whether an incoming broadcast is handed on to the notification job.

Modules:

- `Data` (`data.dfy`): the `ReminderDTO` record, `Result`, `Unit`, `Completion` and the error messages.
- `ReminderList` (`reminder_list.dfy`): the list operations both sources perform, with the lemmas about them. These are the first-match search, removal of the first match, the not-found mapping, round trips and id uniqueness.
- `FakeSource` (`fake_data_source.dfy`) and `FakeAndroidSource` (`fake_android_data_source.dfy`): one class per data source, holding the list as a `seq` field.
- `SaveReminder` (`save_reminder_view_model.dfy`): validation as a function, plus the `SaveReminderViewModel` class with one field per observable value.
- `Geofence` (`geofence_receiver.dfy`): the receiver's decision as a predicate and a function.

Two behaviours of the code shape the whole model:

- A save appends. Records that share an id therefore coexist, and every lookup returns the first of them.
- Listing returns the records in save order.

## Model

| member | source | states |
|---|---|---|
| ReminderList.FirstIndex | app/src/test/java/com/udacity/project4/locationreminders/data/local/FakeDataSource.kt:49 | the position found is the first reminder with the id, or past the end when there is none |
| ReminderList.Find | app/src/test/java/com/udacity/project4/locationreminders/data/local/FakeDataSource.kt:49 | `find { it.id == id }` yields a reminder iff some reminder has the id, and then it is the first one with that id |
| ReminderList.Lookup | app/src/test/java/com/udacity/project4/locationreminders/data/local/FakeDataSource.kt:49-54 | a by-id lookup succeeds with the first stored reminder carrying the id, and fails with "Reminder not found!" exactly when none carries it |
| ReminderList.RemoveFirst | app/src/test/java/com/udacity/project4/locationreminders/data/local/FakeDataSource.kt:34-39 | `remove` of what `find` returned cuts out exactly the first match and keeps the rest in order; the list is unchanged when there is no match |
| ReminderList.RemoveFirstDropsOne | app/src/test/java/com/udacity/project4/locationreminders/data/local/FakeDataSource.kt:34-39 | deleting a present id shortens the list by one, and what is lost is exactly the first match |
| ReminderList.CountIdAppend | app/src/test/java/com/udacity/project4/locationreminders/data/local/FakeDataSource.kt:27 | a save adds one occurrence of the saved id and none of any other id |
| ReminderList.FindNoneIffCountZero | app/src/test/java/com/udacity/project4/locationreminders/data/local/FakeDataSource.kt:49-51 | a lookup misses exactly when no stored reminder carries the id |
| ReminderList.RemoveFirstCount | app/src/test/java/com/udacity/project4/locationreminders/data/local/FakeDataSource.kt:34-39 | deleting removes one occurrence of the deleted id and leaves every other id's occurrences alone |
| ReminderList.SaveThenLookup | app/src/test/java/com/udacity/project4/locationreminders/data/local/FakeDataSource.kt:23-55 | round trip: after saving a reminder whose id is not stored yet, fetching that id returns exactly that reminder |
| ReminderList.SaveKeepsEarlierMatch | app/src/test/java/com/udacity/project4/locationreminders/data/local/FakeDataSource.kt:27 | saving does not replace: a lookup of an id already stored still returns the earlier record |
| ReminderList.DeleteThenLookup | app/src/test/java/com/udacity/project4/locationreminders/data/local/FakeDataSource.kt:30-55 | after deleting an id stored once, fetching it fails with "Reminder not found!" |
| ReminderList.LookupDistinct | app/src/test/java/com/udacity/project4/locationreminders/data/local/FakeDataSource.kt:49-54 | when ids are distinct, looking up a stored reminder's id returns that reminder |
| ReminderList.SaveKeepsDistinct | app/src/test/java/com/udacity/project4/locationreminders/data/local/FakeDataSource.kt:27 | saving a reminder with a fresh id keeps ids distinct |
| ReminderList.DeleteKeepsDistinct | app/src/test/java/com/udacity/project4/locationreminders/data/local/FakeDataSource.kt:34-39 | deleting keeps ids distinct |
| FakeSource.FakeDataSource.constructor | app/src/test/java/com/udacity/project4/locationreminders/data/local/FakeDataSource.kt:7-10 | the source starts with the given list and the failure switch off |
| FakeSource.FakeDataSource.SetReturnError | app/src/test/java/com/udacity/project4/locationreminders/data/local/FakeDataSource.kt:11-13 | sets the failure switch and changes nothing else |
| FakeSource.FakeDataSource.GetReminders | app/src/test/java/com/udacity/project4/locationreminders/data/local/FakeDataSource.kt:15-21 | fails with "TestException" when the switch is on, else succeeds with exactly the current list |
| FakeSource.FakeDataSource.SaveReminder | app/src/test/java/com/udacity/project4/locationreminders/data/local/FakeDataSource.kt:23-28 | throws "TestException" and keeps the list when the switch is on; otherwise the new list is the old one plus the reminder at the end |
| FakeSource.FakeDataSource.DeleteReminder | app/src/test/java/com/udacity/project4/locationreminders/data/local/FakeDataSource.kt:30-42 | fails with "TestException" with the switch on; on a missing id, fails with "Reminder not found!"; otherwise removes the first match and succeeds. The list is unchanged in both failure cases |
| FakeSource.FakeDataSource.GetReminder | app/src/test/java/com/udacity/project4/locationreminders/data/local/FakeDataSource.kt:44-55 | fails with "TestException" with the switch on, else returns the by-id lookup (first match or not-found); the list is untouched |
| FakeSource.FakeDataSource.DeleteAllReminders | app/src/test/java/com/udacity/project4/locationreminders/data/local/FakeDataSource.kt:57-62 | throws "TestException" and keeps the list when the switch is on, else empties it |
| FakeSource.ClearThenList | app/src/test/java/com/udacity/project4/locationreminders/data/local/FakeDataSource.kt:15-62 | on a working source, delete-all followed by list-all gives an empty success |
| FakeSource.SaveThenGet | app/src/test/java/com/udacity/project4/locationreminders/data/local/FakeDataSource.kt:23-55 | on a working source, saving a reminder with a new id and then fetching it returns that reminder, and the list grows by it at the end |
| FakeSource.DeleteThenGet | app/src/test/java/com/udacity/project4/locationreminders/data/local/FakeDataSource.kt:30-55 | on a working source, deleting an id stored once makes the next fetch fail with "Reminder not found!" |
| FakeSource.FailingSourceKeepsList | app/src/test/java/com/udacity/project4/locationreminders/data/local/FakeDataSource.kt:15-62 | with the failure switch on, no operation changes the list |
| FakeAndroidSource.FakeAndroidDataSource.constructor | app/src/androidTest/java/com/udacity/project4/locationreminders/data/local/FakeAndroidDataSource.kt:7-11 | the source starts with the given, possibly absent, list and the failure switch off |
| FakeAndroidSource.FakeAndroidDataSource.SetReturnError | app/src/androidTest/java/com/udacity/project4/locationreminders/data/local/FakeAndroidDataSource.kt:13-15 | sets the failure switch and changes nothing else |
| FakeAndroidSource.FakeAndroidDataSource.GetReminders | app/src/androidTest/java/com/udacity/project4/locationreminders/data/local/FakeAndroidDataSource.kt:17-25 | "TestException" when the switch is on; otherwise "Reminders list not found" for an absent list, else success with exactly the list |
| FakeAndroidSource.FakeAndroidDataSource.SaveReminder | app/src/androidTest/java/com/udacity/project4/locationreminders/data/local/FakeAndroidDataSource.kt:27-29 | appends to a present list and leaves an absent one absent, whatever the switch says |
| FakeAndroidSource.FakeAndroidDataSource.GetReminder | app/src/androidTest/java/com/udacity/project4/locationreminders/data/local/FakeAndroidDataSource.kt:31-38 | the first match, or "Reminder not found!" when there is none or the list is absent; the switch plays no part and the list is untouched |
| FakeAndroidSource.FakeAndroidDataSource.DeleteAllReminders | app/src/androidTest/java/com/udacity/project4/locationreminders/data/local/FakeAndroidDataSource.kt:40-42 | empties a present list; an absent one stays absent |
| FakeAndroidSource.FreshSourceListsNothing | app/src/androidTest/java/com/udacity/project4/locationreminders/data/local/FakeAndroidDataSource.kt:7-25 | a source built with its default list lists an empty success, which the list screen shows as "no data" |
| FakeAndroidSource.FailingSourceStillSaves | app/src/androidTest/java/com/udacity/project4/locationreminders/data/local/FakeAndroidDataSource.kt:17-38 | with the switch on, listing fails with "TestException" while a save followed by a fetch by id still returns the saved reminder |
| SaveReminder.Validate | app/src/main/java/com/udacity/project4/locationreminders/savereminder/SaveReminderViewModel.kt:82-93 | valid iff title and location are both non-null and non-empty; the title error iff the title is null or empty; the location error iff the title is filled and the location is not |
| SaveReminder.TitleCheckedFirst | app/src/main/java/com/udacity/project4/locationreminders/savereminder/SaveReminderViewModel.kt:83-86 | a reminder missing both title and location reports only the title error |
| SaveReminder.ValidateIgnoresOtherFields | app/src/main/java/com/udacity/project4/locationreminders/savereminder/SaveReminderViewModel.kt:82-93 | description, coordinates and id play no part in validation |
| SaveReminder.ToDto | app/src/main/java/com/udacity/project4/locationreminders/savereminder/SaveReminderViewModel.kt:64-71 | the record handed to the source carries the reminder's title, description, location, latitude, longitude and id, each in the field of the same name |
| SaveReminder.ToDtoInjective | app/src/main/java/com/udacity/project4/locationreminders/savereminder/SaveReminderViewModel.kt:63-71 | the record stored for a reminder determines the reminder: no field is lost in conversion |
| SaveReminder.SaveReminderViewModel.constructor | app/src/main/java/com/udacity/project4/locationreminders/savereminder/SaveReminderViewModel.kt:17-24 | the view model starts with all form fields and outputs unset |
| SaveReminder.SaveReminderViewModel.OnClear | app/src/main/java/com/udacity/project4/locationreminders/savereminder/SaveReminderViewModel.kt:26-33 | all six form fields become null and nothing else changes |
| SaveReminder.SaveReminderViewModel.FillReminderLocationParameters | app/src/main/java/com/udacity/project4/locationreminders/savereminder/SaveReminderViewModel.kt:38-48 | exactly the location string, place, latitude and longitude are set; title and description stay |
| SaveReminder.SaveReminderViewModel.ValidateEnteredData | app/src/main/java/com/udacity/project4/locationreminders/savereminder/SaveReminderViewModel.kt:82-93 | returns whether the reminder validates; on failure publishes that failure's message as the snackbar, on success publishes nothing |
| SaveReminder.SaveReminderViewModel.SaveReminder | app/src/main/java/com/udacity/project4/locationreminders/savereminder/SaveReminderViewModel.kt:60-77 | loading is set true first. The record with the same six fields is appended to the source. Then loading becomes false, the toast is "reminder saved" and navigation goes back. If the source throws, nothing is stored, loading stays true and there is no toast or navigation |
| SaveReminder.SaveReminderViewModel.ValidateAndSaveReminder | app/src/main/java/com/udacity/project4/locationreminders/savereminder/SaveReminderViewModel.kt:53-58 | returns true iff the reminder validates; only then does it save, otherwise it only publishes the validation message |
| SaveReminder.SaveReminderViewModel.DeleteReminder | app/src/main/java/com/udacity/project4/locationreminders/savereminder/SaveReminderViewModel.kt:99-113 | loading is set true and then false. On success the first match is removed, the snackbar says "reminder deleted" and navigation goes back. On an error, its message becomes the text snackbar and there is no navigation |
| SaveReminder.SaveReminderViewModel.BackToPreviousFragment | app/src/main/java/com/udacity/project4/locationreminders/savereminder/SaveReminderViewModel.kt:115-117 | navigation goes back and nothing else changes |
| SaveReminder.SaveThenFetch | app/src/main/java/com/udacity/project4/locationreminders/savereminder/SaveReminderViewModel.kt:53-76 | saving a valid reminder with a new id through the view model and then fetching it gives back its title, description, location, coordinates and id |
| Geofence.ShouldEnqueue | app/src/main/java/com/udacity/project4/locationreminders/geofence/GeofenceBroadcastReceiver.kt:16-33 | the guard chain lets a broadcast through iff all of these hold: the action is the geofence action, the event parses, it has no error, it is an enter transition, and its triggering list is non-null and non-empty |
| Geofence.OnReceive | app/src/main/java/com/udacity/project4/locationreminders/geofence/GeofenceBroadcastReceiver.kt:16-34 | at most one piece of work, the broadcast itself, is enqueued. It is enqueued iff all of these hold: the action is the geofence action, the event parses, it has no error, it is an enter transition, and its triggering list is non-null and non-empty |
| Geofence.WrongActionIgnored | app/src/main/java/com/udacity/project4/locationreminders/geofence/GeofenceBroadcastReceiver.kt:16-18 | a broadcast with another action, or none, enqueues nothing |
| Geofence.UnparsableIgnored | app/src/main/java/com/udacity/project4/locationreminders/geofence/GeofenceBroadcastReceiver.kt:19 | a broadcast that does not parse into a geofencing event enqueues nothing |
| Geofence.ErrorEventIgnored | app/src/main/java/com/udacity/project4/locationreminders/geofence/GeofenceBroadcastReceiver.kt:26-27 | an event with an error enqueues nothing |
| Geofence.NonEnterIgnored | app/src/main/java/com/udacity/project4/locationreminders/geofence/GeofenceBroadcastReceiver.kt:28 | an event whose transition is not enter enqueues nothing |
| Geofence.NoTriggeringGeofencesIgnored | app/src/main/java/com/udacity/project4/locationreminders/geofence/GeofenceBroadcastReceiver.kt:29 | an event with null or empty triggering geofences enqueues nothing |

## Left out

- The `ReminderDataSource` interface, the Room-backed repository and its DAO are not part of this model. The view model's data source is therefore the `FakeDataSource` class, which is the source its unit tests use.
- `FakeAndroidDataSource` declares no `deleteReminder`, so its model has none. Whatever the interface supplies for it is not part of this model.
- `FakeDataSource.GetReminders` and `FakeAndroidDataSource.GetReminders` hand out the live mutable list in the app. The model returns a snapshot of its value, so aliasing through the returned list is not captured.
- Coroutine launching and dispatchers are not modelled. Each launched body runs to its end straight after the statements before it. The `loadingWrites` history records that loading is first set true and later false.
- An exception thrown inside the launched save body is modelled as ending that body. Its further propagation to the coroutine scope's exception handler is not modelled.
- `app.getString(R.string.reminder_saved)` is a resource lookup. The toast is modelled by its resource id (`ReminderSaved`), because the strings file is not part of this model.
- `Log.e` in the receiver and the `context` passed to `enqueueWork` are left out. Both are platform I/O.
- `GeofencingEvent.fromIntent` is a platform parser. Its result is an input of the model: an optional event.
- Latitude and longitude are doubles in the app. Here they are exact numbers compared only for equality, so NaN and signed zero are not modelled.
- The MutableLiveData observers and the single-delivery behaviour of the base view model's events are not modelled. The model keeps only the last value written to each output.
