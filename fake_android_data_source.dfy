/** The in-memory reminder source used by the instrumented tests. Its list
    may be absent, and its failure switch affects only the listing. It
    declares no delete-by-id. */
module FakeAndroidSource {
  import opened Data
  import opened ReminderList

  class FakeAndroidDataSource {
    /** The stored reminders in save order, or None for an absent list. */
    var reminders: Option<seq<ReminderDTO>>
    /** When set, listing fails with TEST_EXCEPTION. */
    var shouldReturnError: bool

    /** A source over the given list (present and empty by default). */
    constructor (reminders: Option<seq<ReminderDTO>>)
      ensures this.reminders == reminders && !shouldReturnError
    {
      this.reminders := reminders;
      shouldReturnError := false;
    }

    /** Switches the simulated failure on or off; the list is untouched. */
    method SetReturnError(value: bool)
      modifies this`shouldReturnError
      ensures shouldReturnError == value
    {
      shouldReturnError := value;
    }

    /** The simulated failure first, then an error for an absent list, else
        the whole list. */
    method GetReminders() returns (r: Result<seq<ReminderDTO>>)
      ensures shouldReturnError ==> r == Error(TEST_EXCEPTION)
      ensures !shouldReturnError && reminders.None? ==> r == Error(REMINDERS_LIST_NOT_FOUND)
      ensures !shouldReturnError && reminders.Some? ==> r == Success(reminders.value)
    {
      if shouldReturnError {
        return Error(TEST_EXCEPTION);
      }
      r := if reminders.None? then Error(REMINDERS_LIST_NOT_FOUND) else Success(reminders.value);
    }

    /** Appends to a present list and does nothing to an absent one,
        whatever the failure switch says. */
    method SaveReminder(reminder: ReminderDTO)
      modifies this`reminders
      ensures old(reminders).None? ==> reminders == None
      ensures old(reminders).Some? ==> reminders == Some(old(reminders).value + [reminder])
    {
      if reminders.Some? {
        reminders := Some(reminders.value + [reminder]);
      }
    }

    /** The first reminder with the id; not-found when there is none or the
        list is absent. The failure switch plays no part. */
    method GetReminder(id: string) returns (r: Result<ReminderDTO>)
      ensures reminders.None? ==> r == Error(REMINDER_NOT_FOUND)
      ensures reminders.Some? ==> r == Lookup(reminders.value, id)
    {
      var found := if reminders.None? then None else Find(reminders.value, id);
      r := if found.None? then Error(REMINDER_NOT_FOUND) else Success(found.value);
    }

    /** Empties a present list; an absent one stays absent. */
    method DeleteAllReminders()
      modifies this`reminders
      ensures old(reminders).None? ==> reminders == None
      ensures old(reminders).Some? ==> reminders == Some([])
    {
      if reminders.Some? {
        reminders := Some([]);
      }
    }
  }

  /** A source built with its default list lists an empty success, which
      the reminder list screen shows as "no data". */
  method FreshSourceListsNothing() returns (r: Result<seq<ReminderDTO>>)
    ensures r == Success([])
  {
    var source := new FakeAndroidDataSource(Some([]));
    r := source.GetReminders();
  }

  /** The failure switch leaves saving and fetching by id working: a
      reminder with a new id saved on a failing source can be fetched. */
  method FailingSourceStillSaves(source: FakeAndroidDataSource, reminder: ReminderDTO)
    returns (listed: Result<seq<ReminderDTO>>, fetched: Result<ReminderDTO>)
    requires source.reminders.Some? && CountId(source.reminders.value, reminder.id) == 0
    modifies source
    ensures listed == Error(TEST_EXCEPTION)
    ensures fetched == Success(reminder)
  {
    source.SetReturnError(true);
    var before := source.reminders.value;
    source.SaveReminder(reminder);
    SaveThenLookup(before, reminder);
    listed := source.GetReminders();
    fetched := source.GetReminder(reminder.id);
  }
}
