/** The in-memory reminder source used by the unit tests: an ordered,
    mutable list of reminders and a switch that makes every call fail as the
    database-backed source would when it throws. */
module FakeSource {
  import opened Data
  import opened ReminderList

  class FakeDataSource {
    /** The stored reminders, in the order they were saved. */
    var reminders: seq<ReminderDTO>
    /** When set, every call fails with TEST_EXCEPTION. */
    var shouldReturnError: bool

    /** A source over the given list (empty by default), not failing. */
    constructor (reminders: seq<ReminderDTO>)
      ensures this.reminders == reminders && !shouldReturnError
    {
      this.reminders := reminders;
      shouldReturnError := false;
    }

    /** Switches the simulated failure on or off; the list is untouched. */
    method SetReturnError(value: bool)
      modifies this`shouldReturnError
      ensures shouldReturnError == value
    {
      shouldReturnError := value;
    }

    /** The whole list, or the simulated failure. */
    method GetReminders() returns (r: Result<seq<ReminderDTO>>)
      ensures shouldReturnError ==> r == Error(TEST_EXCEPTION)
      ensures !shouldReturnError ==> r == Success(reminders)
    {
      if shouldReturnError {
        return Error(TEST_EXCEPTION);
      }
      return Success(reminders);
    }

    /** Appends the reminder, even when one with the same id is stored;
        with the failure switched on it throws and stores nothing. */
    method SaveReminder(reminder: ReminderDTO) returns (c: Completion)
      modifies this`reminders
      ensures shouldReturnError ==> c == Thrown(TEST_EXCEPTION) && reminders == old(reminders)
      ensures !shouldReturnError ==> c == Completed && reminders == old(reminders) + [reminder]
    {
      if shouldReturnError {
        return Thrown(TEST_EXCEPTION);
      }
      reminders := reminders + [reminder];
      return Completed;
    }

    /** Removes the first reminder with the id and reports success, or
        reports that there is none and changes nothing. */
    method DeleteReminder(id: string) returns (r: Result<Unit>)
      modifies this`reminders
      ensures shouldReturnError ==> r == Error(TEST_EXCEPTION) && reminders == old(reminders)
      ensures !shouldReturnError && Find(old(reminders), id).None? ==>
                r == Error(REMINDER_NOT_FOUND) && reminders == old(reminders)
      ensures !shouldReturnError && Find(old(reminders), id).Some? ==>
                r == Success(Unit) && reminders == RemoveFirst(old(reminders), id)
    {
      if shouldReturnError {
        return Error(TEST_EXCEPTION);
      }
      var k := FirstIndex(reminders, id);
      if k == |reminders| {
        r := Error(REMINDER_NOT_FOUND);
      } else {
        reminders := reminders[..k] + reminders[k + 1..];
        r := Success(Unit);
      }
    }

    /** The first reminder with the id, or not-found, or the simulated
        failure; the list is untouched. */
    method GetReminder(id: string) returns (r: Result<ReminderDTO>)
      ensures shouldReturnError ==> r == Error(TEST_EXCEPTION)
      ensures !shouldReturnError ==> r == Lookup(reminders, id)
    {
      if shouldReturnError {
        return Error(TEST_EXCEPTION);
      }
      var found := Find(reminders, id);
      r := if found.None? then Error(REMINDER_NOT_FOUND) else Success(found.value);
    }

    /** Empties the list; with the failure switched on it throws and keeps
        the list. */
    method DeleteAllReminders() returns (c: Completion)
      modifies this`reminders
      ensures shouldReturnError ==> c == Thrown(TEST_EXCEPTION) && reminders == old(reminders)
      ensures !shouldReturnError ==> c == Completed && reminders == []
    {
      if shouldReturnError {
        return Thrown(TEST_EXCEPTION);
      }
      reminders := [];
      return Completed;
    }
  }

  /** Clearing and then listing a working source yields an empty success. */
  method ClearThenList(source: FakeDataSource) returns (r: Result<seq<ReminderDTO>>)
    requires !source.shouldReturnError
    modifies source
    ensures r == Success([])
  {
    var _ := source.DeleteAllReminders();
    r := source.GetReminders();
  }

  /** Saving a reminder whose id is not yet stored and fetching it by id
      yields the record with all its fields. */
  method SaveThenGet(source: FakeDataSource, reminder: ReminderDTO) returns (r: Result<ReminderDTO>)
    requires !source.shouldReturnError && Find(source.reminders, reminder.id).None?
    modifies source
    ensures r == Success(reminder)
    ensures source.reminders == old(source.reminders) + [reminder]
  {
    FindNoneIffCountZero(source.reminders, reminder.id);
    var before := source.reminders;
    var _ := source.SaveReminder(reminder);
    SaveThenLookup(before, reminder);
    r := source.GetReminder(reminder.id);
  }

  /** Deleting the only reminder with an id makes a later fetch of it fail. */
  method DeleteThenGet(source: FakeDataSource, id: string) returns (r: Result<ReminderDTO>)
    requires !source.shouldReturnError && CountId(source.reminders, id) == 1
    modifies source
    ensures r == Error(REMINDER_NOT_FOUND)
  {
    FindNoneIffCountZero(source.reminders, id);
    var before := source.reminders;
    var _ := source.DeleteReminder(id);
    DeleteThenLookup(before, id);
    r := source.GetReminder(id);
  }

  /** With the failure switched on, no call changes the list. */
  method FailingSourceKeepsList(source: FakeDataSource, reminder: ReminderDTO, id: string)
    requires source.shouldReturnError
    modifies source
    ensures source.reminders == old(source.reminders)
  {
    var _ := source.SaveReminder(reminder);
    var _ := source.DeleteReminder(id);
    var _ := source.DeleteAllReminders();
    var _ := source.GetReminders();
    var _ := source.GetReminder(id);
  }
}
