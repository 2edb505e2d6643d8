/** The save-reminder screen's view model: the form fields the screens
    fill in, validation of a reminder before it is saved, and the save and
    delete flows with the outputs they publish (loading indicator, toast,
    snackbar, navigation). Each coroutine the view model launches is modelled
    as running to its end at once, right after the statements before it. */
module SaveReminder {
  import opened Data
  import opened ReminderList
  import FakeSource

  /** A place picked on the map, as the map SDK hands it over. */
  datatype PointOfInterest = PointOfInterest(placeId: string, name: string,
                                             latitude: Coordinate, longitude: Coordinate)

  /** The reminder as the screens hold it (ReminderDataItem). */
  datatype ReminderDataItem = ReminderDataItem(
    title: Option<string>,
    description: Option<string>,
    location: Option<string>,
    latitude: Option<Coordinate>,
    longitude: Option<Coordinate>,
    id: string)

  /** The string resources the view model publishes. */
  datatype StringRes = ErrEnterTitle | ErrSelectLocation | ReminderSaved | ReminderDeleted

  /** The navigation commands the view model issues. */
  datatype NavigationCommand = Back

  /** Outcome of validating a reminder: fine, or the message to show. */
  datatype Validation = Valid | Invalid(error: StringRes)

  /** Kotlin's `isNullOrEmpty` on a nullable string. */
  predicate IsNullOrEmpty(s: Option<string>)
  {
    s.None? || s.value == ""
  }

  /** The check made before a save: the title first, then the location.
      Description and coordinates are not looked at. */
  function Validate(item: ReminderDataItem): (v: Validation)
    ensures v.Valid? <==> !IsNullOrEmpty(item.title) && !IsNullOrEmpty(item.location)
    ensures v == Invalid(ErrEnterTitle) <==> IsNullOrEmpty(item.title)
    ensures v == Invalid(ErrSelectLocation) <==> !IsNullOrEmpty(item.title) && IsNullOrEmpty(item.location)
  {
    if IsNullOrEmpty(item.title) then Invalid(ErrEnterTitle)
    else if IsNullOrEmpty(item.location) then Invalid(ErrSelectLocation)
    else Valid
  }

  /** A reminder missing both title and location reports only the title. */
  lemma TitleCheckedFirst(item: ReminderDataItem)
    requires IsNullOrEmpty(item.title) && IsNullOrEmpty(item.location)
    ensures Validate(item) == Invalid(ErrEnterTitle)
  {
  }

  /** Validation depends on the title and the location alone. */
  lemma ValidateIgnoresOtherFields(a: ReminderDataItem, b: ReminderDataItem)
    requires a.title == b.title && a.location == b.location
    ensures Validate(a) == Validate(b)
  {
  }

  /** The stored form of a screen reminder: each of the six fields is
      carried over to the field of the same name. */
  function ToDto(item: ReminderDataItem): (dto: ReminderDTO)
    ensures dto.title == item.title && dto.description == item.description
    ensures dto.location == item.location && dto.id == item.id
    ensures dto.latitude == item.latitude && dto.longitude == item.longitude
  {
    ReminderDTO(item.title, item.description, item.location, item.latitude, item.longitude, item.id)
  }

  /** Converting loses nothing: two screen reminders with the same stored
      form are the same reminder. */
  lemma ToDtoInjective(a: ReminderDataItem, b: ReminderDataItem)
    requires ToDto(a) == ToDto(b)
    ensures a == b
  {
  }

  class SaveReminderViewModel {
    /** The data source the view model saves to and deletes from. */
    const dataSource: FakeSource.FakeDataSource

    // The form fields.
    var reminderTitle: Option<string>
    var reminderDescription: Option<string>
    var reminderSelectedLocationStr: Option<string>
    var selectedPOI: Option<PointOfInterest>
    var latitude: Option<Coordinate>
    var longitude: Option<Coordinate>

    // The outputs the screens observe; None until first written.
    var showLoading: Option<bool>
    var showToast: Option<StringRes>
    var showSnackBar: Option<string>
    var showSnackBarInt: Option<StringRes>
    var navigationCommand: Option<NavigationCommand>

    /** Every value written to `showLoading`, oldest first. */
    ghost var loadingWrites: seq<bool>

    constructor (dataSource: FakeSource.FakeDataSource)
      ensures this.dataSource == dataSource
      ensures reminderTitle == reminderDescription == reminderSelectedLocationStr == None
      ensures selectedPOI == None && latitude == longitude == None
      ensures showLoading == None && showToast == None && showSnackBar == None
      ensures showSnackBarInt == None && navigationCommand == None
      ensures loadingWrites == []
    {
      this.dataSource := dataSource;
      reminderTitle, reminderDescription, reminderSelectedLocationStr := None, None, None;
      selectedPOI, latitude, longitude := None, None, None;
      showLoading, showToast, showSnackBar, showSnackBarInt, navigationCommand := None, None, None, None, None;
      loadingWrites := [];
    }

    /** Clears all six form fields. */
    method OnClear()
      modifies this`reminderTitle, this`reminderDescription, this`reminderSelectedLocationStr,
               this`selectedPOI, this`latitude, this`longitude
      ensures reminderTitle == reminderDescription == reminderSelectedLocationStr == None
      ensures selectedPOI == None && latitude == None && longitude == None
    {
      reminderTitle := None;
      reminderDescription := None;
      reminderSelectedLocationStr := None;
      selectedPOI := None;
      latitude := None;
      longitude := None;
    }

    /** Takes over the place picked on the map; title and description are
        left as they are. */
    method FillReminderLocationParameters(locationString: Option<string>, poi: Option<PointOfInterest>,
                                          lat: Option<Coordinate>, long: Option<Coordinate>)
      modifies this`reminderSelectedLocationStr, this`selectedPOI, this`latitude, this`longitude
      ensures reminderSelectedLocationStr == locationString && selectedPOI == poi
      ensures latitude == lat && longitude == long
    {
      reminderSelectedLocationStr := locationString;
      selectedPOI := poi;
      latitude := lat;
      longitude := long;
    }

    /** Validates the reminder; on failure publishes the message as a
        snackbar, on success publishes nothing. */
    method ValidateEnteredData(item: ReminderDataItem) returns (ok: bool)
      modifies this`showSnackBarInt
      ensures ok <==> Validate(item).Valid?
      ensures ok ==> showSnackBarInt == old(showSnackBarInt)
      ensures !ok ==> showSnackBarInt == Some(Validate(item).error)
    {
      if IsNullOrEmpty(item.title) {
        showSnackBarInt := Some(ErrEnterTitle);
        return false;
      }
      if IsNullOrEmpty(item.location) {
        showSnackBarInt := Some(ErrSelectLocation);
        return false;
      }
      return true;
    }

    /** Shows the loading indicator, stores the reminder, then hides the
        indicator, toasts and navigates back. When the store throws, the
        exception ends the launched work: nothing is stored and the
        indicator stays on. */
    method SaveReminder(item: ReminderDataItem)
      modifies this`showLoading, this`loadingWrites, this`showToast, this`navigationCommand,
               dataSource`reminders
      ensures !dataSource.shouldReturnError ==>
                && dataSource.reminders == old(dataSource.reminders) + [ToDto(item)]
                && loadingWrites == old(loadingWrites) + [true, false]
                && showLoading == Some(false)
                && showToast == Some(ReminderSaved)
                && navigationCommand == Some(Back)
      ensures dataSource.shouldReturnError ==>
                && dataSource.reminders == old(dataSource.reminders)
                && loadingWrites == old(loadingWrites) + [true]
                && showLoading == Some(true)
                && showToast == old(showToast)
                && navigationCommand == old(navigationCommand)
    {
      showLoading := Some(true);
      loadingWrites := loadingWrites + [true];
      var completion := dataSource.SaveReminder(ToDto(item));
      if completion.Thrown? {
        return;
      }
      showLoading := Some(false);
      loadingWrites := loadingWrites + [false];
      showToast := Some(ReminderSaved);
      navigationCommand := Some(Back);
    }

    /** Saves the reminder only if it validates, and says whether it did. */
    method ValidateAndSaveReminder(item: ReminderDataItem) returns (saved: bool)
      modifies this`showSnackBarInt, this`showLoading, this`loadingWrites, this`showToast,
               this`navigationCommand, dataSource`reminders
      ensures saved <==> Validate(item).Valid?
      ensures !saved ==>
                && showSnackBarInt == Some(Validate(item).error)
                && dataSource.reminders == old(dataSource.reminders)
                && loadingWrites == old(loadingWrites)
                && showLoading == old(showLoading)
                && showToast == old(showToast)
                && navigationCommand == old(navigationCommand)
      ensures saved && !dataSource.shouldReturnError ==>
                && showSnackBarInt == old(showSnackBarInt)
                && dataSource.reminders == old(dataSource.reminders) + [ToDto(item)]
                && loadingWrites == old(loadingWrites) + [true, false]
                && showLoading == Some(false)
                && showToast == Some(ReminderSaved)
                && navigationCommand == Some(Back)
      ensures saved && dataSource.shouldReturnError ==>
                && showSnackBarInt == old(showSnackBarInt)
                && dataSource.reminders == old(dataSource.reminders)
                && loadingWrites == old(loadingWrites) + [true]
                && showLoading == Some(true)
                && showToast == old(showToast)
                && navigationCommand == old(navigationCommand)
    {
      var ok := ValidateEnteredData(item);
      if ok {
        SaveReminder(item);
        return true;
      }
      return false;
    }

    /** Shows the loading indicator, deletes the reminder, hides the
        indicator; on success shows the deleted message and navigates back,
        on failure shows the error's message and stays. */
    method DeleteReminder(id: string)
      modifies this`showLoading, this`loadingWrites, this`showSnackBarInt, this`showSnackBar,
               this`navigationCommand, dataSource`reminders
      ensures loadingWrites == old(loadingWrites) + [true, false] && showLoading == Some(false)
      ensures dataSource.shouldReturnError ==>
                && dataSource.reminders == old(dataSource.reminders)
                && showSnackBar == Some(TEST_EXCEPTION)
                && showSnackBarInt == old(showSnackBarInt)
                && navigationCommand == old(navigationCommand)
      ensures !dataSource.shouldReturnError && Find(old(dataSource.reminders), id).None? ==>
                && dataSource.reminders == old(dataSource.reminders)
                && showSnackBar == Some(REMINDER_NOT_FOUND)
                && showSnackBarInt == old(showSnackBarInt)
                && navigationCommand == old(navigationCommand)
      ensures !dataSource.shouldReturnError && Find(old(dataSource.reminders), id).Some? ==>
                && dataSource.reminders == RemoveFirst(old(dataSource.reminders), id)
                && showSnackBarInt == Some(ReminderDeleted)
                && navigationCommand == Some(Back)
                && showSnackBar == old(showSnackBar)
    {
      showLoading := Some(true);
      loadingWrites := loadingWrites + [true];
      var result := dataSource.DeleteReminder(id);
      showLoading := Some(false);
      loadingWrites := loadingWrites + [false];
      match result {
        case Success(_) =>
          showSnackBarInt := Some(ReminderDeleted);
          navigationCommand := Some(Back);
        case Error(message) =>
          showSnackBar := Some(message);
      }
    }

    /** Navigates back. */
    method BackToPreviousFragment()
      modifies this`navigationCommand
      ensures navigationCommand == Some(Back)
    {
      navigationCommand := Some(Back);
    }
  }

  /** A valid reminder with an id not yet stored, saved through a working
      source, reads back from that source with the fields it was entered
      with. */
  method SaveThenFetch(viewModel: SaveReminderViewModel, item: ReminderDataItem)
    returns (fetched: Result<ReminderDTO>)
    requires Validate(item).Valid?
    requires !viewModel.dataSource.shouldReturnError
    requires CountId(viewModel.dataSource.reminders, item.id) == 0
    modifies viewModel, viewModel.dataSource
    ensures fetched.Success?
    ensures fetched.data.title == item.title && fetched.data.description == item.description
    ensures fetched.data.location == item.location && fetched.data.id == item.id
    ensures fetched.data.latitude == item.latitude && fetched.data.longitude == item.longitude
  {
    var before := viewModel.dataSource.reminders;
    var saved := viewModel.ValidateAndSaveReminder(item);
    SaveThenLookup(before, ToDto(item));
    fetched := viewModel.dataSource.GetReminder(item.id);
  }
}
