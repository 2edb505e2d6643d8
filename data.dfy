/** Values shared by the reminder data layer: the stored reminder record, the
    tagged result that every data-source lookup returns, and the way a call
    that returns nothing can end. */
module Data {

  datatype Option<+T> = None | Some(value: T)

  /** A latitude or a longitude. The model only ever compares coordinates
      for equality, so an exact number stands in for the platform's double. */
  type Coordinate = real

  /** The stored reminder (ReminderDTO). No field is checked at this layer;
      `id` is an opaque string that arrives with the record. */
  datatype ReminderDTO = ReminderDTO(
    title: Option<string>,
    description: Option<string>,
    location: Option<string>,
    latitude: Option<Coordinate>,
    longitude: Option<Coordinate>,
    id: string)

  /** The data layer's tagged result: the payload, or a readable reason. */
  datatype Result<+T> = Success(data: T) | Error(message: string)

  /** Kotlin's `Unit`, the payload of a successful delete. */
  datatype Unit = Unit

  /** How a suspend call returning `Unit` ended: normally, or by throwing an
      exception that carries the given message. */
  datatype Completion = Completed | Thrown(message: string)

  /** Message of the failure the in-memory sources simulate. */
  const TEST_EXCEPTION := "TestException"

  /** Message of a lookup or delete that finds no reminder with the id. */
  const REMINDER_NOT_FOUND := "Reminder not found!"

  /** Message of a listing on a source whose list is absent. */
  const REMINDERS_LIST_NOT_FOUND := "Reminders list not found"
}
