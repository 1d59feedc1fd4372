/** The records the server sends to the client, as the pages read them, and the
    shape of a request's outcome as seen by an `await` inside `try`/`catch`. */
module Records {
  import opened Js

  const AVAILABLE := "Available"
  const ASSIGNED := "Assigned"
  const UNDER_REPAIR := "Under Repair"
  const DAMAGED := "Damaged"
  const DISPOSED := "Disposed"

  /** An inventory item; `brand`, `model` and the other optional fields may be
      missing. The price is a number. */
  datatype Item = Item(
    id: string,            // the server's `_id`
    itemName: string,
    category: string,
    brand: Option<string>,
    model: Option<string>,
    serialNumber: string,
    status: string,
    location: Option<string>,
    purchaseDate: Option<string>,
    purchasePrice: Option<real>,
    description: Option<string>)

  /** A user as sent by the server: either `_id` (here `mongoId`) or `id` may be set. */
  datatype User = User(
    mongoId: Option<string>,
    id: Option<string>,
    fullName: Option<string>,
    email: Option<string>,
    role: Option<string>,
    department: Option<string>,
    employeeId: Option<string>)

  /** A date field of a record: missing, present but not a valid date, or a valid
      instant (abstracted to an integer so that only its order matters). */
  datatype DateValue = Unset | Unparsable(text: string) | At(instant: int)

  /** JavaScript truthiness of a stored date: a missing date and the empty string
      are falsy; any other value, valid date or not, is truthy. */
  predicate DateTruthy(d: DateValue)
  {
    d.At? || (d.Unparsable? && d.text != "")
  }

  /** An assignment of an item to an employee. `status` is the value stored by
      the server; the report page derives its own status from the dates. */
  datatype Assignment = Assignment(
    id: string,
    item: Option<Item>,
    employee: Option<User>,
    assignmentDate: DateValue,
    expectedReturnDate: DateValue,
    actualReturnDate: DateValue,
    returnDate: DateValue,
    condition: Option<string>,
    notes: Option<string>,
    status: string)

  /** A maintenance request; `dueDate` is the stored date, if any. */
  datatype MaintenanceRequest = MaintenanceRequest(
    id: string,
    status: string,
    priority: string,
    dueDate: DateValue)

  /** The body of an HTTP error response: its status code and the optional
      `error` and `message` strings the server put in it. */
  datatype ErrorBody = ErrorBody(httpStatus: int, error: Option<string>, message: Option<string>)

  /** What a `catch` block receives: `err.response`, absent for a network error
      or an exception thrown before any request, and `err.message`. */
  datatype Failure = Failure(response: Option<ErrorBody>, reason: string)

  /** `err.response?.data?.error`. */
  function ServerError(f: Failure): (r: Option<string>)
    ensures f.response.None? ==> r.None?
    ensures r.Some? ==> f.response.Some? && f.response.value.error == r
  {
    if f.response.Some? then f.response.value.error else None
  }

  /** `err.response?.data?.message`. */
  function ServerMessage(f: Failure): Option<string>
  {
    if f.response.Some? then f.response.value.message else None
  }

  /** `err.response?.status === code`. */
  predicate HasStatus(f: Failure, code: int)
  {
    f.response.Some? && f.response.value.httpStatus == code
  }

  /** The outcome of one awaited request. */
  datatype Outcome<T> = Done(data: T) | Failed(failure: Failure)
}
