/**
  The records that flow through `POST /api/bookings`: the request body, the
  user object inside it, and the booking record returned to the caller and
  handed to the notification templates.
 */
module Domain {
  import opened JsValues

  /** An `extra` field list in `Object.entries` order; `None` stands for an
      absent or falsy `extra`. */
  type Extra = Option<seq<(string, Value)>>

  /** The entries of `extra || {}`. */
  function ExtraEntries(extra: Extra): seq<(string, Value)> {
    match extra
    case None => []
    case Some(entries) => entries
  }

  datatype User = User(name: Value, email: Value, phone: Value, extra: Extra)

  /** The destructured request body; `user` is `None` when it is absent or not an object. */
  datatype BookingRequest = BookingRequest(
    serviceId: Value,
    serviceType: Value,
    serviceTitle: Value,
    date: Value,
    startTime: Value,
    endTime: Value,
    user: Option<User>)

  /** The record returned with a 201 and rendered into both emails. It keeps
      `endTime` and `user` exactly as received and has no `status` field. */
  datatype BookingRecord = BookingRecord(
    bookingId: string,
    serviceId: Value,
    serviceType: Value,
    serviceTitle: Value,
    date: Value,
    startTime: Value,
    endTime: Value,
    user: User,
    createdAtUTC: Value)
}
