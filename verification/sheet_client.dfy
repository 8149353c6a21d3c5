/**
  `callSheet`: one POST to the record store (a Google Apps Script web app)
  with an action-tagged payload. The HTTP exchange and JSON parsing are
  abstracted as a `Transport` outcome; this module models only how that
  outcome becomes the `{status, json}` pair the routes inspect.
 */
module SheetClient {
  import opened JsValues

  /** The payloads the routes in this model send to the store. */
  datatype StorePayload =
    | GetSlots(serviceId: Value, date: Value, duration: Value)
    | Create(
        bookingId: string,
        serviceType: Value,
        serviceTitle: Value,
        serviceId: Value,
        date: Value,
        startTime: Value,
        endTime: Value,
        name: Value,
        email: Value,
        phone: Value,
        extra: string,
        status: string)

  /** The payload's `action` discriminator. */
  function Action(p: StorePayload): string {
    match p
    case GetSlots(_, _, _) => "getSlots"
    case Create(_, _, _, _, _, _, _, _, _, _, _, _) => "create"
  }

  /** What the fetch produced: a status and a parsed JSON body, or an error
      thrown by the network call or by `res.json()`, with its message. */
  datatype Transport =
    | Replied(httpStatus: int, body: Body)
    | Threw(message: string)

  /** The `{status, json}` value `callSheet` resolves to. */
  datatype SheetResponse = SheetResponse(status: int, json: Body)

  /** `callSheet`'s normalisation: a thrown error becomes a 500 whose body has
      a false `ok` and the error message; a reply passes through, whatever its
      status. The function never fails. */
  function CallSheet(t: Transport): (r: SheetResponse)
    ensures t.Threw? ==> r.status == 500
    ensures t.Threw? ==> ReadField(r.json, "ok") == Got(Bool(false))
    ensures t.Threw? ==> ReadField(r.json, "error") == Got(Str(t.message))
    ensures t.Threw? ==> r.json.Object? && r.json.fields.Keys == {"ok", "error"}
    ensures t.Replied? ==> r.status == t.httpStatus && r.json == t.body
    ensures ReadField(r.json, "ok").Got? && Truthy(ReadField(r.json, "ok").value) ==>
      t.Replied? && ReadField(t.body, "ok") == ReadField(r.json, "ok")
  {
    match t
    case Replied(status, body) => SheetResponse(status, body)
    case Threw(message) => SheetResponse(500, Object(map["ok" := Bool(false), "error" := Str(message)]))
  }
}
