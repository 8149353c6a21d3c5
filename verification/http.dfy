/**
  What a route handler produces: the HTTP response it sends and, in order,
  the external calls it makes on the way (store calls and mail sends).
 */
module Http {
  import opened JsValues
  import opened Domain
  import opened SheetClient
  import opened Notices

  /** The JSON bodies the routes in this model send. */
  datatype ResponseBody =
    | ErrorJson(error: string)                   // `{error}`
    | ErrorDetail(error: string, detail: Body)   // `{error, detail: <store json>}`
    | ErrorMessage(error: string, message: string) // `{error, detail: err.message}`
    | Booked(booking: BookingRecord)             // `{ok: true, booking}`
    | Forwarded(json: Body)                      // the store's json, unchanged

  datatype Response = Response(status: int, body: ResponseBody)

  /** An external call made while handling a request. */
  datatype Effect = StoreCall(payload: StorePayload) | SendMail(mail: Mail)

  datatype Handled = Handled(response: Response, effects: seq<Effect>)

  /** `res.status(r.status).json(r.json)` for a store reply. */
  function Forward(r: SheetResponse): Response {
    Response(r.status, Forwarded(r.json))
  }
}
