/**
  The `GET /api/slots` handler: parameter check, `getSlots` payload with
  `duration` defaulting to 30, and the store reply forwarded as it came.
 */
module Slots {
  import opened JsValues
  import opened SheetClient
  import opened Http

  /** The query-string values the handler reads. */
  datatype SlotsQuery = SlotsQuery(serviceId: Value, date: Value, duration: Value)

  const MissingParams: Response := Response(400, ErrorJson("missing_params"))

  /** The payload's `duration` is `duration || 30` before `Number` coercion,
      so it is truthy here even when the coerced number (`0`, `NaN`) is not. */
  function HandleSlots(q: SlotsQuery, store: StorePayload -> Transport): (h: Handled)
    ensures h.response == MissingParams <==> !Truthy(q.serviceId) || !Truthy(q.date)
    ensures !Truthy(q.serviceId) || !Truthy(q.date) ==> h.effects == []
    ensures Truthy(q.serviceId) && Truthy(q.date) ==>
      && |h.effects| == 1
      && h.effects[0].StoreCall?
      && var p := h.effects[0].payload;
      && Action(p) == "getSlots"
      && p == GetSlots(q.serviceId, q.date, p.duration)
      && (Truthy(q.duration) ==> p.duration == q.duration)
      && (!Truthy(q.duration) ==> p.duration == Num(30))
      && Truthy(p.duration)
      && h.response == Forward(CallSheet(store(p)))
  {
    if !Truthy(q.serviceId) || !Truthy(q.date) then
      Handled(MissingParams, [])
    else
      var payload := GetSlots(q.serviceId, q.date, OrElse(q.duration, Num(30)));
      Handled(Forward(CallSheet(store(payload))), [StoreCall(payload)])
  }

  /** An unreachable store reaches the client as a 500 with `ok: false`. */
  lemma SlotsStoreFailure(q: SlotsQuery, store: StorePayload -> Transport)
    requires Truthy(q.serviceId) && Truthy(q.date)
    requires store(GetSlots(q.serviceId, q.date, OrElse(q.duration, Num(30)))).Threw?
    ensures var r := HandleSlots(q, store).response;
      r.status == 500 && r.body.Forwarded? && ReadField(r.body.json, "ok") == Got(Bool(false))
  {
  }
}
