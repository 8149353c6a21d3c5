/**
  The `POST /api/bookings` handler as one pure function. The UUID, the clock,
  `JSON.stringify`, the record store and the mail channel are parameters; the
  handler's result records the response and every external call it made:
  validate, build the `create` payload, call the store, branch on `ok`,
  assemble the booking record, send the two mails, answer 201.
 */
module Bookings {
  import opened JsValues
  import opened Domain
  import opened SheetClient
  import opened Notices
  import opened Http

  /** Inputs taken from the environment for one request: the generated UUID,
      the ISO clock reading taken after the store call, the configured sender
      and administrator addresses, and the message of the TypeError raised by
      reading `ok` off a `null` store body. */
  datatype Env = Env(
    uuid: string,
    clock: string,
    emailFrom: string,
    adminEmail: string,
    nullReadMessage: string)

  /** What the mail channel does with one send: completes, or throws. */
  datatype SendResult = Delivered | Rejected(reason: string)

  const MissingFields: Response := Response(400, ErrorJson("missing_fields"))

  /** The required-field check: all seven fields present and truthy. */
  predicate HasRequiredFields(req: BookingRequest) {
    && Truthy(req.serviceId)
    && Truthy(req.serviceType)
    && Truthy(req.serviceTitle)
    && Truthy(req.date)
    && Truthy(req.startTime)
    && req.user.Some?
    && Truthy(req.user.value.email)
    && Truthy(req.user.value.name)
  }

  /** `s.split("-")[0]`: the longest prefix of `s` without a dash. */
  function FirstSegment(s: string): (seg: string)
    ensures seg <= s
    ensures '-' !in seg
    ensures |seg| == |s| || s[|seg|] == '-'
  {
    if s == [] then []
    else if s[0] == '-' then []
    else [s[0]] + FirstSegment(s[1..])
  }

  function BookingIdFor(uuid: string): string {
    "BKG-" + FirstSegment(uuid)
  }

  predicate IsHexDigit(c: char) {
    '0' <= c <= '9' || 'a' <= c <= 'f' || 'A' <= c <= 'F'
  }

  /** The 8-4-4-4-12 layout of a textual UUID. */
  predicate UuidShape(u: string) {
    && |u| == 36
    && forall i :: 0 <= i < 36 ==>
         if i == 8 || i == 13 || i == 18 || i == 23 then u[i] == '-' else IsHexDigit(u[i])
  }

  /** For a well-formed UUID the booking id is `BKG-` and its first eight hex digits. */
  lemma BookingIdFromUuid(u: string)
    requires UuidShape(u)
    ensures BookingIdFor(u) == "BKG-" + u[..8]
    ensures |BookingIdFor(u)| == 12
  {
    assert u[8] == '-';
  }

  /** The `create` payload: `action` "create", `status` "pending", falsy
      `endTime`/`phone` replaced by "", `extra` serialised or "{}", every
      other field copied from the request. */
  function CreatePayloadFor(req: BookingRequest, bookingId: string,
                            stringify: seq<(string, Value)> -> string): (p: StorePayload)
    requires req.user.Some?
    ensures p.Create? && Action(p) == "create" && p.status == "pending"
    ensures p.bookingId == bookingId
    ensures p.serviceId == req.serviceId && p.serviceType == req.serviceType
    ensures p.serviceTitle == req.serviceTitle && p.date == req.date
    ensures p.startTime == req.startTime
    ensures p.name == req.user.value.name && p.email == req.user.value.email
    ensures Truthy(req.endTime) ==> p.endTime == req.endTime
    ensures !Truthy(req.endTime) ==> p.endTime == Str("")
    ensures Truthy(req.user.value.phone) ==> p.phone == req.user.value.phone
    ensures !Truthy(req.user.value.phone) ==> p.phone == Str("")
    ensures req.user.value.extra.None? ==> p.extra == "{}"
    ensures req.user.value.extra.Some? ==> p.extra == stringify(req.user.value.extra.value)
  {
    var user := req.user.value;
    Create(
      bookingId := bookingId,
      serviceType := req.serviceType,
      serviceTitle := req.serviceTitle,
      serviceId := req.serviceId,
      date := req.date,
      startTime := req.startTime,
      endTime := OrElse(req.endTime, Str("")),
      name := user.name,
      email := user.email,
      phone := OrElse(user.phone, Str("")),
      extra := match user.extra case Some(entries) => stringify(entries) case None => "{}",
      status := "pending")
  }

  /** The store accepted the booking: its json has a truthy `ok`. */
  predicate Accepted(r: SheetResponse) {
    var ok := ReadField(r.json, "ok");
    ok.Got? && Truthy(ok.value)
  }

  /** `json.createdAtUTC || clock`. */
  function CreatedAt(json: Body, clock: string): (at: Value)
    requires json.Object?
    ensures Truthy(ReadField(json, "createdAtUTC").value) ==> at == ReadField(json, "createdAtUTC").value
    ensures !Truthy(ReadField(json, "createdAtUTC").value) ==> at == Str(clock)
  {
    OrElse(ReadField(json, "createdAtUTC").value, Str(clock))
  }

  /** With a non-empty clock reading the record always carries a truthy timestamp. */
  lemma CreatedAtAlwaysSet(json: Body, clock: string)
    requires json.Object?
    requires clock != ""
    ensures Truthy(CreatedAt(json, clock))
  {
  }

  function RecordFor(req: BookingRequest, bookingId: string, createdAtUTC: Value): BookingRecord
    requires req.user.Some?
  {
    BookingRecord(bookingId, req.serviceId, req.serviceType, req.serviceTitle, req.date,
                  req.startTime, req.endTime, req.user.value, createdAtUTC)
  }

  /** The mails attempted, in order: the user mail always; the admin mail
      only when the user send completed. An admin failure is swallowed and
      leaves nothing further to do. */
  function MailsSent(rec: BookingRecord, env: Env, mailer: Mail -> SendResult): (sent: seq<Mail>)
    ensures 1 <= |sent| <= 2
    ensures sent[0] == UserMail(rec, env.emailFrom)
    ensures |sent| == 2 <==> mailer(UserMail(rec, env.emailFrom)).Delivered?
    ensures |sent| == 2 ==> sent[1] == AdminMail(rec, env.emailFrom, env.adminEmail)
  {
    var userMail := UserMail(rec, env.emailFrom);
    match mailer(userMail)
    case Delivered => [userMail, AdminMail(rec, env.emailFrom, env.adminEmail)]
    case Rejected(_) => [userMail]
  }

  function MailEffects(mails: seq<Mail>): (effects: seq<Effect>)
    ensures |effects| == |mails|
    ensures forall i :: 0 <= i < |mails| ==> effects[i] == SendMail(mails[i])
  {
    if mails == [] then [] else [SendMail(mails[0])] + MailEffects(mails[1..])
  }

  /** The whole `POST /api/bookings` handler. */
  function HandleBooking(req: BookingRequest, env: Env, stringify: seq<(string, Value)> -> string,
                         store: StorePayload -> Transport, mailer: Mail -> SendResult): (h: Handled)
    ensures h.response == MissingFields <==> !HasRequiredFields(req)
    ensures !HasRequiredFields(req) ==> h.effects == []
    ensures HasRequiredFields(req) ==>
      && |h.effects| >= 1
      && h.effects[0] == StoreCall(CreatePayloadFor(req, BookingIdFor(env.uuid), stringify))
      && forall i :: 1 <= i < |h.effects| ==> h.effects[i].SendMail?
    ensures h.response.status == 201 <==>
      HasRequiredFields(req) && Accepted(CallSheet(store(CreatePayloadFor(req, BookingIdFor(env.uuid), stringify))))
    ensures h.response.status == 201 <==> |h.effects| > 1
    ensures h.response.status == 201 ==> h.response.body.Booked?
  {
    if !HasRequiredFields(req) then
      Handled(MissingFields, [])
    else
      var bookingId := BookingIdFor(env.uuid);
      var payload := CreatePayloadFor(req, bookingId, stringify);
      var sheet := CallSheet(store(payload));
      match ReadField(sheet.json, "ok")
      case TypeError =>
        Handled(Response(500, ErrorMessage("server_error", env.nullReadMessage)), [StoreCall(payload)])
      case Got(ok) =>
        if !Truthy(ok) then
          Handled(Response(500, ErrorDetail("sheet_error", sheet.json)), [StoreCall(payload)])
        else
          var rec := RecordFor(req, bookingId, CreatedAt(sheet.json, env.clock));
          Handled(Response(201, Booked(rec)),
                  [StoreCall(payload)] + MailEffects(MailsSent(rec, env, mailer)))
  }

  /** A store reply with a falsy `ok` ends the request with a 500
      `sheet_error` carrying the store json unchanged, and no mail is sent. */
  lemma RejectedByStore(req: BookingRequest, env: Env, stringify: seq<(string, Value)> -> string,
                        store: StorePayload -> Transport, mailer: Mail -> SendResult)
    requires HasRequiredFields(req)
    requires var sheet := CallSheet(store(CreatePayloadFor(req, BookingIdFor(env.uuid), stringify)));
      ReadField(sheet.json, "ok").Got? && !Truthy(ReadField(sheet.json, "ok").value)
    ensures var payload := CreatePayloadFor(req, BookingIdFor(env.uuid), stringify);
      var h := HandleBooking(req, env, stringify, store, mailer);
      && h.response == Response(500, ErrorDetail("sheet_error", CallSheet(store(payload)).json))
      && h.effects == [StoreCall(payload)]
  {
  }

  /** A store that cannot be reached gives a 500 `sheet_error` whose detail is
      `{ok: false, error: <message>}`. */
  lemma UnreachableStore(req: BookingRequest, env: Env, stringify: seq<(string, Value)> -> string,
                         store: StorePayload -> Transport, mailer: Mail -> SendResult)
    requires HasRequiredFields(req)
    requires store(CreatePayloadFor(req, BookingIdFor(env.uuid), stringify)).Threw?
    ensures var payload := CreatePayloadFor(req, BookingIdFor(env.uuid), stringify);
      var h := HandleBooking(req, env, stringify, store, mailer);
      && h.response == Response(500, ErrorDetail("sheet_error",
           Object(map["ok" := Bool(false), "error" := Str(store(payload).message)])))
      && h.effects == [StoreCall(payload)]
  {
  }

  /** A `null` store body makes the read of `ok` throw; the outer handler
      answers 500 `server_error` with the error's message. */
  lemma NullStoreBody(req: BookingRequest, env: Env, stringify: seq<(string, Value)> -> string,
                      store: StorePayload -> Transport, mailer: Mail -> SendResult)
    requires HasRequiredFields(req)
    requires var t := store(CreatePayloadFor(req, BookingIdFor(env.uuid), stringify));
      t.Replied? && t.body == NonObject(Null)
    ensures var h := HandleBooking(req, env, stringify, store, mailer);
      h.response == Response(500, ErrorMessage("server_error", env.nullReadMessage)) && |h.effects| == 1
  {
  }

  /** The mail channel cannot change the outcome: whatever either send does,
      the response and the store call are the same. */
  lemma MailOutcomeIrrelevant(req: BookingRequest, env: Env, stringify: seq<(string, Value)> -> string,
                              store: StorePayload -> Transport, m1: Mail -> SendResult, m2: Mail -> SendResult)
    ensures HandleBooking(req, env, stringify, store, m1).response == HandleBooking(req, env, stringify, store, m2).response
    ensures HasRequiredFields(req) ==>
      HandleBooking(req, env, stringify, store, m1).effects[0] == HandleBooking(req, env, stringify, store, m2).effects[0]
  {
  }

  /** After a 201 the user mail goes first, to the customer; the admin mail
      follows exactly when the user send did not throw. */
  lemma MailOrdering(req: BookingRequest, env: Env, stringify: seq<(string, Value)> -> string,
                     store: StorePayload -> Transport, mailer: Mail -> SendResult)
    requires HandleBooking(req, env, stringify, store, mailer).response.status == 201
    ensures var h := HandleBooking(req, env, stringify, store, mailer);
      var rec := h.response.body.booking;
      && h.effects[1] == SendMail(UserMail(rec, env.emailFrom))
      && h.effects[1].mail.to == req.user.value.email
      && (|h.effects| == 3 <==> mailer(UserMail(rec, env.emailFrom)).Delivered?)
      && |h.effects| <= 3
      && (|h.effects| == 3 ==> h.effects[2] == SendMail(AdminMail(rec, env.emailFrom, env.adminEmail)))
  {
  }

  /** The record returned with a 201 carries the request's fields as given,
      the booking id sent to the store, and the store's `createdAtUTC` when
      truthy or else the clock; the payload sent to the store agrees with it. */
  lemma BookedRecord(req: BookingRequest, env: Env, stringify: seq<(string, Value)> -> string,
                     store: StorePayload -> Transport, mailer: Mail -> SendResult)
    requires HandleBooking(req, env, stringify, store, mailer).response.status == 201
    ensures var h := HandleBooking(req, env, stringify, store, mailer);
      var rec := h.response.body.booking;
      var p := h.effects[0].payload;
      var stored := ReadField(CallSheet(store(p)).json, "createdAtUTC");
      && rec.bookingId == p.bookingId == BookingIdFor(env.uuid)
      && rec.serviceId == req.serviceId && rec.serviceType == req.serviceType
      && rec.serviceTitle == req.serviceTitle && rec.date == req.date
      && rec.startTime == req.startTime && rec.endTime == req.endTime
      && Some(rec.user) == req.user
      && p.endTime == OrElse(rec.endTime, Str("")) && p.phone == OrElse(rec.user.phone, Str(""))
      && p.name == rec.user.name && p.email == rec.user.email
      && stored.Got?
      && (Truthy(stored.value) ==> rec.createdAtUTC == stored.value)
      && (!Truthy(stored.value) ==> rec.createdAtUTC == Str(env.clock))
  {
  }
}
