# Booking intake service — Dafny model

This project models the booking-intake logic of a small Express service
(`index.js`). A customer posts a booking request. The service checks the
required fields and builds a `BKG-` booking id from a UUID. It sends a
`create` payload to an external record store (a Google Apps Script web app)
and branches on the store's `ok`. It then builds the booking record, mails a
confirmation to the customer and a notice to the administrator, and answers
201. The model also covers the store-call normalisation (`callSheet`), the
`/api/slots` parameter check, the rows of the two email templates, and the
key-to-label transform used for the free-form `extra` fields.

Everything is a pure function. The outside world comes in as parameters:

- the UUID, the clock reading, the sender and administrator addresses, and
  the engine's TypeError message are fields of `Bookings.Env`;
- the record store is a function `StorePayload -> Transport`, where a
  `Transport` is either a reply (HTTP status and parsed JSON) or a thrown
  error with its message;
- the mail channel is a function `Mail -> SendResult`;
- `JSON.stringify(user.extra)` is a function parameter and is never
  interpreted.

A handler returns a `Handled` value. It holds the HTTP response and the
ordered list of external calls made, so "no store call" and "no mail" are
statements about that list.

JavaScript values are modelled as scalar `JsValues.Value`s with
JavaScript's truthiness: `undefined`, `null`, `false`, `0` and `""` are
falsy. `${v}` is modelled as `ToString`, exact for integers below 2^53 in magnitude. A `user` that is absent or not an
object is `None`. An `extra` that is absent or falsy is `None`; otherwise it
is the entry list in `Object.entries` order. Reading `ok` off a `null` store
body throws in JavaScript. The outer `catch` then answers 500
`server_error`, and the model keeps that path.

The model follows what `index.js` does, including where that departs from the
flow a reader might expect:

- there is no 409 / `slot_taken` detection, and any falsy `ok` gives 500
  `sheet_error`;
- the returned booking record has no `status` field;
- the record keeps `endTime` exactly as received, while the store payload
  gets `endTime || ""`;
- the two mails are sent one after the other. A thrown user send skips the
  admin send, and a failed admin send is swallowed;
- the response carries no notification status.

## Model

| member | source | states |
|---|---|---|
| `JsValues.OrElse` | index.js:176-179 | `v \|\| d` is `v` when `v` is truthy and `d` otherwise, and it is truthy iff either operand is |
| `Labels.LabelizeLength` | index.js:29 | the label is exactly one character longer per ASCII capital in the key |
| `Labels.LabelizeRoundTrip` | index.js:60 | deleting every space that precedes a capital turns the label back into the key |
| `Labels.LabelizeSpacesCapitals` | index.js:97 | every capital in a label has a space directly before it |
| `Labels.LabelizeConcat` | index.js:29 | the transform works one character at a time: the label of `a + b` is the label of `a` followed by the label of `b` |
| `Labels.LabelizeUnchangedIff` | index.js:60 | a key is shown unchanged if and only if it has no ASCII capitals |
| `Notices.ExtraRows` | index.js:57-62 | one row per `extra` entry, in entry order; row i has entry i's key as its label and entry i's value verbatim |
| `Notices.TimeCell` | index.js:55 | the time cell starts with the start time; it is the start time alone when `endTime` is falsy, and otherwise continues with " - " and the end time |
| `Notices.PhoneCell` | index.js:92 | the phone cell is the phone when truthy and "-" otherwise |
| `Notices.PhoneCellNeverBlank` | index.js:92 | the admin phone cell is never the empty string, whatever phone the request carried |
| `Notices.TimeCellAloneIff` | index.js:88 | the time cell is the bare start time if and only if the end time is falsy |
| `JsValues.TruthyShowsNonEmpty` | index.js:92 | a truthy value never interpolates as the empty string |
| `Notices.UserNotice` | index.js:39-73 | the customer notice greets the user by name; its rows are Booking ID, Service as "title (type)", Date and Time, then one row per extra entry; it shows the creation timestamp |
| `Notices.AdminNotice` | index.js:76-105 | the admin notice starts with the Booking ID, Service "title (type)", Date and Time rows, as the customer notice does, then Customer, Email, Phone (phone or "-"), then the same extra rows, and no greeting |
| `Notices.NoticesRecoverExtra` | index.js:94-99 | from either notice every `extra` key is recoverable in order from its row label, and every value appears verbatim |
| `Notices.RenderExtraRows` | index.js:23-35 | `renderExtraRows` yields "" for a falsy `extra` and for an empty object; nothing in index.js calls it, so its block markup reaches no mail |
| `Notices.RenderInEntryOrder` | index.js:25-34 | extra markup is rendered entry by entry in order, in both the `renderExtraRows` block form and the inline template form; one entry gives one row with its labelled key and verbatim value |
| `Notices.UserMail` | index.js:206-211 | the confirmation goes to the user's email from the configured sender and carries the customer notice |
| `Notices.AdminMail` | index.js:213-219 | the new-booking mail goes to the configured admin address from the configured sender and carries the admin notice |
| `SheetClient.CallSheet` | index.js:109-122 | a thrown fetch or parse error becomes status 500 with json `{ok: false, error: <message>}` and no other keys; a reply passes through unchanged, whatever its status; a truthy `ok` in the result can only come from a real store reply |
| `JsValues.ReadField` | index.js:185-191 | reading a field of the store json throws exactly for a `null` (or `undefined`) body, and `res.json()` never yields `undefined`; an object gives the member or `undefined`; any other scalar body gives `undefined`, so a string or number body reads as a falsy `ok` |
| `Bookings.FirstSegment` | index.js:167 | `split("-")[0]` is the longest dash-free prefix: a prefix of the UUID with no dash, ending at the end of the string or at a dash |
| `Bookings.BookingIdFromUuid` | index.js:167 | for a well-formed 8-4-4-4-12 UUID the booking id is "BKG-" followed by the UUID's first eight characters, 12 characters in all |
| `Bookings.CreatePayloadFor` | index.js:168-182 | the `create` payload has action "create", status "pending" and the given booking id; falsy `endTime`/`phone` become "", an absent `extra` becomes "{}", a present one is serialised; every other field is copied from the request |
| `Bookings.CreatedAt` | index.js:190-191 | `createdAtUTC` is the store's value when truthy, otherwise the clock reading |
| `Bookings.CreatedAtAlwaysSet` | index.js:190-191 | with a non-empty clock reading the record's `createdAtUTC` is always truthy |
| `Bookings.MailsSent` | index.js:205-233 | the user mail is always attempted first; the admin mail is attempted second exactly when the user send completed; nothing else is sent |
| `Bookings.HandleBooking` | index.js:144-240 | 400 `missing_fields` iff a required field is missing or falsy, and then no call is made; otherwise the first call is the one store `create`, every later call is a mail, and the answer is 201 with a booking iff the store's `ok` is truthy, which is also exactly when a mail is attempted |
| `Bookings.RejectedByStore` | index.js:184-188 | a falsy `ok` gives 500 `sheet_error` with the store json unchanged as detail, and the store call is the only call made |
| `Bookings.UnreachableStore` | index.js:118-121 | an unreachable store gives 500 `sheet_error` whose detail is `{ok: false, error: <message>}`, with no mail |
| `Bookings.NullStoreBody` | index.js:236-239 | a `null` store body ends in 500 `server_error` with the TypeError's message, after the single store call |
| `Bookings.MailOutcomeIrrelevant` | index.js:204-235 | any two mail channels give the same response and the same store call: mail results never change the answer |
| `Bookings.MailOrdering` | index.js:213-233 | after a 201 the first mail goes to the customer's address; the admin mail follows exactly when the user send did not throw; at most two mails |
| `Bookings.BookedRecord` | index.js:190-202 | the 201 record carries the request's fields and user as received and the booking id sent to the store; the payload's name, email, normalised end time and phone agree with it; `createdAtUTC` is the store's when truthy, else the clock |
| `Slots.HandleSlots` | index.js:130-142 | 400 `missing_params` iff `serviceId` or `date` is falsy, with no call; otherwise exactly one `getSlots` call with `duration || 30` (the query value when truthy, 30 otherwise), which is truthy before the `Number` coercion, and the store reply forwarded as status and json |
| `Slots.SlotsStoreFailure` | index.js:140-141 | when the store cannot be reached the slots route answers 500 with `ok: false` |

## Left out

- Express routing, CORS, `dotenv` configuration and `app.listen` (index.js:1-21, 261-263): framework plumbing.
- The real `fetch` call and `res.json()` parsing (index.js:111-116): the store is a function returning a reply or a thrown error.
- `sgMail.setApiKey` and `sgMail.send` (index.js:21, 206-228): the mail channel is a function returning delivered or rejected. Logging in the `.then`/`.catch` handlers is not modelled.
- `GET /api/services`, `GET /api/test-email` and `GET /api/health` (index.js:125-128, 243-259): plain passthroughs or constants with no decision logic.
- UUID generation, `new Date().toISOString()` and the footer's `getFullYear()` (index.js:5, 70, 167, 191): randomness and clock readings are inputs.
- HTML styling, headings and boilerplate sentences of the two templates: only the greeting, the table rows and the "Created on" line are modelled.
- `JSON.stringify(user.extra)` (index.js:180): an uninterpreted function parameter.
- `Number(duration)` (index.js:138): the `getSlots` payload holds `duration || 30` before numeric coercion. The real store can still receive a falsy duration: `?duration=0` is sent as `0` and `?duration=abc` as `NaN`.
- `console.*` logging.
- Integers of 10^21 and above in magnitude, which JavaScript's `String` prints in exponent form, and integers beyond 2^53, which JSON parsing rounds: `ToString` prints every decimal digit of a `Num`, so rendered names, phones, `extra` values and timestamps agree with JavaScript only below 2^53 in magnitude.
- Non-integral numbers and `NaN`, and nested objects or arrays as field values: `Value` holds only scalars with integral numbers. A truthy non-object `extra`, such as a string that `Object.entries` would split into characters, is not modelled. Neither are user properties other than name, email, phone and extra.
- A store body that is a JSON array: `Body` is an object or a scalar, so that case is not represented.
- `Notices.RenderExtraRows`: its own contract covers only the empty cases. Nothing in index.js calls `renderExtraRows`; the email templates inline their own rows (index.js:57-62, 94-99). Its per-entry behaviour is stated by `Notices.RenderInEntryOrder`.
