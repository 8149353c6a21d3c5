/**
  The data rows of the two notification emails (`userEmailHtml`,
  `adminEmailHtml`), the markup of an `extra` row, `renderExtraRows`, and the
  two mails the booking handler sends. Styling and boilerplate text are not
  part of this model.
 */
module Notices {
  import opened JsValues
  import opened Labels
  import opened Domain

  /** One `<tr>` of a notice: a bold label cell and a value cell. */
  datatype Row = Row(caption: string, value: string)

  /** A rendered notice: the customer greeting (user notice only), the table
      rows in document order, and the "Created on" line. */
  datatype Notice = Notice(greeting: Option<string>, rows: seq<Row>, createdOn: string)

  /** The rows for `extra` entries, in entry order, values inserted verbatim. */
  function ExtraRows(entries: seq<(string, Value)>): (rows: seq<Row>)
    ensures |rows| == |entries|
    ensures forall i :: 0 <= i < |entries| ==>
      rows[i] == Row(Labelize(entries[i].0), ToString(entries[i].1))
  {
    if entries == [] then []
    else [Row(Labelize(entries[0].0), ToString(entries[0].1))] + ExtraRows(entries[1..])
  }

  /** The "Time" cell: the start time, then " - " and the end time when there is one. */
  function TimeCell(startTime: Value, endTime: Value): (cell: string)
    ensures |ToString(startTime)| <= |cell|
    ensures cell[..|ToString(startTime)|] == ToString(startTime)
    ensures Truthy(endTime) ==> cell[|ToString(startTime)|..] == " - " + ToString(endTime)
    ensures !Truthy(endTime) ==> cell == ToString(startTime)
  {
    ToString(startTime) + (if Truthy(endTime) then " - " + ToString(endTime) else "")
  }

  /** The admin "Phone" cell: `phone || "-"`. */
  function PhoneCell(phone: Value): (cell: string)
    ensures Truthy(phone) ==> cell == ToString(phone)
    ensures !Truthy(phone) ==> cell == "-"
  {
    ToString(OrElse(phone, Str("-")))
  }

  /** The time cell is the bare start time exactly when there is no end time. */
  lemma TimeCellAloneIff(startTime: Value, endTime: Value)
    ensures TimeCell(startTime, endTime) == ToString(startTime) <==> !Truthy(endTime)
  {
    if Truthy(endTime) {
      assert |TimeCell(startTime, endTime)| == |ToString(startTime)| + 3 + |ToString(endTime)|;
    }
  }

  /** The admin phone cell is never blank, whatever the request carried. */
  lemma PhoneCellNeverBlank(phone: Value)
    ensures PhoneCell(phone) != ""
  {
    if Truthy(phone) {
      TruthyShowsNonEmpty(phone);
    }
  }

  function ServiceCell(b: BookingRecord): string {
    ToString(b.serviceTitle) + " (" + ToString(b.serviceType) + ")"
  }

  /** The four rows both notices start with. */
  function HeaderRows(b: BookingRecord): seq<Row> {
    [ Row("Booking ID", b.bookingId),
      Row("Service", ServiceCell(b)),
      Row("Date", ToString(b.date)),
      Row("Time", TimeCell(b.startTime, b.endTime)) ]
  }

  /** The confirmation sent to the customer. */
  function UserNotice(b: BookingRecord): (n: Notice)
    ensures n.greeting == Some(ToString(b.user.name))
    ensures n.createdOn == ToString(b.createdAtUTC)
    ensures |n.rows| == 4 + |ExtraEntries(b.user.extra)|
    ensures n.rows[0] == Row("Booking ID", b.bookingId)
    ensures n.rows[1] == Row("Service", ToString(b.serviceTitle) + " (" + ToString(b.serviceType) + ")")
    ensures n.rows[2] == Row("Date", ToString(b.date))
    ensures n.rows[3] == Row("Time", TimeCell(b.startTime, b.endTime))
    ensures forall i :: 0 <= i < |ExtraEntries(b.user.extra)| ==>
      n.rows[4 + i] == Row(Labelize(ExtraEntries(b.user.extra)[i].0), ToString(ExtraEntries(b.user.extra)[i].1))
  {
    Notice(Some(ToString(b.user.name)), HeaderRows(b) + ExtraRows(ExtraEntries(b.user.extra)),
           ToString(b.createdAtUTC))
  }

  /** The notice sent to the administrator: the same header, then the
      customer's name, email and phone, then the extra rows. */
  function AdminNotice(b: BookingRecord): (n: Notice)
    ensures n.greeting == None
    ensures n.createdOn == ToString(b.createdAtUTC)
    ensures |n.rows| == 7 + |ExtraEntries(b.user.extra)|
    ensures n.rows[0] == Row("Booking ID", b.bookingId)
    ensures n.rows[1] == Row("Service", ToString(b.serviceTitle) + " (" + ToString(b.serviceType) + ")")
    ensures n.rows[2] == Row("Date", ToString(b.date))
    ensures n.rows[3] == Row("Time", TimeCell(b.startTime, b.endTime))
    ensures n.rows[4] == Row("Customer", ToString(b.user.name))
    ensures n.rows[5] == Row("Email", ToString(b.user.email))
    ensures n.rows[6] == Row("Phone", PhoneCell(b.user.phone))
    ensures n.rows[7..] == UserNotice(b).rows[4..]
  {
    var contact := [ Row("Customer", ToString(b.user.name)),
                     Row("Email", ToString(b.user.email)),
                     Row("Phone", PhoneCell(b.user.phone)) ];
    var extras := ExtraRows(ExtraEntries(b.user.extra));
    var rows := HeaderRows(b) + contact + extras;
    assert rows[7..] == extras;
    Notice(None, rows, ToString(b.createdAtUTC))
  }

  /** Both notices let a reader recover every `extra` key, in order, from the
      labels, and show every value verbatim. */
  lemma NoticesRecoverExtra(b: BookingRecord)
    ensures forall i :: 0 <= i < |ExtraEntries(b.user.extra)| ==>
      && Unlabel(UserNotice(b).rows[4 + i].caption) == ExtraEntries(b.user.extra)[i].0
      && UserNotice(b).rows[4 + i].value == ToString(ExtraEntries(b.user.extra)[i].1)
      && AdminNotice(b).rows[7 + i] == UserNotice(b).rows[4 + i]
  {
    var es := ExtraEntries(b.user.extra);
    forall i | 0 <= i < |es|
      ensures Unlabel(UserNotice(b).rows[4 + i].caption) == es[i].0
    {
      LabelizeRoundTrip(es[i].0);
    }
    assert AdminNotice(b).rows[7..] == UserNotice(b).rows[4..];
  }

  /** The inline extra row of both email templates. */
  function InlineRowMarkup(r: Row): string {
    "<tr><td><b>" + r.caption + ":</b></td><td>" + r.value + "</td></tr>"
  }

  /** The multi-line row produced by `renderExtraRows`. */
  function BlockRowMarkup(r: Row): string {
    "\n      <tr>\n        <td><b>" + r.caption + ":</b></td>\n        <td>" + r.value + "</td>\n      </tr>\n    "
  }

  /** `rows.map(markup).join("")`. */
  function Join(rows: seq<Row>, markup: Row -> string): string {
    if rows == [] then "" else markup(rows[0]) + Join(rows[1..], markup)
  }

  lemma {:induction false} JoinConcat(a: seq<Row>, b: seq<Row>, markup: Row -> string)
    ensures Join(a + b, markup) == Join(a, markup) + Join(b, markup)
  {
    if a == [] {
      assert a + b == b;
    } else {
      assert (a + b)[1..] == a[1..] + b;
      JoinConcat(a[1..], b, markup);
    }
  }

  /** The extra-row section of both email templates. */
  function ExtraSection(extra: Extra): string {
    Join(ExtraRows(ExtraEntries(extra)), InlineRowMarkup)
  }

  /** `renderExtraRows(extra)`: empty for a falsy `extra`, otherwise one block per entry.
      Nothing calls this helper: both email templates inline their own extra
      rows (`ExtraSection`), so the block markup reaches no mail. */
  function RenderExtraRows(extra: Extra): (html: string)
    ensures extra.None? ==> html == ""
    ensures extra == Some([]) ==> html == ""
  {
    match extra
    case None => ""
    case Some(entries) => Join(ExtraRows(entries), BlockRowMarkup)
  }

  lemma ExtraRowsConcat(a: seq<(string, Value)>, b: seq<(string, Value)>)
    ensures ExtraRows(a + b) == ExtraRows(a) + ExtraRows(b)
  {
    assert forall i :: 0 <= i < |a + b| ==> (a + b)[i] == if i < |a| then a[i] else b[i - |a|];
  }

  /** Entries are rendered one after another in entry order: the markup of a
      concatenation is the concatenation of the markups, and one entry gives
      one row with its key labelled and its value verbatim. */
  lemma RenderInEntryOrder(a: seq<(string, Value)>, b: seq<(string, Value)>, key: string, value: Value)
    ensures RenderExtraRows(Some(a + b)) == RenderExtraRows(Some(a)) + RenderExtraRows(Some(b))
    ensures ExtraSection(Some(a + b)) == ExtraSection(Some(a)) + ExtraSection(Some(b))
    ensures RenderExtraRows(Some([(key, value)])) == BlockRowMarkup(Row(Labelize(key), ToString(value)))
    ensures ExtraSection(Some([(key, value)])) == InlineRowMarkup(Row(Labelize(key), ToString(value)))
  {
    ExtraRowsConcat(a, b);
    JoinConcat(ExtraRows(a), ExtraRows(b), BlockRowMarkup);
    JoinConcat(ExtraRows(a), ExtraRows(b), InlineRowMarkup);
    var one := ExtraRows([(key, value)]);
    assert one == [Row(Labelize(key), ToString(value))];
    assert one[1..] == [];
    assert Join(one, BlockRowMarkup) == BlockRowMarkup(one[0]) + Join([], BlockRowMarkup);
    assert Join(one, InlineRowMarkup) == InlineRowMarkup(one[0]) + Join([], InlineRowMarkup);
  }

  /** An email as handed to the mail channel. */
  datatype Mail = Mail(to: Value, from: string, subject: string, notice: Notice)

  const EmDash: string := "\U{2014}"

  /** The confirmation mail to the customer's address. */
  function UserMail(b: BookingRecord, from: string): (m: Mail)
    ensures m.to == b.user.email && m.from == from
    ensures m.notice == UserNotice(b)
  {
    Mail(b.user.email, from,
         "Booking Confirmation " + EmDash + " " + ToString(b.serviceTitle) + " on " + ToString(b.date),
         UserNotice(b))
  }

  /** The new-booking mail to the administrator's address. */
  function AdminMail(b: BookingRecord, from: string, admin: string): (m: Mail)
    ensures m.to == Str(admin) && m.from == from
    ensures m.notice == AdminNotice(b)
  {
    Mail(Str(admin), from,
         "New Booking " + EmDash + " " + ToString(b.serviceTitle) + " on " + ToString(b.date),
         AdminNotice(b))
  }
}
