/** The notification-history table: each backend record becomes one display
    row, and the recipients and message cells format their values. */
module NotificationHistory {
  import opened Wrappers
  import opened JsValues
  import opened Feedback

  /** A backend record: its plain properties, and its `data` property when
      that is an object (`None` for `null`, `undefined` or a primitive,
      whose `?.offer_code` reads `undefined`). */
  datatype Notification = Notification(fields: Record, data: Option<Record>)

  /** A table row. The "Date & Time" column is left out. */
  datatype Row = Row(
    id: Value,
    campaignId: Value,
    userid: Value,
    username: Value,
    recipients: seq<Value>,
    title: Value,
    message: Value,
    offerCode: Value,
    status: string)

  function OfferCode(data: Option<Record>): Value
  {
    if data.Some? then Get(data.value, "offer_code") else Undefined
  }

  /** `n.status === "success" ? "Sent" : "Failed"` */
  function StatusLabel(status: Value): (shown: string)
    ensures shown == "Sent" <==> status == Str("success")
    ensures shown != "Sent" ==> shown == "Failed"
  {
    if status == Str("success") then "Sent" else "Failed"
  }

  /** The `map` callback in `fetchNotifications`. */
  function ToRow(n: Notification): (row: Row)
    ensures Falsy(Get(n.fields, "campaign_id")) ==> row.campaignId == Str("-")
    ensures !Falsy(Get(n.fields, "campaign_id")) ==> row.campaignId == Get(n.fields, "campaign_id")
    ensures Falsy(OfferCode(n.data)) ==> row.offerCode == Str("-")
    ensures !Falsy(OfferCode(n.data)) ==> row.offerCode == OfferCode(n.data)
    ensures row.recipients == [Get(n.fields, "username")]
    ensures row.status == StatusLabel(Get(n.fields, "status"))
    ensures row.id == Get(n.fields, "id") && row.userid == Get(n.fields, "user_id")
    ensures row.username == Get(n.fields, "username") && row.title == Get(n.fields, "title")
    ensures row.message == Get(n.fields, "body")
  {
    Row(
      id := Get(n.fields, "id"),
      campaignId := Or(Get(n.fields, "campaign_id"), Str("-")),
      userid := Get(n.fields, "user_id"),
      username := Get(n.fields, "username"),
      recipients := [Get(n.fields, "username")],
      title := Get(n.fields, "title"),
      message := Get(n.fields, "body"),
      offerCode := Or(OfferCode(n.data), Str("-")),
      status := StatusLabel(Get(n.fields, "status")))
  }

  /** `response.data.map(...)`: one row per record, in the same order. */
  function Transform(ns: seq<Notification>): (rows: seq<Row>)
    ensures |rows| == |ns|
    ensures forall i :: 0 <= i < |ns| ==> rows[i] == ToRow(ns[i])
  {
    if ns == [] then [] else [ToRow(ns[0])] + Transform(ns[1..])
  }

  /** `RecipientsCell`: the count of recipients followed by " user(s)". */
  function RecipientsLabel(recipients: seq<Value>): string
  {
    NatToDecimal(|recipients|) + " user(s)"
  }

  lemma SingleRecipientLabel(recipients: seq<Value>)
    requires |recipients| == 1
    ensures RecipientsLabel(recipients) == "1 user(s)"
  {
    assert DigitChar(1) == '1';
    assert NatToDecimal(1) == ['1'];
  }

  /** Every row names exactly one recipient. */
  lemma OneRecipientEach(ns: seq<Notification>, i: nat)
    requires i < |ns|
    ensures RecipientsLabel(Transform(ns)[i].recipients) == "1 user(s)"
  {
    var row := Transform(ns)[i];
    assert row == ToRow(ns[i]);
    SingleRecipientLabel(row.recipients);
  }

  /** `MessageCell`: a message over 30 characters is cut to its first 30
      and marked with "...". */
  function MessageCell(value: string): (shown: string)
    ensures |value| > 30 ==> |shown| == 33 && shown[..30] == value[..30] && shown[30..] == "..."
    ensures |value| <= 30 ==> shown == value
  {
    if |value| > 30 then value[..30] + "..." else value
  }

  /** The cell for whatever `body` holds. A string is cut as above. A number
      or boolean has no `length`, so `undefined > 30` is false and the value
      shows as it is. On `null` or `undefined`, `.length` throws: `None`. */
  function MessageShown(body: Value): (shown: Option<Value>)
    ensures shown.None? <==> Nullish(body)
    ensures body.Str? ==> shown == Some(Str(MessageCell(body.s)))
    ensures body.Num? || body.Bool? ==> shown == Some(body)
  {
    match body
    case Str(s) => Some(Str(MessageCell(s)))
    case Num(_) => Some(body)
    case Bool(_) => Some(body)
    case _ => None
  }

  /** The shown text never exceeds 33 characters, and showing it again
      changes nothing. */
  lemma MessageCellIdempotent(value: string)
    ensures |MessageCell(value)| <= 33
    ensures MessageCell(MessageCell(value)) == MessageCell(value)
  {
    if |value| > 30 {
      var shown := MessageCell(value);
      assert shown[..30] + "..." == shown;
    }
  }

  /** "Sent" rows are exactly the records whose status is "success". */
  lemma SentRows(ns: seq<Notification>, i: nat)
    requires i < |ns|
    ensures Transform(ns)[i].status == "Sent" <==> Get(ns[i].fields, "status") == Str("success")
  {
  }

  /** `GET /api/admin/notification-history` */
  datatype Request = GetNotificationHistory

  class NotificationHistoryView {
    var notifications: seq<Row>
    var sent: seq<Request>   // requests issued, oldest first

    constructor ()
      ensures notifications == [] && sent == []
    {
      notifications := [];
      sent := [];
    }

    /** The mount effect. The request goes out whether or not a token is
        stored. A reply replaces the list with its rows; a failure only
        logs, leaving the list as it was. */
    method Load(reply: Fetch<seq<Notification>>)
      modifies this
      ensures sent == old(sent) + [GetNotificationHistory]
      ensures reply.Fetched? ==> notifications == Transform(reply.data)
      ensures reply.Failed? ==> notifications == old(notifications)
    {
      sent := sent + [GetNotificationHistory];
      if reply.Fetched? {
        notifications := Transform(reply.data);
      }
    }
  }
}
