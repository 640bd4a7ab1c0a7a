/** The call-details page: the call log is looked up by the route id, and
    its optional properties fall back to "-" only when null or undefined. */
module CallDetails {
  import opened Wrappers
  import opened JsValues
  import opened Lookup
  import opened Feedback
  import opened CallLogs
  import RecentCalls

  /** The fields the page shows, after `?? "-"`. */
  datatype Shown = Shown(
    callerId: Value,
    meetingCallId: Value,
    duration: Value,
    receiverId: Value,
    device: Value,
    status: Value,
    notes: Value)

  function Present(c: CallLog): (s: Shown)
    ensures s.callerId == Get(c.fields, "caller_id") && s.status == Get(c.fields, "status")
    ensures forall v :: v in [s.meetingCallId, s.duration, s.receiverId, s.device, s.notes] ==> !Nullish(v)
    ensures Nullish(Get(c.fields, "meeting_call_id")) ==> s.meetingCallId == Str("-")
    ensures !Nullish(Get(c.fields, "meeting_call_id")) ==> s.meetingCallId == Get(c.fields, "meeting_call_id")
    ensures Nullish(Get(c.fields, "duration")) ==> s.duration == Str("-")
    ensures !Nullish(Get(c.fields, "duration")) ==> s.duration == Get(c.fields, "duration")
    ensures Nullish(Get(c.fields, "receiver_id")) ==> s.receiverId == Str("-")
    ensures !Nullish(Get(c.fields, "receiver_id")) ==> s.receiverId == Get(c.fields, "receiver_id")
    ensures Nullish(MetadataField(c, "device")) ==> s.device == Str("-")
    ensures !Nullish(MetadataField(c, "device")) ==> s.device == MetadataField(c, "device")
    ensures Nullish(MetadataField(c, "notes")) ==> s.notes == Str("-")
    ensures !Nullish(MetadataField(c, "notes")) ==> s.notes == MetadataField(c, "notes")
  {
    Shown(
      callerId := Get(c.fields, "caller_id"),
      meetingCallId := Coalesce(Get(c.fields, "meeting_call_id"), Str("-")),
      duration := Coalesce(Get(c.fields, "duration"), Str("-")),
      receiverId := Coalesce(Get(c.fields, "receiver_id"), Str("-")),
      device := Coalesce(MetadataField(c, "device"), Str("-")),
      status := Get(c.fields, "status"),
      notes := Coalesce(MetadataField(c, "notes"), Str("-")))
  }

  /** A zero duration and an empty meeting id are shown as they are, where
      `||` would have shown "-". */
  lemma FalsyButPresentShown(c: CallLog)
    requires Get(c.fields, "duration") == Num(0) && Get(c.fields, "meeting_call_id") == Str("")
    ensures Present(c).duration == Num(0) && Present(c).meetingCallId == Str("")
    ensures Or(Get(c.fields, "duration"), Str("-")) == Str("-")
  {
  }

  // ----- chipStyles

  /** `chipStyles.type[row.call_type]`: the property key is the string form
      of the value, and keys outside the table give `undefined`. */
  function TypeStyle(callType: Value): (style: Option<ChipStyle>)
    ensures style.Some? <==> ToStr(callType) == "audio" || ToStr(callType) == "video"
    ensures ToStr(callType) == "audio" ==> style == Some(ChipStyle("#e3f0fc", "#1976d2"))
    ensures ToStr(callType) == "video" ==> style == Some(ChipStyle("#f3e8fd", "#9c27b0"))
  {
    var key := ToStr(callType);
    if key == "audio" then Some(ChipStyle("#e3f0fc", "#1976d2"))
    else if key == "video" then Some(ChipStyle("#f3e8fd", "#9c27b0"))
    else None
  }

  /** `chipStyles.status[row.status]` */
  function StatusStyle(status: Value): (style: Option<ChipStyle>)
    ensures style.Some? <==> ToStr(status) in {"accepted", "initiated", "ended"}
    ensures ToStr(status) == "accepted" ==> style == Some(ChipStyle("#e3fde8", "#388e3c"))
    ensures ToStr(status) == "initiated" ==> style == Some(ChipStyle("#fdf7e3", "#fbc02d"))
    ensures ToStr(status) == "ended" ==> style == Some(ChipStyle("#fde3e3", "#d32f2f"))
  {
    var key := ToStr(status);
    if key == "accepted" then Some(ChipStyle("#e3fde8", "#388e3c"))
    else if key == "initiated" then Some(ChipStyle("#fdf7e3", "#fbc02d"))
    else if key == "ended" then Some(ChipStyle("#fde3e3", "#d32f2f"))
    else None
  }

  /** For the values the tables name, this page and the recent-calls table
      colour a call's chips alike; a status outside the table is red there
      and unstyled here. */
  lemma ChipsAgree(callType: Value, status: Value)
    ensures callType == Str("audio") || callType == Str("video") ==>
              TypeStyle(callType) == Some(RecentCalls.TypeChip(callType))
    ensures status == Str("accepted") || status == Str("initiated") || status == Str("ended") ==>
              StatusStyle(status) == Some(RecentCalls.StatusChip(status))
    ensures status.Str? && status.s !in {"accepted", "initiated", "ended"} ==>
              StatusStyle(status).None? && RecentCalls.StatusChip(status) == ChipStyle("#fde3e3", "#d32f2f")
  {
  }

  class CallDetailView {
    const routeId: string
    const token: string          // "" when local storage holds none
    var row: Option<CallLog>     // None renders "Call not found"
    var loading: bool
    var sent: seq<Request>

    constructor (routeId: string, token: string)
      ensures this.routeId == routeId && this.token == token
      ensures row.None? && loading && sent == []
    {
      this.routeId := routeId;
      this.token := token;
      row := None;
      loading := true;
      sent := [];
    }

    /** The mount effect: with no token only `loading` is cleared; otherwise
        the call logs are fetched and searched. */
    method Load(reply: Fetch<seq<CallLog>>)
      modifies this
      ensures !loading
      ensures token == "" ==> row == old(row) && sent == old(sent)
      ensures token != "" ==> sent == old(sent) + [GetCallLogs]
      ensures token != "" && reply.Failed? ==> row.None?
      ensures token != "" && reply.Fetched? ==> row == FindById(reply.data, CallId, routeId)
    {
      if token == "" {
        loading := false;
        return;
      }
      sent := sent + [GetCallLogs];
      match reply {
        case Failed =>
          row := None;
        case Fetched(data) =>
          row := FindById(data, CallId, routeId);
      }
      loading := false;
    }
  }

  /** On a fresh page with no token the call is "not found" once loaded,
      and nothing is fetched. */
  method NoTokenPage(routeId: string, reply: Fetch<seq<CallLog>>)
    returns (row: Option<CallLog>, loading: bool, fetches: nat)
    ensures row.None? && !loading && fetches == 0
  {
    var view := new CallDetailView(routeId, "");
    view.Load(reply);
    row, loading, fetches := view.row, view.loading, |view.sent|;
  }
}
