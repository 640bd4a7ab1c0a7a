/** A call log as the backend's `/api/call/call-logs` returns it, shared by
    the recent-calls table and the call-details page. */
module CallLogs {
  import opened Wrappers
  import opened JsValues

  /** Its plain properties (`id`, `caller_name`, `receiver_name`,
      `call_type`, `status`, `caller_id`, `receiver_id`, `meeting_call_id`,
      `duration`, ...), its two timestamps as milliseconds since the epoch
      (`None` when the property is missing, `null` or empty), and its
      `metadata` when that is an object. */
  datatype CallLog = CallLog(
    fields: Record,
    startedAt: Option<int>,
    endedAt: Option<int>,
    metadata: Option<Record>)

  function CallId(c: CallLog): Value
  {
    Get(c.fields, "id")
  }

  /** The sort key `new Date(c.started_at)`: a missing start reads as the
      epoch, as `new Date(null)` does. */
  function StartKey(c: CallLog): int
  {
    if c.startedAt.Some? then c.startedAt.value else 0
  }

  /** A property of `metadata`, or `undefined` when there is none (`?.`). */
  function MetadataField(c: CallLog, key: string): Value
  {
    if c.metadata.Some? then Get(c.metadata.value, key) else Undefined
  }

  /** The request both call views send: `GET /api/call/call-logs`. */
  datatype Request = GetCallLogs

  /** The `sx` colours of a chip: background and text. */
  datatype ChipStyle = ChipStyle(backgroundColor: string, color: string)
}
