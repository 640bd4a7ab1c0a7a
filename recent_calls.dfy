/** The dashboard's recent-calls table: call logs sorted newest first, one
    row per log with name defaults, chip colours, the call's duration and a
    link to its detail page. */
module RecentCalls {
  import opened Wrappers
  import opened JsValues
  import opened Sorting
  import opened Feedback
  import opened CallLogs

  // ----- getDuration

  /** A duration in whole minutes and the whole seconds left over. */
  datatype Elapsed = Elapsed(mins: nat, secs: nat)

  /** `Math.max(0, end - start)`, or 0 when either end is missing. */
  function Diff(start: Option<int>, end: Option<int>): nat
  {
    if start.None? || end.None? then 0
    else if end.value - start.value < 0 then 0
    else end.value - start.value
  }

  /** `Math.floor(diff / 60000)` and `Math.floor((diff % 60000) / 1000)`;
      on a non-negative `diff` these agree with Dafny's `/` and `%`. */
  function Split(diff: nat): (e: Elapsed)
    ensures e.secs < 60
    ensures e.mins * 60000 + e.secs * 1000 <= diff < e.mins * 60000 + e.secs * 1000 + 1000
  {
    Elapsed(diff / 60000, (diff % 60000) / 1000)
  }

  /** Whole minutes and seconds are the only pair that brackets the
      difference that way: `Split` is the truncation of `diff` to seconds. */
  lemma SplitUnique(diff: nat, e: Elapsed)
    requires e.secs < 60
    requires e.mins * 60000 + e.secs * 1000 <= diff < e.mins * 60000 + e.secs * 1000 + 1000
    ensures Split(diff) == e
  {
    var q := diff / 60000;
    var r := diff % 60000;
    assert diff == q * 60000 + r && 0 <= r < 60000;
    assert e.mins * 60000 <= diff < e.mins * 60000 + 60000;
    assert q == e.mins;
    assert r == e.secs * 1000 + (r - e.secs * 1000) && 0 <= r - e.secs * 1000 < 1000;
    assert r / 1000 == e.secs;
  }

  function Duration(start: Option<int>, end: Option<int>): (e: Elapsed)
    ensures start.None? || end.None? ==> e == Elapsed(0, 0)
    ensures start.Some? && end.Some? && end.value <= start.value ==> e == Elapsed(0, 0)
    ensures e.secs < 60
    ensures start.Some? && end.Some? && start.value <= end.value ==>
              e.mins * 60000 + e.secs * 1000 <= end.value - start.value < e.mins * 60000 + e.secs * 1000 + 1000
  {
    Split(Diff(start, end))
  }

  /** `` `${mins}m ${secs}s` `` */
  function DurationText(start: Option<int>, end: Option<int>): string
  {
    var e := Duration(start, end);
    NatToDecimal(e.mins) + "m " + NatToDecimal(e.secs) + "s"
  }

  /** A call with either end missing, or one that ends before it starts,
      reads "0m 0s". */
  lemma NoDurationText(start: Option<int>, end: Option<int>)
    requires start.None? || end.None? || end.value <= start.value
    ensures DurationText(start, end) == "0m 0s"
  {
    assert Duration(start, end) == Elapsed(0, 0);
    assert NatToDecimal(0) == "0";
  }

  /** A call of 2 minutes 5.5 seconds reads "2m 5s". */
  lemma DurationExample()
    ensures Duration(Some(1000), Some(1000 + 125500)) == Elapsed(2, 5)
  {
    SplitUnique(125500, Elapsed(2, 5));
  }

  // ----- the rows

  function TypeChip(callType: Value): (style: ChipStyle)
    ensures style.color == (if callType == Str("audio") then "#1976d2" else "#9c27b0")
  {
    if callType == Str("audio") then ChipStyle("#e3f0fc", "#1976d2")
    else ChipStyle("#f3e8fd", "#9c27b0")
  }

  function StatusChip(status: Value): (style: ChipStyle)
    ensures status == Str("accepted") ==> style.color == "#388e3c"
    ensures status == Str("initiated") ==> style.color == "#fbc02d"
    ensures status != Str("accepted") && status != Str("initiated") ==> style.color == "#d32f2f"
  {
    if status == Str("accepted") then ChipStyle("#e3fde8", "#388e3c")
    else if status == Str("initiated") then ChipStyle("#fdf7e3", "#fbc02d")
    else ChipStyle("#fde3e3", "#d32f2f")
  }

  /** A table row. The "Time" column, a locale-formatted time, is left out. */
  datatype Row = Row(
    id: Value,
    callerName: Value,
    receiverName: Value,
    callType: Value,
    typeChip: ChipStyle,
    status: Value,
    statusChip: ChipStyle,
    duration: string,
    link: string)

  function ToRow(c: CallLog): (row: Row)
    ensures row.id == CallId(c)
    ensures row.callerName == (if Falsy(Get(c.fields, "caller_name")) then Str("-") else Get(c.fields, "caller_name"))
    ensures row.receiverName == (if Falsy(Get(c.fields, "receiver_name")) then Str("-") else Get(c.fields, "receiver_name"))
    ensures row.duration == DurationText(c.startedAt, c.endedAt)
    ensures row.link == "/CallDetails/" + ToStr(CallId(c))
  {
    Row(
      id := CallId(c),
      callerName := Or(Get(c.fields, "caller_name"), Str("-")),
      receiverName := Or(Get(c.fields, "receiver_name"), Str("-")),
      callType := Get(c.fields, "call_type"),
      typeChip := TypeChip(Get(c.fields, "call_type")),
      status := Get(c.fields, "status"),
      statusChip := StatusChip(Get(c.fields, "status")),
      duration := DurationText(c.startedAt, c.endedAt),
      link := "/CallDetails/" + ToStr(CallId(c)))
  }

  /** `callLogs.map(...)`: one row per log, in the same order. */
  function Rows(logs: seq<CallLog>): (rows: seq<Row>)
    ensures |rows| == |logs|
    ensures forall i :: 0 <= i < |logs| ==> rows[i] == ToRow(logs[i])
  {
    if logs == [] then [] else [ToRow(logs[0])] + Rows(logs[1..])
  }

  /** Rows link to distinct pages exactly when their ids print apart. */
  lemma LinksApart(a: CallLog, b: CallLog)
    ensures ToRow(a).link == ToRow(b).link <==> ToStr(CallId(a)) == ToStr(CallId(b))
  {
    var p := "/CallDetails/";
    if ToRow(a).link == ToRow(b).link {
      assert ToStr(CallId(a)) == ToRow(a).link[|p|..];
      assert ToStr(CallId(b)) == ToRow(b).link[|p|..];
    }
  }

  class RecentCallsTable {
    var callLogs: seq<CallLog>
    var loading: bool
    var sent: seq<Request>   // requests issued, oldest first

    constructor ()
      ensures callLogs == [] && loading && sent == []
    {
      callLogs := [];
      loading := true;
      sent := [];
    }

    /** The mount effect. The request goes out whether or not a token is
        stored. The response array is sorted in place, newest start first,
        and kept; a failure empties the list. */
    method Load(reply: Fetch<array<CallLog>>)
      modifies this, if reply.Fetched? then {reply.data} else {}
      ensures !loading
      ensures sent == old(sent) + [GetCallLogs]
      ensures reply.Failed? ==> callLogs == []
      ensures reply.Fetched? ==> callLogs == reply.data[..] == SortDesc(old(reply.data[..]), StartKey)
    {
      sent := sent + [GetCallLogs];
      match reply {
        case Failed =>
          callLogs := [];
        case Fetched(data) =>
          SortInPlace(data, StartKey);
          callLogs := data[..];
      }
      loading := false;
    }

    function TableRows(): (rows: seq<Row>)
      reads this
      ensures |rows| == |callLogs|
    {
      Rows(callLogs)
    }
  }

  /** What the loaded table shows: the fetched logs, rearranged, newest
      start first, logs that started together in the order received, one
      row each. */
  lemma LoadedTable(received: seq<CallLog>, k: int)
    ensures var sorted := SortDesc(received, StartKey);
            && multiset(sorted) == multiset(received)
            && SortedDesc(sorted, StartKey)
            && WithKey(sorted, StartKey, k) == WithKey(received, StartKey, k)
            && |Rows(sorted)| == |received|
  {
    SortDescSorts(received, StartKey);
    SortDescIsStable(received, StartKey, k);
  }
}
