/** The push-notification form: a required-field gate, the request body,
    the `sending` flag around the request and the reset after success. */
module SendNotification {
  import opened Wrappers
  import opened JsValues
  import opened Feedback

  const MissingFields := "Please fill in all required fields before sending."
  const SentMessage := "Notification sent!"
  const SendFailed := "Failed to send notification."

  /** The gate at the top of `handleSend`. */
  predicate Rejects(title: string, message: string, target: string, userId: string)
  {
    title == "" || message == "" || target == "" || (target == "single" && userId == "")
  }

  /** The JSON body as sent: `userId` is `undefined` unless the target is a
      single user, and `JSON.stringify` drops it then; the schedule is
      spread in only when both a date and a time are picked. The pickers'
      values are held already formatted ("YYYY-MM-DD", "HH:mm"). */
  function BuildPayload(title: string, message: string, target: string, userId: string,
                        date: Option<string>, time: Option<string>): (body: Record)
    ensures JsonClean(body)
    ensures Get(body, "title") == Str(title) && Get(body, "message") == Str(message)
    ensures Get(body, "target") == Str(target)
    ensures "userId" in body <==> target == "single"
    ensures "userId" in body ==> body["userId"] == Str(userId)
    ensures "date" in body <==> date.Some? && time.Some?
    ensures "time" in body <==> date.Some? && time.Some?
    ensures "date" in body ==> body["date"] == Str(date.value) && body["time"] == Str(time.value)
    ensures body.Keys <= {"title", "message", "target", "userId", "date", "time"}
  {
    var base := map["title" := Str(title), "message" := Str(message), "target" := Str(target)];
    var withUser := if target == "single" then base["userId" := Str(userId)] else base;
    if date.Some? && time.Some? then withUser["date" := Str(date.value)]["time" := Str(time.value)]
    else withUser
  }

  /** What the request can give back: a response with its `ok` flag and
      the `message` of its JSON body, or a throw carrying its own message. */
  datatype SendReply = SendThrew(error: string) | SendReplied(ok: bool, message: Value)

  /** The snackbar text for a reply that is not a success:
      `data.message || "Failed to send notification."`, or the thrown
      error's message. */
  function FailureText(reply: SendReply): (text: string)
    requires !(reply.SendReplied? && reply.ok)
    ensures reply.SendReplied? && !Falsy(reply.message) ==> text == ToStr(reply.message)
    ensures reply.SendReplied? && Falsy(reply.message) ==> text == SendFailed
    ensures reply.SendThrew? ==> text == reply.error
  {
    match reply
    case SendThrew(error) => error
    case SendReplied(_, message) => ToStr(Or(message, Str(SendFailed)))
  }

  /** The body sent, or a POST that carries none: axios reads a request
      body from `data` and ignores a `body` option. */
  datatype Request = SendNotification(body: Record) | SendWithoutBody

  // ----- handleSend as written, with axios

  /** How `axios(url, config)` settles: a response (axios resolves only on
      a 2xx status) or a rejection carrying its error's message. */
  datatype AxiosReply = AxiosResolved(status: int, data: Value) | AxiosRejected(message: string)

  /** The message of the TypeError that calling a missing method raises. */
  const NoJsonMethod := "response.json is not a function"

  /** What the handler as written reaches for each axios outcome: an axios
      response has no `json` method, so `await response.json()` throws
      before `response.ok` is read; a rejection throws its own error. */
  function AsWrittenReply(r: AxiosReply): (reply: SendReply)
    ensures reply.SendThrew?
    ensures r.AxiosResolved? ==> reply.error == NoJsonMethod
    ensures r.AxiosRejected? ==> reply.error == r.message
  {
    match r
    case AxiosResolved(_, _) => SendThrew(NoJsonMethod)
    case AxiosRejected(message) => SendThrew(message)
  }

  /** No axios outcome reaches the success branch of the handler as written. */
  lemma AsWrittenNeverSucceeds(r: AxiosReply)
    ensures !(AsWrittenReply(r).SendReplied? && AsWrittenReply(r).ok)
    ensures r.AxiosResolved? ==> FailureText(AsWrittenReply(r)) == NoJsonMethod
  {
  }

  class NotificationForm {
    var title: string
    var message: string
    var target: string
    var userId: string
    var date: Option<string>
    var time: Option<string>
    var sending: bool
    var snackbar: Snackbar
    var sent: seq<Request>   // requests issued, oldest first

    /** A form the success path leaves behind. */
    ghost predicate Cleared()
      reads this
    {
      title == "" && message == "" && userId == "" && target == "all"
      && date.None? && time.None?
    }

    constructor ()
      ensures Cleared() && !sending && snackbar == Closed && sent == []
    {
      title := "";
      message := "";
      target := "all";
      userId := "";
      date := None;
      time := None;
      sending := false;
      snackbar := Closed;
      sent := [];
    }

    /** The Send button's `disabled`. For the two targets the select offers
        it is disabled exactly when a send is under way or the gate would
        refuse. */
    function SendDisabled(): (disabled: bool)
      reads this
      ensures target == "all" || target == "single" ==>
                (disabled <==> sending || Rejects(title, message, target, userId))
    {
      sending || title == "" || message == "" || (target == "single" && userId == "")
    }

    /** The part of `handleSend` up to the request: a refused form shows the
        error and sends nothing; otherwise `sending` is set and the body is
        sent. */
    method BeginSend() returns (started: bool)
      requires !sending
      modifies this`sending, this`snackbar, this`sent
      ensures started <==> !Rejects(title, message, target, userId)
      ensures !started ==> !sending && sent == old(sent)
                           && snackbar == Snackbar(true, MissingFields, Error)
      ensures started ==> sending && snackbar == old(snackbar)
                          && sent == old(sent) + [SendNotification(BuildPayload(title, message, target, userId, date, time))]
    {
      if Rejects(title, message, target, userId) {
        snackbar := Snackbar(true, MissingFields, Error);
        return false;
      }
      sending := true;
      sent := sent + [SendNotification(BuildPayload(title, message, target, userId, date, time))];
      return true;
    }

    /** The part after the reply: success resets the form; any other reply
        shows its message; `finally` clears `sending`. */
    method FinishSend(reply: SendReply)
      requires sending
      modifies this
      ensures !sending && sent == old(sent)
      ensures reply.SendReplied? && reply.ok ==>
                Cleared() && snackbar == Snackbar(true, SentMessage, Success)
      ensures !(reply.SendReplied? && reply.ok) ==>
                snackbar == Snackbar(true, FailureText(reply), Error)
                && title == old(title) && message == old(message) && target == old(target)
                && userId == old(userId) && date == old(date) && time == old(time)
    {
      if reply.SendReplied? && reply.ok {
        snackbar := Snackbar(true, SentMessage, Success);
        title := "";
        message := "";
        userId := "";
        target := "all";
        date := None;
        time := None;
      } else {
        snackbar := Snackbar(true, FailureText(reply), Error);
      }
      sending := false;
    }

    /** The whole of `handleSend`: `sending` is false again on every path. */
    method HandleSend(reply: SendReply)
      requires !sending
      modifies this
      ensures !sending
      ensures Rejects(old(title), old(message), old(target), old(userId)) ==>
                sent == old(sent) && snackbar == Snackbar(true, MissingFields, Error)
                && title == old(title) && message == old(message) && target == old(target)
                && userId == old(userId) && date == old(date) && time == old(time)
      ensures !Rejects(old(title), old(message), old(target), old(userId)) ==>
                sent == old(sent) + [SendNotification(BuildPayload(old(title), old(message), old(target),
                                                                   old(userId), old(date), old(time)))]
      ensures !Rejects(old(title), old(message), old(target), old(userId)) && reply.SendReplied? && reply.ok ==>
                Cleared() && snackbar == Snackbar(true, SentMessage, Success)
      ensures !Rejects(old(title), old(message), old(target), old(userId)) && !(reply.SendReplied? && reply.ok) ==>
                snackbar == Snackbar(true, FailureText(reply), Error)
                && title == old(title) && message == old(message) && target == old(target)
                && userId == old(userId) && date == old(date) && time == old(time)
    {
      var started := BeginSend();
      if started {
        FinishSend(reply);
      }
    }

    /** `handleSend` as written: a form that passes the gate sends a POST
        without its body, and whatever the server answers the handler ends
        in its `catch`, showing an error and keeping the form. */
    method HandleSendAsWritten(r: AxiosReply)
      requires !sending
      modifies this
      ensures !sending
      ensures title == old(title) && message == old(message) && target == old(target)
              && userId == old(userId) && date == old(date) && time == old(time)
      ensures Rejects(old(title), old(message), old(target), old(userId)) ==>
                sent == old(sent) && snackbar == Snackbar(true, MissingFields, Error)
      ensures !Rejects(old(title), old(message), old(target), old(userId)) ==>
                sent == old(sent) + [SendWithoutBody]
                && snackbar == Snackbar(true, FailureText(AsWrittenReply(r)), Error)
    {
      if Rejects(title, message, target, userId) {
        snackbar := Snackbar(true, MissingFields, Error);
        return;
      }
      sending := true;
      sent := sent + [SendWithoutBody];
      snackbar := Snackbar(true, FailureText(AsWrittenReply(r)), Error);
      sending := false;
    }

    /** The snackbar's close button: only `open` changes. */
    method CloseSnackbar()
      modifies this`snackbar
      ensures snackbar == old(snackbar).(open := false)
    {
      snackbar := snackbar.(open := false);
    }
  }

  /** A request for a single user always names that user. */
  lemma SingleTargetNamesUser(title: string, message: string, userId: string,
                              date: Option<string>, time: Option<string>)
    requires !Rejects(title, message, "single", userId)
    ensures var body := BuildPayload(title, message, "single", userId, date, time);
            "userId" in body && body["userId"] != Str("")
  {
  }
}
