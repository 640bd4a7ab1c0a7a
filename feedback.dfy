/** The transient messages the views show after an action (MUI snackbars and
    browser alerts), and the replies the network can give. */
module Feedback {
  import opened JsValues

  datatype Severity = Success | Warning | Error

  datatype Snackbar = Snackbar(open: bool, message: string, severity: Severity)

  const Closed := Snackbar(false, "", Success)

  /** The outcome of a GET of a collection: the `.then` branch with the
      response body, or the `.catch` branch. */
  datatype Fetch<T> = Failed | Fetched(data: T)

  /** The outcome of a profile PATCH: `response.data?.message`, or a throw. */
  datatype PatchReply = PatchThrew | PatchReplied(message: Value)

  const ProfileUpdated := "Profile updated successfully"
}
