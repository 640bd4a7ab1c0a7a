# HelloHelp dashboard logic, modelled in Dafny

HelloHelp's admin dashboard is a React application. Around its HTTP calls and
JSX, its views hold a few pieces of plain logic:

- the customer page's phone and e-mail validators, its cache-first load and
  its profile PATCH with the `{...customer, ...editData}` merge;
- the agent page's load, merge and display fallbacks;
- the add-agent form's input cleaners and submit checks;
- the push-notification form's gate, request body and reset;
- the record-to-row mappings of the notification history, the recent-calls
  table, the customer list and the call-details page;
- the sorts those tables apply to a response in place;
- the call-analytics card's series selection, totals and toggles.

This project models each of them in Dafny and proves what each promises.

Each view is a class whose fields are the component's state. The
`localStorage` entries a view decides on are fields too: the token of the
customer, agent, call-details and customer-list views is a string, `""` when
absent, and the customer cache is an optional record. The recent-calls table
and the notification history read the token only to put it in a header and
send their request either way, so they hold no token. Each handler is a
method. A network reply is a parameter of the method that receives it. Every
request a view would send is appended to its `sent` field, and every browser
alert to its `alerts` field.

JavaScript values are a small datatype (`JsValues.Value`): `undefined`,
`null`, booleans, integers and strings. A record is a map from property names
to values, and an absent property reads as `undefined`.

The model follows JavaScript's meaning of:

- `||` and `??`;
- truthiness;
- `String(v)` for the values the model has;
- the object spread;
- the `JSON.stringify`/`JSON.parse` round trip that the cache goes through.

The customer page's phone and e-mail expressions are written out as
character-class predicates, and each is proved to accept exactly the strings
its pattern describes (soundness and completeness lemmas). The add-agent
patterns `^\d{10}$` and `^\+?\d{1,5}$` are short enough that the predicates
are those patterns read directly; the lemmas about them relate the patterns
to the input cleaners.

The two sorts (`data.sort((a, b) => key(b) - key(a))`) share one in-place
insertion sort on an `array`. It is proved to leave exactly `SortDesc` of the
input in the array. `SortDesc` is a functional stable sort: it returns a
permutation in non-increasing key order. It is stable because, for every key,
the elements with that key keep their input order, as a stable
`Array.prototype.sort` does.

Modules, one file each:

- `Wrappers`: `Option`, `Result`.
- `Text`: digits, character filters, `slice(0, n)`, capitalisation, `@` counts.
- `JsValues`: the value model.
- `Lookup`: `Array.prototype.find` by stringified id.
- `Sorting`: the in-place sort.
- `Feedback`: snackbars and network replies.
- The views: `CustomerDetails`, `AgentDetails`, `AddAgent`, `SendNotification`,
  `NotificationHistory`, `RecentCalls`, `CallDetails` (with `CallLogs`),
  `CallsChart`, `CustomerList`.

## Model

| member | source | states |
|---|---|---|
| Text.Filter | src/layouts/tables/data/AddAgent.js:98 | `replace(/\D/g, "")`-style filtering keeps only characters of the class and never grows the string |
| Text.FilterAppend | src/layouts/tables/data/AddAgent.js:98 | filtering a concatenation is the concatenation of the filtered parts |
| Text.FilterKeepsAll | src/layouts/tables/data/AddAgent.js:98 | a string made only of kept characters is unchanged by the filter |
| Text.Take | src/layouts/tables/data/AddAgent.js:98 | `slice(0, n)` has length `min(n, length)` and is a prefix of its input |
| Text.Capitalize | src/layouts/tables/data/CustomerList.js:92 | upper-cases the first character, keeps the rest and the length |
| Text.TrimStartDrops | src/layouts/tables/data/CustomerList.js:85 | the whitespace `Number(s)` strips from the front: what remains is a suffix, and everything dropped is whitespace |
| Text.TrimEndDrops | src/layouts/tables/data/CustomerList.js:85 | the same for the end: what remains is a prefix, and everything dropped is whitespace |
| JsValues.Or | src/layouts/notifications/NotificationHistory.js:80 | `v \|\| d` is `d` exactly for falsy `v`, and `v` otherwise |
| JsValues.Coalesce | src/layouts/billing/components/CallDetails/index.js:230 | `v ?? d` is `d` only for `null`/`undefined`; a falsy but present value such as `""` or `0` is kept, where `\|\|` would replace it |
| JsValues.NatToDecimal | src/layouts/dashboard/components/Projects/data/index.js:24 | a number's decimal numeral is non-empty, all digits, with no leading zero except for 0 itself |
| JsValues.DecimalRoundTrip | src/layouts/dashboard/components/Projects/data/index.js:24 | reading back the printed numeral gives the number |
| JsValues.IntToDecimal | src/layouts/tables/data/CustomerList.js:88 | `String(n)` starts with `-` exactly for negative `n` |
| JsValues.ToStr | src/layouts/tables/data/CustomerDetails.js:62 | `String(v)`: "undefined", "null", "true"/"false", a number's decimal numeral, a string itself; its partner is `NumbersPrintApart` |
| JsValues.NumbersPrintApart | src/layouts/tables/data/CustomerDetails.js:62 | distinct numeric ids never compare equal as strings, so `String(c.id) === String(id)` is an exact id match |
| JsValues.Spread | src/layouts/tables/data/CustomerDetails.js:124 | `{...base, ...draft}`: has the keys of both; a draft key reads the draft's value, and any other key reads the base's |
| JsValues.JsonCopy | src/layouts/tables/data/CustomerDetails.js:65 | the stored JSON copy reads the same on every key, drops only `undefined` entries, and is the identity on records that are already JSON-clean |
| Lookup.FindFirst | src/layouts/tables/data/CustomerDetails.js:62 | `find`: none iff no element matches, otherwise the first matching index |
| Lookup.FindById | src/layouts/tables/data/AgentDetails.js:45-46 | the found record's stringified id equals the route id; none iff no record's does |
| Sorting.InsertPermutes | src/layouts/tables/data/CustomerList.js:85 | one insertion step adds exactly the inserted element |
| Sorting.InsertSorted | src/layouts/tables/data/CustomerList.js:85 | one insertion step keeps a non-increasing sequence non-increasing |
| Sorting.SortDescSorts | src/layouts/dashboard/components/Projects/data/index.js:38 | the sorted sequence is a permutation of the input (same length, same multiset) in non-increasing key order |
| Sorting.SortDescIsStable | src/layouts/dashboard/components/Projects/data/index.js:38 | elements with equal keys appear in the sorted sequence in their input order |
| Sorting.SortInPlace | src/layouts/tables/data/CustomerList.js:85 | sorting the array in place leaves in it exactly `SortDesc` of its old contents |
| Sorting.SortDesc | src/layouts/dashboard/components/Projects/data/index.js:38 | the stable descending `sort` as a function: repeated insertion; its properties are `SortDescSorts` and `SortDescIsStable` |
| CustomerDetails.PhoneComplete | src/layouts/tables/data/CustomerDetails.js:26-27 | every string the phone pattern describes (optional `(`, 3 digits, optional `)`, optional `-`/`.`/`●`, 3 digits, optional separator, 4 digits) is accepted |
| CustomerDetails.TenDigitsAccepted | src/layouts/tables/data/CustomerDetails.js:26-27 | a bare ten-digit string is a valid US phone number |
| CustomerDetails.IsValidUSPhone | src/layouts/tables/data/CustomerDetails.js:26-27 | the phone pattern as a predicate; `PhoneSound` and `PhoneComplete` prove it accepts exactly the pattern's strings |
| CustomerDetails.PhoneParts | src/layouts/tables/data/CustomerDetails.js:26-27 | an accepted string splits back into the pattern's seven parts |
| CustomerDetails.PhoneSound | src/layouts/tables/data/CustomerDetails.js:26-27 | every accepted string has the pattern's shape, exactly ten decimal digits and a length from 10 to 14 |
| CustomerDetails.DigitsOfPhone | src/layouts/tables/data/CustomerDetails.js:26-27 | a string of the pattern's shape holds exactly ten digits |
| CustomerDetails.EmailSound | src/layouts/tables/data/CustomerDetails.js:29 | every accepted address has exactly one `@`, no whitespace, a non-empty local part, and after the `@` a `.` with text on both sides |
| CustomerDetails.EmailComplete | src/layouts/tables/data/CustomerDetails.js:29 | every `local@host.tld` with non-empty parts free of whitespace and `@` is accepted |
| CustomerDetails.IsValidEmail | src/layouts/tables/data/CustomerDetails.js:29 | `/^[^\s@]+@[^\s@]+\.[^\s@]+$/` as a predicate; `EmailSound` and `EmailComplete` prove it accepts exactly the pattern's strings |
| CustomerDetails.ProfileCheck | src/layouts/tables/data/CustomerDetails.js:81-108 | the checks run in order (e-mail, then phone if non-empty, then landline if non-empty); each message appears exactly when its check is the first to fail; none appears iff all pass |
| CustomerDetails.NoAtSignRejected | src/layouts/tables/data/CustomerDetails.js:83-90 | an e-mail without `@` always stops the update at the first check |
| CustomerDetails.CustomerDetailsView.constructor | src/layouts/tables/data/CustomerDetails.js:34-42 | initial state: no customer, loading, dialog closed, empty draft, snackbar closed; the stored entry comes back through the JSON round trip |
| CustomerDetails.CustomerDetailsView.Load | src/layouts/tables/data/CustomerDetails.js:41-75 | a cached record is shown with no request, whatever the route id; otherwise no token gives no customer and no request; otherwise one GET, and the customer is the first record whose id matches (none on failure or no match, "Customer not found"), which is then cached |
| CustomerDetails.CustomerDetailsView.FetchCustomer | src/layouts/tables/data/CustomerDetails.js:56-74 | the GET branch: one request, the first matching record on success, cached as a JSON copy; nothing on failure |
| CustomerDetails.CustomerDetailsView.OpenEditor | src/layouts/tables/data/CustomerDetails.js:173-176 | the draft starts as the shown customer and the dialog opens |
| CustomerDetails.CustomerDetailsView.EditField | src/layouts/tables/data/CustomerDetails.js:297-370 | typing into an editable field sets that draft key to the text; every other key is unchanged |
| CustomerDetails.CustomerDetailsView.CloseEditor | src/layouts/tables/data/CustomerDetails.js:375 | Cancel closes the dialog |
| CustomerDetails.CustomerDetailsView.CloseSnackbar | src/layouts/tables/data/CustomerDetails.js:386 | closing the snackbar changes only its `open` flag |
| CustomerDetails.CustomerDetailsView.Update | src/layouts/tables/data/CustomerDetails.js:77-108 | no token: no change and no request; a failed check: its error message and no request; otherwise the draft is PATCHed with the outcome below |
| CustomerDetails.CustomerDetailsView.Patch | src/layouts/tables/data/CustomerDetails.js:110-137 | one PATCH of the draft. "Profile updated successfully" makes the customer `{...old, ...draft}`, caches the same values and closes the dialog with a success message. Any other message leaves customer, cache and dialog as they were and shows a warning; a throw does the same with an error. `saving` is false again afterwards |
| AgentDetails.DetailRow | src/layouts/tables/data/AgentDetails.js:395 | `value \|\| "-"`: the shown value is never falsy; it is the value exactly when that is truthy, else "-" |
| AgentDetails.RoleLabel | src/layouts/tables/data/AgentDetails.js:179 | the role badge shows the role when truthy, else "Agent" |
| AgentDetails.AgentDetailsView.constructor | src/layouts/tables/data/AgentDetails.js:25-30 | initial state: no agent, loading, dialog closed, empty draft |
| AgentDetails.AgentDetailsView.Load | src/layouts/tables/data/AgentDetails.js:32-53 | no token: no agent, not loading, no request ("Agent not found"); otherwise one GET, and the agent is the first record whose id matches, or none |
| AgentDetails.AgentDetailsView.OpenEditor | src/layouts/tables/data/AgentDetails.js:117-120 | the draft starts as the shown agent and the dialog opens |
| AgentDetails.AgentDetailsView.EditField | src/layouts/tables/data/AgentDetails.js:273-376 | typing sets one draft key; every other key is unchanged |
| AgentDetails.AgentDetailsView.CloseEditor | src/layouts/tables/data/AgentDetails.js:380 | Cancel closes the dialog |
| AgentDetails.AgentDetailsView.Update | src/layouts/tables/data/AgentDetails.js:55-83 | no token: nothing; otherwise the draft is PATCHed with no validation. The success message sets the agent to `{...agent, ...draft}`, closes the dialog and alerts success. Any other reply leaves agent and dialog unchanged and alerts its own message |
| AgentDetails.SavedAgentShows | src/layouts/tables/data/AgentDetails.js:71-75 | after a merge, a draft field with a truthy value is what its detail row shows |
| AddAgent.SanitizePhone | src/layouts/tables/data/AddAgent.js:98 | the cleaned phone holds only digits, at most ten: exactly the first `min(10, n)` digits typed, in order |
| AddAgent.SanitizeCountryCode | src/layouts/tables/data/AddAgent.js:105 | the cleaned code holds only digits and `+`, at most five: exactly the first `min(5, n)` of them typed, in order |
| AddAgent.PhoneFixedPoint | src/layouts/tables/data/AddAgent.js:98 | the phone cleaner leaves a value unchanged iff it is at most ten digits |
| AddAgent.SanitizePhoneIdempotent | src/layouts/tables/data/AddAgent.js:98 | cleaning a cleaned phone changes nothing |
| AddAgent.CodeFixedPoint | src/layouts/tables/data/AddAgent.js:105 | the code cleaner leaves a value unchanged iff it is at most five digits and plus signs |
| AddAgent.SanitizeCountryCodeIdempotent | src/layouts/tables/data/AddAgent.js:105 | cleaning a cleaned code changes nothing |
| AddAgent.Cleaned | src/layouts/tables/data/AddAgent.js:94-118 | the value stored for a field: cleaned for phone and country code, raw otherwise; `HandleChange` states it of the form |
| AddAgent.IsTenDigits | src/layouts/tables/data/AddAgent.js:128 | `/^\d{10}$/`: exactly ten decimal digits; `CleanedPhonePasses` relates it to the phone cleaner |
| AddAgent.IsValidCountryCode | src/layouts/tables/data/AddAgent.js:132 | `/^\+?\d{1,5}$/`: an optional `+` and one to five digits; `CleanedCodePasses` relates it to the code cleaner |
| AddAgent.SubmitCheck | src/layouts/tables/data/AddAgent.js:122-135 | the three gates in order: any empty required field, then a phone that is not exactly ten digits, then a code that is not `+?` and 1 to 5 digits; each alert appears exactly when its gate is the first to fail, and none iff all pass |
| AddAgent.RegisterPayload | src/layouts/tables/data/AddAgent.js:139-149 | the register body has exactly the six form fields and `is_agent`, which is `true`; the other values come from the form |
| AddAgent.CleanedPhonePasses | src/layouts/tables/data/AddAgent.js:98-128 | the cleaned phone passes the ten-digit gate iff at least ten digits were typed |
| AddAgent.CleanedCodePasses | src/layouts/tables/data/AddAgent.js:105-132 | a cleaned code passes iff it is neither empty nor a lone `+` and has no `+` after its first character |
| AddAgent.PlusInsideRejected | src/layouts/tables/data/AddAgent.js:105-132 | "1+2" survives the cleaner but fails the submit check |
| AddAgent.ValidCodeKept | src/layouts/tables/data/AddAgent.js:105-132 | a valid code of at most five characters survives the cleaner unchanged |
| AddAgent.AgentForm.constructor | src/layouts/tables/data/AddAgent.js:92 | the form state starts as the `form` prop |
| AddAgent.AgentForm.HandleChange | src/layouts/tables/data/AddAgent.js:94-118 | the typed field becomes the cleaned text for phone and country code and the raw text otherwise; no other field changes; the same text is passed on to `onChange` |
| AddAgent.AgentForm.HandleSubmit | src/layouts/tables/data/AddAgent.js:120-162 | a failed gate alerts its message and sends nothing; otherwise exactly one register request with the payload. A reply closes the form; a throw alerts "Failed to add agent." |
| AddAgent.TypedPhoneAccepted | src/layouts/tables/data/AddAgent.js:94-131 | whatever is typed into the phone input, once ten digits are typed the stored field passes the phone gate |
| SendNotification.BuildPayload | src/layouts/notifications/index.js:61-71 | the body carries title, message and target; `userId` iff the target is "single"; date and time iff both are picked; it is JSON-clean and has no other keys |
| SendNotification.FailureText | src/layouts/notifications/index.js:83-87 | the error text is the server's message when truthy, else "Failed to send notification."; a throw shows its own message |
| SendNotification.NotificationForm.constructor | src/layouts/notifications/index.js:34-41 | the form starts empty with target "all", not sending |
| SendNotification.NotificationForm.SendDisabled | src/layouts/notifications/index.js:209 | for target "all" or "single", the button is disabled exactly when sending or when the gate would refuse |
| SendNotification.NotificationForm.BeginSend | src/layouts/notifications/index.js:47-72 | the gate refuses iff a required field is empty, showing the error with no request; otherwise `sending` is set and exactly one request with the built body is sent |
| SendNotification.NotificationForm.FinishSend | src/layouts/notifications/index.js:73-90 | an ok reply resets title, message and userId to "", target to "all", date and time to none, and shows "Notification sent!"; any other reply keeps the form and shows the failure text; `sending` ends false |
| SendNotification.NotificationForm.HandleSend | src/layouts/notifications/index.js:46-91 | the whole handler: refused forms change only the snackbar; accepted ones send once and then reset or report as above; `sending` is false on every path |
| SendNotification.NotificationForm.CloseSnackbar | src/layouts/notifications/index.js:225 | closing the snackbar changes only its `open` flag |
| SendNotification.NotificationForm.HandleSendAsWritten | src/layouts/notifications/index.js:46-91 | the handler as written with axios: a form past the gate sends a POST without a body and, whatever the reply, keeps the form and shows an error |
| SendNotification.SingleTargetNamesUser | src/layouts/notifications/index.js:47-65 | a request for a single user that passes the gate always names a non-empty user |
| SendNotification.AsWrittenReply | src/layouts/notifications/index.js:58-72 | every axios outcome reaches the handler as a throw: a resolved response has no `json` method, a rejection throws its own error |
| SendNotification.AsWrittenNeverSucceeds | src/layouts/notifications/index.js:58-82 | no axios outcome reaches the success branch; a resolved one shows "response.json is not a function" |
| NotificationHistory.StatusLabel | src/layouts/notifications/NotificationHistory.js:88 | "Sent" iff the status is "success", otherwise "Failed" |
| NotificationHistory.OfferCode | src/layouts/notifications/NotificationHistory.js:87 | `n.data?.offer_code`: the property of an object `data`, `undefined` otherwise; `ToRow` states its `\|\| "-"` fallback |
| NotificationHistory.ToRow | src/layouts/notifications/NotificationHistory.js:78-89 | a falsy campaign id or offer code becomes "-" and a truthy one is kept; recipients is the one-element list of the username; the status is mapped; the other fields are copied |
| NotificationHistory.Transform | src/layouts/notifications/NotificationHistory.js:78 | one row per record, in the same order |
| NotificationHistory.OneRecipientEach | src/layouts/notifications/NotificationHistory.js:41-84 | every row's recipients cell reads "1 user(s)" |
| NotificationHistory.RecipientsLabel | src/layouts/notifications/NotificationHistory.js:41 | `${value.length} user(s)`; `SingleRecipientLabel` and `OneRecipientEach` state what every row shows |
| NotificationHistory.MessageCell | src/layouts/notifications/NotificationHistory.js:53 | a message over 30 characters shows its first 30 and "..." (33 in all); a shorter one shows unchanged |
| NotificationHistory.MessageCellIdempotent | src/layouts/notifications/NotificationHistory.js:53 | a shown message is at most 33 characters, and showing it again changes nothing |
| NotificationHistory.MessageShown | src/layouts/notifications/NotificationHistory.js:50-56 | the cell for any `body`: a string is cut as `MessageCell` says; a number or boolean shows as it is; `null` or `undefined` throws, exactly the nullish case |
| NotificationHistory.SentRows | src/layouts/notifications/NotificationHistory.js:78-88 | a row reads "Sent" exactly when its record's status is "success" |
| NotificationHistory.NotificationHistoryView.constructor | src/layouts/notifications/NotificationHistory.js:63 | the list starts empty, with no request sent |
| NotificationHistory.NotificationHistoryView.Load | src/layouts/notifications/NotificationHistory.js:65-98 | one GET, whether or not a token is stored; a reply replaces the list with its rows; a failure leaves it unchanged |
| RecentCalls.Split | src/layouts/dashboard/components/Projects/data/index.js:22-23 | `secs` is below 60 and `mins·60000 + secs·1000 <= diff < mins·60000 + secs·1000 + 1000` |
| RecentCalls.Diff | src/layouts/dashboard/components/Projects/data/index.js:19-21 | `Math.max(0, end - start)`, 0 when either end is missing; `Duration` states its bracketing |
| RecentCalls.SplitUnique | src/layouts/dashboard/components/Projects/data/index.js:22-23 | that bracketing determines minutes and seconds uniquely |
| RecentCalls.Duration | src/layouts/dashboard/components/Projects/data/index.js:19-24 | a missing end gives 0m 0s; the difference is clamped at 0; otherwise the bracketing above holds for `end - start` |
| RecentCalls.NoDurationText | src/layouts/dashboard/components/Projects/data/index.js:20-21 | a missing start or end, or an end not after the start, reads "0m 0s" |
| RecentCalls.DurationText | src/layouts/dashboard/components/Projects/data/index.js:18-25 | `` `${mins}m ${secs}s` `` of `Duration`; `NoDurationText` states the zero case |
| RecentCalls.DurationExample | src/layouts/dashboard/components/Projects/data/index.js:22-24 | 125.5 seconds reads as 2 minutes 5 seconds |
| RecentCalls.TypeChip | src/layouts/dashboard/components/Projects/data/index.js:56-57 | an audio call's chip is blue, any other call type's is purple |
| RecentCalls.StatusChip | src/layouts/dashboard/components/Projects/data/index.js:64-80 | "accepted" is green, "initiated" yellow, any other status red |
| RecentCalls.ToRow | src/layouts/dashboard/components/Projects/data/index.js:48-99 | caller and receiver names fall back to "-" when falsy; the duration is `getDuration` of the timestamps; the link is `/CallDetails/` followed by the id |
| RecentCalls.Rows | src/layouts/dashboard/components/Projects/data/index.js:48 | one row per log, in the same order |
| RecentCalls.LinksApart | src/layouts/dashboard/components/Projects/data/index.js:91 | two rows link to the same page exactly when their ids print the same |
| RecentCalls.RecentCallsTable.constructor | src/layouts/dashboard/components/Projects/data/index.js:28-29 | no logs, loading, no request sent |
| RecentCalls.RecentCallsTable.Load | src/layouts/dashboard/components/Projects/data/index.js:31-46 | one GET, whether or not a token is stored; the response array is sorted in place to `SortDesc` by start time and kept; a failure gives the empty list; loading ends |
| RecentCalls.RecentCallsTable.TableRows | src/layouts/dashboard/components/Projects/data/index.js:48 | one row per kept log |
| RecentCalls.LoadedTable | src/layouts/dashboard/components/Projects/data/index.js:38-48 | the loaded logs are a permutation of the reply, newest start first, with logs that started together in reply order, and one row each |
| CallDetails.Present | src/layouts/billing/components/CallDetails/index.js:226-258 | meeting id, duration, receiver id, device and notes fall back to "-" exactly when null or undefined, and are otherwise shown as they are; caller id and status are shown as they are |
| CallLogs.StartKey | src/layouts/dashboard/components/Projects/data/index.js:38 | the sort key `new Date(started_at)` in milliseconds, the epoch when missing; `LoadedTable` states the order it gives |
| CallDetails.FalsyButPresentShown | src/layouts/billing/components/CallDetails/index.js:230-234 | a zero duration and an empty meeting id are shown as they are, unlike with `\|\|` |
| CallDetails.TypeStyle | src/layouts/billing/components/CallDetails/index.js:142-146 | a call type has a chip style iff its string form is "audio" or "video", with those entries' colours |
| CallDetails.StatusStyle | src/layouts/billing/components/CallDetails/index.js:147-151 | a status has a chip style iff its string form is "accepted", "initiated" or "ended", with those entries' colours |
| CallDetails.ChipsAgree | src/layouts/billing/components/CallDetails/index.js:142-152 | for the named keys this page and the recent-calls table colour chips alike; another status is red there and unstyled here |
| CallDetails.CallDetailView.constructor | src/layouts/billing/components/CallDetails/index.js:115-118 | no row, loading |
| CallDetails.CallDetailView.Load | src/layouts/billing/components/CallDetails/index.js:120-140 | no token: only loading ends, no request; otherwise one GET, the row is the first log whose id matches, or none on failure or no match |
| CallDetails.NoTokenPage | src/layouts/billing/components/CallDetails/index.js:122-155 | a page without a token ends loaded with no row ("Call not found") and no request |
| CallsChart.ChartData | src/layouts/dashboard/components/Projects/chart/index.js:79 | "day" selects the day series, "week" the week series, any other value the month series |
| CallsChart.ReduceIsSum | src/layouts/dashboard/components/Projects/chart/index.js:82-83 | the `reduce` fold from an accumulator equals the accumulator plus the field's sum |
| CallsChart.Reduce | src/layouts/dashboard/components/Projects/chart/index.js:82-83 | `reduce((sum, item) => sum + field(item), acc)` as a left fold; `ReduceIsSum` ties it to the field's sum |
| CallsChart.SumAppend | src/layouts/dashboard/components/Projects/chart/index.js:82-83 | the sum over joined series is the sum of the sums |
| CallsChart.TotalsOf | src/layouts/dashboard/components/Projects/chart/index.js:82-84 | received and dialed are the sums of their fields over the series, calls their total |
| CallsChart.TotalsAppend | src/layouts/dashboard/components/Projects/chart/index.js:82-84 | totals of joined series add up |
| CallsChart.TwoPointTotals | src/layouts/dashboard/components/Projects/chart/index.js:82-84 | a two-point series of (10, 5) and (3, 2) totals 13, 7 and 20 |
| CallsChart.WeekTotals | src/layouts/dashboard/components/Projects/chart/index.js:61-84 | the week series totals 564 received, 446 dialed, 1010 calls |
| CallsChart.DayTotals | src/layouts/dashboard/components/Projects/chart/index.js:49-84 | the day series totals 133, 99, 232 |
| CallsChart.MonthTotals | src/layouts/dashboard/components/Projects/chart/index.js:71-84 | any range other than day and week totals 2398, 2055, 4453 |
| CallsChart.ChartCard.constructor | src/layouts/dashboard/components/Projects/chart/index.js:33-34 | a line chart over the week |
| CallsChart.ChartCard.CurrentTotals | src/layouts/dashboard/components/Projects/chart/index.js:79-84 | the shown totals are those of the selected series |
| CallsChart.ChartCard.HandleChartTypeChange | src/layouts/dashboard/components/Projects/chart/index.js:36-40 | `null` keeps the chart type and anything else sets it; the totals never change |
| CallsChart.ChartCard.HandleTimeRangeChange | src/layouts/dashboard/components/Projects/chart/index.js:42-46 | `null` keeps the range and the totals; anything else sets the range |
| CallsChart.DefaultTotals | src/layouts/dashboard/components/Projects/chart/index.js:34 | a fresh card shows 564 received, 446 dialed, 1010 calls |
| CustomerList.DisplayName | src/layouts/tables/data/CustomerList.js:92 | a string username is shown capitalised; `null` and `undefined` show "NaN"; a number or boolean throws |
| CustomerList.IdKey | src/layouts/tables/data/CustomerList.js:85 | the sort key ToNumber gives `b.id - a.id`; `IdKeyReadsPrinted` and `IdKeyExamples` state its values |
| CustomerList.IdKeyReadsPrinted | src/layouts/tables/data/CustomerList.js:85 | an id sorts by its value whether it comes as a number or as its decimal string |
| CustomerList.IdKeyExamples | src/layouts/tables/data/CustomerList.js:85 | `" 12 "` is 12, `"-3"` is -3, `"+4"` is 4, `""` and `null` are 0, as `Number` reads them |
| CustomerList.IdCell | src/layouts/tables/data/CustomerList.js:61-66 | the id cell shows `String(id)`, or "-" when that is empty |
| CustomerList.FormatRow | src/layouts/tables/data/CustomerList.js:87-140 | a row exists iff its name does not throw; it shows the display name and links to `/customer/` followed by the id |
| CustomerList.FormatRows | src/layouts/tables/data/CustomerList.js:87 | rows exist iff every customer formats; then one row per customer, in order |
| CustomerList.StringNamesFormat | src/layouts/tables/data/CustomerList.js:87-92 | customers with string names always format, each name's first letter upper-cased |
| CustomerList.CustomerTable.constructor | src/layouts/tables/data/CustomerList.js:69 | the table starts empty, holding the stored token |
| CustomerList.CustomerTable.Load | src/layouts/tables/data/CustomerList.js:71-146 | no token empties the table and sends nothing; otherwise one GET. A reply is sorted in place by id, largest first, and then formatted. A failure, or a name that throws, leaves the rows unchanged |
| CustomerList.LoadedRows | src/layouts/tables/data/CustomerList.js:85-126 | the loaded rows are one per customer of a permutation of the reply in non-increasing id order, each linking to its own customer |

## Left out

- Network: every request is a parameter of the method that receives its reply. Base URLs and headers are not modelled; the model logs which request a view would send.
- Storage: `localStorage` is a field of each view that reads it: the token, and the customer cache. Sign-in and log-out, which write the token, are not part of this model.
- Rendering: JSX, MUI components, avatars, recharts drawing and the Tooltip titles. The notification-history status chip's colours are rendering only. A view's state is what the model keeps, and a `setState` is an immediate assignment.
- Locale and date formatting: `toLocaleDateString`, `toLocaleTimeString`, `formatTime`, dayjs formatting. The recent-calls "Time" column, the notification "Date & Time" column and the call-details start time are not modelled. Timestamps are integer milliseconds.
- `NaN`, `Infinity` and fractional numbers: numbers are integers.
- CustomerList.IdKey: a string id is read only when, once trimmed of whitespace, it is empty or decimal digits with an optional sign. Any other string (`"1e3"`, `"0x1A"`, `"1.5"`, `"Infinity"`) is keyed 0, as is every id that `b.id - a.id` would turn into `NaN`; the JavaScript comparator would return `NaN` there and leave the order to the engine.
- CallLogs.StartKey: a missing `started_at` sorts as the epoch, as `new Date(null)` does. An `undefined` one would give `NaN` in JavaScript.
- Text.Upper: only ASCII letters are upper-cased. String lengths count characters, not UTF-16 code units.
- SendNotification.FinishSend: models the fetch-style handler the code evidently intends (an `ok` flag and the body's `message`); the handler as written with axios is `HandleSendAsWritten`, see "## Findings".
- The notification form's `target` is whatever string is set. The select offers only "all" and "single".
- The `maxLength` and `disabled` attributes of form inputs, and the agent heading's capitalisation.
- AgentList, CallHistory, the tables index, routes, AdminNotification and the commented-out code are not part of this model: they only lay out or render.
- NotificationHistory.MessageCell: takes the message as a string, as the cell's `propTypes` require; `MessageShown` covers the other values `body` can hold.

## Findings

| source | as written | input that shows it | evidently intended | confidence | as-written member | corrected member |
|---|---|---|---|---|---|---|
| src/layouts/notifications/index.js:58-72 | `handleSend` calls `axios` with fetch options (`body`, then `response.json()` and `response.ok`); axios sends no `body` and its response has no `json` method, so every send ends in the `catch` | any form that passes the gate, answered with status 200: the snackbar shows "response.json is not a function" and the form is kept | a fetch-style call whose `ok` reply resets the form and shows "Notification sent!" | not executed | SendNotification.NotificationForm.HandleSendAsWritten | SendNotification.NotificationForm.HandleSend |
