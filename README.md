# Appointment booking path of a consulting website, modelled in Dafny

The website lets a visitor book a numerology or astrology consultation.
This project models the one part of it with real control logic: the
booking path. It has three pieces.

- **The server endpoint** `POST /api/send-meeting-link` (module `Server`,
  `server.dfy`). It destructures six fields from the JSON body. It answers
  400 unless all six are truthy in the JavaScript sense. Otherwise it builds a
  confirmation mail for the booker and an alert mail for the operator
  mailbox `EMAIL_USER`. It hands them to the mail transport one after the
  other, with no rollback. It answers 200 with the constant meeting link
  `https://meet.google.com/new`, or 500 with the thrown error's message as
  `details`. Unmatched routes get 404. The transport is a `Transport` object.
  It logs every `sendMail` call, failed ones included, and throws on the
  calls its failure schedule names. The method `HandleSendMeetingLink`
  is proved against the function `Handle`, which gives the reply and the
  mails sent for any body, schedule and prior call count.
- **The booking wizard**, the `Appointment` page (module `AppointmentPage`,
  `appointment.dfy`). It is a class with the component's four pieces of
  state: `activeStep`, `error`, `success` and `formData`. Each handler
  method is proved against a function on a `WizardState` value. The UI's
  guards are the predicate `Enabled`: Back is disabled at step 0, and Next
  and Confirm share one slot, so only one of them is shown. `Apply` gives
  each enabled event's effect, and `RunUi` plays a sequence of user events
  through the guards.
- **The meeting-link sender**, the `MeetingLink` component (module
  `MeetingLinkComponent`, `meeting_link.dfy`). It holds a
  `loading`/`success`/`error` flag machine. `handleSendMeetingLink` is split
  at its `await` into `StartSend` and `FinishSend`, so the in-flight state
  can be seen.

Shared modules: `Json` (`json.dfy`) has parsed JSON values, property reads,
JavaScript truthiness, and how `JSON.stringify` drops `undefined` members.
`Http` (`http.dfy`) has the server's `Response`, the browser's view of a
settled `fetch`, and the error message both components take from a failed
reply.

The model keeps the source's quirks:

- `handleNext` and `handleBack` have no bounds of their own. Only the
  disabled Back button stops the step at 0; `handleBack` alone would go
  to -1.
- After a successful booking `handleNext` runs, so the step goes from 2 to
  3. Step 3 has no content, and from there Back and Next are both offered
  again.
- Next and Confirm are the same `<button>` element: the two branches of the
  ternary sit in one place with no `key`, so React keeps the element and
  only changes its props. A click on Next at step 1 runs `handleNext`, and
  React commits step 2, where the element is `type="submit"`, before the
  browser's default action for the click. That action then submits the
  form, and step 2 has no `required` input to stop it. So one click on Next
  at step 1 both advances and posts the booking (`NextOnDetailsSubmits`).
- The required-field check tests the JavaScript truthiness of any JSON
  value. So `0`, `false`, `null` and `""` count as missing, and every array
  and object counts as present.
- Both mail objects are built before the first send, and their templates
  interpolate all six fields. A field with no string form throws a
  TypeError there: an object with a `toString` member, or an array holding
  one. The catch block then answers 500 and no mail is sent.
- The sender's body lacks `phone`, so the server rejects every one of its
  requests (`LinkRequestAlwaysRejected`).

Inputs the code gets from outside are parameters:

- the `EMAIL_USER` mailbox (`Server.Config`);
- the transport's failure schedule;
- the browser's date and time formatting (`AppointmentPage.Locale`);
- the settled result of each `fetch` (`Http.FetchResult`).

## Model

| member | source | states |
|---|---|---|
| `Server.Validate` | server/server.js:43-48 | The request passes exactly when each of `email, name, date, time, service, phone` is truthy, and the accepted booking holds those six values. |
| `Server.MailDocuments` | server/server.js:55-91 | Both mails are from `EMAIL_USER`. The client mail goes to the booker's `email` and the admin mail to `EMAIL_USER`. Both carry name, service, date, time, phone and the meet link. Only the admin mail also carries the booker's email. |
| `Server.MailsRender` | server/server.js:55-91 | Building both mail objects succeeds exactly when all six fields interpolate. A booking of six strings, as both pages send, always renders. |
| `Server.Handle` | server/server.js:45-109 | A missing field gives 400 `{error: 'Missing required fields'}` and no mail. A field the mail templates cannot interpolate gives 500 with the TypeError's message and no mail. Otherwise the client mail is the first call and the admin mail the second. The admin mail is attempted exactly when the first send succeeded. 200 `{message, meetLink}` comes exactly when both succeed. A throwing send is always the last attempted, and 500 carries its message as `details`. |
| `Server.HandleSendMeetingLink` | server/server.js:41-110 | The handler's reply is `Handle`'s. The transport log grows by exactly the mails `Handle` lists, in order. |
| `Server.UnconvertibleFieldFailsBeforeSending` | server/server.js:59-66 | A complete body whose `name` is `{"toString": 1}` gets 500 with the TypeError's message, and no mail reaches the transport. |
| `Server.Transport.SendMail` | server/server.js:94-98 | Each call is appended to the log. It throws with the scheduled message exactly when its call index is in the failure schedule. |
| `Server.ExtraFieldsIgnored` | server/server.js:43 | Two bodies that agree on the six required fields get the same reply and the same mails, so extra members such as `meetingLink` or `message` change nothing. |
| `Server.Route` | server/server.js:119-121 | A request is unmatched, and falls to the 404 handler, exactly when it is not an `OPTIONS` preflight, not `GET`/`HEAD /`, and not `POST /api/send-meeting-link`. Paths match case-insensitively with an optional trailing slash. |
| `Server.Serve` | server/server.js:19-121 | An unmatched request gets 404 `{error: 'Route not found'}`. Only the booking route calls the transport, and there the reply and log are `Handle`'s. |
| `Http.Deliver` | src/pages/Appointment.jsx:98 | The browser sees `response.ok` exactly for the 2xx statuses, with the server's JSON body. |
| `Http.FailureMessage` | src/pages/Appointment.jsx:98-101 | A failed reply shows its `details` when it is a non-empty string, and `'Failed to send meeting link'` otherwise. The message is never empty. |
| `Json.Stringify` | src/pages/Appointment.jsx:88-95 | A serialized body holds exactly the members that were not `undefined`, with their string values. |
| `Json.Truthy` | server/server.js:45 | The JavaScript truthiness the required-field check uses: a read is truthy exactly when the member is present and is not `null`, `false`, `0` or `''`. |
| `Json.Interpolates` | server/server.js:59-66 | Whether `${v}` in a mail template yields text: every string, number, boolean and `null` does; an object with its own `toString` member throws; an array does exactly when all its items do. |
| `AppointmentPage.FormatOptional` | src/pages/Appointment.jsx:67-77 | Formatting a null date or time gives `undefined`. A picked one gives the formatter's text. |
| `AppointmentPage.WithText` | src/pages/Appointment.jsx:45-50 | `handleChange` replaces exactly the named field. Every other text field, the date and the time keep their values. |
| `AppointmentPage.SubmitPayload` | src/pages/Appointment.jsx:88-95 | The posted body's keys are among the six required fields, and all six when date and time are picked. `message` is never sent. `date`/`time` are present exactly when picked. The four text fields are sent as typed. |
| `AppointmentPage.SubmitOutcome` | src/pages/Appointment.jsx:98-111 | The submission succeeds exactly on an ok reply whose body parses. A rejected fetch shows its message. An unparsable body shows the parse error. A non-ok JSON reply shows `details` or the fallback. |
| `AppointmentPage.RenderStepContent` | src/pages/Appointment.jsx:114-244 | Step content is rendered exactly for the indices 0, 1 and 2, and the Confirmation content at step 2. |
| `AppointmentPage.Appointment.constructor` | src/pages/Appointment.jsx:32-43 | The page starts at step 0 with no error, no success, empty text fields and no date or time. |
| `AppointmentPage.Appointment.HandleChange` | src/pages/Appointment.jsx:45-50 | Only `formData` changes, by `WithText`. |
| `AppointmentPage.Appointment.HandleDateChange` | src/pages/Appointment.jsx:177-179 | Only the form's date changes; clearing the picker stores null. |
| `AppointmentPage.Appointment.HandleTimeChange` | src/pages/Appointment.jsx:191-193 | Only the form's time changes. |
| `AppointmentPage.Appointment.HandleNext` | src/pages/Appointment.jsx:52-54 | The step goes up by one, with no bound, and nothing else changes. |
| `AppointmentPage.Appointment.HandleBack` | src/pages/Appointment.jsx:56-58 | The step goes down by one, with no bound, and nothing else changes. |
| `AppointmentPage.Appointment.HandleSubmit` | src/pages/Appointment.jsx:60-112 | It posts `SubmitPayload` of the current draft. The new state is `Submit`: error cleared, then on success `success` is set and the step goes up by one, and on failure the error shows the outcome's message. |
| `AppointmentPage.Enabled` | src/pages/Appointment.jsx:297-320 | Which user events the page offers: Back except at step 0, Next except at step 2, Confirm only at step 2, and a field only on the step that renders it. |
| `AppointmentPage.Apply` | src/pages/Appointment.jsx:294-320 | The effect of an enabled event: a field handler, `handleBack`, `handleSubmit` for Confirm, and for Next `handleNext`, followed by `handleSubmit` when Next is clicked at step 1. |
| `AppointmentPage.RunUi` | src/pages/Appointment.jsx:294-320 | A sequence of user events, each applied when enabled and ignored otherwise. |
| `AppointmentPage.UiKeepsStepInRange` | src/pages/Appointment.jsx:297-320 | Through the guarded buttons the step never goes below 0 and stays at most 2 until a booking succeeds. A recorded success is never withdrawn. |
| `AppointmentPage.ReachableStepInRange` | src/pages/Appointment.jsx:32 | Every state reachable from the initial page keeps those step bounds. |
| `AppointmentPage.BackNextRestores` | src/pages/Appointment.jsx:52-58 | Back then Next, and Next then Back, restore the whole state. Neither touches `formData`. |
| `AppointmentPage.FailedSubmitKeepsDraft` | src/pages/Appointment.jsx:108-111 | A failed submission keeps step, draft and success flag, and shows the failure's message, so the user can resubmit. |
| `AppointmentPage.BookingLeavesTheSteps` | src/pages/Appointment.jsx:106-107 | A successful submission at step 2 sets `success`, clears the error and moves to step 3. Step 3 renders no content, and Back and Next are both offered there. |
| `AppointmentPage.SubmitPayloadAccepted` | server/server.js:45 | The server accepts the page's body exactly when name, email, service and phone are non-empty and a date and a time with non-empty formatted text are picked. |
| `AppointmentPage.IncompleteDraftRejected` | server/server.js:45-47 | An incomplete draft, such as the initial empty one, gets 400 with no mail sent. The 400 has no `details`, so the page shows the fallback message and keeps step and draft. |
| `AppointmentPage.CompleteDraftBooked` | src/pages/Appointment.jsx:60-107 | A complete draft, confirmed at step 2 with a transport that delivers both mails, gets 200 with both mails sent. The page moves to step 3 with `success` set and no error. |
| `AppointmentPage.NextOnDetailsSubmits` | src/pages/Appointment.jsx:294-320 | A click on Next at step 1 also posts the draft. A complete draft with a transport that delivers both mails gets 200 with both mails sent, and the page ends at step 3 with `success` set. An incomplete draft gets 400 with no mail, and the page stays at step 2 with the fallback message. |
| `MeetingLinkComponent.LinkPayload` | src/components/MeetingLink.jsx:41-48 | The sender's body has no keys beyond email, name, date, time, service and `meetingLink`, so never `phone` or `message`. It always has `meetingLink` and the email, name and service as given. `date`/`time` are present exactly when picked, with the formatter's text. |
| `MeetingLinkComponent.LinkOutcome` | src/components/MeetingLink.jsx:51-59 | A send succeeds exactly on an ok reply; the body of an ok reply is not read. A failure shows the fetch error, the `details`/fallback message, or the parse error. |
| `MeetingLinkComponent.Finish` | src/components/MeetingLink.jsx:56-62 | After any reply `loading` is false. `success` becomes true exactly on success. A failure sets the error to its message. |
| `MeetingLinkComponent.MeetingLink.constructor` | src/components/MeetingLink.jsx:14-16 | The component starts not loading, not successful and with no error. |
| `MeetingLinkComponent.MeetingLink.StartSend` | src/components/MeetingLink.jsx:18-49 | Starting a send sets `loading` and clears `error`, and returns `LinkPayload` of the details. |
| `MeetingLinkComponent.MeetingLink.FinishSend` | src/components/MeetingLink.jsx:51-62 | Settling the send gives exactly the state `Finish` describes. |
| `MeetingLinkComponent.CanSend` | src/components/MeetingLink.jsx:85-99 | The send button is on screen and enabled exactly when no send has succeeded and none is in flight. |
| `MeetingLinkComponent.Step` | src/components/MeetingLink.jsx:18-99 | One event: a click starts a send only when `CanSend`, and a reply settles the send in flight. After a success nothing changes, a reply with no send in flight is ignored, and while loading only a reply ends the loading. |
| `MeetingLinkComponent.InFlightBlocksSend` | src/components/MeetingLink.jsx:93 | While a send is in flight the send button is disabled. |
| `MeetingLinkComponent.SuccessIsFinal` | src/components/MeetingLink.jsx:85-99 | After a successful send the button is replaced by the success alert, so while the component stays mounted no later click or reply changes the state. |
| `MeetingLinkComponent.LinkRequestAlwaysRejected` | src/components/MeetingLink.jsx:41-48 | Whatever the details and the transport, the server answers the sender's body with 400 and sends no mail. The component then shows the fallback message and stops loading. |

## Left out

- Express and CORS setup, CORS response headers, `dotenv`, `app.listen` and the nodemailer transport construction are framework plumbing. The transport is the `Transport` object with a failure schedule. The `cors` preflight answer is only a 204 with an empty body in `Serve`.
- The generic error middleware (500 `'Something went wrong!'`) is not modelled. It only fires for faults outside the handler's `try`, such as a malformed JSON body. A request without a JSON body is modelled as an empty object.
- An unset `EMAIL_USER` is not modelled; `Server.Config` always holds a string.
- The HTML text of the two mails and every `console.log` call are left out. A mail is a record of sender, recipient, subject and the interpolated values.
- `toLocaleDateString`/`toLocaleTimeString` are a foreign locale library. They are the two functions of `AppointmentPage.Locale`.
- `fetch`, the production/development URL choice and the network are left out. Each submission takes the settled `FetchResult` as a parameter.
- In the page a submission is one atomic step, so a double submit while a request is in flight is not modelled. That is a concurrency question.
- Reply bodies are modelled as objects of strings, which is all the server writes. A non-string `details`, or a JSON reply that is not an object, is not modelled.
- The JSON round trip between browser and server is taken to be exact for string members.
- The services menu labels, the stepper, the confirmation summary, animations and styling are presentational.
- `MeetingLink` receives the page's `formData` as its props; `StartSend` takes them as a parameter.
- `src/components/Comments.jsx`, `src/context/AuthContext.jsx`, `src/pages/Login.jsx`, `src/pages/Home.jsx`, `src/components/Navbar.jsx`, `src/components/Footer.jsx` and `src/App.jsx` are not part of this model. They are a Firestore comment list, a Google sign-in wrapper and presentational markup.
- `MeetingLinkComponent.SuccessIsFinal`: the component's state lasts for one visit to step 2 only. The page renders it inside the step-2 content, so leaving step 2 unmounts it. Coming back mounts it afresh with `loading`, `success` and `error` at their defaults, so the button shows again. A reply to a send still in flight when it unmounts is dropped. The remount is not modelled.
- `MeetingLinkComponent.LinkRequestAlwaysRejected` assumes the component's relative URL `/api/send-meeting-link` reaches this server, for example through a development proxy. Without one the request goes to the front-end host, and that host's reply is not modelled.
- The TypeError message `Server.ConversionError` is V8's wording; other engines word it differently.
