/** The `MeetingLink` component shown on the Confirmation step: a
    `loading`/`success`/`error` flag machine around one POST of the
    appointment details. Its body leaves out `phone` and adds an unused
    `meetingLink`, so the server's required-field check turns every one of
    its requests away. */
module MeetingLinkComponent {
  import opened Json
  import opened Http
  import Server
  import AppointmentPage

  /** The link the component sends, which the server never reads. */
  const RequestedLink := "https://meet.google.com/your-meeting-id"

  datatype LinkState = LinkState(loading: bool, success: bool, error: Option<string>)

  const InitialLink := LinkState(false, false, None)

  /** The send button is on screen until a send succeeded, and it is
      disabled while a send is in flight. */
  predicate CanSend(s: LinkState)
  {
    !s.success && !s.loading
  }

  /** The body `handleSendMeetingLink` posts, as the server parses it. */
  function LinkPayload(details: AppointmentPage.FormData, locale: AppointmentPage.Locale): (p: map<string, JsonValue>)
    ensures "phone" !in p && "message" !in p
    ensures Get(p, "meetingLink") == Some(JStr(RequestedLink))
    ensures Get(p, "email") == Some(JStr(details.email)) && Get(p, "name") == Some(JStr(details.name))
    ensures Get(p, "service") == Some(JStr(details.service))
    ensures "date" in p <==> details.date.Some?
    ensures "time" in p <==> details.time.Some?
    ensures details.date.Some? ==> p["date"] == JStr(locale.formatDate(details.date.value))
    ensures details.time.Some? ==> p["time"] == JStr(locale.formatTime(details.time.value))
    ensures p.Keys <= {"email", "name", "date", "time", "service", "meetingLink"}
  {
    Stringify(map[
      "email" := Some(details.email),
      "name" := Some(details.name),
      "date" := AppointmentPage.FormatOptional(details.date, locale.formatDate),
      "time" := AppointmentPage.FormatOptional(details.time, locale.formatTime),
      "service" := Some(details.service),
      "meetingLink" := Some(RequestedLink)])
  }

  /** Starting a send shows the spinner and clears the error banner. */
  function Start(s: LinkState): LinkState
  {
    s.(loading := true, error := None)
  }

  /** How the component reads the reply: unlike the page it does not parse
      an ok reply's body. */
  function LinkOutcome(reply: FetchResult): (o: Outcome)
    ensures o == Done <==> reply.Reply? && reply.ok
    ensures reply.NetworkError? ==> o == Failed(reply.message)
    ensures reply.Reply? && !reply.ok ==>
      o == Failed(match reply.body
                  case Parsed(errorData) => FailureMessage(errorData)
                  case Unparsable(e) => e)
  {
    match reply
    case NetworkError(m) => Failed(m)
    case Reply(ok, body) =>
      if ok then Done
      else match body
           case Parsed(errorData) => Failed(FailureMessage(errorData))
           case Unparsable(e) => Failed(e)
  }

  /** Settling a send: success or the error message, and in both cases
      (`finally`) the spinner stops. */
  function Finish(s: LinkState, reply: FetchResult): (t: LinkState)
    ensures !t.loading
    ensures t.success <==> s.success || LinkOutcome(reply) == Done
    ensures LinkOutcome(reply).Failed? ==> t.error == Some(LinkOutcome(reply).message)
    ensures LinkOutcome(reply) == Done ==> t.error == s.error
  {
    match LinkOutcome(reply)
    case Done => s.(success := true, loading := false)
    case Failed(m) => s.(error := Some(m), loading := false)
  }

  /** The component; `handleSendMeetingLink` is split at its `await` into
      the part before the request and the part after the reply. */
  class MeetingLink {
    var loading: bool
    var success: bool
    var error: Option<string>

    function State(): LinkState
      reads this
    {
      LinkState(loading, success, error)
    }

    constructor ()
      ensures State() == InitialLink
    {
      loading := false;
      success := false;
      error := None;
    }

    /** Up to the `fetch`: returns the body it posts. */
    method StartSend(appointmentDetails: AppointmentPage.FormData, locale: AppointmentPage.Locale)
      returns (request: map<string, JsonValue>)
      modifies this
      ensures request == LinkPayload(appointmentDetails, locale)
      ensures State() == Start(old(State()))
    {
      loading := true;
      error := None;
      request := LinkPayload(appointmentDetails, locale);
    }

    /** From the settled `fetch` to the end of the `finally` block. */
    method FinishSend(reply: FetchResult)
      modifies this
      ensures State() == Finish(old(State()), reply)
    {
      var failure: Option<string> := None;
      match reply {
        case NetworkError(m) =>
          failure := Some(m);
        case Reply(ok, body) =>
          if !ok {
            failure := Some(match body
                            case Parsed(errorData) => FailureMessage(errorData)
                            case Unparsable(e) => e);
          }
      }
      if failure.None? {
        success := true;
      } else {
        error := failure;
      }
      loading := false;
    }
  }

  /** What happens to the component: a click on the send button (only when
      it is on screen and enabled) and the arrival of the reply to the send
      in flight. */
  datatype LinkEvent = ClickSend | ReplyArrives(reply: FetchResult)

  /** One event: a click counts only while the button is enabled, and a
      reply only while a send is in flight. */
  function Step(s: LinkState, e: LinkEvent): (t: LinkState)
    ensures s.success && !s.loading ==> t == s
    ensures !s.loading && e.ReplyArrives? ==> t == s
    ensures s.loading ==> (t.loading <==> e.ClickSend?)
  {
    match e
    case ClickSend => if CanSend(s) then Start(s) else s
    case ReplyArrives(reply) => if s.loading then Finish(s, reply) else s
  }

  function RunLink(s: LinkState, events: seq<LinkEvent>): LinkState
    decreases |events|
  {
    if events == [] then s else RunLink(Step(s, events[0]), events[1..])
  }

  /** While a send is in flight the button is disabled. */
  lemma InFlightBlocksSend(s: LinkState)
    ensures Start(s).loading && !CanSend(Start(s))
  {
  }

  /** Once a send succeeded the button is gone for as long as the component
      stays mounted: no later click or reply changes anything. */
  lemma {:induction false} SuccessIsFinal(s: LinkState, events: seq<LinkEvent>)
    requires s.success && !s.loading
    ensures RunLink(s, events) == s
    decreases |events|
  {
    if events != [] {
      assert Step(s, events[0]) == s;
      SuccessIsFinal(s, events[1..]);
    }
  }

  /** Every request of the component lacks `phone`, so the server answers 400
      and sends no mail, whatever the details and the transport; the 400 body
      has no `details`, so the component shows the fallback message and the
      button comes back. */
  lemma LinkRequestAlwaysRejected(cfg: Server.Config, details: AppointmentPage.FormData,
                                  locale: AppointmentPage.Locale, s: LinkState,
                                  failures: map<nat, string>, before: nat)
    ensures var x := Server.Handle(cfg, LinkPayload(details, locale), failures, before);
      && x == Server.Exchange(Server.MissingFields(), [])
      && Finish(Start(s), Deliver(x.response)) == s.(loading := false, error := Some(FallbackMessage))
  {
  }
}
