/** The `Appointment` page: a three-step booking wizard whose state is the
    active step, an error banner, a success flag and the form data. Field
    handlers overwrite one field, Next and Back move the step by one with no
    bound of their own (only the buttons' guards bound them), and a submit
    posts the booking and either records success and advances the step, or
    shows an error and keeps the draft. */
module AppointmentPage {
  import opened Json
  import opened Http
  import Server

  /** A JavaScript `Date`: a time value in milliseconds, or an invalid date. */
  datatype Instant = Instant(millis: int) | InvalidDate

  /** The `en-US` formatting of a date (`toLocaleDateString`) and of a time
      of day (`toLocaleTimeString`), supplied by the browser. */
  datatype Locale = Locale(formatDate: Instant -> string, formatTime: Instant -> string)

  /** Optional chaining `value?.format(...)`: `null` gives `undefined`. */
  function FormatOptional(value: Option<Instant>, format: Instant -> string): (r: Option<string>)
    ensures r.None? <==> value.None?
    ensures value.Some? ==> r == Some(format(value.value))
  {
    match value
    case None => None
    case Some(v) => Some(format(v))
  }

  /** The form's text inputs, by their `name` attribute. */
  datatype TextField = NameField | EmailField | PhoneField | ServiceField | MessageField

  datatype FormData = FormData(
    name: string, email: string, phone: string, service: string,
    date: Option<Instant>, time: Option<Instant>, message: string)

  const EmptyForm := FormData("", "", "", "", None, None, "")

  /** The labels of the stepper: Personal Information, Appointment Details,
      Confirmation. */
  const StepCount := 3
  const LastStep := StepCount - 1

  datatype WizardState = WizardState(activeStep: int, error: Option<string>, success: bool, formData: FormData)

  const InitialState := WizardState(0, None, false, EmptyForm)

  function Text(form: FormData, field: TextField): string
  {
    match field
    case NameField => form.name
    case EmailField => form.email
    case PhoneField => form.phone
    case ServiceField => form.service
    case MessageField => form.message
  }

  /** `{...formData, [name]: value}`: the named field is replaced and every
      other field keeps its value. */
  function WithText(form: FormData, field: TextField, value: string): (r: FormData)
    ensures Text(r, field) == value
    ensures forall g :: g != field ==> Text(r, g) == Text(form, g)
    ensures r.date == form.date && r.time == form.time
  {
    match field
    case NameField => form.(name := value)
    case EmailField => form.(email := value)
    case PhoneField => form.(phone := value)
    case ServiceField => form.(service := value)
    case MessageField => form.(message := value)
  }

  function Change(s: WizardState, field: TextField, value: string): WizardState
  {
    s.(formData := WithText(s.formData, field, value))
  }

  function ChangeDate(s: WizardState, date: Option<Instant>): WizardState
  {
    s.(formData := s.formData.(date := date))
  }

  function ChangeTime(s: WizardState, time: Option<Instant>): WizardState
  {
    s.(formData := s.formData.(time := time))
  }

  function Next(s: WizardState): WizardState
  {
    s.(activeStep := s.activeStep + 1)
  }

  function Back(s: WizardState): WizardState
  {
    s.(activeStep := s.activeStep - 1)
  }

  /** The body `handleSubmit` posts, as the server parses it. */
  function SubmitPayload(form: FormData, locale: Locale): (p: map<string, JsonValue>)
    ensures p.Keys <= Server.RequiredFields
    ensures "message" !in p
    ensures "date" in p <==> form.date.Some?
    ensures "time" in p <==> form.time.Some?
    ensures form.date.Some? && form.time.Some? ==> p.Keys == Server.RequiredFields
    ensures Get(p, "email") == Some(JStr(form.email)) && Get(p, "name") == Some(JStr(form.name))
    ensures Get(p, "service") == Some(JStr(form.service)) && Get(p, "phone") == Some(JStr(form.phone))
    ensures form.date.Some? ==> p["date"] == JStr(locale.formatDate(form.date.value))
    ensures form.time.Some? ==> p["time"] == JStr(locale.formatTime(form.time.value))
  {
    var members := map[
      "email" := Some(form.email),
      "name" := Some(form.name),
      "date" := FormatOptional(form.date, locale.formatDate),
      "time" := FormatOptional(form.time, locale.formatTime),
      "service" := Some(form.service),
      "phone" := Some(form.phone)];
    assert members.Keys == Server.RequiredFields;
    Stringify(members)
  }

  /** How `handleSubmit` reads the reply: a rejected fetch and a non-ok reply
      fail, and so does an ok reply whose body is not JSON, because the page
      parses it for the meeting link. */
  function SubmitOutcome(reply: FetchResult): (o: Outcome)
    ensures o == Done <==> reply.Reply? && reply.ok && reply.body.Parsed?
    ensures reply.NetworkError? ==> o == Failed(reply.message)
    ensures reply.Reply? && reply.body.Unparsable? ==> o == Failed(reply.body.parseError)
    ensures reply.Reply? && !reply.ok && reply.body.Parsed? ==> o == Failed(FailureMessage(reply.body.members))
  {
    match reply
    case NetworkError(m) => Failed(m)
    case Reply(ok, body) =>
      match body
      case Unparsable(e) => Failed(e)
      case Parsed(errorData) => if ok then Done else Failed(FailureMessage(errorData))
  }

  /** The state after one submission: the error is cleared first; on success
      the flag is set and `handleNext` moves the step on; on failure the error
      banner shows the message and step and draft stay for a retry. */
  function Submit(s: WizardState, reply: FetchResult): WizardState
  {
    match SubmitOutcome(reply)
    case Done => Next(s.(error := None, success := true))
    case Failed(m) => s.(error := Some(m))
  }

  /** What `renderStepContent` shows for a step index. */
  datatype StepView = PersonalInformation | AppointmentDetails | Confirmation | NoContent

  function RenderStepContent(step: int): (v: StepView)
    ensures v == NoContent <==> !(0 <= step < StepCount)
    ensures step == LastStep ==> v == Confirmation
  {
    if step == 0 then PersonalInformation
    else if step == 1 then AppointmentDetails
    else if step == 2 then Confirmation
    else NoContent
  }

  /** The component, with the same four pieces of state and handlers. */
  class Appointment {
    var activeStep: int
    var error: Option<string>
    var success: bool
    var formData: FormData

    function State(): WizardState
      reads this
    {
      WizardState(activeStep, error, success, formData)
    }

    constructor ()
      ensures State() == InitialState
    {
      activeStep := 0;
      error := None;
      success := false;
      formData := EmptyForm;
    }

    method HandleChange(field: TextField, value: string)
      modifies this
      ensures State() == Change(old(State()), field, value)
    {
      formData := WithText(formData, field, value);
    }

    /** The date picker's `onChange`; clearing the picker gives `null`. */
    method HandleDateChange(date: Option<Instant>)
      modifies this
      ensures State() == ChangeDate(old(State()), date)
    {
      formData := formData.(date := date);
    }

    method HandleTimeChange(time: Option<Instant>)
      modifies this
      ensures State() == ChangeTime(old(State()), time)
    {
      formData := formData.(time := time);
    }

    method HandleNext()
      modifies this
      ensures State() == Next(old(State()))
    {
      activeStep := activeStep + 1;
    }

    method HandleBack()
      modifies this
      ensures State() == Back(old(State()))
    {
      activeStep := activeStep - 1;
    }

    /** One submission, taken as a single step: it returns the body it posts,
        and `reply` is whatever the fetch of that body settles to. */
    method HandleSubmit(locale: Locale, reply: FetchResult) returns (request: map<string, JsonValue>)
      modifies this
      ensures request == SubmitPayload(old(formData), locale)
      ensures State() == Submit(old(State()), reply)
    {
      error := None;
      request := SubmitPayload(formData, locale);
      match reply {
        case NetworkError(m) =>
          error := Some(m);
        case Reply(ok, body) =>
          if body.Unparsable? {
            error := Some(body.parseError);
          } else if !ok {
            error := Some(FailureMessage(body.members));
          } else {
            success := true;
            HandleNext();
          }
      }
    }
  }

  /** What the user can do on the page. A click on a disabled or absent
      button and typing into a field that is not on screen do nothing. A
      click on Next carries the reply to the submission it may set off (see
      `Apply`). */
  datatype UiEvent =
    | Type(field: TextField, value: string)
    | PickDate(date: Option<Instant>)
    | PickTime(time: Option<Instant>)
    | ClickBack
    | ClickNext(reply: FetchResult)
    | ClickConfirm(reply: FetchResult)

  /** The step whose content holds a text field. */
  function FieldStep(field: TextField): int
  {
    match field
    case NameField => 0
    case EmailField => 0
    case PhoneField => 0
    case ServiceField => 1
    case MessageField => 1
  }

  /** Back is disabled at step 0; at the last step the Confirm button takes
      the place of Next; fields exist only on their own step. */
  predicate Enabled(s: WizardState, e: UiEvent)
  {
    match e
    case Type(field, _) => s.activeStep == FieldStep(field)
    case PickDate(_) => s.activeStep == 1
    case PickTime(_) => s.activeStep == 1
    case ClickBack => s.activeStep != 0
    case ClickNext(_) => s.activeStep != LastStep
    case ClickConfirm(_) => s.activeStep == LastStep
  }

  /** The effect of an enabled event. Next and Confirm are one `<button>`
      element whose props change with the step, so a click on Next at the
      step before the last re-renders that element as the form's submit
      button before the browser's default action for the click runs: the
      form is then submitted too, from the last step. */
  function Apply(s: WizardState, e: UiEvent): WizardState
  {
    match e
    case Type(field, value) => Change(s, field, value)
    case PickDate(d) => ChangeDate(s, d)
    case PickTime(t) => ChangeTime(s, t)
    case ClickBack => Back(s)
    case ClickNext(reply) => if s.activeStep == LastStep - 1 then Submit(Next(s), reply) else Next(s)
    case ClickConfirm(reply) => Submit(s, reply)
  }

  function RunUi(s: WizardState, events: seq<UiEvent>): WizardState
    decreases |events|
  {
    if events == [] then s
    else
      var t := if Enabled(s, events[0]) then Apply(s, events[0]) else s;
      RunUi(t, events[1..])
  }

  /** The step bounds the buttons keep: never below 0, and within the three
      steps until a booking succeeded. */
  ghost predicate StepInvariant(s: WizardState)
  {
    0 <= s.activeStep && (!s.success ==> s.activeStep <= LastStep)
  }

  /** Through the buttons the step stays within the steps before a booking
      succeeds, and a success, once recorded, is never withdrawn. */
  lemma {:induction false} UiKeepsStepInRange(s: WizardState, events: seq<UiEvent>)
    requires StepInvariant(s)
    ensures StepInvariant(RunUi(s, events))
    ensures s.success ==> RunUi(s, events).success
    decreases |events|
  {
    if events != [] {
      var t := if Enabled(s, events[0]) then Apply(s, events[0]) else s;
      assert StepInvariant(t) && (s.success ==> t.success);
      UiKeepsStepInRange(t, events[1..]);
    }
  }

  /** Every state the page reaches from its initial state keeps the bounds. */
  lemma ReachableStepInRange(events: seq<UiEvent>)
    ensures var s := RunUi(InitialState, events);
      0 <= s.activeStep && (!s.success ==> s.activeStep < StepCount)
  {
    UiKeepsStepInRange(InitialState, events);
  }

  /** Back then Next, and Next then Back, restore step and form data. */
  lemma BackNextRestores(s: WizardState)
    ensures Next(Back(s)) == s && Back(Next(s)) == s
    ensures Next(s).formData == s.formData && Back(s).formData == s.formData
  {
  }

  /** A failed submission keeps the step, the draft and the success flag, and
      shows the failure's message. */
  lemma FailedSubmitKeepsDraft(s: WizardState, reply: FetchResult)
    requires SubmitOutcome(reply).Failed?
    ensures var t := Submit(s, reply);
      && t.activeStep == s.activeStep && t.formData == s.formData && t.success == s.success
      && t.error == Some(SubmitOutcome(reply).message)
  {
  }

  /** A successful submission from the Confirmation step moves to index 3,
      past the last step, where no step content is rendered; there Back is
      enabled and Next is offered again. */
  lemma BookingLeavesTheSteps(s: WizardState, reply: FetchResult)
    requires s.activeStep == LastStep && SubmitOutcome(reply) == Done
    ensures var t := Submit(s, reply);
      && t.activeStep == StepCount && t.success && t.error == None
      && t.formData == s.formData
      && RenderStepContent(t.activeStep) == NoContent
      && Enabled(t, ClickBack) && Enabled(t, ClickNext(reply))
  {
  }

  /** A click on Next at the Appointment Details step books the draft at
      once: the page posts it from the Confirmation step, so a complete draft
      with a transport that delivers both mails ends past the last step with
      `success` set, and an incomplete one stays on the Confirmation step
      with the fallback message. */
  lemma NextOnDetailsSubmits(cfg: Server.Config, s: WizardState, locale: Locale,
                             failures: map<nat, string>, before: nat)
    requires s.activeStep == LastStep - 1
    ensures var x := Server.Handle(cfg, SubmitPayload(s.formData, locale), failures, before);
      var t := RunUi(s, [ClickNext(Deliver(x.response))]);
      && (Complete(s.formData, locale) && before !in failures && before + 1 !in failures ==>
            x.response == Server.Booked() && |x.sent| == 2
            && t == s.(activeStep := StepCount, error := None, success := true))
      && (!Complete(s.formData, locale) ==>
            x.sent == [] && t == s.(activeStep := LastStep, error := Some(FallbackMessage)))
  {
    var x := Server.Handle(cfg, SubmitPayload(s.formData, locale), failures, before);
    var e := ClickNext(Deliver(x.response));
    assert RunUi(s, [e]) == RunUi(Apply(s, e), []);
    if Complete(s.formData, locale) && before !in failures && before + 1 !in failures {
      CompleteDraftBooked(cfg, Next(s), locale, failures, before);
    }
    if !Complete(s.formData, locale) {
      IncompleteDraftRejected(cfg, Next(s), locale, failures, before);
    }
  }

  /** The server accepts the page's body exactly when the four text fields
      are filled in and both a date and a time were picked whose formatted
      text is non-empty. */
  predicate Complete(form: FormData, locale: Locale)
  {
    && form.email != "" && form.name != "" && form.service != "" && form.phone != ""
    && form.date.Some? && locale.formatDate(form.date.value) != ""
    && form.time.Some? && locale.formatTime(form.time.value) != ""
  }

  lemma SubmitPayloadAccepted(form: FormData, locale: Locale)
    ensures Server.Validate(SubmitPayload(form, locale)).Some? <==> Complete(form, locale)
  {
  }

  /** A submission with a field missing gets 400 without any mail being sent,
      the 400 body has no `details`, so the page shows the fallback message,
      and the step and draft stay. */
  lemma IncompleteDraftRejected(cfg: Server.Config, s: WizardState, locale: Locale,
                                failures: map<nat, string>, before: nat)
    requires !Complete(s.formData, locale)
    ensures var x := Server.Handle(cfg, SubmitPayload(s.formData, locale), failures, before);
      && x == Server.Exchange(Server.MissingFields(), [])
      && Submit(s, Deliver(x.response)) == s.(error := Some(FallbackMessage))
  {
  }

  /** A complete draft confirmed at the last step, with a transport that
      delivers both mails, is booked: both mails go out and the page shows
      success past the last step. */
  lemma CompleteDraftBooked(cfg: Server.Config, s: WizardState, locale: Locale,
                            failures: map<nat, string>, before: nat)
    requires s.activeStep == LastStep && Complete(s.formData, locale)
    requires before !in failures && before + 1 !in failures
    ensures var x := Server.Handle(cfg, SubmitPayload(s.formData, locale), failures, before);
      && x.response == Server.Booked() && |x.sent| == 2
      && Submit(s, Deliver(x.response)) == s.(activeStep := StepCount, error := None, success := true)
  {
  }
}
