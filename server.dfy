/** The booking server: routing, the `POST /api/send-meeting-link` handler
    (required-field check, the two mail documents, two sequential sends with
    no rollback, and the 200/400/500 replies) and the 404 fallback. The mail
    transport is an object that logs every call and throws on the calls its
    failure schedule names. */
module Server {
  import opened Json
  import opened Http

  const MeetLink := "https://meet.google.com/new"
  const RequiredFields: set<string> := {"email", "name", "date", "time", "service", "phone"}
  const MissingFieldsError := "Missing required fields"
  const DispatchError := "Failed to send meeting link"
  const SuccessMessage := "Meeting link sent successfully"
  const ClientSubject := "Your Appointment Details with Vibha Upadhyay"
  const AdminSubject := "New Appointment Booking"
  const RootMessage := "Appointment server is running"
  const NotFoundError := "Route not found"
  /** The message of the TypeError a template literal throws for a value
      that has no primitive form (the V8 wording). */
  const ConversionError := "Cannot convert object to primitive value"

  /** The part of the environment the handler reads: the mailbox `EMAIL_USER`,
      sender of both mails and recipient of the admin mail. */
  datatype Config = Config(emailUser: string)

  /** The six fields of a request that passed the required-field check. */
  datatype Booking = Booking(
    email: JsonValue, name: JsonValue, date: JsonValue,
    time: JsonValue, service: JsonValue, phone: JsonValue)

  /** The destructuring of `req.body` and the check that each of the six
      fields is truthy; no other member of the body is read. */
  function Validate(body: map<string, JsonValue>): (r: Option<Booking>)
    ensures r.Some? <==> forall k :: k in RequiredFields ==> Truthy(Get(body, k))
    ensures r.Some? ==>
      && Get(body, "email") == Some(r.value.email) && Get(body, "name") == Some(r.value.name)
      && Get(body, "date") == Some(r.value.date) && Get(body, "time") == Some(r.value.time)
      && Get(body, "service") == Some(r.value.service) && Get(body, "phone") == Some(r.value.phone)
  {
    var email, name, date := Get(body, "email"), Get(body, "name"), Get(body, "date");
    var time, service, phone := Get(body, "time"), Get(body, "service"), Get(body, "phone");
    if !Truthy(email) || !Truthy(name) || !Truthy(date) || !Truthy(time)
       || !Truthy(service) || !Truthy(phone)
    then None
    else Some(Booking(email.value, name.value, date.value, time.value, service.value, phone.value))
  }

  /** A mail handed to `sendMail`: sender, recipient, subject, and the values
      its HTML template interpolates, keyed by what they are. */
  datatype MailDoc = MailDoc(from: string, to: JsonValue, subject: string, fields: map<string, JsonValue>)

  /** The confirmation sent to the booker. */
  function ClientMail(cfg: Config, b: Booking): MailDoc
  {
    MailDoc(cfg.emailUser, b.email, ClientSubject,
            map["name" := b.name, "service" := b.service, "date" := b.date,
                "time" := b.time, "phone" := b.phone, "meetLink" := JStr(MeetLink)])
  }

  /** The alert sent to the operator mailbox; it also names the booker's email. */
  function AdminMail(cfg: Config, b: Booking): MailDoc
  {
    MailDoc(cfg.emailUser, JStr(cfg.emailUser), AdminSubject,
            map["name" := b.name, "email" := b.email, "phone" := b.phone, "service" := b.service,
                "date" := b.date, "time" := b.time, "meetLink" := JStr(MeetLink)])
  }

  /** Both mails come from `EMAIL_USER`; the client mail goes to the booker
      and the admin mail to `EMAIL_USER`; both carry name, service, date,
      time, phone and the meeting link, and only the admin mail also carries
      the booker's email. */
  lemma MailDocuments(cfg: Config, b: Booking)
    ensures var c, a := ClientMail(cfg, b), AdminMail(cfg, b);
      && c.from == a.from == cfg.emailUser
      && c.to == b.email && a.to == JStr(cfg.emailUser)
      && c.fields.Keys == {"name", "service", "date", "time", "phone", "meetLink"}
      && a.fields.Keys == c.fields.Keys + {"email"}
      && (forall k :: k in c.fields ==> a.fields[k] == c.fields[k])
      && c.fields["meetLink"] == JStr(MeetLink)
      && a.fields["email"] == b.email
  {
  }

  /** Building the two mail objects evaluates their HTML templates, which
      interpolate all six fields; this holds when none of them throws. */
  predicate MailsRender(b: Booking)
    ensures (&& b.email.JStr? && b.name.JStr? && b.date.JStr? && b.time.JStr?
             && b.service.JStr? && b.phone.JStr?) ==> MailsRender(b)
  {
    && Interpolates(b.email) && Interpolates(b.name) && Interpolates(b.date)
    && Interpolates(b.time) && Interpolates(b.service) && Interpolates(b.phone)
  }

  /** The result of one `transporter.sendMail` call. */
  datatype SendResult = Sent | Threw(message: string)

  /** The transport's behaviour on its `k`-th call (counting from 0): it
      throws with the scheduled message, or it delivers. */
  function Attempt(failures: map<nat, string>, k: nat): SendResult
  {
    if k in failures then Threw(failures[k]) else Sent
  }

  /** The mail transport: every call is logged, failed ones included. */
  class Transport {
    var calls: seq<MailDoc>
    const failures: map<nat, string>

    constructor (failures: map<nat, string>)
      ensures calls == [] && this.failures == failures
    {
      calls := [];
      this.failures := failures;
    }

    method SendMail(doc: MailDoc) returns (r: SendResult)
      modifies this
      ensures calls == old(calls) + [doc]
      ensures r == Attempt(failures, |old(calls)|)
    {
      r := Attempt(failures, |calls|);
      calls := calls + [doc];
    }
  }

  function MissingFields(): Response
  {
    Response(400, map["error" := MissingFieldsError])
  }

  function DispatchFailure(message: string): Response
  {
    Response(500, map["error" := DispatchError, "details" := message])
  }

  function Booked(): Response
  {
    Response(200, map["message" := SuccessMessage, "meetLink" := MeetLink])
  }

  /** The reply of one request together with the mails handed to the transport. */
  datatype Exchange = Exchange(response: Response, sent: seq<MailDoc>)

  /** What the handler does with `body` on a transport that has already been
      called `before` times and fails on the calls in `failures`. */
  function Handle(cfg: Config, body: map<string, JsonValue>, failures: map<nat, string>, before: nat): (x: Exchange)
    // a missing field gives 400 and touches no transport
    ensures x.response.status == 400 <==> Validate(body).None?
    ensures Validate(body).None? ==> x == Exchange(MissingFields(), [])
    // a field that cannot be interpolated throws while the mails are built, before any send
    ensures Validate(body).Some? && !MailsRender(Validate(body).value) ==>
      x == Exchange(DispatchFailure(ConversionError), [])
    // otherwise the client mail is sent first, then perhaps the admin mail
    ensures Validate(body).Some? && MailsRender(Validate(body).value) ==>
      var b := Validate(body).value;
      && 1 <= |x.sent| <= 2
      && x.sent[0] == ClientMail(cfg, b)
      && (|x.sent| == 2 ==> x.sent[1] == AdminMail(cfg, b))
      // the admin mail is attempted exactly when the client mail went out
      && (|x.sent| == 2 <==> before !in failures)
    // success needs rendered mails and both sends to succeed
    ensures x.response.status == 200 <==>
      && Validate(body).Some? && MailsRender(Validate(body).value)
      && before !in failures && before + 1 !in failures
    ensures x.response.status == 200 ==> x.response == Booked() && |x.sent| == 2
    // a 500 comes from the templates with nothing sent, or from a throwing
    // send, which is then the last one attempted and whose message is the details
    ensures x.response.status == 500 && x.sent == [] ==> x.response == DispatchFailure(ConversionError)
    ensures x.response.status == 500 && x.sent != [] <==>
      Validate(body).Some? && MailsRender(Validate(body).value) && before + |x.sent| - 1 in failures
    ensures x.response.status == 500 && x.sent != [] ==>
      x.response == DispatchFailure(failures[before + |x.sent| - 1])
    ensures x.response.status in {200, 400, 500}
  {
    match Validate(body)
    case None => Exchange(MissingFields(), [])
    case Some(b) =>
      if !MailsRender(b) then Exchange(DispatchFailure(ConversionError), []) else
      var client, admin := ClientMail(cfg, b), AdminMail(cfg, b);
      match Attempt(failures, before)
      case Threw(m) => Exchange(DispatchFailure(m), [client])
      case Sent =>
        match Attempt(failures, before + 1)
        case Threw(m) => Exchange(DispatchFailure(m), [client, admin])
        case Sent => Exchange(Booked(), [client, admin])
  }

  /** The `POST /api/send-meeting-link` handler. */
  method HandleSendMeetingLink(cfg: Config, body: map<string, JsonValue>, transport: Transport)
    returns (response: Response)
    modifies transport
    ensures var x := Handle(cfg, body, transport.failures, |old(transport.calls)|);
      response == x.response && transport.calls == old(transport.calls) + x.sent
  {
    var booking := Validate(body);
    if booking.None? {
      return MissingFields();
    }
    var b := booking.value;
    if !MailsRender(b) {
      return DispatchFailure(ConversionError);
    }
    var clientMailOptions := ClientMail(cfg, b);
    var adminMailOptions := AdminMail(cfg, b);
    var clientInfo := transport.SendMail(clientMailOptions);
    if clientInfo.Threw? {
      return DispatchFailure(clientInfo.message);
    }
    var adminInfo := transport.SendMail(adminMailOptions);
    if adminInfo.Threw? {
      return DispatchFailure(adminInfo.message);
    }
    response := Booked();
  }

  /** A complete body whose `name` is `{"toString": 1}` is answered 500
      with the TypeError's message, and no mail is handed to the transport,
      because the client template throws before the first send. */
  lemma UnconvertibleFieldFailsBeforeSending(cfg: Config, failures: map<nat, string>, before: nat)
    ensures var body := map[
        "email" := JStr("a@x.com"), "name" := JObject(map["toString" := JNum(1.0)]),
        "date" := JStr("January 5, 2025"), "time" := JStr("02:00 PM"),
        "service" := JStr("numerology"), "phone" := JStr("555")];
      Handle(cfg, body, failures, before) == Exchange(DispatchFailure(ConversionError), [])
  {
  }

  /** Only the six required fields of the body matter: two bodies that agree
      on them get the same reply and the same mails. */
  lemma ExtraFieldsIgnored(cfg: Config, b1: map<string, JsonValue>, b2: map<string, JsonValue>,
                           failures: map<nat, string>, before: nat)
    requires forall k :: k in RequiredFields ==> Get(b1, k) == Get(b2, k)
    ensures Handle(cfg, b1, failures, before) == Handle(cfg, b2, failures, before)
  {
  }

  /** Where the application sends a request. The `cors` middleware answers
      every `OPTIONS` request before any route; Express matches paths without
      regard to ASCII case and with an optional trailing slash, and serves
      `HEAD` with the `GET` route. */
  datatype Endpoint = Preflight | Root | SendMeetingLink | NotFound

  function LowerAscii(c: char): char
  {
    if 'A' <= c <= 'Z' then (c as int - 'A' as int + 'a' as int) as char else c
  }

  /** Whether an Express route path (non-strict, case-insensitive) matches
      `path`; `route` is given lower-case and without its trailing slash, so
      the root route `/` is written `""`. */
  predicate RouteMatches(route: string, path: string)
  {
    var lowered := seq(|path|, i requires 0 <= i < |path| => LowerAscii(path[i]));
    lowered == route || lowered == route + "/"
  }

  function Route(verb: string, path: string): (e: Endpoint)
    ensures e == NotFound <==>
      verb != "OPTIONS"
      && !((verb == "GET" || verb == "HEAD") && RouteMatches("", path))
      && !(verb == "POST" && RouteMatches("/api/send-meeting-link", path))
    ensures e == SendMeetingLink <==> verb == "POST" && RouteMatches("/api/send-meeting-link", path)
  {
    if verb == "OPTIONS" then Preflight
    else if (verb == "GET" || verb == "HEAD") && RouteMatches("", path) then Root
    else if verb == "POST" && RouteMatches("/api/send-meeting-link", path) then SendMeetingLink
    else NotFound
  }

  /** The whole application on one request. */
  method Serve(cfg: Config, verb: string, path: string, body: map<string, JsonValue>, transport: Transport)
    returns (response: Response)
    modifies transport
    ensures Route(verb, path) != SendMeetingLink ==> transport.calls == old(transport.calls)
    ensures Route(verb, path) == NotFound ==> response == Response(404, map["error" := NotFoundError])
    ensures Route(verb, path) == SendMeetingLink ==>
      var x := Handle(cfg, body, transport.failures, |old(transport.calls)|);
      response == x.response && transport.calls == old(transport.calls) + x.sent
  {
    match Route(verb, path)
    case Preflight => response := Response(204, map[]);
    case Root => response := Response(200, map["message" := RootMessage]);
    case SendMeetingLink => response := HandleSendMeetingLink(cfg, body, transport);
    case NotFound => response := Response(404, map["error" := NotFoundError]);
  }
}
