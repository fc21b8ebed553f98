/**
 * app/api/contact/route.ts: the contact relay. A body is checked against the schema,
 * then the honeypot, then the one-hour timestamp window, and only then is an email
 * handed to the mail service. The email-format check, the clock and the mail service
 * are inputs.
 */
module ContactRoute {
  import opened Common
  import opened Strings

  const InvalidFormData := "Invalid form data"
  const InvalidRequest := "Invalid request"
  const RequestExpired := "Request expired"
  const FailedToSend := "Failed to send email"
  const InternalError := "Internal server error"
  const Sender := "noreply@jacobrafal.com"
  const DefaultRecipient := "rafaljacobmatthew@gmail.com"
  const SubjectPrefix := "Portfolio Contact: "
  const OneHour := 60 * 60 * 1000

  /** One member of the JSON body: not sent, `null`, a value of the expected type, or another type. */
  datatype Field<T> = Absent | Null | Given(value: T) | WrongType

  datatype ContactBody = ContactBody(
    name: Field<string>, email: Field<string>, message: Field<string>,
    hp: Field<string>, ts: Field<int>)

  /** What `request.json()` yields: a parse failure, a JSON value that is not an object, or an object. */
  datatype Payload = Unparsable | NotAnObject | Object(body: ContactBody)

  /** The fields once the schema has accepted them; the optional ones may be missing. */
  datatype ContactData = ContactData(name: string, email: string, message: string,
                                     hp: Option<string>, ts: Option<int>)

  datatype Email = Email(from: string, to: seq<string>, subject: string, html: string)

  /** How the mail service answered: with an error, with data (maybe carrying an id), or by throwing. */
  datatype SendOutcome = SendError | Sent(id: Option<string>) | SendThrew

  datatype ContactResponse = Failure(status: int, error: string) | Success(id: Option<string>)

  /** What one POST does: the email it sends, if any, and its response. */
  datatype Handled = Handled(sent: Option<Email>, response: ContactResponse)

  /** `z.string()` with optional length bounds. */
  predicate StringField(f: Field<string>, minLen: nat, maxLen: nat) {
    f.Given? && minLen <= |f.value| <= maxLen
  }

  /** `.optional()`: missing, or present with the expected type (`null` is refused). */
  predicate OptionalField<T>(f: Field<T>) {
    f.Absent? || f.Given?
  }

  function OptionalValue<T>(f: Field<T>): Option<T> {
    if f.Given? then Some(f.value) else None
  }

  /** `contactSchema.safeParse(body)`; `isEmail` stands for zod's email format check. */
  function ParseContact(b: ContactBody, isEmail: string -> bool): (r: Option<ContactData>)
    ensures r.Some? <==>
      StringField(b.name, 1, 100) && b.email.Given? && isEmail(b.email.value)
      && StringField(b.message, 1, 5000) && OptionalField(b.hp) && OptionalField(b.ts)
    ensures r.Some? ==>
      && r.value.name == b.name.value && r.value.email == b.email.value
      && r.value.message == b.message.value
      && 1 <= |r.value.name| <= 100 && 1 <= |r.value.message| <= 5000
  {
    if StringField(b.name, 1, 100) && b.email.Given? && isEmail(b.email.value)
       && StringField(b.message, 1, 5000) && OptionalField(b.hp) && OptionalField(b.ts)
    then Some(ContactData(b.name.value, b.email.value, b.message.value,
                          OptionalValue(b.hp), OptionalValue(b.ts)))
    else None
  }

  /** The honeypot trips when it is present and not blank after trimming. */
  predicate HoneypotTripped(hp: Option<string>)
    ensures HoneypotTripped(hp) <==> hp.Some? && !IsBlank(hp.value)
  {
    hp.Some? && Trim(hp.value) != ""
  }

  function Abs(x: int): (r: nat)
    ensures r == x || r == -x
  {
    if x < 0 then -x else x
  }

  /** A present, non-zero timestamp more than one hour from `now`, either way, is stale. */
  predicate Expired(ts: Option<int>, now: int)
    ensures ts.None? || ts == Some(0) ==> !Expired(ts, now)
    ensures Expired(ts, now) ==> now - ts.value > OneHour || ts.value - now > OneHour
  {
    ts.Some? && ts.value != 0 && Abs(now - ts.value) > OneHour
  }

  /** The window is closed at both ends: exactly one hour passes, one millisecond more does not. */
  lemma ExpiryBoundary(now: int, ts: int)
    requires ts != 0
    ensures !Expired(Some(ts), now) <==> now - OneHour <= ts <= now + OneHour
  {
  }

  /** A whitespace-only honeypot does not trip. */
  lemma BlankHoneypotPasses(hp: string)
    requires IsBlank(hp)
    ensures !HoneypotTripped(Some(hp))
  {
  }

  const HtmlHead := "\n        <h2>New Contact Form Submission</h2>\n        <p><strong>Name:</strong> "
  const HtmlEmail := "</p>\n        <p><strong>Email:</strong> "
  const HtmlMessage := "</p>\n        <p><strong>Message:</strong></p>\n        <p>"
  const HtmlFoot := "</p>\n        <hr>\n        <p><em>Sent from your portfolio contact form</em></p>\n      "

  /** The email the relay sends for accepted data; `contactTo` is `CONTACT_TO`. */
  function ComposeEmail(d: ContactData, contactTo: Option<string>): (e: Email)
    ensures e.from == Sender
    ensures SubjectPrefix <= e.subject && e.subject[|SubjectPrefix|..] == d.name
    ensures contactTo.Some? && contactTo.value != "" ==> e.to == [contactTo.value]
    ensures contactTo.None? || contactTo.value == "" ==> e.to == [DefaultRecipient]
    ensures e.html == HtmlHead + d.name + HtmlEmail + d.email + HtmlMessage
                      + NewlinesToBreaks(d.message) + HtmlFoot
  {
    var to := if contactTo.Some? && contactTo.value != "" then contactTo.value else DefaultRecipient;
    Email(Sender, [to], SubjectPrefix + d.name,
          HtmlHead + d.name + HtmlEmail + d.email + HtmlMessage + NewlinesToBreaks(d.message) + HtmlFoot)
  }

  /**
   * The POST handler. Checks run in the order schema, honeypot, timestamp; the first
   * that fails decides the response and no email is sent. `now` is `Date.now()`.
   */
  function Post(payload: Payload, isEmail: string -> bool, now: int, contactTo: Option<string>,
                outcome: SendOutcome): (h: Handled)
    ensures payload.Unparsable? ==> h == Handled(None, Failure(500, InternalError))
    ensures payload.NotAnObject? ==> h == Handled(None, Failure(400, InvalidFormData))
    ensures payload.Object? ==>
      var d := ParseContact(payload.body, isEmail);
      && (d.None? ==> h == Handled(None, Failure(400, InvalidFormData)))
      && (d.Some? && HoneypotTripped(d.value.hp) ==> h == Handled(None, Failure(400, InvalidRequest)))
      && (d.Some? && !HoneypotTripped(d.value.hp) && Expired(d.value.ts, now) ==>
            h == Handled(None, Failure(400, RequestExpired)))
      && (d.Some? && !HoneypotTripped(d.value.hp) && !Expired(d.value.ts, now) ==>
            h.sent == Some(ComposeEmail(d.value, contactTo)))
    ensures h.sent.Some? ==>
      && (outcome.SendError? ==> h.response == Failure(500, FailedToSend))
      && (outcome.SendThrew? ==> h.response == Failure(500, InternalError))
      && (outcome.Sent? ==> h.response == Success(outcome.id))
    ensures h.response.Success? ==> h.sent.Some?
  {
    match payload
    case Unparsable => Handled(None, Failure(500, InternalError))
    case NotAnObject => Handled(None, Failure(400, InvalidFormData))
    case Object(b) =>
      match ParseContact(b, isEmail)
      case None => Handled(None, Failure(400, InvalidFormData))
      case Some(d) =>
        if HoneypotTripped(d.hp) then Handled(None, Failure(400, InvalidRequest))
        else if Expired(d.ts, now) then Handled(None, Failure(400, RequestExpired))
        else
          var e := Some(ComposeEmail(d, contactTo));
          match outcome
          case SendError => Handled(e, Failure(500, FailedToSend))
          case Sent(id) => Handled(e, Success(id))
          case SendThrew => Handled(e, Failure(500, InternalError))
  }

  /** An email is sent exactly when every check passes. */
  lemma SentIffAllChecksPass(payload: Payload, isEmail: string -> bool, now: int,
                             contactTo: Option<string>, outcome: SendOutcome)
    ensures Post(payload, isEmail, now, contactTo, outcome).sent.Some? <==>
      payload.Object? && ParseContact(payload.body, isEmail).Some?
      && !HoneypotTripped(ParseContact(payload.body, isEmail).value.hp)
      && !Expired(ParseContact(payload.body, isEmail).value.ts, now)
  {
  }
}
