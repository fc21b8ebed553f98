/**
 * components/ContactForm.tsx: the contact form's state. A submission is begun by the
 * submit handler and completed when the request to /api/contact settles.
 */
module ContactForm {
  import opened Common
  import ContactRoute

  const ThankYou := "Thank you for your message! I'll get back to you soon."
  const FailedToSendMessage := "Failed to send message"
  const SomethingWentWrong := "Something went wrong. Please try again."

  datatype FormData = FormData(name: string, email: string, message: string, hp: string)

  /** The `name` attribute of the input that changed. */
  datatype FieldName = Name | EmailField | MessageField | Hp

  datatype StatusKind = NoStatus | SuccessStatus | ErrorStatus
  datatype SubmitStatus = SubmitStatus(kind: StatusKind, message: string)

  /**
   * How the request settles: a response with its `ok` flag and the `error` member of its
   * JSON body, or a throw (from `fetch` or `json()`) carrying an `Error` message, or
   * `None` for a thrown value that is not an `Error`.
   */
  datatype SubmitOutcome = Responded(ok: bool, error: Option<string>) | Threw(message: Option<string>)

  const EmptyForm := FormData("", "", "", "")

  /** The value of one field. */
  function Get(f: FormData, field: FieldName): string {
    match field
    case Name => f.name
    case EmailField => f.email
    case MessageField => f.message
    case Hp => f.hp
  }

  /** The form data with one field replaced: that field reads back the value, the others are kept. */
  function WithField(f: FormData, field: FieldName, value: string): (r: FormData)
    ensures Get(r, field) == value
    ensures forall g :: g != field ==> Get(r, g) == Get(f, g)
  {
    match field
    case Name => f.(name := value)
    case EmailField => f.(email := value)
    case MessageField => f.(message := value)
    case Hp => f.(hp := value)
  }

  /** Setting a field to the value it already has changes nothing. */
  lemma {:induction false} WithFieldSameValue(f: FormData, field: FieldName)
    ensures WithField(f, field, Get(f, field)) == f
  {
    var r := WithField(f, field, Get(f, field));
    assert Get(r, Name) == f.name && Get(r, EmailField) == f.email;
    assert Get(r, MessageField) == f.message && Get(r, Hp) == f.hp;
  }

  /** The JSON body posted: the four fields plus `ts`, which is `null` before the mount effect ran. */
  function RequestBody(f: FormData, timestamp: Option<int>): (b: ContactRoute.ContactBody)
    ensures b.name == ContactRoute.Given(f.name) && b.email == ContactRoute.Given(f.email)
    ensures b.message == ContactRoute.Given(f.message) && b.hp == ContactRoute.Given(f.hp)
    ensures timestamp.None? <==> b.ts == ContactRoute.Null
    ensures timestamp.Some? ==> b.ts == ContactRoute.Given(timestamp.value)
  {
    ContactRoute.ContactBody(ContactRoute.Given(f.name), ContactRoute.Given(f.email),
                             ContactRoute.Given(f.message), ContactRoute.Given(f.hp),
                             if timestamp.Some? then ContactRoute.Given(timestamp.value)
                             else ContactRoute.Null)
  }

  /**
   * A form submitted before the mount effect stored the timestamp sends `ts: null`, which
   * the relay's schema refuses: the reply is 400 "Invalid form data" whatever the fields.
   */
  lemma SubmitBeforeMountIsRefused(f: FormData, isEmail: string -> bool, now: int,
                                   contactTo: Option<string>, outcome: ContactRoute.SendOutcome)
    ensures ContactRoute.Post(ContactRoute.Object(RequestBody(f, None)), isEmail, now, contactTo, outcome)
            == ContactRoute.Handled(None, ContactRoute.Failure(400, ContactRoute.InvalidFormData))
  {
    assert ContactRoute.ParseContact(RequestBody(f, None), isEmail).None?;
  }

  /** A form whose honeypot was left empty never trips the relay's honeypot check. */
  lemma EmptyHoneypotPasses(f: FormData, timestamp: Option<int>, isEmail: string -> bool)
    requires f.hp == ""
    requires ContactRoute.ParseContact(RequestBody(f, timestamp), isEmail).Some?
    ensures !ContactRoute.HoneypotTripped(ContactRoute.ParseContact(RequestBody(f, timestamp), isEmail).value.hp)
  {
  }

  /** The status message after a settled request that failed. */
  function ErrorMessage(outcome: SubmitOutcome): (r: string)
    requires !(outcome.Responded? && outcome.ok)
    ensures outcome.Responded? && outcome.error.Some? && outcome.error.value != "" ==> r == outcome.error.value
    ensures outcome.Responded? && (outcome.error.None? || outcome.error.value == "") ==> r == FailedToSendMessage
    ensures outcome.Threw? && outcome.message.None? ==> r == SomethingWentWrong
    ensures outcome.Threw? && outcome.message.Some? ==> r == outcome.message.value
  {
    match outcome
    case Responded(_, error) => if error.Some? && error.value != "" then error.value else FailedToSendMessage
    case Threw(message) => if message.Some? then message.value else SomethingWentWrong
  }

  class ContactForm {
    var formData: FormData
    var isSubmitting: bool
    var status: SubmitStatus
    var timestamp: Option<int>
    /** The bodies posted to /api/contact, in order. */
    ghost var posted: seq<ContactRoute.ContactBody>

    constructor()
      ensures formData == EmptyForm && !isSubmitting && status == SubmitStatus(NoStatus, "")
      ensures timestamp == None && posted == []
    {
      formData := EmptyForm;
      isSubmitting := false;
      status := SubmitStatus(NoStatus, "");
      timestamp := None;
      posted := [];
    }

    /** The mount effect stores `Date.now()`. */
    method Mount(now: int)
      modifies this`timestamp
      ensures timestamp == Some(now)
    {
      timestamp := Some(now);
    }

    /** `handleChange`: only the named field changes. */
    method HandleChange(field: FieldName, value: string)
      modifies this`formData
      ensures formData == WithField(old(formData), field, value)
    {
      formData := WithField(formData, field, value);
    }

    /**
     * `handleSubmit` up to the request: `isSubmitting` is set, the status cleared, and the
     * fields plus the mount-time `ts` are posted. While a submission is running the submit
     * button is disabled and nothing happens.
     */
    method Submit() returns (started: bool)
      modifies this`isSubmitting, this`status, this`posted
      ensures started <==> !old(isSubmitting)
      ensures started ==>
        && isSubmitting && status == SubmitStatus(NoStatus, "")
        && posted == old(posted) + [RequestBody(formData, timestamp)]
      ensures !started ==> isSubmitting == old(isSubmitting) && status == old(status) && posted == old(posted)
    {
      if isSubmitting {
        return false;
      }
      isSubmitting := true;
      status := SubmitStatus(NoStatus, "");
      posted := posted + [RequestBody(formData, timestamp)];
      started := true;
    }

    /**
     * The request settles. An ok response shows the thank-you text and resets all four
     * fields; anything else shows the error and keeps the fields. `isSubmitting` is false
     * afterwards either way.
     */
    method Complete(outcome: SubmitOutcome)
      requires isSubmitting
      modifies this`isSubmitting, this`status, this`formData
      ensures !isSubmitting
      ensures outcome.Responded? && outcome.ok ==>
        status == SubmitStatus(SuccessStatus, ThankYou) && formData == EmptyForm
      ensures !(outcome.Responded? && outcome.ok) ==>
        status == SubmitStatus(ErrorStatus, ErrorMessage(outcome)) && formData == old(formData)
    {
      if outcome.Responded? && outcome.ok {
        status := SubmitStatus(SuccessStatus, ThankYou);
        formData := EmptyForm;
      } else {
        status := SubmitStatus(ErrorStatus, ErrorMessage(outcome));
      }
      isSubmitting := false;
    }
  }
}
