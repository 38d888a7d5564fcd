/** The public support form: four text fields and the submit state that
    `handleSubmit` drives from idle through submitting to success or error. The
    request itself is I/O: `Submit` returns the body it sends and `Receive` takes
    what the fetch produced. */
module SupportForm {
  import opened Common
  import TicketService

  datatype SubmitStatus = Idle | Submitting | Success | Failure

  datatype SubmitState = SubmitState(status: SubmitStatus, message: string)

  const NotConfiguredMessage: string := "Support API is not configured. Please set NEXT_PUBLIC_TICKETS_API_URL."
  const MissingFieldsMessage: string := "Please fill in all fields before submitting."
  const SubmittedMessage: string := "Your support request has been submitted successfully."
  const InvalidRequestMessage: string := "The request was invalid. Please check your inputs."
  const SubmitFailedMessage: string := "Failed to submit support request."

  /** The JSON body of the POST. */
  datatype TicketRequest = TicketRequest(customerName: string, customerEmail: string, subject: string, description: string)

  /** A 400 response's body as the page reads it: unreadable JSON, or the `message`
      field when it is a string (None for a missing body, a missing field or a field
      of another type). */
  datatype BadRequestBody = Unreadable | Parsed(message: Option<string>)

  /** How the awaited fetch ended: a response with its status (and, for 400, its
      body), or a throw, carrying the message when the thrown value is an `Error`. */
  datatype FetchOutcome = Responded(status: int, body: BadRequestBody) | Threw(errorMessage: Option<string>)

  function UnexpectedStatusMessage(status: int): string
  {
    "Unexpected response from server (status " + IntToString(status) + ")."
  }

  /** Different statuses give different messages, so the status can be read back. */
  lemma UnexpectedStatusMessageInjective(a: int, b: int)
    requires UnexpectedStatusMessage(a) == UnexpectedStatusMessage(b)
    ensures a == b
  {
    var prefix := "Unexpected response from server (status ";
    var sa := IntToString(a);
    var sb := IntToString(b);
    assert |sa| == |UnexpectedStatusMessage(a)| - |prefix| - 2;
    assert |sa| == |sb|;
    assert sa == UnexpectedStatusMessage(a)[|prefix|..|prefix| + |sa|];
    assert sb == UnexpectedStatusMessage(b)[|prefix|..|prefix| + |sb|];
    IntToStringInjective(a, b);
  }

  /** The state the awaited part of `handleSubmit` ends in. */
  function OutcomeState(o: FetchOutcome): (s: SubmitState)
    ensures s.status == Success <==> o.Responded? && o.status == 201
    ensures s.status != Success ==> s.status == Failure
    ensures o.Responded? && o.status == 201 ==> s.message == SubmittedMessage
    ensures o.Responded? && o.status == 400 ==>
      s.message == (if o.body.Parsed? && o.body.message.Some? then o.body.message.value else InvalidRequestMessage)
    ensures o.Responded? && o.status != 201 && o.status != 400 ==> s.message == UnexpectedStatusMessage(o.status)
    ensures o.Threw? ==> s.message == Coalesce(o.errorMessage, SubmitFailedMessage)
  {
    match o
    case Responded(status, body) =>
      if status == 201 then SubmitState(Success, SubmittedMessage)
      else if status == 400 then
        SubmitState(Failure, if body.Parsed? && body.message.Some? then body.message.value else InvalidRequestMessage)
      else SubmitState(Failure, UnexpectedStatusMessage(status))
    case Threw(m) => SubmitState(Failure, Coalesce(m, SubmitFailedMessage))
  }

  class SupportPage {
    var customerName: string
    var customerEmail: string
    var subject: string
    var description: string
    var state: SubmitState

    /** Empty fields, idle. */
    constructor ()
      ensures customerName == "" && customerEmail == "" && subject == "" && description == ""
      ensures state == SubmitState(Idle, "")
    {
      customerName, customerEmail, subject, description := "", "", "", "";
      state := SubmitState(Idle, "");
    }

    /** `isSubmitting`, which also disables the inputs and the button. */
    predicate IsSubmitting()
      reads this
    {
      state.status == Submitting
    }

    /** The synchronous part of `handleSubmit`, given the configured API URL: it
        either ends in an error state and sends nothing, or enters the submitting
        state and sends the four fields. */
    method Submit(apiUrl: Option<string>) returns (sent: Option<TicketRequest>)
      modifies this
      ensures customerName == old(customerName) && customerEmail == old(customerEmail)
      ensures subject == old(subject) && description == old(description)
      ensures !TruthyString(apiUrl) ==> sent.None? && state == SubmitState(Failure, NotConfiguredMessage)
      ensures TruthyString(apiUrl) && (customerName == "" || customerEmail == "" || subject == "" || description == "") ==>
        sent.None? && state == SubmitState(Failure, MissingFieldsMessage)
      ensures sent.Some? <==> TruthyString(apiUrl) && customerName != "" && customerEmail != "" && subject != "" && description != ""
      ensures sent.Some? ==>
        sent.value == TicketRequest(customerName, customerEmail, subject, description) && state == SubmitState(Submitting, "")
      ensures IsSubmitting() <==> sent.Some?
    {
      if !TruthyString(apiUrl) {
        state := SubmitState(Failure, NotConfiguredMessage);
        return None;
      }
      if customerName == "" || customerEmail == "" || subject == "" || description == "" {
        state := SubmitState(Failure, MissingFieldsMessage);
        return None;
      }
      state := SubmitState(Submitting, "");
      sent := Some(TicketRequest(customerName, customerEmail, subject, description));
    }

    /** The awaited part of `handleSubmit`: the state the fetch's outcome gives, and
        on a 201 the four fields are cleared. */
    method Receive(o: FetchOutcome)
      modifies this
      ensures state == OutcomeState(o) && !IsSubmitting()
      ensures o.Responded? && o.status == 201 ==>
        customerName == "" && customerEmail == "" && subject == "" && description == ""
      ensures !(o.Responded? && o.status == 201) ==>
        && customerName == old(customerName) && customerEmail == old(customerEmail)
        && subject == old(subject) && description == old(description)
    {
      state := OutcomeState(o);
      if o.Responded? && o.status == 201 {
        customerName, customerEmail, subject, description := "", "", "", "";
      }
    }
  }

  /** The backend's input for the body the form sends. */
  function AsTicketInput(r: TicketRequest): TicketService.TicketInput
  {
    TicketService.TicketInput(Some(r.subject), Some(r.customerName), Some(r.customerEmail), Some(r.description))
  }

  /** The form's own check is at least as strict as the backend's: a body it sends has
      every field non-empty, so `createTicket` does not reject it. */
  lemma SentRequestPassesValidation(r: TicketRequest)
    requires r.customerName != "" && r.customerEmail != "" && r.subject != "" && r.description != ""
    ensures TicketService.TicketInputError(AsTicketInput(r)).None?
  {
  }
}
