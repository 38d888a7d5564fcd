/** The `tickets` table as its migration declares it: three enumerated types, the
    columns, which of them may be NULL, and the defaults a new row takes. */
module TicketSchema {
  import opened Common
  import opened Postgres

  datatype TicketStatus = OPEN | CLOSED
  datatype Urgency = HIGH | MEDIUM | LOW
  datatype Category = BILLING | TECHNICAL | FEATURE_REQUEST

  /** One row of `tickets`. `customerEmail`, `category` and `completedAt` are the
      nullable columns; timestamps are milliseconds. `sentiment` is a plain `int`:
      the table enforces no range. */
  datatype Ticket = Ticket(
    id: int,
    subject: string,
    customerName: string,
    customerEmail: Option<string>,
    status: TicketStatus,
    category: Option<Category>,
    urgency: Urgency,
    sentiment: int,
    description: string,
    createdAt: int,
    updatedAt: int,
    completedAt: Option<int>)

  const DefaultStatus: TicketStatus := OPEN
  const DefaultUrgency: Urgency := LOW
  const DefaultSentiment: int := 1
  const DefaultDescription: string := ""

  /** The row `INSERT INTO tickets (subject, customer_name, customer_email, description,
      status)` creates with serial id `id` at time `now`, or the first NOT NULL column
      (in table order) the values violate. Every column the INSERT does not name takes
      its default: no category, LOW urgency, sentiment 1, both timestamps `now`, not
      completed. */
  function InsertRow(id: int, subject: Column<string>, customerName: Column<string>,
                     customerEmail: Column<string>, status: Column<TicketStatus>,
                     description: Column<string>, now: int): (r: Result<Ticket, DbError>)
    ensures r.Ok? <==> subject.Value? && customerName.Value? && !status.Null? && !description.Null?
    ensures subject.Value? && !customerName.Value? ==> r == Err(NotNullViolation("tickets", "customer_name"))
    ensures !subject.Value? ==> r == Err(NotNullViolation("tickets", "subject"))
    ensures subject.Value? && customerName.Value? && status.Null? ==> r == Err(NotNullViolation("tickets", "status"))
    ensures subject.Value? && customerName.Value? && !status.Null? && description.Null? ==>
      r == Err(NotNullViolation("tickets", "description"))
    ensures r.Ok? ==> var t := r.value;
      && t.id == id && t.subject == subject.v && t.customerName == customerName.v
      && t.customerEmail == (if customerEmail.Value? then Some(customerEmail.v) else None)
      && t.status == (if status.Value? then status.v else DefaultStatus)
      && t.description == (if description.Value? then description.v else DefaultDescription)
      && t.category == None && t.urgency == DefaultUrgency && t.sentiment == DefaultSentiment
      && t.createdAt == now && t.updatedAt == now && t.completedAt == None
  {
    match Required(subject, "tickets", "subject")
    case Err(e) => Err(e)
    case Ok(s) =>
      match Required(customerName, "tickets", "customer_name")
      case Err(e) => Err(e)
      case Ok(n) =>
        match Defaulted(status, DefaultStatus, "tickets", "status")
        case Err(e) => Err(e)
        case Ok(st) =>
          match Defaulted(description, DefaultDescription, "tickets", "description")
          case Err(e) => Err(e)
          case Ok(d) =>
            var email := if customerEmail.Value? then Some(customerEmail.v) else None;
            Ok(Ticket(id, s, n, email, st, None, DefaultUrgency, DefaultSentiment, d, now, now, None))
  }

  /** The enumeration labels as the API serialises them. */
  function StatusName(s: TicketStatus): string
  {
    match s
    case OPEN => "OPEN"
    case CLOSED => "CLOSED"
  }

  function UrgencyName(u: Urgency): string
  {
    match u
    case HIGH => "HIGH"
    case MEDIUM => "MEDIUM"
    case LOW => "LOW"
  }

  function CategoryName(c: Category): string
  {
    match c
    case BILLING => "BILLING"
    case TECHNICAL => "TECHNICAL"
    case FEATURE_REQUEST => "FEATURE_REQUEST"
  }
}
