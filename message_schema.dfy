/** The `ticket_messages` table as its migration declares it. `ticket_id` is a plain
    required integer: nothing ties it to a row of `tickets`. */
module MessageSchema {
  import opened Common
  import opened Postgres

  datatype MessageStatus = DRAFT | PUBLISHED
  datatype UserType = CUSTOMER | AGENT

  datatype Message = Message(
    id: int,
    ticketId: int,
    userType: UserType,
    status: MessageStatus,
    text: string,
    createdAt: int,
    updatedAt: int)

  const DefaultMessageStatus: MessageStatus := DRAFT

  /** The row `INSERT INTO ticket_messages (ticket_id, user_type, status, message)`
      creates with serial id `id` at time `now`, or the first NOT NULL column (in table
      order) that the values violate. Only `status` has a default; `ticket_id`,
      `user_type` and `message` must be given. */
  function InsertMessageRow(id: int, ticketId: Column<int>, userType: Column<UserType>,
                            status: Column<MessageStatus>, text: Column<string>,
                            now: int): (r: Result<Message, DbError>)
    ensures r.Ok? <==> ticketId.Value? && userType.Value? && !status.Null? && text.Value?
    ensures !ticketId.Value? ==> r == Err(NotNullViolation("ticket_messages", "ticket_id"))
    ensures ticketId.Value? && userType.Value? && !status.Null? && !text.Value? ==>
      r == Err(NotNullViolation("ticket_messages", "message"))
    ensures r.Ok? ==> var m := r.value;
      && m.id == id && m.ticketId == ticketId.v && m.userType == userType.v
      && m.status == (if status.Value? then status.v else DefaultMessageStatus)
      && m.text == text.v && m.createdAt == now && m.updatedAt == now
  {
    match Required(ticketId, "ticket_messages", "ticket_id")
    case Err(e) => Err(e)
    case Ok(tid) =>
      match Required(userType, "ticket_messages", "user_type")
      case Err(e) => Err(e)
      case Ok(ut) =>
        match Defaulted(status, DefaultMessageStatus, "ticket_messages", "status")
        case Err(e) => Err(e)
        case Ok(st) =>
          match Required(text, "ticket_messages", "message")
          case Err(e) => Err(e)
          case Ok(m) => Ok(Message(id, tid, ut, st, m, now, now))
  }

  function MessageStatusName(s: MessageStatus): string
  {
    match s
    case DRAFT => "DRAFT"
    case PUBLISHED => "PUBLISHED"
  }

  function UserTypeName(u: UserType): string
  {
    match u
    case CUSTOMER => "CUSTOMER"
    case AGENT => "AGENT"
  }
}
