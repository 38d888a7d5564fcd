/** The ticket-message service: validation of a new message and the update and
    publish operations, over the message repository. */
module MessageService {
  import opened Common
  import opened Postgres
  import opened MessageSchema
  import opened MessageRepository

  /** The fields of a message-creation request, each possibly `undefined`. `userType`
      is read from the request but plays no part: its check is commented out and the
      repository stores AGENT. */
  datatype MessageInput = MessageInput(userType: Option<string>, message: Option<string>, ticketId: Option<int>)

  /** The text the missing-ticket check throws (it speaks of a name). */
  const TicketIdEmptyMessage: string := "Name can't be empty"
  const MessageEmptyMessage: string := "description can't be empty"

  /** The message of the first validation check `createTicketMessage` fails, if any. */
  function MessageInputError(d: MessageInput): (r: Option<string>)
    ensures r.None? <==> TruthyInt(d.ticketId) && TruthyString(d.message)
    ensures !TruthyInt(d.ticketId) ==> r == Some(TicketIdEmptyMessage)
    ensures TruthyInt(d.ticketId) && !TruthyString(d.message) ==> r == Some(MessageEmptyMessage)
  {
    if !TruthyInt(d.ticketId) then Some(TicketIdEmptyMessage)
    else if !TruthyString(d.message) then Some(MessageEmptyMessage)
    else None
  }

  /** `createTicketMessage`: the two checks, then one insert. Every error leaves
      through `throw new Error(error)`. */
  method CreateTicketMessage(data: MessageInput, now: int, messages: MessageTable)
    returns (r: Result<Message, Exception>)
    requires messages.Valid()
    modifies messages
    ensures messages.Valid()
    ensures MessageInputError(data).Some? ==>
      && r == Err(Rewrap(Error(MessageInputError(data).value)))
      && messages.rows == old(messages.rows) && messages.nextId == old(messages.nextId)
    ensures MessageInputError(data).None? ==>
      && messages.nextId == old(messages.nextId) + 1
      && r.Ok?
      && r.value == Message(old(messages.nextId), data.ticketId.value, AGENT, DRAFT, data.message.value, now, now)
      && messages.rows == old(messages.rows) + [r.value]
  {
    var invalid := MessageInputError(data);
    if invalid.Some? {
      return Err(Rewrap(Error(invalid.value)));
    }
    var inserted := messages.CreateTicketMessage(data.ticketId, data.message, now);
    // Both checked columns are present and the others are fixed, so the insert
    // cannot fail its NOT NULL rules.
    if inserted.Err? {
      assert false;
    }
    r := Ok(inserted.value);
  }

  /** A message created through the service is the last of its ticket's messages,
      and no other ticket's messages change. */
  lemma CreatedMessageJoinsItsTicket(rows: seq<Message>, m: Message, ticketId: int)
    requires ticketId != 0
    ensures SelectMessages(rows + [m], Some(ticketId)) ==
      SelectMessages(rows, Some(ticketId)) + (if m.ticketId == ticketId then [m] else [])
  {
    ForTicketAppend(rows, m, ticketId);
  }

  /** Whatever order the database returns them in, the created message counts once
      among its ticket's messages and the others' messages are as many as before. */
  lemma CreatedMessageCountsOnce(rows: seq<Message>, m: Message, ticketId: int)
    requires ticketId != 0
    ensures multiset(SelectMessages(rows + [m], Some(ticketId))) ==
      multiset(SelectMessages(rows, Some(ticketId))) + (if m.ticketId == ticketId then multiset{m} else multiset{})
  {
    CreatedMessageJoinsItsTicket(rows, m, ticketId);
  }

  /** `updateMessage`: the existence check tests the Promise `getTicketMessage(id)`
      returns, which is always truthy, so it never rejects an id. A query error is
      logged and swallowed; then, as when no row matches, the result is `undefined`. */
  method UpdateMessage(id: int, text: Option<string>, now: int, messages: MessageTable) returns (r: Option<Message>)
    requires messages.Valid()
    modifies messages
    ensures messages.Valid() && messages.nextId == old(messages.nextId)
    ensures FindMessage(old(messages.rows), id).None? ==> r.None? && messages.rows == old(messages.rows)
    ensures FindMessage(old(messages.rows), id).Some? && text.None? ==> r.None? && messages.rows == old(messages.rows)
    ensures FindMessage(old(messages.rows), id).Some? && text.Some? ==>
      && messages.rows == WithText(old(messages.rows), id, text.value, now)
      && r == Some(FindMessage(old(messages.rows), id).value.(text := text.value, updatedAt := now))
  {
    var updated := messages.UpdateMessage(id, text, now);
    if updated.Err? {
      return None;
    }
    if FindMessage(old(messages.rows), id).Some? && text.Some? {
      FindMessageAfterText(old(messages.rows), id, text.value, now);
    }
    r := updated.value;
  }

  /** `publishMessage`: as `updateMessage`, the existence check never fires. The
      published row comes back with its text unchanged; an unknown id gives
      `undefined` and changes nothing. */
  method PublishMessage(id: int, now: int, messages: MessageTable) returns (r: Option<Message>)
    requires messages.Valid()
    modifies messages
    ensures messages.Valid() && messages.nextId == old(messages.nextId)
    ensures messages.rows == WithPublished(old(messages.rows), id, now)
    ensures FindMessage(old(messages.rows), id).None? ==> r.None? && messages.rows == old(messages.rows)
    ensures FindMessage(old(messages.rows), id).Some? ==>
      r == Some(FindMessage(old(messages.rows), id).value.(status := PUBLISHED, updatedAt := now))
  {
    r := messages.PublishMessage(id, now);
    FindMessageAfterPublish(old(messages.rows), id, now);
    if FindMessage(old(messages.rows), id).None? {
      assert messages.rows == old(messages.rows);
    }
  }
}
