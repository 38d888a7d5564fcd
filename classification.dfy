/** The classification service: it resolves the model provider, asks it to
    classify a ticket, writes the classification onto the ticket's row and then
    appends the provider's reply as an AGENT draft message. The provider itself is
    an oracle: its reply is a parameter. */
module Classification {
  import opened Common
  import opened Postgres
  import opened TicketSchema
  import opened MessageSchema
  import opened TicketRepository
  import opened MessageRepository

  /** The providers `buildService` can return: the switch has only a `default` arm. */
  datatype Provider = Gemini

  const ProviderNotFoundMessage: string := "Unable to find the LLM model"
  const ClassificationFailedMessage: string := "Classification failed, Will retry again later"

  /** `buildService(provider)`; `loads` says whether loading the provider module
      succeeds. No name is rejected. */
  function BuildService(name: string, loads: bool): (r: Result<Provider, Exception>)
    ensures r.Ok? <==> loads
    ensures r.Ok? ==> r.value == Gemini
    ensures r.Err? ==> r.error == Error(ProviderNotFoundMessage)
  {
    if loads then Ok(Gemini) else Err(Error(ProviderNotFoundMessage))
  }

  /** What the provider's `clasifyTicket` resolves to: the parsed JSON, each field
      absent, `null` or given, or the error it rejects with. The enumerations are
      those of its response schema; the sentiment's range is not checked. */
  datatype ProviderReply =
    | Reply(category: Column<Category>, urgency: Column<Urgency>, sentiment: Column<int>, response: Column<string>)
    | ProviderFailed(error: Exception)

  /** The values `updateTicket` reads from the merged ticket. */
  datatype UpdateArgs = UpdateArgs(id: int, category: Option<Category>, urgency: Option<Urgency>, sentiment: Option<int>)

  /** One field of `_.merge(ticket, reply)`: a given value or `null` overwrites the
      ticket's, an absent one leaves it. */
  function MergeField<T>(c: Column<T>, current: Option<T>): Option<T>
  {
    match c
    case Omitted => current
    case Null => None
    case Value(v) => Some(v)
  }

  function Merge(t: Ticket, reply: ProviderReply): UpdateArgs
    requires reply.Reply?
  {
    UpdateArgs(t.id, MergeField(reply.category, t.category), MergeField(reply.urgency, Some(t.urgency)),
               MergeField(reply.sentiment, Some(t.sentiment)))
  }

  /** The destructured `response`: absent and `null` both reach the query as NULL. */
  function ResponseText(c: Column<string>): (r: Option<string>)
    ensures r.Some? <==> c.Value?
    ensures r.Some? ==> r.value == c.v
  {
    if c.Value? then Some(c.v) else None
  }

  /** The two tables as classification sees them. */
  datatype Store = Store(tickets: seq<Ticket>, messages: seq<Message>, nextMessageId: int)

  datatype ClassifyResult = ClassifyResult(result: Result<(), Exception>, store: Store)

  /** The draft message a successful classification appends. */
  function DraftReply(id: int, ticketId: int, text: string, now: int): Message
  {
    Message(id, ticketId, AGENT, DRAFT, text, now, now)
  }

  /** Whether classification gets as far as the message insert: the provider loads
      and replies, and the UPDATE, when it matches a row, binds no NULL urgency or
      sentiment. Otherwise nothing is written. */
  predicate ReachesInsert(st: Store, ticket: Ticket, reply: ProviderReply, loads: bool)
  {
    && loads && reply.Reply?
    && (FindTicket(st.tickets, ticket.id).Some? ==> Merge(ticket, reply).urgency.Some? && Merge(ticket, reply).sentiment.Some?)
  }

  /** The effect of `clasifyTicket(ticket)` on the tables, given the provider's reply:
      the update runs first and stays when the insert after it fails. */
  function Classify(st: Store, ticket: Ticket, reply: ProviderReply, loads: bool, now: int): (r: ClassifyResult)
    ensures !loads ==> r == ClassifyResult(Err(Error(ProviderNotFoundMessage)), st)
    ensures loads && r.result.Err? ==> r.result.error == Error(ClassificationFailedMessage)
    ensures r.result.Ok? <==> ReachesInsert(st, ticket, reply, loads) && reply.response.Value?
    ensures !ReachesInsert(st, ticket, reply, loads) ==> r.result.Err? && r.store == st
    ensures r.result.Ok? ==>
      r.store.messages == st.messages + [DraftReply(st.nextMessageId, ticket.id, reply.response.v, now)]
    ensures r.result.Err? ==> r.store.messages == st.messages
    ensures ReachesInsert(st, ticket, reply, loads) ==> r.store.nextMessageId == st.nextMessageId + 1
    ensures ReachesInsert(st, ticket, reply, loads) && FindTicket(st.tickets, ticket.id).None? ==> r.store.tickets == st.tickets
    ensures ReachesInsert(st, ticket, reply, loads) && FindTicket(st.tickets, ticket.id).Some? ==>
      r.store.tickets == WithClassification(st.tickets, ticket.id, Merge(ticket, reply).category,
                                            Merge(ticket, reply).urgency.value, Merge(ticket, reply).sentiment.value, now)
    ensures |r.store.tickets| == |st.tickets|
  {
    if !loads then ClassifyResult(Err(Error(ProviderNotFoundMessage)), st)
    else if reply.ProviderFailed? then ClassifyResult(Err(Error(ClassificationFailedMessage)), st)
    else
      var args := Merge(ticket, reply);
      var found := FindTicket(st.tickets, args.id).Some?;
      if found && (args.urgency.None? || args.sentiment.None?) then
        ClassifyResult(Err(Error(ClassificationFailedMessage)), st)
      else
        var tickets := if found
          then WithClassification(st.tickets, args.id, args.category, args.urgency.value, args.sentiment.value, now)
          else st.tickets;
        var inserted := InsertMessageRow(st.nextMessageId, Value(ticket.id), Value(AGENT), Value(DRAFT),
                                         Bind(ResponseText(reply.response)), now);
        if inserted.Err? then ClassifyResult(Err(Error(ClassificationFailedMessage)), Store(tickets, st.messages, st.nextMessageId + 1))
        else ClassifyResult(Ok(()), Store(tickets, st.messages + [inserted.value], st.nextMessageId + 1))
  }

  /** After a successful classification of a stored ticket, its row carries the
      merged classification: the reply's category, urgency and sentiment where the
      reply gives them, the earlier ones where it leaves them out. */
  lemma ClassifiedTicketCarriesReply(st: Store, ticket: Ticket, reply: ProviderReply, loads: bool, now: int)
    requires FindTicket(st.tickets, ticket.id) == Some(ticket)
    requires Classify(st, ticket, reply, loads, now).result.Ok?
    ensures var t := FindTicket(Classify(st, ticket, reply, loads, now).store.tickets, ticket.id);
      && t.Some?
      && t.value.category == MergeField(reply.category, ticket.category)
      && Some(t.value.urgency) == MergeField(reply.urgency, Some(ticket.urgency))
      && Some(t.value.sentiment) == MergeField(reply.sentiment, Some(ticket.sentiment))
      && t.value.updatedAt == now
      && (reply.category.Value? ==> t.value.category == Some(reply.category.v))
      && (reply.urgency.Value? ==> t.value.urgency == reply.urgency.v)
      && (reply.sentiment.Value? ==> t.value.sentiment == reply.sentiment.v)
  {
    var args := Merge(ticket, reply);
    FindAfterClassification(st.tickets, ticket.id, args.category, args.urgency.value, args.sentiment.value, now);
  }

  /** The update is not undone when the message insert fails: a reply with a
      classification but no `response` leaves the ticket classified, adds no
      message, and still consumes a message id. */
  lemma MissingResponseKeepsUpdate(st: Store, ticket: Ticket, reply: ProviderReply, now: int)
    requires FindTicket(st.tickets, ticket.id).Some?
    requires reply.Reply? && reply.urgency.Value? && reply.sentiment.Value? && !reply.response.Value?
    ensures var r := Classify(st, ticket, reply, true, now);
      && r.result == Err(Error(ClassificationFailedMessage))
      && r.store.tickets == WithClassification(st.tickets, ticket.id, MergeField(reply.category, ticket.category),
                                               reply.urgency.v, reply.sentiment.v, now)
      && r.store.messages == st.messages
      && r.store.nextMessageId == st.nextMessageId + 1
  {
  }

  /** A failed classification leaves the ticket in the table and adds no message. */
  lemma FailedClassificationKeepsTicket(st: Store, ticket: Ticket, reply: ProviderReply, loads: bool, now: int)
    requires FindTicket(st.tickets, ticket.id).Some?
    requires Classify(st, ticket, reply, loads, now).result.Err?
    ensures FindTicket(Classify(st, ticket, reply, loads, now).store.tickets, ticket.id).Some?
    ensures Classify(st, ticket, reply, loads, now).store.messages == st.messages
  {
    if loads && reply.Reply? {
      var args := Merge(ticket, reply);
      if args.urgency.Some? && args.sentiment.Some? {
        FindAfterClassification(st.tickets, ticket.id, args.category, args.urgency.value, args.sentiment.value, now);
      }
    }
  }

  /** `clasifyTicket(ticket)` against the two tables. */
  method ClassifyTicket(ticket: Ticket, reply: ProviderReply, loads: bool, now: int,
                        tickets: TicketTable, messages: MessageTable)
    returns (r: Result<(), Exception>)
    requires tickets.Valid() && messages.Valid()
    modifies tickets, messages
    ensures tickets.Valid() && messages.Valid() && tickets.nextId == old(tickets.nextId)
    ensures var c := Classify(Store(old(tickets.rows), old(messages.rows), old(messages.nextId)), ticket, reply, loads, now);
      && r == c.result
      && tickets.rows == c.store.tickets
      && messages.rows == c.store.messages
      && messages.nextId == c.store.nextMessageId
  {
    var service := BuildService("GEMINI", loads);
    if service.Err? {
      return Err(service.error);
    }
    if reply.ProviderFailed? {
      return Err(Error(ClassificationFailedMessage));
    }
    var args := Merge(ticket, reply);
    var updated := tickets.UpdateTicket(args.id, args.category, args.urgency, args.sentiment, now);
    if updated.Err? {
      return Err(Error(ClassificationFailedMessage));
    }
    var inserted := messages.CreateTicketMessage(Some(ticket.id), ResponseText(reply.response), now);
    if inserted.Err? {
      return Err(Error(ClassificationFailedMessage));
    }
    r := Ok(());
  }
}
