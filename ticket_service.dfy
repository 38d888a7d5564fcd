/** The ticket service: validation and creation of a ticket followed by one
    classification job, the paged ticket list with its metadata, a ticket with its
    messages, and resolution. */
module TicketService {
  import opened Common
  import opened Postgres
  import opened TicketSchema
  import opened MessageSchema
  import opened TicketRepository
  import opened MessageRepository
  import opened Jobs

  /** The fields of a ticket-creation request, each possibly `undefined`. */
  datatype TicketInput = TicketInput(
    subject: Option<string>,
    customerName: Option<string>,
    customerEmail: Option<string>,
    description: Option<string>)

  /** Both the name check and the email check use this text. */
  const NameEmptyMessage: string := "Name can't be empty"
  const DescriptionEmptyMessage: string := "description can't be empty"

  /** The message of the first validation check `createTicket` fails, if any. The
      subject is not checked. */
  function TicketInputError(d: TicketInput): (r: Option<string>)
    ensures r.None? <==> TruthyString(d.customerName) && TruthyString(d.customerEmail) && TruthyString(d.description)
    ensures !TruthyString(d.customerName) || !TruthyString(d.customerEmail) ==> r == Some(NameEmptyMessage)
    ensures TruthyString(d.customerName) && TruthyString(d.customerEmail) && !TruthyString(d.description) ==>
      r == Some(DescriptionEmptyMessage)
  {
    if !TruthyString(d.customerName) then Some(NameEmptyMessage)
    else if !TruthyString(d.customerEmail) then Some(NameEmptyMessage)
    else if !TruthyString(d.description) then Some(DescriptionEmptyMessage)
    else None
  }

  /** `createTicket`. The environment's `REDIS_JOB_FAILED_DELAY` is `delaySeconds`;
      `setupError` is what the `new Queue(...)` construction throws, if anything, and
      `addSucceeds` whether the un-awaited `add` reaches the queue: its failure is
      never seen by the caller. Every error leaves through `throw new Error(error)`
      once more than it entered. */
  method CreateTicket(data: TicketInput, now: int, delaySeconds: Option<int>,
                      setupError: Option<Exception>, addSucceeds: bool,
                      tickets: TicketTable, queue: JobQueue)
    returns (r: Result<Ticket, Exception>)
    requires tickets.Valid()
    modifies tickets, queue
    ensures tickets.Valid()
    ensures TicketInputError(data).Some? ==>
      && r == Err(Rewrap(Error(TicketInputError(data).value)))
      && tickets.rows == old(tickets.rows) && tickets.nextId == old(tickets.nextId)
      && queue.jobs == old(queue.jobs)
    ensures TicketInputError(data).None? ==>
      var inserted := InsertRow(old(tickets.nextId), Bind(data.subject), Bind(data.customerName),
                                Bind(data.customerEmail), Value(OPEN), Bind(data.description), now);
      && tickets.nextId == old(tickets.nextId) + 1
      && tickets.rows == (if inserted.Ok? then old(tickets.rows) + [inserted.value] else old(tickets.rows))
      && (inserted.Err? ==> r == Err(Rewrap(DbException(inserted.error))) && queue.jobs == old(queue.jobs))
      && (inserted.Ok? && setupError.Some? ==>
            r == Err(Rewrap(Rewrap(setupError.value))) && queue.jobs == old(queue.jobs))
      && (inserted.Ok? && setupError.None? ==>
            && r == Ok(inserted.value)
            && queue.jobs == old(queue.jobs) +
                 (if addSucceeds then [Job(ClassifyJobName, inserted.value.id, ClassifyJobOptions(delaySeconds), now)] else []))
  {
    var invalid := TicketInputError(data);
    if invalid.Some? {
      return Err(Rewrap(Error(invalid.value)));
    }
    var inserted := tickets.CreateTicket(data.subject, data.customerName, data.customerEmail, data.description, now);
    if inserted.Err? {
      return Err(Rewrap(DbException(inserted.error)));
    }
    var ticket := inserted.value;
    if setupError.Some? {
      return Err(Rewrap(Rewrap(setupError.value)));
    }
    if addSucceeds {
      queue.Add(ClassifyJobName, ticket.id, ClassifyJobOptions(delaySeconds), now);
    }
    r := Ok(ticket);
  }

  /** `Math.ceil(total / limit)`: a division by zero gives Infinity or NaN, which the
      response carries as a non-number. */
  datatype PageCount = Pages(n: int) | NotFinite

  function TotalPages(total: nat, limit: int): (r: PageCount)
    ensures limit == 0 <==> r == NotFinite
  {
    if limit == 0 then NotFinite
    else if limit > 0 then Pages((total + limit - 1) / limit)
    else Pages(-(total / -limit))
  }

  /** The page count is the least number of `limit`-sized pages that hold every row. */
  lemma TotalPagesIsCeiling(total: nat, limit: int)
    requires limit > 0
    ensures TotalPages(total, limit).Pages?
    ensures var n := TotalPages(total, limit).n;
      && n >= 0 && n * limit >= total
      && (total == 0 ==> n == 0)
      && (total > 0 ==> (n - 1) * limit < total)
  {
    var a := total + limit - 1;
    var n := a / limit;
    var m := a % limit;
    assert a == n * limit + m && 0 <= m < limit;
    assert (n - 1) * limit == n * limit - limit;
    if total == 0 {
      assert a < limit;
      assert n == 0;
    }
  }

  datatype ListMeta = ListMeta(total: TicketCount, totalPages: PageCount, page: int, limit: int)

  datatype TicketList = TicketList(meta: ListMeta, data: seq<Ticket>)

  /** `listTicket` with the already-parsed `page` and `limit`: the count, then the page
      of tickets ordered by creation time. A query error (a negative LIMIT or OFFSET)
      is logged and the result is `undefined`. */
  method ListTicket(page: int, limit: int, tickets: TicketTable) returns (r: Option<TicketList>)
    ensures SelectPage(tickets.rows, true, limit, page).Err? <==> r.None?
    ensures r.Some? ==>
      && r.value.meta == ListMeta(CountOf(tickets.rows), TotalPages(CountValue(CountOf(tickets.rows)), limit), page, limit)
      && r.value.data == SelectPage(tickets.rows, true, limit, page).value
  {
    var count := tickets.CountTickets();
    var meta := ListMeta(count, TotalPages(CountValue(count), limit), page, limit);
    var data := tickets.GetTickets(true, limit, page);
    if data.Err? {
      return None;
    }
    r := Some(TicketList(meta, data.value));
  }

  /** The pages the metadata announces are exactly the non-empty ones: for a positive
      limit, every page from 1 to `totalPages` holds at least one ticket and every
      later page is empty. */
  lemma ListPagesMatchMeta(rows: seq<Ticket>, limit: int, page: int)
    requires limit > 0 && page >= 1
    ensures SelectPage(rows, true, limit, page).Ok?
    ensures var data := SelectPage(rows, true, limit, page).value;
      (|data| > 0 <==> page <= TotalPages(CountValue(CountOf(rows)), limit).n)
  {
    CountValueIsRows(rows);
    OffsetBeforeEndIff(|rows|, limit, page);
    var offset := limit * (page - 1);
    assert offset == (page - 1) * limit;
    MulAtLeastZero(page - 1, limit);
  }

  /** Page `page` starts before the last row exactly when it is one of the
      `totalPages` pages. */
  lemma OffsetBeforeEndIff(total: nat, limit: int, page: int)
    requires limit > 0 && page >= 1
    ensures TotalPages(total, limit).Pages?
    ensures (page - 1) * limit < total <==> page <= TotalPages(total, limit).n
  {
    TotalPagesIsCeiling(total, limit);
    var n := TotalPages(total, limit).n;
    if page <= n {
      MulMonotone(page - 1, n - 1, limit);
    } else {
      MulMonotone(n, page - 1, limit);
    }
  }

  lemma MulAtLeastZero(a: int, c: int)
    requires a >= 0 && c >= 0
    ensures a * c >= 0
  {
  }

  lemma MulMonotone(a: int, b: int, c: int)
    requires a <= b && c >= 0
    ensures a * c <= b * c
  {
    MulAtLeastZero(b - a, c);
    assert b * c == a * c + (b - a) * c;
  }

  /** A ticket together with its messages, as `getTicket` returns it. */
  datatype TicketView = TicketView(ticket: Ticket, messages: seq<Message>)

  /** `getTicket`: the row and, assigned onto it, the messages of that id. A missing
      ticket is `null`, assigning onto it throws, and the caught error makes the
      result `undefined`. */
  method GetTicket(id: int, tickets: TicketTable, messages: MessageTable) returns (r: Option<TicketView>)
    ensures FindTicket(tickets.rows, id).None? ==> r.None?
    ensures FindTicket(tickets.rows, id).Some? ==>
      r == Some(TicketView(FindTicket(tickets.rows, id).value, SelectMessages(messages.rows, Some(id))))
  {
    var ticket := tickets.GetTicket(id);
    var ticketMessages := messages.GetTicketMessages(Some(id));
    if ticket.None? {
      return None;
    }
    r := Some(TicketView(ticket.value, ticketMessages));
  }

  /** A ticket found by `getTicket` carries exactly its own messages: stored ids are
      never 0, so the id always passes the repository's truthiness test. */
  lemma GetTicketMessagesAreOwn(rows: seq<Ticket>, nextId: int, msgs: seq<Message>, id: int)
    requires IdsAscending(rows, nextId)
    requires FindTicket(rows, id).Some?
    ensures FindTicket(rows, id).value.id == id
    ensures forall m :: m in SelectMessages(msgs, Some(id)) <==> m in msgs && m.ticketId == id
  {
    var t := FindTicket(rows, id).value;
    var k :| 0 <= k < |rows| && rows[k] == t;
    assert id >= 1;
  }

  /** `resolveTicket`: the existence check tests the Promise `getTicket(id)` returns,
      which is always truthy, so it never rejects an id; the repository then closes
      every ticket. Nothing here can throw, so the swallowing `catch` never runs. */
  method ResolveTicket(id: int, now: int, tickets: TicketTable) returns (r: Option<Ticket>)
    requires tickets.Valid()
    modifies tickets
    ensures tickets.Valid() && tickets.nextId == old(tickets.nextId)
    ensures tickets.rows == ClosedAll(old(tickets.rows), now)
    ensures r == if |tickets.rows| == 0 then None else Some(tickets.rows[0])
  {
    r := tickets.ResolveTicket(id, now);
  }

  /** Resolving any id closes every ticket, including all the others. */
  lemma ResolveClosesEveryTicket(rows: seq<Ticket>, now: int, other: Ticket)
    requires other in rows
    ensures other.(status := CLOSED, completedAt := Some(now), updatedAt := now) in ClosedAll(rows, now)
  {
    var k :| 0 <= k < |rows| && rows[k] == other;
    assert ClosedAll(rows, now)[k] == other.(status := CLOSED, completedAt := Some(now), updatedAt := now);
  }
}
