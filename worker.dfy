/** The handler the `ticket-tasks` worker runs for each job: it loads the ticket,
    stops when the ticket already has messages or the job has expired, and
    otherwise classifies it. Returning acknowledges the job; throwing makes the
    queue retry it. */
module Worker {
  import opened Common
  import opened TicketSchema
  import opened MessageSchema
  import opened TicketRepository
  import opened MessageRepository
  import opened Jobs
  import TicketService
  import opened Classification

  /** How one run of the handler ends. All but `Failed` return (acknowledge); the
      queue retries a `Failed` job. */
  datatype JobOutcome =
    | NotHandled              // a job of another name: the handler does nothing
    | Stopped                 // a guard fired
    | Completed               // the ticket was classified
    | Failed(error: Exception)

  /** Reading `.messages` of the `undefined` that `getTicket` gives for a missing
      ticket. */
  const MissingTicketError: Exception := Exception("TypeError", "Cannot read properties of undefined (reading 'messages')")

  /** The guard: the ticket already has messages, or more than the expiry window
      (seconds) has passed since the job was added. With the window unset the
      product is NaN and the comparison is false. */
  predicate ShouldStop(messageCount: nat, now: int, timestamp: int, expirySeconds: Option<int>)
  {
    messageCount > 0 || (expirySeconds.Some? && now - timestamp > expirySeconds.value * 1000)
  }

  datatype HandleResult = HandleResult(outcome: JobOutcome, store: Store)

  /** The effect of handling `job` at time `now`, given whether the provider module
      loads and what the provider replies. */
  function Handle(job: Job, now: int, expirySeconds: Option<int>, loads: bool, reply: ProviderReply, st: Store): (r: HandleResult)
    ensures job.name != ClassifyJobName ==> r == HandleResult(NotHandled, st)
    ensures job.name == ClassifyJobName && FindTicket(st.tickets, job.ticketId).None? ==>
      r == HandleResult(Failed(MissingTicketError), st)
    ensures (
      && job.name == ClassifyJobName && FindTicket(st.tickets, job.ticketId).Some?
      && ShouldStop(|SelectMessages(st.messages, Some(job.ticketId))|, now, job.timestamp, expirySeconds)) ==>
      r == HandleResult(Stopped, st)
    ensures (
      && job.name == ClassifyJobName && FindTicket(st.tickets, job.ticketId).Some?
      && !ShouldStop(|SelectMessages(st.messages, Some(job.ticketId))|, now, job.timestamp, expirySeconds)) ==>
      var c := Classify(st, FindTicket(st.tickets, job.ticketId).value, reply, loads, now);
      && r.store == c.store
      && (c.result.Ok? ==> r.outcome == Completed)
      && (c.result.Err? ==> r.outcome == Failed(c.result.error))
  {
    if job.name != ClassifyJobName then HandleResult(NotHandled, st)
    else
      var ticket := FindTicket(st.tickets, job.ticketId);
      if ticket.None? then HandleResult(Failed(MissingTicketError), st)
      else if ShouldStop(|SelectMessages(st.messages, Some(job.ticketId))|, now, job.timestamp, expirySeconds) then
        HandleResult(Stopped, st)
      else
        var c := Classify(st, ticket.value, reply, loads, now);
        HandleResult(if c.result.Ok? then Completed else Failed(c.result.error), c.store)
  }

  /** The job handler against the two tables. The worker passes the job's ticket id
      to `getTicket`, so the row it classifies is the one with that id. */
  method HandleJob(job: Job, now: int, expirySeconds: Option<int>, loads: bool, reply: ProviderReply,
                   tickets: TicketTable, messages: MessageTable)
    returns (r: JobOutcome)
    requires tickets.Valid() && messages.Valid()
    modifies tickets, messages
    ensures tickets.Valid() && messages.Valid() && tickets.nextId == old(tickets.nextId)
    ensures var h := Handle(job, now, expirySeconds, loads, reply, Store(old(tickets.rows), old(messages.rows), old(messages.nextId)));
      && r == h.outcome
      && Store(tickets.rows, messages.rows, messages.nextId) == h.store
  {
    if job.name != ClassifyJobName {
      return NotHandled;
    }
    var view := TicketService.GetTicket(job.ticketId, tickets, messages);
    if view.None? {
      return Failed(MissingTicketError);
    }
    if ShouldStop(|view.value.messages|, now, job.timestamp, expirySeconds) {
      return Stopped;
    }
    var result := ClassifyTicket(view.value.ticket, reply, loads, now, tickets, messages);
    if result.Err? {
      return Failed(result.error);
    }
    r := Completed;
  }

  /** Only a run that reaches classification can change the tables. */
  lemma GuardedRunsChangeNothing(job: Job, now: int, expirySeconds: Option<int>, loads: bool, reply: ProviderReply, st: Store)
    requires Handle(job, now, expirySeconds, loads, reply, st).outcome in {NotHandled, Stopped}
      || Handle(job, now, expirySeconds, loads, reply, st).outcome == Failed(MissingTicketError)
    ensures Handle(job, now, expirySeconds, loads, reply, st).store == st
  {
  }

  /** The guards do not depend on the provider: whenever a run stops, ignores the job
      or cannot load the ticket, any other reply gives the same run. */
  lemma GuardIgnoresProvider(job: Job, now: int, expirySeconds: Option<int>, st: Store,
                             loads1: bool, reply1: ProviderReply, loads2: bool, reply2: ProviderReply)
    requires
      || job.name != ClassifyJobName
      || FindTicket(st.tickets, job.ticketId).None?
      || ShouldStop(|SelectMessages(st.messages, Some(job.ticketId))|, now, job.timestamp, expirySeconds)
    ensures Handle(job, now, expirySeconds, loads1, reply1, st) == Handle(job, now, expirySeconds, loads2, reply2, st)
  {
  }

  /** The expiry comparison is strict: a job whose age is exactly the window, on a
      ticket without messages, is classified. */
  lemma ExpiryBoundaryClassifies(job: Job, expirySeconds: int, loads: bool, reply: ProviderReply, st: Store)
    requires job.name == ClassifyJobName && FindTicket(st.tickets, job.ticketId).Some?
    requires |SelectMessages(st.messages, Some(job.ticketId))| == 0
    ensures var r := Handle(job, job.timestamp + expirySeconds * 1000, Some(expirySeconds), loads, reply, st);
      r.outcome.Completed? || r.outcome.Failed?
  {
  }

  /** Once a job has classified its ticket, a later delivery of the same job stops,
      whatever the time, the window and the provider: the appended message belongs
      to the ticket, so the first guard fires, and the tables stay as they are. */
  lemma RedeliveryAfterSuccessStops(job: Job, now: int, expirySeconds: Option<int>, loads: bool, reply: ProviderReply,
                                    st: Store, later: int, expiryLater: Option<int>, loadsLater: bool, replyLater: ProviderReply)
    requires Handle(job, now, expirySeconds, loads, reply, st).outcome == Completed
    ensures var st' := Handle(job, now, expirySeconds, loads, reply, st).store;
      Handle(job, later, expiryLater, loadsLater, replyLater, st') == HandleResult(Stopped, st')
  {
    var ticket := FindTicket(st.tickets, job.ticketId).value;
    var args := Merge(ticket, reply);
    var c := Classify(st, ticket, reply, loads, now);
    var m := DraftReply(st.nextMessageId, ticket.id, reply.response.v, now);
    FindAfterClassification(st.tickets, ticket.id, args.category, args.urgency.value, args.sentiment.value, now);
    assert FindTicket(c.store.tickets, job.ticketId).Some?;
    assert m in c.store.messages;
    assert m in SelectMessages(c.store.messages, Some(job.ticketId));
  }

  /** A failed classification adds no message and keeps the ticket, so a later
      delivery that is not yet expired classifies again: the queue's retries are what
      drive a ticket to its first message. */
  lemma FailedRunIsRetried(job: Job, now: int, expirySeconds: Option<int>, loads: bool, reply: ProviderReply,
                           st: Store, later: int, loadsLater: bool, replyLater: ProviderReply)
    requires Handle(job, now, expirySeconds, loads, reply, st).outcome.Failed?
    requires FindTicket(st.tickets, job.ticketId).Some?
    requires expirySeconds.None? || later - job.timestamp <= expirySeconds.value * 1000
    ensures var st' := Handle(job, now, expirySeconds, loads, reply, st).store;
      var r := Handle(job, later, expirySeconds, loadsLater, replyLater, st');
      r.outcome.Completed? || r.outcome.Failed?
  {
    var ticket := FindTicket(st.tickets, job.ticketId).value;
    FailedClassificationKeepsTicket(st, ticket, reply, loads, now);
  }
}
