# Support tickets with automatic classification: a Dafny model

The system is a small help desk.

- **Support form.** Customers file tickets through a public page.
- **Producer.** The backend stores each ticket in PostgreSQL and adds one `ai-clasify-ticket` job to the `ticket-tasks` queue.
- **Worker.** It picks each job up and asks a generative-model provider for a category, an urgency and a sentiment score. It writes these onto the ticket and appends the provider's reply as an AGENT draft message.
- **Dashboard.** Agents page through the tickets, read a ticket with its messages, and edit, publish or add messages until the ticket is resolved.
- **Toasts.** A notification list reports what happened.

The model covers the following parts:

- **Backend classification path** (`worker.dfy`, `classification.dfy`, `jobs.dfy`):
  - the job handler's decision procedure;
  - the classification service with the provider as an oracle;
  - the job options the producer enqueues.
- **Two tables** (`ticket_schema.dfy`, `message_schema.dfy`, `ticket_repository.dfy`, `message_repository.dfy`):
  - the migrations' enumerations, NOT NULL rules and defaults;
  - every repository query, over rows held in a class with a serial counter.
- **Services** (`ticket_service.dfy`, `message_service.dfy`):
  - validation, creation and enqueueing;
  - the paged list with its metadata;
  - a ticket with its messages;
  - resolution, message update and publish.
- **Frontend state** (`toast.dfy`, `dashboard.dfy`, `support_form.dfy`):
  - the toast list and its timers;
  - the dashboard's styling, record mapping, pagination, selection and guards;
  - the support form's submit state machine.
- **Shared values** (`common.dfy`):
  - JavaScript truthiness, `??` and `new Error(e)`;
  - decimal spelling and parsing of ids;
  - PostgreSQL's handling of bound parameters and LIMIT/OFFSET.

Inputs the code reads from its environment become parameters. These are:

- the clock (`now`, in milliseconds);
- `REDIS_JOB_FAILED_DELAY` and `REDIS_JOB_FAILED_EXPIRY_TIME`, as an `Option`, with None standing for unset (NaN);
- the provider's reply, and whether its module loads;
- what `new Queue(...)` throws, and whether the un-awaited `add` reaches Redis;
- the API URL and the outcome of each `fetch`.

The model keeps the code's quirks as written:

- `createTicket` reports a missing email as "Name can't be empty".
- The existence checks in `resolveTicket`, `updateMessage` and `publishMessage` test a Promise, so they never reject.
- `resolveTicket`'s UPDATE has no WHERE clause, so it closes every ticket.
- `countTickets` returns `rowCount || []`, so an empty table counts as `[]`.
- `ticketQueue.add` is not awaited, so its failure never reaches `createTicket`'s caller; the process-level unhandled rejection is not modelled.
- The classification update stays when the message insert after it fails.
- The insert of a message always stores AGENT/DRAFT.
- A missing ticket makes the worker throw a TypeError and retry, even for an expired job.
- `String(json.description) ?? ''` shows a missing description as "undefined".
- Errors rethrown through `new Error(error)` carry the old error's name as a prefix.

A PostgreSQL serial is consumed even when an INSERT fails its NOT NULL rules.

`ORDER BY created_at` leaves ties unordered. The model settles them stably, keeping table order. Result sets of queries with no ORDER BY are likewise taken in table order (see "## Left out").

## Model

| member | source | states |
|---|---|---|
| Common.Rewrap | backend/src/services/ticket.service.js:45-48 | `new Error(e)` is an Error whose message begins with the caught error's name |
| Common.Coalesce | frontend/app/dashboard/page.tsx:643 | `a ?? b` is the left operand when present, the right one otherwise |
| Common.IntToString | frontend/app/dashboard/page.tsx:108 | `String(n)` is non-empty and starts with '-' exactly for negative ids |
| Common.IntStringRoundTrip | backend/src/repositories/ticketMessage.repository.js:18 | `parseInt(String(n))` gives `n` back for every integer |
| Common.IntToStringInjective | frontend/app/dashboard/page.tsx:108 | distinct ids have distinct string forms, so a selected id names one ticket |
| Postgres.Bind | backend/src/repositories/ticket.repository.js:10 | an `undefined` parameter is bound as NULL, a present one as its value |
| Postgres.Required | backend/migrations/1770815307756_create-ticket-table.mjs:17-18 | a NOT NULL column without default accepts exactly a given value, else a not-null violation naming the column |
| Postgres.Defaulted | backend/migrations/1770815307756_create-ticket-table.mjs:20-24 | a NOT NULL column with default: omitted gives the default, a value is kept, NULL is a not-null violation |
| Postgres.LimitOffset | backend/src/repositories/ticket.repository.js:49-51 | a negative OFFSET, then a negative LIMIT, is an error; otherwise at most `limit` rows, exactly those from position `offset` on |
| TicketSchema.InsertRow | backend/migrations/1770815307756_create-ticket-table.mjs:15-28 | the insert succeeds iff subject and name are given and status/description are not NULL; the first violated column in table order is reported; a new row is uncategorised, LOW, sentiment 1, created and updated now, not completed |
| MessageSchema.InsertMessageRow | backend/migrations/1770818503177_create-ticket-message-table.mjs:14-22 | the insert succeeds iff ticket id, user type and text are given and status is not NULL; a missing ticket id is reported first, a missing text after the others; status defaults to DRAFT |
| Jobs.ClassifyJobOptions | backend/src/services/ticket.service.js:25-37 | 999 attempts, exponential backoff of the delay in seconds times 1000 (NaN when unset), completed jobs removed, failed ones kept 10 seconds |
| Jobs.JobQueue.Add | backend/src/services/ticket.service.js:38 | `add` appends one job with that name, payload, options and timestamp |
| TicketRepository.FindTicket | backend/src/repositories/ticket.repository.js:55-59 | the row found carries the id and is in the table; null exactly when no row has the id |
| TicketRepository.FindTicketUnique | backend/src/repositories/ticket.repository.js:55-59 | with serial ids, looking up any row's id finds that very row |
| TicketRepository.WithClassification | backend/src/repositories/ticket.repository.js:14-23 | rows with another id are unchanged; the row with the id gets the new category, urgency, sentiment and updated_at |
| TicketRepository.WithClassificationKeepsIdentity | backend/src/repositories/ticket.repository.js:16-21 | the update keeps id, subject, name, email, status, description, created_at and completed_at of every row |
| TicketRepository.FindAfterClassification | backend/src/repositories/ticket.repository.js:14-23 | after the update, the id finds its row carrying the new classification; an absent id stays absent |
| TicketRepository.ClosedAll | backend/src/repositories/ticket.repository.js:25-33 | every row, whatever its id, becomes CLOSED with completed_at and updated_at set to now |
| TicketRepository.CountOf | backend/src/repositories/ticket.repository.js:35-39 | the count is `[]` exactly for an empty table, otherwise the positive number of rows |
| TicketRepository.CountValueIsRows | backend/src/services/ticket.service.js:56-57 | the count, coerced to a number, is the number of rows, also for `[]` |
| TicketRepository.InsertByCreated | backend/src/repositories/ticket.repository.js:45-46 | inserting a row adds exactly that row to the multiset of rows |
| TicketRepository.InsertKeepsSorted | backend/src/repositories/ticket.repository.js:45-46 | inserting into rows sorted by created_at keeps them sorted |
| TicketRepository.SortByCreated | backend/src/repositories/ticket.repository.js:45-46 | `ORDER BY created_at ASC` is sorted by creation time and a permutation of the rows |
| TicketRepository.SortKeepsTiedRows | backend/src/repositories/ticket.repository.js:45-46 | rows created at the same instant keep their table order, the model's choice where PostgreSQL leaves ties unordered |
| TicketRepository.TicketTable.CreateTicket | backend/src/repositories/ticket.repository.js:3-12 | the row is the schema's insert of the bound fields with status OPEN and the next serial id; the table grows by that row on success; the serial advances either way |
| TicketRepository.TicketTable.UpdateTicket | backend/src/repositories/ticket.repository.js:14-23 | no matching row: nothing changes and nothing is returned; NULL urgency or sentiment on a matching row is a not-null violation with no change; otherwise only the matching row's classification changes and it is returned |
| TicketRepository.TicketTable.ResolveTicket | backend/src/repositories/ticket.repository.js:25-33 | every row is closed, whatever the id, and the first row in table order is returned (undefined for an empty table) |
| TicketRepository.TicketTable.CountTickets | backend/src/repositories/ticket.repository.js:35-39 | returns `rowCount || []` of the table |
| TicketRepository.TicketTable.GetTickets | backend/src/repositories/ticket.repository.js:41-53 | returns the optionally sorted rows under `LIMIT limit OFFSET limit*(page-1)` |
| TicketRepository.TicketTable.GetTicket | backend/src/repositories/ticket.repository.js:55-59 | returns the row with the id, or null |
| TicketRepository.FindInserted | backend/src/repositories/ticket.repository.js:3-12 | a row inserted with the next serial id keeps ids ascending and is what a lookup of its id finds |
| TicketRepository.SelectPageRows | backend/src/repositories/ticket.repository.js:41-53 | for non-negative limit and page >= 1 the page succeeds, holds at most `limit` rows of the table, and is sorted when sorting was asked |
| MessageRepository.FindMessage | backend/src/repositories/ticketMessage.repository.js:47-51 | the message found carries the id and is in the table; null exactly when no row has the id |
| MessageRepository.ForTicket | backend/src/repositories/ticketMessage.repository.js:17-19 | exactly the messages whose ticket_id is the given one |
| MessageRepository.ForTicketAppend | backend/src/repositories/ticketMessage.repository.js:15-23 | an appended message joins the end of its own ticket's messages, read in table order, and leaves the other tickets' messages as they were |
| MessageRepository.SelectMessages | backend/src/repositories/ticketMessage.repository.js:15-23 | a truthy ticket id selects exactly that ticket's messages; a falsy one returns the whole table |
| MessageRepository.WithText | backend/src/repositories/ticketMessage.repository.js:25-34 | only the message with the id changes: new text and updated_at |
| MessageRepository.WithPublished | backend/src/repositories/ticketMessage.repository.js:36-45 | only the message with the id changes: PUBLISHED and updated_at; its text stays |
| MessageRepository.UpdatesKeepTicketMessageCount | backend/src/repositories/ticketMessage.repository.js:25-45 | neither update moves a message to another ticket: each ticket keeps its number of messages |
| MessageRepository.FindMessageAfterText | backend/src/repositories/ticketMessage.repository.js:25-34 | after the update the id finds its message with the new text; an absent id stays absent |
| MessageRepository.FindMessageAfterPublish | backend/src/repositories/ticketMessage.repository.js:36-45 | after publishing, the id finds its message published with its text unchanged |
| MessageRepository.PublishTwice | backend/src/repositories/ticketMessage.repository.js:36-45 | publishing is idempotent up to the later timestamp |
| MessageRepository.MessageTable.CreateTicketMessage | backend/src/repositories/ticketMessage.repository.js:3-13 | the row is the schema's insert of the ticket id and text with AGENT and DRAFT fixed; the table grows by it on success; the serial advances either way |
| MessageRepository.MessageTable.GetTicketMessages | backend/src/repositories/ticketMessage.repository.js:15-23 | returns the filtered messages of the table |
| MessageRepository.MessageTable.UpdateMessage | backend/src/repositories/ticketMessage.repository.js:25-34 | no matching row: nothing changes, nothing returned; a missing text on a matching row is a not-null violation; otherwise only that row's text changes and it is returned |
| MessageRepository.MessageTable.PublishMessage | backend/src/repositories/ticketMessage.repository.js:36-45 | only the matching row is published; the returned row, if any, is PUBLISHED |
| MessageRepository.MessageTable.GetTicketMessage | backend/src/repositories/ticketMessage.repository.js:47-51 | returns the message with the id, or null |
| TicketService.TicketInputError | backend/src/services/ticket.service.js:10-19 | valid iff name, email and description are truthy; a missing name or email gives "Name can't be empty", then a missing description "description can't be empty"; the subject is not checked |
| TicketService.CreateTicket | backend/src/services/ticket.service.js:8-49 | invalid input changes nothing and rethrows the wrapped message; a rejected insert consumes a serial and adds no job; a queue setup error after the insert keeps the ticket and adds no job; otherwise the ticket is returned and one `ai-clasify-ticket` job with its id is added when the un-awaited add succeeds |
| TicketService.TotalPages | backend/src/services/ticket.service.js:57 | `Math.ceil(total/limit)` is non-finite exactly for limit 0 |
| TicketService.TotalPagesIsCeiling | backend/src/services/ticket.service.js:57 | for a positive limit it is the least page count whose pages hold every row |
| TicketService.ListTicket | backend/src/services/ticket.service.js:51-66 | undefined exactly when the page query fails; otherwise meta is the count, its page count, page and limit, and data is the page sorted by created_at |
| TicketService.ListPagesMatchMeta | backend/src/services/ticket.service.js:53-61 | for a positive limit a page holds tickets iff its number is at most `totalPages` |
| TicketService.OffsetBeforeEndIff | backend/src/services/ticket.service.js:57 | a page starts before the last row iff it is one of the `totalPages` pages |
| TicketService.GetTicket | backend/src/services/ticket.service.js:68-78 | a missing ticket gives undefined; otherwise the row with the messages selected by that id |
| TicketService.GetTicketMessagesAreOwn | backend/src/services/ticket.service.js:70-72 | a found ticket has a truthy id, so it carries exactly its own messages |
| TicketService.ResolveTicket | backend/src/services/ticket.service.js:80-90 | the existence check never rejects; every ticket is closed and the first row in table order returned |
| TicketService.ResolveClosesEveryTicket | backend/src/repositories/ticket.repository.js:27-31 | resolving any id closes every other ticket too |
| MessageService.MessageInputError | backend/src/services/ticket-message.service.js:10-19 | valid iff ticket id and message are truthy; a falsy ticket id gives "Name can't be empty", then an empty message "description can't be empty"; user_type is not checked |
| MessageService.CreateTicketMessage | backend/src/services/ticket-message.service.js:8-28 | invalid input changes nothing and rethrows the wrapped message; valid input appends and returns exactly one AGENT draft with the next id |
| MessageService.CreatedMessageJoinsItsTicket | backend/src/services/ticket-message.service.js:21-23 | the created message becomes the last of its ticket's messages, read in table order; other tickets are unaffected |
| MessageService.CreatedMessageCountsOnce | backend/src/services/ticket-message.service.js:21-23 | in any order, the created message appears exactly once among its ticket's messages and adds nothing to another ticket's |
| MessageService.UpdateMessage | backend/src/services/ticket-message.service.js:30-40 | the existence check never fires; an unknown id or a failing query gives undefined and no change; otherwise the row with the new text is returned |
| MessageService.PublishMessage | backend/src/services/ticket-message.service.js:42-52 | the existence check never fires; an unknown id gives undefined and no change; otherwise the published row with its text unchanged |
| Classification.BuildService | backend/src/services/llm/llm.service.js:7-17 | every provider name gives Gemini when the module loads; a load failure is "Unable to find the LLM model" |
| Classification.ResponseText | backend/src/services/llm/llm.service.js:23 | the destructured `response` reaches the insert only when the provider gave one |
| Classification.Classify | backend/src/services/llm/llm.service.js:19-31 | a load failure is its own, unwrapped error with no change; every other failure is "Classification failed, Will retry again later"; success iff module loads, a reply with a response arrives and the merged urgency and sentiment are not NULL; a load failure, a provider failure or a NULL merged urgency or sentiment on a matching row leaves both tables and the message serial unchanged; once the insert is reached the serial advances and the ticket table is updated by the merged classification for that id only (unchanged when the id is absent), whether or not the insert fails; success appends exactly one AGENT draft with the response |
| Classification.ClassifiedTicketCarriesReply | backend/src/services/llm/llm.service.js:25 | after success the ticket's category, urgency and sentiment are the reply's where given and the earlier ones where the reply leaves them out |
| Classification.MissingResponseKeepsUpdate | backend/src/services/llm/llm.service.js:25-26 | a reply without response fails but leaves the classification written and no message |
| Classification.FailedClassificationKeepsTicket | backend/src/services/llm/llm.service.js:25-30 | a failed classification keeps the ticket and adds no message |
| Classification.ClassifyTicket | backend/src/services/llm/llm.service.js:19-31 | the two tables end as `Classify` says and its result is returned |
| Worker.Handle | backend/src/workers/llm.worker.js:8-25 | another job name does nothing; a missing ticket throws a TypeError with no change; messages present or an expired job returns with no change; otherwise one classification, whose failure is rethrown |
| Worker.HandleJob | backend/src/workers/llm.worker.js:8-25 | the handler's outcome and the tables are those `Handle` gives |
| Worker.GuardedRunsChangeNothing | backend/src/workers/llm.worker.js:11-17 | a run that ignores, stops or cannot load the ticket leaves the tables as they were |
| Worker.GuardIgnoresProvider | backend/src/workers/llm.worker.js:13-17 | when a guard fires the provider is never consulted |
| Worker.ExpiryBoundaryClassifies | backend/src/workers/llm.worker.js:14 | an age exactly equal to the window still classifies |
| Worker.RedeliveryAfterSuccessStops | backend/src/workers/llm.worker.js:14-18 | after a successful run, any redelivery of the job stops at the messages guard |
| Worker.FailedRunIsRetried | backend/src/workers/llm.worker.js:20-23 | after a failed run, a redelivery within the window classifies again |
| Toasts.VariantClasses | frontend/lib/toast.tsx:27-46 | success is emerald, error red, and every other value the sky info style |
| Toasts.ItemFor | frontend/lib/toast.tsx:60-62 | the item keeps title and description under the given id; the variant defaults to "info" |
| Toasts.DurationFor | frontend/lib/toast.tsx:60 | the delay defaults to 3500 ms |
| Toasts.Prepended | frontend/lib/toast.tsx:63 | the new item is first, the previous ones follow in order, at most five in all |
| Toasts.WithoutId | frontend/lib/toast.tsx:53 | exactly the items with another id remain |
| Toasts.WithoutIdAppend | frontend/lib/toast.tsx:53 | removal distributes over concatenation, so the kept items keep their order |
| Toasts.WithoutAbsentId | frontend/lib/toast.tsx:53 | an id no item has leaves the list unchanged |
| Toasts.ToastProvider.Toast | frontend/lib/toast.tsx:59-69 | the item is prepended and capped, its timer is recorded under its id and a removal after its duration is scheduled; every item keeps a timer that removes it |
| Toasts.ToastProvider.Remove | frontend/lib/toast.tsx:52-57 | the id's items go, its timer is cleared when truthy, and its entry is deleted |
| Toasts.ToastProvider.Expire | frontend/lib/toast.tsx:65 | a fired timer removes its own toast and leaves the schedule |
| Toasts.UseToast | frontend/lib/toast.tsx:81-87 | outside a provider the hook throws "useToast must be used within ToastProvider" |
| SupportForm.OutcomeState | frontend/app/support/page.tsx:58-96 | success iff status 201; 400 shows the body's string message or the default; another status names it; a throw shows its message or the default |
| SupportForm.UnexpectedStatusMessageInjective | frontend/app/support/page.tsx:85 | the unexpected-status message determines the status |
| SupportForm.SupportPage.constructor | frontend/app/support/page.tsx:14-21 | the form starts empty and idle |
| SupportForm.SupportPage.Submit | frontend/app/support/page.tsx:23-56 | no API URL, or any empty field, is an error naming the cause and sends nothing; otherwise the state is submitting and the four fields are sent; submitting iff something was sent |
| SupportForm.SupportPage.Receive | frontend/app/support/page.tsx:58-96 | the state is the outcome's and no longer submitting; the fields are cleared exactly on 201 |
| SupportForm.SentRequestPassesValidation | frontend/app/support/page.tsx:34-40 | any body the form sends passes `createTicket`'s validation |
| Dashboard.SentimentStyle | frontend/app/dashboard/page.tsx:34-40 | emerald iff score > 5, slate iff score is 5, red otherwise, including NaN |
| Dashboard.HumanizeEnum | frontend/app/dashboard/page.tsx:52-57 | length kept; underscores become spaces; the first letter of each word upper case and every other letter lower case |
| Dashboard.HumanizeHasNoUnderscore | frontend/app/dashboard/page.tsx:54 | the result holds no underscore |
| Dashboard.HumanizeIdempotent | frontend/app/dashboard/page.tsx:52-57 | humanizing twice is humanizing once |
| Dashboard.HumanizeBilling | frontend/app/dashboard/page.tsx:52-57 | BILLING becomes "Billing" |
| Dashboard.HumanizeTechnical | frontend/app/dashboard/page.tsx:52-57 | TECHNICAL becomes "Technical" |
| Dashboard.HumanizeFeatureRequest | frontend/app/dashboard/page.tsx:52-57 | FEATURE_REQUEST becomes "Feature Request" |
| Dashboard.CategoryLabelsAreHumanized | frontend/app/dashboard/page.tsx:12-16 | the label table agrees with `humanizeEnum` on every category name it is given (names that are `Object.prototype` members, such as "constructor", are not modelled) |
| Dashboard.CategoryNamesDisplay | frontend/app/dashboard/page.tsx:643 | every stored category has a label, equal to its humanized name |
| Dashboard.FirstPresentPicksFirst | frontend/app/dashboard/page.tsx:109-115 | a `??` chain gives the first field that is neither null nor undefined |
| Dashboard.FirstPresentFallsBack | frontend/app/dashboard/page.tsx:109-115 | a `??` chain whose fields are all nullish gives the fallback |
| Dashboard.Trim | frontend/app/dashboard/page.tsx:429 | the trimmed text neither starts nor ends with white space, and is empty iff the text is all white space |
| Dashboard.TrimIdempotent | frontend/app/dashboard/page.tsx:458 | trimming the sent text again changes nothing |
| Dashboard.IdStringToNumber | frontend/app/dashboard/page.tsx:108 | `Number` of a stringified id is that id |
| Dashboard.MapRecordFallbacks | frontend/app/dashboard/page.tsx:107-117 | snake_case wins, then camelCase (then `email`), then ""; the sentiment defaults to 0, the status to "" |
| Dashboard.MapTicketFields | frontend/app/dashboard/page.tsx:107-117 | a record with a stored ticket's fields maps to that ticket's values |
| Dashboard.MapEncodedTicket | frontend/app/dashboard/page.tsx:107-117 | a stored ticket reaches the list with its own fields, unset email or category as "", and an id string that reads back as its id |
| Dashboard.MetaTotal | frontend/app/dashboard/page.tsx:120 | a numeric `meta.total` is shown, otherwise the list length |
| Dashboard.MetaTotalPages | frontend/app/dashboard/page.tsx:121 | a numeric `meta.totalPages` is used, otherwise 1 |
| Dashboard.DisplayedTotalIsRowCount | frontend/app/dashboard/page.tsx:120 | the total shown for the backend's meta is the number of tickets, also when the count arrives as `[]` |
| Dashboard.WindowMatchesPage | frontend/app/dashboard/page.tsx:657 | on a non-empty page, "Showing start-end" spans exactly the tickets the backend returns for it |
| Dashboard.SelectAfterLoad | frontend/app/dashboard/page.tsx:124-130 | an empty list clears the selection; otherwise the current one is kept, else the first ticket is chosen |
| Dashboard.MapMessage | frontend/app/dashboard/page.tsx:163-172 | a message's id falls back to its ticket_id; user type, status and text are the record's |
| Dashboard.DetailDescription | frontend/app/dashboard/page.tsx:162 | a missing description shows "undefined", a string one itself |
| Dashboard.EffectiveUserType | frontend/app/dashboard/page.tsx:820 | the user type defaults to CUSTOMER when nullish |
| Dashboard.EditableIffAgentDraftOnOpenTicket | frontend/app/dashboard/page.tsx:820-825 | a stored message is editable iff it is an AGENT draft on an OPEN ticket |
| Dashboard.NothingEditableAfterResolve | frontend/app/dashboard/page.tsx:824-825 | after any resolve, no message of any ticket is editable |
| Dashboard.UpdateGuard | frontend/app/dashboard/page.tsx:190-199 | refused with the edit notice iff the shown ticket is closed; otherwise the untrimmed text is sent |
| Dashboard.PublishGuard | frontend/app/dashboard/page.tsx:260-268 | refused with the publish notice iff the shown ticket is closed |
| Dashboard.CreateGuard | frontend/app/dashboard/page.tsx:428-459 | blank text is refused first, then a closed ticket; otherwise the non-empty trimmed text is sent with the numeric id, or the raw id when it is NaN |
| Dashboard.CreatedMessagePassesValidation | frontend/app/dashboard/page.tsx:456-459 | a message created for a stored open ticket carries its numeric id and passes `createTicketMessage`'s validation |
| Dashboard.TicketList.Loaded | frontend/app/dashboard/page.tsx:105-130 | the tickets are the mapped records, total and page count take their fallbacks, the selection follows `SelectAfterLoad`, and an empty page clears detail and draft |
| Dashboard.TicketList.LoadFailed | frontend/app/dashboard/page.tsx:131-136 | the error is shown, the list, totals and selection are cleared, the detail stays |
| Dashboard.TicketList.PrevPage | frontend/app/dashboard/page.tsx:662 | the page becomes `max(1, page-1)` and nothing else changes |
| Dashboard.TicketList.NextPage | frontend/app/dashboard/page.tsx:673-674 | the page advances by one without passing `totalPages` and nothing else changes |
| Dashboard.TicketList.SetPageSize | frontend/app/dashboard/page.tsx:587-590 | a new page size restarts at page 1 |

## Left out

- The BullMQ engine is library code: redelivery, backoff delays, attempt counting and claims. Only the job records that are added and the handler's return-or-throw outcome are modelled.
- The provider call, its SDK and the JSON parse are foreign I/O. The reply is a parameter.
  - `gemini.service.js` reads `llmClient.geminiClient`, while `config/llm.js` exports the client itself, so that call would throw. The model covers that case too, as a failed reply.
- The provider's response schema constrains the reply. The reply's enumerations are the migrations' ones, and the sentiment range is not checked, as in the code.
- `backend/src/services/llm.service.js` is not imported by the worker and is not part of this model.
- Classification.Merge: `_.merge` mutates the loaded ticket object in place. The model computes the merged values instead, because no later code reads that object.
- Database failures other than NOT NULL violations and negative LIMIT/OFFSET are not modelled: connection loss, timeouts, type errors on bound values.
- JavaScript numbers are modelled as integers. Fractions, Infinity and NaN arithmetic are not modelled, apart from `Option` standing for NaN where the code produces it from an unset variable or an unreadable string.
- Dashboard.StringToNumber reads only trimmed decimal integers, and the empty string as 0. `Number` on hexadecimal, exponent, "+"-signed or fractional strings gives NaN in the model.
- Dashboard.HumanizeEnum maps case on ASCII letters only. The code's `toLowerCase` and `toUpperCase` also map non-ASCII letters.
- `setTimeout` is the browser's clock. A timer firing is the explicit `Expire` event, and the toast and timer ids are parameters.
- `fetch`, the JSON decoding of responses, and the loading and submitting flags of the dashboard are I/O or rendering state.
  - The dashboard's state after a message or resolve request is not modelled: the refetched detail, the editing flags and the success toasts.
  - The detail fetch itself is modelled only by its mapping.
- Dashboard.TicketList.NextPage requires `page < totalPages`, because the Next button is disabled otherwise. A click on a disabled button is not modelled.
- Dashboard.TicketList.SetPageSize takes the size as one of the four offered values. `Number(e.target.value)` of the select is not modelled.
- `formatDate`, the status and urgency label and style tables, and the rest of the JSX are rendering, and are not part of this model.
- The express controllers, the routes, the middlewares and the configuration files are HTTP and library plumbing, so their status codes and environment reads are not part of this model.
- The list effect and the detail effect run concurrently in the browser; their interleaving is not modelled.
- Dashboard.CategoryLabel: looks up only the three own entries of `categoryLabels`. Keys inherited from `Object.prototype` ("constructor", "toString") would be found by the code and are not modelled; stored categories never take those names.
- TicketService.ListTicket: takes `page` and `limit` as integers already parsed. The code binds the raw query strings into LIMIT/OFFSET while the metadata carries their `parseInt` values, so a string such as "10abc" (metadata limit 10, failing query) is not modelled.
- `getTicketMessages` accepts a ticket id given as a string and parses it with `parseInt`. The model takes the id as an integer.
- MessageService.MessageInputError: `createTicketMessage`'s body may carry `ticket_id` as a string (the dashboard sends the raw id when `Number` fails, and any client may). A string such as "0" is truthy, passes the check and is stored by PostgreSQL as 0; the model's integer id cannot express it and reports "Name can't be empty" for 0.
- ForTicketAppend: `SELECT * FROM ticket_messages WHERE ticket_id = $1` has no ORDER BY, so PostgreSQL returns rows in scan order, which updates and reused space can change. The model reads the rows in table order, so "joins the end" is a statement about that order; MessageService.CreatedMessageCountsOnce states the order-free part.
- CreatedMessageJoinsItsTicket: "becomes the last of its ticket's messages" rests on the same table-order reading of the unordered SELECT.
- TicketRepository.TicketTable.ResolveTicket: `UPDATE tickets … RETURNING *` has no order, and `rows[0]` is whichever row PostgreSQL returns first. The model returns the first row in table order.
- TicketService.ResolveTicket: returns the repository's `rows[0]`, so it takes the same table-order reading.
