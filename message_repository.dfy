/** The message repository: every query it sends to the `ticket_messages` table,
    over an in-memory table of rows and the table's serial-id counter. */
module MessageRepository {
  import opened Common
  import opened Postgres
  import opened MessageSchema

  ghost predicate MessageIdsAscending(rows: seq<Message>, nextId: int)
  {
    && (forall i :: 0 <= i < |rows| ==> 1 <= rows[i].id < nextId)
    && (forall i, j :: 0 <= i < j < |rows| ==> rows[i].id < rows[j].id)
  }

  /** `SELECT * FROM ticket_messages WHERE id = $1`, first row or `null`. */
  function FindMessage(rows: seq<Message>, id: int): (r: Option<Message>)
    ensures r.Some? ==> r.value in rows && r.value.id == id
    ensures r.None? <==> forall m :: m in rows ==> m.id != id
  {
    if |rows| == 0 then None
    else if rows[0].id == id then Some(rows[0])
    else FindMessage(rows[1..], id)
  }

  /** `... WHERE ticket_id = n`: the messages of one ticket, in table order. */
  function ForTicket(rows: seq<Message>, ticketId: int): (r: seq<Message>)
    ensures forall m :: m in r <==> m in rows && m.ticketId == ticketId
    ensures |r| <= |rows|
  {
    if |rows| == 0 then []
    else if rows[0].ticketId == ticketId then [rows[0]] + ForTicket(rows[1..], ticketId)
    else ForTicket(rows[1..], ticketId)
  }

  /** A message appended to the table joins the end of its own ticket's messages and
      leaves every other ticket's messages as they were. */
  lemma {:induction false} ForTicketAppend(rows: seq<Message>, m: Message, ticketId: int)
    ensures ForTicket(rows + [m], ticketId) ==
      ForTicket(rows, ticketId) + (if m.ticketId == ticketId then [m] else [])
    decreases |rows|
  {
    if |rows| == 0 {
      assert rows + [m] == [m];
      assert ForTicket([m], ticketId) == (if m.ticketId == ticketId then [m] else []) + ForTicket([], ticketId);
    } else {
      assert (rows + [m])[1..] == rows[1..] + [m];
      assert (rows + [m])[0] == rows[0];
      ForTicketAppend(rows[1..], m, ticketId);
    }
  }

  /** `getTicketMessages`: with a truthy `ticketId` only that ticket's messages,
      otherwise (`null`, `undefined`, 0) every message of the table. */
  function SelectMessages(rows: seq<Message>, ticketId: Option<int>): (r: seq<Message>)
    ensures TruthyInt(ticketId) ==> forall m :: m in r <==> m in rows && m.ticketId == ticketId.value
    ensures !TruthyInt(ticketId) ==> r == rows
  {
    if TruthyInt(ticketId) then ForTicket(rows, ticketId.value) else rows
  }

  /** The effect of `UPDATE ticket_messages SET message, updated_at WHERE id = $3`. */
  function WithText(rows: seq<Message>, id: int, text: string, now: int): (r: seq<Message>)
    ensures |r| == |rows|
    ensures forall i :: 0 <= i < |rows| && rows[i].id != id ==> r[i] == rows[i]
    ensures forall i :: 0 <= i < |rows| && rows[i].id == id ==> r[i] == rows[i].(text := text, updatedAt := now)
  {
    seq(|rows|, i requires 0 <= i < |rows| => if rows[i].id == id then rows[i].(text := text, updatedAt := now) else rows[i])
  }

  /** The effect of `UPDATE ticket_messages SET status = 'PUBLISHED', updated_at WHERE
      id = $3`: the text stays as it was. */
  function WithPublished(rows: seq<Message>, id: int, now: int): (r: seq<Message>)
    ensures |r| == |rows|
    ensures forall i :: 0 <= i < |rows| && rows[i].id != id ==> r[i] == rows[i]
    ensures forall i :: 0 <= i < |rows| && rows[i].id == id ==> r[i] == rows[i].(status := PUBLISHED, updatedAt := now)
  {
    seq(|rows|, i requires 0 <= i < |rows| => if rows[i].id == id then rows[i].(status := PUBLISHED, updatedAt := now) else rows[i])
  }

  /** Neither update moves a message to another ticket, so each ticket keeps the same
      number of messages. */
  lemma {:induction false} UpdatesKeepTicketMessageCount(rows: seq<Message>, id: int, text: string, now: int, ticketId: int)
    ensures |ForTicket(WithText(rows, id, text, now), ticketId)| == |ForTicket(rows, ticketId)|
    ensures |ForTicket(WithPublished(rows, id, now), ticketId)| == |ForTicket(rows, ticketId)|
    decreases |rows|
  {
    if |rows| > 0 {
      var a := WithText(rows, id, text, now);
      var b := WithPublished(rows, id, now);
      assert a[1..] == WithText(rows[1..], id, text, now);
      assert b[1..] == WithPublished(rows[1..], id, now);
      assert a[0].ticketId == rows[0].ticketId && b[0].ticketId == rows[0].ticketId;
      UpdatesKeepTicketMessageCount(rows[1..], id, text, now, ticketId);
    }
  }

  /** After an update of the text, looking the id up finds the first row that carried
      it, with the new text; an id no row has is still not found. */
  lemma {:induction false} FindMessageAfterText(rows: seq<Message>, id: int, text: string, now: int)
    ensures FindMessage(WithText(rows, id, text, now), id) ==
      if FindMessage(rows, id).Some? then Some(FindMessage(rows, id).value.(text := text, updatedAt := now)) else None
    decreases |rows|
  {
    if |rows| > 0 {
      assert WithText(rows, id, text, now)[1..] == WithText(rows[1..], id, text, now);
      FindMessageAfterText(rows[1..], id, text, now);
    }
  }

  /** After publishing, looking the id up finds the first row that carried it, now
      published and with its text unchanged. */
  lemma {:induction false} FindMessageAfterPublish(rows: seq<Message>, id: int, now: int)
    ensures FindMessage(WithPublished(rows, id, now), id) ==
      if FindMessage(rows, id).Some? then Some(FindMessage(rows, id).value.(status := PUBLISHED, updatedAt := now)) else None
    decreases |rows|
  {
    if |rows| > 0 {
      assert WithPublished(rows, id, now)[1..] == WithPublished(rows[1..], id, now);
      FindMessageAfterPublish(rows[1..], id, now);
    }
  }

  /** Publishing twice is publishing once, at the later time. */
  lemma PublishTwice(rows: seq<Message>, id: int, first: int, second: int)
    ensures WithPublished(WithPublished(rows, id, first), id, second) == WithPublished(rows, id, second)
  {
  }

  /** The ticket_messages table: rows in insertion order and the serial counter. */
  class MessageTable {
    var rows: seq<Message>
    var nextId: int

    ghost predicate Valid()
      reads this
    {
      nextId >= 1 && MessageIdsAscending(rows, nextId)
    }

    constructor ()
      ensures Valid() && rows == [] && nextId == 1
    {
      rows := [];
      nextId := 1;
    }

    /** `INSERT ... VALUES (ticket_id, 'AGENT', 'DRAFT', message) RETURNING *`: the
        user type and status are fixed, whatever the caller's data says. */
    method CreateTicketMessage(ticketId: Option<int>, text: Option<string>, now: int)
      returns (r: Result<Message, DbError>)
      requires Valid()
      modifies this
      ensures Valid()
      ensures r == InsertMessageRow(old(nextId), Bind(ticketId), Value(AGENT), Value(DRAFT), Bind(text), now)
      ensures r.Ok? ==> r.value.userType == AGENT && r.value.status == DRAFT && r.value.id == old(nextId)
      ensures nextId == old(nextId) + 1
      ensures rows == if r.Ok? then old(rows) + [r.value] else old(rows)
    {
      r := InsertMessageRow(nextId, Bind(ticketId), Value(AGENT), Value(DRAFT), Bind(text), now);
      if r.Ok? {
        rows := rows + [r.value];
      }
      nextId := nextId + 1;
    }

    /** `getTicketMessages({ticketId})`. */
    method GetTicketMessages(ticketId: Option<int>) returns (r: seq<Message>)
      ensures r == SelectMessages(rows, ticketId)
    {
      r := SelectMessages(rows, ticketId);
    }

    /** `UPDATE ... SET message = $1, updated_at = $2 WHERE id = $3 RETURNING *`. A
        missing text is NULL and fails the NOT NULL rule when some row matches. */
    method UpdateMessage(id: int, text: Option<string>, now: int) returns (r: Result<Option<Message>, DbError>)
      requires Valid()
      modifies this
      ensures Valid() && nextId == old(nextId)
      ensures FindMessage(old(rows), id).None? ==> r == Ok(None) && rows == old(rows)
      ensures FindMessage(old(rows), id).Some? && text.None? ==>
        r == Err(NotNullViolation("ticket_messages", "message")) && rows == old(rows)
      ensures FindMessage(old(rows), id).Some? && text.Some? ==>
        rows == WithText(old(rows), id, text.value, now) && r == Ok(FindMessage(rows, id))
    {
      if FindMessage(rows, id).None? {
        return Ok(None);
      }
      if text.None? {
        return Err(NotNullViolation("ticket_messages", "message"));
      }
      rows := WithText(rows, id, text.value, now);
      r := Ok(FindMessage(rows, id));
    }

    /** `UPDATE ... SET status = 'PUBLISHED', updated_at = $2 WHERE id = $3 RETURNING *`. */
    method PublishMessage(id: int, now: int) returns (r: Option<Message>)
      requires Valid()
      modifies this
      ensures Valid() && nextId == old(nextId)
      ensures rows == WithPublished(old(rows), id, now)
      ensures r == FindMessage(rows, id)
      ensures r.Some? ==> r.value.status == PUBLISHED
    {
      rows := WithPublished(rows, id, now);
      r := FindMessage(rows, id);
    }

    /** `SELECT * FROM ticket_messages WHERE id = $1`, `rows[0] || null`. */
    method GetTicketMessage(id: int) returns (r: Option<Message>)
      ensures r == FindMessage(rows, id)
    {
      r := FindMessage(rows, id);
    }
  }
}
