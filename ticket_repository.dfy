/** The ticket repository: every query it sends to the `tickets` table, over an
    in-memory table of rows and the table's serial-id counter. */
module TicketRepository {
  import opened Common
  import opened Postgres
  import opened TicketSchema

  /** Serial ids: every row's id is at least 1 and below the next id, and rows are kept
      in insertion order, so their ids ascend and no two rows share one. */
  ghost predicate IdsAscending(rows: seq<Ticket>, nextId: int)
  {
    && (forall i :: 0 <= i < |rows| ==> 1 <= rows[i].id < nextId)
    && (forall i, j :: 0 <= i < j < |rows| ==> rows[i].id < rows[j].id)
  }

  /** `SELECT * FROM tickets WHERE id = $1`, first row or `null`. */
  function FindTicket(rows: seq<Ticket>, id: int): (r: Option<Ticket>)
    ensures r.Some? ==> r.value in rows && r.value.id == id
    ensures r.None? <==> forall t :: t in rows ==> t.id != id
  {
    if |rows| == 0 then None
    else if rows[0].id == id then Some(rows[0])
    else FindTicket(rows[1..], id)
  }

  /** With distinct ids, the row found for an id is the one row carrying it. */
  lemma {:induction false} FindTicketUnique(rows: seq<Ticket>, nextId: int, k: nat)
    requires IdsAscending(rows, nextId)
    requires k < |rows|
    ensures FindTicket(rows, rows[k].id) == Some(rows[k])
  {
    if k > 0 {
      assert rows[0].id < rows[k].id;
      assert IdsAscending(rows[1..], nextId) by {
        forall i, j | 0 <= i < j < |rows[1..]| ensures rows[1..][i].id < rows[1..][j].id {
          assert rows[1..][i] == rows[i + 1] && rows[1..][j] == rows[j + 1];
        }
      }
      assert rows[1..][k - 1] == rows[k];
      FindTicketUnique(rows[1..], nextId, k - 1);
    }
  }

  /** The effect of `UPDATE tickets SET category, urgency_level, sentiment_score,
      updated_at WHERE id = $5` on the rows. */
  function WithClassification(rows: seq<Ticket>, id: int, category: Option<Category>,
                              urgency: Urgency, sentiment: int, now: int): (r: seq<Ticket>)
    ensures |r| == |rows|
    ensures forall i :: 0 <= i < |rows| && rows[i].id != id ==> r[i] == rows[i]
    ensures forall i :: 0 <= i < |rows| && rows[i].id == id ==>
      r[i] == rows[i].(category := category, urgency := urgency, sentiment := sentiment, updatedAt := now)
  {
    seq(|rows|, i requires 0 <= i < |rows| =>
      if rows[i].id == id
      then rows[i].(category := category, urgency := urgency, sentiment := sentiment, updatedAt := now)
      else rows[i])
  }

  /** The classification update keeps every row's identity and creation data: the
      second half of "only category, urgency, sentiment and updated_at change". */
  lemma WithClassificationKeepsIdentity(rows: seq<Ticket>, id: int, category: Option<Category>,
                                        urgency: Urgency, sentiment: int, now: int, k: nat)
    requires k < |rows|
    ensures var r := WithClassification(rows, id, category, urgency, sentiment, now)[k];
      && r.id == rows[k].id && r.subject == rows[k].subject && r.customerName == rows[k].customerName
      && r.customerEmail == rows[k].customerEmail && r.status == rows[k].status
      && r.description == rows[k].description && r.createdAt == rows[k].createdAt
      && r.completedAt == rows[k].completedAt
  {
  }

  /** After the classification update, looking the id up finds the first row that
      carried it, with the new classification; an id no row has is still not found. */
  lemma {:induction false} FindAfterClassification(rows: seq<Ticket>, id: int, category: Option<Category>,
                                                   urgency: Urgency, sentiment: int, now: int)
    ensures FindTicket(WithClassification(rows, id, category, urgency, sentiment, now), id) ==
      if FindTicket(rows, id).Some?
      then Some(FindTicket(rows, id).value.(category := category, urgency := urgency, sentiment := sentiment, updatedAt := now))
      else None
    decreases |rows|
  {
    if |rows| > 0 {
      assert WithClassification(rows, id, category, urgency, sentiment, now)[1..] ==
        WithClassification(rows[1..], id, category, urgency, sentiment, now);
      FindAfterClassification(rows[1..], id, category, urgency, sentiment, now);
    }
  }

  /** The effect of `UPDATE tickets SET status = 'CLOSED', completed_at, updated_at`
      with no WHERE clause: every row of the table is closed. */
  function ClosedAll(rows: seq<Ticket>, now: int): (r: seq<Ticket>)
    ensures |r| == |rows|
    ensures forall i :: 0 <= i < |rows| ==>
      r[i] == rows[i].(status := CLOSED, completedAt := Some(now), updatedAt := now)
  {
    seq(|rows|, i requires 0 <= i < |rows| => rows[i].(status := CLOSED, completedAt := Some(now), updatedAt := now))
  }

  /** `rowCount || []`: the number of rows, except that an empty table gives `[]`. */
  datatype TicketCount = Rows(n: nat) | EmptyArray

  function CountOf(rows: seq<Ticket>): (r: TicketCount)
    ensures r == EmptyArray <==> |rows| == 0
    ensures r.Rows? ==> r.n == |rows| && r.n > 0
  {
    if |rows| == 0 then EmptyArray else Rows(|rows|)
  }

  /** The number a count stands for when JavaScript arithmetic coerces it
      (`Number([])` is 0). */
  function CountValue(c: TicketCount): nat
  {
    match c
    case Rows(n) => n
    case EmptyArray => 0
  }

  lemma CountValueIsRows(rows: seq<Ticket>)
    ensures CountValue(CountOf(rows)) == |rows|
  {
  }

  ghost predicate SortedByCreated(s: seq<Ticket>)
  {
    forall i, j :: 0 <= i < j < |s| ==> s[i].createdAt <= s[j].createdAt
  }

  /** Places `t` before the first row not created earlier than it, so `t` comes
      ahead of the rows that tie with it. */
  function InsertByCreated(t: Ticket, s: seq<Ticket>): (r: seq<Ticket>)
    ensures multiset(r) == multiset(s) + multiset{t}
    ensures |r| == |s| + 1
    ensures r[0] == t || (|s| > 0 && r[0] == s[0])
  {
    if |s| == 0 then [t]
    else if t.createdAt <= s[0].createdAt then [t] + s
    else
      assert s == [s[0]] + s[1..];
      [s[0]] + InsertByCreated(t, s[1..])
  }

  /** Inserting into a sorted sequence keeps it sorted. */
  lemma {:induction false} InsertKeepsSorted(t: Ticket, s: seq<Ticket>)
    requires SortedByCreated(s)
    ensures SortedByCreated(InsertByCreated(t, s))
    decreases |s|
  {
    var r := InsertByCreated(t, s);
    if |s| == 0 {
    } else if t.createdAt <= s[0].createdAt {
      forall i, j | 0 <= i < j < |r| ensures r[i].createdAt <= r[j].createdAt {
        assert r[j] == s[j - 1];
        if i > 0 { assert r[i] == s[i - 1]; } else { assert s[0].createdAt <= s[j - 1].createdAt; }
      }
    } else {
      var tail := s[1..];
      assert SortedByCreated(tail) by {
        forall i, j | 0 <= i < j < |tail| ensures tail[i].createdAt <= tail[j].createdAt {
          assert tail[i] == s[i + 1] && tail[j] == s[j + 1];
        }
      }
      InsertKeepsSorted(t, tail);
      var rest := InsertByCreated(t, tail);
      assert r == [s[0]] + rest;
      assert s[0].createdAt <= rest[0].createdAt;
      forall i, j | 0 <= i < j < |r| ensures r[i].createdAt <= r[j].createdAt {
        assert r[j] == rest[j - 1];
        if i > 0 { assert r[i] == rest[i - 1]; } else { assert rest[0].createdAt <= rest[j - 1].createdAt; }
      }
    }
  }

  /** `ORDER BY created_at ASC`: the rows, re-ordered by creation time. Rows created
      at the same instant keep their table order (PostgreSQL leaves ties unordered;
      the model settles them this way). */
  function SortByCreated(s: seq<Ticket>): (r: seq<Ticket>)
    ensures SortedByCreated(r)
    ensures multiset(r) == multiset(s)
    ensures |r| == |s|
  {
    if |s| == 0 then []
    else
      assert s == [s[0]] + s[1..];
      var rest := SortByCreated(s[1..]);
      InsertKeepsSorted(s[0], rest);
      InsertByCreated(s[0], rest)
  }

  /** Two rows created at the same instant come out in table order. */
  lemma SortKeepsTiedRows(a: Ticket, b: Ticket)
    requires a.createdAt == b.createdAt
    ensures SortByCreated([a, b]) == [a, b]
  {
    assert [a, b][1..] == [b];
    assert SortByCreated([b]) == [b] by { assert [b][1..] == []; }
  }

  /** The rows `getTickets` sends back: optionally ordered by creation time, then
      `LIMIT limit OFFSET limit * (page - 1)`. */
  function SelectPage(rows: seq<Ticket>, sortByCreated: bool, limit: int, page: int): Result<seq<Ticket>, DbError>
  {
    LimitOffset(if sortByCreated then SortByCreated(rows) else rows, limit, limit * (page - 1))
  }

  /** The tickets table: its rows in insertion order and the serial counter that
      gives the next row its id. */
  class TicketTable {
    var rows: seq<Ticket>
    var nextId: int

    ghost predicate Valid()
      reads this
    {
      nextId >= 1 && IdsAscending(rows, nextId)
    }

    /** The table right after its migration: empty, serial starting at 1. */
    constructor ()
      ensures Valid() && rows == [] && nextId == 1
    {
      rows := [];
      nextId := 1;
    }

    /** `INSERT ... VALUES (subject, customer_name, customer_email, description, 'OPEN')
        RETURNING *`. The serial is consumed even when a NOT NULL check rejects the
        row. */
    method CreateTicket(subject: Option<string>, customerName: Option<string>,
                        customerEmail: Option<string>, description: Option<string>, now: int)
      returns (r: Result<Ticket, DbError>)
      requires Valid()
      modifies this
      ensures Valid()
      ensures r == InsertRow(old(nextId), Bind(subject), Bind(customerName), Bind(customerEmail),
                             Value(OPEN), Bind(description), now)
      ensures r.Ok? ==> r.value.status == OPEN && r.value.id == old(nextId)
      ensures nextId == old(nextId) + 1
      ensures rows == if r.Ok? then old(rows) + [r.value] else old(rows)
    {
      r := InsertRow(nextId, Bind(subject), Bind(customerName), Bind(customerEmail), Value(OPEN), Bind(description), now);
      if r.Ok? {
        rows := rows + [r.value];
      }
      nextId := nextId + 1;
    }

    /** `UPDATE tickets SET category, urgency_level, sentiment_score, updated_at WHERE
        id = $5 RETURNING *`, first returned row. NULL for urgency or sentiment fails
        their NOT NULL rule, but only when some row matches. */
    method UpdateTicket(id: int, category: Option<Category>, urgency: Option<Urgency>,
                        sentiment: Option<int>, now: int)
      returns (r: Result<Option<Ticket>, DbError>)
      requires Valid()
      modifies this
      ensures Valid() && nextId == old(nextId)
      ensures FindTicket(old(rows), id).None? ==> r == Ok(None) && rows == old(rows)
      ensures FindTicket(old(rows), id).Some? && urgency.None? ==>
        r == Err(NotNullViolation("tickets", "urgency_level")) && rows == old(rows)
      ensures FindTicket(old(rows), id).Some? && urgency.Some? && sentiment.None? ==>
        r == Err(NotNullViolation("tickets", "sentiment_score")) && rows == old(rows)
      ensures FindTicket(old(rows), id).Some? && urgency.Some? && sentiment.Some? ==>
        && rows == WithClassification(old(rows), id, category, urgency.value, sentiment.value, now)
        && r == Ok(FindTicket(rows, id))
    {
      if FindTicket(rows, id).None? {
        return Ok(None);
      }
      if urgency.None? {
        return Err(NotNullViolation("tickets", "urgency_level"));
      }
      if sentiment.None? {
        return Err(NotNullViolation("tickets", "sentiment_score"));
      }
      rows := WithClassification(rows, id, category, urgency.value, sentiment.value, now);
      r := Ok(FindTicket(rows, id));
    }

    /** `UPDATE tickets SET status = 'CLOSED', completed_at, updated_at RETURNING *`.
        The query has no WHERE clause, so `id` plays no part: every ticket is closed,
        and the first row of the table is returned (`undefined` when it is empty). */
    method ResolveTicket(id: int, now: int) returns (r: Option<Ticket>)
      requires Valid()
      modifies this
      ensures Valid() && nextId == old(nextId)
      ensures rows == ClosedAll(old(rows), now)
      ensures r == if |rows| == 0 then None else Some(rows[0])
    {
      rows := ClosedAll(rows, now);
      r := if |rows| == 0 then None else Some(rows[0]);
    }

    /** `SELECT * FROM tickets` and `rowCount || []`. */
    method CountTickets() returns (r: TicketCount)
      ensures r == CountOf(rows)
    {
      r := CountOf(rows);
    }

    /** `SELECT * FROM tickets [ORDER BY created_at ASC] LIMIT $1 OFFSET $2`. */
    method GetTickets(sortByCreated: bool, limit: int, page: int) returns (r: Result<seq<Ticket>, DbError>)
      ensures r == SelectPage(rows, sortByCreated, limit, page)
    {
      r := SelectPage(rows, sortByCreated, limit, page);
    }

    /** `SELECT * FROM tickets WHERE id = $1`, `rows[0] || null`. */
    method GetTicket(id: int) returns (r: Option<Ticket>)
      ensures r == FindTicket(rows, id)
    {
      r := FindTicket(rows, id);
    }
  }

  /** A row just inserted is the one a later lookup of its id finds. */
  lemma FindInserted(rows: seq<Ticket>, nextId: int, t: Ticket)
    requires IdsAscending(rows, nextId)
    requires nextId >= 1 && t.id == nextId
    ensures IdsAscending(rows + [t], nextId + 1)
    ensures FindTicket(rows + [t], t.id) == Some(t)
  {
    FindTicketUnique(rows + [t], nextId + 1, |rows|);
  }

  /** The page `getTickets` returns holds at most `limit` rows, each of them a row of
      the table, and exactly the rows at positions `limit*(page-1)` onward of the
      ordered table. */
  lemma SelectPageRows(rows: seq<Ticket>, sortByCreated: bool, limit: int, page: int)
    requires limit >= 0 && page >= 1
    ensures SelectPage(rows, sortByCreated, limit, page).Ok?
    ensures var r := SelectPage(rows, sortByCreated, limit, page).value;
      && |r| <= limit
      && (sortByCreated ==> SortedByCreated(r))
      && forall k :: 0 <= k < |r| ==> r[k] in rows
  {
    var ordered := if sortByCreated then SortByCreated(rows) else rows;
    assert limit * (page - 1) >= 0;
    var r := SelectPage(rows, sortByCreated, limit, page).value;
    forall k | 0 <= k < |r| ensures r[k] in rows {
      assert r[k] == ordered[limit * (page - 1) + k];
      assert r[k] in multiset(ordered);
    }
  }
}
