/** Rows of the events and idempotency tables, and tokens of the queue. */
module Records {
  import opened Prelude
  import opened Json

  /** A UUID text; the only facts used are that it is not empty and has no '.'. */
  type Id = string

  predicate IsId(id: Id) {
    id != "" && '.' !in id
  }

  datatype Status = Pending | Processed | Failed | Cancelled

  /** An events row. The payload column holds the marshalled request. */
  datatype Row = Row(
    kind: string,
    payload: Json,
    createdAt: int,
    status: Status,
    traceId: string,
    priority: Option<string>,
    parent: Option<Id>,
    scheduledAt: Option<int>,
    result: Option<Json>)

  /** An empty string is stored as SQL NULL. */
  function Column(s: string): Option<string> {
    if s == "" then None else Some(s)
  }

  /** The row that saving an event inserts: always pending, with no result yet. */
  function NewRow(kind: string, payload: Json, traceId: string, priority: string, parent: string,
                  scheduledAt: Option<int>, now: int): Row {
    Row(kind, payload, now, Pending, traceId, Column(priority), Column(parent), scheduledAt, None)
  }

  datatype KeyRow = KeyRow(eventId: Id, expiresAt: int)

  datatype Command = Enqueue(priority: string) | Schedule(priority: string, at: int)

  /** The queue call that create and chaining issue for a fresh event. */
  function Launch(priority: string, executeAt: Option<int>): Command {
    match executeAt
    case Some(t) => Schedule(priority, t)
    case None => Enqueue(priority)
  }
}
