/** The shared services as the program sees them: two tables, the queue and the object store.
    Each method is one call. While a service is up its calls go through; a call to a service that
    is down fails and changes nothing. */
module Storage {
  import opened Prelude
  import opened Json
  import opened Records
  import opened Lifecycle

  datatype DbError = NoRows | Unavailable

  /** The events table. The primary key refuses a second row for an id. */
  class EventTable {
    var up: bool
    var rows: map<Id, Row>

    constructor ()
      ensures up && rows == map[]
    {
      up, rows := true, map[];
    }

    method SaveProcessedEvent(id: Id, kind: string, payload: Json, traceId: string, priority: string,
                              parent: string, scheduledAt: Option<int>, now: int) returns (ok: bool)
      modifies `rows
      ensures ok <==> up && id !in old(rows)
      ensures rows == if ok then old(rows)[id := NewRow(kind, payload, traceId, priority, parent, scheduledAt, now)] else old(rows)
    {
      if !up { return false; }
      if id in rows { return false; }
      var row := Row(kind, payload, now, Pending, traceId, None, None, None, None);
      if priority != "" { row := row.(priority := Some(priority)); }
      if parent != "" { row := row.(parent := Some(parent)); }
      if scheduledAt.Some? { row := row.(scheduledAt := scheduledAt); }
      rows := rows[id := row];
      ok := true;
    }

    method GetEventByID(id: Id) returns (r: Result<Row, DbError>)
      ensures r.Ok? ==> id in rows && r.value == rows[id]
      ensures r == Err(Unavailable) <==> !up
      ensures r == Err(NoRows) ==> id !in rows
    {
      if !up { return Err(Unavailable); }
      r := if id in rows then Ok(rows[id]) else Err(NoRows);
    }

    method CancelEventIfPending(id: Id) returns (r: Result<nat, DbError>)
      modifies `rows
      ensures r.Err? <==> !up
      ensures r.Err? ==> rows == old(rows)
      ensures r.Ok? ==>
                if id in old(rows) && old(rows)[id].status == Pending
                then r.value == 1 && rows == old(rows)[id := old(rows)[id].(status := Cancelled)]
                else r.value == 0 && rows == old(rows)
    {
      if !up { return Err(Unavailable); }
      if id in rows && rows[id].status == Pending {
        rows := rows[id := rows[id].(status := Cancelled)];
        r := Ok(1);
      } else {
        r := Ok(0);
      }
    }

    /** Sets a failed or cancelled row pending again and returns its priority column. */
    method ResetTaskForRetry(id: Id) returns (r: Result<Option<string>, DbError>)
      modifies `rows
      ensures r == Err(Unavailable) <==> !up
      ensures r.Err? ==> rows == old(rows)
      ensures r == Err(NoRows) ==> id !in rows || !Retryable(rows[id].status)
      ensures r.Ok? ==>
                && id in old(rows) && Retryable(old(rows)[id].status)
                && r.value == old(rows)[id].priority
                && rows == old(rows)[id := old(rows)[id].(status := Pending)]
    {
      if !up { return Err(Unavailable); }
      if id !in rows || !Retryable(rows[id].status) { return Err(NoRows); }
      rows := rows[id := rows[id].(status := Pending)];
      r := Ok(rows[id].priority);
    }

    method UpdateEventStatus(id: Id, status: Status) returns (ok: bool)
      modifies `rows
      ensures ok == up
      ensures rows == if ok && id in old(rows) then old(rows)[id := old(rows)[id].(status := status)] else old(rows)
    {
      if !up { return false; }
      if id in rows { rows := rows[id := rows[id].(status := status)]; }
      ok := true;
    }

    method UpdateEventResult(id: Id, result: Json) returns (ok: bool)
      modifies `rows
      ensures ok == up
      ensures rows == if ok && id in old(rows) then old(rows)[id := old(rows)[id].(result := Some(result))] else old(rows)
    {
      if !up { return false; }
      if id in rows { rows := rows[id := rows[id].(result := Some(result))]; }
      ok := true;
    }
  }

  /** The idempotency table. */
  class KeyTable {
    var up: bool
    var rows: map<string, KeyRow>

    constructor ()
      ensures up && rows == map[]
    {
      up, rows := true, map[];
    }

    /** INSERT ... ON CONFLICT DO NOTHING: the number of rows inserted. */
    method CreateIdempotencyKey(key: string, row: KeyRow) returns (r: Result<nat, DbError>)
      modifies `rows
      ensures r.Err? <==> !up
      ensures r.Err? || key in old(rows) ==> rows == old(rows)
      ensures r.Ok? && key !in old(rows) ==> rows == old(rows)[key := row]
      ensures r.Ok? ==> r.value == if key in old(rows) then 0 else 1
    {
      if !up { return Err(Unavailable); }
      if key in rows { return Ok(0); }
      rows := rows[key := row];
      r := Ok(1);
    }

    /** Reads only rows that have not expired. */
    method GetIdempotencyKey(key: string, now: int) returns (r: Result<KeyRow, DbError>)
      ensures r.Ok? ==> key in rows && rows[key].expiresAt > now && r.value == rows[key]
      ensures r == Err(Unavailable) <==> !up
      ensures r == Err(NoRows) ==> !(key in rows && rows[key].expiresAt > now)
    {
      if !up { return Err(Unavailable); }
      r := if key in rows && rows[key].expiresAt > now then Ok(rows[key]) else Err(NoRows);
    }

    method DeleteExpiredIdempotencyKeys(now: int) returns (r: Result<nat, DbError>)
      modifies `rows
      ensures r.Err? <==> !up
      ensures r.Err? ==> rows == old(rows)
      ensures r.Ok? ==> rows == map k | k in old(rows) && old(rows)[k].expiresAt >= now :: old(rows)[k]
      ensures r.Ok? ==> r.value == |old(rows)| - |rows|
    {
      if !up { return Err(Unavailable); }
      var kept := map k | k in rows && rows[k].expiresAt >= now :: rows[k];
      assert kept.Keys == rows.Keys - (set k | k in rows && rows[k].expiresAt < now);
      var removed := |rows| - |kept|;
      assert |kept.Keys| <= |rows.Keys|;
      rows := kept;
      r := Ok(removed);
    }
  }

  /** The queue: tokens ready at some priority, tokens waiting for a time, and dead letters. */
  class TaskQueue {
    var up: bool
    var ready: seq<Ready>
    var delayed: seq<Delayed>
    var dead: set<Id>

    constructor ()
      ensures up && ready == [] && delayed == [] && dead == {}
    {
      up, ready, delayed, dead := true, [], [], {};
    }

    method EnqueueWithPriority(id: Id, priority: string) returns (ok: bool)
      modifies `ready
      ensures ok == up
      ensures ready == if ok then old(ready) + [Ready(id, priority)] else old(ready)
    {
      if !up { return false; }
      ready := ready + [Ready(id, priority)];
      ok := true;
    }

    method ScheduleAt(id: Id, priority: string, at: int) returns (ok: bool)
      modifies `delayed
      ensures ok == up
      ensures delayed == if ok then old(delayed) + [Delayed(id, priority, at)] else old(delayed)
    {
      if !up { return false; }
      delayed := delayed + [Delayed(id, priority, at)];
      ok := true;
    }

    /** Succeeds only for an id that is on the dead-letter queue. */
    method RemoveFromDLQ(id: Id) returns (ok: bool)
      modifies `dead
      ensures ok <==> up && id in old(dead)
      ensures dead == if ok then old(dead) - {id} else old(dead)
    {
      if !up { return false; }
      ok := id in dead;
      dead := dead - {id};
    }
  }

  class ObjectStore {
    var up: bool
    var objects: set<string>

    constructor ()
      ensures up && objects == {}
    {
      up, objects := true, {};
    }

    method Upload(key: string) returns (ok: bool)
      modifies `objects
      ensures ok == up
      ensures objects == if ok then old(objects) + {key} else old(objects)
    {
      if !up { return false; }
      objects := objects + {key};
      ok := true;
    }

    /** Opens an existing object; what it contains is not modelled. */
    method Download(key: string) returns (ok: bool)
      ensures ok <==> up && key in objects
    {
      if !up { return false; }
      ok := key in objects;
    }
  }
}
