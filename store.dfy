/**
 * The database behind the model's `create()`, `read()` and `update()`, which
 * the framework provides: here a table keyed by its `id` column, with an id
 * sequence for inserts and the clock reading as an input. Like a database
 * sequence, the id sequence knows nothing of ids written by hand, so an
 * insert or an update can meet an id that is already taken.
 */
module Stores {
  import opened Wrappers
  import opened Php
  import opened ServiceController
  import opened HoldRequests

  class Store {
    /** The stored hold requests by their `id` column. */
    var rows: map<int, HoldRequestData>
    /** The value the id sequence gives next. */
    var nextId: int
    /** What `read()` throws when no row has the requested id. */
    const missing: Exception
    /** What the database throws when a write would give two rows the same id. */
    const duplicate: Exception

    /** Every row sits under its own id, and the sequence counts from 1. */
    predicate Valid()
      reads this
    {
      1 <= nextId
      && forall id :: id in rows ==> rows[id].id == Some(id)
    }

    constructor(missing: Exception, duplicate: Exception)
      ensures Valid() && rows == map[] && nextId == 1
      ensures this.missing == missing && this.duplicate == duplicate
    {
      rows := map[];
      nextId := 1;
      this.missing := missing;
      this.duplicate := duplicate;
    }

    /**
     * `create()`: the row takes the sequence's next value as its id and is
     * stamped with its creation time. The sequence advances even when that id
     * is already taken, in which case nothing is stored.
     */
    method Insert(row: HoldRequestData, now: string) returns (result: Result<PhpInt, Exception>)
      requires Valid() && nextId <= INT_MAX
      modifies this
      ensures Valid() && nextId == old(nextId) + 1
      ensures result.Success? <==> old(nextId) !in old(rows)
      ensures result.Success? ==>
                result.value == old(nextId)
                && rows == old(rows)[result.value := row.(id := Some(result.value), createdDate := Some(now))]
      ensures result.Failure? ==> result.error == duplicate && rows == old(rows)
    {
      var id: PhpInt := nextId;
      nextId := nextId + 1;
      if id in rows {
        return Failure(duplicate);
      }
      rows := rows[id := row.(id := Some(id), createdDate := Some(now))];
      return Success(id);
    }

    /** `read()` with an `id` filter: the row, or the store's not-found exception. */
    function Find(id: int): (found: Result<HoldRequestData, Exception>)
      reads this
      ensures found.Success? <==> id in rows
      ensures found.Success? ==> found.value == rows[id]
      ensures found.Failure? ==> found.error == missing
    {
      if id in rows then Success(rows[id]) else Failure(missing)
    }

    /**
     * `update()` after a read by `key`: the row the read selected is written
     * with every field of `row`, its id included. When `row` keeps the id, the
     * row is replaced in place; when it carries another id that is free, the
     * row moves to that id; when that id is taken, the write fails and changes
     * nothing.
     */
    method Put(key: int, row: HoldRequestData) returns (outcome: Outcome<Exception>)
      requires Valid() && key in rows && row.id.Some?
      modifies this
      ensures Valid() && nextId == old(nextId)
      ensures outcome.Fail? <==> row.id.value != key && row.id.value in old(rows)
      ensures outcome.Fail? ==> outcome.error == duplicate && unchanged(this)
      ensures outcome.Pass? ==> rows == (old(rows) - {key})[row.id.value := row]
      ensures row.id == Some(key) ==> outcome.Pass? && rows == old(rows)[key := row]
    {
      var id := row.id.value;
      if id != key && id in rows {
        return Fail(duplicate);
      }
      rows := (rows - {key})[id := row];
      return Pass;
    }
  }
}
