/** The two `OutboxStore` implementations, over one kind of table. A database call that throws is
    given by a parameter and leaves the table as it was. */
module OutboxStores {
  import opened Base
  import opened Contracts
  import opened Outbox

  class OutboxTable {
    var rows: seq<Row>

    constructor ()
      ensures rows == []
    {
      rows := [];
    }

    method Insert(event: Event)
      modifies this
      ensures rows == old(rows) + [NewRow(event)]
    {
      rows := rows + [NewRow(event)];
    }
  }

  /** The order service's store: `claimBatch` only reads, every mark counts the attempt. */
  class PrismaOutboxStore {
    const table: OutboxTable

    constructor (table: OutboxTable)
      ensures this.table == table
    {
      this.table := table;
    }

    method ClaimBatch(limit: nat, fault: Option<nat>) returns (r: Result<seq<Record>, string>)
      modifies table
      ensures r.Ok? <==> fault.None?
      ensures r.Ok? ==> (table.rows, r.value) == Claim(AtMark, old(table.rows), limit)
      ensures table.rows == old(table.rows)
    {
      if fault.Some? {
        return Err("query failed");
      }
      var ids := PendingIds(table.rows, 0, limit);
      assert ClaimedRows(AtMark, table.rows, ids) == table.rows;
      r := Ok(Records(table.rows, ids));
    }

    method MarkPublished(id: nat, now: nat, ok: bool) returns (done: bool)
      requires id < |table.rows|
      modifies table
      ensures done == ok
      ensures table.rows == if ok then old(table.rows)[id := PublishedRow(AtMark, old(table.rows[id]), now)]
        else old(table.rows)
    {
      if ok {
        var row := table.rows[id];
        table.rows := table.rows[id := row.(publishedAt := Some(now), attempts := row.attempts + 1, lastError := None)];
      }
      done := ok;
    }

    method MarkFailed(id: nat, error: string, ok: bool) returns (done: bool)
      requires id < |table.rows|
      modifies table
      ensures done == ok
      ensures table.rows == if ok then old(table.rows)[id := FailedRow(AtMark, old(table.rows[id]), error)]
        else old(table.rows)
    {
      if ok {
        var row := table.rows[id];
        table.rows := table.rows[id := row.(attempts := row.attempts + 1, lastError := Some(error))];
      }
      done := ok;
    }

    method MarkDead(id: nat, error: string, now: nat, ok: bool) returns (done: bool)
      requires id < |table.rows|
      modifies table
      ensures done == ok
      ensures table.rows == if ok then old(table.rows)[id := DeadRow(AtMark, old(table.rows[id]), error, now)]
        else old(table.rows)
    {
      if ok {
        var row := table.rows[id];
        table.rows := table.rows[id :=
          row.(attempts := row.attempts + 1, deadAt := Some(now), lastError := Some(error))];
      }
      done := ok;
    }
  }

  /** The tracking service's store: `claimBatch` counts the attempt, the marks do not. */
  class OutboxRepository {
    const table: OutboxTable

    constructor (table: OutboxTable)
      ensures this.table == table
    {
      this.table := table;
    }

    method Enqueue(event: Event)
      modifies table
      ensures table.rows == old(table.rows) + [NewRow(event)]
    {
      table.Insert(event);
    }

    /** One transaction: the query, then one update a row. `fault = Some(n)` makes statement `n` throw
        (the query is statement 0, the update of the `k`-th record statement `k + 1`), which rolls the
        transaction back; a fault behind the last statement never happens. */
    method ClaimBatch(limit: nat, fault: Option<nat>) returns (r: Result<seq<Record>, string>)
      modifies table
      ensures r.Ok? <==> fault.None? || fault.value > |PendingIds(old(table.rows), 0, limit)|
      ensures r.Ok? ==> (table.rows, r.value) == Claim(AtClaim, old(table.rows), limit)
      ensures r.Err? ==> table.rows == old(table.rows)
    {
      hide PendingIds, ClaimedRows, Records;
      var before := table.rows;
      if fault == Some(0) {
        return Err("query failed");
      }
      var ids := PendingIds(table.rows, 0, limit);
      var claimed: seq<Record> := [];
      for k := 0 to |ids|
        invariant fault.None? || fault.value > k
        invariant table.rows == ClaimedRows(AtClaim, before, ids[..k])
        invariant |claimed| == k
        invariant forall j :: 0 <= j < k ==>
          claimed[j] == Record(ids[j], before[ids[j]].attempts + 1, before[ids[j]].event)
      {
        if fault == Some(k + 1) {
          table.rows := before;
          return Err("update failed");
        }
        ClaimOneMore(AtClaim, before, ids, k);
        var updated := IncrementAttempts(ids[k]);
        claimed := claimed + [updated];
      }
      assert ids[..|ids|] == ids;
      RecordsOfClaim(AtClaim, before, ids, claimed);
      r := Ok(claimed);
    }

    /** The update inside the claim, mapped to a record. */
    method IncrementAttempts(id: nat) returns (record: Record)
      requires id < |table.rows|
      modifies table
      ensures table.rows == old(table.rows)[id := ClaimedRow(AtClaim, old(table.rows[id]))]
      ensures record == Record(id, old(table.rows[id]).attempts + 1, old(table.rows[id]).event)
    {
      table.rows := table.rows[id := table.rows[id].(attempts := table.rows[id].attempts + 1)];
      record := ToRecord(table.rows, id);
    }

    method MarkPublished(id: nat, now: nat, ok: bool) returns (done: bool)
      requires id < |table.rows|
      modifies table
      ensures done == ok
      ensures table.rows == if ok then old(table.rows)[id := PublishedRow(AtClaim, old(table.rows[id]), now)]
        else old(table.rows)
    {
      if ok {
        table.rows := table.rows[id := table.rows[id].(publishedAt := Some(now), lastError := None)];
      }
      done := ok;
    }

    method MarkFailed(id: nat, error: string, ok: bool) returns (done: bool)
      requires id < |table.rows|
      modifies table
      ensures done == ok
      ensures table.rows == if ok then old(table.rows)[id := FailedRow(AtClaim, old(table.rows[id]), error)]
        else old(table.rows)
    {
      if ok {
        table.rows := table.rows[id := table.rows[id].(lastError := Some(error))];
      }
      done := ok;
    }

    method MarkDead(id: nat, error: string, now: nat, ok: bool) returns (done: bool)
      requires id < |table.rows|
      modifies table
      ensures done == ok
      ensures table.rows == if ok then old(table.rows)[id := DeadRow(AtClaim, old(table.rows[id]), error, now)]
        else old(table.rows)
    {
      if ok {
        table.rows := table.rows[id := table.rows[id].(deadAt := Some(now), lastError := Some(error))];
      }
      done := ok;
    }
  }

  /** The interface the relay talks to: either store. */
  datatype OutboxStore = OrderStore(orders: PrismaOutboxStore) | TrackingStore(tracking: OutboxRepository) {

    function Policy(): CountingPolicy {
      if OrderStore? then AtMark else AtClaim
    }

    function Table(): OutboxTable {
      if OrderStore? then orders.table else tracking.table
    }

    predicate ClaimSucceeds(rows: seq<Row>, limit: nat, fault: Option<nat>) {
      fault.None? || (TrackingStore? && fault.value > |PendingIds(rows, 0, limit)|)
    }

    method ClaimBatch(limit: nat, fault: Option<nat>) returns (r: Result<seq<Record>, string>)
      modifies Table()
      ensures r.Ok? <==> ClaimSucceeds(old(Table().rows), limit, fault)
      ensures r.Ok? ==> (Table().rows, r.value) == Claim(Policy(), old(Table().rows), limit)
      ensures r.Err? ==> Table().rows == old(Table().rows)
    {
      match this
      case OrderStore(store) => r := store.ClaimBatch(limit, fault);
      case TrackingStore(store) => r := store.ClaimBatch(limit, fault);
    }

    method MarkPublished(id: nat, now: nat, ok: bool) returns (done: bool)
      requires id < |Table().rows|
      modifies Table()
      ensures done == ok
      ensures Table().rows == if ok then old(Table().rows)[id := PublishedRow(Policy(), old(Table().rows[id]), now)]
        else old(Table().rows)
    {
      match this
      case OrderStore(store) => done := store.MarkPublished(id, now, ok);
      case TrackingStore(store) => done := store.MarkPublished(id, now, ok);
    }

    method MarkFailed(id: nat, error: string, ok: bool) returns (done: bool)
      requires id < |Table().rows|
      modifies Table()
      ensures done == ok
      ensures Table().rows == if ok then old(Table().rows)[id := FailedRow(Policy(), old(Table().rows[id]), error)]
        else old(Table().rows)
    {
      match this
      case OrderStore(store) => done := store.MarkFailed(id, error, ok);
      case TrackingStore(store) => done := store.MarkFailed(id, error, ok);
    }

    method MarkDead(id: nat, error: string, now: nat, ok: bool) returns (done: bool)
      requires id < |Table().rows|
      modifies Table()
      ensures done == ok
      ensures Table().rows == if ok
        then old(Table().rows)[id := DeadRow(Policy(), old(Table().rows[id]), error, now)] else old(Table().rows)
    {
      match this
      case OrderStore(store) => done := store.MarkDead(id, error, now, ok);
      case TrackingStore(store) => done := store.MarkDead(id, error, now, ok);
    }
  }
}
