/** Outbox tables. A table is the sequence of its rows in `createdAt` order: rows are only ever
    appended, so a row's position is its identity. The two services count delivery attempts at
    different moments, which is the only difference between their stores. */
module Outbox {
  import opened Base
  import opened Contracts

  datatype Row = Row(event: Event, attempts: nat, publishedAt: Option<nat>, deadAt: Option<nat>,
                     lastError: Option<string>)

  /** The snapshot of a row that `claimBatch` hands to the relay. */
  datatype Record = Record(id: nat, attempts: nat, event: Event)

  /** `AtMark`: the order service increments `attempts` when it marks a row.
      `AtClaim`: the tracking service increments `attempts` when it claims a row. */
  datatype CountingPolicy = AtMark | AtClaim

  function NewRow(event: Event): Row {
    Row(event, 0, None, None, None)
  }

  predicate Pending(row: Row) {
    row.publishedAt.None? && row.deadAt.None?
  }

  function AtMarkIncrement(policy: CountingPolicy): nat {
    if policy.AtMark? then 1 else 0
  }

  function AtClaimIncrement(policy: CountingPolicy): nat {
    if policy.AtClaim? then 1 else 0
  }

  function PublishedRow(policy: CountingPolicy, row: Row, now: nat): Row {
    row.(publishedAt := Some(now), attempts := row.attempts + AtMarkIncrement(policy), lastError := None)
  }

  function FailedRow(policy: CountingPolicy, row: Row, error: string): Row {
    row.(attempts := row.attempts + AtMarkIncrement(policy), lastError := Some(error))
  }

  function DeadRow(policy: CountingPolicy, row: Row, error: string, now: nat): Row {
    row.(attempts := row.attempts + AtMarkIncrement(policy), deadAt := Some(now), lastError := Some(error))
  }

  /** The query of `claimBatch`: the first `limit` pending rows from position `from` on. */
  function PendingIds(rows: seq<Row>, from: nat, limit: nat): (ids: seq<nat>)
    requires from <= |rows|
    ensures |ids| <= limit
    ensures forall k :: 0 <= k < |ids| ==> from <= ids[k] < |rows| && Pending(rows[ids[k]])
    ensures forall k, l :: 0 <= k < l < |ids| ==> ids[k] < ids[l]
    decreases |rows| - from
  {
    if limit == 0 || from == |rows| then []
    else if Pending(rows[from]) then [from] + PendingIds(rows, from + 1, limit - 1)
    else PendingIds(rows, from + 1, limit)
  }

  /** How many pending rows stand in `rows[from..i]`, that is, ahead of row `i`. */
  function Ahead(rows: seq<Row>, from: nat, i: nat): (n: nat)
    requires from <= i <= |rows|
    ensures n <= i - from
    decreases i - from
  {
    if from == i then 0 else (if Pending(rows[from]) then 1 else 0) + Ahead(rows, from + 1, i)
  }

  /** A row is claimed exactly when it is pending and fewer than `limit` pending rows precede it. */
  lemma {:induction false} ClaimedIff(rows: seq<Row>, from: nat, limit: nat, i: nat)
    requires from <= i < |rows|
    ensures i in PendingIds(rows, from, limit) <==> Pending(rows[i]) && Ahead(rows, from, i) < limit
    decreases |rows| - from
  {
    if limit == 0 || from == i {
    } else if Pending(rows[from]) {
      ClaimedIff(rows, from + 1, limit - 1, i);
    } else {
      ClaimedIff(rows, from + 1, limit, i);
    }
  }

  /** The rows after a claim of `ids`: only the claiming-time counter moves. */
  function ClaimedRows(policy: CountingPolicy, rows: seq<Row>, ids: seq<nat>): (claimed: seq<Row>)
    ensures |claimed| == |rows|
    ensures forall i :: 0 <= i < |rows| ==> claimed[i] == if i in ids then ClaimedRow(policy, rows[i]) else rows[i]
  {
    seq(|rows|, i requires 0 <= i < |rows| => if i in ids then ClaimedRow(policy, rows[i]) else rows[i])
  }

  function ClaimedRow(policy: CountingPolicy, row: Row): Row {
    row.(attempts := row.attempts + AtClaimIncrement(policy))
  }

  /** Claiming one more row changes that row only. */
  lemma {:induction false} ClaimOneMore(policy: CountingPolicy, rows: seq<Row>, ids: seq<nat>, k: nat)
    requires k < |ids| && ids[k] < |rows| && ids[k] !in ids[..k]
    ensures ClaimedRows(policy, rows, ids[..k + 1])
      == ClaimedRows(policy, rows, ids[..k])[ids[k] := ClaimedRow(policy, rows[ids[k]])]
    ensures ClaimedRows(policy, rows, ids[..k])[ids[k]] == rows[ids[k]]
  {
    assert ids[..k + 1] == ids[..k] + [ids[k]];
    var more, fewer := ClaimedRows(policy, rows, ids[..k + 1]), ClaimedRows(policy, rows, ids[..k]);
    forall i | 0 <= i < |rows| ensures more[i] == fewer[ids[k] := ClaimedRow(policy, rows[ids[k]])][i] {
      assert i in ids[..k + 1] <==> i in ids[..k] || i == ids[k];
    }
  }

  /** The records handed to the relay, read after the claiming-time increment. */
  function Records(rows: seq<Row>, ids: seq<nat>): (records: seq<Record>)
    requires forall k :: 0 <= k < |ids| ==> ids[k] < |rows|
    ensures |records| == |ids|
    ensures forall k :: 0 <= k < |ids| ==> records[k] == ToRecord(rows, ids[k])
  {
    seq(|ids|, k requires 0 <= k < |ids| => ToRecord(rows, ids[k]))
  }

  function ToRecord(rows: seq<Row>, id: nat): Record
    requires id < |rows|
  {
    Record(id, rows[id].attempts, rows[id].event)
  }

  /** The batch, record by record. */
  lemma {:induction false} RecordsOfClaim(policy: CountingPolicy, rows: seq<Row>, ids: seq<nat>, records: seq<Record>)
    requires forall k :: 0 <= k < |ids| ==> ids[k] < |rows|
    requires |records| == |ids|
    requires forall k :: 0 <= k < |ids| ==>
      records[k] == Record(ids[k], rows[ids[k]].attempts + AtClaimIncrement(policy), rows[ids[k]].event)
    ensures records == Records(ClaimedRows(policy, rows, ids), ids)
  {
    forall k | 0 <= k < |ids| ensures records[k] == Records(ClaimedRows(policy, rows, ids), ids)[k] {
      assert ids[k] in ids;
    }
  }

  /** `claimBatch` as a function: the rows afterwards and the batch. */
  function Claim(policy: CountingPolicy, rows: seq<Row>, limit: nat): (seq<Row>, seq<Record>) {
    var ids := PendingIds(rows, 0, limit);
    var claimed := ClaimedRows(policy, rows, ids);
    (claimed, Records(claimed, ids))
  }
}
