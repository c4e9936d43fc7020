/** What one pass of the relay does to an outbox table, as a function of what the broker and
    the database answer. */
module RelayBatch {
  import opened Base
  import opened Contracts
  import opened Outbox

  /** A publish either is confirmed, or reaches the queues although the relay sees an error
      (the confirm was lost), or fails without reaching them. */
  datatype PublishOutcome = Confirmed | LostConfirm | Rejected

  /** Two senses in which a publish delivers its event: it reaches the queues, or the relay also sees the confirm. */
  datatype Delivery = InQueues | WithConfirm

  predicate Delivers(sense: Delivery, outcome: PublishOutcome) {
    match sense
    case InQueues => !outcome.Rejected?
    case WithConfirm => outcome.Confirmed?
  }

  /** The answers one record meets. A mark that throws did not apply. */
  datatype Attempt = Attempt(publish: PublishOutcome, publishError: string,
                             markPublishedOk: bool, markPublishedError: string,
                             markErrorOk: bool, now: nat)

  /** One call of `publishRecord`. */
  datatype PublishCall = PublishCall(id: nat, event: Event, outcome: PublishOutcome)

  /** `Aborted`: the mark in the inner catch threw, so the outer catch ends the pass. */
  datatype Verdict = Published | Failed | Dead | Aborted

  datatype Config = Config(policy: CountingPolicy, batchSize: nat, maxAttempts: int)

  datatype Pass = Pass(rows: seq<Row>, log: seq<PublishCall>, published: nat, aborted: bool)

  predicate Succeeds(a: Attempt) {
    a.publish.Confirmed? && a.markPublishedOk
  }

  /** The error mark throws: the publish call leaves no trace in the row, and the pass ends. */
  predicate WastesCall(a: Attempt) {
    !Succeeds(a) && !a.markErrorOk
  }

  function ErrorMessage(a: Attempt): string {
    if a.publish.Confirmed? then a.markPublishedError else a.publishError
  }

  predicate LastAttempt(maxAttempts: int, record: Record) {
    record.attempts + 1 >= maxAttempts
  }

  function VerdictOf(maxAttempts: int, record: Record, a: Attempt): Verdict {
    if Succeeds(a) then Published
    else if !a.markErrorOk then Aborted
    else if LastAttempt(maxAttempts, record) then Dead
    else Failed
  }

  function MarkedRow(policy: CountingPolicy, row: Row, verdict: Verdict, a: Attempt): Row {
    match verdict
    case Published => PublishedRow(policy, row, a.now)
    case Failed => FailedRow(policy, row, ErrorMessage(a))
    case Dead => DeadRow(policy, row, ErrorMessage(a), a.now)
    case Aborted => row
  }

  /** The `for` loop over the claimed batch, record by record. `env(id)` is what happens to row `id`. */
  function RunBatch(policy: CountingPolicy, maxAttempts: int, rows: seq<Row>, batch: seq<Record>,
          env: nat -> Attempt): (p: Pass)
    requires InTable(rows, batch)
    ensures |p.rows| == |rows|
    decreases |batch|
  {
    if batch == [] then Pass(rows, [], 0, false)
    else
      var record := batch[0];
      var a := env(record.id);
      var verdict := VerdictOf(maxAttempts, record, a);
      var call := PublishCall(record.id, record.event, a.publish);
      var marked := rows[record.id := MarkedRow(policy, rows[record.id], verdict, a)];
      if verdict.Aborted? then Pass(marked, [call], 0, true)
      else
        var rest := RunBatch(policy, maxAttempts, marked, batch[1..], env);
        Pass(rest.rows, [call] + rest.log, rest.published + (if verdict.Published? then 1 else 0), rest.aborted)
  }

  lemma {:induction false} RunBatchNothing(policy: CountingPolicy, maxAttempts: int, rows: seq<Row>,
          batch: seq<Record>, env: nat -> Attempt)
    requires batch == []
    ensures RunBatch(policy, maxAttempts, rows, batch, env) == Pass(rows, [], 0, false)
  {
  }

  /** One turn of the loop, in the middle of the batch. */
  lemma {:induction false} RunBatchFrom(policy: CountingPolicy, maxAttempts: int, rows: seq<Row>, batch: seq<Record>,
          k: nat, env: nat -> Attempt)
    requires InTable(rows, batch) && k < |batch|
    ensures var a := env(batch[k].id); var verdict := VerdictOf(maxAttempts, batch[k], a);
      var marked := rows[batch[k].id := MarkedRow(policy, rows[batch[k].id], verdict, a)];
      var call := PublishCall(batch[k].id, batch[k].event, a.publish);
      var here := RunBatch(policy, maxAttempts, rows, batch[k..], env);
      if verdict.Aborted? then here == Pass(marked, [call], 0, true)
      else
        var rest := RunBatch(policy, maxAttempts, marked, batch[k + 1..], env);
        here == Pass(rest.rows, [call] + rest.log, rest.published + (if verdict.Published? then 1 else 0), rest.aborted)
  {
    assert batch[k..][1..] == batch[k + 1..];
  }

  /** One pass: claim, then the loop. When the claim throws nothing happens. */
  function Tick(config: Config, rows: seq<Row>, claimOk: bool, env: nat -> Attempt): (p: Pass)
    ensures |p.rows| == |rows|
  {
    if !claimOk then Pass(rows, [], 0, true)
    else
      var (claimed, batch) := Claim(config.policy, rows, config.batchSize);
      RunBatch(config.policy, config.maxAttempts, claimed, batch, env)
  }

  // ---------------------------------------------------------------- what a pass leaves behind

  predicate DistinctIds(batch: seq<Record>) {
    forall k, l :: 0 <= k < l < |batch| ==> batch[k].id != batch[l].id
  }

  predicate InTable(rows: seq<Row>, batch: seq<Record>) {
    forall k :: 0 <= k < |batch| ==> batch[k].id < |rows|
  }

  /** How many records of the batch the loop reaches: it stops after the first one whose error mark throws. */
  function Reached(maxAttempts: int, batch: seq<Record>, env: nat -> Attempt): (n: nat)
    ensures n <= |batch|
    ensures batch != [] ==> n > 0
    ensures forall k :: 0 <= k < n - 1 ==> !VerdictOf(maxAttempts, batch[k], env(batch[k].id)).Aborted?
    ensures n < |batch| ==> VerdictOf(maxAttempts, batch[n - 1], env(batch[n - 1].id)).Aborted?
    decreases |batch|
  {
    if batch == [] then 0
    else if VerdictOf(maxAttempts, batch[0], env(batch[0].id)).Aborted? then 1
    else 1 + Reached(maxAttempts, batch[1..], env)
  }

  /** The publish calls are those of the reached records, in batch order, and the pass ends early
      exactly when the last reached record's error mark threw. */
  lemma {:induction false} RunBatchLog(policy: CountingPolicy, maxAttempts: int, rows: seq<Row>, batch: seq<Record>,
          env: nat -> Attempt)
    requires InTable(rows, batch)
    ensures var p := RunBatch(policy, maxAttempts, rows, batch, env); var n := Reached(maxAttempts, batch, env);
      && |p.log| == n
      && (forall k :: 0 <= k < n ==> p.log[k] == PublishCall(batch[k].id, batch[k].event, env(batch[k].id).publish))
      && (p.aborted <==> n > 0 && VerdictOf(maxAttempts, batch[n - 1], env(batch[n - 1].id)).Aborted?)
    decreases |batch|
  {
    if batch != [] {
      var a := env(batch[0].id);
      var verdict := VerdictOf(maxAttempts, batch[0], a);
      if !verdict.Aborted? {
        var marked := rows[batch[0].id := MarkedRow(policy, rows[batch[0].id], verdict, a)];
        RunBatchLog(policy, maxAttempts, marked, batch[1..], env);
      }
    }
  }

  /** Rows the loop does not reach are untouched. */
  lemma {:induction false} RunBatchFrame(policy: CountingPolicy, maxAttempts: int, rows: seq<Row>, batch: seq<Record>,
          env: nat -> Attempt, i: nat)
    requires InTable(rows, batch) && i < |rows|
    requires forall k :: 0 <= k < Reached(maxAttempts, batch, env) ==> batch[k].id != i
    ensures RunBatch(policy, maxAttempts, rows, batch, env).rows[i] == rows[i]
    decreases |batch|
  {
    if batch != [] {
      var a := env(batch[0].id);
      var verdict := VerdictOf(maxAttempts, batch[0], a);
      assert batch[0].id != i;
      if !verdict.Aborted? {
        var marked := rows[batch[0].id := MarkedRow(policy, rows[batch[0].id], verdict, a)];
        assert forall k :: 0 <= k < Reached(maxAttempts, batch[1..], env) ==> batch[1..][k] == batch[k + 1];
        RunBatchFrame(policy, maxAttempts, marked, batch[1..], env, i);
      }
    }
  }

  /** A reached row becomes what its own answers make of it. */
  lemma {:induction false} RunBatchRow(policy: CountingPolicy, maxAttempts: int, rows: seq<Row>, batch: seq<Record>,
          env: nat -> Attempt, k: nat)
    requires InTable(rows, batch) && DistinctIds(batch)
    requires k < Reached(maxAttempts, batch, env)
    ensures var id := batch[k].id;
      RunBatch(policy, maxAttempts, rows, batch, env).rows[id]
        == MarkedRow(policy, rows[id], VerdictOf(maxAttempts, batch[k], env(id)), env(id))
    decreases |batch|
  {
    var a := env(batch[0].id);
    var verdict := VerdictOf(maxAttempts, batch[0], a);
    var marked := rows[batch[0].id := MarkedRow(policy, rows[batch[0].id], verdict, a)];
    var tail := batch[1..];
    if !verdict.Aborted? {
      assert forall l :: 0 <= l < |tail| ==> tail[l] == batch[l + 1];
      if k == 0 {
        RunBatchFrame(policy, maxAttempts, marked, tail, env, batch[0].id);
      } else {
        RunBatchRow(policy, maxAttempts, marked, tail, env, k - 1);
      }
    }
  }

  // ---------------------------------------------------------------- one row through one pass

  predicate Claimed(config: Config, rows: seq<Row>, i: nat)
    requires i < |rows|
  {
    Pending(rows[i]) && Ahead(rows, 0, i) < config.batchSize
  }

  /** What a pass without store faults makes of row `i`, in terms of that row alone. */
  function RowAfter(config: Config, row: Row, claimed: bool, i: nat, a: Attempt): Row {
    if !claimed then row
    else
      var counted := ClaimedRow(config.policy, row);
      MarkedRow(config.policy, counted, VerdictOf(config.maxAttempts, Record(i, counted.attempts, row.event), a), a)
  }

  /** What the answers make of a row that the pass gets to, column by column. `AtClaim` has counted the attempt
      before the relay compares. */
  lemma {:induction false} CalledRowIs(config: Config, row: Row, i: nat, a: Attempt)
    ensures var later := RowAfter(config, row, true, i, a);
      var counted := if config.policy.AtClaim? then row.attempts + 1 else row.attempts;
      if a.publish.Confirmed? && a.markPublishedOk then
        later == Row(row.event, row.attempts + 1, Some(a.now), row.deadAt, None)
      else if a.markErrorOk then
        later == Row(row.event, row.attempts + 1, row.publishedAt,
                     if counted + 1 >= config.maxAttempts then Some(a.now) else row.deadAt,
                     Some(if a.publish.Confirmed? then a.markPublishedError else a.publishError))
      else later == row.(attempts := counted)
  {
  }

  /** No store call of the pass throws. */
  ghost predicate StoreUp(claimOk: bool, env: nat -> Attempt) {
    claimOk && forall id :: env(id).markPublishedOk && env(id).markErrorOk
  }

  /** Under any store faults: a pass calls `publish` on the oldest pending rows only, oldest first and
      at most once each; without faults it reaches every claimed row. */
  lemma {:induction false} TickLog(config: Config, rows: seq<Row>, claimOk: bool, env: nat -> Attempt)
    ensures var p := Tick(config, rows, claimOk, env); var ids := PendingIds(rows, 0, config.batchSize);
      && |p.log| <= |ids|
      && (forall k :: 0 <= k < |p.log| ==> p.log[k] == PublishCall(ids[k], rows[ids[k]].event, env(ids[k]).publish))
      && (!p.aborted ==> |p.log| == |ids|)
      && (StoreUp(claimOk, env) ==> !p.aborted)
      && (!claimOk ==> p.rows == rows && p.log == [])
      && (claimOk && ids != [] ==> p.log != [])
  {
    hide RunBatch, PendingIds, Reached;
    if claimOk {
      var (claimed, batch) := Claim(config.policy, rows, config.batchSize);
      RunBatchLog(config.policy, config.maxAttempts, claimed, batch, env);
    }
  }

  /** Under any store faults: a row that is not claimed is untouched. */
  lemma {:induction false} TickUnclaimed(config: Config, rows: seq<Row>, claimOk: bool, env: nat -> Attempt, i: nat)
    requires i < |rows| && i !in PendingIds(rows, 0, config.batchSize)
    ensures Tick(config, rows, claimOk, env).rows[i] == rows[i]
  {
    hide RunBatch, PendingIds, Reached;
    if claimOk {
      var (claimed, batch) := Claim(config.policy, rows, config.batchSize);
      RunBatchFrame(config.policy, config.maxAttempts, claimed, batch, env, i);
    }
  }

  lemma {:induction false} ClaimedBatch(policy: CountingPolicy, rows: seq<Row>, limit: nat)
    ensures var (claimed, batch) := Claim(policy, rows, limit);
      |claimed| == |rows| && |batch| == |PendingIds(rows, 0, limit)| && InTable(claimed, batch) && DistinctIds(batch)
  {
    hide PendingIds;
  }

  lemma {:induction false} ClaimedAt(policy: CountingPolicy, rows: seq<Row>, limit: nat, k: nat)
    requires k < |PendingIds(rows, 0, limit)|
    ensures var (claimed, batch) := Claim(policy, rows, limit); var i := PendingIds(rows, 0, limit)[k];
      && |batch| == |PendingIds(rows, 0, limit)| && |claimed| == |rows|
      && claimed[i] == ClaimedRow(policy, rows[i])
      && batch[k] == Record(i, ClaimedRow(policy, rows[i]).attempts, rows[i].event)
  {
    hide PendingIds;
  }

  /** Under any store faults, the `k`-th claimed row: if the pass reaches it, it is marked by its own
      answers; behind an early end it keeps everything but the attempt that its claim counted in the
      tracking store. */
  lemma {:induction false} TickClaimed(config: Config, rows: seq<Row>, env: nat -> Attempt, k: nat)
    requires k < |PendingIds(rows, 0, config.batchSize)|
    ensures var p := Tick(config, rows, true, env); var i := PendingIds(rows, 0, config.batchSize)[k];
      p.rows[i] == if k < |p.log| then RowAfter(config, rows[i], true, i, env(i))
        else ClaimedRow(config.policy, rows[i])
  {
    hide RunBatch, PendingIds, Reached, MarkedRow, VerdictOf, Claim, ClaimedRow;
    var (claimed, batch) := Claim(config.policy, rows, config.batchSize);
    var ids := PendingIds(rows, 0, config.batchSize);
    ClaimedBatch(config.policy, rows, config.batchSize);
    ClaimedAt(config.policy, rows, config.batchSize, k);
    RunBatchLog(config.policy, config.maxAttempts, claimed, batch, env);
    if k < Reached(config.maxAttempts, batch, env) {
      RunBatchRow(config.policy, config.maxAttempts, claimed, batch, env, k);
    } else {
      RunBatchFrame(config.policy, config.maxAttempts, claimed, batch, env, ids[k]);
    }
  }

  /** Without store faults a pass makes of every row what its own answers make of it. */
  lemma {:induction false} TickEffect(config: Config, rows: seq<Row>, env: nat -> Attempt, i: nat)
    requires StoreUp(true, env)
    requires i < |rows|
    ensures Tick(config, rows, true, env).rows[i] == RowAfter(config, rows[i], Claimed(config, rows, i), i, env(i))
  {
    var ids := PendingIds(rows, 0, config.batchSize);
    TickLog(config, rows, true, env);
    ClaimedIff(rows, 0, config.batchSize, i);
    if i in ids {
      var k :| 0 <= k < |ids| && ids[k] == i;
      TickClaimed(config, rows, env, k);
    } else {
      TickUnclaimed(config, rows, true, env, i);
    }
  }

  // ---------------------------------------------------------------- accounting

  /** How many rows are published. */
  function CountPublished(rows: seq<Row>): nat {
    if rows == [] then 0 else CountPublished(rows[..|rows| - 1]) + (if rows[|rows| - 1].publishedAt.Some? then 1 else 0)
  }

  lemma {:induction false} CountPublishedUpdate(rows: seq<Row>, i: nat, row: Row)
    requires i < |rows|
    ensures CountPublished(rows[i := row]) + (if rows[i].publishedAt.Some? then 1 else 0)
         == CountPublished(rows) + (if row.publishedAt.Some? then 1 else 0)
  {
    var n := |rows| - 1;
    if i < n {
      assert rows[i := row][..n] == rows[..n][i := row];
      CountPublishedUpdate(rows[..n], i, row);
    } else {
      assert rows[i := row][..n] == rows[..n];
    }
  }

  lemma {:induction false} CountPublishedClaimed(policy: CountingPolicy, rows: seq<Row>, claimed: seq<Row>)
    requires |claimed| == |rows|
    requires forall i :: 0 <= i < |rows| ==> claimed[i] == rows[i] || claimed[i] == ClaimedRow(policy, rows[i])
    ensures CountPublished(claimed) == CountPublished(rows)
  {
    if rows != [] {
      CountPublishedClaimed(policy, rows[..|rows| - 1], claimed[..|rows| - 1]);
    }
  }

  lemma {:induction false} RunBatchCount(policy: CountingPolicy, maxAttempts: int, rows: seq<Row>, batch: seq<Record>,
          env: nat -> Attempt)
    requires forall k :: 0 <= k < |batch| ==> batch[k].id < |rows| && Pending(rows[batch[k].id])
    requires DistinctIds(batch)
    ensures var p := RunBatch(policy, maxAttempts, rows, batch, env);
      CountPublished(p.rows) == CountPublished(rows) + p.published
    decreases |batch|
  {
    if batch != [] {
      var record := batch[0];
      var a := env(record.id);
      var verdict := VerdictOf(maxAttempts, record, a);
      var marked := rows[record.id := MarkedRow(policy, rows[record.id], verdict, a)];
      CountPublishedUpdate(rows, record.id, MarkedRow(policy, rows[record.id], verdict, a));
      if !verdict.Aborted? {
        assert forall k :: 0 <= k < |batch[1..]| ==> batch[1..][k] == batch[k + 1] && batch[k + 1].id != record.id;
        RunBatchCount(policy, maxAttempts, marked, batch[1..], env);
      }
    }
  }

  /** The number a pass returns is the number of rows it newly marked published, whatever fails. */
  lemma {:induction false} TickReturnsNewlyPublished(config: Config, rows: seq<Row>, claimOk: bool, env: nat -> Attempt)
    ensures var p := Tick(config, rows, claimOk, env);
      CountPublished(p.rows) == CountPublished(rows) + p.published
  {
    hide RunBatch, PendingIds, Reached;
    if claimOk {
      var (claimed, batch) := Claim(config.policy, rows, config.batchSize);
      CountPublishedClaimed(config.policy, rows, claimed);
      RunBatchCount(config.policy, config.maxAttempts, claimed, batch, env);
    }
  }
}
