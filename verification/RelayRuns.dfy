/** Runs of one relay over one outbox table: any number of passes, with rows arriving between them. */
module RelayRuns {
  import opened Contracts
  import opened Outbox
  import opened RelayBatch

  /** One round: the rows that became visible since the last claim, and what the pass then meets. */
  datatype Round = Round(arrivals: seq<Event>, claimOk: bool, env: nat -> Attempt)

  /** The table together with the history of all publish calls. */
  datatype World = World(rows: seq<Row>, log: seq<PublishCall>)

  const EMPTY := World([], [])

  function Arrive(rows: seq<Row>, arrivals: seq<Event>): (r: seq<Row>)
    ensures |r| == |rows| + |arrivals| && r[..|rows|] == rows
    ensures forall i :: |rows| <= i < |r| ==> r[i] == NewRow(arrivals[i - |rows|])
  {
    rows + seq(|arrivals|, k requires 0 <= k < |arrivals| => NewRow(arrivals[k]))
  }

  function Step(config: Config, w: World, round: Round): World {
    var p := Tick(config, Arrive(w.rows, round.arrivals), round.claimOk, round.env);
    World(p.rows, w.log + p.log)
  }

  function Run(config: Config, w: World, rounds: seq<Round>): World
    decreases |rounds|
  {
    if rounds == [] then w else Run(config, Step(config, w, rounds[0]), rounds[1..])
  }

  lemma {:induction false} RunSplit(config: Config, w: World, rounds: seq<Round>, n: nat)
    requires n <= |rounds|
    ensures Run(config, w, rounds) == Run(config, Run(config, w, rounds[..n]), rounds[n..])
    decreases n
  {
    if n > 0 {
      RunSplit(config, Step(config, w, rounds[0]), rounds[1..], n - 1);
      assert rounds[1..][..n - 1] == rounds[..n][1..];
      assert rounds[1..][n - 1..] == rounds[n..];
    }
  }

  // ---------------------------------------------------------------- what every round keeps, whatever fails

  /** Every pending row older than a claimed row is claimed before it. */
  lemma {:induction false} OlderClaimedFirst(rows: seq<Row>, from: nat, limit: nat, k: nat, i: nat)
    requires from <= i && from <= |rows|
    requires k < |PendingIds(rows, from, limit)| && i < PendingIds(rows, from, limit)[k] && Pending(rows[i])
    ensures exists l :: 0 <= l < k && PendingIds(rows, from, limit)[l] == i
    decreases |rows| - from
  {
    var ids := PendingIds(rows, from, limit);
    if Pending(rows[from]) {
      if i == from {
        assert ids[0] == i;
      } else {
        OlderClaimedFirst(rows, from + 1, limit - 1, k - 1, i);
        var l :| 0 <= l < k - 1 && PendingIds(rows, from + 1, limit - 1)[l] == i;
        assert ids[l + 1] == i;
      }
    } else {
      OlderClaimedFirst(rows, from + 1, limit, k, i);
    }
  }

  /** The call of row `i` is the `k`-th of the log and its only one. */
  predicate OnlyCall(log: seq<PublishCall>, k: nat, i: nat, call: PublishCall) {
    k < |log| && log[k] == call && call.id == i && forall l :: 0 <= l < |log| && l != k ==> log[l].id != i
  }

  predicate NoCall(log: seq<PublishCall>, i: nat) {
    forall l :: 0 <= l < |log| ==> log[l].id != i
  }

  /** One row through one pass, under any faults: it is called once and becomes what its own answers make
      of it, or it is not called and keeps everything, except for the attempt that its claim counts when
      the pass ends early. */
  lemma {:induction false} RowThroughTick(config: Config, rows: seq<Row>, claimOk: bool, env: nat -> Attempt, i: nat)
    returns (called: bool, k: nat)
    requires i < |rows|
    ensures var p := Tick(config, rows, claimOk, env);
      if called then
        && Pending(rows[i]) && OnlyCall(p.log, k, i, PublishCall(i, rows[i].event, env(i).publish))
        && p.rows[i] == RowAfter(config, rows[i], true, i, env(i))
      else
        && NoCall(p.log, i)
        && (p.rows[i] == rows[i] ||
          (p.aborted && claimOk && Pending(rows[i]) && p.rows[i] == ClaimedRow(config.policy, rows[i])))
  {
    hide Tick, RowAfter, ClaimedRow;
    var p := Tick(config, rows, claimOk, env);
    var ids := PendingIds(rows, 0, config.batchSize);
    called, k := false, 0;
    TickLog(config, rows, claimOk, env);
    if i !in ids {
      TickUnclaimed(config, rows, claimOk, env, i);
    } else if claimOk {
      k :| 0 <= k < |ids| && ids[k] == i;
      TickClaimed(config, rows, env, k);
      called := k < |p.log|;
    }
  }

  lemma {:induction false} StepCount(config: Config, w: World, round: Round)
    ensures |Step(config, w, round).rows| == |w.rows| + |round.arrivals|
  {
    hide Tick;
  }

  /** One round, one row that was already in the table: it keeps its event; settled rows do not change
      at all; attempts never go down; a row changes hands only if this round publishes it. */
  lemma {:induction false} StepRow(config: Config, w: World, round: Round, i: nat)
    requires i < |w.rows|
    ensures var v := Step(config, w, round); var row := w.rows[i];
      && |v.rows| == |w.rows| + |round.arrivals|
      && v.rows[i].event == row.event
      && v.rows[i].attempts >= row.attempts
      && (!Pending(row) ==> v.rows[i] == row)
      && (Pending(row) && !Pending(v.rows[i]) ==> exists p :: |w.log| <= p < |v.log| && v.log[p].id == i)
  {
    hide Tick;
    ArrivedStepRow(config, Arrive(w.rows, round.arrivals), round.claimOk, round.env, i);
    var p := Tick(config, Arrive(w.rows, round.arrivals), round.claimOk, round.env);
    if Pending(w.rows[i]) && !Pending(p.rows[i]) {
      var q :| 0 <= q < |p.log| && p.log[q].id == i;
      assert (w.log + p.log)[|w.log| + q].id == i;
    }
  }

  lemma {:induction false} ArrivedStepRow(config: Config, rows: seq<Row>, claimOk: bool, env: nat -> Attempt, i: nat)
    requires i < |rows|
    ensures var p := Tick(config, rows, claimOk, env);
      && p.rows[i].event == rows[i].event
      && p.rows[i].attempts >= rows[i].attempts
      && (!Pending(rows[i]) ==> p.rows[i] == rows[i])
      && (!Pending(p.rows[i]) ==> !Pending(rows[i]) || exists q :: 0 <= q < |p.log| && p.log[q].id == i)
  {
    hide Tick;
    var called, k := RowThroughTick(config, rows, claimOk, env, i);
  }

  /** Life cycle: once settled, a row never changes again and is never published again; while it is
      pending, its attempts never go down; its event never changes. Any faults. */
  lemma {:induction false} SettledForGood(config: Config, w: World, rounds: seq<Round>, i: nat)
    requires i < |w.rows|
    ensures var v := Run(config, w, rounds);
      && |v.rows| >= |w.rows| && |v.log| >= |w.log| && v.log[..|w.log|] == w.log
      && v.rows[i].event == w.rows[i].event
      && v.rows[i].attempts >= w.rows[i].attempts
      && (!Pending(w.rows[i]) ==> v.rows[i] == w.rows[i] && forall p :: |w.log| <= p < |v.log| ==> v.log[p].id != i)
    decreases |rounds|
  {
    if rounds != [] {
      var next := Step(config, w, rounds[0]);
      StepRow(config, w, rounds[0], i);
      SettledForGood(config, next, rounds[1..], i);
      var rows := Arrive(w.rows, rounds[0].arrivals);
      TickLog(config, rows, rounds[0].claimOk, rounds[0].env);
      var v := Run(config, w, rounds);
      assert v.log[..|w.log|] == v.log[..|next.log|][..|w.log|];
      if !Pending(w.rows[i]) {
        forall p | |w.log| <= p < |v.log|
          ensures v.log[p].id != i
        {
          if p < |next.log| {
            assert v.log[p] == next.log[p];
            assert rows[i] == w.rows[i];
          }
        }
      }
    }
  }

  ghost predicate DeliveredFor(sense: Delivery, log: seq<PublishCall>, i: nat, event: Event) {
    exists p :: 0 <= p < |log| && DeliversFor(sense, log[p], i, event)
  }

  predicate DeliversFor(sense: Delivery, call: PublishCall, i: nat, event: Event) {
    call.id == i && call.event == event && Delivers(sense, call.outcome)
  }

  /** No row is both published and dead, and a published row has a confirmed publish of exactly its event. */
  ghost predicate LifeCycleOk(w: World) {
    forall i :: 0 <= i < |w.rows| ==> RowLifeCycleOk(w.rows[i], w.log, i)
  }

  ghost predicate RowLifeCycleOk(row: Row, log: seq<PublishCall>, i: nat) {
    && !(row.publishedAt.Some? && row.deadAt.Some?)
    && (row.publishedAt.Some? ==> DeliveredFor(WithConfirm, log, i, row.event))
  }

  lemma {:induction false} StepLifeCycle(config: Config, w: World, round: Round, i: nat)
    requires LifeCycleOk(w) && i < |Arrive(w.rows, round.arrivals)|
    ensures RowLifeCycleOk(Step(config, w, round).rows[i], Step(config, w, round).log, i)
  {
    hide Tick, Claimed;
    var rows := Arrive(w.rows, round.arrivals);
    var p := Tick(config, rows, round.claimOk, round.env);
    var called, k := RowThroughTick(config, rows, round.claimOk, round.env, i);
    if called {
      assert (w.log + p.log)[|w.log| + k] == p.log[k];
      assert p.rows[i].publishedAt.Some? ==> DeliversFor(WithConfirm, p.log[k], i, rows[i].event);
    } else if i < |w.rows| {
      assert rows[i] == w.rows[i];
      DeliveredLater(WithConfirm, w.log, p.log, i, rows[i].event);
    }
  }

  lemma {:induction false} DeliveredLater(sense: Delivery, log: seq<PublishCall>, more: seq<PublishCall>, i: nat,
          event: Event)
    ensures DeliveredFor(sense, log, i, event) ==> DeliveredFor(sense, log + more, i, event)
  {
    if DeliveredFor(sense, log, i, event) {
      var q :| 0 <= q < |log| && DeliversFor(sense, log[q], i, event);
      assert (log + more)[q] == log[q];
    }
  }

  /** In every run from an empty table, whatever fails. */
  lemma {:induction false} LifeCycle(config: Config, w: World, rounds: seq<Round>)
    requires LifeCycleOk(w)
    ensures LifeCycleOk(Run(config, w, rounds))
    decreases |rounds|
  {
    if rounds != [] {
      forall i | 0 <= i < |Step(config, w, rounds[0]).rows|
        ensures RowLifeCycleOk(Step(config, w, rounds[0]).rows[i], Step(config, w, rounds[0]).log, i)
      {
        StepLifeCycle(config, w, rounds[0], i);
      }
      LifeCycle(config, Step(config, w, rounds[0]), rounds[1..]);
    }
  }

  // ---------------------------------------------------------------- first-in first-out

  /** First publish calls happen in `createdAt` order: whatever row is called at some point of the
      history, every older row has been called before. */
  ghost predicate FirstCallsInOrder(log: seq<PublishCall>) {
    forall p, i: nat :: 0 <= p < |log| && i < log[p].id ==> CalledBefore(log, p, i)
  }

  ghost predicate CalledBefore(log: seq<PublishCall>, p: nat, i: nat)
    requires p <= |log|
  {
    exists q :: 0 <= q < p && log[q].id == i
  }

  /** Every row that is not pending has been published, every call is of a row of the table, with that row's event. */
  ghost predicate HistoryMatches(w: World) {
    && (forall p :: 0 <= p < |w.log| ==> w.log[p].id < |w.rows| && w.log[p].event == w.rows[w.log[p].id].event)
    && (forall i :: 0 <= i < |w.rows| && !Pending(w.rows[i]) ==> CalledBefore(w.log, |w.log|, i))
  }

  lemma {:induction false} StepHistory(config: Config, w: World, round: Round)
    requires HistoryMatches(w)
    ensures HistoryMatches(Step(config, w, round))
  {
    hide Tick;
    var rows := Arrive(w.rows, round.arrivals);
    var p := Tick(config, rows, round.claimOk, round.env);
    var log := w.log + p.log;
    TickLog(config, rows, round.claimOk, round.env);
    forall i | 0 <= i < |rows|
      ensures p.rows[i].event == rows[i].event
      ensures !Pending(p.rows[i]) ==> CalledBefore(log, |log|, i)
    {
      ArrivedStepRow(config, rows, round.claimOk, round.env, i);
      if !Pending(p.rows[i]) {
        if Pending(rows[i]) {
          var q :| 0 <= q < |p.log| && p.log[q].id == i;
          assert log[|w.log| + q].id == i;
        } else {
          assert rows[i] == w.rows[i];
          CalledLater(w.log, p.log, |w.log|, i);
        }
      }
    }
  }

  lemma {:induction false} StepOrder(config: Config, w: World, round: Round)
    requires HistoryMatches(w) && FirstCallsInOrder(w.log)
    ensures FirstCallsInOrder(Step(config, w, round).log)
  {
    hide Tick;
    var rows := Arrive(w.rows, round.arrivals);
    var calls := Tick(config, rows, round.claimOk, round.env).log;
    var log := w.log + calls;
    TickLog(config, rows, round.claimOk, round.env);
    forall q, i: nat | 0 <= q < |log| && i < log[q].id
      ensures CalledBefore(log, q, i)
    {
      if q < |w.log| {
        CalledLater(w.log, calls, q, i);
      } else {
        NewCallInOrder(config, w, rows, calls, q - |w.log|, i);
      }
    }
  }

  lemma {:induction false} NewCallInOrder(config: Config, w: World, rows: seq<Row>, calls: seq<PublishCall>, k: nat,
          i: nat)
    requires |w.rows| <= |rows| && rows[..|w.rows|] == w.rows && forall j :: |w.rows| <= j < |rows| ==> Pending(rows[j])
    requires forall j :: 0 <= j < |w.rows| && !Pending(w.rows[j]) ==> CalledBefore(w.log, |w.log|, j)
    requires var ids := PendingIds(rows, 0, config.batchSize);
      |calls| <= |ids| && forall l :: 0 <= l < |calls| ==> calls[l].id == ids[l]
    requires k < |calls| && i < calls[k].id
    ensures CalledBefore(w.log + calls, |w.log| + k, i)
  {
    var ids := PendingIds(rows, 0, config.batchSize);
    if Pending(rows[i]) {
      OlderClaimedFirst(rows, 0, config.batchSize, k, i);
      var l :| 0 <= l < k && ids[l] == i;
      assert (w.log + calls)[|w.log| + l].id == i;
    } else {
      assert rows[i] == w.rows[i];
      var r :| 0 <= r < |w.log| && w.log[r].id == i;
      assert (w.log + calls)[r].id == i;
    }
  }

  lemma {:induction false} CalledLater(log: seq<PublishCall>, more: seq<PublishCall>, p: nat, i: nat)
    requires p <= |log| && CalledBefore(log, p, i)
    ensures CalledBefore(log + more, p, i)
    ensures CalledBefore(log + more, |log + more|, i)
  {
    var q :| 0 <= q < p && log[q].id == i;
    assert (log + more)[q].id == i;
  }

  lemma {:induction false} RunFifo(config: Config, w: World, rounds: seq<Round>)
    requires HistoryMatches(w) && FirstCallsInOrder(w.log)
    ensures HistoryMatches(Run(config, w, rounds)) && FirstCallsInOrder(Run(config, w, rounds).log)
    decreases |rounds|
  {
    if rounds != [] {
      StepHistory(config, w, rounds[0]);
      StepOrder(config, w, rounds[0]);
      RunFifo(config, Step(config, w, rounds[0]), rounds[1..]);
    }
  }

  /** FIFO modulo failure, in every run from an empty table and under any faults: when a newer row is
      published while no publish of an older row has been confirmed yet, the older row has already
      suffered a publish that failed. */
  lemma {:induction false} FifoModuloFailure(config: Config, rounds: seq<Round>, p: nat, i: nat)
    requires var log := Run(config, EMPTY, rounds).log; p < |log| && i < log[p].id
    requires var log := Run(config, EMPTY, rounds).log; forall q :: 0 <= q < p && log[q].id == i ==>
      !log[q].outcome.Confirmed?
    ensures var log := Run(config, EMPTY, rounds).log;
      exists q :: 0 <= q < p && log[q].id == i && (log[q].outcome.LostConfirm? || log[q].outcome.Rejected?)
  {
    RunFifo(config, EMPTY, rounds);
    var log := Run(config, EMPTY, rounds).log;
    assert CalledBefore(log, p, i);
    var q :| 0 <= q < p && log[q].id == i;
    assert !log[q].outcome.Confirmed?;
  }

  ghost predicate NothingFails(rounds: seq<Round>) {
    forall t :: 0 <= t < |rounds| ==> rounds[t].claimOk && forall id :: Succeeds(rounds[t].env(id))
  }

  /** The first `m` rows are published, in order, and the rest is untouched. */
  ghost predicate PublishedPrefix(w: World) {
    && |w.log| <= |w.rows|
    && (forall k :: 0 <= k < |w.log| ==> w.log[k].id == k && w.log[k].outcome.Confirmed? && w.rows[k].publishedAt.Some?)
    && (forall i :: |w.log| <= i < |w.rows| ==> Pending(w.rows[i]))
  }

  /** With a settled prefix and a pending rest, the claimed rows are consecutive. */
  lemma {:induction false} ConsecutiveClaim(rows: seq<Row>, from: nat, m: nat, limit: nat)
    requires from <= m <= |rows|
    requires forall i :: from <= i < m ==> !Pending(rows[i])
    requires forall i :: m <= i < |rows| ==> Pending(rows[i])
    ensures forall k :: 0 <= k < |PendingIds(rows, from, limit)| ==> PendingIds(rows, from, limit)[k] == m + k
    decreases |rows| - from
  {
    if limit > 0 && from < |rows| {
      if from < m {
        ConsecutiveClaim(rows, from + 1, m, limit);
      } else {
        ConsecutiveClaim(rows, from + 1, m + 1, limit - 1);
      }
    }
  }

  lemma {:induction false} StepPrefix(config: Config, w: World, round: Round)
    requires PublishedPrefix(w) && NothingFails([round])
    ensures PublishedPrefix(Step(config, w, round))
  {
    hide Tick;
    assert [round][0] == round;
    var rows := Arrive(w.rows, round.arrivals);
    var ids := PendingIds(rows, 0, config.batchSize);
    var p := Tick(config, rows, round.claimOk, round.env);
    var m := |w.log|;
    ConsecutiveClaim(rows, 0, m, config.batchSize);
    assert !p.aborted by { SuccessNeverAborts(config, rows, round.env); }
    TickLog(config, rows, true, round.env);
    forall i | 0 <= i < |rows|
      ensures PrefixRow(p.rows[i], w.log + p.log, i)
    {
      PrefixRowAfter(config, rows, w.log, round.env, i);
    }
    if |ids| > 0 {
      assert ids[|ids| - 1] == m + |ids| - 1;
    }
  }

  predicate PrefixRow(row: Row, log: seq<PublishCall>, i: nat) {
    if i < |log| then log[i].id == i && log[i].outcome.Confirmed? && row.publishedAt.Some? else Pending(row)
  }

  lemma {:induction false} PrefixRowAfter(config: Config, rows: seq<Row>, log: seq<PublishCall>, env: nat -> Attempt,
          i: nat)
    requires i < |rows| && PrefixRow(rows[i], log, i) && forall id :: Succeeds(env(id))
    requires var ids := PendingIds(rows, 0, config.batchSize); forall k :: 0 <= k < |ids| ==> ids[k] == |log| + k
    requires |Tick(config, rows, true, env).log| == |PendingIds(rows, 0, config.batchSize)|
    ensures var p := Tick(config, rows, true, env); PrefixRow(p.rows[i], log + p.log, i)
  {
    hide Tick;
    var p := Tick(config, rows, true, env);
    var ids := PendingIds(rows, 0, config.batchSize);
    TickLog(config, rows, true, env);
    if |log| <= i < |log| + |p.log| {
      assert (log + p.log)[i] == p.log[i - |log|];
      assert ids[i - |log|] == i;
      TickClaimed(config, rows, env, i - |log|);
    } else {
      TickUnclaimed(config, rows, true, env, i);
    }
  }

  lemma {:induction false} SuccessNeverAborts(config: Config, rows: seq<Row>, env: nat -> Attempt)
    requires forall id :: Succeeds(env(id))
    ensures !Tick(config, rows, true, env).aborted
  {
    var (claimed, batch) := Claim(config.policy, rows, config.batchSize);
    RunBatchLog(config.policy, config.maxAttempts, claimed, batch, env);
  }

  /** In a run where nothing fails, the publish sequence is exactly the `createdAt` order. */
  lemma {:induction false} FailureFreeOrder(config: Config, w: World, rounds: seq<Round>)
    requires PublishedPrefix(w) && NothingFails(rounds)
    ensures PublishedPrefix(Run(config, w, rounds))
    decreases |rounds|
  {
    if rounds != [] {
      assert NothingFails([rounds[0]]);
      StepPrefix(config, w, rounds[0]);
      assert forall t :: 0 <= t < |rounds[1..]| ==> rounds[1..][t] == rounds[t + 1];
      FailureFreeOrder(config, Step(config, w, rounds[0]), rounds[1..]);
    }
  }
}
