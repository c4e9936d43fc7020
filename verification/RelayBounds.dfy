/** How often a row is published: the calls of a row in the history of a run, and what they make of it while marks
    work. */
module RelayBounds {
  import opened Outbox
  import opened RelayBatch
  import opened RelayRuns

  /** The largest number of publish calls a row can get. The tracking store counts an attempt
      when it claims, before the relay compares, so it gives up one attempt earlier. */
  function AttemptBound(config: Config): (bound: nat)
    ensures bound >= 1
  {
    var allowed := config.maxAttempts - AtClaimIncrement(config.policy);
    if allowed < 1 then 1 else allowed
  }

  function Calls(log: seq<PublishCall>, i: nat): nat {
    if log == [] then 0 else Calls(log[..|log| - 1], i) + (if log[|log| - 1].id == i then 1 else 0)
  }

  /** How many publishes of row `i` delivered its event, in one of the two senses. */
  function DeliveredCalls(sense: Delivery, log: seq<PublishCall>, i: nat): nat {
    if log == [] then 0
    else
      DeliveredCalls(sense, log[..|log| - 1], i)
      + (if log[|log| - 1].id == i && Delivers(sense, log[|log| - 1].outcome) then 1 else 0)
  }

  predicate CalledIn(config: Config, w: World, round: Round, i: nat) {
    Calls(Step(config, w, round).log, i) > Calls(w.log, i)
  }

  lemma {:induction false} CallsNoneAdded(sense: Delivery, log: seq<PublishCall>, more: seq<PublishCall>, i: nat)
    requires NoCall(more, i)
    ensures Calls(log + more, i) == Calls(log, i)
    ensures DeliveredCalls(sense, log + more, i) == DeliveredCalls(sense, log, i)
    decreases |more|
  {
    if more == [] {
      assert log + more == log;
    } else {
      var n := |more| - 1;
      assert (log + more)[..|log + more| - 1] == log + more[..n];
      CallsNoneAdded(sense, log, more[..n], i);
    }
  }

  lemma {:induction false} CallsOneAdded(sense: Delivery, log: seq<PublishCall>, more: seq<PublishCall>, k: nat,
          i: nat, call: PublishCall)
    requires OnlyCall(more, k, i, call)
    ensures Calls(log + more, i) == Calls(log, i) + 1
    ensures DeliveredCalls(sense, log + more, i)
      == DeliveredCalls(sense, log, i) + (if Delivers(sense, call.outcome) then 1 else 0)
    decreases |more|
  {
    var n := |more| - 1;
    assert (log + more)[..|log + more| - 1] == log + more[..n];
    if k == n {
      CallsNoneAdded(sense, log, more[..n], i);
    } else {
      CallsOneAdded(sense, log, more[..n], k, i, call);
    }
  }

  lemma {:induction false} NoCallsOfOthers(sense: Delivery, log: seq<PublishCall>, i: nat)
    requires NoCall(log, i)
    ensures Calls(log, i) == 0 && DeliveredCalls(sense, log, i) == 0
  {
    CallsNoneAdded(sense, [], log, i);
    assert [] + log == log;
  }

  /** The publish calls of one round for one row: none, or one with the row's own outcome. */
  lemma {:induction false} RowThroughStep(sense: Delivery, config: Config, w: World, round: Round, i: nat)
    returns (called: bool)
    requires i < |Arrive(w.rows, round.arrivals)|
    ensures var row := Arrive(w.rows, round.arrivals)[i]; var v := Step(config, w, round); var a := round.env(i);
      && Calls(v.log, i) == Calls(w.log, i) + (if called then 1 else 0)
      && DeliveredCalls(sense, v.log, i)
         == DeliveredCalls(sense, w.log, i) + (if called && Delivers(sense, a.publish) then 1 else 0)
      && |v.rows| == |w.rows| + |round.arrivals|
      && if called then Pending(row) && v.rows[i] == RowAfter(config, row, true, i, a)
         else v.rows[i] == row || (MarkFails(round) && Pending(row) && v.rows[i] == ClaimedRow(config.policy, row))
  {
    hide Tick, RowAfter, ClaimedRow, Calls, DeliveredCalls;
    var rows := Arrive(w.rows, round.arrivals);
    var p := Tick(config, rows, round.claimOk, round.env);
    var k;
    called, k := RowThroughTick(config, rows, round.claimOk, round.env, i);
    if called {
      CallsOneAdded(sense, w.log, p.log, k, i, PublishCall(i, rows[i].event, round.env(i).publish));
    } else {
      CallsNoneAdded(sense, w.log, p.log, i);
      TickLog(config, rows, round.claimOk, round.env);
    }
  }

  // ---------------------------------------------------------------- the attempt bound

  /** A row against its own publish history: the attempts column is the number of calls; the row is
      published exactly when one call was confirmed, and then only one was; it is dead exactly
      when the bound is reached with no call confirmed; it is pending exactly when no call was
      confirmed and the bound is not reached. */
  ghost predicate Accounted(config: Config, row: Row, calls: nat, confirmed: nat) {
    var bound := AttemptBound(config);
    && row.attempts == calls <= bound
    && confirmed <= 1
    && (row.publishedAt.Some? <==> confirmed == 1)
    && (row.deadAt.Some? <==> confirmed == 0 && calls == bound)
    && (Pending(row) <==> confirmed == 0 && calls < bound)
  }

  /** Some mark of the round throws. */
  ghost predicate MarkFails(round: Round) {
    exists id :: !round.env(id).markPublishedOk || !round.env(id).markErrorOk
  }

  ghost predicate MarksWork(rounds: seq<Round>) {
    forall t :: 0 <= t < |rounds| ==> !MarkFails(rounds[t])
  }

  ghost predicate AllAccounted(config: Config, w: World) {
    && (forall p :: 0 <= p < |w.log| ==> w.log[p].id < |w.rows|)
    && (forall i :: 0 <= i < |w.rows| ==>
      Accounted(config, w.rows[i], Calls(w.log, i), DeliveredCalls(WithConfirm, w.log, i)))
  }

  lemma {:induction false} AttemptAccounted(config: Config, row: Row, calls: nat, confirmed: nat, i: nat, a: Attempt)
    requires Accounted(config, row, calls, confirmed) && Pending(row)
    requires a.markPublishedOk && a.markErrorOk
    ensures Accounted(config, RowAfter(config, row, true, i, a), calls + 1,
                      confirmed + if a.publish.Confirmed? then 1 else 0)
  {
  }

  lemma {:induction false} StepAccounted(config: Config, w: World, round: Round, i: nat)
    requires AllAccounted(config, w) && !MarkFails(round)
    requires i < |Arrive(w.rows, round.arrivals)|
    ensures var v := Step(config, w, round);
      Accounted(config, v.rows[i], Calls(v.log, i), DeliveredCalls(WithConfirm, v.log, i))
  {
    hide Step, Calls, DeliveredCalls, RowAfter, Accounted;
    ArrivedAccounted(config, w, round, i);
    var called := RowThroughStep(WithConfirm, config, w, round, i);
    if called {
      var rows := Arrive(w.rows, round.arrivals);
      AttemptAccounted(config, rows[i], Calls(w.log, i), DeliveredCalls(WithConfirm, w.log, i), i, round.env(i));
    }
  }

  lemma {:induction false} ArrivedAccounted(config: Config, w: World, round: Round, i: nat)
    requires AllAccounted(config, w) && i < |Arrive(w.rows, round.arrivals)|
    ensures Accounted(config, Arrive(w.rows, round.arrivals)[i], Calls(w.log, i), DeliveredCalls(WithConfirm, w.log, i))
  {
    if i >= |w.rows| {
      NoCallsOfOthers(WithConfirm, w.log, i);
    } else {
      assert Arrive(w.rows, round.arrivals)[i] == w.rows[i];
    }
  }

  lemma {:induction false} RunAccounted(config: Config, w: World, rounds: seq<Round>)
    requires AllAccounted(config, w) && MarksWork(rounds)
    ensures AllAccounted(config, Run(config, w, rounds))
    decreases |rounds|
  {
    hide Tick, MarkFails, Accounted;
    if rounds != [] {
      var round := rounds[0];
      var v := Step(config, w, round);
      TickLog(config, Arrive(w.rows, round.arrivals), round.claimOk, round.env);
      forall i | 0 <= i < |v.rows|
        ensures Accounted(config, v.rows[i], Calls(v.log, i), DeliveredCalls(WithConfirm, v.log, i))
      {
        StepAccounted(config, w, round, i);
      }
      assert forall t :: 0 <= t < |rounds[1..]| ==> rounds[1..][t] == rounds[t + 1];
      RunAccounted(config, v, rounds[1..]);
    }
  }

  /** While marks work, a row's state is determined by its publish calls as `Accounted` says: whatever
      publishes and claims fail, in every run from an empty table. */
  lemma {:induction false} CallsDetermineRow(config: Config, rounds: seq<Round>, i: nat)
    requires MarksWork(rounds)
    requires i < |Run(config, EMPTY, rounds).rows|
    ensures var w := Run(config, EMPTY, rounds);
      Accounted(config, w.rows[i], Calls(w.log, i), DeliveredCalls(WithConfirm, w.log, i))
  {
    hide Run;
    RunAccounted(config, EMPTY, rounds);
  }

  function Max(a: int, b: int): int {
    if a < b then b else a
  }
}
