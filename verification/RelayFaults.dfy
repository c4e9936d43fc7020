/** What throwing marks cost: by exactly how much the guarantees of a working store fail, under any faults of
    claims, publishes and marks. */
module RelayFaults {
  import opened Contracts
  import opened Outbox
  import opened RelayBatch
  import opened RelayRuns
  import opened RelayBounds
  import opened RelayStarvation

  /** The publish delivers its event and the relay does not learn it: the confirm is lost, or `markPublished` throws
      and the catch block treats the publish as failed. */
  predicate Unnoticed(sense: Delivery, a: Attempt) {
    Delivers(sense, a.publish) && !Succeeds(a)
  }

  /** In how many rounds row `i` is set to be delivered unnoticed, or to have a call wasted. */
  function UnnoticedFaults(sense: Delivery, rounds: seq<Round>, i: nat): nat {
    if rounds == [] then 0
    else (if Unnoticed(sense, rounds[0].env(i)) then 1 else 0) + UnnoticedFaults(sense, rounds[1..], i)
  }

  function ErrorFaults(rounds: seq<Round>, i: nat): nat {
    if rounds == [] then 0 else (if WastesCall(rounds[0].env(i)) then 1 else 0) + ErrorFaults(rounds[1..], i)
  }

  /** In how many rounds it really happens, because the pass gets to row `i`. */
  function UnnoticedCalls(sense: Delivery, config: Config, w: World, rounds: seq<Round>, i: nat): (n: nat)
    ensures n <= UnnoticedFaults(sense, rounds, i)
    decreases |rounds|
  {
    if rounds == [] then 0
    else
      (if CalledIn(config, w, rounds[0], i) && Unnoticed(sense, rounds[0].env(i)) then 1 else 0)
      + UnnoticedCalls(sense, config, Step(config, w, rounds[0]), rounds[1..], i)
  }

  function WastedCalls(config: Config, w: World, rounds: seq<Round>, i: nat): (n: nat)
    ensures n <= ErrorFaults(rounds, i)
    decreases |rounds|
  {
    if rounds == [] then 0
    else
      (if CalledIn(config, w, rounds[0], i) && WastesCall(rounds[0].env(i)) then 1 else 0)
      + WastedCalls(config, Step(config, w, rounds[0]), rounds[1..], i)
  }

  // ---------------------------------------------------------------- rows that are not there yet

  predicate OnlyKnownRows(w: World) {
    forall p :: 0 <= p < |w.log| ==> w.log[p].id < |w.rows|
  }

  lemma {:induction false} StepKnownRows(config: Config, w: World, round: Round)
    requires OnlyKnownRows(w)
    ensures OnlyKnownRows(Step(config, w, round))
  {
    hide Tick;
    TickLog(config, Arrive(w.rows, round.arrivals), round.claimOk, round.env);
  }

  lemma {:induction false} UnknownIsUncalled(sense: Delivery, w: World, i: nat)
    requires OnlyKnownRows(w) && i >= |w.rows|
    ensures Calls(w.log, i) == 0 && DeliveredCalls(sense, w.log, i) == 0
  {
    NoCallsOfOthers(sense, w.log, i);
  }

  // ---------------------------------------------------------------- deliveries

  function Published(w: World, i: nat): nat {
    if i < |w.rows| && w.rows[i].publishedAt.Some? then 1 else 0
  }

  lemma {:induction false} StepDeliveries(sense: Delivery, config: Config, w: World, round: Round, i: nat)
    requires OnlyKnownRows(w)
    ensures var v := Step(config, w, round);
      DeliveredCalls(sense, v.log, i) + Published(w, i) == DeliveredCalls(sense, w.log, i) + Published(v, i)
        + if CalledIn(config, w, round, i) && Unnoticed(sense, round.env(i)) then 1 else 0
  {
    hide Step, Calls, DeliveredCalls;
    var v := Step(config, w, round);
    if i < |Arrive(w.rows, round.arrivals)| {
      var called := RowThroughStep(sense, config, w, round, i);
      assert i < |w.rows| ==> Arrive(w.rows, round.arrivals)[i] == w.rows[i];
    } else {
      StepKnownRows(config, w, round);
      StepCount(config, w, round);
      UnknownIsUncalled(sense, w, i);
      UnknownIsUncalled(sense, v, i);
    }
  }

  /** The law of deliveries, in every run and under any faults, in either sense: of the publishes that delivered
      a row's event at most one has marked the row published; each of the others went unnoticed. */
  lemma {:induction false} DeliveriesAccounted(sense: Delivery, config: Config, w: World, rounds: seq<Round>, i: nat)
    requires OnlyKnownRows(w)
    ensures var v := Run(config, w, rounds);
      DeliveredCalls(sense, v.log, i) + Published(w, i)
        == DeliveredCalls(sense, w.log, i) + Published(v, i) + UnnoticedCalls(sense, config, w, rounds, i)
    decreases |rounds|
  {
    hide Step, CalledIn, Published, DeliveredCalls;
    if rounds != [] {
      StepDeliveries(sense, config, w, rounds[0], i);
      StepKnownRows(config, w, rounds[0]);
      DeliveriesAccounted(sense, config, Step(config, w, rounds[0]), rounds[1..], i);
    }
  }

  lemma {:induction false} DeliveredIff(sense: Delivery, log: seq<PublishCall>, i: nat, event: Event)
    requires forall p :: 0 <= p < |log| && log[p].id == i ==> log[p].event == event
    ensures DeliveredFor(sense, log, i, event) <==> DeliveredCalls(sense, log, i) > 0
    decreases |log|
  {
    if log != [] {
      var front, last := log[..|log| - 1], log[|log| - 1];
      assert log == front + [last];
      DeliveredIff(sense, front, i, event);
      DeliveredLater(sense, front, [last], i, event);
      if DeliversFor(sense, last, i, event) {
        assert log[|log| - 1] == last;
      } else if DeliveredFor(sense, log, i, event) {
        var p :| 0 <= p < |log| && DeliversFor(sense, log[p], i, event);
        assert front[p] == log[p];
      }
    }
  }

  /** A dead row was delivered all the same exactly when one of its calls delivered it unnoticed: in every run,
      under any faults, in either sense. */
  lemma {:induction false} DeadWasDeliveredIff(sense: Delivery, config: Config, rounds: seq<Round>, i: nat)
    requires var w := Run(config, EMPTY, rounds); i < |w.rows| && w.rows[i].deadAt.Some?
    ensures var w := Run(config, EMPTY, rounds);
      DeliveredFor(sense, w.log, i, w.rows[i].event) <==> UnnoticedCalls(sense, config, EMPTY, rounds, i) > 0
  {
    hide Run, UnnoticedCalls;
    var w := Run(config, EMPTY, rounds);
    LifeCycle(config, EMPTY, rounds);
    assert RowLifeCycleOk(w.rows[i], w.log, i);
    RunFifo(config, EMPTY, rounds);
    DeliveredIff(sense, w.log, i, w.rows[i].event);
    DeliveriesAccounted(sense, config, EMPTY, rounds, i);
  }

  // ---------------------------------------------------------------- calls

  /** How far a row's calls can go with that many wasted ones. */
  predicate Bounded(config: Config, row: Row, calls: nat, wasted: nat) {
    && calls <= AttemptBound(config) + wasted
    && (Pending(row) ==> calls <= row.attempts + wasted && calls + 1 <= AttemptBound(config) + wasted)
    && (config.policy.AtMark? ==> row.attempts + wasted == calls)
  }

  lemma {:induction false} AttemptBounded(config: Config, row: Row, calls: nat, wasted: nat, i: nat, a: Attempt)
    requires Pending(row) && Bounded(config, row, calls, wasted)
    ensures Bounded(config, RowAfter(config, row, true, i, a), calls + 1, wasted + if WastesCall(a) then 1 else 0)
  {
  }

  lemma {:induction false} StepBounded(config: Config, w: World, round: Round, i: nat, wasted: nat)
    requires OnlyKnownRows(w) && i < |Step(config, w, round).rows|
    requires if i < |w.rows| then Bounded(config, w.rows[i], Calls(w.log, i), wasted) else wasted == 0
    ensures var v := Step(config, w, round);
      Bounded(config, v.rows[i], Calls(v.log, i),
              wasted + if CalledIn(config, w, round, i) && WastesCall(round.env(i)) then 1 else 0)
  {
    hide Step, Calls, DeliveredCalls, RowAfter, WastesCall;
    var rows := Arrive(w.rows, round.arrivals);
    StepCount(config, w, round);
    if i >= |w.rows| {
      UnknownIsUncalled(WithConfirm, w, i);
    } else {
      assert rows[i] == w.rows[i];
    }
    var called := RowThroughStep(WithConfirm, config, w, round, i);
    if called {
      AttemptBounded(config, rows[i], Calls(w.log, i), wasted, i, round.env(i));
    }
  }

  /** What a run knows of a row: nothing before it arrives. */
  predicate KnownBounded(config: Config, w: World, i: nat, wasted: nat) {
    if i < |w.rows| then Bounded(config, w.rows[i], Calls(w.log, i), wasted) else wasted == 0
  }

  lemma {:induction false} UncalledWastesNothing(config: Config, w: World, round: Round, i: nat)
    requires OnlyKnownRows(w) && i >= |Step(config, w, round).rows|
    ensures !CalledIn(config, w, round, i)
  {
    hide Step, Calls;
    StepCount(config, w, round);
    StepKnownRows(config, w, round);
    UnknownIsUncalled(WithConfirm, w, i);
    UnknownIsUncalled(WithConfirm, Step(config, w, round), i);
  }

  lemma {:induction false} RunBounded(config: Config, w: World, rounds: seq<Round>, i: nat, wasted: nat)
    requires OnlyKnownRows(w) && KnownBounded(config, w, i, wasted)
    ensures KnownBounded(config, Run(config, w, rounds), i, wasted + WastedCalls(config, w, rounds, i))
    decreases |rounds|
  {
    hide Step, CalledIn, Bounded, WastesCall, Calls;
    if rounds != [] {
      var v := Step(config, w, rounds[0]);
      StepKnownRows(config, w, rounds[0]);
      StepCount(config, w, rounds[0]);
      if i < |v.rows| {
        StepBounded(config, w, rounds[0], i, wasted);
      } else {
        UncalledWastesNothing(config, w, rounds[0], i);
      }
      RunBounded(config, v, rounds[1..], i,
                 wasted + if CalledIn(config, w, rounds[0], i) && WastesCall(rounds[0].env(i)) then 1 else 0);
    }
  }

  /** The attempt bound, in every run and under any faults: a row gets at most one publish call more than
      `AttemptBound` for each call whose error mark threw. In the order store the attempts column is
      exactly the number of the other calls. */
  lemma {:induction false} AttemptBoundHolds(config: Config, rounds: seq<Round>, i: nat)
    requires i < |Run(config, EMPTY, rounds).rows|
    ensures var w := Run(config, EMPTY, rounds); var wasted := WastedCalls(config, EMPTY, rounds, i);
      && Calls(w.log, i) <= AttemptBound(config) + wasted <= AttemptBound(config) + ErrorFaults(rounds, i)
      && (config.policy.AtMark? ==> w.rows[i].attempts == Calls(w.log, i) - wasted)
      && AttemptBound(config) == if config.policy.AtMark? then Max(1, config.maxAttempts)
        else Max(1, config.maxAttempts - 1)
  {
    hide Run, WastedCalls;
    RunBounded(config, EMPTY, rounds, i, 0);
  }

  // ---------------------------------------------------------------- no bound while error marks throw

  /** The round claims, its error mark of row `i` throws, and no older row ends it before. */
  predicate StuckAt(round: Round, i: nat) {
    round.claimOk && WastesCall(round.env(i)) && forall j: nat :: j < i ==> !WastesCall(round.env(j))
  }

  lemma {:induction false} StuckStep(config: Config, w: World, round: Round, i: nat)
    requires i < |w.rows| && Claimed(config, w.rows, i) && StuckAt(round, i)
    ensures var v := Step(config, w, round);
      i < |v.rows| && Claimed(config, v.rows, i) && Calls(v.log, i) == Calls(w.log, i) + 1
  {
    hide Step, Calls, DeliveredCalls;
    assert Arrive(w.rows, round.arrivals)[i] == w.rows[i];
    ClaimedIsCalled(config, w, round, i);
    var called := RowThroughStep(WithConfirm, config, w, round, i);
    NobodyOvertakes(config, w, round, i);
  }

  /** While its error mark keeps throwing, a row that is within reach is published in every round, without
      end, and stays pending: in any table, whatever arrives. */
  lemma {:induction false} NoBoundUnderMarkFaults(config: Config, w: World, rounds: seq<Round>, i: nat)
    requires i < |w.rows| && Claimed(config, w.rows, i)
    requires forall t :: 0 <= t < |rounds| ==> StuckAt(rounds[t], i)
    ensures var v := Run(config, w, rounds);
      i < |v.rows| && Claimed(config, v.rows, i) && Calls(v.log, i) == Calls(w.log, i) + |rounds|
    decreases |rounds|
  {
    hide Step, Calls, Claimed, StuckAt;
    if rounds != [] {
      StuckStep(config, w, rounds[0], i);
      assert forall t :: 0 <= t < |rounds[1..]| ==> rounds[1..][t] == rounds[t + 1];
      NoBoundUnderMarkFaults(config, Step(config, w, rounds[0]), rounds[1..], i);
    }
  }

  // ---------------------------------------------------------------- both bounds are met

  const FAILING := Attempt(Rejected, "", true, "", true, 0)
  const WASTING := Attempt(Rejected, "", true, "", false, 0)
  const LOSING := Attempt(Confirmed, "", false, "", true, 0)

  /** Rounds in which nothing arrives and every record meets the same answers. */
  function Repeat(a: Attempt, n: nat): (rounds: seq<Round>)
    ensures |rounds| == n
    ensures forall t :: 0 <= t < n ==> rounds[t] == Round([], true, (id: nat) => a)
  {
    seq(n, t => Round([], true, (id: nat) => a))
  }

  /** The event becomes visible behind a claim that fails. */
  function Arrival(event: Event): Round {
    Round([event], false, (id: nat) => FAILING)
  }

  lemma {:induction false} RunTogether(config: Config, w: World, first: seq<Round>, rest: seq<Round>)
    ensures Run(config, w, first + rest) == Run(config, Run(config, w, first), rest)
  {
    RunSplit(config, w, first + rest, |first|);
    assert (first + rest)[..|first|] == first;
    assert (first + rest)[|first|..] == rest;
  }

  lemma {:induction false} FaultsTogether(sense: Delivery, first: seq<Round>, rest: seq<Round>, i: nat)
    ensures ErrorFaults(first + rest, i) == ErrorFaults(first, i) + ErrorFaults(rest, i)
    ensures UnnoticedFaults(sense, first + rest, i)
      == UnnoticedFaults(sense, first, i) + UnnoticedFaults(sense, rest, i)
    decreases |first|
  {
    hide Unnoticed, WastesCall;
    if first == [] {
      assert first + rest == rest;
    } else {
      assert (first + rest)[1..] == first[1..] + rest;
      FaultsTogether(sense, first[1..], rest, i);
    }
  }

  lemma {:induction false} FaultsRepeated(sense: Delivery, a: Attempt, n: nat, i: nat)
    ensures ErrorFaults(Repeat(a, n), i) == if WastesCall(a) then n else 0
    ensures UnnoticedFaults(sense, Repeat(a, n), i) == if Unnoticed(sense, a) then n else 0
  {
    hide Unnoticed, WastesCall;
    if n > 0 {
      assert Repeat(a, n)[1..] == Repeat(a, n - 1);
      FaultsRepeated(sense, a, n - 1, i);
    }
  }

  lemma {:induction false} ArrivalRun(sense: Delivery, config: Config, event: Event)
    ensures Run(config, EMPTY, [Arrival(event)]) == World([NewRow(event)], [])
    ensures ErrorFaults([Arrival(event)], 0) == 0 && UnnoticedFaults(sense, [Arrival(event)], 0) == 0
  {
    hide Outbox.Claim;
    assert [Arrival(event)][1..] == [];
    assert Arrive([], [event]) == [NewRow(event)];
  }

  /** One more such round, for the oldest row. */
  lemma {:induction false} OneRound(sense: Delivery, config: Config, w: World, a: Attempt)
    requires config.batchSize >= 1 && |w.rows| > 0 && Pending(w.rows[0])
    ensures var v := Run(config, w, Repeat(a, 1));
      && |v.rows| > 0 && v.rows[0] == RowAfter(config, w.rows[0], true, 0, a)
      && Calls(v.log, 0) == Calls(w.log, 0) + 1
      && DeliveredCalls(sense, v.log, 0) == DeliveredCalls(sense, w.log, 0)
        + (if Delivers(sense, a.publish) then 1 else 0)
  {
    hide Step, RowAfter, Calls, DeliveredCalls;
    var rounds := Repeat(a, 1);
    assert rounds[1..] == [];
    assert Run(config, w, rounds) == Step(config, w, rounds[0]);
    ClaimedIsCalled(config, w, rounds[0], 0);
    assert Arrive(w.rows, []) == w.rows;
    var called := RowThroughStep(sense, config, w, rounds[0], 0);
  }

  lemma {:induction false} FailsOn(config: Config, w: World, n: nat)
    requires config.batchSize >= 1 && |w.rows| > 0 && Pending(w.rows[0])
    requires w.rows[0].attempts + n < AttemptBound(config)
    ensures var v := Run(config, w, Repeat(FAILING, n));
      |v.rows| > 0 && Pending(v.rows[0]) && Calls(v.log, 0) == Calls(w.log, 0) + n
    decreases n
  {
    hide Run, Calls, DeliveredCalls;
    if n == 0 {
      RunNothing(config, w);
    } else {
      OneRound(WithConfirm, config, w, FAILING);
      FailsOn(config, Run(config, w, Repeat(FAILING, 1)), n - 1);
      RunTogether(config, w, Repeat(FAILING, 1), Repeat(FAILING, n - 1));
      assert Repeat(FAILING, 1) + Repeat(FAILING, n - 1) == Repeat(FAILING, n);
    }
  }

  lemma {:induction false} RunNothing(config: Config, w: World)
    ensures Run(config, w, Repeat(FAILING, 0)) == w
  {
  }

  /** The bound is met: for any number of wasted calls some run has that many, and `AttemptBound` more. */
  lemma {:induction false} AttemptBoundMet(config: Config, event: Event, faults: nat) returns (rounds: seq<Round>)
    requires config.batchSize >= 1
    ensures ErrorFaults(rounds, 0) == faults
    ensures var w := Run(config, EMPTY, rounds); |w.rows| > 0 && Calls(w.log, 0) == AttemptBound(config) + faults
  {
    hide Run, Repeat, Calls, ErrorFaults, UnnoticedFaults, AttemptBound;
    var bound := AttemptBound(config);
    var a, b, c, d := [Arrival(event)], Repeat(FAILING, bound - 1), Repeat(WASTING, faults), Repeat(FAILING, 1);
    rounds := a + (b + (c + d));
    ArrivalRun(WithConfirm, config, event);
    var w1 := Run(config, EMPTY, a);
    FailsOn(config, w1, bound - 1);
    var w2 := Run(config, w1, b);
    StuckRepeatedly(config, w2, faults);
    var w3 := Run(config, w2, c);
    OneRound(WithConfirm, config, w3, FAILING);
    assert Calls(w1.log, 0) == 0 by { NoCallsOfOthers(WithConfirm, w1.log, 0); }
    RunTogether(config, EMPTY, a, b + (c + d));
    RunTogether(config, w1, b, c + d);
    RunTogether(config, w2, c, d);
    FaultsTogether(WithConfirm, a, b + (c + d), 0);
    FaultsTogether(WithConfirm, b, c + d, 0);
    FaultsTogether(WithConfirm, c, d, 0);
    FaultsRepeated(WithConfirm, FAILING, bound - 1, 0);
    FaultsRepeated(WithConfirm, WASTING, faults, 0);
    FaultsRepeated(WithConfirm, FAILING, 1, 0);
  }

  lemma {:induction false} StuckRepeatedly(config: Config, w: World, n: nat)
    requires config.batchSize >= 1 && |w.rows| > 0 && Pending(w.rows[0])
    ensures var v := Run(config, w, Repeat(WASTING, n));
      |v.rows| > 0 && Pending(v.rows[0]) && Calls(v.log, 0) == Calls(w.log, 0) + n
  {
    hide Run, Calls;
    assert Claimed(config, w.rows, 0);
    NoBoundUnderMarkFaults(config, w, Repeat(WASTING, n), 0);
  }

  /** The exact condition of the attempt bound: it holds in all runs with up to that many throwing error marks
      of the row exactly when none is allowed. */
  lemma {:induction false} AttemptBoundIff(config: Config, event: Event, faults: nat)
    requires config.batchSize >= 1
    ensures (forall rounds: seq<Round>, i: nat ::
               i < |Run(config, EMPTY, rounds).rows| && ErrorFaults(rounds, i) <= faults
               ==> Calls(Run(config, EMPTY, rounds).log, i) <= AttemptBound(config))
      <==> faults == 0
  {
    hide Run, Calls, ErrorFaults, AttemptBound;
    if faults == 0 {
      forall rounds: seq<Round>, i: nat | i < |Run(config, EMPTY, rounds).rows| && ErrorFaults(rounds, i) <= faults
        ensures Calls(Run(config, EMPTY, rounds).log, i) <= AttemptBound(config)
      {
        AttemptBoundHolds(config, rounds, i);
      }
    } else {
      var rounds := AttemptBoundMet(config, event, faults);
      assert 0 < |Run(config, EMPTY, rounds).rows| && ErrorFaults(rounds, 0) <= faults;
    }
  }

  // ---------------------------------------------------------------- dead though delivered

  lemma {:induction false} NeverSucceeding(config: Config, w: World, rounds: seq<Round>, i: nat)
    requires i < |w.rows| && w.rows[i].publishedAt.None?
    requires forall t :: 0 <= t < |rounds| ==> !Succeeds(rounds[t].env(i))
    ensures var v := Run(config, w, rounds); i < |v.rows| && v.rows[i].publishedAt.None?
    decreases |rounds|
  {
    hide Step, Succeeds;
    if rounds != [] {
      assert Arrive(w.rows, rounds[0].arrivals)[i] == w.rows[i];
      var called := RowThroughStep(WithConfirm, config, w, rounds[0], i);
      assert forall t :: 0 <= t < |rounds[1..]| ==> rounds[1..][t] == rounds[t + 1];
      NeverSucceeding(config, Step(config, w, rounds[0]), rounds[1..], i);
    }
  }

  /** Publishes that fail for `AttemptBound` rounds settle the oldest row, and not as published. */
  lemma {:induction false} GivesUp(config: Config, w: World)
    requires config.batchSize >= 1 && |w.rows| > 0 && w.rows[0].publishedAt.None?
    ensures var v := Run(config, w, Repeat(FAILING, AttemptBound(config)));
      |v.rows| > 0 && v.rows[0].deadAt.Some?
  {
    hide Run, AttemptBound;
    var rounds := Repeat(FAILING, AttemptBound(config));
    NeverHeldUp(AttemptBound(config), 0);
    RunProgress(config, w, rounds, 0);
    NeverSucceeding(config, w, rounds, 0);
  }

  lemma {:induction false} NeverHeldUp(n: nat, i: nat)
    ensures HeldUps(Repeat(FAILING, n), i) == 0
  {
    if n > 0 {
      assert Repeat(FAILING, n)[1..] == Repeat(FAILING, n - 1);
      NeverHeldUp(n - 1, i);
    }
  }

  lemma {:induction false} StaysDelivered(sense: Delivery, config: Config, w: World, rounds: seq<Round>, i: nat)
    requires i < |w.rows|
    ensures DeliveredCalls(sense, Run(config, w, rounds).log, i) >= DeliveredCalls(sense, w.log, i)
    decreases |rounds|
  {
    hide Step, DeliveredCalls;
    if rounds != [] {
      StepCount(config, w, rounds[0]);
      var called := RowThroughStep(sense, config, w, rounds[0], i);
      StaysDelivered(sense, config, Step(config, w, rounds[0]), rounds[1..], i);
    }
  }

  /** A row can end dead although it was delivered, in either sense, under every configuration and after any single
      publish that goes unnoticed: publishes that fail from then on are enough. */
  lemma {:induction false} DeadThoughDelivered(sense: Delivery, config: Config, event: Event, a: Attempt)
    returns (rounds: seq<Round>)
    requires config.batchSize >= 1 && Unnoticed(sense, a)
    ensures UnnoticedFaults(sense, rounds, 0) == 1
    ensures var w := Run(config, EMPTY, rounds);
      |w.rows| > 0 && w.rows[0].deadAt.Some? && DeliveredFor(sense, w.log, 0, w.rows[0].event)
  {
    hide Run, Repeat, Calls, DeliveredCalls, ErrorFaults, UnnoticedFaults, AttemptBound, RowAfter;
    var bound := AttemptBound(config);
    var first, once, more := [Arrival(event)], Repeat(a, 1), Repeat(FAILING, bound);
    rounds := first + (once + more);
    ArrivalRun(sense, config, event);
    var w1 := Run(config, EMPTY, first);
    OneRound(sense, config, w1, a);
    var w2 := Run(config, w1, once);
    UnpublishedAfter(sense, config, w1.rows[0], 0, a);
    GivesUp(config, w2);
    RunTogether(config, EMPTY, first, once + more);
    RunTogether(config, w1, once, more);
    FaultsTogether(sense, first, once + more, 0);
    FaultsTogether(sense, once, more, 0);
    FaultsRepeated(sense, a, 1, 0);
    FaultsRepeated(sense, FAILING, bound, 0);
    SettledForGood(config, w2, more, 0);
    StaysDelivered(sense, config, w2, more, 0);
    RunFifo(config, EMPTY, rounds);
    var w := Run(config, EMPTY, rounds);
    DeliveredIff(sense, w.log, 0, w.rows[0].event);
  }

  lemma {:induction false} UnpublishedAfter(sense: Delivery, config: Config, row: Row, i: nat, a: Attempt)
    requires row.publishedAt.None? && Unnoticed(sense, a)
    ensures RowAfter(config, row, true, i, a).publishedAt.None?
  {
  }

  /** The exact condition under which dead means undelivered, in either sense: it does in all runs with up to that
      many unnoticed deliveries of the row exactly when none is allowed. */
  lemma {:induction false} DeadMeansUndeliveredIff(sense: Delivery, config: Config, event: Event, faults: nat)
    requires config.batchSize >= 1
    ensures (forall rounds: seq<Round>, i: nat ::
               i < |Run(config, EMPTY, rounds).rows| && UnnoticedFaults(sense, rounds, i) <= faults
               ==> DeadMeansUndelivered(sense, Run(config, EMPTY, rounds), i))
      <==> faults == 0
  {
    hide Run, UnnoticedFaults, UnnoticedCalls;
    if faults == 0 {
      forall rounds: seq<Round>, i: nat
        | i < |Run(config, EMPTY, rounds).rows| && UnnoticedFaults(sense, rounds, i) <= faults
        ensures DeadMeansUndelivered(sense, Run(config, EMPTY, rounds), i)
      {
        if Run(config, EMPTY, rounds).rows[i].deadAt.Some? {
          DeadWasDeliveredIff(sense, config, rounds, i);
        }
      }
    } else {
      var rounds := DeadThoughDelivered(sense, config, event, LOSING);
      assert 0 < |Run(config, EMPTY, rounds).rows| && UnnoticedFaults(sense, rounds, 0) <= faults;
      assert !DeadMeansUndelivered(sense, Run(config, EMPTY, rounds), 0);
    }
  }

  ghost predicate DeadMeansUndelivered(sense: Delivery, w: World, i: nat)
    requires i < |w.rows|
  {
    w.rows[i].deadAt.Some? ==> !DeliveredFor(sense, w.log, i, w.rows[i].event)
  }
}
