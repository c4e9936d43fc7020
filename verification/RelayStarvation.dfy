/** How long a row waits: one relay, under any faults of claims, publishes and marks. */
module RelayStarvation {
  import opened Outbox
  import opened RelayBatch
  import opened RelayRuns
  import opened RelayBounds

  /** How many more failing attempts a pending row survives, plus one. */
  function Remaining(config: Config, row: Row): (n: nat)
    ensures 1 <= n <= AttemptBound(config)
  {
    var left := config.maxAttempts - AtClaimIncrement(config.policy) - row.attempts;
    if left < 1 then 1 else left
  }

  // ---------------------------------------------------------------- how many rows are ahead

  lemma {:induction false} AheadSplit(rows: seq<Row>, from: nat, i: nat)
    requires from <= i < |rows|
    ensures Ahead(rows, from, i + 1) == Ahead(rows, from, i) + (if Pending(rows[i]) then 1 else 0)
    decreases i - from
  {
    if from < i {
      AheadSplit(rows, from + 1, i);
    }
  }

  /** If every row still pending after some rounds was pending before with at least `b` pending rows
      ahead of it, then at least `b` of the rows ahead of `i` are gone, or all of them are. */
  lemma {:induction false} AheadDrops(rows: seq<Row>, later: seq<Row>, b: nat, i: nat)
    requires i <= |rows| <= |later|
    requires forall j :: 0 <= j < i && Pending(later[j]) ==> Pending(rows[j]) && Ahead(rows, 0, j) >= b
    ensures Ahead(later, 0, i) <= Max(0, Ahead(rows, 0, i) - b)
  {
    if i > 0 {
      AheadDrops(rows, later, b, i - 1);
      AheadSplit(rows, 0, i - 1);
      AheadSplit(later, 0, i - 1);
    }
  }

  lemma {:induction false} AheadArrive(rows: seq<Row>, longer: seq<Row>, from: nat, i: nat)
    requires from <= i <= |rows| <= |longer| && longer[..|rows|] == rows
    ensures Ahead(longer, from, i) == Ahead(rows, from, i)
    decreases i - from
  {
    if from < i {
      assert longer[from] == rows[from];
      AheadArrive(rows, longer, from + 1, i);
    }
  }

  /** Nobody overtakes, in any round. */
  lemma {:induction false} NobodyOvertakes(config: Config, w: World, round: Round, i: nat)
    requires i <= |w.rows|
    ensures var v := Step(config, w, round);
      i <= |v.rows| && Ahead(v.rows, 0, i) <= Ahead(w.rows, 0, i)
  {
    hide Step;
    var v := Step(config, w, round);
    StepCount(config, w, round);
    forall j | 0 <= j < i && Pending(v.rows[j]) ensures Pending(w.rows[j]) && Ahead(w.rows, 0, j) >= 0 {
      StepRow(config, w, round, j);
    }
    AheadDrops(w.rows, v.rows, 0, i);
  }

  // ---------------------------------------------------------------- which claimed rows a pass gets to

  /** The pass does not get through row `i`: its claim fails, or the error mark of that row or of an older one
      throws. */
  predicate HeldUp(round: Round, i: nat) {
    !round.claimOk || exists j: nat :: j <= i && WastesCall(round.env(j))
  }

  /** A pass gets to a claimed row unless the error mark of an older row ends it. */
  lemma {:induction false} ClaimedIsCalled(config: Config, w: World, round: Round, i: nat)
    requires i < |w.rows| && round.claimOk && Claimed(config, w.rows, i)
    requires forall j: nat :: j < i ==> !WastesCall(round.env(j))
    ensures CalledIn(config, w, round, i)
    ensures Step(config, w, round).rows[i] == RowAfter(config, w.rows[i], true, i, round.env(i))
  {
    hide Tick, RowAfter, Calls, DeliveredCalls;
    var rows := Arrive(w.rows, round.arrivals);
    assert rows[i] == w.rows[i];
    AheadArrive(w.rows, rows, 0, i);
    var called, k := RowThroughTick(config, rows, true, round.env, i);
    assert called by {
      if !called {
        TickReaches(config, rows, round.env, i);
      }
    }
    CallsOneAdded(WithConfirm, w.log, Tick(config, rows, true, round.env).log, k, i,
      PublishCall(i, rows[i].event, round.env(i).publish));
  }

  /** A pass that stops short stops at a wasted call. */
  lemma {:induction false} StopsAtWastedCall(config: Config, rows: seq<Row>, env: nat -> Attempt)
    requires |Tick(config, rows, true, env).log| < |PendingIds(rows, 0, config.batchSize)|
    ensures var n := |Tick(config, rows, true, env).log|;
      n > 0 && WastesCall(env(PendingIds(rows, 0, config.batchSize)[n - 1]))
  {
    hide RunBatch, PendingIds, Reached, Claim, ClaimedRow, Succeeds, LastAttempt;
    var (claimed, batch) := Claim(config.policy, rows, config.batchSize);
    ClaimedBatch(config.policy, rows, config.batchSize);
    RunBatchLog(config.policy, config.maxAttempts, claimed, batch, env);
    ClaimedAt(config.policy, rows, config.batchSize, Reached(config.maxAttempts, batch, env) - 1);
  }

  lemma {:induction false} TickReaches(config: Config, rows: seq<Row>, env: nat -> Attempt, i: nat)
    requires i < |rows| && Claimed(config, rows, i)
    requires forall j: nat :: j < i ==> !WastesCall(env(j))
    ensures !NoCall(Tick(config, rows, true, env).log, i)
  {
    hide Tick, PendingIds, WastesCall;
    var ids := PendingIds(rows, 0, config.batchSize);
    ClaimedIff(rows, 0, config.batchSize, i);
    var k :| 0 <= k < |ids| && ids[k] == i;
    TickLog(config, rows, true, env);
    var log := Tick(config, rows, true, env).log;
    if |log| <= k {
      StopsAtWastedCall(config, rows, env);
    }
    assert log[k].id == i;
  }

  // ---------------------------------------------------------------- rounds that count

  /** In how many rounds the pass is set not to get through row `i`. */
  function HeldUps(rounds: seq<Round>, i: nat): (n: nat)
    ensures n <= |rounds|
  {
    if rounds == [] then 0 else (if HeldUp(rounds[0], i) then 1 else 0) + HeldUps(rounds[1..], i)
  }

  lemma {:induction false} OlderHeldUpLess(rounds: seq<Round>, j: nat, i: nat)
    requires j <= i
    ensures HeldUps(rounds, j) <= HeldUps(rounds, i)
  {
    if rounds != [] {
      OlderHeldUpLess(rounds[1..], j, i);
    }
  }

  /** The shortest beginning with `good` rounds that are not held up. */
  lemma {:induction false} SplitAfter(rounds: seq<Round>, i: nat, good: nat) returns (n: nat)
    requires |rounds| >= good + HeldUps(rounds, i)
    ensures n <= |rounds| && n == good + HeldUps(rounds[..n], i)
    ensures HeldUps(rounds, i) == HeldUps(rounds[..n], i) + HeldUps(rounds[n..], i)
    decreases |rounds|
  {
    hide HeldUp;
    if good == 0 {
      n := 0;
    } else {
      var rest := SplitAfter(rounds[1..], i, if HeldUp(rounds[0], i) then good else good - 1);
      n := rest + 1;
      assert rounds[..n][1..] == rounds[1..][..rest];
      assert rounds[n..] == rounds[1..][rest..];
    }
  }

  /** Any round leaves a claimed row claimed or settled, and one that is not held up takes it one attempt
      closer to being settled. */
  lemma {:induction false} StepProgress(config: Config, w: World, round: Round, i: nat)
    requires i < |w.rows| && Claimed(config, w.rows, i)
    ensures var v := Step(config, w, round);
      && i < |v.rows|
      && (Pending(v.rows[i]) ==>
        Claimed(config, v.rows, i)
        && Remaining(config, v.rows[i]) <= Remaining(config, w.rows[i]) - if HeldUp(round, i) then 0 else 1)
  {
    hide Step, Ahead;
    StepRow(config, w, round, i);
    NobodyOvertakes(config, w, round, i);
    if !HeldUp(round, i) {
      assert forall j: nat :: j <= i ==> !WastesCall(round.env(j));
      ClaimedIsCalled(config, w, round, i);
    }
  }

  lemma {:induction false} RunProgress(config: Config, w: World, rounds: seq<Round>, i: nat)
    requires i < |w.rows| && (Pending(w.rows[i]) ==> Claimed(config, w.rows, i))
    requires |rounds| >= Remaining(config, w.rows[i]) + HeldUps(rounds, i)
    ensures var v := Run(config, w, rounds); i < |v.rows| && !Pending(v.rows[i])
    decreases |rounds|
  {
    hide Step, Claimed, HeldUp, Remaining;
    if !Pending(w.rows[i]) {
      SettledForGood(config, w, rounds, i);
    } else {
      var v := Step(config, w, rounds[0]);
      StepProgress(config, w, rounds[0], i);
      if Pending(v.rows[i]) {
        RunProgress(config, v, rounds[1..], i);
      } else {
        SettledForGood(config, v, rounds[1..], i);
      }
    }
  }

  /** After `AttemptBound` rounds that are not held up a row has at least one batch fewer ahead of it. */
  lemma {:induction false} BatchCleared(config: Config, w: World, rounds: seq<Round>, i: nat)
    requires i < |w.rows| && |rounds| >= AttemptBound(config) + HeldUps(rounds, i)
    ensures var v := Run(config, w, rounds);
      i < |v.rows| && Ahead(v.rows, 0, i) <= Max(0, Ahead(w.rows, 0, i) - config.batchSize)
  {
    hide Run, Remaining, HeldUps;
    var v := Run(config, w, rounds);
    SettledForGood(config, w, rounds, i);
    forall j | 0 <= j < i && Pending(v.rows[j])
      ensures Pending(w.rows[j]) && Ahead(w.rows, 0, j) >= config.batchSize
    {
      SettledForGood(config, w, rounds, j);
      if Ahead(w.rows, 0, j) < config.batchSize {
        OlderHeldUpLess(rounds, j, i);
        RunProgress(config, w, rounds, j);
      }
    }
    AheadDrops(w.rows, v.rows, config.batchSize, i);
  }

  /** With fewer than `batches` full batches ahead, `AttemptBound` such rounds a batch are enough. */
  lemma {:induction false} SettledAfterBatches(config: Config, w: World, rounds: seq<Round>, i: nat, batches: nat)
    requires i < |w.rows| && Ahead(w.rows, 0, i) < config.batchSize * batches
    requires |rounds| >= AttemptBound(config) * batches + HeldUps(rounds, i)
    ensures var v := Run(config, w, rounds); i < |v.rows| && !Pending(v.rows[i])
    decreases batches
  {
    hide Run, Ahead, Remaining, HeldUps;
    var bound := AttemptBound(config);
    if batches == 0 {
      assert false;
    } else {
      assert bound * batches == bound * (batches - 1) + bound;
      assert bound * (batches - 1) >= 0;
      if Ahead(w.rows, 0, i) < config.batchSize {
        RunProgress(config, w, rounds, i);
      } else {
        var n := SplitAfter(rounds, i, bound);
        RunSplit(config, w, rounds, n);
        BatchCleared(config, w, rounds[..n], i);
        assert config.batchSize * batches == config.batchSize * (batches - 1) + config.batchSize;
        SettledAfterBatches(config, Run(config, w, rounds[..n]), rounds[n..], i, batches - 1);
      }
    }
  }

  /** The starvation bound: whatever fails and whatever newer rows arrive, a row with `r` pending rows ahead of it
      is settled within `AttemptBound * (r / batchSize + 1)` rounds, and as many more as are held up. */
  lemma {:induction false} StarvationBound(config: Config, w: World, rounds: seq<Round>, i: nat)
    requires config.batchSize >= 1 && i < |w.rows|
    requires |rounds| >= AttemptBound(config) * (Ahead(w.rows, 0, i) / config.batchSize + 1) + HeldUps(rounds, i)
    ensures var v := Run(config, w, rounds); i < |v.rows| && !Pending(v.rows[i])
  {
    SettledAfterBatches(config, w, rounds, i, Ahead(w.rows, 0, i) / config.batchSize + 1);
  }

  // ---------------------------------------------------------------- the attempt bound is reached

  ghost predicate AllFail(rounds: seq<Round>) {
    forall t, id :: 0 <= t < |rounds| ==> !rounds[t].env(id).publish.Confirmed?
  }

  predicate NoConfirm(log: seq<PublishCall>) {
    forall p :: 0 <= p < |log| ==> !log[p].outcome.Confirmed?
  }

  lemma {:induction false} RunWithoutConfirm(config: Config, w: World, rounds: seq<Round>)
    requires AllFail(rounds) && NoConfirm(w.log)
    ensures NoConfirm(Run(config, w, rounds).log)
    decreases |rounds|
  {
    hide Tick, PendingIds;
    if rounds != [] {
      TickLog(config, Arrive(w.rows, rounds[0].arrivals), rounds[0].claimOk, rounds[0].env);
      RunWithoutConfirm(config, Step(config, w, rounds[0]), rounds[1..]);
    }
  }

  lemma {:induction false} NoConfirmedCalls(log: seq<PublishCall>, i: nat)
    requires NoConfirm(log)
    ensures DeliveredCalls(WithConfirm, log, i) == 0
  {
    if log != [] {
      NoConfirmedCalls(log[..|log| - 1], i);
    }
  }

  /** When marks work and every publish fails, a row that is given the rounds it may need gets exactly
      `AttemptBound` publish calls, and is dead after the last, whatever claims fail. */
  lemma {:induction false} AttemptBoundReached(config: Config, rounds: seq<Round>, n: nat, i: nat)
    requires config.batchSize >= 1 && MarksWork(rounds) && AllFail(rounds) && n <= |rounds|
    requires var seen, rest := Run(config, EMPTY, rounds[..n]), rounds[n..];
      && i < |seen.rows|
      && |rest| >= AttemptBound(config) * (Ahead(seen.rows, 0, i) / config.batchSize + 1) + HeldUps(rest, i)
    ensures var w := Run(config, EMPTY, rounds);
      i < |w.rows| && Calls(w.log, i) == AttemptBound(config) && w.rows[i].deadAt.Some?
  {
    hide Run, AttemptBound, Ahead, HeldUps;
    RunSplit(config, EMPTY, rounds, n);
    StarvationBound(config, Run(config, EMPTY, rounds[..n]), rounds[n..], i);
    CallsDetermineRow(config, rounds, i);
    RunWithoutConfirm(config, EMPTY, rounds);
    NoConfirmedCalls(Run(config, EMPTY, rounds).log, i);
  }
}
