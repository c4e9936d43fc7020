/** `BaseOutboxRelay`: the class with its fields, the batch loop and its two nested catches. */
module Relay {
  import opened Base
  import opened Contracts
  import opened Outbox
  import opened OutboxStores
  import RelayBatch
  import RelaySchedule

  /** The timers of the JavaScript event loop. */
  class EventLoop {
    var armed: map<nat, nat>
    var nextHandle: nat

    constructor ()
      ensures armed == map[] && nextHandle == 0
    {
      armed := map[];
      nextHandle := 0;
    }

    method SetTimeout(delay: nat) returns (handle: nat)
      modifies this
      ensures handle == old(nextHandle) && nextHandle == old(nextHandle) + 1 && armed == old(armed)[handle := delay]
    {
      handle := nextHandle;
      armed := armed[handle := delay];
      nextHandle := nextHandle + 1;
    }

    /** The event loop takes the timer off before it runs its callback. */
    method Fire(handle: nat)
      modifies this`armed
      ensures armed == old(armed) - {handle}
    {
      armed := armed - {handle};
    }

    method ClearTimeout(handle: nat)
      modifies this`armed
      ensures armed == old(armed) - {handle}
    {
      armed := armed - {handle};
    }
  }

  /** The publishing side of the broker client, with the history of its calls. */
  class RabbitMQClient {
    var log: seq<RelayBatch.PublishCall>

    constructor ()
      ensures log == []
    {
      log := [];
    }

    method Publish(messageId: nat, body: Event, outcome: RelayBatch.PublishOutcome) returns (confirmed: bool)
      modifies this
      ensures log == old(log) + [RelayBatch.PublishCall(messageId, body, outcome)]
      ensures confirmed <==> outcome.Confirmed?
    {
      log := log + [RelayBatch.PublishCall(messageId, body, outcome)];
      confirmed := outcome.Confirmed?;
    }
  }

  /** What may run while a pass awaits the store or the broker. A timer that fires calls `tick`, too. */
  datatype Interruption = WakeNow | DestroyNow | TickNow | TimerFires(handle: nat)

  function Interrupted(s: RelaySchedule.State, during: seq<Interruption>): RelaySchedule.State {
    if during == [] then s
    else
      var before := Interrupted(s, during[..|during| - 1]);
      match during[|during| - 1]
      case WakeNow => RelaySchedule.Wake(before)
      case DestroyNow => RelaySchedule.Destroy(before)
      case TickNow => RelaySchedule.BeginTick(before)
      case TimerFires(handle) => RelaySchedule.BeginTick(before.(armed := before.armed - {handle}))
  }

  lemma {:induction false} InterruptedTwice(s: RelaySchedule.State, first: seq<Interruption>, rest: seq<Interruption>)
    ensures Interrupted(s, first + rest) == Interrupted(Interrupted(s, first), rest)
    decreases |rest|
  {
    if rest == [] {
      assert first + rest == first;
    } else {
      assert (first + rest)[..|first + rest| - 1] == first + rest[..|rest| - 1];
      InterruptedTwice(s, first, rest[..|rest| - 1]);
    }
  }

  /** A pass stays the running one, whatever interrupts it. */
  lemma {:induction false} StillRunning(s: RelaySchedule.State, during: seq<Interruption>)
    requires s.running
    ensures Interrupted(s, during).running
  {
    if during != [] {
      StillRunning(s, during[..|during| - 1]);
    }
  }

  /** Everything that runs during the awaits `from` to `end - 1`; `during(n)` is what runs during await `n`. */
  function Between(during: nat -> seq<Interruption>, from: nat, end: nat): seq<Interruption>
    decreases end
  {
    if end <= from then [] else Between(during, from, end - 1) + during(end - 1)
  }

  lemma {:induction false} BetweenTwice(during: nat -> seq<Interruption>, from: nat, middle: nat, end: nat)
    requires from <= middle <= end
    ensures Between(during, from, end) == Between(during, from, middle) + Between(during, middle, end)
    decreases end
  {
    if middle < end {
      BetweenTwice(during, from, middle, end - 1);
    }
  }

  class BaseOutboxRelay {
    var timer: Option<nat>
    var running: bool
    var wakeRequested: bool
    var stopped: bool
    const store: OutboxStore
    const rmq: RabbitMQClient
    const eventLoop: EventLoop
    const batchSize: nat
    const maxAttempts: int
    const pollInterval: nat

    constructor (store: OutboxStore, rmq: RabbitMQClient, eventLoop: EventLoop, batchSize: nat, maxAttempts: int,
            pollInterval: nat)
      ensures this.store == store && this.rmq == rmq && this.eventLoop == eventLoop
      ensures this.batchSize == batchSize && this.maxAttempts == maxAttempts && this.pollInterval == pollInterval
      ensures State() == RelaySchedule.INITIAL.(armed := eventLoop.armed, nextHandle := eventLoop.nextHandle)
    {
      timer, running, wakeRequested, stopped := None, false, false, false;
      this.store, this.rmq, this.eventLoop := store, rmq, eventLoop;
      this.batchSize, this.maxAttempts, this.pollInterval := batchSize, maxAttempts, pollInterval;
    }

    function State(): RelaySchedule.State
      reads this, eventLoop
    {
      RelaySchedule.State(timer, running, wakeRequested, stopped, eventLoop.armed, eventLoop.nextHandle)
    }

    function Config(): RelayBatch.Config {
      RelayBatch.Config(store.Policy(), batchSize, maxAttempts)
    }

    method ScheduleNextTick(delay: nat)
      modifies this, eventLoop
      ensures State() == RelaySchedule.ScheduleNextTick(old(State()), delay)
    {
      if stopped {
        return;
      }
      if timer.Some? {
        eventLoop.ClearTimeout(timer.value);
      }
      var handle := eventLoop.SetTimeout(delay);
      timer := Some(handle);
    }

    method OnModuleInit()
      modifies this, eventLoop
      ensures State() == RelaySchedule.Init(old(State()))
    {
      ScheduleNextTick(0);
    }

    method OnModuleDestroy()
      modifies this, eventLoop
      ensures State() == RelaySchedule.Destroy(old(State()))
    {
      stopped := true;
      if timer.Some? {
        eventLoop.ClearTimeout(timer.value);
        timer := None;
      }
    }

    method Wake()
      modifies this, eventLoop
      ensures State() == RelaySchedule.Wake(old(State()))
    {
      wakeRequested := true;
      if !running {
        ScheduleNextTick(0);
      }
    }

    /** An await inside a pass: other calls run to completion before the pass goes on. A `tick` among them
        returns at once, since `running` is set. */
    method Await(during: seq<Interruption>)
      requires running
      modifies this, eventLoop
      ensures State() == Interrupted(old(State()), during) && running
    {
      for k := 0 to |during|
        invariant State() == Interrupted(old(State()), during[..k]) && running
      {
        assert during[..k + 1][..|during[..k + 1]| - 1] == during[..k];
        match during[k]
        case WakeNow => Wake();
        case DestroyNow => OnModuleDestroy();
        case TickNow => assert RelaySchedule.BeginTick(State()) == State();
        case TimerFires(handle) => eventLoop.Fire(handle);
      }
      assert during[..|during|] == during;
    }

    /** One more await. */
    method AwaitNext(during: nat -> seq<Interruption>, from: nat, at: nat, ghost begun: RelaySchedule.State)
      returns (next: nat)
      requires running && from <= at && State() == Interrupted(begun, Between(during, from, at))
      modifies this, eventLoop
      ensures running && next == at + 1 && State() == Interrupted(begun, Between(during, from, next))
    {
      InterruptedTwice(begun, Between(during, from, at), during(at));
      Await(during(at));
      next := at + 1;
    }

    /** The inner try and catch for one record: it awaits the publish and then one or two marks. */
    method HandleRecord(record: Record, a: RelayBatch.Attempt, during: nat -> seq<Interruption>, at: nat)
      returns (verdict: RelayBatch.Verdict, next: nat)
      requires record.id < |store.Table().rows| && running
      modifies this, eventLoop, rmq, store.Table()
      ensures verdict == RelayBatch.VerdictOf(maxAttempts, record, a)
      ensures store.Table().rows == old(store.Table().rows)[record.id :=
        RelayBatch.MarkedRow(store.Policy(), old(store.Table().rows[record.id]), verdict, a)]
      ensures rmq.log == old(rmq.log) + [RelayBatch.PublishCall(record.id, record.event, a.publish)]
      ensures next == at + (if a.publish.Confirmed? && !a.markPublishedOk then 3 else 2)
      ensures running && State() == Interrupted(old(State()), Between(during, at, next))
    {
      ghost var begun := State();
      var confirmed := rmq.Publish(record.id, record.event, a.publish);
      next := AwaitNext(during, at, at, begun);
      var error := a.publishError;
      if confirmed {
        var marked := store.MarkPublished(record.id, a.now, a.markPublishedOk);
        next := AwaitNext(during, at, next, begun);
        if marked {
          return RelayBatch.Published, next;
        }
        error := a.markPublishedError;
      }
      var marked;
      if record.attempts + 1 >= maxAttempts {
        marked := store.MarkDead(record.id, error, a.now, a.markErrorOk);
        verdict := if marked then RelayBatch.Dead else RelayBatch.Aborted;
      } else {
        marked := store.MarkFailed(record.id, error, a.markErrorOk);
        verdict := if marked then RelayBatch.Failed else RelayBatch.Aborted;
      }
      next := AwaitNext(during, at, next, begun);
    }

    /** The loop over the claimed batch. It looks at none of the fields that the interruptions write. */
    method ProcessBatch(batch: seq<Record>, env: nat -> RelayBatch.Attempt, during: nat -> seq<Interruption>, at: nat)
      returns (published: nat, next: nat)
      requires RelayBatch.InTable(store.Table().rows, batch) && running
      modifies this, eventLoop, rmq, store.Table()
      ensures var p := RelayBatch.RunBatch(store.Policy(), maxAttempts, old(store.Table().rows), batch, env);
        store.Table().rows == p.rows && rmq.log == old(rmq.log) + p.log && published == p.published
      ensures at <= next && running && State() == Interrupted(old(State()), Between(during, at, next))
    {
      hide RelayBatch.RunBatch, RelayBatch.MarkedRow, RelayBatch.VerdictOf, Interrupted, Between;
      published, next := 0, at;
      var table, policy := store.Table(), store.Policy();
      ghost var begun := State();
      ghost var calls: seq<RelayBatch.PublishCall> := [];
      ghost var whole := RelayBatch.RunBatch(policy, maxAttempts, table.rows, batch, env);
      assert batch[0..] == batch;
      NoInterruption(begun, during, at);
      for k := 0 to |batch|
        invariant RelayBatch.InTable(table.rows, batch)
        invariant rmq.log == old(rmq.log) + calls
        invariant var rest := RelayBatch.RunBatch(policy, maxAttempts, table.rows, batch[k..], env);
          whole.rows == rest.rows && whole.log == calls + rest.log && whole.published == published + rest.published
        invariant at <= next && running && State() == Interrupted(begun, Between(during, at, next))
      {
        RelayBatch.RunBatchFrom(policy, maxAttempts, table.rows, batch, k, env);
        var a := env(batch[k].id);
        ghost var here := next;
        var verdict;
        verdict, next := HandleRecord(batch[k], a, during, next);
        BetweenTwice(during, at, here, next);
        InterruptedTwice(begun, Between(during, at, here), Between(during, here, next));
        calls := calls + [RelayBatch.PublishCall(batch[k].id, batch[k].event, a.publish)];
        if verdict.Aborted? {
          return;
        }
        if verdict.Published? {
          published := published + 1;
        }
      }
      RelayBatch.RunBatchNothing(policy, maxAttempts, table.rows, batch[|batch|..], env);
    }

    /** The try block of `tick`: claim, then the loop; an error of the claim ends in the outer catch. */
    method ClaimAndProcess(fault: Option<nat>, env: nat -> RelayBatch.Attempt, during: nat -> seq<Interruption>)
      returns (published: nat, awaits: nat)
      requires running
      modifies this, eventLoop, rmq, store.Table()
      ensures var p := RelayBatch.Tick(Config(), old(store.Table().rows),
                                       store.ClaimSucceeds(old(store.Table().rows), batchSize, fault), env);
        store.Table().rows == p.rows && rmq.log == old(rmq.log) + p.log && published == p.published
      ensures running && State() == Interrupted(old(State()), Between(during, 0, awaits))
    {
      hide RelayBatch.RunBatch, PendingIds, Interrupted, Between;
      ghost var begun := State();
      var claim := store.ClaimBatch(batchSize, fault);
      NoInterruption(begun, during, 0);
      awaits := AwaitNext(during, 0, 0, begun);
      if claim.Err? {
        return 0, awaits;
      }
      ghost var here := awaits;
      published, awaits := ProcessBatch(claim.value, env, during, awaits);
      BetweenTwice(during, 0, here, awaits);
      InterruptedTwice(begun, Between(during, 0, here), Between(during, here, awaits));
    }

    /** A pass. `during(n)` runs while it awaits for the `n`-th time; `awaits` counts them. */
    method Tick(fault: Option<nat>, env: nat -> RelayBatch.Attempt, during: nat -> seq<Interruption>)
      returns (published: nat, awaits: nat)
      modifies this, eventLoop, rmq, store.Table()
      ensures !RelaySchedule.Starts(old(State())) ==>
        published == 0 && State() == old(State()) && rmq.log == old(rmq.log) &&
          store.Table().rows == old(store.Table().rows)
      ensures RelaySchedule.Starts(old(State())) ==>
        var p := RelayBatch.Tick(Config(), old(store.Table().rows),
                                 store.ClaimSucceeds(old(store.Table().rows), batchSize, fault), env);
        && store.Table().rows == p.rows
        && rmq.log == old(rmq.log) + p.log
        && published == p.published
        && State() == RelaySchedule.EndTick(Interrupted(RelaySchedule.BeginTick(old(State())),
          Between(during, 0, awaits)), pollInterval)
      ensures forall o: RelaySchedule.Observed :: o.s == old(State()) && RelaySchedule.ScheduleOk(o) ==>
        var n := RelaySchedule.Replay(o, TickSignals(o.s, Between(during, 0, awaits)), pollInterval);
        n.s == State() && RelaySchedule.ScheduleOk(n)
    {
      hide RelayBatch.Tick, Interrupted, Between;
      if running || stopped {
        TickKeepsEverySchedule(State(), Between(during, 0, 0), pollInterval);
        return 0, 0;
      }
      running := true;
      wakeRequested := false;
      published, awaits := ClaimAndProcess(fault, env, during);
      running := false;
      if !stopped {
        ScheduleNextTick(if wakeRequested then 0 else pollInterval);
      }
      assert State() == RelaySchedule.EndTick(Interrupted(RelaySchedule.BeginTick(old(State())),
        Between(during, 0, awaits)), pollInterval);
      TickKeepsEverySchedule(old(State()), Between(during, 0, awaits), pollInterval);
    }
  }

  lemma {:induction false} NoInterruption(s: RelaySchedule.State, during: nat -> seq<Interruption>, at: nat)
    ensures Interrupted(s, Between(during, at, at)) == s
  {
  }

  // ---------------------------------------------------------------- the class under every interleaving

  function SignalOf(i: Interruption): RelaySchedule.Signal {
    match i
    case WakeNow => RelaySchedule.WakeCall
    case DestroyNow => RelaySchedule.ModuleDestroy
    case TickNow => RelaySchedule.TickCall
    case TimerFires(handle) => RelaySchedule.TimerFires(handle)
  }

  function Signals(during: seq<Interruption>): (signals: seq<RelaySchedule.Signal>)
    ensures |signals| == |during|
  {
    seq(|during|, k requires 0 <= k < |during| => SignalOf(during[k]))
  }

  /** What interrupts a running pass is a stretch of the schedule, and leaves the pass running. */
  lemma {:induction false} InterruptedIsReplay(o: RelaySchedule.Observed, during: seq<Interruption>, pollInterval: nat)
    requires o.s.running
    ensures var n := RelaySchedule.Replay(o, Signals(during), pollInterval);
      n.s == Interrupted(o.s, during) && n.s.running && n.passes == o.passes
  {
    if during != [] {
      var k := |during| - 1;
      InterruptedIsReplay(o, during[..k], pollInterval);
      assert Signals(during) == Signals(during[..k]) + [SignalOf(during[k])];
      RelaySchedule.ReplayLast(o, Signals(during[..k]), SignalOf(during[k]), pollInterval);
    }
  }

  /** The schedule of one call of `tick`: it begins, is interrupted and ends, or its guard turns it away. */
  function TickSignals(s: RelaySchedule.State, during: seq<Interruption>): seq<RelaySchedule.Signal> {
    if RelaySchedule.Starts(s) then [RelaySchedule.TickCall] + Signals(during) + [RelaySchedule.PassEnds]
    else [RelaySchedule.TickCall]
  }

  /** The state in which `Tick` leaves the class, whatever interrupts its awaits, is one that the schedule reaches. So
      at most one timer is armed, no wake is lost and nothing goes on after destroy, if it was so before. */
  lemma {:induction false} TickKeepsSchedule(o: RelaySchedule.Observed, during: seq<Interruption>, pollInterval: nat)
    requires RelaySchedule.ScheduleOk(o)
    ensures var n := RelaySchedule.Replay(o, TickSignals(o.s, during), pollInterval);
      && RelaySchedule.ScheduleOk(n)
      && n.s == if !RelaySchedule.Starts(o.s) then o.s
        else RelaySchedule.EndTick(Interrupted(RelaySchedule.BeginTick(o.s), during), pollInterval)
  {
    RelaySchedule.ScheduleAlwaysOk(o, TickSignals(o.s, during), pollInterval);
    if RelaySchedule.Starts(o.s) {
      var signals := [RelaySchedule.TickCall] + Signals(during);
      var begun := RelaySchedule.TickStep(o);
      assert signals[1..] == Signals(during);
      InterruptedIsReplay(begun, during, pollInterval);
      RelaySchedule.ReplayLast(o, signals, RelaySchedule.PassEnds, pollInterval);
    } else {
      assert [RelaySchedule.TickCall][1..] == [];
    }
  }

  lemma {:induction false} TickKeepsEverySchedule(s: RelaySchedule.State, during: seq<Interruption>, pollInterval: nat)
    ensures forall o: RelaySchedule.Observed :: o.s == s && RelaySchedule.ScheduleOk(o) ==>
      var n := RelaySchedule.Replay(o, TickSignals(o.s, during), pollInterval);
      && RelaySchedule.ScheduleOk(n)
      && n.s == if !RelaySchedule.Starts(s) then s
        else RelaySchedule.EndTick(Interrupted(RelaySchedule.BeginTick(s), during), pollInterval)
  {
    hide RelaySchedule.ScheduleOk, RelaySchedule.Replay, Interrupted;
    forall o: RelaySchedule.Observed | o.s == s && RelaySchedule.ScheduleOk(o)
      ensures var n := RelaySchedule.Replay(o, TickSignals(o.s, during), pollInterval);
        && RelaySchedule.ScheduleOk(n)
        && n.s == if !RelaySchedule.Starts(s) then s
          else RelaySchedule.EndTick(Interrupted(RelaySchedule.BeginTick(s), during), pollInterval)
    {
      TickKeepsSchedule(o, during, pollInterval);
    }
  }
}
