/** The scheduling half of the relay: `wake`, `scheduleNextTick`, `onModuleInit`, `onModuleDestroy`,
    and the two ends of `tick`, as they interleave on a JavaScript event loop. Code between two
    awaits runs to completion, so each of these is one atomic step; a pass is the stretch between
    the start and the end of a `tick` that got through its guard. */
module RelaySchedule {
  import opened Base

  /** The relay's fields, and the timers the event loop has armed: handle to delay. A fired timer is
      gone from `armed`, although the relay's field still holds its handle. */
  datatype State = State(timer: Option<nat>, running: bool, wakeRequested: bool, stopped: bool,
                         armed: map<nat, nat>, nextHandle: nat)

  const INITIAL := State(None, false, false, false, map[], 0)

  function ClearTimer(s: State): State {
    if s.timer.Some? then s.(armed := s.armed - {s.timer.value}) else s
  }

  function ScheduleNextTick(s: State, delay: nat): State {
    if s.stopped then s
    else
      var c := ClearTimer(s);
      c.(armed := c.armed[c.nextHandle := delay], timer := Some(c.nextHandle), nextHandle := c.nextHandle + 1)
  }

  function Init(s: State): State {
    ScheduleNextTick(s, 0)
  }

  function Destroy(s: State): State {
    ClearTimer(s.(stopped := true)).(timer := None)
  }

  function Wake(s: State): State {
    var w := s.(wakeRequested := true);
    if s.running then w else ScheduleNextTick(w, 0)
  }

  /** Whether a call of `tick` gets through its guard; only then does it claim. */
  predicate Starts(s: State) {
    !s.running && !s.stopped
  }

  function BeginTick(s: State): State {
    if Starts(s) then s.(running := true, wakeRequested := false) else s
  }

  /** The `finally` block. */
  function EndTick(s: State, pollInterval: nat): State {
    var e := s.(running := false);
    if e.stopped then e else ScheduleNextTick(e, if e.wakeRequested then 0 else pollInterval)
  }

  // ---------------------------------------------------------------- every interleaving

  datatype Signal =
    | ModuleInit
    | ModuleDestroy
    | WakeCall
    | TickCall              // somebody calls tick() directly
    | TimerFires(handle: nat)
    | PassEnds

  /** The relay with what an observer counts: `passes` now in progress, `claimsAfterDestroy`, and
      `owed`, a wake that no claim has followed yet. */
  datatype Observed = Observed(s: State, passes: nat, scheduled: bool, owed: bool, destroyed: bool,
                               claimsAfterDestroy: nat)

  const START := Observed(INITIAL, 0, false, false, false, 0)

  predicate Enabled(o: Observed, signal: Signal) {
    match signal
    case TimerFires(handle) => handle in o.s.armed
    case PassEnds => o.passes > 0
    case _ => true
  }

  function TickStep(o: Observed): Observed {
    var t := o.(s := BeginTick(o.s));
    if Starts(o.s) then
      t.(passes := o.passes + 1, owed := false,
         claimsAfterDestroy := o.claimsAfterDestroy + if o.destroyed then 1 else 0)
    else t
  }

  function Step(o: Observed, signal: Signal, pollInterval: nat): Observed
    requires Enabled(o, signal)
  {
    match signal
    case ModuleInit => o.(s := Init(o.s), scheduled := true)
    case ModuleDestroy => o.(s := Destroy(o.s), destroyed := true)
    case WakeCall => o.(s := Wake(o.s), owed := true, scheduled := o.scheduled || !o.s.running)
    case TickCall => TickStep(o)
    case TimerFires(handle) => TickStep(o.(s := o.s.(armed := o.s.armed - {handle})))
    case PassEnds => o.(s := EndTick(o.s, pollInterval), passes := o.passes - 1, scheduled := true)
  }

  /** Replays signals; a signal that is not enabled cannot occur and is skipped. */
  function Replay(o: Observed, signals: seq<Signal>, pollInterval: nat): Observed
    decreases |signals|
  {
    if signals == [] then o
    else Replay(if Enabled(o, signals[0]) then Step(o, signals[0], pollInterval) else o, signals[1..], pollInterval)
  }

  predicate ZeroDelayArmed(s: State) {
    s.timer.Some? && s.timer.value in s.armed && s.armed[s.timer.value] == 0
  }

  /** At most one pass runs, and the `running` flag says whether one does. */
  predicate SingleFlight(o: Observed) {
    o.passes == if o.s.running then 1 else 0
  }

  /** At most one timer is armed, and it is the one the field holds; none after destroy. */
  predicate OneTimer(s: State) {
    && (forall h :: h in s.armed ==> s.timer == Some(h) && h < s.nextHandle)
    && (s.stopped ==> s.armed == map[])
  }

  /** Once scheduled and not stopped, a pass is running or a timer is armed. */
  predicate KeepsGoing(o: Observed) {
    o.scheduled && !o.s.stopped ==> o.s.running || o.s.armed != map[]
  }

  /** A wake not yet followed by a claim has a zero-delay timer, or a running pass that will see it. */
  predicate NoLostWake(o: Observed) {
    o.owed && !o.s.stopped ==> if o.s.running then o.s.wakeRequested else ZeroDelayArmed(o.s)
  }

  predicate NoClaimAfterDestroy(o: Observed) {
    o.destroyed == o.s.stopped && o.claimsAfterDestroy == 0
  }

  predicate ScheduleOk(o: Observed) {
    SingleFlight(o) && OneTimer(o.s) && KeepsGoing(o) && NoLostWake(o) && NoClaimAfterDestroy(o)
  }

  lemma {:induction false} StepOk(o: Observed, signal: Signal, pollInterval: nat)
    requires ScheduleOk(o) && Enabled(o, signal)
    ensures ScheduleOk(Step(o, signal, pollInterval))
  {
    var n := Step(o, signal, pollInterval);
    if n.s.nextHandle > o.s.nextHandle {
      assert o.s.nextHandle in n.s.armed;
    }
  }

  /** Over every interleaving of wake, timer, direct tick, end of pass, init and destroy. */
  lemma {:induction false} ScheduleAlwaysOk(o: Observed, signals: seq<Signal>, pollInterval: nat)
    requires ScheduleOk(o)
    ensures ScheduleOk(Replay(o, signals, pollInterval))
    decreases |signals|
  {
    if signals != [] {
      if Enabled(o, signals[0]) {
        StepOk(o, signals[0], pollInterval);
        ScheduleAlwaysOk(Step(o, signals[0], pollInterval), signals[1..], pollInterval);
      } else {
        ScheduleAlwaysOk(o, signals[1..], pollInterval);
      }
    }
  }

  /** After destroy the relay stays stopped: whatever still happens, no timer is armed again and no pass begins. */
  lemma {:induction false} StoppedForGood(o: Observed, signals: seq<Signal>, pollInterval: nat)
    requires ScheduleOk(o) && o.s.stopped
    ensures var r := Replay(o, signals, pollInterval);
      r.s.stopped && r.s.armed == map[] && r.passes <= o.passes && (r.s.running ==> o.s.running)
    decreases |signals|
  {
    if signals != [] {
      if Enabled(o, signals[0]) {
        StepOk(o, signals[0], pollInterval);
        StoppedForGood(Step(o, signals[0], pollInterval), signals[1..], pollInterval);
      } else {
        StoppedForGood(o, signals[1..], pollInterval);
      }
    }
  }

  /** From start-up, a wake is answered: if the relay was not stopped, the very next pass that could
      begin is either already running with the wake recorded, so that it reschedules at once when it
      ends, or is armed with no delay. */
  lemma {:induction false} WakeIsAnswered(signals: seq<Signal>, pollInterval: nat)
    ensures var o := Replay(START, signals + [WakeCall], pollInterval);
      !o.s.stopped ==>
        if o.s.running then ZeroDelayArmed(EndTick(o.s, pollInterval)) && !EndTick(o.s, pollInterval).running
        else ZeroDelayArmed(o.s)
  {
    ReplayLast(START, signals, WakeCall, pollInterval);
    ScheduleAlwaysOk(START, signals, pollInterval);
  }

  // ---------------------------------------------------------------- when the next pass is due

  /** A pass begins with signal `i`. */
  predicate Begins(signals: seq<Signal>, i: nat, pollInterval: nat)
    requires i < |signals|
  {
    Replay(START, signals[..i + 1], pollInterval).passes > Replay(START, signals[..i], pollInterval).passes
  }

  /** There was a wake, and no pass has begun since. */
  predicate WokenSince(signals: seq<Signal>, pollInterval: nat) {
    exists j :: 0 <= j < |signals| && WokenAt(signals, j, pollInterval)
  }

  predicate WokenAt(signals: seq<Signal>, j: nat, pollInterval: nat)
    requires j < |signals|
  {
    signals[j].WakeCall? && forall i :: j <= i < |signals| ==> !Begins(signals, i, pollInterval)
  }

  lemma {:induction false} BeginsInFront(signals: seq<Signal>, last: Signal, i: nat, pollInterval: nat)
    requires i < |signals|
    ensures Begins(signals + [last], i, pollInterval) == Begins(signals, i, pollInterval)
  {
    assert (signals + [last])[..i + 1] == signals[..i + 1] && (signals + [last])[..i] == signals[..i];
  }

  /** Whether a wake is waiting, one signal further. */
  lemma {:induction false} WokenLast(signals: seq<Signal>, last: Signal, pollInterval: nat)
    ensures var begins := Begins(signals + [last], |signals|, pollInterval);
      WokenSince(signals + [last], pollInterval) <==>
        !begins && (last.WakeCall? || WokenSince(signals, pollInterval))
  {
    hide Begins;
    var more := signals + [last];
    forall i | 0 <= i < |signals| ensures Begins(more, i, pollInterval) == Begins(signals, i, pollInterval) {
      BeginsInFront(signals, last, i, pollInterval);
    }
    if WokenSince(more, pollInterval) {
      var j :| 0 <= j < |more| && WokenAt(more, j, pollInterval);
      assert !Begins(more, |signals|, pollInterval);
      assert j < |signals| ==> WokenAt(signals, j, pollInterval);
    } else if WokenSince(signals, pollInterval) {
      var j :| 0 <= j < |signals| && WokenAt(signals, j, pollInterval);
      assert !Begins(more, |signals|, pollInterval) ==> WokenAt(more, j, pollInterval);
    } else if last.WakeCall? {
      assert !Begins(more, |signals|, pollInterval) ==> WokenAt(more, |signals|, pollInterval);
    }
  }

  /** While a pass runs, its flag says whether a wake came since it began. */
  lemma {:induction false} FlagIsWoken(signals: seq<Signal>, pollInterval: nat)
    ensures var o := Replay(START, signals, pollInterval);
      o.passes > 0 ==> (o.s.wakeRequested <==> WokenSince(signals, pollInterval))
  {
    hide Begins, WokenSince, Replay;
    if signals == [] {
      ReplayNothing(pollInterval);
    } else {
      var n := |signals| - 1;
      var front, last := signals[..n], signals[n];
      assert front + [last] == signals;
      FlagIsWoken(front, pollInterval);
      WokenLast(front, last, pollInterval);
      ReplayLast(START, front, last, pollInterval);
      ScheduleAlwaysOk(START, front, pollInterval);
      LastBegins(front, last, pollInterval);
    }
  }

  lemma {:induction false} ReplayNothing(pollInterval: nat)
    ensures Replay(START, [], pollInterval) == START
  {
  }

  lemma {:induction false} LastBegins(front: seq<Signal>, last: Signal, pollInterval: nat)
    ensures Begins(front + [last], |front|, pollInterval)
      <==> Replay(START, front + [last], pollInterval).passes > Replay(START, front, pollInterval).passes
  {
    assert (front + [last])[..|front| + 1] == front + [last] && (front + [last])[..|front|] == front;
  }

  predicate OnlyArmed(s: State, delay: nat) {
    s.timer.Some? && s.armed == map[s.timer.value := delay]
  }

  /** When a pass of a relay that is not stopped ends, exactly one timer is armed: with no delay if a wake came since
      the pass began, and with the poll interval otherwise. */
  lemma {:induction false} NextPassIsDue(signals: seq<Signal>, pollInterval: nat)
    requires Replay(START, signals, pollInterval).passes > 0 && !Replay(START, signals, pollInterval).destroyed
    ensures var n := Replay(START, signals + [PassEnds], pollInterval);
      n.passes == 0 && OnlyArmed(n.s, if WokenSince(signals, pollInterval) then 0 else pollInterval)
  {
    hide WokenSince;
    FlagIsWoken(signals, pollInterval);
    ReplayLast(START, signals, PassEnds, pollInterval);
    ScheduleAlwaysOk(START, signals, pollInterval);
  }

  /** Start-up arms a timer with no delay, unless the relay is stopped. */
  lemma {:induction false} FirstPassIsDue(signals: seq<Signal>, pollInterval: nat)
    requires !Replay(START, signals, pollInterval).destroyed
    ensures OnlyArmed(Replay(START, signals + [ModuleInit], pollInterval).s, 0)
  {
    ReplayLast(START, signals, ModuleInit, pollInterval);
    ScheduleAlwaysOk(START, signals, pollInterval);
  }

  lemma {:induction false} ReplayLast(o: Observed, signals: seq<Signal>, last: Signal, pollInterval: nat)
    ensures var b := Replay(o, signals, pollInterval);
      Replay(o, signals + [last], pollInterval) == if Enabled(b, last) then Step(b, last, pollInterval) else b
    decreases |signals|
  {
    if signals == [] {
      assert signals + [last] == [last];
      assert [last][1..] == [];
    } else {
      assert (signals + [last])[1..] == signals[1..] + [last];
      var next := if Enabled(o, signals[0]) then Step(o, signals[0], pollInterval) else o;
      ReplayLast(next, signals[1..], last, pollInterval);
    }
  }
}
