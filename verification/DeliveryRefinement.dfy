/** The consumers' code against the protocol, statement by statement: whatever other participants do between two
    statements of a delivery, each statement with its answer is a step of the protocol, or none. */
module DeliveryRefinement {
  import opened Base
  import opened Contracts
  import Tracking
  import T = TrackingService
  import N = Notifications
  import opened Consumer
  import opened Protocol
  import opened ProtocolRows
  import opened ProtocolPreservation
  import opened Refinement

  // ---------------------------------------------------------------- the code, statement by statement

  /** The statement a delivery is about to run. In the tracking service: the key insert, the lookup of the
      shipment, its insert, the history entry, the read back, the commit. In the notification
      service: the key insert, the PENDING row, the provider call, the update to SENT, or to
      FAILED after the provider threw, the commit. */
  datatype Pc =
    | AtKey
    | AtFind | AtCreate | AtLog | AtReadBack
    | AtRow | AtProvider | AtSent | AtFailed(thrown: Failure)
    | AtCommit(found: bool)
    | Returned(result: ProcessResult)

  /** How a statement ends. `yes`: the lookup found a shipment, or the key insert inserted a row. `Unanswered`: the
      commit went through although it throws. */
  datatype Reply = Done(yes: bool) | Raised(error: Failure) | Unanswered(error: Failure)

  predicate Belongs(queue: Subscription, pc: Pc) {
    match pc
    case AtKey => true
    case AtCommit(_) => true
    case Returned(_) => true
    case AtFind => queue.TrackingOrderCreated?
    case AtCreate => queue.TrackingOrderCreated?
    case AtLog => queue.TrackingOrderCreated?
    case AtReadBack => queue.TrackingOrderCreated?
    case AtFailed(thrown) => !queue.TrackingOrderCreated? && thrown.message != N.DUPLICATE_MESSAGE
    case _ => !queue.TrackingOrderCreated?
  }

  /** `markProcessed` of the tracking service around `createPendingShipment`: every error ends in its catch
      block, which tells duplicates by the error code. */
  function TrackingNext(pc: Pc, reply: Reply): Pc
    requires !pc.Returned?
  {
    match reply
    case Raised(error) => Returned(T.ResultOf(Some(error)))
    case Unanswered(error) => Returned(T.ResultOf(Some(error)))
    case Done(yes) =>
      match pc
      case AtKey => AtFind
      case AtFind => if yes then AtCommit(true) else AtCreate
      case AtCreate => AtLog
      case AtLog => AtReadBack
      case AtReadBack => AtCommit(false)
      case _ => Returned(Processed)
  }

  /** `markProcessed` of the notification service around `dispatch`: a key that is there already raises the
      sentinel; an error of the provider is thrown again behind the update to FAILED. */
  function NotificationNext(pc: Pc, reply: Reply): Pc
    requires !pc.Returned?
  {
    match reply
    case Raised(error) => if pc.AtProvider? then AtFailed(error) else Returned(N.ResultOf(Some(error)))
    case Unanswered(error) => Returned(N.ResultOf(Some(error)))
    case Done(yes) =>
      match pc
      case AtKey => if yes then AtRow else Returned(N.ResultOf(Some(N.ALREADY_PROCESSED)))
      case AtRow => AtProvider
      case AtProvider => AtSent
      case AtSent => AtCommit(false)
      case AtFailed(thrown) => Returned(N.ResultOf(Some(thrown)))
      case _ => Returned(Processed)
  }

  function Next(queue: Subscription, pc: Pc, reply: Reply): Pc
    requires !pc.Returned?
  {
    if queue.TrackingOrderCreated? then TrackingNext(pc, reply) else NotificationNext(pc, reply)
  }

  // ---------------------------------------------------------------- what the database can answer

  /** Only a commit can go unanswered, and only the lookup and the notification service's key insert say no. */
  predicate Regular(queue: Subscription, pc: Pc, reply: Reply) {
    && (reply.Unanswered? ==> pc.AtCommit?)
    && (reply.Done? && !reply.yes ==> pc.AtFind? || (pc.AtKey? && !queue.TrackingOrderCreated?))
  }

  /** Inserts succeed when the unique key is free, and wait while another transaction holds it; a unique violation
      is raised only by a committed row; reads see what is committed. Any other error can come at any
      time, as long as it does not pass for a unique violation or for the sentinel. */
  predicate Possible(s: State, f: Flight, pc: Pc, reply: Reply)
    requires Accepted(f)
  {
    && Regular(f.copy.queue, pc, reply)
    && if f.copy.queue.TrackingOrderCreated? then TrackingPossible(s, f, pc, reply)
      else NotificationPossible(s, f, pc, reply)
  }

  predicate TrackingPossible(s: State, f: Flight, pc: Pc, reply: Reply)
    requires Accepted(f) && f.copy.queue.TrackingOrderCreated?
  {
    var orderId := f.copy.msg.event.order.orderId;
    match pc
    case AtKey =>
      && (reply.Done? ==> FlightKey(f) !in s.tracking.processed && !KeyLocked(s, FlightKey(f)))
      && (reply.Raised? && T.IsUniqueConstraintError(reply.error) ==> FlightKey(f) in s.tracking.processed)
    case AtFind =>
      && (reply.Done? ==> reply.yes == Tracking.HasShipment(s.tracking, orderId))
      && (reply.Raised? ==> !T.IsUniqueConstraintError(reply.error))
    case AtCreate =>
      && (reply.Done? ==> !Tracking.HasShipment(s.tracking, orderId) && !OrderLocked(s, orderId))
      && (reply.Raised? && T.IsUniqueConstraintError(reply.error) ==> Tracking.HasShipment(s.tracking, orderId))
    case _ => reply.Raised? ==> !T.IsUniqueConstraintError(reply.error)
  }

  predicate NotificationPossible(s: State, f: Flight, pc: Pc, reply: Reply)
    requires Accepted(f) && !f.copy.queue.TrackingOrderCreated?
  {
    && (reply.Raised? ==> reply.error.message != N.DUPLICATE_MESSAGE)
    && (pc.AtKey? && reply.Done? ==>
          if reply.yes then FlightKey(f) !in s.notifications.processed && !KeyLocked(s, FlightKey(f))
          else FlightKey(f) in s.notifications.processed)
  }

  // ---------------------------------------------------------------- where that is in the protocol

  function PhaseOf(queue: Subscription, pc: Pc): Phase {
    match pc
    case AtKey => Received
    case AtFind => KeyInserted
    case AtCreate => SawNone
    case AtLog => ShipmentInserted
    case AtReadBack => ShipmentInserted
    case AtRow => KeyInserted
    case AtProvider => KeyInserted
    case AtSent => NotificationSent
    case AtFailed(_) => NotificationSent
    case AtCommit(found) =>
      if !queue.TrackingOrderCreated? then NotificationSent else if found then SawShipment else ShipmentInserted
    case Returned(result) => Finished(result)
  }

  predicate AtPc(s: State, t: nat, pc: Pc) {
    t in s.flights && Accepted(s.flights[t]) && Belongs(s.flights[t].copy.queue, pc)
      && s.flights[t].phase == PhaseOf(s.flights[t].copy.queue, pc)
  }

  /** What a statement changes outside its transaction: a provider call is made, a commit becomes visible. */
  function Outside(s: State, f: Flight, pc: Pc, reply: Reply, provider: string, now: nat): State
    requires Accepted(f)
  {
    if pc.AtProvider? then s.(sends := s.sends + multiset{FlightKey(f)})
    else if pc.AtCommit? && !reply.Raised? then Committed(s, f.copy, provider, now)
    else s
  }

  function AfterStatement(s: State, t: nat, pc: Pc, reply: Reply, provider: string, now: nat): State
    requires AtPc(s, t, pc) && !pc.Returned?
  {
    var f := s.flights[t];
    var outside := Outside(s, f, pc, reply, provider, now);
    outside.(flights := s.flights[t := f.(phase := PhaseOf(f.copy.queue, Next(f.copy.queue, pc, reply)))])
  }

  lemma {:induction false} StatementKeepsPc(s: State, t: nat, pc: Pc, reply: Reply, provider: string, now: nat)
    requires AtPc(s, t, pc) && !pc.Returned? && Possible(s, s.flights[t], pc, reply)
    ensures AtPc(AfterStatement(s, t, pc, reply, provider, now), t, Next(s.flights[t].copy.queue, pc, reply))
  {
    hide Committed, FlightKey, KeyLocked, OrderLocked, Tracking.HasShipment, T.ResultOf, N.ResultOf;
  }

  lemma {:induction false} MeanwhileKeepsPc(s: State, t: nat, pc: Pc, a: Action)
    requires AtPc(s, t, pc) && Enabled(s, a) && Elsewhere(a, t)
    ensures AtPc(Step(s, a), t, pc)
  {
    hide Step, Enabled, PhaseOf, Belongs, Elsewhere;
    OtherFlight(s, a, t);
  }

  // ---------------------------------------------------------------- each statement is a step

  /** The steps within a transaction, and that they only move the delivery on. */
  lemma {:induction false} StepWithin(s: State, t: nat, x: ConsumerStep)
    requires ConsumerEnabled(s, t, x) && (x.InsertKey? || x.FindShipment? || x.InsertShipment? || x.Abort?)
    ensures t in s.flights && Accepted(s.flights[t])
    ensures Enabled(s, Consume(t, x)) && Step(s, Consume(t, x)) == Advance(s, t, NextPhase(s, s.flights[t], x))
  {
    hide Produced, Relayed, Operated, ProducerEnabled, RelayEnabled, OperatorEnabled, KeyLocked, OrderLocked,
      ProcessedKeys, FlightKey, NextPhase, Accepts;
  }

  /** The protocol's step for a statement, if there is one: history entries, read backs and row updates are
      part of the transaction and show only when it commits. */
  function StepFor(queue: Subscription, pc: Pc, reply: Reply, provider: string, now: nat): Option<ConsumerStep>
    requires !pc.Returned?
  {
    match pc
    case AtProvider => Some(SendNotification)
    case AtFailed(thrown) => Some(Abort(if reply.Raised? then reply.error else thrown))
    case AtCommit(_) =>
      if reply.Raised? then Some(Abort(reply.error)) else Some(Commit(provider, now, Next(queue, pc, reply).result))
    case _ =>
      if reply.Raised? && !(queue.TrackingOrderCreated? && T.IsUniqueConstraintError(reply.error))
        then Some(Abort(reply.error))
      else match pc
        case AtKey => Some(InsertKey)
        case AtFind => Some(FindShipment)
        case AtCreate => Some(InsertShipment)
        case _ => None
  }

  lemma {:induction false} AbortIsStep(s: State, t: nat, pc: Pc, error: Failure)
    requires AtPc(s, t, pc) && !pc.Returned?
    ensures ConsumerEnabled(s, t, Abort(error))
    ensures NextPhase(s, s.flights[t], Abort(error)) == Finished(HandlerFailed(error))
  {
  }

  lemma {:induction false} KeyIsStep(s: State, t: nat, reply: Reply)
    requires AtPc(s, t, AtKey) && Possible(s, s.flights[t], AtKey, reply)
    requires reply.Raised? ==> s.flights[t].copy.queue.TrackingOrderCreated? && T.IsUniqueConstraintError(reply.error)
    ensures ConsumerEnabled(s, t, InsertKey)
    ensures NextPhase(s, s.flights[t], InsertKey)
      == PhaseOf(s.flights[t].copy.queue, Next(s.flights[t].copy.queue, AtKey, reply))
  {
    hide KeyLocked, OrderLocked, FlightKey;
  }

  lemma {:induction false} FindIsStep(s: State, t: nat, reply: Reply)
    requires AtPc(s, t, AtFind) && Possible(s, s.flights[t], AtFind, reply) && reply.Done?
    ensures ConsumerEnabled(s, t, FindShipment)
    ensures NextPhase(s, s.flights[t], FindShipment) == PhaseOf(TrackingOrderCreated, TrackingNext(AtFind, reply))
  {
    hide KeyLocked, OrderLocked, FlightKey, Tracking.HasShipment;
  }

  /** The racing shipment insert: the unique violation that the code answers with `duplicate`. */
  lemma {:induction false} CreateIsStep(s: State, t: nat, reply: Reply)
    requires AtPc(s, t, AtCreate) && Possible(s, s.flights[t], AtCreate, reply)
    requires reply.Raised? ==> T.IsUniqueConstraintError(reply.error)
    ensures ConsumerEnabled(s, t, InsertShipment)
    ensures NextPhase(s, s.flights[t], InsertShipment) == PhaseOf(TrackingOrderCreated, TrackingNext(AtCreate, reply))
  {
    hide KeyLocked, OrderLocked, FlightKey, Tracking.HasShipment;
  }

  lemma {:induction false} SendIsStep(s: State, t: nat)
    requires AtPc(s, t, AtProvider)
    ensures Enabled(s, Consume(t, SendNotification))
    ensures Step(s, Consume(t, SendNotification))
      == Advance(s, t, NotificationSent).(sends := s.sends + multiset{FlightKey(s.flights[t])})
  {
    hide Produced, Relayed, Operated, ProducerEnabled, RelayEnabled, OperatorEnabled, KeyLocked, OrderLocked,
      ProcessedKeys, FlightKey, Accepts;
  }

  lemma {:induction false} CommitIsStep(s: State, t: nat, found: bool, provider: string, now: nat,
          answer: ProcessResult)
    requires AtPc(s, t, AtCommit(found))
    ensures var x := Commit(provider, now, answer);
      && Enabled(s, Consume(t, x))
      && Step(s, Consume(t, x)) == Advance(Committed(s, s.flights[t].copy, provider, now), t,
                                           Finished(answer))
  {
    hide Produced, Relayed, Operated, ProducerEnabled, RelayEnabled, OperatorEnabled, KeyLocked, OrderLocked,
      ProcessedKeys, FlightKey, Committed;
    CommittedKeeps(s, s.flights[t].copy, provider, now);
  }

  /** A statement that raises: the transaction is gone, and the code's catch block has its answer. */
  lemma {:induction false} RaisedIsStep(s: State, t: nat, pc: Pc, error: Failure, provider: string, now: nat)
    requires AtPc(s, t, pc) && !pc.Returned? && !pc.AtProvider? && Possible(s, s.flights[t], pc, Raised(error))
    requires s.flights[t].copy.queue.TrackingOrderCreated? ==> !T.IsUniqueConstraintError(error)
    ensures IsStep(s, Consume(t, Abort(error)), AfterStatement(s, t, pc, Raised(error), provider, now))
  {
    hide ConsumerEnabled, Consumed, KeyLocked, OrderLocked, FlightKey, Tracking.HasShipment, Step, Enabled, NextPhase;
    AbortIsStep(s, t, pc, error);
    StepWithin(s, t, Abort(error));
  }

  lemma {:induction false} ProviderStatement(s: State, t: nat, reply: Reply, provider: string, now: nat)
    requires AtPc(s, t, AtProvider) && Possible(s, s.flights[t], AtProvider, reply)
    ensures IsStep(s, Consume(t, SendNotification), AfterStatement(s, t, AtProvider, reply, provider, now))
  {
    hide ConsumerEnabled, Consumed, KeyLocked, OrderLocked, FlightKey, Tracking.HasShipment, Step, Enabled, NextPhase;
    SendIsStep(s, t);
  }

  lemma {:induction false} CommitStatement(s: State, t: nat, found: bool, reply: Reply, provider: string, now: nat)
    requires AtPc(s, t, AtCommit(found)) && !reply.Raised?
    ensures IsStep(s, Consume(t, Commit(provider, now, Next(s.flights[t].copy.queue, AtCommit(found), reply).result)),
      AfterStatement(s, t, AtCommit(found), reply, provider, now))
  {
    hide ConsumerEnabled, Consumed, KeyLocked, OrderLocked, FlightKey, Tracking.HasShipment, Step, Enabled, NextPhase;
    CommitIsStep(s, t, found, provider, now, Next(s.flights[t].copy.queue, AtCommit(found), reply).result);
    CommittedKeeps(s, s.flights[t].copy, provider, now);
  }

  lemma {:induction false} RejectionStatement(s: State, t: nat, thrown: Failure, yes: bool, provider: string, now: nat)
    requires AtPc(s, t, AtFailed(thrown))
    ensures IsStep(s, Consume(t, Abort(thrown)), AfterStatement(s, t, AtFailed(thrown), Done(yes), provider, now))
  {
    hide ConsumerEnabled, Consumed, KeyLocked, OrderLocked, FlightKey, Tracking.HasShipment, Step, Enabled, NextPhase;
    AbortIsStep(s, t, AtFailed(thrown), thrown);
    StepWithin(s, t, Abort(thrown));
  }

  lemma {:induction false} KeyStatement(s: State, t: nat, reply: Reply, provider: string, now: nat)
    requires AtPc(s, t, AtKey) && Possible(s, s.flights[t], AtKey, reply)
    requires reply.Raised? ==> s.flights[t].copy.queue.TrackingOrderCreated? && T.IsUniqueConstraintError(reply.error)
    ensures IsStep(s, Consume(t, InsertKey), AfterStatement(s, t, AtKey, reply, provider, now))
  {
    hide ConsumerEnabled, Consumed, KeyLocked, OrderLocked, FlightKey, Tracking.HasShipment, Step, Enabled, NextPhase;
    KeyIsStep(s, t, reply);
    StepWithin(s, t, InsertKey);
  }

  lemma {:induction false} ShipmentStatement(s: State, t: nat, pc: Pc, reply: Reply, provider: string, now: nat)
    requires AtPc(s, t, pc) && Possible(s, s.flights[t], pc, reply) && (pc.AtFind? || pc.AtCreate?)
    requires reply.Raised? ==> pc.AtCreate? && T.IsUniqueConstraintError(reply.error)
    ensures var x := if pc.AtFind? then FindShipment else InsertShipment;
      IsStep(s, Consume(t, x), AfterStatement(s, t, pc, reply, provider, now))
  {
    hide ConsumerEnabled, Consumed, KeyLocked, OrderLocked, FlightKey, Tracking.HasShipment, Step, Enabled, NextPhase;
    if pc.AtFind? {
      FindIsStep(s, t, reply);
      StepWithin(s, t, FindShipment);
    } else {
      CreateIsStep(s, t, reply);
      StepWithin(s, t, InsertShipment);
    }
  }

  /** The heart of the refinement: in any state, with any other deliveries in flight, a statement and its answer
      are the step `StepFor` of the protocol, or no step at all. */
  lemma {:induction false} StatementIsStep(s: State, t: nat, pc: Pc, reply: Reply, provider: string, now: nat)
    requires AtPc(s, t, pc) && !pc.Returned? && Possible(s, s.flights[t], pc, reply)
    ensures var n := AfterStatement(s, t, pc, reply, provider, now);
      match StepFor(s.flights[t].copy.queue, pc, reply, provider, now)
      case Some(x) => IsStep(s, Consume(t, x), n)
      case None => n == s
  {
    hide IsStep, AfterStatement, KeyLocked, OrderLocked, FlightKey, Tracking.HasShipment;
    var queue := s.flights[t].copy.queue;
    if pc.AtProvider? {
      ProviderStatement(s, t, reply, provider, now);
    } else if pc.AtCommit? && !reply.Raised? {
      CommitStatement(s, t, pc.found, reply, provider, now);
    } else if pc.AtFailed? && reply.Done? {
      RejectionStatement(s, t, pc.thrown, reply.yes, provider, now);
    } else if reply.Raised? && !(queue.TrackingOrderCreated? && T.IsUniqueConstraintError(reply.error)) {
      RaisedIsStep(s, t, pc, reply.error, provider, now);
    } else if pc.AtKey? {
      KeyStatement(s, t, reply, provider, now);
    } else if pc.AtFind? || pc.AtCreate? {
      ShipmentStatement(s, t, pc, reply, provider, now);
    } else {
      SilentStatement(s, t, pc, reply, provider, now);
    }
  }

  lemma {:induction false} SilentStatement(s: State, t: nat, pc: Pc, reply: Reply, provider: string, now: nat)
    requires AtPc(s, t, pc) && reply.Done? && (pc.AtLog? || pc.AtReadBack? || pc.AtRow? || pc.AtSent?)
    ensures AfterStatement(s, t, pc, reply, provider, now) == s
  {
    hide Accepts;
    SamePhase(s, t);
  }

  lemma {:induction false} SamePhase(s: State, t: nat)
    requires t in s.flights
    ensures s.(flights := s.flights[t := s.flights[t].(phase := s.flights[t].phase)]) == s
  {
    assert s.flights[t := s.flights[t]] == s.flights;
  }

  // ---------------------------------------------------------------- whole deliveries

  /** What happens while a delivery is handled: its next statement ends, or anybody else takes a step. */
  datatype Move = Statement(reply: Reply) | Meanwhile(action: Action)

  predicate CanMove(s: State, t: nat, pc: Pc, move: Move)
    requires AtPc(s, t, pc)
  {
    match move
    case Statement(reply) => !pc.Returned? && Possible(s, s.flights[t], pc, reply)
    case Meanwhile(a) => Enabled(s, a) && Elsewhere(a, t)
  }

  function StateAfter(s: State, t: nat, pc: Pc, move: Move, provider: string, now: nat): State
    requires AtPc(s, t, pc) && CanMove(s, t, pc, move)
  {
    match move
    case Statement(reply) => AfterStatement(s, t, pc, reply, provider, now)
    case Meanwhile(a) => Step(s, a)
  }

  function PcAfter(queue: Subscription, pc: Pc, move: Move): Pc {
    if move.Statement? && !pc.Returned? then Next(queue, pc, move.reply) else pc
  }

  lemma {:induction false} MoveKeepsPc(s: State, t: nat, pc: Pc, move: Move, provider: string, now: nat)
    requires AtPc(s, t, pc) && CanMove(s, t, pc, move)
    ensures AtPc(StateAfter(s, t, pc, move, provider, now), t, PcAfter(s.flights[t].copy.queue, pc, move))
    ensures StateAfter(s, t, pc, move, provider, now).flights[t].copy == s.flights[t].copy
  {
    hide Step, Enabled, PhaseOf, Belongs, Elsewhere, Possible, Next, Outside;
    match move
    case Statement(reply) => StatementKeepsPc(s, t, pc, reply, provider, now);
    case Meanwhile(a) =>
      MeanwhileKeepsPc(s, t, pc, a);
      OtherFlight(s, a, t);
  }

  /** The moves can happen one after the other. */
  ghost predicate Follows(s: State, t: nat, pc: Pc, moves: seq<Move>, provider: string, now: nat)
    requires AtPc(s, t, pc)
    decreases |moves|
  {
    moves == [] ||
    (CanMove(s, t, pc, moves[0]) &&
     (MoveKeepsPc(s, t, pc, moves[0], provider, now);
      Follows(StateAfter(s, t, pc, moves[0], provider, now), t, PcAfter(s.flights[t].copy.queue, pc, moves[0]),
              moves[1..], provider, now)))
  }

  ghost function EndState(s: State, t: nat, pc: Pc, moves: seq<Move>, provider: string, now: nat): State
    requires AtPc(s, t, pc) && Follows(s, t, pc, moves, provider, now)
    decreases |moves|
  {
    if moves == [] then s
    else
      MoveKeepsPc(s, t, pc, moves[0], provider, now);
      EndState(StateAfter(s, t, pc, moves[0], provider, now), t, PcAfter(s.flights[t].copy.queue, pc, moves[0]),
               moves[1..], provider, now)
  }

  function EndPc(queue: Subscription, pc: Pc, moves: seq<Move>): Pc
    decreases |moves|
  {
    if moves == [] then pc else EndPc(queue, PcAfter(queue, pc, moves[0]), moves[1..])
  }

  lemma {:induction false} MoveIsRun(s: State, t: nat, pc: Pc, move: Move, provider: string, now: nat)
    returns (actions: seq<Action>)
    requires AtPc(s, t, pc) && CanMove(s, t, pc, move)
    ensures Leads(s, actions, StateAfter(s, t, pc, move, provider, now))
  {
    hide Step, Enabled, AfterStatement, Possible, StepFor, Belongs, PhaseOf, Elsewhere;
    var n := StateAfter(s, t, pc, move, provider, now);
    match move
    case Meanwhile(a) => actions := OneStep(s, a, n);
    case Statement(reply) =>
      StatementIsStep(s, t, pc, reply, provider, now);
      match StepFor(s.flights[t].copy.queue, pc, reply, provider, now) {
        case Some(x) => actions := OneStep(s, Consume(t, x), n);
        case None => actions := NoActions(s);
      }
  }

  /** Every way in which the statements of a delivery can interleave with whatever everybody else does is a run
      of the protocol. */
  lemma {:induction false} HandlingIsRun(s: State, t: nat, pc: Pc, moves: seq<Move>, provider: string, now: nat)
    returns (actions: seq<Action>)
    requires AtPc(s, t, pc) && Follows(s, t, pc, moves, provider, now)
    ensures var n := EndState(s, t, pc, moves, provider, now);
      Leads(s, actions, n) && AtPc(n, t, EndPc(s.flights[t].copy.queue, pc, moves)) &&
        n.flights[t].copy == s.flights[t].copy
    decreases |moves|
  {
    hide Leads, Belongs, PhaseOf, Accepts, CanMove, StateAfter, PcAfter;
    if moves == [] {
      actions := NoActions(s);
    } else {
      MoveKeepsPc(s, t, pc, moves[0], provider, now);
      var first := MoveIsRun(s, t, pc, moves[0], provider, now);
      var n := StateAfter(s, t, pc, moves[0], provider, now);
      var next := PcAfter(s.flights[t].copy.queue, pc, moves[0]);
      var rest := HandlingIsRun(n, t, next, moves[1..], provider, now);
      LeadsTogether(s, first, n, rest, EndState(n, t, next, moves[1..], provider, now));
      actions := first + rest;
    }
  }

  // ---------------------------------------------------------------- from the queue and back

  function Taken(s: State, t: nat, c: Copy): State {
    s.(ready := s.ready - multiset{c}, flights := s.flights[t := Flight(c, Received)])
  }

  /** Where a settlement sends the message of delivery `t`. */
  function Settled(s: State, t: nat, settlement: Settlement): State
    requires t in s.flights
  {
    var c := s.flights[t].copy;
    var ended := s.(flights := s.flights - {t});
    match settlement
    case Ack => ended.(acked := s.acked + multiset{c})
    case Nack(requeue) =>
      if requeue then ended.(ready := s.ready + multiset{c}) else ended.(dead := s.dead + multiset{c})
  }

  lemma {:induction false} Delivers(s: State, t: nat, c: Copy)
    requires t !in s.flights && c in s.ready
    ensures IsStep(s, Consume(t, Deliver(c)), Taken(s, t, c))
  {
    hide Produced, Relayed, Operated, ProducerEnabled, RelayEnabled, OperatorEnabled;
  }

  lemma {:induction false} Refuses(s: State, t: nat)
    requires t in s.flights && s.flights[t].phase.Received? && !Accepted(s.flights[t])
    ensures IsStep(s, Consume(t, Refuse), Settled(s, t, SettlementOf(Refused, false)))
  {
    hide Produced, Relayed, Operated, ProducerEnabled, RelayEnabled, OperatorEnabled;
  }

  lemma {:induction false} Settles(s: State, t: nat, result: ProcessResult, retry: bool)
    requires t in s.flights && s.flights[t].phase == Finished(result)
    ensures IsStep(s, Consume(t, Settle(retry)), Settled(s, t, SettlementOf(Answered(result), retry)))
  {
    hide Produced, Relayed, Operated, ProducerEnabled, RelayEnabled, OperatorEnabled;
  }

  /** One delivery, from the queue to its settlement, with everybody else at work all the time. */
  lemma {:induction false} DeliveryIsRun(s: State, t: nat, c: Copy, moves: seq<Move>, provider: string, now: nat,
          retry: bool)
    returns (actions: seq<Action>)
    requires t !in s.flights && c in s.ready && Accepts(c.queue, c.msg)
    requires Follows(Taken(s, t, c), t, AtKey, moves, provider, now) && EndPc(c.queue, AtKey, moves).Returned?
    ensures var n := EndState(Taken(s, t, c), t, AtKey, moves, provider, now);
      && t in n.flights && n.flights[t].copy == c
      && Leads(s, actions, Settled(n, t, SettlementOf(Answered(EndPc(c.queue, AtKey, moves).result), retry)))
  {
    hide Leads, Follows, EndState, EndPc, Settled, Step, Enabled;
    var s1 := Taken(s, t, c);
    Delivers(s, t, c);
    var rest := HandlingIsRun(s1, t, AtKey, moves, provider, now);
    var n := EndState(s1, t, AtKey, moves, provider, now);
    var result := EndPc(c.queue, AtKey, moves).result;
    Settles(n, t, result, retry);
    var end := Settled(n, t, SettlementOf(Answered(result), retry));
    var last := OneStep(n, Consume(t, Settle(retry)), end);
    LeadsTogether(s1, rest, n, last, end);
    actions := StepThen(s, Consume(t, Deliver(c)), s1, rest + last, end);
  }

  /** A message that a schema refuses. */
  lemma {:induction false} RefusalIsRun(s: State, t: nat, c: Copy) returns (actions: seq<Action>)
    requires t !in s.flights && c in s.ready && !Accepts(c.queue, c.msg)
    ensures Leads(s, actions, Settled(Taken(s, t, c), t, SettlementOf(Refused, false)))
  {
    hide Leads, Settled, Step, Enabled;
    var s1 := Taken(s, t, c);
    Delivers(s, t, c);
    Refuses(s1, t);
    var end := Settled(s1, t, SettlementOf(Refused, false));
    var last := OneStep(s1, Consume(t, Refuse), end);
    actions := StepThen(s, Consume(t, Deliver(c)), s1, last, end);
  }
}
