/** The race of two events for one order, from any reachable state: why "acked implies processed" needs one
    event per order. */
module ProtocolRaces {
  import opened Contracts
  import Tracking
  import T = TrackingService
  import opened Consumer
  import opened Protocol
  import opened ProtocolRows
  import opened ProtocolInvariant
  import opened ProtocolPreservation
  import opened ProtocolTheorems
  import opened Refinement
  import opened DeliveryRefinement

  // ---------------------------------------------------------------- making room

  /** A delivery that holds the order can crash, and only one can hold it. */
  lemma {:induction false} Unlocked(s: State, orderId: Id) returns (n: State)
    requires Reachable(s)
    ensures Reachable(n) && n.tracking == s.tracking && n.events == s.events && !OrderLocked(n, orderId)
  {
    hide Reachable;
    n := s;
    if OrderLocked(s, orderId) {
      var t :| t in s.flights && HoldsOrder(s.flights[t], orderId);
      n := Take(s, Consume(t, Crash));
      CrashKeeps(s, t);
      CrashUnlocks(s, t, orderId);
    }
  }

  predicate HoldsOrder(f: Flight, orderId: Id) {
    f.phase.ShipmentInserted? && f.copy.msg.Valid? && f.copy.msg.event.OrderCreated?
      && f.copy.msg.event.order.orderId == orderId
  }

  lemma {:induction false} CrashKeeps(s: State, t: nat)
    requires t in s.flights
    ensures Enabled(s, Consume(t, Crash))
    ensures Step(s, Consume(t, Crash)) == s.(ready := s.ready + multiset{s.flights[t].copy}, flights := s.flights - {t})
  {
    hide Produced, Relayed, Operated, ProducerEnabled, RelayEnabled, OperatorEnabled;
  }

  lemma {:induction false} CrashUnlocks(s: State, t: nat, orderId: Id)
    requires Reachable(s) && t in s.flights && HoldsOrder(s.flights[t], orderId)
    ensures !OrderLocked(s.(ready := s.ready + multiset{s.flights[t].copy}, flights := s.flights - {t}), orderId)
  {
    hide Reachable, EventsOk, RelaysOk, DeliveryOk, KeysOk, ShipmentsKeyed, AckedOk, TablesOk;
    ReachableOk(s);
    forall u | u in s.flights && u != t ensures !HoldsOrder(s.flights[u], orderId) {
      OneHolder(s, t, u, orderId);
    }
  }

  lemma {:induction false} OneHolder(s: State, t: nat, u: nat, orderId: Id)
    requires FlightsOk(s) && t in s.flights && u in s.flights && t != u && HoldsOrder(s.flights[t], orderId)
    ensures !HoldsOrder(s.flights[u], orderId)
  {
    hide KeyFree, Effect;
    assert FlightOk(s, s.flights[t]) && Compatible(s.flights[t], s.flights[u]);
    assert FlightOk(s, s.flights[u]);
  }

  // ---------------------------------------------------------------- two deliveries side by side

  function Scene(b: State, t0: nat, f0: Flight, t1: nat, f1: Flight): State {
    b.(flights := b.flights[t0 := f0][t1 := f1])
  }

  /** Nothing in flight concerns the two events or their order. */
  predicate Quiet(b: State, e0: Event, e1: Event) {
    && e0.OrderCreated? && e1.OrderCreated? && e0.order.orderId == e1.order.orderId && e0.eventId != e1.eventId
    && !OrderLocked(b, e0.order.orderId)
    && forall t :: t in b.flights && b.flights[t].copy.msg.Valid? ==>
         b.flights[t].copy.msg.event.eventId != e0.eventId && b.flights[t].copy.msg.event.eventId != e1.eventId
  }

  function Delivering(e: Event, phase: Phase): Flight {
    Flight(Copy(TrackingOrderCreated, Valid(e)), phase)
  }

  lemma {:induction false} KeyIsFree(b: State, e0: Event, e1: Event, t0: nat, f0: Flight, t1: nat, f1: Flight)
    requires Quiet(b, e0, e1) && t0 != t1
    requires f0.copy == Copy(TrackingOrderCreated, Valid(e0)) && f1.copy == Copy(TrackingOrderCreated, Valid(e1))
    ensures f0.phase.Received? ==> !KeyLocked(Scene(b, t0, f0, t1, f1), KeyOf(TrackingOrderCreated, e0))
    ensures f1.phase.Received? ==> !KeyLocked(Scene(b, t0, f0, t1, f1), KeyOf(TrackingOrderCreated, e1))
  {
    hide OrderLocked;
    var s := Scene(b, t0, f0, t1, f1);
    forall u | u in s.flights && s.flights[u].copy.msg.Valid? && u != t0 && u != t1
      ensures FlightKey(s.flights[u]).eventId != e0.eventId && FlightKey(s.flights[u]).eventId != e1.eventId
    {
      assert u in b.flights && s.flights[u] == b.flights[u];
      KeyHasEventId(s.flights[u].copy.queue, s.flights[u].copy.msg.event);
    }
  }

  lemma {:induction false} KeyHasEventId(queue: Subscription, e: Event)
    ensures KeyOf(queue, e).eventId == e.eventId
  {
  }

  lemma {:induction false} OrderIsFree(b: State, e0: Event, e1: Event, t0: nat, f0: Flight, t1: nat, f1: Flight)
    requires Quiet(b, e0, e1) && !f0.phase.ShipmentInserted? && !f1.phase.ShipmentInserted?
    ensures !OrderLocked(Scene(b, t0, f0, t1, f1), e0.order.orderId)
  {
    var s := Scene(b, t0, f0, t1, f1);
    forall u | u in s.flights ensures !HoldsOrder(s.flights[u], e0.order.orderId) {
      if u != t0 && u != t1 {
        assert u in b.flights && s.flights[u] == b.flights[u];
      }
    }
  }

  /** One statement of one of the deliveries, and that the state after it is reachable. */
  lemma {:induction false} Runs(s: State, t: nat, pc: Pc, reply: Reply) returns (n: State)
    requires Reachable(s) && AtPc(s, t, pc) && !pc.Returned? && Possible(s, s.flights[t], pc, reply)
    ensures Reachable(n) && n == AfterStatement(s, t, pc, reply, "", 0)
  {
    hide Reachable, AfterStatement, AtPc, Possible, Leads;
    n := AfterStatement(s, t, pc, reply, "", 0);
    var actions := MoveIsRun(s, t, pc, Statement(reply), "", 0);
    LeadsReachable(s, actions, n);
  }

  lemma {:induction false} SceneAfter(b: State, t0: nat, f0: Flight, t1: nat, f1: Flight, g: Flight)
    requires t0 != t1
    ensures Scene(b, t0, f0, t1, f1).flights[t0 := g] == b.flights[t0 := g][t1 := f1]
    ensures Scene(b, t0, f0, t1, f1).flights[t1 := g] == b.flights[t0 := f0][t1 := g]
  {
  }

  // ---------------------------------------------------------------- the race

  /** Both messages arrive and are delivered. */
  lemma {:induction false} BothDelivered(s: State, e0: Event, e1: Event) returns (b: State, t0: nat, t1: nat)
    requires Reachable(s) && e0.OrderCreated? && e1.OrderCreated? && e0.order.orderId == e1.order.orderId
    requires e0.eventId != e1.eventId && e0.eventId !in s.events && e1.eventId !in s.events
    requires !OrderLocked(s, e0.order.orderId)
    ensures t0 != t1 && t0 !in b.flights && t1 !in b.flights && b.tracking == s.tracking && Quiet(b, e0, e1)
    ensures Reachable(Scene(b, t0, Delivering(e0, Received), t1, Delivering(e1, Received)))
  {
    hide Reachable, OrderLocked, Consumed, ConsumerEnabled;
    var c0, c1 := Delivering(e0, Received).copy, Delivering(e1, Received).copy;
    var t := FreshId(s.flights.Keys);
    t0, t1 := t, t + 1;
    var s1 := Published(s, c0);
    var s2 := Published(s1, c1);
    var s3 := Delivered(s2, t0, c0);
    var s4 := Delivered(s3, t1, c1);
    b := s4.(flights := s.flights);
    assert s4 == Scene(b, t0, Delivering(e0, Received), t1, Delivering(e1, Received));
    NothingYet(s, e0, e1);
    OrderLockedByFlights(s, b, e0.order.orderId);
  }

  lemma {:induction false} OrderLockedByFlights(s: State, n: State, orderId: Id)
    requires s.flights == n.flights
    ensures OrderLocked(s, orderId) == OrderLocked(n, orderId)
  {
  }

  lemma {:induction false} NothingYet(s: State, e0: Event, e1: Event)
    requires Reachable(s) && e0.eventId !in s.events && e1.eventId !in s.events
    ensures forall t :: t in s.flights && s.flights[t].copy.msg.Valid? ==>
      s.flights[t].copy.msg.event.eventId != e0.eventId && s.flights[t].copy.msg.event.eventId != e1.eventId
  {
    hide Reachable, RelaysOk, DeliveryOk, FlightsOk, KeysOk, ShipmentsKeyed, AckedOk, TablesOk;
    ReachableOk(s);
    forall t | t in s.flights && s.flights[t].copy.msg.Valid? ensures s.flights[t].copy.msg.event.eventId in s.events {
      assert CopyKnown(s, s.flights[t].copy);
    }
  }

  lemma {:induction false} Published(s: State, c: Copy) returns (n: State)
    requires Reachable(s) && c.msg.Valid? && c.msg.event.eventId !in s.events
    ensures Reachable(n)
    ensures n == s.(ready := s.ready + multiset{c}, events := s.events[c.msg.event.eventId := c.msg.event])
  {
    hide Reachable;
    n := Take(s, Operate(ForeignPublish(c)));
  }

  lemma {:induction false} Delivered(s: State, t: nat, c: Copy) returns (n: State)
    requires Reachable(s) && t !in s.flights && c in s.ready
    ensures Reachable(n) && n == Taken(s, t, c)
  {
    hide Reachable, Step, Enabled;
    Delivers(s, t, c);
    n := Take(s, Consume(t, Deliver(c)));
  }

  /** Each of them inserts its key and finds no shipment. */
  lemma {:induction false} FirstSeesNone(b: State, e0: Event, e1: Event, t0: nat, t1: nat, f1: Flight)
    returns (s: State)
    requires Quiet(b, e0, e1) && t0 != t1 && f1.copy == Copy(TrackingOrderCreated, Valid(e1))
    requires KeyOf(TrackingOrderCreated, e0) !in b.tracking.processed &&
      !Tracking.HasShipment(b.tracking, e0.order.orderId)
    requires Reachable(Scene(b, t0, Delivering(e0, Received), t1, f1))
    ensures s == Scene(b, t0, Delivering(e0, SawNone), t1, f1) && Reachable(s)
  {
    hide Reachable, KeyLocked, OrderLocked, Quiet, Tracking.HasShipment;
    var f0 := Delivering(e0, Received);
    s := Scene(b, t0, f0, t1, f1);
    assert e0.OrderCreated? by { QuietOrders(b, e0, e1); }
    KeyIsFree(b, e0, e1, t0, f0, t1, f1);
    s := Runs(s, t0, AtKey, Done(true));
    SceneAfter(b, t0, f0, t1, f1, Delivering(e0, KeyInserted));
    s := Runs(s, t0, AtFind, Done(false));
    SceneAfter(b, t0, Delivering(e0, KeyInserted), t1, f1, Delivering(e0, SawNone));
  }

  lemma {:induction false} SecondSeesNone(b: State, e0: Event, e1: Event, t0: nat, f0: Flight, t1: nat)
    returns (s: State)
    requires Quiet(b, e0, e1) && t0 != t1 && f0.copy == Copy(TrackingOrderCreated, Valid(e0))
    requires KeyOf(TrackingOrderCreated, e1) !in b.tracking.processed &&
      !Tracking.HasShipment(b.tracking, e0.order.orderId)
    requires Reachable(Scene(b, t0, f0, t1, Delivering(e1, Received)))
    ensures s == Scene(b, t0, f0, t1, Delivering(e1, SawNone)) && Reachable(s)
  {
    hide Reachable, KeyLocked, OrderLocked, Tracking.HasShipment;
    var f1 := Delivering(e1, Received);
    s := Scene(b, t0, f0, t1, f1);
    KeyIsFree(b, e0, e1, t0, f0, t1, f1);
    s := Runs(s, t1, AtKey, Done(true));
    SceneAfter(b, t0, f0, t1, f1, Delivering(e1, KeyInserted));
    s := Runs(s, t1, AtFind, Done(false));
    SceneAfter(b, t0, f0, t1, Delivering(e1, KeyInserted), Delivering(e1, SawNone));
  }

  lemma {:induction false} QuietOrders(b: State, e0: Event, e1: Event)
    requires Quiet(b, e0, e1)
    ensures e0.OrderCreated? && e1.OrderCreated? && e0.order.orderId == e1.order.orderId
  {
  }

  /** The first inserts its shipment and commits. */
  lemma {:induction false} FirstCommits(b: State, e0: Event, e1: Event, t0: nat, t1: nat) returns (s: State)
    requires Quiet(b, e0, e1) && t0 != t1 && !Tracking.HasShipment(b.tracking, e0.order.orderId)
    requires Reachable(Scene(b, t0, Delivering(e0, SawNone), t1, Delivering(e1, SawNone)))
    ensures Reachable(s) && t1 in s.flights && s.flights[t1] == Delivering(e1, SawNone)
    ensures s.tracking == Committed(b, Copy(TrackingOrderCreated, Valid(e0)), "", 0).tracking
  {
    hide Reachable, KeyLocked, OrderLocked, Tracking.HasShipment, Tracking.CreatePendingShipment;
    var f1 := Delivering(e1, SawNone);
    s := Scene(b, t0, Delivering(e0, SawNone), t1, f1);
    OrderIsFree(b, e0, e1, t0, Delivering(e0, SawNone), t1, f1);
    s := Runs(s, t0, AtCreate, Done(true));
    SceneAfter(b, t0, Delivering(e0, SawNone), t1, f1, Delivering(e0, ShipmentInserted));
    s := InsertedCommits(b, e0, t0, t1, f1);
  }

  lemma {:induction false} InsertedCommits(b: State, e: Event, t0: nat, t1: nat, f1: Flight) returns (s: State)
    requires e.OrderCreated? && t0 != t1 && Reachable(Scene(b, t0, Delivering(e, ShipmentInserted), t1, f1))
    ensures Reachable(s) && t1 in s.flights && s.flights[t1] == f1
    ensures s.tracking == Committed(b, Copy(TrackingOrderCreated, Valid(e)), "", 0).tracking
  {
    hide Reachable, KeyLocked, OrderLocked, Tracking.HasShipment, Tracking.CreatePendingShipment;
    s := Scene(b, t0, Delivering(e, ShipmentInserted), t1, f1);
    s := Runs(s, t0, AtReadBack, Done(true));
    s := Runs(s, t0, AtCommit(false), Done(true));
  }

  /** The second meets the unique order id, is rolled back and acked. */
  lemma {:induction false} SecondIsAcked(b: State, e1: Event, t1: nat) returns (s: State)
    requires Reachable(b) && e1.OrderCreated? && t1 in b.flights && b.flights[t1] == Delivering(e1, SawNone)
    requires Tracking.HasShipment(b.tracking, e1.order.orderId)
    ensures Reachable(s) && b.flights[t1].copy in s.acked && s.tracking == b.tracking
  {
    hide Reachable, KeyLocked, OrderLocked, Tracking.HasShipment, Step, Enabled;
    s := Runs(b, t1, AtCreate, Raised(T.UNIQUE_KEY));
    Settles(s, t1, Duplicate, true);
    s := Take(s, Consume(t1, Settle(true)));
  }

  /** "Acked implies processed" fails for any two events of one order that are new to the system, from any
      reachable state in which the order has no shipment yet: the slower shipment insert violates
      the unique order id, its transaction rolls back with its processed key, and its message is
      acked as a duplicate. */
  lemma {:induction false} AckedWithoutProcessedKey(b: State, e0: Event, e1: Event) returns (s: State, c: Copy)
    requires Reachable(b) && e0.OrderCreated? && e1.OrderCreated? && e0.order.orderId == e1.order.orderId
    requires e0.eventId != e1.eventId && e0.eventId !in b.events && e1.eventId !in b.events
    requires !Tracking.HasShipment(b.tracking, e0.order.orderId)
    ensures Reachable(s) && c == Copy(TrackingOrderCreated, Valid(e1)) && c in s.acked
    ensures KeyOf(c.queue, e1) !in s.tracking.processed
  {
    hide Reachable, OrderLocked, Tracking.HasShipment, Quiet, Scene, Tracking.CreatePendingShipment;
    c := Copy(TrackingOrderCreated, Valid(e1));
    NewKey(b, e0);
    NewKey(b, e1);
    var u := Unlocked(b, e0.order.orderId);
    var q, t0, t1 := BothDelivered(u, e0, e1);
    s := FirstSeesNone(q, e0, e1, t0, t1, Delivering(e1, Received));
    s := SecondSeesNone(q, e0, e1, t0, Delivering(e0, SawNone), t1);
    s := FirstCommits(q, e0, e1, t0, t1);
    ShipmentsAfterCreate(q.tracking, KeyOf(TrackingOrderCreated, e0), e0.order.orderId, e0.order.placedAt,
      e0.order.orderId);
    CommittedKeys(q, e0, e1);
    s := SecondIsAcked(s, e1, t1);
  }

  lemma {:induction false} NewKey(s: State, e: Event)
    requires Reachable(s) && e.eventId !in s.events
    ensures KeyOf(TrackingOrderCreated, e) !in s.tracking.processed
  {
    hide Reachable, EventsOk, RelaysOk, DeliveryOk, FlightsOk, ShipmentsKeyed, AckedOk, TablesOk;
    ReachableOk(s);
    assert forall key :: key in s.tracking.processed ==> TrackingKeyOk(s, key);
  }

  lemma {:induction false} CommittedKeys(s: State, e0: Event, e1: Event)
    requires e0.OrderCreated? && e0.eventId != e1.eventId && KeyOf(TrackingOrderCreated, e1) !in s.tracking.processed
    ensures var c := Copy(TrackingOrderCreated, Valid(e0));
      KeyOf(TrackingOrderCreated, e1) !in Committed(s, c, "", 0).tracking.processed
  {
    hide Tracking.HasShipment;
  }
}
