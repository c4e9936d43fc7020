/** The inductive invariant of the protocol. */
module ProtocolInvariant {
  import opened Base
  import opened Contracts
  import opened Outbox
  import OrderStore
  import Tracking
  import TrackingService
  import N = Notifications
  import opened Consumer
  import opened Protocol
  import opened ProtocolRows

  // ---------------------------------------------------------------- where a message can be

  ghost predicate InFlight(s: State, c: Copy) {
    exists t :: t in s.flights && s.flights[t].copy == c
  }

  ghost predicate InRedrive(s: State, c: Copy) {
    exists d :: d in s.redrives && s.redrives[d].copy == c && !s.redrives[d].sent
  }

  /** Ready, unacked with a consumer, in the dead-letter queue, or taken by a redrive that has not sent it
      on yet. The second copy of one that has does not count. */
  ghost predicate Held(s: State, c: Copy) {
    c in s.ready || c in s.dead || InFlight(s, c) || InRedrive(s, c)
  }

  ghost predicate Safe(s: State, queue: Subscription, e: Event) {
    Held(s, Copy(queue, Valid(e))) || Effect(s, queue, e)
  }

  /** The event has reached every bound queue: a copy is still there, or its effect is committed. */
  ghost predicate Delivered(s: State, e: Event) {
    forall queue :: queue in Bound(e) ==> Safe(s, queue, e)
  }

  // ---------------------------------------------------------------- the parts of the invariant

  predicate Known(s: State, e: Event) {
    e.eventId in s.events && s.events[e.eventId] == e
  }

  predicate CopyKnown(s: State, c: Copy) {
    c.msg.Valid? ==> Known(s, c.msg.event)
  }

  predicate KeyedById(events: map<Id, Event>) {
    forall id :: id in events ==> events[id].eventId == id
  }

  /** An event id means one event, wherever it occurs. */
  ghost predicate EventsOk(s: State) {
    && KeyedById(s.events)
    && (forall service, i :: 0 <= i < |Rows(s, service)| ==> Known(s, Rows(s, service)[i].event))
    && (forall c :: c in s.ready || c in s.dead || c in s.acked ==> CopyKnown(s, c))
    && (forall t :: t in s.flights ==> CopyKnown(s, s.flights[t].copy))
    && (forall d :: d in s.redrives ==> CopyKnown(s, s.redrives[d].copy))
  }

  /** A relay's batch quotes the rows it was claimed from. */
  ghost predicate RelaysOk(s: State) {
    forall r, k :: r in s.relays && 0 <= k < |s.relays[r].batch| ==>
      RecordOk(s, s.relays[r].service, s.relays[r].batch[k])
  }

  predicate RecordOk(s: State, service: Service, record: Record) {
    record.id < |Rows(s, service)| && Rows(s, service)[record.id].event == record.event
  }

  /** Nothing is lost between publish and effect. */
  ghost predicate DeliveryOk(s: State) {
    && (forall service, i :: 0 <= i < |Rows(s, service)| && Rows(s, service)[i].publishedAt.Some? ==>
      Delivered(s, Rows(s, service)[i].event))
    && (forall r :: r in s.relays && s.relays[r].stage.PublishConfirmed? && s.relays[r].batch != [] ==>
      Delivered(s, s.relays[r].batch[0].event))
  }

  /** What a consumer transaction knows in each phase. */
  predicate FlightOk(s: State, f: Flight) {
    match f.phase
    case Received => true
    case Finished(result) => !result.HandlerFailed? ==> Accepted(f) && Effect(s, f.copy.queue, f.copy.msg.event)
    case KeyInserted => KeyFree(s, f)
    case SawNone => KeyFree(s, f) && f.copy.queue.TrackingOrderCreated?
    case SawShipment => KeyFree(s, f) && f.copy.queue.TrackingOrderCreated? && Effect(s, f.copy.queue, f.copy.msg.event)
    case ShipmentInserted => KeyFree(s, f) && f.copy.queue.TrackingOrderCreated? &&
      !Effect(s, f.copy.queue, f.copy.msg.event)
    case NotificationSent => KeyFree(s, f) && !f.copy.queue.TrackingOrderCreated? && FlightKey(f) in s.sends
  }

  /** Its key is inserted but not committed, by it or by anybody. */
  predicate KeyFree(s: State, f: Flight) {
    Accepted(f) && FlightKey(f) !in ProcessedKeys(s, f.copy.queue)
  }

  /** Row locks: no two open transactions hold the same key, or have inserted a shipment for the same order. */
  predicate Compatible(f: Flight, g: Flight) {
    && (HoldsKey(f) && HoldsKey(g) && Accepted(f) && Accepted(g) ==> FlightKey(f) != FlightKey(g))
    && (f.phase.ShipmentInserted? && g.phase.ShipmentInserted? && Accepted(f) && Accepted(g)
          && f.copy.msg.event.OrderCreated? && g.copy.msg.event.OrderCreated?
        ==> f.copy.msg.event.order.orderId != g.copy.msg.event.order.orderId)
  }

  ghost predicate FlightsOk(s: State) {
    && (forall t :: t in s.flights ==> FlightOk(s, s.flights[t]))
    && (forall t, u :: t in s.flights && u in s.flights && t != u ==> Compatible(s.flights[t], s.flights[u]))
  }

  /** A processed key of the tracking service stands for an order that has its shipment; a processed key of
      the notification service for a notification that was sent. */
  ghost predicate KeysOk(s: State) {
    && (forall key :: key in s.tracking.processed ==> TrackingKeyOk(s, key))
    && (forall key :: key in s.notifications.processed ==> key in s.sends)
    && (forall i :: 0 <= i < |s.notifications.deliveries| ==> DeliveryKnown(s, s.notifications.deliveries[i].input))
  }

  predicate TrackingKeyOk(s: State, key: MessageKey) {
    && key.consumerName == TrackingService.TRACKING_CONSUMER
    && key.eventId in s.events && s.events[key.eventId].OrderCreated?
    && Tracking.HasShipment(s.tracking, s.events[key.eventId].order.orderId)
  }

  predicate DeliveryKnown(s: State, input: N.DispatchInput) {
    input.eventId in s.events && input == N.InputOf(s.events[input.eventId])
  }

  /** Every shipment was committed with the processed key of an event of its order. */
  ghost predicate ShipmentsKeyed(s: State) {
    forall o: Id :: Tracking.HasShipment(s.tracking, o) ==> exists id :: IsProcessedEventOf(s, id, o)
  }

  predicate IsProcessedEventOf(s: State, id: Id, orderId: Id) {
    && MessageKey(TrackingService.TRACKING_CONSUMER, id) in s.tracking.processed
    && id in s.events && s.events[id].OrderCreated? && s.events[id].order.orderId == orderId
  }

  ghost predicate AckedOk(s: State) {
    forall c :: c in s.acked ==> Accepts(c.queue, c.msg) && Effect(s, c.queue, c.msg.event)
  }

  ghost predicate TablesOk(s: State) {
    OrderStore.OrdersOk(s.orders) && Tracking.TrackingOk(s.tracking) && N.NotificationOk(s.notifications)
  }

  ghost predicate Inv(s: State) {
    EventsOk(s) && RelaysOk(s) && DeliveryOk(s) && FlightsOk(s) && KeysOk(s) && ShipmentsKeyed(s) && AckedOk(s) &&
      TablesOk(s)
  }

  // ---------------------------------------------------------------- stability

  lemma {:induction false} EffectStays(s: State, n: State, queue: Subscription, e: Event)
    requires Grows(s, n) && Effect(s, queue, e)
    ensures Effect(n, queue, e)
  {
  }

  lemma {:induction false} KnownStays(s: State, n: State, c: Copy)
    requires Grows(s, n) && CopyKnown(s, c)
    ensures CopyKnown(n, c)
  {
  }

  /** A step moves a message, or keeps it, or acks it, and an acked one has its effect. */
  lemma {:induction false} StepHolds(s: State, a: Action, c: Copy)
    requires Enabled(s, a) && FlightsOk(s) && Held(s, c)
    ensures Held(Step(s, a), c) || (Accepts(c.queue, c.msg) && Effect(Step(s, a), c.queue, c.msg.event))
  {
    hide Produced, Relayed, Consumed, Operated, ProducerEnabled, RelayEnabled, ConsumerEnabled, OperatorEnabled, Held,
      FlightsOk, Effect;
    match a
    case Produce(p) =>
      ProducerKeeps(s, p);
      StaysPut(s, Step(s, a), c);
    case Relay(r, x) =>
      RelayKeeps(s, r, x);
      StaysPut(s, Step(s, a), c);
    case Consume(t, x) => ConsumerHolds(s, t, x, c);
    case Operate(o) => OperatorHolds(s, o, c);
  }

  lemma {:induction false} StaysPut(s: State, n: State, c: Copy)
    requires Held(s, c) && s.ready <= n.ready && n.dead == s.dead && n.flights == s.flights && n.redrives == s.redrives
    ensures Held(n, c)
  {
  }

  lemma {:induction false} ConsumerHolds(s: State, t: nat, x: ConsumerStep, c: Copy)
    requires ConsumerEnabled(s, t, x) && FlightsOk(s) && Held(s, c)
    ensures Held(Consumed(s, t, x), c) || (Accepts(c.queue, c.msg) && Effect(Consumed(s, t, x), c.queue, c.msg.event))
  {
    hide ConsumerEnabled, Consumed, FlightsOk, Effect;
    var n := Consumed(s, t, x);
    if c in s.ready || c in s.dead {
      QueuedStays(s, t, x, c);
    } else if InFlight(s, c) {
      var u :| u in s.flights && s.flights[u].copy == c;
      if u == t {
        OwnFlightStays(s, t, x);
      } else {
        FlightElsewhere(s, t, x, u);
        assert n.flights[u].copy == c;
      }
    } else {
      ConsumerKeeps(s, t, x);
    }
  }

  lemma {:induction false} QueuedStays(s: State, t: nat, x: ConsumerStep, c: Copy)
    requires ConsumerEnabled(s, t, x) && (c in s.ready || c in s.dead)
    ensures Held(Consumed(s, t, x), c)
  {
    hide ConsumerEnabled, NextPhase, FlightKey, Accepts;
    if x.Deliver? && x.copy == c {
      assert Consumed(s, t, x).flights[t].copy == c;
    }
  }

  /** Only an ack takes a delivery's message away. */
  lemma {:induction false} OwnFlightStays(s: State, t: nat, x: ConsumerStep)
    requires ConsumerEnabled(s, t, x) && t in s.flights && FlightsOk(s)
    ensures var c := s.flights[t].copy;
      Held(Consumed(s, t, x), c) || (Accepts(c.queue, c.msg) && Effect(Consumed(s, t, x), c.queue, c.msg.event))
  {
    hide Consumed, ConsumerEnabled, NextPhase, Tracking.HasShipment, KeyOf;
    var f, n := s.flights[t], Consumed(s, t, x);
    assert FlightOk(s, f);
    if t in n.flights {
      OwnCopy(s, t, x);
      assert n.flights[t].copy == f.copy;
    } else {
      EndsSomewhere(s, t, x);
    }
  }

  lemma {:induction false} OperatorHolds(s: State, o: OperatorStep, c: Copy)
    requires OperatorEnabled(s, o) && Held(s, c)
    ensures Held(Operated(s, o), c)
  {
    hide OperatorEnabled, Operated, InRedrive;
    OperatorKeeps(s, o);
    if c in s.ready || c in s.dead {
      OperatorQueued(s, o, c);
    } else if !InFlight(s, c) {
      OperatorRedriving(s, o, c);
    }
  }

  lemma {:induction false} OperatorQueued(s: State, o: OperatorStep, c: Copy)
    requires OperatorEnabled(s, o) && (c in s.ready || c in s.dead)
    ensures var n := Operated(s, o); c in n.ready || c in n.dead || InRedrive(n, c)
  {
    hide Unforged, Register;
    if o.RedriveGet? && o.copy == c {
      assert Operated(s, o).redrives[o.d] == Redriving(c, false, o.dead);
    }
  }

  lemma {:induction false} OperatorRedriving(s: State, o: OperatorStep, c: Copy)
    requires OperatorEnabled(s, o) && InRedrive(s, c)
    ensures var n := Operated(s, o); c in n.ready || c in n.dead || InRedrive(n, c)
  {
    hide Unforged, Register;
    var d :| d in s.redrives && s.redrives[d].copy == c && !s.redrives[d].sent;
    RedriveMoves(s, o, d);
  }

  /** A redrive keeps its message until it has sent it, or puts it back. */
  lemma {:induction false} RedriveMoves(s: State, o: OperatorStep, d: nat)
    requires OperatorEnabled(s, o) && d in s.redrives && !s.redrives[d].sent
    ensures var n := Operated(s, o); var c := s.redrives[d].copy;
      c in n.ready || c in n.dead || (d in n.redrives && !n.redrives[d].sent && n.redrives[d].copy == c)
  {
    hide Operated, OperatorEnabled;
    if !o.ForeignPublish? && o.d == d {
      OwnRedrive(s, o, d);
    } else {
      RedriveElsewhere(s, o, d);
    }
  }

  lemma {:induction false} RedriveElsewhere(s: State, o: OperatorStep, d: nat)
    requires OperatorEnabled(s, o) && d in s.redrives && (o.ForeignPublish? || o.d != d)
    ensures d in Operated(s, o).redrives && Operated(s, o).redrives[d] == s.redrives[d]
  {
    hide Unforged, Register;
  }

  lemma {:induction false} OwnRedrive(s: State, o: OperatorStep, d: nat)
    requires OperatorEnabled(s, o) && d in s.redrives && !s.redrives[d].sent && !o.ForeignPublish? && o.d == d
    ensures var n := Operated(s, o); var c := s.redrives[d].copy;
      c in n.ready || c in n.dead
  {
    hide Unforged, Register;
  }

  lemma {:induction false} StepDelivers(s: State, a: Action, e: Event)
    requires Enabled(s, a) && FlightsOk(s) && Delivered(s, e)
    ensures Delivered(Step(s, a), e)
  {
    hide Step, Enabled, FlightsOk, Held;
    StepGrows(s, a);
    forall queue | queue in Bound(e)
      ensures Safe(Step(s, a), queue, e)
    {
      if Effect(s, queue, e) {
        EffectStays(s, Step(s, a), queue, e);
      } else {
        StepHolds(s, a, Copy(queue, Valid(e)));
      }
    }
  }
}
