/** What holds in every reachable state of the protocol: any number of relays and consumers, lost
    confirms, crashes between any two steps, requeues, redrives and foreign publishers. */
module ProtocolTheorems {
  import opened Base
  import opened Contracts
  import opened Outbox
  import OrderStore
  import Orders
  import Tracking
  import N = Notifications
  import opened Consumer
  import opened Protocol
  import opened ProtocolRows
  import opened ProtocolInvariant
  import opened ProtocolPreservation

  /** The event has arrived at every bound queue: a copy is still held there (ready, unacked, dead-lettered, or
      taken by a redrive that has not sent it) or the effect is committed. */
  ghost predicate Arrived(s: State, e: Event) {
    forall queue :: queue in Bound(e) ==> Held(s, Copy(queue, Valid(e))) || Effect(s, queue, e)
  }

  /** The fate of an outbox row: still to be published, given up, or arrived. A published row has arrived,
      also when another relay gave it up. */
  ghost predicate NotLost(s: State, row: Row) {
    && (Pending(row) || row.deadAt.Some? || Arrived(s, row.event))
    && (row.publishedAt.Some? ==> Arrived(s, row.event))
  }

  /** No loss, for the rows of both outboxes. */
  lemma {:induction false} NoRowLost(s: State, service: Service, i: nat)
    requires Reachable(s) && i < |Rows(s, service)|
    ensures NotLost(s, Rows(s, service)[i])
  {
    hide Reachable, EventsOk, RelaysOk, FlightsOk, KeysOk, ShipmentsKeyed, AckedOk, TablesOk, Held;
    ReachableOk(s);
    var row := Rows(s, service)[i];
    if row.publishedAt.Some? {
      assert Delivered(s, row.event);
      forall queue | queue in Bound(row.event)
        ensures Held(s, Copy(queue, Valid(row.event))) || Effect(s, queue, row.event)
      {
        assert Safe(s, queue, row.event);
      }
    }
  }

  /** No loss, for orders: every committed order has exactly one order.created row, and it is not lost. */
  lemma {:induction false} NoOrderLost(s: State, orderId: Id) returns (i: nat)
    requires Reachable(s) && orderId in s.orders.orders
    ensures i < |s.orders.outbox|
    ensures s.orders.outbox[i].event.OrderCreated? && s.orders.outbox[i].event.order.orderId == orderId
    ensures forall j :: 0 <= j < |s.orders.outbox| && j != i ==>
      s.orders.outbox[j].event.OrderCreated? && s.orders.outbox[j].event.order.orderId != orderId
    ensures NotLost(s, s.orders.outbox[i])
  {
    hide Reachable, EventsOk, RelaysOk, DeliveryOk, FlightsOk, KeysOk, AckedOk, Held, NotLost, OrderStore.AddsUp,
      OrderStore.StoredWell;
    ReachableOk(s);
    assert OrderStore.HasEvent(s.orders, orderId);
    i :| 0 <= i < |s.orders.outbox| && s.orders.outbox[i].event.OrderCreated? &&
      s.orders.outbox[i].event.order.orderId == orderId;
    assert Rows(s, OrderService) == s.orders.outbox;
    NoRowLost(s, OrderService, i);
    assert forall j :: 0 <= j < |s.orders.outbox| ==> OrderStore.EventAgrees(s.orders, s.orders.outbox[j].event);
  }

  /** Exactly-once effect in the tracking service: no order has two shipments, and every shipment has
      exactly one tracking event more than it has announced changes, the first being its creation. */
  lemma {:induction false} ShipmentsExactlyOnce(s: State, i: Id)
    requires Reachable(s) && i < |s.tracking.shipments|
    ensures forall j :: 0 <= j < |s.tracking.shipments| && j != i ==>
      s.tracking.shipments[j].orderId != s.tracking.shipments[i].orderId
    ensures var history := Tracking.History(s.tracking.events, i);
      |history| == |Tracking.Changes(s.tracking.outbox, i)| + 1 && history[0] == PENDING
    ensures Tracking.Fold(PENDING, Tracking.Changes(s.tracking.outbox, i)) == Some(s.tracking.shipments[i].status)
  {
    hide Reachable, EventsOk, RelaysOk, DeliveryOk, FlightsOk, KeysOk, AckedOk;
    ReachableOk(s);
    Tracking.ChangesFoldToStatus(s.tracking, i);
  }

  /** Exactly-once effect in the notification service: keys and rows correspond one to one, every row is
      SENT with its time, and was sent at least once; no two rows are for the same consumer and event. */
  lemma {:induction false} NotificationsExactlyOnce(s: State)
    requires Reachable(s)
    ensures N.NotificationOk(s.notifications)
    ensures forall key :: key in s.notifications.processed ==> s.sends[key] >= 1
    ensures forall i, j :: 0 <= i < j < |s.notifications.deliveries| ==>
      var a, b := s.notifications.deliveries[i].input, s.notifications.deliveries[j].input;
      a.eventType != b.eventType || a.eventId != b.eventId
  {
    hide Reachable, EventsOk, RelaysOk, DeliveryOk, FlightsOk, AckedOk;
    ReachableOk(s);
    forall i, j | 0 <= i < j < |s.notifications.deliveries|
      ensures var a, b := s.notifications.deliveries[i].input, s.notifications.deliveries[j].input;
        a.eventType != b.eventType || a.eventId != b.eventId
    {
      assert N.KeyOf(s.notifications.deliveries[i].input) != N.KeyOf(s.notifications.deliveries[j].input);
    }
  }

  /** Ack soundness: whatever copy was ever acked, its effect is committed. For the tracking queue that is
      the order's shipment; for the notification queues it is the processed key, with its delivery row,
      and a provider call. */
  lemma {:induction false} AckedIsDone(s: State, c: Copy)
    requires Reachable(s) && c in s.acked
    ensures c.msg.Valid? && c.queue in Bound(c.msg.event)
    ensures c.queue.TrackingOrderCreated? ==> Tracking.HasShipment(s.tracking, c.msg.event.order.orderId)
    ensures !c.queue.TrackingOrderCreated? ==>
      var key := KeyOf(c.queue, c.msg.event);
      key in s.notifications.processed && HasSentRow(s, key) && key in s.sends
    ensures KeyOf(c.queue, c.msg.event) == MessageKey(ConsumerOf(c.queue), c.msg.event.eventId)
  {
    hide Reachable, EventsOk, RelaysOk, DeliveryOk, FlightsOk;
    ReachableOk(s);
    if !c.queue.TrackingOrderCreated? {
      var key, db := KeyOf(c.queue, c.msg.event), s.notifications;
      assert N.HasRow(db, key);
      var i :| 0 <= i < |db.deliveries| && N.KeyOf(db.deliveries[i].input) == key;
      assert N.SentRow(db.deliveries[i]);
    }
  }

  /** The names under which the three consumers deduplicate. */
  function ConsumerOf(queue: Subscription): string {
    match queue
    case TrackingOrderCreated => "tracking-order-created"
    case NotifyOrderCreated => "notification-service.order-created"
    case NotifyStatusChanged => "notification-service.shipment-status-changed"
  }

  /** A delivery row for the key that is SENT and has its time. */
  ghost predicate HasSentRow(s: State, key: MessageKey) {
    exists i :: 0 <= i < |s.notifications.deliveries| && N.KeyOf(s.notifications.deliveries[i].input) == key &&
      N.SentRow(s.notifications.deliveries[i])
  }

  /** An acked tracking message has its processed key, unless another event of the same order was processed
      in its place. With one event per order, which is what the order service stores, acked
      implies processed. */
  lemma {:induction false} AckedUnlessAnotherEvent(s: State, c: Copy)
    requires Reachable(s) && c in s.acked && c.queue.TrackingOrderCreated?
    ensures c.msg.Valid? && c.msg.event.OrderCreated?
    ensures KeyOf(c.queue, c.msg.event) in s.tracking.processed
      || exists id :: id != c.msg.event.eventId && IsProcessedEventOf(s, id, c.msg.event.order.orderId)
  {
    hide Reachable, EventsOk, RelaysOk, DeliveryOk, FlightsOk, KeysOk, TablesOk, Tracking.HasShipment;
    ReachableOk(s);
    assert Effect(s, c.queue, c.msg.event);
    var id :| IsProcessedEventOf(s, id, c.msg.event.order.orderId);
  }

  /** With one event per order, acked implies processed. */
  ghost predicate OneEventPerOrder(s: State) {
    forall id, other :: id in s.events && other in s.events && SameOrder(s.events[id], s.events[other]) ==> id == other
  }

  predicate SameOrder(e: Event, other: Event) {
    e.OrderCreated? && other.OrderCreated? && e.order.orderId == other.order.orderId
  }

  lemma {:induction false} AckedImpliesProcessed(s: State, c: Copy)
    requires Reachable(s) && OneEventPerOrder(s) && c in s.acked && c.queue.TrackingOrderCreated?
    ensures c.msg.Valid? && KeyOf(c.queue, c.msg.event) in s.tracking.processed
  {
    hide Reachable, RelaysOk, DeliveryOk, FlightsOk, KeysOk, ShipmentsKeyed, AckedOk, TablesOk;
    ReachableOk(s);
    AckedUnlessAnotherEvent(s, c);
    assert CopyKnown(s, c);
  }

  /** The event occurs somewhere: in an outbox row, in a queue, in a delivery, in a redrive, or acked. */
  ghost predicate Occurs(s: State, e: Event) {
    || (exists service, i :: 0 <= i < |Rows(s, service)| && Rows(s, service)[i].event == e)
    || (exists c :: (c in s.ready || c in s.dead || c in s.acked) && c.msg == Valid(e))
    || (exists t :: t in s.flights && s.flights[t].copy.msg == Valid(e))
    || (exists d :: d in s.redrives && s.redrives[d].copy.msg == Valid(e))
  }

  /** An event id means one event, wherever it occurs. */
  lemma {:induction false} EventIdsAreFrozen(s: State, e: Event, other: Event)
    requires Reachable(s) && Occurs(s, e) && Occurs(s, other) && e.eventId == other.eventId
    ensures e == other
  {
    hide Reachable, Occurs;
    ReachableOk(s);
    OccursKnown(s, e);
    OccursKnown(s, other);
  }

  lemma {:induction false} OccursKnown(s: State, e: Event)
    requires Inv(s) && Occurs(s, e)
    ensures Known(s, e)
  {
    hide RelaysOk, DeliveryOk, FlightsOk, KeysOk, ShipmentsKeyed, AckedOk, TablesOk, Rows;
    if exists c :: (c in s.ready || c in s.dead || c in s.acked) && c.msg == Valid(e) {
      var c :| (c in s.ready || c in s.dead || c in s.acked) && c.msg == Valid(e);
      assert CopyKnown(s, c);
    } else if exists t :: t in s.flights && s.flights[t].copy.msg == Valid(e) {
      var t :| t in s.flights && s.flights[t].copy.msg == Valid(e);
      assert CopyKnown(s, s.flights[t].copy);
    } else if exists d :: d in s.redrives && s.redrives[d].copy.msg == Valid(e) {
      var d :| d in s.redrives && s.redrives[d].copy.msg == Valid(e);
      assert CopyKnown(s, s.redrives[d].copy);
    }
  }

  /** Money, end to end: the total a customer was told in a notification about an order's event is the
      stored total of the order, which is what its items add up to in whatever order they are read. */
  lemma {:induction false} NotifiedTotalIsStoredTotal(s: State, i: nat, d: nat)
    requires Reachable(s) && i < |s.orders.outbox| && d < |s.notifications.deliveries|
    requires s.notifications.deliveries[d].input.eventId == s.orders.outbox[i].event.eventId
    ensures var content := s.notifications.deliveries[d].input.content;
      && content.OrderCreatedText? && content.orderId in s.orders.orders
      && var row := s.orders.orders[content.orderId];
         && content.totalCents == row.totalCents && content.currency == row.currency && content.itemCount == |row.items|
         && forall reading: seq<Item> :: multiset(reading) == row.items ==>
           Orders.TotalCents(reading) == content.totalCents
  {
    hide Reachable, RelaysOk, DeliveryOk, FlightsOk, AckedOk, OrderStore.StoredWell;
    ReachableOk(s);
    var e := s.orders.outbox[i].event;
    assert Rows(s, OrderService)[i].event == e;
    assert Known(s, e);
    assert DeliveryKnown(s, s.notifications.deliveries[d].input);
    assert OrderStore.EventAgrees(s.orders, e);
    assert OrderStore.AddsUp(s.orders.orders[e.order.orderId]);
    assert |multiset(e.order.items)| == |e.order.items|;
  }

  /** What a customer is told about a new order: by mail to the customer of the stored order, about that order. */
  lemma {:induction false} OrderNotificationSays(s: State, i: nat, d: nat)
    requires Reachable(s) && i < |s.orders.outbox| && d < |s.notifications.deliveries|
    requires s.notifications.deliveries[d].input.eventId == s.orders.outbox[i].event.eventId
    ensures s.orders.outbox[i].event.OrderCreated?
    ensures var orderId, input := s.orders.outbox[i].event.order.orderId, s.notifications.deliveries[d].input;
      && orderId in s.orders.orders
      && var row := s.orders.orders[orderId];
         && input.eventType == N.OrderCreatedType && input.channel == N.Email
         && input.recipient == N.Customer(row.customerId)
         && input.content == N.OrderCreatedText(orderId, |row.items|, row.totalCents, row.currency)
  {
    hide Reachable, RelaysOk, DeliveryOk, FlightsOk, AckedOk, OrderStore.StoredWell, OrderStore.AddsUp;
    ReachableOk(s);
    var e := s.orders.outbox[i].event;
    assert Rows(s, OrderService)[i].event == e;
    assert Known(s, e);
    assert DeliveryKnown(s, s.notifications.deliveries[d].input);
    assert OrderStore.EventAgrees(s.orders, e);
    assert |multiset(e.order.items)| == |e.order.items|;
  }

  /** What is told about a status change: by text message to the shipment's order, naming the shipment and the status
      that its history got with that change. */
  lemma {:induction false} StatusNotificationSays(s: State, i: nat, d: nat)
    requires Reachable(s) && i < |s.tracking.outbox| && d < |s.notifications.deliveries|
    requires s.notifications.deliveries[d].input.eventId == s.tracking.outbox[i].event.eventId
    ensures s.tracking.outbox[i].event.StatusChanged?
    ensures var id, input := s.tracking.outbox[i].event.change.shipmentId, s.notifications.deliveries[d].input;
      var entry := Tracking.EntryOf(s.tracking, i);
      && id < |s.tracking.shipments| && entry.Some?
      && input.eventType == N.StatusChangedType && input.channel == N.Sms
      && input.recipient == N.OrderOf(s.tracking.shipments[id].orderId)
      && input.content == N.StatusChangedText(id, entry.value)
  {
    hide Reachable, RelaysOk, DeliveryOk, FlightsOk, AckedOk, OrderStore.OrdersOk, Tracking.EntryOf;
    ReachableOk(s);
    var e := s.tracking.outbox[i].event;
    assert Rows(s, TrackingServiceOutbox)[i].event == e;
    assert Known(s, e);
    assert DeliveryKnown(s, s.notifications.deliveries[d].input);
    Tracking.RowAgrees(s.tracking, i);
  }

  /** Every event of the order outbox is bound to the queues of the tracking service and of the notification service,
      and accepted at both. */
  lemma {:induction false} OrderEventsAccepted(s: State, i: nat)
    requires Reachable(s) && i < |s.orders.outbox|
    ensures var e := s.orders.outbox[i].event;
      && Bound(e) == {TrackingOrderCreated, NotifyOrderCreated}
      && Accepts(TrackingOrderCreated, Valid(e)) && Accepts(NotifyOrderCreated, Valid(e))
  {
    hide Reachable, EventsOk, RelaysOk, DeliveryOk, FlightsOk, KeysOk, ShipmentsKeyed, AckedOk, OrderStore.StoredWell,
      OrderStore.AddsUp;
    ReachableOk(s);
    assert OrderStore.EventAgrees(s.orders, s.orders.outbox[i].event);
  }

  /** Every event of the tracking outbox is bound to the queue of the notification service, and accepted unless its
      location is off the earth. */
  lemma {:induction false} StatusEventsAccepted(s: State, i: nat)
    requires Reachable(s) && i < |s.tracking.outbox|
    ensures var e := s.tracking.outbox[i].event;
      && e.StatusChanged? && Bound(e) == {NotifyStatusChanged}
      && (Accepts(NotifyStatusChanged, Valid(e)) <==> (e.change.location.Some? ==> OnEarth(e.change.location.value)))
  {
    hide Reachable, EventsOk, RelaysOk, DeliveryOk, FlightsOk, KeysOk, ShipmentsKeyed, AckedOk, OrderStore.OrdersOk;
    ReachableOk(s);
    StatusEventAcceptedIff(s.tracking, i);
  }

  // ---------------------------------------------------------------- runs without foreign orders

  /** No publisher outside the system sends an order.created event. */
  predicate NoForeignOrders(actions: seq<Action>) {
    forall k :: 0 <= k < |actions| ==> !ForeignOrder(actions[k])
  }

  predicate ForeignOrder(a: Action) {
    a.Operate? && a.operator.ForeignPublish? && a.operator.copy.msg.Valid? && a.operator.copy.msg.event.OrderCreated?
  }

  /** Every order event ever built is in the order service's outbox. */
  ghost predicate OwnOrders(s: State) {
    forall id :: id in s.events && s.events[id].OrderCreated? ==> InOutbox(s, s.events[id])
  }

  predicate InOutbox(s: State, e: Event) {
    exists i :: 0 <= i < |s.orders.outbox| && s.orders.outbox[i].event == e
  }

  lemma {:induction false} OutboxKeeps(s: State, a: Action, e: Event)
    requires Enabled(s, a) && InOutbox(s, e)
    ensures InOutbox(Step(s, a), e)
  {
    hide Step, Enabled;
    var i :| 0 <= i < |s.orders.outbox| && s.orders.outbox[i].event == e;
    assert Rows(s, OrderService)[i].event == e;
    StepRow(s, a, OrderService, i);
    assert Rows(Step(s, a), OrderService)[i].event == e;
  }

  /** Where the registered events of the next state come from. */
  lemma {:induction false} NewEvents(s: State, a: Action, id: Id)
    requires Enabled(s, a) && id in Step(s, a).events
    ensures var e := Step(s, a).events[id];
      || (id in s.events && s.events[id] == e)
      || e.StatusChanged? || ForeignOrder(a)
      || Appended(s, a, OrderService) == [NewRow(e)]
  {
    hide Step, Enabled, OrderStore.Execute, OrderStore.Placed, Tracking.ChangesStatus, Tracking.UpdateShipmentStatus;
    StepRegisters(s, a);
  }

  lemma {:induction false} StepOwnOrders(s: State, a: Action)
    requires Enabled(s, a) && OwnOrders(s) && !ForeignOrder(a)
    ensures OwnOrders(Step(s, a))
  {
    hide Step, Enabled, InOutbox, Appended, ForeignOrder;
    var n := Step(s, a);
    forall id | id in n.events && n.events[id].OrderCreated? ensures InOutbox(n, n.events[id]) {
      NewEvents(s, a, id);
      if id in s.events && s.events[id] == n.events[id] {
        OutboxKeeps(s, a, n.events[id]);
      } else {
        AppendedIsThere(s, a, n.events[id]);
      }
    }
  }

  lemma {:induction false} AppendedIsThere(s: State, a: Action, e: Event)
    requires Enabled(s, a) && Appended(s, a, OrderService) == [NewRow(e)]
    ensures InOutbox(Step(s, a), e)
  {
    hide Step, Enabled, Appended;
    StepRowCount(s, a, OrderService);
    assert Appended(s, a, OrderService)[0] == NewRow(e);
    assert Step(s, a).orders.outbox[|Rows(s, OrderService)|].event == e;
  }

  lemma {:induction false} RunOwnOrders(s: State, actions: seq<Action>)
    requires OwnOrders(s) && NoForeignOrders(actions)
    ensures OwnOrders(Run(s, actions))
    decreases |actions|
  {
    hide Step, Enabled, OwnOrders, ForeignOrder;
    if actions != [] {
      assert forall k :: 0 <= k < |actions[1..]| ==> actions[1..][k] == actions[k + 1];
      if Enabled(s, actions[0]) {
        StepOwnOrders(s, actions[0]);
        RunOwnOrders(Step(s, actions[0]), actions[1..]);
      } else {
        RunOwnOrders(s, actions[1..]);
      }
    }
  }

  lemma {:induction false} OwnRun(actions: seq<Action>) returns (s: State)
    requires NoForeignOrders(actions)
    ensures s == Run(INITIAL, actions) && Reachable(s) && Inv(s) && OwnOrders(s)
  {
    hide Run, Inv, NoForeignOrders;
    s := Run(INITIAL, actions);
    RunOwnOrders(INITIAL, actions);
    ReachableOk(s);
  }

  /** In a run without foreign orders every order has one event, so acked implies processed. */
  lemma {:induction false} OwnAckedIsProcessed(actions: seq<Action>, c: Copy)
    requires NoForeignOrders(actions) && c in Run(INITIAL, actions).acked && c.queue.TrackingOrderCreated?
    ensures c.msg.Valid? && KeyOf(c.queue, c.msg.event) in Run(INITIAL, actions).tracking.processed
  {
    hide Run, Reachable, Inv, NoForeignOrders, OwnOrders, OneEventPerOrder;
    var s := OwnRun(actions);
    OneEventEach(s);
    AckedImpliesProcessed(s, c);
  }

  lemma {:induction false} OneEventEach(s: State)
    requires Inv(s) && OwnOrders(s)
    ensures OneEventPerOrder(s)
  {
    hide RelaysOk, DeliveryOk, FlightsOk, KeysOk, ShipmentsKeyed, AckedOk, InOutbox, OrderStore.OrdersOk;
    forall id, other | id in s.events && other in s.events && SameOrder(s.events[id], s.events[other])
      ensures id == other
    {
      SameOrderSameEvent(s, s.events[id], s.events[other]);
    }
  }

  lemma {:induction false} SameOrderSameEvent(s: State, e: Event, other: Event)
    requires OrderStore.OrdersOk(s.orders) && InOutbox(s, e) && InOutbox(s, other) && SameOrder(e, other)
    ensures e == other
  {
    hide OrderStore.AddsUp, OrderStore.StoredWell, OrderStore.EventAgrees, OrderStore.HasEvent;
    var i :| 0 <= i < |s.orders.outbox| && s.orders.outbox[i].event == e;
    var j :| 0 <= j < |s.orders.outbox| && s.orders.outbox[j].event == other;
  }

  /** A notification about a new order is about a committed one. */
  predicate OrderedIfOrder(s: State, input: N.DispatchInput) {
    input.eventType.OrderCreatedType? ==> input.content.OrderCreatedText? && input.content.orderId in s.orders.orders
  }

  /** No phantoms: in a run without foreign orders every shipment belongs to a committed order, and every order
      notification too. */
  lemma {:induction false} NoPhantoms(actions: seq<Action>)
    requires NoForeignOrders(actions)
    ensures var s := Run(INITIAL, actions);
      && (forall i :: 0 <= i < |s.tracking.shipments| ==> s.tracking.shipments[i].orderId in s.orders.orders)
      && (forall d :: 0 <= d < |s.notifications.deliveries| ==> OrderedIfOrder(s, s.notifications.deliveries[d].input))
  {
    hide Run, Reachable, Inv, NoForeignOrders, OwnOrders;
    var s := OwnRun(actions);
    forall i | 0 <= i < |s.tracking.shipments| ensures s.tracking.shipments[i].orderId in s.orders.orders {
      ShipmentIsOrdered(s, i);
    }
    forall d | 0 <= d < |s.notifications.deliveries| ensures OrderedIfOrder(s, s.notifications.deliveries[d].input) {
      NotificationIsOrdered(s, d);
    }
  }

  lemma {:induction false} OwnEventIsOrdered(s: State, id: Id)
    requires Inv(s) && OwnOrders(s) && id in s.events && s.events[id].OrderCreated?
    ensures s.events[id].order.orderId in s.orders.orders
  {
    hide EventsOk, RelaysOk, DeliveryOk, FlightsOk, KeysOk, ShipmentsKeyed, AckedOk, OrderStore.AddsUp,
      OrderStore.StoredWell;
    var i :| 0 <= i < |s.orders.outbox| && s.orders.outbox[i].event == s.events[id];
    assert OrderStore.EventAgrees(s.orders, s.orders.outbox[i].event);
  }

  lemma {:induction false} ShipmentIsOrdered(s: State, i: nat)
    requires Inv(s) && OwnOrders(s) && i < |s.tracking.shipments|
    ensures s.tracking.shipments[i].orderId in s.orders.orders
  {
    hide EventsOk, RelaysOk, DeliveryOk, FlightsOk, KeysOk, AckedOk, TablesOk, OwnOrders, Tracking.HasShipment;
    var orderId := s.tracking.shipments[i].orderId;
    HasShipmentIff(s.tracking, orderId);
    var id :| IsProcessedEventOf(s, id, orderId);
    OwnEventIsOrdered(s, id);
  }

  lemma {:induction false} NotificationIsOrdered(s: State, d: nat)
    requires Inv(s) && OwnOrders(s) && d < |s.notifications.deliveries|
    ensures OrderedIfOrder(s, s.notifications.deliveries[d].input)
  {
    hide EventsOk, RelaysOk, DeliveryOk, FlightsOk, ShipmentsKeyed, AckedOk, TablesOk, OwnOrders;
    var input := s.notifications.deliveries[d].input;
    assert DeliveryKnown(s, input);
    if input.eventType.OrderCreatedType? {
      OwnEventIsOrdered(s, input.eventId);
    }
  }

  // ---------------------------------------------------------------- going on from a reachable state

  lemma {:induction false} ReachableNext(s: State, a: Action)
    requires Reachable(s) && Enabled(s, a)
    ensures Reachable(Step(s, a))
  {
    hide Step, Enabled;
    var actions :| Run(INITIAL, actions) == s;
    RunAppend(INITIAL, actions, a);
    assert Run(INITIAL, actions + [a]) == Step(s, a);
  }

  lemma {:induction false} RunAppend(s: State, actions: seq<Action>, a: Action)
    ensures var n := Run(s, actions); Run(s, actions + [a]) == if Enabled(n, a) then Step(n, a) else n
    decreases |actions|
  {
    hide Step, Enabled;
    if actions == [] {
      assert actions + [a] == [a];
      assert [a][1..] == [];
    } else {
      assert (actions + [a])[1..] == actions[1..] + [a];
      RunAppend(if Enabled(s, actions[0]) then Step(s, actions[0]) else s, actions[1..], a);
    }
  }

  /** The step, and that the state after it is reachable. */
  lemma {:induction false} Take(s: State, a: Action) returns (n: State)
    requires Reachable(s) && Enabled(s, a)
    ensures Reachable(n) && n == Step(s, a)
  {
    hide Reachable, Step, Enabled;
    ReachableNext(s, a);
    n := Step(s, a);
  }
}
