/** What one step does to the tables: rows are only appended, keep their events, and become published
    only by a mark; effects only grow. */
module ProtocolRows {
  import opened Base
  import opened Contracts
  import opened Outbox
  import RelayBatch
  import OrderStore
  import Tracking
  import N = Notifications
  import opened Consumer
  import opened Protocol

  // ---------------------------------------------------------------- shipments

  lemma {:induction false} HasShipmentIff(db: Tracking.TrackingDb, orderId: Id)
    ensures Tracking.HasShipment(db, orderId) <==>
      exists i :: 0 <= i < |db.shipments| && db.shipments[i].orderId == orderId
  {
  }

  lemma {:induction false} ShipmentsAfterUpdate(db: Tracking.TrackingDb, u: Tracking.StatusUpdate, orderId: Id)
    ensures Tracking.HasShipment(Tracking.RunOp(db, Tracking.Update(u)), orderId) <==> Tracking.HasShipment(db, orderId)
  {
    var after := Tracking.RunOp(db, Tracking.Update(u));
    assert |after.shipments| == |db.shipments|;
    assert forall i :: 0 <= i < |db.shipments| ==> after.shipments[i].orderId == db.shipments[i].orderId;
    HasShipmentIff(db, orderId);
    HasShipmentIff(after, orderId);
  }

  lemma {:induction false} ShipmentsAfterCreate(db: Tracking.TrackingDb, key: MessageKey, created: Id, at: nat,
          orderId: Id)
    ensures Tracking.HasShipment(Tracking.CreatePendingShipment(Tracking.WithKey(db, key), created, at), orderId)
      <==> (Tracking.HasShipment(db, orderId) || orderId == created)
  {
    var after := Tracking.CreatePendingShipment(Tracking.WithKey(db, key), created, at);
    HasShipmentIff(db, orderId);
    HasShipmentIff(after, orderId);
    if !Tracking.HasShipment(db, created) {
      assert after.shipments == db.shipments + [Tracking.Shipment(created, PENDING)];
      assert after.shipments[|db.shipments|].orderId == created;
      assert forall i :: 0 <= i < |db.shipments| ==> after.shipments[i] == db.shipments[i];
    }
  }

  // ---------------------------------------------------------------- growth

  /** Events stay registered, processed keys and shipments stay. */
  ghost predicate Grows(s: State, n: State) {
    && (forall id :: id in s.events ==> id in n.events && n.events[id] == s.events[id])
    && s.notifications.processed <= n.notifications.processed
    && (forall o: Id :: Tracking.HasShipment(s.tracking, o) ==> Tracking.HasShipment(n.tracking, o))
  }

  lemma {:induction false} StepGrows(s: State, a: Action)
    requires Enabled(s, a)
    ensures Grows(s, Step(s, a))
  {
    hide Tracking.HasShipment, Produced, Relayed, Consumed, Operated, ProducerEnabled, RelayEnabled, ConsumerEnabled,
      OperatorEnabled;
    forall o: Id | Tracking.HasShipment(s.tracking, o)
      ensures Tracking.HasShipment(Step(s, a).tracking, o)
    {
      NewShipments(s, a, o);
    }
    match a
    case Produce(p) => ProducerKeeps(s, p);
    case Relay(r, x) => RelayKeeps(s, r, x);
    case Consume(t, x) =>
      ConsumerKeeps(s, t, x);
      ConsumerGrows(s, t, x);
    case Operate(o) => OperatorKeeps(s, o);
  }

  // ---------------------------------------------------------------- what each kind of participant leaves alone

  lemma {:induction false} ProducerKeeps(s: State, p: ProducerStep)
    requires ProducerEnabled(s, p)
    ensures var n := Produced(s, p);
      && n == s.(orders := n.orders, tracking := n.tracking, events := n.events)
      && n.tracking.processed == s.tracking.processed
      && forall id :: id in s.events ==> id in n.events && n.events[id] == s.events[id]
  {
    hide OrderStore.RunCommand, OrderStore.Execute, OrderStore.Possible;
  }

  /** The part of the state that relays leave alone. */
  predicate OnlyRelayed(s: State, n: State) {
    n == s.(orders := s.orders.(outbox := n.orders.outbox), tracking := s.tracking.(outbox := n.tracking.outbox),
            relays := n.relays, ready := n.ready)
  }

  lemma {:induction false} RelayKeeps(s: State, r: nat, x: RelayStep)
    requires RelayEnabled(s, r, x)
    ensures OnlyRelayed(s, Relayed(s, r, x)) && s.ready <= Relayed(s, r, x).ready
  {
    hide Outbox.Claim, Copies, HeadRow, NewHead, NextRecord, Marked, WithRows, Bound;
    match x
    case Claim(service, limit) => MarkedKeeps(s, service, Outbox.Claim(Policy(service), Rows(s, service), limit).0);
    case MarkPublished(_, _, _) => MarkKeeps(s, s.relays[r], MarkRow(s, s.relays[r], x));
    case MarkError(_, _, _, _, _) => MarkKeeps(s, s.relays[r], MarkRow(s, s.relays[r], x));
    case _ =>
  }

  /** The row that a mark leaves: a throwing one may have been applied. */
  function MarkRow(s: State, pass: RelayPass, x: RelayStep): Row
    requires pass.batch != [] && pass.batch[0].id < |Rows(s, pass.service)| && (x.MarkPublished? || x.MarkError?)
  {
    if x.applied then NewHead(s, pass, x) else HeadRow(s, pass)
  }

  lemma {:induction false} MarkKeeps(s: State, pass: RelayPass, row: Row)
    requires pass.batch != [] && pass.batch[0].id < |Rows(s, pass.service)|
    ensures var n := Marked(s, pass, row); OnlyRelayed(s, n) && n.relays == s.relays && n.ready == s.ready
  {
    MarkedKeeps(s, pass.service, Rows(s, pass.service)[pass.batch[0].id := row]);
  }

  lemma {:induction false} MarkedKeeps(s: State, service: Service, rows: seq<Row>)
    ensures OnlyRelayed(s, WithRows(s, service, rows)) && WithRows(s, service, rows).relays == s.relays
    ensures WithRows(s, service, rows).ready == s.ready
  {
  }

  /** A step of one pass leaves the other passes alone. */
  lemma {:induction false} PassElsewhere(s: State, r: nat, x: RelayStep, q: nat)
    requires RelayEnabled(s, r, x) && q != r
    ensures q in Relayed(s, r, x).relays <==> q in s.relays
    ensures q in s.relays ==> Relayed(s, r, x).relays[q] == s.relays[q]
  {
    hide Outbox.Claim, Copies, RelayEnabled, HeadRow, PublishedRow, FailedRow, DeadRow, RelayBatch.LastAttempt;
  }

  /** The part of the state that consumers leave alone. */
  predicate OnlyConsumed(s: State, n: State) {
    n == s.(tracking := n.tracking, notifications := n.notifications, ready := n.ready, dead := n.dead,
            flights := n.flights, sends := n.sends, acked := n.acked)
  }

  lemma {:induction false} ConsumerKeeps(s: State, t: nat, x: ConsumerStep)
    requires ConsumerEnabled(s, t, x)
    ensures OnlyConsumed(s, Consumed(s, t, x))
  {
    hide ConsumerEnabled, NextPhase, FlightKey, Accepts;
  }

  lemma {:induction false} ConsumerGrows(s: State, t: nat, x: ConsumerStep)
    requires ConsumerEnabled(s, t, x)
    ensures s.notifications.processed <= Consumed(s, t, x).notifications.processed && s.sends <= Consumed(s, t, x).sends
    ensures Consumed(s, t, x).tracking.outbox == s.tracking.outbox
  {
    hide NextPhase, FlightKey, KeyLocked, OrderLocked, ProcessedKeys;
    if x.Commit? {
      CommitTables(s, t, x);
    } else {
      TablesUntouched(s, t, x);
    }
  }

  lemma {:induction false} OnlyDeliveriesStart(s: State, t: nat, x: ConsumerStep)
    requires ConsumerEnabled(s, t, x) && !x.Deliver?
    ensures t in s.flights
  {
    hide KeyLocked, OrderLocked, FlightKey, ProcessedKeys, Accepted, Tracking.HasShipment;
  }

  /** A step of one delivery ends it or moves it on. */
  lemma {:induction false} FlightMoves(s: State, t: nat, x: ConsumerStep)
    requires ConsumerEnabled(s, t, x)
    ensures var n := Consumed(s, t, x).flights; n == s.flights - {t} || (t in n && n == s.flights[t := n[t]])
  {
    hide ConsumerEnabled, NextPhase, FlightKey, Accepts, Committed, HoldsKey, Consumed;
    if x.Commit? {
      CommitMoves(s, t, x);
    } else {
      OtherMoves(s, t, x);
    }
  }

  lemma {:induction false} CommitMoves(s: State, t: nat, x: ConsumerStep)
    requires ConsumerEnabled(s, t, x) && x.Commit?
    ensures var n := Consumed(s, t, x).flights; t in n && n == s.flights[t := n[t]]
  {
    hide ConsumerEnabled, NextPhase, FlightKey, Accepts, Committed, HoldsKey;
    CommitTables(s, t, x);
    CommittedKeeps(s, s.flights[t].copy, x.provider, x.now);
  }

  lemma {:induction false} OtherMoves(s: State, t: nat, x: ConsumerStep)
    requires ConsumerEnabled(s, t, x) && !x.Commit?
    ensures var n := Consumed(s, t, x).flights; n == s.flights - {t} || (t in n && n == s.flights[t := n[t]])
  {
    hide ConsumerEnabled, Consumed;
    if x.Deliver? || x.Refuse? || x.Settle? || x.Crash? {
      StartsOrEnds(s, t, x);
    } else {
      MovesOn(s, t, x);
    }
  }

  lemma {:induction false} StartsOrEnds(s: State, t: nat, x: ConsumerStep)
    requires ConsumerEnabled(s, t, x) && (x.Deliver? || x.Refuse? || x.Settle? || x.Crash?)
    ensures var n := Consumed(s, t, x).flights; n == s.flights - {t} || (t in n && n == s.flights[t := n[t]])
  {
    hide ConsumerEnabled, NextPhase, FlightKey, Accepts, Committed, Advance;
    if !x.Deliver? {
      OnlyDeliveriesStart(s, t, x);
    }
  }

  lemma {:induction false} MovesOn(s: State, t: nat, x: ConsumerStep)
    requires ConsumerEnabled(s, t, x) && !(x.Deliver? || x.Refuse? || x.Settle? || x.Crash? || x.Commit?)
    ensures var n := Consumed(s, t, x).flights; t in n && n == s.flights[t := n[t]]
  {
    hide ConsumerEnabled, NextPhase, FlightKey, Accepts, Committed;
    OnlyDeliveriesStart(s, t, x);
  }

  lemma {:induction false} CommittedKeeps(s: State, copy: Copy, provider: string, now: nat)
    requires Accepts(copy.queue, copy.msg)
    ensures var n := Committed(s, copy, provider, now);
      n == s.(tracking := n.tracking, notifications := n.notifications)
  {
  }

  /** It leaves the other deliveries alone. */
  lemma {:induction false} FlightElsewhere(s: State, t: nat, x: ConsumerStep, u: nat)
    requires ConsumerEnabled(s, t, x) && u != t
    ensures u in Consumed(s, t, x).flights <==> u in s.flights
    ensures u in s.flights ==> Consumed(s, t, x).flights[u] == s.flights[u]
  {
    hide ConsumerEnabled, Consumed;
    FlightMoves(s, t, x);
  }

  /** It keeps its own message, or starts with a ready one. */
  lemma {:induction false} OwnCopy(s: State, t: nat, x: ConsumerStep)
    requires ConsumerEnabled(s, t, x) && t in Consumed(s, t, x).flights
    ensures var f := Consumed(s, t, x).flights[t];
      if x.Deliver? then t !in s.flights && x.copy in s.ready && f == Flight(x.copy, Received)
      else
        && t in s.flights && Accepted(s.flights[t])
        && (x.FindShipment? || x.InsertShipment? ==> s.flights[t].copy.queue.TrackingOrderCreated?)
        && f == s.flights[t].(phase := NextPhase(s, s.flights[t], x))
  {
    hide NextPhase, FlightKey, KeyLocked, OrderLocked, ProcessedKeys, Accepts, Committed, HoldsKey;
    if x.Commit? {
      CommitTables(s, t, x);
      CommittedKeeps(s, s.flights[t].copy, x.provider, x.now);
    }
  }

  /** A delivery that ends leaves its message ready, dead, or acked. */
  lemma {:induction false} EndsSomewhere(s: State, t: nat, x: ConsumerStep)
    requires ConsumerEnabled(s, t, x) && t in s.flights && t !in Consumed(s, t, x).flights
    ensures var c, n := s.flights[t].copy, Consumed(s, t, x);
      || c in n.ready || c in n.dead
      || (x.Settle? && s.flights[t].phase.Finished? && !s.flights[t].phase.result.HandlerFailed?
          && n.tracking == s.tracking && n.notifications == s.notifications)
  {
    hide NextPhase, FlightKey, KeyLocked, OrderLocked, ProcessedKeys, Accepts, Committed, HoldsKey;
  }

  lemma {:induction false} OperatorKeeps(s: State, o: OperatorStep)
    requires OperatorEnabled(s, o)
    ensures var n := Operated(s, o);
      && n == s.(ready := n.ready, dead := n.dead, redrives := n.redrives, events := n.events)
      && forall id :: id in s.events ==> id in n.events && n.events[id] == s.events[id]
  {
  }

  /** The event that a step registers, if any. */
  function Registered(s: State, a: Action): Option<Event> {
    match a
    case Produce(p) => ProducerEvent(s, p)
    case Operate(o) => ForeignEvent(o)
    case _ => None
  }

  function ProducerEvent(s: State, p: ProducerStep): Option<Event> {
    match p
    case Command(c, env) => NewOrderEvent(s, c, env)
    case UpdateShipment(u) => NewStatusEvent(s, u)
  }

  function ForeignEvent(o: OperatorStep): Option<Event> {
    if o.ForeignPublish? && o.copy.msg.Valid? then Some(o.copy.msg.event) else None
  }

  lemma {:induction false} StepRegisters(s: State, a: Action)
    requires Enabled(s, a)
    ensures Step(s, a).events == Register(s.events, Registered(s, a))
  {
    hide Produced, Relayed, Consumed, Operated, ProducerEnabled, RelayEnabled, ConsumerEnabled, OperatorEnabled,
      ProducerEvent, ForeignEvent;
    match a
    case Produce(p) => ProducerRegisters(s, p);
    case Relay(r, x) => RelayKeeps(s, r, x);
    case Consume(t, x) => ConsumerKeeps(s, t, x);
    case Operate(o) => OperatorRegisters(s, o);
  }

  lemma {:induction false} ProducerRegisters(s: State, p: ProducerStep)
    requires ProducerEnabled(s, p)
    ensures Produced(s, p).events == Register(s.events, ProducerEvent(s, p))
  {
    hide Register, NewOrderEvent, NewStatusEvent, OrderStore.RunCommand, Tracking.RunOp;
  }

  lemma {:induction false} OperatorRegisters(s: State, o: OperatorStep)
    requires OperatorEnabled(s, o)
    ensures Operated(s, o).events == Register(s.events, ForeignEvent(o))
  {
    hide Register, Unforged;
    if !o.ForeignPublish? {
      NoEvent(s.events);
    }
  }

  lemma {:induction false} NoEvent(events: map<Id, Event>)
    ensures Register(events, None) == events
  {
  }

  // ---------------------------------------------------------------- keys and shipments

  /** The step is the commit of delivery `t` on a queue of that service. */
  predicate Commits(s: State, a: Action, tracking: bool) {
    a.Consume? && a.consumer.Commit? && a.t in s.flights && Accepted(s.flights[a.t])
      && s.flights[a.t].copy.queue.TrackingOrderCreated? == tracking
  }

  lemma {:induction false} TablesUntouched(s: State, t: nat, x: ConsumerStep)
    requires ConsumerEnabled(s, t, x) && !x.Commit?
    ensures Consumed(s, t, x).tracking == s.tracking && Consumed(s, t, x).notifications == s.notifications
  {
    hide ConsumerEnabled, NextPhase, FlightKey;
  }

  lemma {:induction false} CommitTables(s: State, t: nat, x: ConsumerStep)
    requires ConsumerEnabled(s, t, x) && x.Commit?
    ensures t in s.flights && Accepted(s.flights[t]) && HoldsKey(s.flights[t])
    ensures var c := Committed(s, s.flights[t].copy, x.provider, x.now);
      Consumed(s, t, x).tracking == c.tracking && Consumed(s, t, x).notifications == c.notifications
    ensures s.flights[t].copy.queue.TrackingOrderCreated? ==>
      s.flights[t].phase.SawShipment? || s.flights[t].phase.ShipmentInserted?
    ensures !s.flights[t].copy.queue.TrackingOrderCreated? ==> s.flights[t].phase.NotificationSent?
  {
    hide NextPhase, FlightKey;
  }

  /** The processed keys grow exactly by the key of a commit. */
  lemma {:induction false} NewKeys(s: State, a: Action, queue: Subscription, key: MessageKey)
    requires Enabled(s, a)
    ensures key in ProcessedKeys(Step(s, a), queue) <==>
      || key in ProcessedKeys(s, queue)
      || (Commits(s, a, queue.TrackingOrderCreated?) && FlightKey(s.flights[a.t]) == key)
  {
    hide Produced, Relayed, Consumed, Operated, ProducerEnabled, RelayEnabled, ConsumerEnabled, OperatorEnabled,
      Tracking.HasShipment, N.InputOf;
    match a
    case Produce(p) => ProducerKeeps(s, p);
    case Relay(r, x) => RelayKeeps(s, r, x);
    case Operate(o) => OperatorKeeps(s, o);
    case Consume(t, x) =>
      if x.Commit? {
        CommitTables(s, t, x);
      } else {
        TablesUntouched(s, t, x);
      }
  }

  /** The orders with a shipment grow exactly by the order of a commit. */
  lemma {:induction false} NewShipments(s: State, a: Action, orderId: Id)
    requires Enabled(s, a)
    ensures Tracking.HasShipment(Step(s, a).tracking, orderId) <==>
      || Tracking.HasShipment(s.tracking, orderId)
      || (Commits(s, a, true) && s.flights[a.t].copy.msg.event.order.orderId == orderId)
  {
    hide Relayed, Consumed, Operated, ProducerEnabled, RelayEnabled, ConsumerEnabled, OperatorEnabled,
      Tracking.HasShipment,
      Tracking.CreatePendingShipment, OrderStore.RunCommand, Tracking.RunOp;
    match a
    case Produce(p) =>
      if p.UpdateShipment? {
        ShipmentsAfterUpdate(s.tracking, p.update, orderId);
      }
    case Relay(r, x) =>
      RelayKeeps(s, r, x);
      SameShipments(s.tracking, Step(s, a).tracking, orderId);
    case Operate(o) => OperatorKeeps(s, o);
    case Consume(t, x) =>
      if x.Commit? {
        CommitTables(s, t, x);
        if s.flights[t].copy.queue.TrackingOrderCreated? {
          var e := s.flights[t].copy.msg.event;
          ShipmentsAfterCreate(s.tracking, KeyOf(TrackingOrderCreated, e), e.order.orderId, e.order.placedAt, orderId);
        }
      } else {
        TablesUntouched(s, t, x);
      }
  }

  lemma {:induction false} SameShipments(db: Tracking.TrackingDb, later: Tracking.TrackingDb, orderId: Id)
    requires db.shipments == later.shipments
    ensures Tracking.HasShipment(db, orderId) == Tracking.HasShipment(later, orderId)
  {
  }

  // ---------------------------------------------------------------- rows

  /** The rows a step appends. */
  function Appended(s: State, a: Action, service: Service): seq<Row> {
    if !a.Produce? then []
    else match a.producer
      case Command(c, env) =>
        if service.OrderService? && NewOrderEvent(s, c, env).Some? then [NewRow(NewOrderEvent(s, c, env).value)] else []
      case UpdateShipment(u) =>
        if service.TrackingServiceOutbox? && NewStatusEvent(s, u).Some? then [NewRow(NewStatusEvent(s, u).value)]
        else []
  }

  /** The step marks row `i` published. */
  predicate Publishes(s: State, a: Action, service: Service, i: nat) {
    a.Relay? && a.relay.MarkPublished? && Working(s, a.r, PublishConfirmed)
      && s.relays[a.r].service == service && s.relays[a.r].batch[0].id == i
  }

  lemma {:induction false} UpdateRows(db: Tracking.TrackingDb, u: Tracking.StatusUpdate)
    ensures Tracking.RunOp(db, Tracking.Update(u)).outbox == db.outbox +
      if Tracking.ChangesStatus(db, u) && Tracking.UpdateShipmentStatus(db, u).Ok?
      then [NewRow(StatusChanged(u.eventId, Tracking.ChangedPayload(db.shipments[u.shipmentId], u)))] else []
  {
    assert db.outbox + [] == db.outbox;
  }

  lemma {:induction false} ClaimRows(policy: CountingPolicy, rows: seq<Row>, limit: nat)
    ensures var claimed := Outbox.Claim(policy, rows, limit).0;
      |claimed| == |rows| && forall i :: 0 <= i < |rows| ==>
        claimed[i].event == rows[i].event && claimed[i].publishedAt == rows[i].publishedAt &&
          claimed[i].deadAt == rows[i].deadAt
  {
  }

  lemma {:induction false} ProducerRows(s: State, p: ProducerStep, service: Service)
    requires ProducerEnabled(s, p)
    ensures Rows(Produced(s, p), service) == Rows(s, service) + Appended(s, Produce(p), service)
  {
    hide OrderStore.RunCommand, OrderStore.Execute, OrderStore.Possible, Tracking.RunOp, Tracking.ChangesStatus,
      Tracking.UpdateShipmentStatus;
    assert Rows(s, service) + [] == Rows(s, service);
    match p
    case Command(c, env) => OrderStore.CommandRows(s.orders, c, env);
    case UpdateShipment(u) => UpdateRows(s.tracking, u);
  }

  /** A row keeps its event, stays published, and becomes published only by a mark. */
  predicate RowStays(row: Row, later: Row, marked: bool) {
    && later.event == row.event
    && (row.publishedAt.Some? ==> later.publishedAt.Some?)
    && (later.publishedAt.Some? ==> row.publishedAt.Some? || marked)
  }

  lemma {:induction false} MarkedRow(s: State, pass: RelayPass, x: RelayStep, service: Service, i: nat)
    requires pass.batch != [] && pass.batch[0].id < |Rows(s, pass.service)| && (x.MarkPublished? || x.MarkError?)
    requires i < |Rows(s, service)|
    ensures var row := if x.applied then NewHead(s, pass, x) else HeadRow(s, pass);
      && |Rows(Marked(s, pass, row), service)| == |Rows(s, service)|
      && RowStays(Rows(s, service)[i], Rows(Marked(s, pass, row), service)[i],
                  x.MarkPublished? && pass.service == service && pass.batch[0].id == i)
  {
    hide RelayBatch.LastAttempt;
  }

  lemma {:induction false} RelayRow(s: State, r: nat, x: RelayStep, service: Service, i: nat)
    requires RelayEnabled(s, r, x) && i < |Rows(s, service)|
    ensures |Rows(Relayed(s, r, x), service)| == |Rows(s, service)|
    ensures RowStays(Rows(s, service)[i], Rows(Relayed(s, r, x), service)[i], Publishes(s, Relay(r, x), service, i))
  {
    hide Outbox.Claim, Copies, NewHead, HeadRow, NextRecord, Marked, Bound;
    match x
    case Claim(claimed, limit) => ClaimRows(Policy(claimed), Rows(s, claimed), limit);
    case MarkPublished(_, _, _) => MarkedRow(s, s.relays[r], x, service, i);
    case MarkError(_, _, _, _, _) => MarkedRow(s, s.relays[r], x, service, i);
    case _ =>
  }

  lemma {:induction false} StepRowCount(s: State, a: Action, service: Service)
    requires Enabled(s, a)
    ensures |Rows(Step(s, a), service)| == |Rows(s, service)| + |Appended(s, a, service)|
    ensures forall k :: 0 <= k < |Appended(s, a, service)| ==>
      Rows(Step(s, a), service)[|Rows(s, service)| + k] == Appended(s, a, service)[k]
  {
    hide Produced, Relayed, Consumed, Operated, ProducerEnabled, RelayEnabled, ConsumerEnabled, OperatorEnabled,
      NewOrderEvent, NewStatusEvent;
    match a
    case Produce(p) => ProducerRows(s, p, service);
    case Relay(r, x) => RelayRowCount(s, r, x, service);
    case Consume(t, x) =>
      ConsumerKeeps(s, t, x);
      ConsumerGrows(s, t, x);
    case Operate(o) => OperatorKeeps(s, o);
  }

  lemma {:induction false} RelayRowCount(s: State, r: nat, x: RelayStep, service: Service)
    requires RelayEnabled(s, r, x)
    ensures |Rows(Relayed(s, r, x), service)| == |Rows(s, service)|
  {
    hide Outbox.Claim, Copies, NewHead, HeadRow, NextRecord, Bound;
    if x.Claim? {
      ClaimRows(Policy(x.service), Rows(s, x.service), x.limit);
    }
  }

  /** Rows keep their place and their event, become published only by a mark, and never stop being so. */
  lemma {:induction false} StepRow(s: State, a: Action, service: Service, i: nat)
    requires Enabled(s, a) && i < |Rows(s, service)|
    ensures i < |Rows(Step(s, a), service)|
    ensures RowStays(Rows(s, service)[i], Rows(Step(s, a), service)[i], Publishes(s, a, service, i))
  {
    hide Produced, Relayed, Consumed, Operated, ProducerEnabled, RelayEnabled, ConsumerEnabled, OperatorEnabled,
      Working;
    match a
    case Produce(p) => ProducerRows(s, p, service);
    case Relay(r, x) => RelayRow(s, r, x, service, i);
    case Consume(t, x) =>
      ConsumerKeeps(s, t, x);
      ConsumerGrows(s, t, x);
    case Operate(o) => OperatorKeeps(s, o);
  }
}
