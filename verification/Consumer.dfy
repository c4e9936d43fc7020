/** `IdempotentConsumer.handleMessage` and the `consume` wrapper that calls it: validate, deduplicate,
    then ack, dead-letter or requeue. */
module Consumer {
  import opened Base
  import opened Contracts
  import T = TrackingService
  import Tracking
  import N = Notifications

  /** A message body: an envelope that satisfies the base schema, or anything else. */
  datatype Message = Valid(event: Event) | Malformed(tag: nat)

  /** The calls a delivery gets. `Nack(false)` dead-letters, `Nack(true)` requeues. */
  datatype Settlement = Ack | Nack(requeue: bool)

  datatype Subscription = TrackingOrderCreated | NotifyOrderCreated | NotifyStatusChanged

  /** The typed schema of each consumer fixes the event type; that of status changes also the statuses and the bounds
      of the location. An order event that its schema refuses counts as malformed: `Orders.SchemaAccepts` says which
      ones the order service lets through. */
  predicate Accepts(subscription: Subscription, msg: Message) {
    && msg.Valid?
    && if subscription.NotifyStatusChanged? then msg.event.StatusChanged? && ChangeAccepted(msg.event.change)
       else msg.event.OrderCreated?
  }

  /** What `updateShipmentStatus` does not check and the contract does: of the events that the tracking service stores,
      the notification service accepts exactly those whose location, if there is one, is on earth. */
  lemma {:induction false} StatusEventAcceptedIff(db: Tracking.TrackingDb, i: nat)
    requires Tracking.TrackingOk(db) && i < |db.outbox|
    ensures var e := db.outbox[i].event;
      && e.StatusChanged?
      && (Accepts(NotifyStatusChanged, Valid(e)) <==>
        (e.change.location.Some? ==>
          var at := e.change.location.value; -90.0 <= at.lat <= 90.0 && -180.0 <= at.lng <= 180.0))
  {
    Tracking.StoredStatusesKnown(db, i);
  }

  /** And a change with any other location is committed all the same. */
  lemma {:induction false} OffEarthIsStored(db: Tracking.TrackingDb, u: Tracking.StatusUpdate)
    requires Tracking.TrackingOk(db) && u.shipmentId < |db.shipments| && KnownStatus(u.status)
    requires Tracking.ChangesStatus(db, u) && u.location.Some? && !OnEarth(u.location.value)
    ensures var after := Tracking.RunOp(db, Tracking.Update(u));
      && |after.outbox| == |db.outbox| + 1
      && !Accepts(NotifyStatusChanged, Valid(after.outbox[|db.outbox|].event))
  {
    Tracking.RefusedIff(db, u);
  }

  /** How far `handleMessage` gets with a delivery: refused by a schema, left because the store threw, or
      answered by the store. */
  datatype Handling = Refused | Thrown | Answered(result: ProcessResult)

  /** The settlement call of `handleMessage`, if the store does not throw. */
  function SettlementOf(h: Handling, retryOnError: bool): Settlement
    requires !h.Thrown?
  {
    match h
    case Refused => Nack(false)
    case Answered(result) => if result.HandlerFailed? then Nack(retryOnError) else Ack
  }

  class ConfirmChannel {
    var log: seq<Settlement>

    constructor ()
      ensures log == []
    {
      log := [];
    }

    method Settle(s: Settlement, throws: bool) returns (threw: bool)
      modifies this
      ensures log == old(log) + [s] && threw == throws
    {
      log := log + [s];
      threw := throws;
    }
  }

  /** What the database and the provider answer during one delivery; `other` is what a store of neither
      service does: it answers or it throws. */
  datatype Answers = Answers(keyFault: T.Fault, fault: T.Fault, dispatch: N.Answers,
                             other: Result<ProcessResult, Failure>)

  /** The store interface. The two services' implementations catch everything; the interface does not
      promise that, and the base class must cope with a store that throws. */
  datatype ProcessedMessageStore =
    | TrackingMessages(repository: T.ProcessedMessageRepository)
    | NotificationMessages(store: N.PrismaProcessedMessageStore)
    | OtherMessages
  {
    predicate Ready()
      reads Footprint()
    {
      match this
      case TrackingMessages(r) => r.db == r.shipments.db && r.db.active.None?
      case NotificationMessages(s) => s.prisma == s.dispatchService.prisma && s.prisma.transactionContext.None?
      case OtherMessages => true
    }

    function Footprint(): set<object> {
      match this
      case TrackingMessages(r) => {r.db}
      case NotificationMessages(s) => {s.prisma, s.dispatchService}
      case OtherMessages => {}
    }

    predicate Throws(a: Answers) {
      OtherMessages? && a.other.Err?
    }

    method MarkProcessed(event: Event, a: Answers) returns (r: Result<ProcessResult, Failure>)
      requires Ready() && (TrackingMessages? ==> event.OrderCreated?)
      modifies Footprint()
      ensures Ready()
      ensures r.Err? <==> Throws(a)
      ensures OtherMessages? ==> r == a.other
      ensures TrackingMessages? && r.Ok? ==>
        TrackingAnswer(old(repository.db.committed), repository.db.committed, event, a, r.value)
      ensures NotificationMessages? && r.Ok? ==>
        NotificationAnswer(old(NotificationHistory()), NotificationHistory(), event, a, r.value)
    {
      match this
      case TrackingMessages(repository) =>
        var result := repository.MarkProcessed(event.eventId, event.order, a.keyFault, a.fault);
        r := Ok(result);
      case NotificationMessages(store) =>
        var result := store.MarkProcessed(event, a.dispatch);
        r := Ok(result);
      case OtherMessages => r := a.other;
    }

    /** The notification service's tables, and every provider call so far. */
    function NotificationHistory(): N.History
      requires NotificationMessages?
      reads Footprint()
    {
      N.History(store.prisma.committed, store.dispatchService.sends)
    }
  }

  /** What one `markProcessed` of the tracking service did and answered. */
  predicate TrackingAnswer(before: Tracking.TrackingDb, after: Tracking.TrackingDb, event: Event, a: Answers,
          result: ProcessResult)
    requires event.OrderCreated?
  {
    var outcome := T.TransactionOutcome(before, MessageKey(T.TRACKING_CONSUMER, event.eventId), event.order,
      a.keyFault, a.fault);
    result == T.ResultOf(outcome.error) && after == outcome.tables
  }

  predicate NotificationAnswer(before: N.History, after: N.History, event: Event, a: Answers, result: ProcessResult) {
    && result == N.ResultOf(N.TransactionOutcome(before.db, N.InputOf(event), a.dispatch).error)
    && after == N.Step(before, N.Attempt(event, a.dispatch))
  }

  class IdempotentConsumer {
    const store: ProcessedMessageStore
    const subscription: Subscription
    const retryOnError: bool

    constructor (store: ProcessedMessageStore, subscription: Subscription, retryOnError: bool)
      ensures this.store == store && this.subscription == subscription && this.retryOnError == retryOnError
    {
      this.store, this.subscription, this.retryOnError := store, subscription, retryOnError;
    }

    /** The tracking service has one consumer, the notification service two. */
    predicate Wired()
      reads store.Footprint()
    {
      && store.Ready()
      && (store.TrackingMessages? ==> subscription.TrackingOrderCreated?)
      && (store.NotificationMessages? ==> !subscription.TrackingOrderCreated?)
    }

    /** What a delivery does to the tables: nothing unless it is answered, and then what the store answers. */
    twostate predicate Effect(msg: Message, a: Answers, h: Handling)
      reads store.Footprint()
    {
      && (h.Answered? && store.OtherMessages? ==> a.other == Ok(h.result))
      && (store.TrackingMessages? ==>
            if h.Answered? && msg.Valid? && msg.event.OrderCreated?
            then TrackingAnswer(old(store.repository.db.committed), store.repository.db.committed, msg.event, a,
              h.result)
            else store.repository.db.committed == old(store.repository.db.committed))
      && (store.NotificationMessages? ==>
            if h.Answered? && msg.Valid?
            then NotificationAnswer(old(store.NotificationHistory()), store.NotificationHistory(), msg.event, a,
              h.result)
            else store.NotificationHistory() == old(store.NotificationHistory()))
    }

    /** Returns how the delivery was handled and whether an error escaped. An error of the store escapes
        before anything is settled; `throws` makes the one settlement call throw. */
    method HandleMessage(msg: Message, channel: ConfirmChannel, a: Answers, throws: bool)
      returns (h: Handling, escaped: bool)
      requires Wired() && channel !in store.Footprint()
      modifies store.Footprint(), channel
      ensures Wired() && Effect(msg, a, h)
      ensures h.Refused? <==> !Accepts(subscription, msg)
      ensures h.Thrown? <==> Accepts(subscription, msg) && store.Throws(a)
      ensures channel.log == old(channel.log) + if h.Thrown? then [] else [SettlementOf(h, retryOnError)]
      ensures escaped <==> h.Thrown? || throws
    {
      if msg.Malformed? {
        h := Refused;
        escaped := channel.Settle(Nack(false), throws);
        return;
      }
      if !Accepts(subscription, msg) {
        h := Refused;
        escaped := channel.Settle(Nack(false), throws);
        return;
      }
      var r := store.MarkProcessed(msg.event, a);
      if r.Err? {
        return Thrown, true;
      }
      h := Answered(r.value);
      match r.value
      case Processed => escaped := channel.Settle(Ack, throws);
      case Duplicate => escaped := channel.Settle(Ack, throws);
      case HandlerFailed(_) => escaped := channel.Settle(Nack(retryOnError), throws);
    }

    /** The callback of `consume`: whatever escapes the handler dead-letters the message. When the channel does
        not throw, every delivery gets exactly one settlement call: dead-lettered exactly when a
        schema refuses it, the store throws, or the handler failed without retry; requeued
        exactly when it failed with retry; acked exactly when it was processed, now or before. */
    method OnDelivery(msg: Message, channel: ConfirmChannel, a: Answers, throws: bool) returns (h: Handling)
      requires Wired() && channel !in store.Footprint()
      modifies store.Footprint(), channel
      ensures Wired() && Effect(msg, a, h)
      ensures h.Refused? <==> !Accepts(subscription, msg)
      ensures h.Thrown? <==> Accepts(subscription, msg) && store.Throws(a)
      ensures var calls := |channel.log| - |old(channel.log)|;
        && old(channel.log) <= channel.log
        && (calls == 1 || calls == 2)
        && (calls == 2 <==> throws && !h.Thrown?)
        && (calls == 2 ==> channel.log[|channel.log| - 1] == Nack(false))
      ensures var call := channel.log[|old(channel.log)|];
        && (call == Nack(false) <==> h.Refused? || h.Thrown? || (h.result.HandlerFailed? && !retryOnError))
        && (call == Nack(true) <==> h.Answered? && h.result.HandlerFailed? && retryOnError)
        && (call == Ack <==> h.Answered? && (h.result.Processed? || h.result.Duplicate?))
    {
      var escaped;
      h, escaped := HandleMessage(msg, channel, a, throws);
      if escaped {
        var _ := channel.Settle(Nack(false), throws && h.Thrown?);
      }
    }
  }

  /** An acked tracking delivery: its order now has a shipment under a newly stored key, or the key was
      already stored, or a statement met a unique violation that was raised by somebody else's row. It is
      `processed` exactly when the key is newly stored and the commit was answered. */
  lemma {:induction false} TrackingAckMeans(event: Event, before: Tracking.TrackingDb, after: Tracking.TrackingDb,
          a: Answers, result: ProcessResult)
    requires event.OrderCreated? && TrackingAnswer(before, after, event, a, result)
    requires SettlementOf(Answered(result), true) == Ack
    ensures var key := MessageKey(T.TRACKING_CONSUMER, event.eventId);
      var error := T.RollbackError(before, event.order, a.keyFault, a.fault);
      || (key !in before.processed && key in after.processed && Tracking.HasShipment(after, event.order.orderId)
          && (result.Processed? <==> !T.Hits(a.keyFault, 2)))
      || (result.Duplicate? && after == before && key in before.processed)
      || (result.Duplicate? && after == before && key !in before.processed
          && error.Some? && T.IsUniqueConstraintError(error.value))
  {
    T.MeaningOfResult(before, MessageKey(T.TRACKING_CONSUMER, event.eventId), event.order, a.keyFault, a.fault);
  }

  /** An acked notification delivery leaves its key stored, unless an error forged the store's sentinel. */
  lemma {:induction false} NotificationAckMeans(event: Event, before: N.History, after: N.History, a: Answers,
          result: ProcessResult)
    requires NotificationAnswer(before, after, event, a, result)
    requires SettlementOf(Answered(result), true) == Ack
    ensures N.KeyOf(N.InputOf(event)) in after.db.processed <==>
      !N.ForgedSentinel(before.db, N.InputOf(event), a.dispatch)
  {
    N.AckedIffProcessed(before.db, N.InputOf(event), a.dispatch);
  }
}
