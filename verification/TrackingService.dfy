/** The tracking service's classes: the repositories' statements against the ambient transaction,
    `ShipmentsService`, and `ProcessedMessageRepository`. Any statement may throw; which one, and with
    what error, is a parameter. */
module TrackingService {
  import opened Base
  import opened Contracts
  import opened Outbox
  import opened Tracking
  import Relay
  import RelaySchedule

  /** The statement that throws, counted from 0 within one operation, and its error. */
  datatype Fault = NoFault | FaultAt(statement: nat, error: Failure)

  predicate Hits(fault: Fault, statement: nat) {
    fault.FaultAt? && fault.statement == statement
  }

  /** Whether `createPendingShipment` gets to the statement that throws: an order that has a shipment
      takes one statement, any other takes four. */
  predicate CreateThrows(db: TrackingDb, orderId: Id, fault: Fault) {
    fault.FaultAt? && fault.statement < if HasShipment(db, orderId) then 1 else 4
  }

  /** Whether `updateShipmentStatus` gets to the statement that throws: finding nothing to do takes one
      statement, an unknown status is noticed after three, a change takes five. */
  predicate UpdateThrows(db: TrackingDb, u: StatusUpdate, fault: Fault) {
    fault.FaultAt? && fault.statement <
      if !ChangesStatus(db, u) then 1
      else if !KnownStatus(db.shipments[u.shipmentId].status) || !KnownStatus(u.status) then 3
      else 5
  }

  /** The database and the ambient transaction: `active` is the view of the transaction in progress. */
  class TrackingDatabase {
    var committed: TrackingDb
    var active: Option<TrackingDb>

    constructor ()
      ensures committed == EMPTY_DB && active == None
    {
      committed, active := EMPTY_DB, None;
    }

    /** What `getClient()` reads. */
    function View(): TrackingDb
      reads this
    {
      if active.Some? then active.value else committed
    }

    /** A statement through `getClient()`: inside a transaction it stays there until the commit. */
    method Write(db: TrackingDb, statement: nat, fault: Fault) returns (r: Result<(), Failure>)
      modifies this
      ensures r == if Hits(fault, statement) then Err(fault.error) else Ok(())
      ensures r.Err? ==> committed == old(committed) && active == old(active)
      ensures r.Ok? ==> View() == db && active.Some? == old(active).Some?
      ensures old(active).Some? ==> committed == old(committed)
    {
      if Hits(fault, statement) {
        return Err(fault.error);
      }
      if active.Some? {
        active := Some(db);
      } else {
        committed := db;
      }
      r := Ok(());
    }

    /** The start of `withTransaction`: join the active transaction or open one. */
    method Enter() returns (owner: bool)
      modifies this`active
      ensures owner <==> old(active).None?
      ensures active == Some(old(View()))
    {
      owner := active.None?;
      if owner {
        active := Some(committed);
      }
    }

    /** Its end: only the call that opened the transaction commits it or rolls it back. */
    method Leave(owner: bool, ok: bool)
      requires active.Some?
      modifies this
      ensures owner ==> active == None && committed == if ok then old(active).value else old(committed)
      ensures !owner ==> active == old(active) && committed == old(committed)
    {
      if owner {
        if ok {
          committed := active.value;
        }
        active := None;
      }
    }
  }

  class ShipmentsService {
    const db: TrackingDatabase
    const outboxRelay: Relay.BaseOutboxRelay

    constructor (db: TrackingDatabase, outboxRelay: Relay.BaseOutboxRelay)
      ensures this.db == db && this.outboxRelay == outboxRelay
    {
      this.db, this.outboxRelay := db, outboxRelay;
    }

    method CreatePendingShipment(orderId: Id, occurredAt: nat, fault: Fault) returns (r: Result<Id, Failure>)
      modifies db
      ensures r.Ok? ==> db.View() == Tracking.CreatePendingShipment(old(db.View()), orderId, occurredAt)
      ensures r.Ok? ==> FindByOrderId(db.View().shipments, orderId) == Some(r.value)
      ensures r.Err? <==> CreateThrows(old(db.View()), orderId, fault)
      ensures r.Err? ==> r.error == fault.error
      ensures db.active.Some? == old(db.active).Some?
      ensures old(db.active).Some? || r.Err? ==> db.committed == old(db.committed)
    {
      var owner := db.Enter();
      r := CreateInTransaction(orderId, occurredAt, fault);
      db.Leave(owner, r.Ok?);
    }

    /** The body of the transaction. */
    method CreateInTransaction(orderId: Id, occurredAt: nat, fault: Fault) returns (r: Result<Id, Failure>)
      requires db.active.Some?
      modifies db
      ensures db.active.Some? && db.committed == old(db.committed)
      ensures r.Ok? ==> db.View() == Tracking.CreatePendingShipment(old(db.View()), orderId, occurredAt)
      ensures r.Ok? ==> FindByOrderId(db.View().shipments, orderId) == Some(r.value)
      ensures r.Err? <==> CreateThrows(old(db.View()), orderId, fault)
      ensures r.Err? ==> r.error == fault.error
    {
      if Hits(fault, 0) {
        return Err(fault.error);
      }
      var view := db.View();
      var existing := FindByOrderId(view.shipments, orderId);
      if existing.Some? {
        return Ok(existing.value);
      }
      var id := |view.shipments|;
      var created := db.Write(view.(shipments := view.shipments + [Shipment(orderId, PENDING)]), 1, fault);
      if created.Err? {
        return Err(created.error);
      }
      view := db.View();
      var logged := db.Write(view.(events := view.events + [TrackingEvent(id, PENDING, occurredAt, None)]), 2, fault);
      if logged.Err? {
        return Err(logged.error);
      }
      if Hits(fault, 3) {
        return Err(fault.error);
      }
      r := Ok(id);
    }

    method UpdateShipmentStatus(u: StatusUpdate, fault: Fault) returns (r: Result<Id, Failure>)
      modifies db, outboxRelay, outboxRelay.eventLoop
      ensures r.Ok? ==> Tracking.UpdateShipmentStatus(old(db.View()), u) == Ok(db.View()) && r.value == u.shipmentId
      ensures UpdateThrows(old(db.View()), u, fault) ==> r == Err(fault.error)
      ensures !UpdateThrows(old(db.View()), u, fault) && r.Err? ==>
        Tracking.UpdateShipmentStatus(old(db.View()), u) == Err(r.error)
      ensures db.active.Some? == old(db.active).Some?
      ensures old(db.active).Some? || r.Err? ==> db.committed == old(db.committed)
      ensures outboxRelay.State() == if r.Ok? && ChangesStatus(old(db.View()), u)
        then RelaySchedule.Wake(old(outboxRelay.State())) else old(outboxRelay.State())
    {
      var owner := db.Enter();
      var changed;
      r, changed := UpdateInTransaction(u, fault);
      db.Leave(owner, r.Ok?);
      if r.Ok? && changed {
        outboxRelay.Wake();
      }
    }

    /** The body of the transaction. The statuses are parsed only after two writes were made. */
    method UpdateInTransaction(u: StatusUpdate, fault: Fault) returns (r: Result<Id, Failure>, shouldWakeRelay: bool)
      requires db.active.Some?
      modifies db
      ensures db.active.Some? && db.committed == old(db.committed)
      ensures r.Ok? ==> Tracking.UpdateShipmentStatus(old(db.View()), u) == Ok(db.View()) && r.value == u.shipmentId
      ensures r.Ok? ==> shouldWakeRelay == ChangesStatus(old(db.View()), u)
      ensures UpdateThrows(old(db.View()), u, fault) ==> r == Err(fault.error)
      ensures !UpdateThrows(old(db.View()), u, fault) && r.Err? ==>
        Tracking.UpdateShipmentStatus(old(db.View()), u) == Err(r.error)
    {
      shouldWakeRelay := false;
      if Hits(fault, 0) {
        return Err(fault.error), false;
      }
      var view := db.View();
      if u.shipmentId >= |view.shipments| {
        return Err(NOT_FOUND), false;
      }
      var current := view.shipments[u.shipmentId];
      if current.status == u.status {
        return Ok(u.shipmentId), false;
      }
      var updated := db.Write(view.(shipments := view.shipments[u.shipmentId := current.(status := u.status)]), 1,
        fault);
      if updated.Err? {
        return Err(updated.error), false;
      }
      view := db.View();
      var logged := db.Write(view.(events := view.events
        + [TrackingEvent(u.shipmentId, u.status, u.occurredAt, u.location)]), 2, fault);
      if logged.Err? {
        return Err(logged.error), false;
      }
      if !KnownStatus(current.status) || !KnownStatus(u.status) {
        return Err(INVALID_STATUS), false;
      }
      var payload := StatusPayload(u.shipmentId, current.orderId, current.status, u.status, u.occurredAt, u.location);
      view := db.View();
      var enqueued := db.Write(view.(outbox := view.outbox + [NewRow(StatusChanged(u.eventId, payload))]), 3, fault);
      if enqueued.Err? {
        return Err(enqueued.error), false;
      }
      shouldWakeRelay := true;
      if Hits(fault, 4) {
        return Err(fault.error), true;
      }
      r := Ok(u.shipmentId);
    }
  }

  const P2002 := "P2002"
  const UNIQUE_KEY := Failure(P2002, "Unique constraint failed")

  predicate IsUniqueConstraintError(error: Failure) {
    error.code == P2002
  }

  /** What the transaction of `markProcessed` ends with: `keyFault` strikes the key insert (statement 0), the
      commit (statement 1), or the answer of a commit that goes through (statement 2); `fault` strikes
      inside the handler. */
  function TransactionOutcome(db: TrackingDb, key: MessageKey, order: OrderPayload, keyFault: Fault,
          fault: Fault): Ended<TrackingDb> {
    if Hits(keyFault, 0) then Ended(db, Some(keyFault.error))
    else if key in db.processed then Ended(db, Some(UNIQUE_KEY))
    else if CreateThrows(db, order.orderId, fault) then Ended(db, Some(fault.error))
    else if Hits(keyFault, 1) then Ended(db, Some(keyFault.error))
    else
      Ended(Tracking.CreatePendingShipment(WithKey(db, key), order.orderId, order.placedAt),
            if Hits(keyFault, 2) then Some(keyFault.error) else None)
  }

  function ResultOf(error: Option<Failure>): ProcessResult {
    if error.None? then Processed
    else if IsUniqueConstraintError(error.value) then Duplicate
    else HandlerFailed(error.value)
  }

  const TRACKING_CONSUMER := "tracking-order-created"

  class ProcessedMessageRepository {
    const db: TrackingDatabase
    const shipments: ShipmentsService

    constructor (shipments: ShipmentsService)
      ensures this.shipments == shipments && db == shipments.db
    {
      this.shipments, this.db := shipments, shipments.db;
    }

    /** `markProcessed` with the handler of `TrackingOrderCreatedConsumer`: the key and the handler's writes
        in one transaction of its own. `keyFault` is thrown by the key insert or by the commit, which may
        have gone through, `fault` inside the handler. */
    method MarkProcessed(eventId: Id, order: OrderPayload, keyFault: Fault, fault: Fault)
      returns (result: ProcessResult)
      requires db == shipments.db && db.active.None?
      modifies db
      ensures db.active.None?
      ensures var outcome :=
        TransactionOutcome(old(db.committed), MessageKey(TRACKING_CONSUMER, eventId), order, keyFault, fault);
        result == ResultOf(outcome.error) && db.committed == outcome.tables
    {
      var error := Transaction(eventId, order, keyFault, fault);
      if error.None? {
        return Processed;
      }
      if IsUniqueConstraintError(error.value) {
        return Duplicate;
      }
      result := HandlerFailed(error.value);
    }

    /** `prisma.$transaction` with `runWithClient` around the key insert and the handler. */
    method Transaction(eventId: Id, order: OrderPayload, keyFault: Fault, fault: Fault)
      returns (error: Option<Failure>)
      requires db == shipments.db && db.active.None?
      modifies db
      ensures db.active.None?
      ensures Ended(db.committed, error)
        == TransactionOutcome(old(db.committed), MessageKey(TRACKING_CONSUMER, eventId), order, keyFault, fault)
    {
      var key := MessageKey(TRACKING_CONSUMER, eventId);
      var owner := db.Enter();
      if Hits(keyFault, 0) {
        db.Leave(owner, false);
        return Some(keyFault.error);
      }
      if key in db.View().processed {
        db.Leave(owner, false);
        return Some(UNIQUE_KEY);
      }
      var inserted := db.Write(WithKey(db.View(), key), 0, NoFault);
      assert inserted.Ok?;
      var handled := shipments.CreatePendingShipment(order.orderId, order.placedAt, fault);
      db.Leave(owner, handled.Ok? && !Hits(keyFault, 1));
      if handled.Err? {
        return Some(handled.error);
      }
      error := if Hits(keyFault, 1) || Hits(keyFault, 2) then Some(keyFault.error) else None;
    }
  }

  /** The error that rolls the transaction of a new key back. */
  function RollbackError(db: TrackingDb, order: OrderPayload, keyFault: Fault, fault: Fault): Option<Failure> {
    if Hits(keyFault, 0) then Some(keyFault.error)
    else if CreateThrows(db, order.orderId, fault) then Some(fault.error)
    else if Hits(keyFault, 1) then Some(keyFault.error)
    else None
  }

  /** What the transaction of `markProcessed` and its answer mean. A new key is stored, with a shipment of its order,
      exactly when nothing rolls the transaction back; otherwise nothing changes. `processed` says that it
      was. `duplicate` says that the error looks like a unique violation; its key is not stored
      exactly when some statement other than its insert raised one. `failed` is also the answer
      when a commit goes through unnoticed. */
  lemma {:induction false} MeaningOfResult(db: TrackingDb, key: MessageKey, order: OrderPayload, keyFault: Fault,
          fault: Fault)
    ensures var outcome := TransactionOutcome(db, key, order, keyFault, fault); var result := ResultOf(outcome.error);
      var rollback := RollbackError(db, order, keyFault, fault);
      && (if key !in db.processed && rollback.None? then
            outcome.tables.processed == db.processed + {key} && HasShipment(outcome.tables, order.orderId)
          else outcome.tables == db)
      && (key !in db.processed && rollback.None? && !HasShipment(db, order.orderId) ==>
            Logged(db, outcome.tables, |db.shipments|, "PENDING", order.placedAt, None))
      && (key !in db.processed && rollback.Some? ==> outcome.error == rollback)
      && (result.Processed? ==> key !in db.processed && rollback.None?)
      && (result.HandlerFailed? ==> outcome.error == Some(result.error))
      && (result.Duplicate? <==> outcome.error.Some? && outcome.error.value.code == P2002)
      && (key in db.processed && !Hits(keyFault, 0) ==> result.Duplicate?)
      && (result.Duplicate? && key !in outcome.tables.processed <==>
            key !in db.processed && rollback.Some? && rollback.value.code == P2002)
  {
    var created := Tracking.CreatePendingShipment(WithKey(db, key), order.orderId, order.placedAt);
    if !HasShipment(db, order.orderId) {
      assert created.shipments[..|db.shipments|] == db.shipments;
      assert created.shipments[|db.shipments|] == Shipment(order.orderId, PENDING);
    }
  }

  /** "Acked implies processed" fails in the tracking service: a racing shipment insert makes
      `markProcessed` answer `duplicate` although the key was rolled back. */
  lemma {:induction false} DuplicateWithoutKey(db: TrackingDb, key: MessageKey, order: OrderPayload)
    requires key !in db.processed && !HasShipment(db, order.orderId)
    ensures var outcome := TransactionOutcome(db, key, order, NoFault, FaultAt(1, UNIQUE_KEY));
      ResultOf(outcome.error) == Duplicate && outcome.tables == db
  {
  }
}
