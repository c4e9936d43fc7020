/** The tracking service's tables and what its two writing operations make of them, each as one
    serialised transaction. Rows are only appended, so a shipment's position is its id. */
module Tracking {
  import opened Base
  import opened Contracts
  import opened Outbox

  datatype Shipment = Shipment(orderId: Id, status: string)

  datatype TrackingEvent = TrackingEvent(shipmentId: Id, status: string, occurredAt: nat, location: Option<Location>)

  datatype TrackingDb = TrackingDb(shipments: seq<Shipment>, events: seq<TrackingEvent>, outbox: seq<Row>,
                                   processed: set<MessageKey>)

  const EMPTY_DB := TrackingDb([], [], [], {})

  /** The shipment of an order, if there is one. */
  function FindByOrderId(shipments: seq<Shipment>, orderId: Id): (found: Option<Id>)
    ensures found.Some? ==> found.value < |shipments| && shipments[found.value].orderId == orderId
    ensures found.None? ==> forall i :: 0 <= i < |shipments| ==> shipments[i].orderId != orderId
  {
    if shipments == [] then None
    else if shipments[|shipments| - 1].orderId == orderId then Some(|shipments| - 1)
    else FindByOrderId(shipments[..|shipments| - 1], orderId)
  }

  function WithKey(db: TrackingDb, key: MessageKey): TrackingDb {
    db.(processed := db.processed + {key})
  }

  predicate HasShipment(db: TrackingDb, orderId: Id) {
    FindByOrderId(db.shipments, orderId).Some?
  }

  /** `createPendingShipment`. It enqueues no outbox row. */
  function CreatePendingShipment(db: TrackingDb, orderId: Id, occurredAt: nat): TrackingDb {
    if HasShipment(db, orderId) then db
    else db.(shipments := db.shipments + [Shipment(orderId, PENDING)],
             events := db.events + [TrackingEvent(|db.shipments|, PENDING, occurredAt, None)])
  }

  const NOT_FOUND := Failure("", "Shipment not found")
  const INVALID_STATUS := Failure("", "Invalid enum value")

  datatype StatusUpdate = StatusUpdate(shipmentId: Id, status: string, occurredAt: nat, location: Option<Location>,
                                       eventId: Id)

  predicate ChangesStatus(db: TrackingDb, u: StatusUpdate) {
    u.shipmentId < |db.shipments| && db.shipments[u.shipmentId].status != u.status
  }

  function ChangedPayload(shipment: Shipment, u: StatusUpdate): StatusPayload {
    StatusPayload(u.shipmentId, shipment.orderId, shipment.status, u.status, u.occurredAt, u.location)
  }

  /** `updateShipmentStatus`: the row, the history entry and the outbox row together, or an error. */
  function UpdateShipmentStatus(db: TrackingDb, u: StatusUpdate): Result<TrackingDb, Failure> {
    if u.shipmentId >= |db.shipments| then Err(NOT_FOUND)
    else
      var current := db.shipments[u.shipmentId];
      if current.status == u.status then Ok(db)
      else if !KnownStatus(current.status) || !KnownStatus(u.status) then Err(INVALID_STATUS)
      else Ok(db.(shipments := db.shipments[u.shipmentId := current.(status := u.status)],
                  events := db.events + [TrackingEvent(u.shipmentId, u.status, u.occurredAt, u.location)],
                  outbox := db.outbox + [NewRow(StatusChanged(u.eventId, ChangedPayload(current, u)))]))
  }

  // ---------------------------------------------------------------- the history of a shipment

  /** The statuses of a shipment's tracking events, in commit order. */
  function History(events: seq<TrackingEvent>, id: Id): seq<string> {
    if events == [] then []
    else
      var last := events[|events| - 1];
      History(events[..|events| - 1], id) + (if last.shipmentId == id then [last.status] else [])
  }

  /** The status changes announced in a shipment's outbox events, in commit order. */
  function Changes(outbox: seq<Row>, id: Id): seq<StatusPayload> {
    if outbox == [] then []
    else
      var last := outbox[|outbox| - 1].event;
      Changes(outbox[..|outbox| - 1], id)
        + (if last.StatusChanged? && last.change.shipmentId == id then [last.change] else [])
  }

  lemma {:induction false} HistoryAppend(events: seq<TrackingEvent>, e: TrackingEvent, id: Id)
    ensures History(events + [e], id) == History(events, id) + (if e.shipmentId == id then [e.status] else [])
  {
    assert (events + [e])[..|events|] == events;
  }

  lemma {:induction false} ChangesAppend(outbox: seq<Row>, row: Row, id: Id)
    ensures Changes(outbox + [row], id)
      == Changes(outbox, id)
        + (if row.event.StatusChanged? && row.event.change.shipmentId == id then [row.event.change] else [])
  {
    assert (outbox + [row])[..|outbox|] == outbox;
  }

  /** Claims and marks of the relay do not change what has been announced. */
  lemma {:induction false} ChangesDependOnEvents(outbox: seq<Row>, later: seq<Row>, id: Id)
    requires |outbox| == |later| && forall i :: 0 <= i < |outbox| ==> outbox[i].event == later[i].event
    ensures Changes(outbox, id) == Changes(later, id)
  {
    if outbox != [] {
      ChangesDependOnEvents(outbox[..|outbox| - 1], later[..|later| - 1], id);
    }
  }

  lemma {:induction false} NoHistoryYet(events: seq<TrackingEvent>, id: Id)
    requires forall i :: 0 <= i < |events| ==> events[i].shipmentId != id
    ensures History(events, id) == []
  {
    if events != [] {
      NoHistoryYet(events[..|events| - 1], id);
    }
  }

  lemma {:induction false} NoChangesYet(outbox: seq<Row>, id: Id)
    requires forall i :: 0 <= i < |outbox| && outbox[i].event.StatusChanged? ==> outbox[i].event.change.shipmentId != id
    ensures Changes(outbox, id) == []
  {
    if outbox != [] {
      NoChangesYet(outbox[..|outbox| - 1], id);
    }
  }

  /** Applying the announced changes, each to the status the one before left. */
  function Fold(from: string, changes: seq<StatusPayload>): Option<string>
    decreases |changes|
  {
    if changes == [] then Some(from)
    else if changes[0].previousStatus == from then Fold(changes[0].currentStatus, changes[1..])
    else None
  }

  /** The history starts at PENDING, never repeats a status at once and ends at the current status; the
      announced changes are exactly its consecutive pairs. */
  predicate HistoryOk(shipment: Shipment, history: seq<string>, changes: seq<StatusPayload>) {
    && |history| > 0 && history[0] == PENDING && history[|history| - 1] == shipment.status
    && (forall k :: 0 <= k < |history| ==> KnownStatus(history[k]))
    && |changes| == |history| - 1
    && forall k :: 0 <= k < |changes| ==>
         && history[k] != history[k + 1]
         && changes[k].previousStatus == history[k]
         && changes[k].currentStatus == history[k + 1]
         && changes[k].orderId == shipment.orderId
  }

  predicate UniqueOrders(db: TrackingDb) {
    forall i, j :: 0 <= i < j < |db.shipments| ==> db.shipments[i].orderId != db.shipments[j].orderId
  }

  predicate OwnRows(db: TrackingDb) {
    && (forall i :: 0 <= i < |db.events| ==> db.events[i].shipmentId < |db.shipments|)
    && (forall i :: 0 <= i < |db.outbox| ==>
      db.outbox[i].event.StatusChanged? && db.outbox[i].event.change.shipmentId < |db.shipments|)
  }

  predicate TrackingOk(db: TrackingDb) {
    && UniqueOrders(db)
    && OwnRows(db)
    && forall id :: 0 <= id < |db.shipments| ==>
      HistoryOk(db.shipments[id], History(db.events, id), Changes(db.outbox, id))
  }

  lemma {:induction false} CreateKeepsOk(db: TrackingDb, orderId: Id, occurredAt: nat)
    requires TrackingOk(db)
    ensures TrackingOk(CreatePendingShipment(db, orderId, occurredAt))
  {
    if !HasShipment(db, orderId) {
      var created := CreatePendingShipment(db, orderId, occurredAt);
      var n := |db.shipments|;
      NoHistoryYet(db.events, n);
      NoChangesYet(db.outbox, n);
      forall id | 0 <= id < |created.shipments|
        ensures HistoryOk(created.shipments[id], History(created.events, id), Changes(created.outbox, id))
      {
        HistoryAppend(db.events, TrackingEvent(n, PENDING, occurredAt, None), id);
      }
    }
  }

  /** A history grows by a status other than its last, announced with that pair. */
  lemma {:induction false} HistoryGrows(shipment: Shipment, history: seq<string>, changes: seq<StatusPayload>,
          status: string, change: StatusPayload)
    requires HistoryOk(shipment, history, changes)
    requires KnownStatus(status) && status != shipment.status
    requires change.previousStatus == shipment.status && change.currentStatus == status &&
      change.orderId == shipment.orderId
    ensures HistoryOk(shipment.(status := status), history + [status], changes + [change])
  {
  }

  lemma {:induction false} UpdateKeepsOk(db: TrackingDb, u: StatusUpdate)
    requires TrackingOk(db)
    ensures var r := UpdateShipmentStatus(db, u); r.Ok? ==> TrackingOk(r.value)
  {
    hide HistoryOk, KnownStatus;
    var r := UpdateShipmentStatus(db, u);
    if r.Ok? && ChangesStatus(db, u) {
      var current := db.shipments[u.shipmentId];
      forall id | 0 <= id < |r.value.shipments|
        ensures HistoryOk(r.value.shipments[id], History(r.value.events, id), Changes(r.value.outbox, id))
      {
        var e := TrackingEvent(u.shipmentId, u.status, u.occurredAt, u.location);
        var row := NewRow(StatusChanged(u.eventId, ChangedPayload(current, u)));
        HistoryAppend(db.events, e, id);
        ChangesAppend(db.outbox, row, id);
        if id == u.shipmentId {
          HistoryGrows(current, History(db.events, id), Changes(db.outbox, id), u.status, row.event.change);
        } else {
          assert History(db.events, id) + [] == History(db.events, id);
          assert Changes(db.outbox, id) + [] == Changes(db.outbox, id);
        }
      }
    }
  }

  /** The relay keeps it too: rows change, their events do not. */
  lemma {:induction false} RelayKeepsOk(db: TrackingDb, rows: seq<Row>)
    requires TrackingOk(db)
    requires |rows| == |db.outbox| && forall i :: 0 <= i < |rows| ==> rows[i].event == db.outbox[i].event
    ensures TrackingOk(db.(outbox := rows))
  {
    forall id | 0 <= id < |db.shipments|
      ensures HistoryOk(db.shipments[id], History(db.events, id), Changes(rows, id))
    {
      ChangesDependOnEvents(db.outbox, rows, id);
    }
  }

  /** Folding the announced changes from PENDING gives the current status. */
  lemma {:induction false} ChangesFoldToStatus(db: TrackingDb, id: Id)
    requires TrackingOk(db) && id < |db.shipments|
    ensures Fold(PENDING, Changes(db.outbox, id)) == Some(db.shipments[id].status)
    ensures |Changes(db.outbox, id)| == |History(db.events, id)| - 1
  {
    FoldAlong(History(db.events, id), Changes(db.outbox, id));
  }

  /** The place of an outbox row among the announced changes of its shipment is the number of those before it. */
  lemma {:induction false} RowIsAnnounced(outbox: seq<Row>, i: nat)
    requires i < |outbox| && outbox[i].event.StatusChanged?
    ensures var change := outbox[i].event.change; var changes := Changes(outbox, change.shipmentId);
      var k := |Changes(outbox[..i], change.shipmentId)|;
      k < |changes| && changes[k] == change
  {
    if i < |outbox| - 1 {
      RowIsAnnounced(outbox[..|outbox| - 1], i);
      assert outbox[..|outbox| - 1][..i] == outbox[..i];
    }
  }

  /** The history entry that was made together with an outbox row. */
  function EntryOf(db: TrackingDb, i: nat): Option<string>
    requires i < |db.outbox| && db.outbox[i].event.StatusChanged?
  {
    var id := db.outbox[i].event.change.shipmentId;
    var history, k := History(db.events, id), |Changes(db.outbox[..i], id)|;
    if k + 1 < |history| then Some(history[k + 1]) else None
  }

  /** An outbox row announces the change that its history entry records, for the order of its shipment. */
  lemma {:induction false} RowAgrees(db: TrackingDb, i: nat)
    requires TrackingOk(db) && i < |db.outbox|
    ensures db.outbox[i].event.StatusChanged? && db.outbox[i].event.change.shipmentId < |db.shipments|
    ensures EntryOf(db, i) == Some(db.outbox[i].event.change.currentStatus)
    ensures db.outbox[i].event.change.orderId == db.shipments[db.outbox[i].event.change.shipmentId].orderId
  {
    var id := db.outbox[i].event.change.shipmentId;
    RowIsAnnounced(db.outbox, i);
    assert HistoryOk(db.shipments[id], History(db.events, id), Changes(db.outbox, id));
  }

  /** So every stored event has statuses of the contract. */
  lemma {:induction false} StoredStatusesKnown(db: TrackingDb, i: nat)
    requires TrackingOk(db) && i < |db.outbox|
    ensures db.outbox[i].event.StatusChanged?
    ensures KnownStatus(db.outbox[i].event.change.previousStatus)
    ensures KnownStatus(db.outbox[i].event.change.currentStatus)
  {
    var id := db.outbox[i].event.change.shipmentId;
    var k := |Changes(db.outbox[..i], id)|;
    RowIsAnnounced(db.outbox, i);
    var history := History(db.events, id);
    assert HistoryOk(db.shipments[id], history, Changes(db.outbox, id));
    assert KnownStatus(history[k]) && KnownStatus(history[k + 1]);
  }

  lemma {:induction false} FoldAlong(history: seq<string>, changes: seq<StatusPayload>)
    requires |history| == |changes| + 1
    requires forall k :: 0 <= k < |changes| ==>
      changes[k].previousStatus == history[k] && changes[k].currentStatus == history[k + 1]
    ensures Fold(history[0], changes) == Some(history[|changes|])
    decreases |changes|
  {
    if changes != [] {
      FoldAlong(history[1..], changes[1..]);
    }
  }

  /** The entry that a history gets, field by field. */
  predicate Logged(db: TrackingDb, after: TrackingDb, id: Id, status: string, at: nat, location: Option<Location>) {
    && |after.events| == |db.events| + 1 && after.events[..|db.events|] == db.events
    && var e := after.events[|db.events|];
       e.shipmentId == id && e.status == status && e.occurredAt == at && e.location == location
  }

  /** The outbox row that a change gets, field by field. */
  predicate Announced(db: TrackingDb, after: TrackingDb, u: StatusUpdate)
    requires u.shipmentId < |db.shipments|
  {
    && |after.outbox| == |db.outbox| + 1 && after.outbox[..|db.outbox|] == db.outbox
    && var row := after.outbox[|db.outbox|];
       && row.attempts == 0 && row.publishedAt == None && row.deadAt == None && row.lastError == None
       && row.event.StatusChanged? && row.event.eventId == u.eventId
       && var change := row.event.change;
          && change.shipmentId == u.shipmentId && change.orderId == db.shipments[u.shipmentId].orderId
          && change.previousStatus == db.shipments[u.shipmentId].status && change.currentStatus == u.status
          && change.changedAt == u.occurredAt && change.location == u.location
  }

  /** What an update does to every table, field by field: nothing when it is refused or there is nothing to change;
      otherwise that shipment gets the status, its history the entry and the outbox the event. */
  lemma {:induction false} UpdateDoes(db: TrackingDb, u: StatusUpdate)
    requires TrackingOk(db)
    ensures var after := RunOp(db, Update(u));
      if u.shipmentId < |db.shipments| && db.shipments[u.shipmentId].status != u.status && KnownStatus(u.status) then
        && |after.shipments| == |db.shipments|
        && (forall i :: 0 <= i < |db.shipments| ==>
          after.shipments[i] == if i == u.shipmentId then Shipment(db.shipments[i].orderId, u.status)
            else db.shipments[i])
        && Logged(db, after, u.shipmentId, u.status, u.occurredAt, u.location)
        && Announced(db, after, u)
        && after.processed == db.processed
      else after == db
  {
    RefusedIff(db, u);
  }

  /** What a creation does: nothing when the order has a shipment, otherwise a PENDING one with its first entry. */
  lemma {:induction false} CreateDoes(db: TrackingDb, orderId: Id, at: nat)
    ensures var after := RunOp(db, Create(orderId, at));
      if exists i :: 0 <= i < |db.shipments| && db.shipments[i].orderId == orderId then after == db
      else
        && after.shipments == db.shipments + [Shipment(orderId, "PENDING")]
        && Logged(db, after, |db.shipments|, "PENDING", at, None)
        && after.outbox == db.outbox && after.processed == db.processed
  {
    if HasShipment(db, orderId) {
      assert db.shipments[FindByOrderId(db.shipments, orderId).value].orderId == orderId;
    }
  }

  /** The operations of the service, and runs of them. */
  datatype TrackingOp = Create(orderId: Id, occurredAt: nat) | Update(update: StatusUpdate)

  function RunOp(db: TrackingDb, op: TrackingOp): TrackingDb {
    match op
    case Create(orderId, occurredAt) => CreatePendingShipment(db, orderId, occurredAt)
    case Update(u) =>
      var r := UpdateShipmentStatus(db, u);
      if r.Ok? then r.value else db
  }

  function RunOps(db: TrackingDb, ops: seq<TrackingOp>): TrackingDb
    decreases |ops|
  {
    if ops == [] then db else RunOps(RunOp(db, ops[0]), ops[1..])
  }

  /** Shipment history over every serialised run of the service. */
  lemma {:induction false} HistoryHolds(db: TrackingDb, ops: seq<TrackingOp>)
    requires TrackingOk(db)
    ensures TrackingOk(RunOps(db, ops))
    decreases |ops|
  {
    if ops != [] {
      match ops[0] {
        case Create(orderId, occurredAt) => CreateKeepsOk(db, orderId, occurredAt);
        case Update(u) => UpdateKeepsOk(db, u);
      }
      HistoryHolds(RunOp(db, ops[0]), ops[1..]);
    }
  }

  /** When an update is refused, and that this is the only way to be refused: the shipment does not
      exist, or the status differs and is not one of the contract's. In a reachable state the
      stored status is always known. A refused update leaves the tables alone. */
  lemma {:induction false} RefusedIff(db: TrackingDb, u: StatusUpdate)
    requires TrackingOk(db)
    ensures UpdateShipmentStatus(db, u).Err?
      <==> u.shipmentId >= |db.shipments| || !KnownStatus(u.status)
    ensures KnownStatus(u.status) <==>
      u.status in ["PENDING", "PICKED_UP", "IN_TRANSIT", "OUT_FOR_DELIVERY", "DELIVERED", "CANCELLED", "FAILED"]
    ensures u.shipmentId >= |db.shipments| ==> UpdateShipmentStatus(db, u) == Err(NOT_FOUND)
    ensures u.shipmentId < |db.shipments| && !KnownStatus(u.status) ==>
      UpdateShipmentStatus(db, u) == Err(INVALID_STATUS)
    ensures UpdateShipmentStatus(db, u).Err? ==> RunOp(db, Update(u)) == db
  {
    if u.shipmentId < |db.shipments| {
      var history := History(db.events, u.shipmentId);
      assert HistoryOk(db.shipments[u.shipmentId], history, Changes(db.outbox, u.shipmentId));
      assert KnownStatus(history[|history| - 1]);
    }
  }
}
