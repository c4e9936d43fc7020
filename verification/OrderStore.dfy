/** The order service's tables, and what its commands make of them. */
module OrderStore {
  import opened Base
  import opened Contracts
  import opened Outbox
  import opened Orders

  /** The items of an order are rows without an order of their own: they come back as a multiset. */
  datatype OrderRow = OrderRow(customerId: string, status: Status, totalCents: int, currency: string, placedAt: nat,
                               items: multiset<Item>)

  datatype OrderDb = OrderDb(orders: map<Id, OrderRow>, outbox: seq<Row>)

  const EMPTY_DB := OrderDb(map[], [])

  function RowOf(o: Order): OrderRow {
    OrderRow(o.customerId, o.status, TotalCents(o.items), o.currency, o.placedAt, multiset(o.items))
  }

  /** `buildOrderCreatedMessage`: the envelope, with its event id, is fixed here once. */
  function BuildOrderCreatedMessage(e: OrderCreatedEvent, eventId: Id): Event {
    OrderCreated(eventId, e.order)
  }

  /** `saveNew`: the order, its items and the outbox row, or nothing when the id is taken. */
  function SaveNew(db: OrderDb, o: Order, message: Event): Option<OrderDb> {
    if o.id in db.orders then None
    else Some(OrderDb(db.orders[o.id := RowOf(o)], db.outbox + [NewRow(message)]))
  }

  /** `items` may come back in any order. */
  predicate PossibleReading(db: OrderDb, id: Id, reading: seq<Item>) {
    id in db.orders ==> multiset(reading) == db.orders[id].items
  }

  /** `findById`. The shipping address is not stored, so it is not restored. */
  function FindById(db: OrderDb, id: Id, reading: seq<Item>): Result<Option<Order>, string> {
    if id !in db.orders then Ok(None)
    else
      var row := db.orders[id];
      var order := Rehydrate(Persistent(id, row.customerId, row.status, row.currency, AllPrimitives(reading),
        row.placedAt, None));
      if order.Err? then Err(order.error) else Ok(Some(order.value))
  }

  /** `update` writes every scalar column, the recomputed total among them. */
  function UpdateOrder(db: OrderDb, o: Order): Option<OrderDb> {
    if o.id !in db.orders then None
    else Some(db.(orders := db.orders[o.id := db.orders[o.id].(
      status := o.status, totalCents := TotalCents(o.items), currency := o.currency, placedAt := o.placedAt)]))
  }

  datatype Environment = Environment(upper: string -> string, isUuid: string -> bool)

  /** The commands, with what the database answers: the order in which items are read, and whether its
      write goes through. No command confirms an order; the aggregate's method is public, though. */
  datatype Command =
    | Create(props: PlaceProps, eventId: Id, storeOk: bool)
    | CancelOrder(id: Id, reading: seq<Item>, storeOk: bool)
    | ConfirmOrder(id: Id, reading: seq<Item>, storeOk: bool)

  /** The event a successful placement emits. */
  function Placed(p: PlaceProps, env: Environment): OrderCreatedEvent
    requires Place(p, env.upper).Ok?
  {
    Place(p, env.upper).value.domainEvents[0]
  }

  function CreateOrder(db: OrderDb, p: PlaceProps, eventId: Id, storeOk: bool, env: Environment): Result<OrderDb,
          string> {
    var order := Place(p, env.upper);
    if order.Err? then Err(order.error)
    else
      var created := Placed(p, env);
      if !SchemaAccepts(created.order, env.isUuid) then Err("invalid event")
      else
        var saved := if storeOk
          then SaveNew(db, order.value.(domainEvents := []), BuildOrderCreatedMessage(created, eventId)) else None;
        if saved.None? then Err("save failed") else Ok(saved.value)
  }

  /** Find, call the aggregate, write back. */
  function ChangeOrder(db: OrderDb, id: Id, reading: seq<Item>, storeOk: bool, change: Order -> Result<Order,
          string>): Result<OrderDb, string> {
    var found := FindById(db, id, reading);
    if found.Err? then Err(found.error)
    else if found.value.None? then Err("Order not found")
    else
      var changed := change(found.value.value);
      if changed.Err? then Err(changed.error)
      else
        var saved := if storeOk then UpdateOrder(db, changed.value) else None;
        if saved.None? then Err("update failed") else Ok(saved.value)
  }

  function Execute(db: OrderDb, c: Command, env: Environment): Result<OrderDb, string> {
    match c
    case Create(p, eventId, storeOk) => CreateOrder(db, p, eventId, storeOk, env)
    case CancelOrder(id, reading, storeOk) => ChangeOrder(db, id, reading, storeOk, Cancel)
    case ConfirmOrder(id, reading, storeOk) => ChangeOrder(db, id, reading, storeOk, Confirm)
  }

  predicate Possible(db: OrderDb, c: Command) {
    c.Create? || PossibleReading(db, c.id, c.reading)
  }

  /** A command that fails leaves the tables as they were. */
  function RunCommand(db: OrderDb, c: Command, env: Environment): OrderDb {
    var r := Execute(db, c, env);
    if r.Ok? then r.value else db
  }

  function RunCommands(db: OrderDb, commands: seq<Command>, env: Environment): OrderDb
    decreases |commands|
  {
    if commands == [] then db
    else RunCommands(if Possible(db, commands[0]) then RunCommand(db, commands[0], env) else db, commands[1..], env)
  }

  // ---------------------------------------------------------------- money

  /** Whatever order the items are read in, they add up to the stored total. */
  ghost predicate AddsUp(row: OrderRow) {
    forall reading: seq<Item> :: multiset(reading) == row.items ==> TotalCents(reading) == row.totalCents
  }

  predicate StoredWell(row: OrderRow) {
    && Trim(row.customerId) != [] && |Trim(row.currency)| == 3
    && row.items != multiset{} && forall item :: item in row.items ==> ValidItem(item)
  }

  /** The event of an outbox row agrees with the stored order. */
  predicate EventAgrees(db: OrderDb, e: Event) {
    && e.OrderCreated? && e.order.orderId in db.orders
    && var row := db.orders[e.order.orderId];
       && e.order.totalCents == row.totalCents && multiset(e.order.items) == row.items
       && e.order.currency == row.currency && e.order.customerId == row.customerId
  }

  predicate HasEvent(db: OrderDb, id: Id) {
    exists i :: 0 <= i < |db.outbox| && db.outbox[i].event.OrderCreated? && db.outbox[i].event.order.orderId == id
  }

  /** Every order is stored with the sum of its items, and has exactly one event, which says the same. */
  ghost predicate OrdersOk(db: OrderDb) {
    && (forall id :: id in db.orders ==> AddsUp(db.orders[id]) && StoredWell(db.orders[id]) && HasEvent(db, id))
    && (forall i :: 0 <= i < |db.outbox| ==> EventAgrees(db, db.outbox[i].event))
    && (forall i, j :: 0 <= i < j < |db.outbox| ==>
      db.outbox[i].event.order.orderId != db.outbox[j].event.order.orderId)
  }

  lemma {:induction false} PlacedRow(o: Order)
    requires ValidOrder(o)
    ensures AddsUp(RowOf(o)) && StoredWell(RowOf(o))
  {
    forall reading: seq<Item> | multiset(reading) == multiset(o.items)
      ensures TotalCents(reading) == TotalCents(o.items)
    {
      TotalOfPermutation(reading, o.items);
    }
    assert o.items[0] in multiset(o.items);
    forall item | item in multiset(o.items) ensures ValidItem(item) {
      assert item in o.items;
    }
  }

  /** Reading an order back never throws, and gives the stored columns, the items read and their total. */
  lemma {:induction false} FindSucceeds(db: OrderDb, id: Id, reading: seq<Item>)
    requires OrdersOk(db) && id in db.orders && PossibleReading(db, id, reading)
    ensures var r := FindById(db, id, reading); var row := db.orders[id];
      && r.Ok? && r.value.Some?
      && r.value.value == Order(id, row.customerId, row.status, row.currency, reading, row.placedAt, None, [])
      && TotalCents(reading) == row.totalCents
  {
    var row := db.orders[id];
    forall k | 0 <= k < |reading| ensures ValidItem(reading[k]) {
      assert reading[k] in multiset(reading);
    }
    assert reading != [] by {
      assert |multiset(reading)| == |reading|;
    }
    ItemsRoundTrip(reading);
  }

  lemma {:induction false} EventStillAgrees(db: OrderDb, o: Order, message: Event, e: Event)
    requires o.id !in db.orders && EventAgrees(db, e)
    ensures EventAgrees(SaveNew(db, o, message).value, e) && e.order.orderId != o.id
  {
    hide TotalCents;
  }

  lemma {:induction false} EventStillThere(db: OrderDb, o: Order, message: Event, id: Id)
    requires o.id !in db.orders && HasEvent(db, id)
    ensures HasEvent(SaveNew(db, o, message).value, id)
  {
    hide TotalCents;
    var i :| 0 <= i < |db.outbox| && db.outbox[i].event.OrderCreated? && db.outbox[i].event.order.orderId == id;
    assert SaveNew(db, o, message).value.outbox[i] == db.outbox[i];
  }

  lemma {:induction false} SaveKeepsOk(db: OrderDb, o: Order, eventId: Id, address: Address)
    requires OrdersOk(db) && ValidOrder(o) && o.id !in db.orders
    ensures OrdersOk(SaveNew(db, o, OrderCreated(eventId, CreatedEvent(o, address).order)).value)
  {
    hide AddsUp, StoredWell, TotalCents, ValidOrder, HasEvent;
    var event := OrderCreated(eventId, CreatedEvent(o, address).order);
    var saved := SaveNew(db, o, event).value;
    PlacedRow(o);
    NewEventAgrees(db, o, eventId, address);
    forall id | id in saved.orders
      ensures AddsUp(saved.orders[id]) && StoredWell(saved.orders[id]) && HasEvent(saved, id)
    {
      if id != o.id {
        EventStillThere(db, o, event, id);
      }
    }
    forall i | 0 <= i < |db.outbox|
      ensures EventAgrees(saved, saved.outbox[i].event) && saved.outbox[i].event.order.orderId != o.id
    {
      EventStillAgrees(db, o, event, db.outbox[i].event);
    }
  }

  lemma {:induction false} NewEventAgrees(db: OrderDb, o: Order, eventId: Id, address: Address)
    requires o.id !in db.orders
    ensures var event := OrderCreated(eventId, CreatedEvent(o, address).order);
      var saved := SaveNew(db, o, event).value;
      EventAgrees(saved, event) && HasEvent(saved, o.id)
  {
    hide TotalCents;
    var event := OrderCreated(eventId, CreatedEvent(o, address).order);
    assert SaveNew(db, o, event).value.outbox[|db.outbox|].event == event;
  }

  lemma {:induction false} CreateKeepsOk(db: OrderDb, p: PlaceProps, eventId: Id, storeOk: bool, env: Environment)
    requires OrdersOk(db)
    ensures var r := CreateOrder(db, p, eventId, storeOk, env); r.Ok? ==> OrdersOk(r.value)
  {
    hide Place, SchemaAccepts, OrdersOk;
    if CreateOrder(db, p, eventId, storeOk, env).Ok? {
      var order := Place(p, env.upper).value;
      PlaceSound(p, env.upper);
      SaveKeepsOk(db, order.(domainEvents := []), eventId, order.shippingAddress.value);
    }
  }

  function WithStatus(db: OrderDb, id: Id, status: Status): OrderDb
    requires id in db.orders
  {
    db.(orders := db.orders[id := db.orders[id].(status := status)])
  }

  /** A status change of one order keeps everything. */
  lemma {:induction false} StatusChangeKeepsOk(db: OrderDb, id: Id, status: Status)
    requires OrdersOk(db) && id in db.orders
    ensures OrdersOk(WithStatus(db, id, status))
  {
    hide AddsUp, StoredWell, HasEvent, EventAgrees, WithStatus;
    var after := WithStatus(db, id, status);
    StatusChangeFrame(db, id, status);
    forall other | other in after.orders
      ensures AddsUp(after.orders[other]) && StoredWell(after.orders[other]) && HasEvent(after, other)
    {
      RowAfterStatusChange(db, id, status, other);
      HasEventStays(db, after, other);
    }
    forall i | 0 <= i < |after.outbox| ensures EventAgrees(after, after.outbox[i].event) {
      AgreesAfterStatusChange(db, id, status, db.outbox[i].event);
    }
  }

  lemma {:induction false} StatusChangeFrame(db: OrderDb, id: Id, status: Status)
    requires id in db.orders
    ensures var after := WithStatus(db, id, status); after.outbox == db.outbox && after.orders.Keys == db.orders.Keys
  {
  }

  lemma {:induction false} RowAfterStatusChange(db: OrderDb, id: Id, status: Status, other: Id)
    requires id in db.orders && other in db.orders && AddsUp(db.orders[other]) && StoredWell(db.orders[other])
    ensures var after := WithStatus(db, id, status);
      other in after.orders && AddsUp(after.orders[other]) && StoredWell(after.orders[other])
  {
    hide TotalCents;
  }

  lemma {:induction false} HasEventStays(db: OrderDb, later: OrderDb, id: Id)
    requires HasEvent(db, id) && later.outbox == db.outbox
    ensures HasEvent(later, id)
  {
  }

  lemma {:induction false} AgreesAfterStatusChange(db: OrderDb, id: Id, status: Status, e: Event)
    requires id in db.orders && EventAgrees(db, e)
    ensures EventAgrees(WithStatus(db, id, status), e)
  {
  }

  /** A change that goes through changes the status of that one order and nothing else. */
  lemma {:induction false} ChangeOnlyStatus(db: OrderDb, id: Id, reading: seq<Item>, storeOk: bool,
          change: Order -> Result<Order, string>)
    requires OrdersOk(db) && PossibleReading(db, id, reading)
    requires forall o :: change(o).Ok? ==> change(o).value == o.(status := change(o).value.status)
    ensures var r := ChangeOrder(db, id, reading, storeOk, change);
      r.Ok? ==> id in db.orders && id in r.value.orders && r.value == WithStatus(db, id, r.value.orders[id].status)
  {
    hide OrdersOk, FindById;
    if ChangeOrder(db, id, reading, storeOk, change).Ok? {
      assert id in db.orders by { FindNothing(db, id, reading); }
      FindSucceeds(db, id, reading);
      var found := FindById(db, id, reading).value.value;
      assert change(found).Ok?;
    }
  }

  lemma {:induction false} FindNothing(db: OrderDb, id: Id, reading: seq<Item>)
    ensures id !in db.orders ==> FindById(db, id, reading) == Ok(None)
  {
  }

  lemma {:induction false} ChangeKeepsOk(db: OrderDb, id: Id, reading: seq<Item>, storeOk: bool,
          change: Order -> Result<Order, string>)
    requires OrdersOk(db) && PossibleReading(db, id, reading)
    requires forall o :: change(o).Ok? ==> change(o).value == o.(status := change(o).value.status)
    ensures var r := ChangeOrder(db, id, reading, storeOk, change); r.Ok? ==> OrdersOk(r.value)
  {
    hide OrdersOk, ChangeOrder;
    var r := ChangeOrder(db, id, reading, storeOk, change);
    if r.Ok? {
      ChangeOnlyStatus(db, id, reading, storeOk, change);
      StatusChangeKeepsOk(db, id, r.value.orders[id].status);
    }
  }

  // ---------------------------------------------------------------- what commands do, in terms of the tables

  /** The order `id` has that status, and nothing else has changed. */
  predicate OnlyStatusSet(db: OrderDb, after: OrderDb, id: Id, status: Status) {
    && after.outbox == db.outbox && after.orders.Keys == db.orders.Keys && id in db.orders
    && after.orders[id].status == status
    && after.orders[id].customerId == db.orders[id].customerId && after.orders[id].items == db.orders[id].items
    && after.orders[id].totalCents == db.orders[id].totalCents && after.orders[id].currency == db.orders[id].currency
    && after.orders[id].placedAt == db.orders[id].placedAt
    && forall other :: other in db.orders && other != id ==> after.orders[other] == db.orders[other]
  }

  /** Cancelling succeeds exactly for a stored order that is PENDING, if the write goes through. Then it is CANCELLED
      and all else is the same; otherwise everything is. */
  lemma {:induction false} CancelIff(db: OrderDb, id: Id, reading: seq<Item>, storeOk: bool, env: Environment)
    requires OrdersOk(db) && PossibleReading(db, id, reading)
    ensures var c := CancelOrder(id, reading, storeOk); var after := RunCommand(db, c, env);
      && (Execute(db, c, env).Ok? <==> id in db.orders && db.orders[id].status == Pending && storeOk)
      && (id !in db.orders ==> Execute(db, c, env) == Err("Order not found"))
      && (id in db.orders && db.orders[id].status == Confirmed ==>
        Execute(db, c, env) == Err("Confirmed order cannot be cancelled"))
      && (id in db.orders && db.orders[id].status == Cancelled ==>
        Execute(db, c, env) == Err("Order is already cancelled"))
      && if Execute(db, c, env).Ok? then OnlyStatusSet(db, after, id, Cancelled) else after == db
  {
    hide OrdersOk, FindById, TotalCents;
    if id in db.orders {
      FindSucceeds(db, id, reading);
    } else {
      FindNothing(db, id, reading);
    }
  }

  /** Confirming succeeds exactly for a stored order that is not CANCELLED, if the write goes through. */
  lemma {:induction false} ConfirmIff(db: OrderDb, id: Id, reading: seq<Item>, storeOk: bool, env: Environment)
    requires OrdersOk(db) && PossibleReading(db, id, reading)
    ensures var c := ConfirmOrder(id, reading, storeOk); var after := RunCommand(db, c, env);
      && (Execute(db, c, env).Ok? <==> id in db.orders && db.orders[id].status != Cancelled && storeOk)
      && if Execute(db, c, env).Ok? then OnlyStatusSet(db, after, id, Confirmed) else after == db
  {
    hide OrdersOk, FindById, TotalCents;
    if id in db.orders {
      FindSucceeds(db, id, reading);
    } else {
      FindNothing(db, id, reading);
    }
  }

  /** What the contract asks beyond the aggregate, in terms of the command. */
  predicate ContractAccepts(p: PlaceProps, env: Environment) {
    var a := p.shippingAddress;
    && env.isUuid(p.customerId) && |env.upper(p.currency)| == 3
    && Trim(a.line1) != [] && Trim(a.city) != [] && Trim(a.region) != [] && Trim(a.postalCode) != []
    && |env.upper(Trim(a.country))| == 2
  }

  /** The stored order says what the command does, and is PENDING. */
  predicate StoredAsPlaced(row: OrderRow, p: PlaceProps, items: seq<Item>, env: Environment) {
    && row.status == Pending && row.customerId == p.customerId && row.currency == env.upper(p.currency)
    && row.placedAt == p.placedAt && row.items == multiset(items) && row.totalCents == TotalCents(items)
  }

  /** One pending outbox row is appended, with the event that says what the command does. */
  predicate EnqueuedAsPlaced(db: OrderDb, after: OrderDb, p: PlaceProps, items: seq<Item>, eventId: Id,
          env: Environment) {
    && |after.outbox| == |db.outbox| + 1 && after.outbox[..|db.outbox|] == db.outbox
    && var row := after.outbox[|db.outbox|];
       && row.attempts == 0 && row.publishedAt == None && row.deadAt == None && row.lastError == None
       && row.event.OrderCreated? && row.event.eventId == eventId
       && PayloadOf(row.event.order, p, env.upper) && row.event.order.items == items
  }

  /** Creating, in terms of the command alone: it succeeds exactly when the aggregate and the contract take the command,
      its id is free and the write goes through. Then the order is stored PENDING with what the command
      says, together with its event, and all other rows are the same; otherwise everything is. */
  lemma {:induction false} CreateIff(db: OrderDb, p: PlaceProps, eventId: Id, storeOk: bool, env: Environment)
    returns (items: seq<Item>)
    ensures var c := Create(p, eventId, storeOk); var after := RunCommand(db, c, env);
      && (Execute(db, c, env).Ok? <==>
        PlaceAccepted(p, env.upper) && ContractAccepts(p, env) && p.id !in db.orders && storeOk)
      && if Execute(db, c, env).Ok? then
           && ItemsOf(items, p.items)
           && after.orders.Keys == db.orders.Keys + {p.id}
           && StoredAsPlaced(after.orders[p.id], p, items, env)
           && (forall id :: id in db.orders ==> after.orders[id] == db.orders[id])
           && EnqueuedAsPlaced(db, after, p, items, eventId, env)
         else after == db
  {
    hide Place, ItemsOf, TotalCents, SchemaAccepts;
    items := [];
    PlaceIff(p, env.upper);
    if Place(p, env.upper).Ok? {
      var o := Place(p, env.upper).value;
      items := o.items;
      PlacedEventAcceptedIff(p, env.upper, env.isUuid);
      PlaceSound(p, env.upper);
    }
  }

  /** A new order can be cancelled. */
  lemma {:induction false} NewOrderCanBeCancelled(db: OrderDb, p: PlaceProps, eventId: Id, env: Environment,
          created: OrderDb, reading: seq<Item>)
    requires OrdersOk(db) && Execute(db, Create(p, eventId, true), env) == Ok(created)
    requires PossibleReading(created, p.id, reading)
    ensures var c := CancelOrder(p.id, reading, true);
      Execute(created, c, env).Ok? && OnlyStatusSet(created, RunCommand(created, c, env), p.id, Cancelled)
  {
    hide OrdersOk, Execute, PossibleReading, OnlyStatusSet;
    var items := CreateIff(db, p, eventId, true, env);
    CommandKeepsOk(db, Create(p, eventId, true), env);
    CancelIff(created, p.id, reading, true, env);
  }

  lemma {:induction false} CommandKeepsOk(db: OrderDb, c: Command, env: Environment)
    requires OrdersOk(db) && Possible(db, c)
    ensures OrdersOk(RunCommand(db, c, env))
  {
    hide OrdersOk, CreateOrder, ChangeOrder, PossibleReading;
    match c {
      case Create(p, eventId, storeOk) => CreateKeepsOk(db, p, eventId, storeOk, env);
      case CancelOrder(id, reading, storeOk) => ChangeKeepsOk(db, id, reading, storeOk, Cancel);
      case ConfirmOrder(id, reading, storeOk) => ChangeKeepsOk(db, id, reading, storeOk, Confirm);
    }
  }

  /** A command stores at most one outbox row, and only a successful creation does. */
  lemma {:induction false} CommandRows(db: OrderDb, c: Command, env: Environment)
    ensures RunCommand(db, c, env).outbox == db.outbox +
      if c.Create? && Execute(db, c, env).Ok?
        then [NewRow(BuildOrderCreatedMessage(Placed(c.props, env), c.eventId))] else []
  {
    hide Place, SchemaAccepts, FindById, TotalCents;
    assert db.outbox + [] == db.outbox;
  }

  /** What the relay does to the rows does not matter here: their events stay. */
  lemma {:induction false} RelayKeepsOk(db: OrderDb, rows: seq<Row>)
    requires OrdersOk(db)
    requires |rows| == |db.outbox| && forall i :: 0 <= i < |rows| ==> rows[i].event == db.outbox[i].event
    ensures OrdersOk(db.(outbox := rows))
  {
    hide AddsUp, StoredWell;
    var after := db.(outbox := rows);
    forall id | id in db.orders ensures HasEvent(after, id) {
      assert HasEvent(db, id);
      var i :| 0 <= i < |db.outbox| && db.outbox[i].event.OrderCreated? && db.outbox[i].event.order.orderId == id;
      assert rows[i].event == db.outbox[i].event;
    }
    forall i | 0 <= i < |rows| ensures EventAgrees(after, rows[i].event) {
      assert EventAgrees(db, db.outbox[i].event);
    }
  }

  /** Money agreement: after any commands, in any order, with items read in any order. */
  lemma {:induction false} MoneyAgrees(db: OrderDb, commands: seq<Command>, env: Environment)
    requires OrdersOk(db)
    ensures OrdersOk(RunCommands(db, commands, env))
    decreases |commands|
  {
    hide OrdersOk, RunCommand, Possible;
    if commands != [] {
      if Possible(db, commands[0]) {
        CommandKeepsOk(db, commands[0], env);
        MoneyAgrees(RunCommand(db, commands[0], env), commands[1..], env);
      } else {
        MoneyAgrees(db, commands[1..], env);
      }
    }
  }
}
