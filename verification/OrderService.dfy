/** The order service's classes: the aggregate, the repository and the two command handlers. */
module OrderService {
  import opened Base
  import opened Contracts
  import opened Orders
  import opened OrderStore
  import OutboxStores
  import Relay
  import RelaySchedule

  class OrderAggregate {
    const idValue: Id
    const customerIdValue: string
    var statusValue: Status
    const currencyValue: string
    const itemsValue: seq<Item>
    const placedAtValue: nat
    const shippingAddressValue: Option<Address>
    var domainEvents: seq<OrderCreatedEvent>

    constructor (o: Order)
      ensures State() == o
    {
      idValue, customerIdValue, statusValue, currencyValue := o.id, o.customerId, o.status, o.currency;
      itemsValue, placedAtValue, shippingAddressValue, domainEvents :=
        o.items, o.placedAt, o.shippingAddress, o.domainEvents;
    }

    function State(): Order
      reads this
    {
      Order(idValue, customerIdValue, statusValue, currencyValue, itemsValue, placedAtValue, shippingAddressValue,
        domainEvents)
    }

    /** The `totalCents` getter. */
    method GetTotalCents() returns (sum: int)
      ensures sum == TotalCents(itemsValue)
    {
      sum := 0;
      for k := 0 to |itemsValue|
        invariant sum == TotalCents(itemsValue[..k])
      {
        assert itemsValue[..k + 1][..k] == itemsValue[..k];
        sum := sum + itemsValue[k].quantity * itemsValue[k].unitPriceCents;
      }
      assert itemsValue[..|itemsValue|] == itemsValue;
    }

    method Confirm() returns (error: Option<string>)
      modifies this`statusValue
      ensures var r := Orders.Confirm(old(State()));
        State() == (if r.Ok? then r.value else old(State())) && error == if r.Ok? then None else Some(r.error)
    {
      if statusValue.Cancelled? {
        return Some("Cancelled order cannot be confirmed");
      }
      statusValue := Confirmed;
      error := None;
    }

    method Cancel() returns (error: Option<string>)
      modifies this`statusValue
      ensures var r := Orders.Cancel(old(State()));
        State() == (if r.Ok? then r.value else old(State())) && error == if r.Ok? then None else Some(r.error)
    {
      if statusValue.Cancelled? {
        return Some("Order is already cancelled");
      }
      if statusValue.Confirmed? {
        return Some("Confirmed order cannot be cancelled");
      }
      statusValue := Cancelled;
      error := None;
    }

    method PullDomainEvents() returns (events: seq<OrderCreatedEvent>)
      modifies this`domainEvents
      ensures events == old(domainEvents) && State() == old(State()).(domainEvents := [])
    {
      events := domainEvents;
      domainEvents := [];
    }
  }

  /** The tables. The outbox table is the one the relay's store reads. */
  class OrderDatabase {
    var orders: map<Id, OrderRow>
    const table: OutboxStores.OutboxTable

    constructor (table: OutboxStores.OutboxTable)
      ensures this.table == table && orders == map[]
    {
      this.table, orders := table, map[];
    }

    function Db(): OrderDb
      reads this, table
    {
      OrderDb(orders, table.rows)
    }
  }

  class PrismaOrderRepository {
    const db: OrderDatabase

    constructor (db: OrderDatabase)
      ensures this.db == db
    {
      this.db := db;
    }

    /** One transaction with two inserts. */
    method SaveNew(order: OrderAggregate, message: Event, ok: bool) returns (saved: bool)
      modifies db, db.table
      ensures var r := if ok then OrderStore.SaveNew(old(db.Db()), order.State(), message) else None;
        saved == r.Some? && db.Db() == if r.Some? then r.value else old(db.Db())
      ensures saved ==>
        && order.idValue in db.orders
        && var row := db.orders[order.idValue];
           && row.status == order.statusValue && row.totalCents == TotalCents(order.itemsValue)
           && row.customerId == order.customerIdValue && row.currency == order.currencyValue
           && row.placedAt == order.placedAtValue && row.items == multiset(order.itemsValue)
    {
      if !ok || order.idValue in db.orders {
        return false;
      }
      var total := order.GetTotalCents();
      db.orders := db.orders[order.idValue := OrderRow(order.customerIdValue, order.statusValue, total,
        order.currencyValue,
                                                       order.placedAtValue, multiset(order.itemsValue))];
      db.table.Insert(message);
      saved := true;
    }

    method FindById(id: Id, reading: seq<Item>) returns (r: Result<Option<OrderAggregate>, string>)
      ensures var found := OrderStore.FindById(db.Db(), id, reading);
        && (r.Err? <==> found.Err?) && (r.Err? ==> r.error == found.error)
        && (r.Ok? ==> (r.value.None? <==> found.value.None?))
        && (r.Ok? && r.value.Some? ==> fresh(r.value.value) && r.value.value.State() == found.value.value)
    {
      if id !in db.orders {
        return Ok(None);
      }
      var row := db.orders[id];
      var order := Rehydrate(Persistent(id, row.customerId, row.status, row.currency, AllPrimitives(reading),
        row.placedAt, None));
      if order.Err? {
        return Err(order.error);
      }
      var aggregate := new OrderAggregate(order.value);
      r := Ok(Some(aggregate));
    }

    method Update(order: OrderAggregate, ok: bool) returns (saved: bool)
      modifies db
      ensures var r := if ok then UpdateOrder(old(db.Db()), order.State()) else None;
        saved == r.Some? && db.Db() == if r.Some? then r.value else old(db.Db())
      ensures saved ==>
        && order.idValue in old(db.orders) && order.idValue in db.orders
        && var row, before := db.orders[order.idValue], old(db.orders)[order.idValue];
           && row.status == order.statusValue && row.totalCents == TotalCents(order.itemsValue)
           && row.currency == order.currencyValue && row.placedAt == order.placedAtValue
           && row.items == before.items && row.customerId == before.customerId
    {
      if !ok || order.idValue !in db.orders {
        return false;
      }
      var total := order.GetTotalCents();
      db.orders := db.orders[order.idValue := db.orders[order.idValue].(
        status := order.statusValue, totalCents := total, currency := order.currencyValue,
        placedAt := order.placedAtValue)];
      saved := true;
    }
  }

  class CreateOrderHandler {
    const repository: PrismaOrderRepository
    const outboxRelay: Relay.BaseOutboxRelay

    constructor (repository: PrismaOrderRepository, outboxRelay: Relay.BaseOutboxRelay)
      ensures this.repository == repository && this.outboxRelay == outboxRelay
    {
      this.repository, this.outboxRelay := repository, outboxRelay;
    }

    /** Place, pull the event, validate it, save both, wake the relay. */
    method Execute(p: PlaceProps, eventId: Id, storeOk: bool, env: Environment) returns (r: Result<Id, string>)
      modifies repository.db, repository.db.table, outboxRelay, outboxRelay.eventLoop
      ensures var created := CreateOrder(old(repository.db.Db()), p, eventId, storeOk, env);
        && repository.db.Db() == (if created.Ok? then created.value else old(repository.db.Db()))
        && r == (if created.Ok? then Ok(p.id) else Err(created.error))
        && outboxRelay.State() == if created.Ok? then RelaySchedule.Wake(old(outboxRelay.State()))
          else old(outboxRelay.State())
      ensures r.Ok? <==>
        PlaceAccepted(p, env.upper) && ContractAccepts(p, env) && p.id !in old(repository.db.orders) && storeOk
      ensures r.Ok? ==> exists items ::
        ItemsOf(items, p.items) && p.id in repository.db.orders &&
        StoredAsPlaced(repository.db.orders[p.id], p, items, env) &&
        EnqueuedAsPlaced(old(repository.db.Db()), repository.db.Db(), p, items, eventId, env)
    {
      hide Place, SchemaAccepts, ItemsOf, TotalCents;
      ghost var items := CreateIff(repository.db.Db(), p, eventId, storeOk, env);
      var placed := Place(p, env.upper);
      if placed.Err? {
        return Err(placed.error);
      }
      PlaceSound(p, env.upper);
      var order := new OrderAggregate(placed.value);
      var events := order.PullDomainEvents();
      var message := BuildOrderCreatedMessage(events[0], eventId);
      if !SchemaAccepts(events[0].order, env.isUuid) {
        return Err("invalid event");
      }
      var saved := repository.SaveNew(order, message, storeOk);
      if !saved {
        return Err("save failed");
      }
      outboxRelay.Wake();
      r := Ok(p.id);
    }
  }

  class CancelOrderHandler {
    const repository: PrismaOrderRepository

    constructor (repository: PrismaOrderRepository)
      ensures this.repository == repository
    {
      this.repository := repository;
    }

    /** Load, cancel, write back. */
    method Execute(id: Id, reading: seq<Item>, storeOk: bool) returns (r: Result<Status, string>)
      modifies repository.db
      ensures var changed := ChangeOrder(old(repository.db.Db()), id, reading, storeOk, Orders.Cancel);
        && repository.db.Db() == (if changed.Ok? then changed.value else old(repository.db.Db()))
        && r == if changed.Ok? then Ok(Cancelled) else Err(changed.error)
      ensures OrdersOk(old(repository.db.Db())) && PossibleReading(old(repository.db.Db()), id, reading) ==>
        && (r.Ok? <==> id in old(repository.db.orders) && old(repository.db.orders)[id].status == Pending && storeOk)
        && (r.Ok? ==> OnlyStatusSet(old(repository.db.Db()), repository.db.Db(), id, Cancelled))
    {
      hide OrdersOk, OrderStore.FindById, OnlyStatusSet, TotalCents;
      if OrdersOk(repository.db.Db()) && PossibleReading(repository.db.Db(), id, reading) {
        CancelIff(repository.db.Db(), id, reading, storeOk, Environment((s: string) => s, (s: string) => true));
      }
      var found := repository.FindById(id, reading);
      if found.Err? {
        return Err(found.error);
      }
      if found.value.None? {
        return Err("Order not found");
      }
      var order := found.value.value;
      var error := order.Cancel();
      if error.Some? {
        return Err(error.value);
      }
      var saved := repository.Update(order, storeOk);
      if !saved {
        return Err("update failed");
      }
      r := Ok(order.statusValue);
    }
  }
}
