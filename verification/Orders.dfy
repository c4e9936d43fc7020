/** The order aggregate, its value objects, and its persistent form. */
module Orders {
  import opened Base
  import opened Contracts

  // ---------------------------------------------------------------- String.prototype.trim

  const WHITESPACE: set<char> :=
    {'\U{0009}', '\U{000A}', '\U{000B}', '\U{000C}', '\U{000D}', '\U{0020}', '\U{00A0}', '\U{1680}',
     '\U{2000}', '\U{2001}', '\U{2002}', '\U{2003}', '\U{2004}', '\U{2005}', '\U{2006}', '\U{2007}', '\U{2008}',
     '\U{2009}', '\U{200A}', '\U{2028}', '\U{2029}', '\U{202F}', '\U{205F}', '\U{3000}', '\U{FEFF}'}

  function TrimStart(s: string): string {
    if s != [] && s[0] in WHITESPACE then TrimStart(s[1..]) else s
  }

  function TrimEnd(s: string): string {
    if s != [] && s[|s| - 1] in WHITESPACE then TrimEnd(s[..|s| - 1]) else s
  }

  function Trim(s: string): string {
    TrimEnd(TrimStart(s))
  }

  predicate Trimmed(s: string) {
    s == [] || (s[0] !in WHITESPACE && s[|s| - 1] !in WHITESPACE)
  }

  lemma {:induction false} TrimStartResult(s: string)
    ensures TrimStart(s) == [] || TrimStart(s)[0] !in WHITESPACE
  {
    if s != [] && s[0] in WHITESPACE {
      TrimStartResult(s[1..]);
    }
  }

  lemma {:induction false} TrimEndResult(s: string)
    ensures TrimEnd(s) <= s
    ensures TrimEnd(s) == [] || TrimEnd(s)[|TrimEnd(s)| - 1] !in WHITESPACE
  {
    if s != [] && s[|s| - 1] in WHITESPACE {
      TrimEndResult(s[..|s| - 1]);
    }
  }

  /** Trimming leaves no whitespace at either end, and trimming again changes nothing. */
  lemma {:induction false} TrimIdempotent(s: string)
    ensures Trimmed(Trim(s)) && Trim(Trim(s)) == Trim(s)
  {
    TrimStartResult(s);
    TrimEndResult(TrimStart(s));
  }

  predicate Blank(s: string) {
    forall k :: 0 <= k < |s| ==> s[k] in WHITESPACE
  }

  /** What trimming takes away is whitespace at the two ends, and all of it. */
  lemma {:induction false} TrimTakesBlanks(s: string) returns (left: nat, right: nat)
    ensures left <= right <= |s| && Trim(s) == s[left..right]
    ensures Blank(s[..left]) && Blank(s[right..]) && Trimmed(s[left..right])
  {
    left := StartTakesBlanks(s);
    var rest := s[left..];
    var end := EndTakesBlanks(rest);
    right := left + end;
    assert s[left..right] == rest[..end] && s[right..] == rest[end..];
    TrimIdempotent(s);
  }

  lemma {:induction false} StartTakesBlanks(s: string) returns (n: nat)
    ensures n <= |s| && TrimStart(s) == s[n..] && Blank(s[..n])
  {
    n := 0;
    if s != [] && s[0] in WHITESPACE {
      var more := StartTakesBlanks(s[1..]);
      n := more + 1;
      assert forall k :: 1 <= k < n ==> s[..n][k] == s[1..][..more][k - 1];
    }
  }

  lemma {:induction false} EndTakesBlanks(s: string) returns (n: nat)
    ensures n <= |s| && TrimEnd(s) == s[..n] && Blank(s[n..])
  {
    n := |s|;
    if s != [] && s[|s| - 1] in WHITESPACE {
      n := EndTakesBlanks(s[..|s| - 1]);
      assert s[n..] == s[..|s| - 1][n..] + [s[|s| - 1]];
    }
  }

  // ---------------------------------------------------------------- items

  /** A JavaScript number as far as the checks tell numbers apart. */
  datatype Number = Integer(n: int) | NotInteger

  datatype ItemProps = ItemProps(sku: string, name: string, quantity: Number, unitPriceCents: Number)

  function CreateItem(p: ItemProps): Result<Item, string> {
    if Trim(p.sku) == [] then Err("Order item SKU is required")
    else if Trim(p.name) == [] then Err("Order item name is required")
    else if p.quantity.NotInteger? || p.quantity.n <= 0 then Err("Order item quantity must be a positive integer")
    else if p.unitPriceCents.NotInteger? || p.unitPriceCents.n < 0
      then Err("Order item unit price must be a non-negative integer")
    else Ok(Item(Trim(p.sku), Trim(p.name), p.quantity.n, p.unitPriceCents.n))
  }

  function ToPrimitives(item: Item): ItemProps {
    ItemProps(item.sku, item.name, Integer(item.quantity), Integer(item.unitPriceCents))
  }

  function ItemTotal(item: Item): int {
    item.quantity * item.unitPriceCents
  }

  predicate ValidItem(item: Item) {
    Trimmed(item.sku) && item.sku != [] && Trimmed(item.name) && item.name != [] && item.quantity > 0 &&
      item.unitPriceCents >= 0
  }

  lemma {:induction false} CreateItemSound(p: ItemProps)
    ensures var r := CreateItem(p); r.Ok? ==> ValidItem(r.value)
  {
    TrimIdempotent(p.sku);
    TrimIdempotent(p.name);
  }

  /** An item is valid exactly when re-creating it from its primitives gives it back. */
  lemma {:induction false} ItemRoundTrip(item: Item)
    ensures ValidItem(item) <==> CreateItem(ToPrimitives(item)) == Ok(item)
  {
    TrimIdempotent(item.sku);
    TrimIdempotent(item.name);
    if Trimmed(item.sku) && Trimmed(item.name) {
      TrimmedStays(item.sku);
      TrimmedStays(item.name);
    }
  }

  lemma {:induction false} TrimmedStays(s: string)
    requires Trimmed(s)
    ensures Trim(s) == s
  {
  }

  function CreateItems(props: seq<ItemProps>): Result<seq<Item>, string> {
    if props == [] then Ok([])
    else
      var first := CreateItem(props[0]);
      if first.Err? then Err(first.error)
      else
        var rest := CreateItems(props[1..]);
        if rest.Err? then rest else Ok([first.value] + rest.value)
  }

  function AllPrimitives(items: seq<Item>): (props: seq<ItemProps>)
    ensures |props| == |items| && forall k :: 0 <= k < |items| ==> props[k] == ToPrimitives(items[k])
  {
    seq(|items|, k requires 0 <= k < |items| => ToPrimitives(items[k]))
  }

  predicate ValidItems(items: seq<Item>) {
    forall k :: 0 <= k < |items| ==> ValidItem(items[k])
  }

  lemma {:induction false} CreateItemsSound(props: seq<ItemProps>)
    ensures var r := CreateItems(props); r.Ok? ==> |r.value| == |props| && ValidItems(r.value)
  {
    if props != [] {
      CreateItemSound(props[0]);
      CreateItemsSound(props[1..]);
    }
  }

  lemma {:induction false} ItemsRoundTrip(items: seq<Item>)
    requires ValidItems(items)
    ensures CreateItems(AllPrimitives(items)) == Ok(items)
  {
    if items != [] {
      ItemRoundTrip(items[0]);
      assert AllPrimitives(items)[1..] == AllPrimitives(items[1..]);
      ItemsRoundTrip(items[1..]);
      assert [items[0]] + items[1..] == items;
    }
  }

  /** What the factory takes. */
  predicate ItemAccepted(p: ItemProps) {
    && Trim(p.sku) != [] && Trim(p.name) != []
    && p.quantity.Integer? && p.quantity.n > 0
    && p.unitPriceCents.Integer? && p.unitPriceCents.n >= 0
  }

  predicate ItemsAccepted(props: seq<ItemProps>) {
    forall k :: 0 <= k < |props| ==> ItemAccepted(props[k])
  }

  /** The items of a command, with trimmed texts, and quantities and prices as they were. */
  predicate ItemsOf(items: seq<Item>, props: seq<ItemProps>) {
    && |items| == |props|
    && forall k :: 0 <= k < |items| ==>
         && items[k].sku == Trim(props[k].sku) && items[k].name == Trim(props[k].name)
         && props[k].quantity == Integer(items[k].quantity)
         && props[k].unitPriceCents == Integer(items[k].unitPriceCents)
  }

  /** The factory succeeds exactly on acceptable items, and makes exactly those of the command. */
  lemma {:induction false} CreateItemsOf(props: seq<ItemProps>)
    ensures var r := CreateItems(props);
      && (r.Ok? <==> ItemsAccepted(props))
      && (r.Ok? ==> ItemsOf(r.value, props))
  {
    if props != [] {
      CreateItemsOf(props[1..]);
      assert forall k :: 1 <= k < |props| ==> props[1..][k - 1] == props[k];
      if CreateItems(props).Ok? {
        var items, rest := CreateItems(props).value, CreateItems(props[1..]).value;
        assert forall k :: 1 <= k < |items| ==> items[k] == rest[k - 1];
      }
    }
  }

  // ---------------------------------------------------------------- totals

  function TotalCents(items: seq<Item>): int {
    if items == [] then 0 else TotalCents(items[..|items| - 1]) + ItemTotal(items[|items| - 1])
  }

  lemma {:induction false} TotalConcat(a: seq<Item>, b: seq<Item>)
    ensures TotalCents(a + b) == TotalCents(a) + TotalCents(b)
    decreases |b|
  {
    if b == [] {
      assert a + b == a;
    } else {
      assert (a + b)[..|a + b| - 1] == a + b[..|b| - 1];
      TotalConcat(a, b[..|b| - 1]);
    }
  }

  /** The total is the sum of quantity times price: these equations determine it. */
  lemma {:induction false} TotalIsSum(a: seq<Item>, item: Item, b: seq<Item>)
    ensures TotalCents([]) == 0
    ensures TotalCents([item]) == item.quantity * item.unitPriceCents
    ensures TotalCents(a + b) == TotalCents(a) + TotalCents(b)
  {
    assert [item][..0] == [];
    TotalConcat(a, b);
  }

  function Without(items: seq<Item>, k: nat): seq<Item>
    requires k < |items|
  {
    items[..k] + items[k + 1..]
  }

  lemma {:induction false} MultisetWithout(items: seq<Item>, k: nat)
    requires k < |items|
    ensures multiset(Without(items, k)) == multiset(items) - multiset{items[k]}
  {
    assert items == items[..k] + [items[k]] + items[k + 1..];
    assert multiset(items) == multiset(Without(items, k)) + multiset{items[k]};
  }

  lemma {:induction false} TotalWithout(items: seq<Item>, k: nat)
    requires k < |items|
    ensures TotalCents(items) == TotalCents(Without(items, k)) + ItemTotal(items[k])
  {
    hide ItemTotal;
    assert items == items[..k + 1] + items[k + 1..];
    TotalConcat(items[..k + 1], items[k + 1..]);
    TotalConcat(items[..k], items[k + 1..]);
    assert items[..k + 1][..k] == items[..k];
  }

  /** The total does not depend on the order in which the items are read. */
  lemma {:induction false} TotalOfPermutation(a: seq<Item>, b: seq<Item>)
    requires multiset(a) == multiset(b)
    ensures TotalCents(a) == TotalCents(b)
    decreases |a|
  {
    hide ItemTotal, Without;
    if a == [] {
      assert |b| == |multiset(b)| == |multiset(a)| == 0;
    } else {
      var last := a[|a| - 1];
      assert last in multiset(b);
      var k :| 0 <= k < |b| && b[k] == last;
      MultisetWithout(a, |a| - 1);
      MultisetWithout(b, k);
      TotalWithout(a, |a| - 1);
      TotalWithout(b, k);
      assert |Without(a, |a| - 1)| < |a| by { LengthWithout(a, |a| - 1); }
      TotalOfPermutation(Without(a, |a| - 1), Without(b, k));
    }
  }

  lemma {:induction false} LengthWithout(items: seq<Item>, k: nat)
    requires k < |items|
    ensures |Without(items, k)| == |items| - 1
  {
  }

  lemma {:induction false} TotalNonNegative(items: seq<Item>)
    requires ValidItems(items)
    ensures TotalCents(items) >= 0
  {
    if items != [] {
      var last := items[|items| - 1];
      assert ValidItem(last);
      assert last.quantity * last.unitPriceCents >= 0;
      TotalNonNegative(items[..|items| - 1]);
    }
  }

  // ---------------------------------------------------------------- the aggregate

  datatype Status = Pending | Confirmed | Cancelled

  /** The domain event; it is also what the event payload is built from. */
  datatype OrderCreatedEvent = OrderCreatedEvent(order: OrderPayload, occurredAt: nat)

  datatype Order = Order(id: Id, customerId: string, status: Status, currency: string, items: seq<Item>, placedAt: nat,
                         shippingAddress: Option<Address>, domainEvents: seq<OrderCreatedEvent>)

  datatype PlaceProps = PlaceProps(id: Id, customerId: string, currency: string, items: seq<ItemProps>,
                                   shippingAddress: Address, placedAt: nat)

  /** `RehydrateOrderProps`, the persistent form. */
  datatype Persistent = Persistent(id: Id, customerId: string, status: Status, currency: string, items: seq<ItemProps>,
                                   placedAt: nat, shippingAddress: Option<Address>)

  /** The constructor's checks. */
  function NewOrder(id: Id, customerId: string, status: Status, currency: string, items: seq<Item>, placedAt: nat,
                    address: Option<Address>): Result<Order, string>
  {
    if Trim(customerId) == [] then Err("Customer ID is required")
    else if |Trim(currency)| != 3 then Err("Currency must be a 3-letter code")
    else if items == [] then Err("Order must contain at least one item")
    else Ok(Order(id, customerId, status, currency, items, placedAt, address, []))
  }

  function CleanAddress(a: Address, upper: string -> string): Address {
    Address(Trim(a.line1), if a.line2.Some? then Some(Trim(a.line2.value)) else None, Trim(a.city), Trim(a.region),
            Trim(a.postalCode), upper(Trim(a.country)))
  }

  function CreatedEvent(o: Order, address: Address): OrderCreatedEvent {
    OrderCreatedEvent(OrderPayload(o.id, o.customerId, address, o.items, TotalCents(o.items), o.currency, o.placedAt),
      o.placedAt)
  }

  /** `Order.place`. `upper` is the runtime's `toUpperCase`. */
  function Place(p: PlaceProps, upper: string -> string): Result<Order, string> {
    var items := CreateItems(p.items);
    if items.Err? then Err(items.error)
    else
      var address := CleanAddress(p.shippingAddress, upper);
      var order := NewOrder(p.id, p.customerId, Pending, upper(p.currency), items.value, p.placedAt, Some(address));
      if order.Err? then order else Ok(order.value.(domainEvents := [CreatedEvent(order.value, address)]))
  }

  function Rehydrate(p: Persistent): Result<Order, string> {
    var items := CreateItems(p.items);
    if items.Err? then Err(items.error)
    else NewOrder(p.id, p.customerId, p.status, p.currency, items.value, p.placedAt, p.shippingAddress)
  }

  function ToPersistence(o: Order): Persistent {
    Persistent(o.id, o.customerId, o.status, o.currency, AllPrimitives(o.items), o.placedAt, o.shippingAddress)
  }

  function Confirm(o: Order): Result<Order, string> {
    if o.status.Cancelled? then Err("Cancelled order cannot be confirmed") else Ok(o.(status := Confirmed))
  }

  function Cancel(o: Order): Result<Order, string> {
    match o.status
    case Cancelled => Err("Order is already cancelled")
    case Confirmed => Err("Confirmed order cannot be cancelled")
    case Pending => Ok(o.(status := Cancelled))
  }

  /** What every aggregate satisfies from its construction on. */
  predicate ValidOrder(o: Order) {
    Trim(o.customerId) != [] && |Trim(o.currency)| == 3 && o.items != [] && ValidItems(o.items)
  }

  /** What the aggregate takes. */
  predicate PlaceAccepted(p: PlaceProps, upper: string -> string) {
    && ItemsAccepted(p.items) && p.items != []
    && Trim(p.customerId) != [] && |Trim(upper(p.currency))| == 3
  }

  /** The address of an event, field by field. */
  predicate AddressOf(a: Address, from: Address, upper: string -> string) {
    && a.line1 == Trim(from.line1)
    && (if from.line2.Some? then a.line2 == Some(Trim(from.line2.value)) else a.line2 == None)
    && a.city == Trim(from.city) && a.region == Trim(from.region) && a.postalCode == Trim(from.postalCode)
    && a.country == upper(Trim(from.country))
  }

  /** The event payload says what was placed. */
  predicate PayloadOf(e: OrderPayload, p: PlaceProps, upper: string -> string) {
    && e.orderId == p.id && e.customerId == p.customerId && e.currency == upper(p.currency) && e.placedAt == p.placedAt
    && ItemsOf(e.items, p.items) && e.totalCents == TotalCents(e.items)
    && AddressOf(e.shippingAddress, p.shippingAddress, upper)
  }

  /** Placing, in terms of the command alone: when it succeeds, and that order and event say what was placed. */
  lemma {:induction false} PlaceIff(p: PlaceProps, upper: string -> string)
    ensures var r := Place(p, upper);
      && (r.Ok? <==> PlaceAccepted(p, upper))
      && (r.Ok? ==>
        var o := r.value;
        && o.id == p.id && o.customerId == p.customerId && o.status == Pending && o.currency == upper(p.currency)
        && o.placedAt == p.placedAt && ItemsOf(o.items, p.items)
        && |o.domainEvents| == 1 && PayloadOf(o.domainEvents[0].order, p, upper)
        && o.domainEvents[0].order.items == o.items && o.domainEvents[0].occurredAt == p.placedAt)
  {
    CreateItemsOf(p.items);
  }

  lemma {:induction false} PlaceSound(p: PlaceProps, upper: string -> string)
    ensures var r := Place(p, upper);
      r.Ok? ==>
        && ValidOrder(r.value) && r.value.status.Pending?
        && |r.value.items| == |p.items|
        && r.value.shippingAddress == Some(CleanAddress(p.shippingAddress, upper))
        && r.value.domainEvents == [CreatedEvent(r.value, r.value.shippingAddress.value)]
  {
    CreateItemsSound(p.items);
  }

  /** Aggregate round trip: rehydrating what `toPersistence` gives never throws and gives every field
      back; only the pending domain events are not persisted. Valid orders are exactly the
      orders with this property. */
  lemma {:induction false} RoundTrip(o: Order)
    ensures ValidOrder(o) <==> Rehydrate(ToPersistence(o)) == Ok(o.(domainEvents := []))
  {
    if ValidOrder(o) {
      ItemsRoundTrip(o.items);
    } else {
      CreateItemsSound(AllPrimitives(o.items));
    }
  }

  /** Calls on a live aggregate; a call that throws leaves it as it was. */
  datatype Call = ConfirmCall | CancelCall | PullCall

  function AfterCall(o: Order, call: Call): Order {
    match call
    case ConfirmCall => if Confirm(o).Ok? then Confirm(o).value else o
    case CancelCall => if Cancel(o).Ok? then Cancel(o).value else o
    case PullCall => o.(domainEvents := [])
  }

  function AfterCalls(o: Order, calls: seq<Call>): Order
    decreases |calls|
  {
    if calls == [] then o else AfterCalls(AfterCall(o, calls[0]), calls[1..])
  }

  lemma {:induction false} CallKeeps(o: Order, call: Call)
    ensures var a := AfterCall(o, call);
      && (o.status != Pending ==> a.status == o.status)
      && a == o.(status := a.status, domainEvents := a.domainEvents)
  {
  }

  /** Any calls keep the order valid, its items and so its total; and a settled status is final. */
  lemma {:induction false} CallsKeep(o: Order, calls: seq<Call>)
    requires ValidOrder(o)
    ensures var a := AfterCalls(o, calls);
      && ValidOrder(a) && a.items == o.items
      && (o.status != Pending ==> a.status == o.status)
      && a == o.(status := a.status, domainEvents := a.domainEvents)
    decreases |calls|
  {
    hide AfterCall, ValidItems, Trim;
    if calls != [] {
      CallKeeps(o, calls[0]);
      CallsKeep(AfterCall(o, calls[0]), calls[1..]);
    }
  }

  /** A placed order, after any calls, survives persistence. */
  lemma {:induction false} PlacedOrderRoundTrip(p: PlaceProps, upper: string -> string, calls: seq<Call>)
    requires Place(p, upper).Ok?
    ensures var o := AfterCalls(Place(p, upper).value, calls);
      Rehydrate(ToPersistence(o)) == Ok(o.(domainEvents := []))
  {
    PlaceSound(p, upper);
    CallsKeep(Place(p, upper).value, calls);
    RoundTrip(AfterCalls(Place(p, upper).value, calls));
  }

  // ---------------------------------------------------------------- the event contract

  predicate SchemaAcceptsItem(item: Item) {
    item.sku != [] && item.name != [] && item.quantity > 0 && item.unitPriceCents >= 0
  }

  /** `orderCreatedEventSchema`, as far as it depends on the order. `isUuid` is the UUID check. */
  predicate SchemaAccepts(p: OrderPayload, isUuid: string -> bool) {
    && isUuid(p.customerId)
    && AddressAccepted(p.shippingAddress)
    && p.items != [] && (forall k :: 0 <= k < |p.items| ==> SchemaAcceptsItem(p.items[k]))
    && p.totalCents >= 0
    && |p.currency| == 3
  }

  predicate AddressAccepted(a: Address) {
    a.line1 != [] && a.city != [] && a.region != [] && a.postalCode != [] && |a.country| == 2
  }

  /** What the aggregate does not check and the contract does: of the events that `place` emits, exactly
      those with a UUID customer, a complete address and a currency without blanks are accepted. */
  lemma {:induction false} PlacedEventAcceptedIff(p: PlaceProps, upper: string -> string, isUuid: string -> bool)
    requires Place(p, upper).Ok?
    ensures var o := Place(p, upper).value;
      SchemaAccepts(o.domainEvents[0].order, isUuid) <==>
      isUuid(o.customerId) && |o.currency| == 3 && AddressAccepted(CleanAddress(p.shippingAddress, upper))
  {
    PlaceSound(p, upper);
    TotalNonNegative(Place(p, upper).value.items);
  }
}
