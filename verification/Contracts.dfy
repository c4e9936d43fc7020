/** The event contracts shared by the three services (libs/contracts). Identifiers that the
    program draws from a UUID generator are abstract natural numbers, timestamps are naturals. */
module Contracts {
  import opened Base

  type Id = nat

  /** An order line as it appears in a command, in a table row and in an event payload. */
  datatype Item = Item(sku: string, name: string, quantity: int, unitPriceCents: int)

  datatype Address = Address(line1: string, line2: Option<string>, city: string, region: string,
                             postalCode: string, country: string)

  datatype OrderPayload = OrderPayload(orderId: Id, customerId: string, shippingAddress: Address, items: seq<Item>,
                                       totalCents: int, currency: string, placedAt: nat)

  datatype Location = Location(lat: real, lng: real, place: Option<string>)

  datatype StatusPayload = StatusPayload(shipmentId: Id, orderId: Id, previousStatus: string, currentStatus: string,
                                         changedAt: nat, location: Option<Location>)

  /** An event envelope. `eventId` is drawn once, when the envelope is built, and travels
      inside the stored payload from then on. */
  datatype Event =
    | OrderCreated(eventId: Id, order: OrderPayload)
    | StatusChanged(eventId: Id, change: StatusPayload)

  /** What `markProcessed` deduplicates on. */
  datatype MessageKey = MessageKey(consumerName: string, eventId: Id)

  /** An error object, by the two fields the program looks at. */
  datatype Failure = Failure(code: string, message: string)

  /** How a transaction ends for its caller: the committed tables, and the error it sees. When the answer of a commit
      that went through is lost, it sees an error and the tables have changed. */
  datatype Ended<+T> = Ended(tables: T, error: Option<Failure>)

  datatype ProcessResult = Processed | Duplicate | HandlerFailed(error: Failure)

  const PENDING := "PENDING"

  /** The values accepted by `shipmentStatusSchema`. */
  const SHIPMENT_STATUSES: set<string> :=
    {PENDING, "PICKED_UP", "IN_TRANSIT", "OUT_FOR_DELIVERY", "DELIVERED", "CANCELLED", "FAILED"}

  predicate KnownStatus(status: string) {
    status in SHIPMENT_STATUSES
  }

  predicate OnEarth(location: Location) {
    -90.0 <= location.lat <= 90.0 && -180.0 <= location.lng <= 180.0
  }

  /** What `shipmentStatusChangedPayloadSchema` checks beyond the types. */
  predicate ChangeAccepted(change: StatusPayload) {
    && KnownStatus(change.previousStatus) && KnownStatus(change.currentStatus)
    && (change.location.Some? ==> OnEarth(change.location.value))
  }
}
