/** The event-delivery protocol as one state machine: outboxes, any number of relays, broker queues, any
    number of concurrent consumer deliveries with their transactions, dead-letter queues and redrives.
    Every step is one atomic action of one participant; any of them can crash between two steps. */
module Protocol {
  import opened Base
  import opened Contracts
  import opened Outbox
  import RelayBatch
  import OrderStore
  import Tracking
  import TrackingService
  import N = Notifications
  import opened Consumer

  datatype Service = OrderService | TrackingServiceOutbox

  /** A message in a queue; the three queues are named after their consumers. */
  datatype Copy = Copy(queue: Subscription, msg: Message)

  /** The bindings of the topic exchange. */
  function Bound(e: Event): set<Subscription> {
    if e.OrderCreated? then {TrackingOrderCreated, NotifyOrderCreated} else {NotifyStatusChanged}
  }

  // ---------------------------------------------------------------- participants

  /** Where a relay stands with the first record of what is left of its batch. */
  datatype Stage = ToPublish | PublishConfirmed | Erred

  datatype RelayPass = RelayPass(service: Service, batch: seq<Record>, stage: Stage)

  /** Where a delivery stands: just delivered; in an open transaction that has inserted the processed key,
      has looked for a shipment, has inserted one, or has sent and recorded a notification; or
      with the transaction over and its result at hand. */
  datatype Phase =
    | Received
    | KeyInserted | SawNone | SawShipment | ShipmentInserted | NotificationSent
    | Finished(result: ProcessResult)

  datatype Flight = Flight(copy: Copy, phase: Phase)

  /** `dead`: taken from a dead-letter queue; otherwise from a queue that is redriven to itself. */
  datatype Redriving = Redriving(copy: Copy, sent: bool, dead: bool)

  /** `events` (every event ever built, by its id), `sends` (every provider call) and `acked` are history. */
  datatype State = State(
    orders: OrderStore.OrderDb,
    tracking: Tracking.TrackingDb,
    notifications: N.NotificationDb,
    relays: map<nat, RelayPass>,
    ready: multiset<Copy>,
    dead: multiset<Copy>,
    flights: map<nat, Flight>,
    redrives: map<nat, Redriving>,
    events: map<Id, Event>,
    sends: multiset<MessageKey>,
    acked: multiset<Copy>)

  const INITIAL :=
    State(OrderStore.EMPTY_DB, Tracking.EMPTY_DB, N.EMPTY_DB, map[], multiset{}, multiset{}, map[], map[],
                         map[], multiset{}, multiset{})

  function Policy(service: Service): CountingPolicy {
    if service.OrderService? then AtMark else AtClaim
  }

  function Rows(s: State, service: Service): seq<Row> {
    if service.OrderService? then s.orders.outbox else s.tracking.outbox
  }

  function WithRows(s: State, service: Service, rows: seq<Row>): State {
    if service.OrderService? then s.(orders := s.orders.(outbox := rows))
    else s.(tracking := s.tracking.(outbox := rows))
  }

  // ---------------------------------------------------------------- messages and effects

  function KeyOf(queue: Subscription, e: Event): MessageKey {
    if queue.TrackingOrderCreated? then MessageKey(TrackingService.TRACKING_CONSUMER, e.eventId)
    else N.KeyOf(N.InputOf(e))
  }

  function ProcessedKeys(s: State, queue: Subscription): set<MessageKey> {
    if queue.TrackingOrderCreated? then s.tracking.processed else s.notifications.processed
  }

  /** What the consumer of a queue is for. */
  predicate Effect(s: State, queue: Subscription, e: Event) {
    if queue.TrackingOrderCreated? then e.OrderCreated? && Tracking.HasShipment(s.tracking, e.order.orderId)
    else KeyOf(queue, e) in s.notifications.processed
  }

  /** A transaction is open and holds the row lock of its processed key. */
  predicate HoldsKey(f: Flight) {
    !f.phase.Received? && !f.phase.Finished?
  }

  function FlightKey(f: Flight): MessageKey
    requires f.copy.msg.Valid?
  {
    KeyOf(f.copy.queue, f.copy.msg.event)
  }

  predicate KeyLocked(s: State, key: MessageKey) {
    exists t :: t in s.flights && HoldsKey(s.flights[t]) && s.flights[t].copy.msg.Valid? &&
      FlightKey(s.flights[t]) == key
  }

  /** An uncommitted shipment row for the order exists. */
  predicate OrderLocked(s: State, orderId: Id) {
    exists t :: t in s.flights && s.flights[t].phase.ShipmentInserted?
      && s.flights[t].copy.msg.Valid? && s.flights[t].copy.msg.event.OrderCreated?
      && s.flights[t].copy.msg.event.order.orderId == orderId
  }

  predicate Accepted(f: Flight) {
    Accepts(f.copy.queue, f.copy.msg)
  }

  // ---------------------------------------------------------------- the steps

  datatype ProducerStep =
    | Command(command: OrderStore.Command, env: OrderStore.Environment)
    | UpdateShipment(update: Tracking.StatusUpdate)

  datatype RelayStep =
    | Claim(service: Service, limit: nat)
    | Publish(outcome: RelayBatch.PublishOutcome, reached: set<Subscription>)
    | MarkPublished(now: nat, applied: bool, threw: bool)
    | MarkError(maxAttempts: int, lastError: string, now: nat, applied: bool, threw: bool)
    | PassEnds

  datatype ConsumerStep =
    | Deliver(copy: Copy)
    | Refuse
    | InsertKey
    | FindShipment
    | InsertShipment
    | SendNotification
    | Commit(provider: string, now: nat, answer: ProcessResult)
    | Abort(error: Failure)
    | Settle(retryOnError: bool)
    | Crash

  datatype OperatorStep =
    | RedriveGet(d: nat, copy: Copy, dead: bool)
    | RedriveSend(d: nat)
    | RedriveAck(d: nat)
    | RedriveReturn(d: nat)
    | ForeignPublish(copy: Copy)

  /** A step of some producer, of relay pass `r`, of delivery `t`, or of an operator. */
  datatype Action =
    | Produce(producer: ProducerStep)
    | Relay(r: nat, relay: RelayStep)
    | Consume(t: nat, consumer: ConsumerStep)
    | Operate(operator: OperatorStep)

  predicate Enabled(s: State, a: Action) {
    match a
    case Produce(p) => ProducerEnabled(s, p)
    case Relay(r, x) => RelayEnabled(s, r, x)
    case Consume(t, x) => ConsumerEnabled(s, t, x)
    case Operate(o) => OperatorEnabled(s, o)
  }

  function Step(s: State, a: Action): State
    requires Enabled(s, a)
  {
    match a
    case Produce(p) => Produced(s, p)
    case Relay(r, x) => Relayed(s, r, x)
    case Consume(t, x) => Consumed(s, t, x)
    case Operate(o) => Operated(s, o)
  }

  // ---------------------------------------------------------------- producers

  /** The event a command or an update is about to store, if it succeeds. */
  function NewOrderEvent(s: State, c: OrderStore.Command, env: OrderStore.Environment): Option<Event> {
    if c.Create? && OrderStore.Execute(s.orders, c, env).Ok?
    then Some(OrderStore.BuildOrderCreatedMessage(OrderStore.Placed(c.props, env), c.eventId))
    else None
  }

  function NewStatusEvent(s: State, u: Tracking.StatusUpdate): Option<Event> {
    if Tracking.ChangesStatus(s.tracking, u) && Tracking.UpdateShipmentStatus(s.tracking, u).Ok?
    then Some(StatusChanged(u.eventId, Tracking.ChangedPayload(s.tracking.shipments[u.shipmentId], u)))
    else None
  }

  function Register(events: map<Id, Event>, e: Option<Event>): map<Id, Event> {
    if e.Some? then events[e.value.eventId := e.value] else events
  }

  /** Event ids are drawn fresh. */
  predicate ProducerEnabled(s: State, p: ProducerStep) {
    match p
    case Command(c, env) => OrderStore.Possible(s.orders, c) && (c.Create? ==> c.eventId !in s.events)
    case UpdateShipment(u) => u.eventId !in s.events
  }

  function Produced(s: State, p: ProducerStep): State {
    match p
    case Command(c, env) =>
      s.(orders := OrderStore.RunCommand(s.orders, c, env), events := Register(s.events, NewOrderEvent(s, c, env)))
    case UpdateShipment(u) =>
      s.(tracking := Tracking.RunOp(s.tracking, Tracking.Update(u)), events := Register(s.events, NewStatusEvent(s, u)))
  }

  // ---------------------------------------------------------------- relays

  predicate Working(s: State, r: nat, stage: Stage) {
    r in s.relays && s.relays[r].batch != [] && s.relays[r].stage == stage
      && s.relays[r].batch[0].id < |Rows(s, s.relays[r].service)|
  }

  /** A confirmed publish reaches every bound queue; one that failed may have reached any of them, unless
      it never left. A mark that throws may have been applied all the same. */
  predicate RelayEnabled(s: State, r: nat, x: RelayStep) {
    match x
    case Claim(service, limit) => r !in s.relays
    case Publish(outcome, reached) => Working(s, r, ToPublish)
      && var bound := Bound(s.relays[r].batch[0].event);
         reached <= bound && (outcome.Confirmed? ==> reached == bound) && (outcome.Rejected? ==> reached == {})
    case MarkPublished(now, applied, threw) => Working(s, r, PublishConfirmed) && (threw || applied)
    case MarkError(max, error, now, applied, threw) => Working(s, r, Erred) && (threw || applied)
    case PassEnds => r in s.relays
  }

  function Relayed(s: State, r: nat, x: RelayStep): State
    requires RelayEnabled(s, r, x)
  {
    match x
    case Claim(service, limit) =>
      var (rows, batch) := Outbox.Claim(Policy(service), Rows(s, service), limit);
      WithRows(s, service, rows).(relays := s.relays[r := RelayPass(service, batch, ToPublish)])
    case Publish(outcome, reached) =>
      s.(ready := s.ready + Copies(s.relays[r].batch[0].event, reached),
         relays := s.relays[r := s.relays[r].(stage := if outcome.Confirmed? then PublishConfirmed else Erred)])
    case MarkPublished(_, applied, threw) =>
      var pass := s.relays[r];
      Marked(s, pass, if applied then NewHead(s, pass, x) else HeadRow(s, pass))
        .(relays := if threw then s.relays[r := pass.(stage := Erred)] else NextRecord(s.relays, r))
    case MarkError(_, _, _, applied, threw) =>
      var pass := s.relays[r];
      Marked(s, pass, if applied then NewHead(s, pass, x) else HeadRow(s, pass))
        .(relays := if threw then s.relays - {r} else NextRecord(s.relays, r))
    case PassEnds => s.(relays := s.relays - {r})    // the batch is done, or the process is gone
  }

  /** What an enqueued publish adds to the queues. */
  function Copies(e: Event, reached: set<Subscription>): multiset<Copy> {
    (if TrackingOrderCreated in reached then multiset{Copy(TrackingOrderCreated, Valid(e))} else multiset{})
    + (if NotifyOrderCreated in reached then multiset{Copy(NotifyOrderCreated, Valid(e))} else multiset{})
    + (if NotifyStatusChanged in reached then multiset{Copy(NotifyStatusChanged, Valid(e))} else multiset{})
  }

  function HeadRow(s: State, pass: RelayPass): Row
    requires pass.batch != [] && pass.batch[0].id < |Rows(s, pass.service)|
  {
    Rows(s, pass.service)[pass.batch[0].id]
  }

  /** What a mark makes of the row. */
  function NewHead(s: State, pass: RelayPass, x: RelayStep): Row
    requires pass.batch != [] && pass.batch[0].id < |Rows(s, pass.service)| && (x.MarkPublished? || x.MarkError?)
  {
    var policy, row := Policy(pass.service), HeadRow(s, pass);
    match x
    case MarkPublished(now, _, _) => PublishedRow(policy, row, now)
    case MarkError(max, error, now, _, _) =>
      if RelayBatch.LastAttempt(max, pass.batch[0]) then DeadRow(policy, row, error, now)
      else FailedRow(policy, row, error)
  }

  function Marked(s: State, pass: RelayPass, row: Row): State
    requires pass.batch != [] && pass.batch[0].id < |Rows(s, pass.service)|
  {
    WithRows(s, pass.service, Rows(s, pass.service)[pass.batch[0].id := row])
  }

  function NextRecord(relays: map<nat, RelayPass>, r: nat): map<nat, RelayPass>
    requires r in relays && relays[r].batch != []
  {
    relays[r := relays[r].(batch := relays[r].batch[1..], stage := ToPublish)]
  }

  // ---------------------------------------------------------------- consumers

  predicate InPhase(s: State, t: nat, phase: Phase) {
    t in s.flights && s.flights[t].phase == phase && Accepted(s.flights[t])
  }

  predicate ReadyToCommit(s: State, t: nat) {
    if t in s.flights && s.flights[t].copy.queue.TrackingOrderCreated?
    then InPhase(s, t, SawShipment) || InPhase(s, t, ShipmentInserted)
    else InPhase(s, t, NotificationSent)
  }

  /** An insert that would violate a unique key waits while the other row is uncommitted. */
  predicate ConsumerEnabled(s: State, t: nat, x: ConsumerStep) {
    match x
    case Deliver(copy) => t !in s.flights && copy in s.ready
    case Refuse => t in s.flights && s.flights[t].phase.Received? && !Accepted(s.flights[t])
    case InsertKey => InPhase(s, t, Received)
      && (FlightKey(s.flights[t]) in ProcessedKeys(s, s.flights[t].copy.queue) ||
        !KeyLocked(s, FlightKey(s.flights[t])))
    case FindShipment => InPhase(s, t, KeyInserted) && s.flights[t].copy.queue.TrackingOrderCreated?
    case InsertShipment => InPhase(s, t, SawNone) && s.flights[t].copy.queue.TrackingOrderCreated?
      && (Tracking.HasShipment(s.tracking, s.flights[t].copy.msg.event.order.orderId)
          || !OrderLocked(s, s.flights[t].copy.msg.event.order.orderId))
    case SendNotification => InPhase(s, t, KeyInserted) && !s.flights[t].copy.queue.TrackingOrderCreated?
    case Commit(_, _, _) => ReadyToCommit(s, t)
    case Abort(_) => t in s.flights && Accepted(s.flights[t]) && !s.flights[t].phase.Finished?
    case Settle(_) => t in s.flights && s.flights[t].phase.Finished?
    case Crash => t in s.flights
  }

  function Consumed(s: State, t: nat, x: ConsumerStep): State
    requires ConsumerEnabled(s, t, x)
  {
    match x
    case Deliver(copy) => s.(ready := s.ready - multiset{copy}, flights := s.flights[t := Flight(copy, Received)])
    case Refuse => s.(dead := s.dead + multiset{s.flights[t].copy}, flights := s.flights - {t})
    case Settle(retry) =>
      var f := s.flights[t];
      var settled := s.(flights := s.flights - {t});
      if !f.phase.result.HandlerFailed? then settled.(acked := s.acked + multiset{f.copy})
      else if retry then settled.(ready := s.ready + multiset{f.copy})
      else settled.(dead := s.dead + multiset{f.copy})
    case Crash => s.(ready := s.ready + multiset{s.flights[t].copy}, flights := s.flights - {t})
    case SendNotification =>
      Advance(s, t, NextPhase(s, s.flights[t], x)).(sends := s.sends + multiset{FlightKey(s.flights[t])})
    case Commit(provider, now, _) =>
      Advance(Committed(s, s.flights[t].copy, provider, now), t, NextPhase(s, s.flights[t], x))
    case _ => Advance(s, t, NextPhase(s, s.flights[t], x))
  }

  /** The phase a delivery goes to by a step within its transaction. */
  function NextPhase(s: State, f: Flight, x: ConsumerStep): Phase
    requires Accepted(f)
    requires x.FindShipment? || x.InsertShipment? ==> f.copy.queue.TrackingOrderCreated?
  {
    match x
    case InsertKey => if FlightKey(f) in ProcessedKeys(s, f.copy.queue) then Finished(Duplicate) else KeyInserted
    case FindShipment =>
      if Tracking.HasShipment(s.tracking, f.copy.msg.event.order.orderId) then SawShipment else SawNone
    case InsertShipment =>
      if Tracking.HasShipment(s.tracking, f.copy.msg.event.order.orderId) then Finished(Duplicate) else ShipmentInserted
    case SendNotification => NotificationSent
    case Commit(_, _, answer) => Finished(answer)    // an error, if the answer of the commit was lost
    case Abort(error) => Finished(HandlerFailed(error))
    case _ => f.phase
  }

  function Advance(s: State, t: nat, phase: Phase): State
    requires t in s.flights
  {
    s.(flights := s.flights[t := s.flights[t].(phase := phase)])
  }

  /** The commit of a consumer transaction: the processed key with the handler's rows. */
  function Committed(s: State, copy: Copy, provider: string, now: nat): State
    requires Accepts(copy.queue, copy.msg)
  {
    var e := copy.msg.event;
    var key := KeyOf(copy.queue, e);
    if copy.queue.TrackingOrderCreated? then
      s.(tracking := Tracking.CreatePendingShipment(Tracking.WithKey(s.tracking, key), e.order.orderId,
        e.order.placedAt))
    else
      s.(notifications := N.NotificationDb(s.notifications.processed + {key},
           s.notifications.deliveries + [N.Delivery(N.InputOf(e), N.SENT, provider, Some(now))]))
  }

  // ---------------------------------------------------------------- operators and strangers

  /** Foreign publishers cannot forge the id of another event. */
  predicate Unforged(s: State, msg: Message) {
    msg.Malformed? || msg.event.eventId !in s.events || s.events[msg.event.eventId] == msg.event
  }

  predicate OperatorEnabled(s: State, o: OperatorStep) {
    match o
    case RedriveGet(d, copy, dead) => d !in s.redrives && copy in if dead then s.dead else s.ready
    case RedriveSend(d) => d in s.redrives && !s.redrives[d].sent
    case RedriveAck(d) => d in s.redrives && s.redrives[d].sent
    case RedriveReturn(d) => d in s.redrives
    case ForeignPublish(copy) => Unforged(s, copy.msg)
  }

  function Operated(s: State, o: OperatorStep): State
    requires OperatorEnabled(s, o)
  {
    match o
    case RedriveGet(d, copy, dead) =>
      var taken := s.(redrives := s.redrives[d := Redriving(copy, false, dead)]);
      if dead then taken.(dead := s.dead - multiset{copy}) else taken.(ready := s.ready - multiset{copy})
    case RedriveSend(d) =>
      s.(ready := s.ready + multiset{s.redrives[d].copy}, redrives := s.redrives[d := s.redrives[d].(sent := true)])
    case RedriveAck(d) => s.(redrives := s.redrives - {d})
    case RedriveReturn(d) =>
      var back := s.(redrives := s.redrives - {d});
      if s.redrives[d].dead then back.(dead := s.dead + multiset{s.redrives[d].copy})
      else back.(ready := s.ready + multiset{s.redrives[d].copy})
    case ForeignPublish(copy) =>
      s.(ready := s.ready + multiset{copy},
         events := Register(s.events, if copy.msg.Valid? then Some(copy.msg.event) else None))
  }

  // ---------------------------------------------------------------- runs

  function Run(s: State, actions: seq<Action>): State
    decreases |actions|
  {
    if actions == [] then s else Run(if Enabled(s, actions[0]) then Step(s, actions[0]) else s, actions[1..])
  }

  ghost predicate Reachable(s: State) {
    exists actions :: Run(INITIAL, actions) == s
  }
}
