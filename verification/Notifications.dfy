/** The notification service's tables, its dispatch and its `markProcessed`, as one transaction. */
module Notifications {
  import opened Base
  import opened Contracts

  const PENDING_DELIVERY := "PENDING"
  const SENT := "SENT"
  const FAILED := "FAILED"

  /** Recipient and content strings, kept as the values they are built from. */
  datatype Recipient = Customer(customerId: string) | OrderOf(orderId: Id)

  datatype Content =
    | OrderCreatedText(orderId: Id, itemCount: nat, totalCents: int, currency: string)
    | StatusChangedText(shipmentId: Id, status: string)

  datatype Channel = Email | Sms

  datatype EventType = OrderCreatedType | StatusChangedType

  datatype DispatchInput = DispatchInput(eventId: Id, eventType: EventType, channel: Channel, recipient: Recipient,
                                         content: Content)

  datatype Delivery = Delivery(input: DispatchInput, status: string, provider: string, sentAt: Option<nat>)

  datatype NotificationDb = NotificationDb(processed: set<MessageKey>, deliveries: seq<Delivery>)

  const EMPTY_DB := NotificationDb({}, [])

  const ORDER_CREATED_CONSUMER := "notification-service.order-created"
  const STATUS_CHANGED_CONSUMER := "notification-service.shipment-status-changed"

  function ConsumerName(t: EventType): string {
    if t.OrderCreatedType? then ORDER_CREATED_CONSUMER else STATUS_CHANGED_CONSUMER
  }

  /** What the two consumers pass to `dispatch`. */
  function InputOf(event: Event): (input: DispatchInput)
    ensures input.eventId == event.eventId
    ensures input.eventType.OrderCreatedType? <==> event.OrderCreated?
  {
    match event
    case OrderCreated(id, order) =>
      DispatchInput(id, OrderCreatedType, Email, Customer(order.customerId),
                    OrderCreatedText(order.orderId, |order.items|, order.totalCents, order.currency))
    case StatusChanged(id, change) =>
      DispatchInput(id, StatusChangedType, Sms, OrderOf(change.orderId),
        StatusChangedText(change.shipmentId, change.currentStatus))
  }

  function KeyOf(input: DispatchInput): MessageKey {
    MessageKey(ConsumerName(input.eventType), input.eventId)
  }

  /** A commit that is refused rolls back; one whose answer is lost went through although it throws. */
  datatype CommitAnswer = CommitDone | CommitRefused(error: Failure) | CommitAnswerLost(error: Failure)

  /** The answers one delivery meets: the key insert, the row insert, the provider, the two possible
      status updates, and the commit. */
  datatype Answers = Answers(insertKey: Option<Failure>, create: Option<Failure>, send: Option<Failure>,
                             markSent: Option<Failure>, markFailed: Option<Failure>, commit: CommitAnswer,
                             provider: string, now: nat)

  const DUPLICATE_MESSAGE := "DUPLICATE_MESSAGE"
  const ALREADY_PROCESSED := Failure("", DUPLICATE_MESSAGE)

  /** `dispatch`: the tables as the transaction then sees them, and the error if it throws. The update to
      SENT is returned without being awaited, so when it throws the row is not set to FAILED. */
  function DispatchOutcome(deliveries: seq<Delivery>, input: DispatchInput, a: Answers): (seq<Delivery>,
          Option<Failure>) {
    if a.create.Some? then (deliveries, a.create)
    else
      var row := Delivery(input, PENDING_DELIVERY, a.provider, None);
      if a.send.Some? then
        if a.markFailed.Some? then (deliveries + [row], a.markFailed)
        else (deliveries + [row.(status := FAILED)], a.send)
      else if a.markSent.Some? then (deliveries + [row], a.markSent)
      else (deliveries + [row.(status := SENT, sentAt := Some(a.now))], None)
  }

  /** How often `dispatch` calls the provider. */
  function SendsOf(a: Answers): nat {
    if a.create.Some? then 0 else 1
  }

  /** What the transaction of `markProcessed` ends with. */
  function TransactionOutcome(db: NotificationDb, input: DispatchInput, a: Answers): Ended<NotificationDb> {
    if a.insertKey.Some? then Ended(db, a.insertKey)
    else if KeyOf(input) in db.processed then Ended(db, Some(ALREADY_PROCESSED))
    else
      var (deliveries, error) := DispatchOutcome(db.deliveries, input, a);
      if error.Some? then Ended(db, error)
      else if a.commit.CommitRefused? then Ended(db, Some(a.commit.error))
      else Ended(NotificationDb(db.processed + {KeyOf(input)}, deliveries), CommitError(a.commit))
  }

  function CommitError(commit: CommitAnswer): Option<Failure> {
    if commit.CommitDone? then None else Some(commit.error)
  }

  function ResultOf(error: Option<Failure>): ProcessResult {
    if error.None? then Processed
    else if error.value.message == DUPLICATE_MESSAGE then Duplicate
    else HandlerFailed(error.value)
  }

  /** What `dispatch` leaves for the transaction to see: nothing, or one row more. It is SENT with a time
      exactly when nothing threw, FAILED exactly when the provider threw and that could be
      written, and otherwise still PENDING. */
  lemma {:induction false} DispatchLeaves(deliveries: seq<Delivery>, input: DispatchInput, a: Answers)
    ensures var (rows, error) := DispatchOutcome(deliveries, input, a);
      if a.create.Some? then rows == deliveries && error == a.create
      else
        && |rows| == |deliveries| + 1 && rows[..|deliveries|] == deliveries
        && var row := rows[|deliveries|];
           && row.input == input && row.provider == a.provider
           && (row.status == "SENT" <==> error.None?)
           && (row.status == "FAILED" <==> a.send.Some? && a.markFailed.None?)
           && (row.status == "PENDING" <==>
             (a.send.Some? && a.markFailed.Some?) || (a.send.None? && a.markSent.Some?))
           && row.sentAt == (if row.status == "SENT" then Some(a.now) else None)
           && (error.None? <==> a.send.None? && a.markSent.None?)
  {
  }

  /** The transaction of a new key that nothing rolls back adds exactly the key and one SENT row with a sending time,
      after exactly one call of the provider, whether or not its commit is answered; any other changes nothing.
      `processed` is answered for such a transaction only. */
  lemma {:induction false} CommitAddsOneSentRow(db: NotificationDb, input: DispatchInput, a: Answers)
    ensures var outcome := TransactionOutcome(db, input, a);
      && (if KeyOf(input) !in db.processed && RollbackError(a).None? then
            && outcome.tables.processed == db.processed + {KeyOf(input)}
            && outcome.tables.deliveries == db.deliveries + [Delivery(input, "SENT", a.provider, Some(a.now))]
            && a.send.None? && SendsOf(a) == 1
          else outcome.tables == db)
      && (KeyOf(input) !in db.processed && RollbackError(a).Some? ==> outcome.error == RollbackError(a))
      && (ResultOf(outcome.error).Processed? ==> KeyOf(input) !in db.processed && RollbackError(a).None?)
      && (ResultOf(outcome.error).HandlerFailed? ==> outcome.error == Some(ResultOf(outcome.error).error))
  {
    DispatchLeaves(db.deliveries, input, a);
  }

  /** The error that rolls the transaction of a new key back: of the FAILED update if it throws after the provider
      did, otherwise of the first call that throws. */
  function RollbackError(a: Answers): Option<Failure> {
    if a.insertKey.Some? then a.insertKey
    else if a.create.Some? then a.create
    else if a.send.Some? then (if a.markFailed.Some? then a.markFailed else a.send)
    else if a.markSent.Some? then a.markSent
    else if a.commit.CommitRefused? then Some(a.commit.error)
    else None
  }

  /** Some error other than the store's own sentinel carries the sentinel's text. */
  predicate ForgedSentinel(db: NotificationDb, input: DispatchInput, a: Answers) {
    KeyOf(input) !in db.processed && RollbackError(a).Some? && RollbackError(a).value.message == DUPLICATE_MESSAGE
  }

  predicate Acked(result: ProcessResult) {
    result.Processed? || result.Duplicate?
  }

  /** Ack soundness, exactly: an acked delivery leaves its key in the table, unless an error
      message forges the text by which the store recognises duplicates. */
  lemma {:induction false} AckedIffProcessed(db: NotificationDb, input: DispatchInput, a: Answers)
    ensures var outcome := TransactionOutcome(db, input, a);
      (Acked(ResultOf(outcome.error)) ==> KeyOf(input) in outcome.tables.processed) <==> !ForgedSentinel(db, input, a)
  {
  }

  /** It can happen: a provider that throws that text loses the notification although it was acked. */
  lemma {:induction false} ForgedSentinelLosesNotification(input: DispatchInput)
    ensures var a := Answers(None, None, Some(Failure("", DUPLICATE_MESSAGE)), None, None, CommitDone, "", 0);
      var outcome := TransactionOutcome(EMPTY_DB, input, a);
      ResultOf(outcome.error) == Duplicate && outcome.tables == EMPTY_DB
  {
  }

  // ---------------------------------------------------------------- keys and rows correspond

  predicate SentRow(d: Delivery) {
    d.status == SENT && d.sentAt.Some?
  }

  /** Processed keys and delivery rows correspond one to one, and every row is SENT with its time. */
  ghost predicate NotificationOk(db: NotificationDb) {
    && (forall i :: 0 <= i < |db.deliveries| ==>
      SentRow(db.deliveries[i]) && KeyOf(db.deliveries[i].input) in db.processed)
    && (forall i, j :: 0 <= i < j < |db.deliveries| ==> KeyOf(db.deliveries[i].input) != KeyOf(db.deliveries[j].input))
    && (forall key :: key in db.processed ==> HasRow(db, key))
    && |db.processed| == |db.deliveries|
  }

  ghost predicate HasRow(db: NotificationDb, key: MessageKey) {
    exists i :: 0 <= i < |db.deliveries| && KeyOf(db.deliveries[i].input) == key
  }

  /** Committing a key with its row keeps the correspondence. */
  lemma {:induction false} CommitKeepsOk(db: NotificationDb, d: Delivery)
    requires NotificationOk(db) && SentRow(d) && KeyOf(d.input) !in db.processed
    ensures NotificationOk(NotificationDb(db.processed + {KeyOf(d.input)}, db.deliveries + [d]))
  {
    var after := NotificationDb(db.processed + {KeyOf(d.input)}, db.deliveries + [d]);
    forall key | key in after.processed
      ensures HasRow(after, key)
    {
      if key in db.processed {
        assert HasRow(db, key);
        var i :| 0 <= i < |db.deliveries| && KeyOf(db.deliveries[i].input) == key;
        assert after.deliveries[i] == db.deliveries[i];
      } else {
        assert after.deliveries[|db.deliveries|] == d;
      }
    }
  }

  /** One delivery attempt of some message. */
  datatype Attempt = Attempt(event: Event, answers: Answers)

  /** The committed tables, and every provider call made so far, also those whose rows were rolled back. */
  datatype History = History(db: NotificationDb, sends: seq<MessageKey>)

  function Step(h: History, t: Attempt): History {
    var input := InputOf(t.event);
    var outcome := TransactionOutcome(h.db, input, t.answers);
    var reached := t.answers.insertKey.None? && KeyOf(input) !in h.db.processed;
    History(outcome.tables,
            h.sends + (if reached && SendsOf(t.answers) == 1 then [KeyOf(input)] else []))
  }

  /** The provider is called exactly once by an attempt whose key is new and whose key and row were inserted, and not by
      any other: also when the transaction is rolled back behind the call. */
  lemma {:induction false} ProviderCalledIff(h: History, t: Attempt)
    ensures var key, a := KeyOf(InputOf(t.event)), t.answers;
      Step(h, t).sends
        == h.sends + if key !in h.db.processed && a.insertKey.None? && a.create.None? then [key] else []
  {
  }

  function Run(h: History, attempts: seq<Attempt>): History
    decreases |attempts|
  {
    if attempts == [] then h else Run(Step(h, attempts[0]), attempts[1..])
  }

  ghost predicate HistoryOk(h: History) {
    && NotificationOk(h.db)
    && (forall key :: key in h.db.processed ==> key in h.sends)
  }

  /** The correspondence holds in every committed state, and every row was sent at least once. */
  lemma {:induction false} NotificationBijection(h: History, attempts: seq<Attempt>)
    requires HistoryOk(h)
    ensures HistoryOk(Run(h, attempts))
    decreases |attempts|
  {
    if attempts != [] {
      var input := InputOf(attempts[0].event);
      var a := attempts[0].answers;
      var next := Step(h, attempts[0]);
      CommitAddsOneSentRow(h.db, input, a);
      if KeyOf(input) !in h.db.processed && RollbackError(a).None? {
        CommitKeepsOk(h.db, Delivery(input, SENT, a.provider, Some(a.now)));
      }
      forall key | key in next.db.processed ensures key in next.sends {
        if key in h.db.processed {
          assert key in h.sends;
        } else {
          assert next.sends[|h.sends|] == key;
        }
      }
      NotificationBijection(next, attempts[1..]);
    }
  }

  // ---------------------------------------------------------------- the classes

  /** `PrismaService`: the committed tables, and the ambient transaction that `client` prefers. */
  class PrismaService {
    var committed: NotificationDb
    var transactionContext: Option<NotificationDb>

    constructor ()
      ensures committed == EMPTY_DB && transactionContext == None
    {
      committed, transactionContext := EMPTY_DB, None;
    }

    function Client(): NotificationDb
      reads this
    {
      if transactionContext.Some? then transactionContext.value else committed
    }

    /** A statement through `client`. */
    method Execute(db: NotificationDb)
      modifies this
      ensures Client() == db && transactionContext.Some? == old(transactionContext).Some?
      ensures old(transactionContext).Some? ==> committed == old(committed)
    {
      if transactionContext.Some? {
        transactionContext := Some(db);
      } else {
        committed := db;
      }
    }
  }

  class NotificationDispatchService {
    const prisma: PrismaService
    var sends: seq<MessageKey>    // the calls of the provider

    constructor (prisma: PrismaService)
      ensures this.prisma == prisma && sends == []
    {
      this.prisma, sends := prisma, [];
    }

    method Dispatch(input: DispatchInput, a: Answers) returns (error: Option<Failure>)
      requires prisma.transactionContext.Some?
      modifies this, prisma
      ensures prisma.transactionContext.Some? && prisma.committed == old(prisma.committed)
      ensures (prisma.Client().deliveries, error) == DispatchOutcome(old(prisma.Client().deliveries), input, a)
      ensures prisma.Client().processed == old(prisma.Client().processed)
      ensures sends == old(sends) + if SendsOf(a) == 1 then [KeyOf(input)] else []
    {
      if a.create.Some? {
        return a.create;
      }
      var db := prisma.Client();
      var id := |db.deliveries|;
      prisma.Execute(db.(deliveries := db.deliveries + [Delivery(input, PENDING_DELIVERY, a.provider, None)]));
      sends := sends + [KeyOf(input)];
      if a.send.Some? {
        if a.markFailed.Some? {
          return a.markFailed;
        }
        UpdateStatus(id, FAILED, None);
        assert prisma.Client().deliveries == db.deliveries + [Delivery(input, FAILED, a.provider, None)];
        return a.send;
      }
      if a.markSent.Some? {
        return a.markSent;
      }
      UpdateStatus(id, SENT, Some(a.now));
      assert prisma.Client().deliveries == db.deliveries + [Delivery(input, SENT, a.provider, Some(a.now))];
      error := None;
    }

    method UpdateStatus(id: nat, status: string, sentAt: Option<nat>)
      requires prisma.transactionContext.Some? && id < |prisma.Client().deliveries|
      modifies prisma
      ensures prisma.transactionContext.Some? && prisma.committed == old(prisma.committed)
      ensures prisma.Client() == old(prisma.Client()).(deliveries := old(prisma.Client()).deliveries[id :=
        old(prisma.Client()).deliveries[id].(status := status, sentAt := sentAt)])
    {
      var db := prisma.Client();
      prisma.Execute(db.(deliveries := db.deliveries[id := db.deliveries[id].(status := status, sentAt := sentAt)]));
    }
  }

  class PrismaProcessedMessageStore {
    const prisma: PrismaService
    const dispatchService: NotificationDispatchService

    constructor (dispatchService: NotificationDispatchService)
      ensures this.dispatchService == dispatchService && prisma == dispatchService.prisma
    {
      this.dispatchService, this.prisma := dispatchService, dispatchService.prisma;
    }

    /** `markProcessed` with the handler of the two notification consumers. */
    method MarkProcessed(event: Event, a: Answers) returns (result: ProcessResult)
      requires prisma == dispatchService.prisma && prisma.transactionContext.None?
      modifies prisma, dispatchService
      ensures prisma.transactionContext.None?
      ensures result == ResultOf(TransactionOutcome(old(prisma.committed), InputOf(event), a).error)
      ensures History(prisma.committed, dispatchService.sends)
        == Step(History(old(prisma.committed), old(dispatchService.sends)), Attempt(event, a))
    {
      var input := InputOf(event);
      prisma.transactionContext := Some(prisma.committed);
      var error := TransactionBody(input, a);
      if error.None? {
        if !a.commit.CommitRefused? {
          prisma.committed := prisma.Client();
        }
        error := CommitError(a.commit);
      }
      prisma.transactionContext := None;
      result := if error.None? then Processed
                else if error.value.message == DUPLICATE_MESSAGE then Duplicate
                else HandlerFailed(error.value);
    }

    /** INSERT ... ON CONFLICT DO NOTHING, then the handler. */
    method TransactionBody(input: DispatchInput, a: Answers) returns (error: Option<Failure>)
      requires prisma == dispatchService.prisma && prisma.transactionContext == Some(prisma.committed)
      modifies prisma, dispatchService
      ensures prisma.transactionContext.Some? && prisma.committed == old(prisma.committed)
      ensures var before := old(prisma.committed); var key := KeyOf(input);
        && (error == if a.insertKey.Some? then a.insertKey
                     else if key in before.processed then Some(ALREADY_PROCESSED)
                     else DispatchOutcome(before.deliveries, input, a).1)
        && (error.None? ==>
          prisma.Client() == NotificationDb(before.processed + {key}, DispatchOutcome(before.deliveries, input, a).0))
        && dispatchService.sends == old(dispatchService.sends)
             + if a.insertKey.None? && key !in before.processed && SendsOf(a) == 1 then [key] else []
    {
      if a.insertKey.Some? {
        return a.insertKey;
      }
      var db := prisma.Client();
      if KeyOf(input) in db.processed {
        return Some(ALREADY_PROCESSED);
      }
      prisma.Execute(db.(processed := db.processed + {KeyOf(input)}));
      error := dispatchService.Dispatch(input, a);
    }
  }
}
