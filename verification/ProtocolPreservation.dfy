/** Every step keeps the invariant, part by part. */
module ProtocolPreservation {
  import opened Base
  import opened Contracts
  import opened Outbox
  import OrderStore
  import Tracking
  import TrackingService
  import N = Notifications
  import opened Consumer
  import opened Protocol
  import opened ProtocolRows
  import opened ProtocolInvariant

  // ---------------------------------------------------------------- events

  lemma {:induction false} RowsStayKnown(s: State, a: Action, service: Service, i: nat)
    requires Enabled(s, a) && EventsOk(s) && i < |Rows(Step(s, a), service)|
    ensures Known(Step(s, a), Rows(Step(s, a), service)[i].event)
  {
    hide Step, Enabled, OrderStore.Execute, Tracking.UpdateShipmentStatus, Tracking.ChangesStatus;
    StepGrows(s, a);
    StepRowCount(s, a, service);
    if i < |Rows(s, service)| {
      StepRow(s, a, service, i);
      assert Known(s, Rows(s, service)[i].event);
    } else {
      AppendedKnown(s, a, service);
      assert Appended(s, a, service)[i - |Rows(s, service)|] == Rows(Step(s, a), service)[i];
    }
  }

  /** An appended row carries the event just registered, and is unpublished. */
  lemma {:induction false} AppendedKnown(s: State, a: Action, service: Service)
    requires Enabled(s, a)
    ensures forall k :: 0 <= k < |Appended(s, a, service)| ==>
      Known(Step(s, a), Appended(s, a, service)[k].event) && Appended(s, a, service)[k].publishedAt.None?
  {
    hide Enabled, Relayed, Consumed, Operated, NewOrderEvent, NewStatusEvent, OrderStore.RunCommand, Tracking.RunOp;
  }

  lemma {:induction false} CopiesOf(e: Event, reached: set<Subscription>, c: Copy)
    ensures c in Copies(e, reached) <==> c.queue in reached && c.msg == Valid(e)
    ensures Copies(e, reached)[c] <= 1
  {
    var t := if TrackingOrderCreated in reached then multiset{Copy(TrackingOrderCreated, Valid(e))} else multiset{};
    var o := if NotifyOrderCreated in reached then multiset{Copy(NotifyOrderCreated, Valid(e))} else multiset{};
    var u := if NotifyStatusChanged in reached then multiset{Copy(NotifyStatusChanged, Valid(e))} else multiset{};
    assert Copies(e, reached) == t + o + u;
    assert c in t <==> c.queue.TrackingOrderCreated? && c.queue in reached && c.msg == Valid(e);
    assert c in o <==> c.queue.NotifyOrderCreated? && c.queue in reached && c.msg == Valid(e);
    assert c in u <==> c.queue.NotifyStatusChanged? && c.queue in reached && c.msg == Valid(e);
  }

  /** Where the messages in the queues of the next state come from, by participant. */
  lemma {:induction false} RelayQueues(s: State, r: nat, x: RelayStep, c: Copy)
    requires RelayEnabled(s, r, x) && (c in Relayed(s, r, x).ready || c in Relayed(s, r, x).dead)
    ensures c in s.ready || c in s.dead || (x.Publish? && c in Copies(s.relays[r].batch[0].event, x.reached))
  {
    hide Outbox.Claim, Copies, NewHead, HeadRow, NextRecord, Bound, Rows;
  }

  lemma {:induction false} ConsumerQueues(s: State, t: nat, x: ConsumerStep, c: Copy)
    requires ConsumerEnabled(s, t, x) && (c in Consumed(s, t, x).ready || c in Consumed(s, t, x).dead)
    ensures c in s.ready || c in s.dead || (t in s.flights && s.flights[t].copy == c)
  {
    hide ConsumerEnabled, Consumed;
    if x.Commit? {
      CommitQueues(s, t, x);
    } else {
      MessageMoves(s, t, x, c);
    }
  }

  lemma {:induction false} CommitQueues(s: State, t: nat, x: ConsumerStep)
    requires ConsumerEnabled(s, t, x) && x.Commit?
    ensures var n := Consumed(s, t, x); n.ready == s.ready && n.dead == s.dead && n.acked == s.acked
  {
    hide ConsumerEnabled, NextPhase, FlightKey, Accepts, Committed, HoldsKey;
    CommitTables(s, t, x);
    CommittedKeeps(s, s.flights[t].copy, x.provider, x.now);
  }

  lemma {:induction false} MessageMoves(s: State, t: nat, x: ConsumerStep, c: Copy)
    requires ConsumerEnabled(s, t, x) && !x.Commit? && (c in Consumed(s, t, x).ready || c in Consumed(s, t, x).dead)
    ensures c in s.ready || c in s.dead || (t in s.flights && s.flights[t].copy == c)
  {
    hide ConsumerEnabled, NextPhase, FlightKey, Accepts, Committed;
    if !x.Deliver? {
      OnlyDeliveriesStart(s, t, x);
    }
  }

  lemma {:induction false} OperatorQueues(s: State, o: OperatorStep, c: Copy)
    requires OperatorEnabled(s, o) && (c in Operated(s, o).ready || c in Operated(s, o).dead)
    ensures || c in s.ready || c in s.dead
            || (o.ForeignPublish? && o.copy == c)
            || ((o.RedriveSend? || o.RedriveReturn?) && o.d in s.redrives && s.redrives[o.d].copy == c)
  {
    hide Unforged;
  }

  lemma {:induction false} OperatorRedrive(s: State, o: OperatorStep, d: nat)
    requires OperatorEnabled(s, o) && d in Operated(s, o).redrives
    ensures var c := Operated(s, o).redrives[d].copy;
      (d in s.redrives && s.redrives[d].copy == c) || (o.RedriveGet? && o.copy == c && (c in s.dead || c in s.ready))
  {
    hide Unforged;
  }

  lemma {:induction false} PublishedKnown(s: State, r: nat, x: RelayStep, c: Copy)
    requires x.Publish? && RelayEnabled(s, r, x) && EventsOk(s) && RelaysOk(s)
    requires c in Copies(s.relays[r].batch[0].event, x.reached)
    ensures CopyKnown(s, c)
  {
    var pass := s.relays[r];
    assert RecordOk(s, pass.service, pass.batch[0]);
    assert Known(s, Rows(s, pass.service)[pass.batch[0].id].event);
    CopiesOf(pass.batch[0].event, x.reached, c);
  }

  lemma {:induction false} ForeignKnown(s: State, o: OperatorStep)
    requires o.ForeignPublish? && OperatorEnabled(s, o)
    ensures CopyKnown(Operated(s, o), o.copy)
  {
  }

  lemma {:induction false} QueuesStayKnown(s: State, a: Action, c: Copy)
    requires Enabled(s, a) && EventsOk(s) && RelaysOk(s)
    requires c in Step(s, a).ready || c in Step(s, a).dead
    ensures CopyKnown(Step(s, a), c)
  {
    hide Produced, Relayed, Consumed, Operated, ProducerEnabled, RelayEnabled, ConsumerEnabled, OperatorEnabled,
      CopyKnown,
      RelaysOk, Copies;
    StepGrows(s, a);
    match a {
      case Produce(p) => ProducerKeeps(s, p);
      case Relay(r, x) =>
        RelayQueues(s, r, x, c);
        if c !in s.ready && c !in s.dead {
          PublishedKnown(s, r, x, c);
        }
      case Consume(t, x) => ConsumerQueues(s, t, x, c);
      case Operate(o) =>
        OperatorQueues(s, o, c);
        if o.ForeignPublish? && o.copy == c {
          ForeignKnown(s, o);
        }
    }
    if CopyKnown(s, c) {
      KnownStays(s, Step(s, a), c);
    }
  }

  lemma {:induction false} FlightsStayKnown(s: State, a: Action, t: nat)
    requires Enabled(s, a) && EventsOk(s) && t in Step(s, a).flights
    ensures CopyKnown(Step(s, a), Step(s, a).flights[t].copy)
  {
    hide Produced, Relayed, Consumed, Operated, ProducerEnabled, RelayEnabled, ConsumerEnabled, OperatorEnabled,
      CopyKnown, NextPhase;
    StepGrows(s, a);
    match a {
      case Produce(p) => ProducerKeeps(s, p);
      case Relay(r, x) => RelayKeeps(s, r, x);
      case Consume(u, x) =>
        if u == t {
          OwnCopy(s, t, x);
        } else {
          FlightElsewhere(s, u, x, t);
        }
      case Operate(o) => OperatorKeeps(s, o);
    }
    KnownStays(s, Step(s, a), Step(s, a).flights[t].copy);
  }

  lemma {:induction false} RedrivesStayKnown(s: State, a: Action, d: nat)
    requires Enabled(s, a) && EventsOk(s) && d in Step(s, a).redrives
    ensures CopyKnown(Step(s, a), Step(s, a).redrives[d].copy)
  {
    hide Produced, Relayed, Consumed, Operated, ProducerEnabled, RelayEnabled, ConsumerEnabled, OperatorEnabled,
      CopyKnown;
    StepGrows(s, a);
    match a {
      case Produce(p) => ProducerKeeps(s, p);
      case Relay(r, x) => RelayKeeps(s, r, x);
      case Consume(u, x) => ConsumerKeeps(s, u, x);
      case Operate(o) => OperatorRedrive(s, o, d);
    }
    KnownStays(s, Step(s, a), Step(s, a).redrives[d].copy);
  }

  lemma {:induction false} NewlyAcked(s: State, a: Action, c: Copy)
    requires Enabled(s, a) && c in Step(s, a).acked
    ensures || c in s.acked
            || (a.Consume? && a.t in s.flights && s.flights[a.t].copy == c
                && s.flights[a.t].phase.Finished? && !s.flights[a.t].phase.result.HandlerFailed?)
  {
    hide Produced, Relayed, Operated, Consumed, ProducerEnabled, RelayEnabled, OperatorEnabled, ConsumerEnabled;
    match a
    case Produce(p) => ProducerKeeps(s, p);
    case Relay(r, x) => RelayKeeps(s, r, x);
    case Operate(o) => OperatorKeeps(s, o);
    case Consume(t, x) => ConsumerAcks(s, t, x, c);
  }

  lemma {:induction false} ConsumerAcks(s: State, t: nat, x: ConsumerStep, c: Copy)
    requires ConsumerEnabled(s, t, x) && c in Consumed(s, t, x).acked
    ensures || c in s.acked
            || (t in s.flights && s.flights[t].copy == c
                && s.flights[t].phase.Finished? && !s.flights[t].phase.result.HandlerFailed?)
  {
    hide NextPhase, FlightKey, Committed, Accepts, KeyLocked, OrderLocked, ProcessedKeys, HoldsKey;
    if x.Commit? {
      CommitQueues(s, t, x);
    }
  }

  lemma {:induction false} AckedStaysKnown(s: State, a: Action, c: Copy)
    requires Enabled(s, a) && EventsOk(s) && c in Step(s, a).acked
    ensures CopyKnown(Step(s, a), c)
  {
    hide Step, Enabled, CopyKnown;
    StepGrows(s, a);
    NewlyAcked(s, a, c);
    KnownStays(s, Step(s, a), c);
  }

  lemma {:induction false} EventsStayKeyed(s: State, a: Action)
    requires Enabled(s, a) && KeyedById(s.events)
    ensures KeyedById(Step(s, a).events)
  {
    hide Step, Enabled, Registered;
    StepRegisters(s, a);
  }

  lemma {:induction false} EventsStayOk(s: State, a: Action)
    requires Enabled(s, a) && EventsOk(s) && RelaysOk(s)
    ensures EventsOk(Step(s, a))
  {
    hide Step, Enabled, Rows, CopyKnown, Known, RelaysOk, KeyedById;
    var n := Step(s, a);
    EventsStayKeyed(s, a);
    forall service, i | 0 <= i < |Rows(n, service)| ensures Known(n, Rows(n, service)[i].event) {
      RowsStayKnown(s, a, service, i);
    }
    forall c | c in n.ready || c in n.dead || c in n.acked ensures CopyKnown(n, c) {
      if c in n.acked {
        AckedStaysKnown(s, a, c);
      } else {
        QueuesStayKnown(s, a, c);
      }
    }
    forall t | t in n.flights ensures CopyKnown(n, n.flights[t].copy) {
      FlightsStayKnown(s, a, t);
    }
    forall d | d in n.redrives ensures CopyKnown(n, n.redrives[d].copy) {
      RedrivesStayKnown(s, a, d);
    }
  }

  // ---------------------------------------------------------------- relays

  lemma {:induction false} RecordStays(s: State, a: Action, service: Service, record: Record)
    requires Enabled(s, a) && RecordOk(s, service, record)
    ensures RecordOk(Step(s, a), service, record)
  {
    hide Step, Enabled, Rows;
    StepRow(s, a, service, record.id);
  }

  lemma {:induction false} ClaimedRecordOk(s: State, r: nat, x: RelayStep, k: nat)
    requires x.Claim? && RelayEnabled(s, r, x) && k < |Outbox.Claim(Policy(x.service), Rows(s, x.service), x.limit).1|
    ensures RecordOk(Relayed(s, r, x), x.service, Outbox.Claim(Policy(x.service), Rows(s, x.service), x.limit).1[k])
  {
  }

  /** What a relay's own step makes of its pass: the claimed batch, the same batch, or its rest. */
  lemma {:induction false} OwnPass(s: State, r: nat, x: RelayStep)
    requires RelayEnabled(s, r, x) && r in Relayed(s, r, x).relays
    ensures var pass := Relayed(s, r, x).relays[r];
      if x.Claim? then
        pass == RelayPass(x.service, Outbox.Claim(Policy(x.service), Rows(s, x.service), x.limit).1, ToPublish)
      else
        && r in s.relays && s.relays[r].batch != [] && pass.service == s.relays[r].service
        && (pass.stage.PublishConfirmed? ==> x.Publish? && x.outcome.Confirmed? && pass.batch == s.relays[r].batch)
        && (pass.batch == s.relays[r].batch || pass.batch == s.relays[r].batch[1..])
  {
    hide Outbox.Claim, Copies, NewHead, HeadRow, Bound, Rows;
  }

  /** The passes of the next state: somebody else's, unchanged, or the one that takes the step. */
  lemma {:induction false} OtherPass(s: State, a: Action, r: nat)
    requires Enabled(s, a) && !(a.Relay? && a.r == r)
    ensures r in Step(s, a).relays <==> r in s.relays
    ensures r in s.relays ==> Step(s, a).relays[r] == s.relays[r]
  {
    hide Produced, Relayed, Consumed, Operated, ProducerEnabled, RelayEnabled, ConsumerEnabled, OperatorEnabled;
    match a
    case Produce(p) => ProducerKeeps(s, p);
    case Relay(q, x) => PassElsewhere(s, q, x, r);
    case Consume(t, x) => ConsumerKeeps(s, t, x);
    case Operate(o) => OperatorKeeps(s, o);
  }

  lemma {:induction false} RelayStaysOk(s: State, a: Action, r: nat, k: nat)
    requires Enabled(s, a) && RelaysOk(s) && r in Step(s, a).relays && k < |Step(s, a).relays[r].batch|
    ensures RecordOk(Step(s, a), Step(s, a).relays[r].service, Step(s, a).relays[r].batch[k])
  {
    hide Relayed, RelayEnabled, RecordOk;
    var n := Step(s, a);
    if a.Relay? && a.r == r {
      OwnPass(s, r, a.relay);
      if a.relay.Claim? {
        ClaimedRecordOk(s, r, a.relay, k);
      } else {
        var j := if n.relays[r].batch == s.relays[r].batch then k else k + 1;
        RecordStays(s, a, s.relays[r].service, s.relays[r].batch[j]);
      }
    } else {
      OtherPass(s, a, r);
      RecordStays(s, a, s.relays[r].service, s.relays[r].batch[k]);
    }
  }

  lemma {:induction false} RelaysStayOk(s: State, a: Action)
    requires Enabled(s, a) && RelaysOk(s)
    ensures RelaysOk(Step(s, a))
  {
    hide Step, Enabled, RecordOk;
    var n := Step(s, a);
    forall r, k | r in n.relays && 0 <= k < |n.relays[r].batch|
      ensures RecordOk(n, n.relays[r].service, n.relays[r].batch[k])
    {
      RelayStaysOk(s, a, r, k);
    }
  }

  // ---------------------------------------------------------------- delivery

  /** A confirmed publish puts a copy into every bound queue. */
  lemma {:induction false} ConfirmedIsDelivered(s: State, r: nat, x: RelayStep)
    requires x.Publish? && x.outcome.Confirmed? && RelayEnabled(s, r, x)
    ensures Delivered(Relayed(s, r, x), s.relays[r].batch[0].event)
  {
    hide Copies, Rows, Effect;
    var e := s.relays[r].batch[0].event;
    forall queue | queue in Bound(e) ensures Safe(Relayed(s, r, x), queue, e) {
      CopiesOf(e, x.reached, Copy(queue, Valid(e)));
    }
  }

  lemma {:induction false} PublishedStaysDelivered(s: State, a: Action, service: Service, i: nat)
    requires Enabled(s, a) && FlightsOk(s) && RelaysOk(s) && DeliveryOk(s)
    requires i < |Rows(Step(s, a), service)| && Rows(Step(s, a), service)[i].publishedAt.Some?
    ensures Delivered(Step(s, a), Rows(Step(s, a), service)[i].event)
  {
    hide Step, Enabled, FlightsOk, Rows, Delivered;
    StepRowCount(s, a, service);
    if i < |Rows(s, service)| {
      StepRow(s, a, service, i);
      if Rows(s, service)[i].publishedAt.None? {
        assert RecordOk(s, s.relays[a.r].service, s.relays[a.r].batch[0]);
      }
      StepDelivers(s, a, Rows(s, service)[i].event);
    } else {
      AppendedUnpublished(s, a, service, i);
    }
  }

  lemma {:induction false} AppendedUnpublished(s: State, a: Action, service: Service, i: nat)
    requires Enabled(s, a) && |Rows(s, service)| <= i < |Rows(Step(s, a), service)|
    ensures Rows(Step(s, a), service)[i].publishedAt.None?
  {
    hide Step, Rows, Enabled;
    StepRowCount(s, a, service);
    AppendedKnown(s, a, service);
    assert Rows(Step(s, a), service)[i] == Appended(s, a, service)[i - |Rows(s, service)|];
  }

  lemma {:induction false} ConfirmedStaysDelivered(s: State, a: Action, r: nat)
    requires Enabled(s, a) && FlightsOk(s) && DeliveryOk(s)
    requires r in Step(s, a).relays && Step(s, a).relays[r].stage.PublishConfirmed? && Step(s, a).relays[r].batch != []
    ensures Delivered(Step(s, a), Step(s, a).relays[r].batch[0].event)
  {
    hide Relayed, RelayEnabled, FlightsOk, Rows, Delivered, Outbox.Claim;
    if a.Relay? && a.r == r {
      OwnPass(s, r, a.relay);
      ConfirmedIsDelivered(s, r, a.relay);
    } else {
      OtherPass(s, a, r);
      StepDelivers(s, a, s.relays[r].batch[0].event);
    }
  }

  lemma {:induction false} DeliveryStaysOk(s: State, a: Action)
    requires Enabled(s, a) && FlightsOk(s) && RelaysOk(s) && DeliveryOk(s)
    ensures DeliveryOk(Step(s, a))
  {
    hide Step, FlightsOk, Rows, Delivered, Enabled, RelaysOk;
    var n := Step(s, a);
    forall service, i | 0 <= i < |Rows(n, service)| && Rows(n, service)[i].publishedAt.Some?
      ensures Delivered(n, Rows(n, service)[i].event)
    {
      PublishedStaysDelivered(s, a, service, i);
    }
    forall r | r in n.relays && n.relays[r].stage.PublishConfirmed? && n.relays[r].batch != []
      ensures Delivered(n, n.relays[r].batch[0].event)
    {
      ConfirmedStaysDelivered(s, a, r);
    }
  }

  // ---------------------------------------------------------------- deliveries in flight

  /** The action is not a step of this delivery. */
  predicate Elsewhere(a: Action, t: nat) {
    !(a.Consume? && a.t == t)
  }

  lemma {:induction false} OtherFlight(s: State, a: Action, t: nat)
    requires Enabled(s, a) && Elsewhere(a, t)
    ensures t in Step(s, a).flights <==> t in s.flights
    ensures t in s.flights ==> Step(s, a).flights[t] == s.flights[t]
  {
    hide Produced, Relayed, Consumed, Operated, ProducerEnabled, RelayEnabled, ConsumerEnabled, OperatorEnabled;
    match a
    case Produce(p) => ProducerKeeps(s, p);
    case Relay(r, x) => RelayKeeps(s, r, x);
    case Consume(u, x) => FlightElsewhere(s, u, x, t);
    case Operate(o) => OperatorKeeps(s, o);
  }

  lemma {:induction false} SendsGrow(s: State, a: Action)
    requires Enabled(s, a)
    ensures s.sends <= Step(s, a).sends
  {
    hide Produced, Relayed, Consumed, Operated, ProducerEnabled, RelayEnabled, ConsumerEnabled, OperatorEnabled;
    match a
    case Produce(p) => ProducerKeeps(s, p);
    case Relay(r, x) => RelayKeeps(s, r, x);
    case Consume(t, x) => ConsumerGrows(s, t, x);
    case Operate(o) => OperatorKeeps(s, o);
  }

  /** A delivery that somebody else's step does not touch keeps what it knows: the row locks see to it. */
  lemma {:induction false} UntouchedFlightOk(s: State, a: Action, t: nat)
    requires Enabled(s, a) && Elsewhere(a, t) && t in s.flights && FlightsOk(s)
    ensures FlightOk(Step(s, a), s.flights[t])
  {
    hide Consumed, ConsumerEnabled, Step, ProcessedKeys, Tracking.HasShipment;
    var f := s.flights[t];
    StepGrows(s, a);
    SendsGrow(s, a);
    assert FlightOk(s, f);
    if Accepted(f) {
      NewKeys(s, a, f.copy.queue, FlightKey(f));
      if f.copy.queue.TrackingOrderCreated? {
        NewShipments(s, a, f.copy.msg.event.order.orderId);
      }
      if a.Consume? && a.consumer.Commit? {
        CommitTables(s, a.t, a.consumer);
        assert Compatible(f, s.flights[a.t]);
        assert FlightOk(s, s.flights[a.t]);
      }
    }
  }

  lemma {:induction false} InsertKeyOk(s: State, t: nat, x: ConsumerStep)
    requires x.InsertKey? && ConsumerEnabled(s, t, x) && EventsOk(s) && KeysOk(s)
    ensures var f := s.flights[t]; Accepted(f) && FlightOk(s, f.(phase := NextPhase(s, f, x)))
  {
    hide Tracking.HasShipment, KeyLocked, OrderLocked;
    var f := s.flights[t];
    assert CopyKnown(s, f.copy);
    if f.copy.queue.TrackingOrderCreated? && FlightKey(f) in s.tracking.processed {
      assert TrackingKeyOk(s, FlightKey(f));
    }
  }

  lemma {:induction false} ShipmentStepOk(s: State, t: nat, x: ConsumerStep)
    requires (x.FindShipment? || x.InsertShipment?) && ConsumerEnabled(s, t, x) && FlightOk(s, s.flights[t])
    ensures var f := s.flights[t]; Accepted(f) && FlightOk(s, f.(phase := NextPhase(s, f, x)))
  {
    hide Tracking.HasShipment, KeyLocked, OrderLocked, ProcessedKeys;
  }

  lemma {:induction false} SendOk(s: State, t: nat, x: ConsumerStep)
    requires x.SendNotification? && ConsumerEnabled(s, t, x) && FlightOk(s, s.flights[t])
    ensures var f := s.flights[t]; Accepted(f) && FlightOk(Consumed(s, t, x), f.(phase := NextPhase(s, f, x)))
  {
    hide Tracking.HasShipment, KeyLocked, OrderLocked;
    TablesUntouched(s, t, x);
  }

  /** A commit establishes the effect of its message. */
  lemma {:induction false} CommitOk(s: State, t: nat, x: ConsumerStep)
    requires x.Commit? && ConsumerEnabled(s, t, x)
    ensures t in s.flights && Accepted(s.flights[t])
    ensures Effect(Consumed(s, t, x), s.flights[t].copy.queue, s.flights[t].copy.msg.event)
  {
    hide Tracking.HasShipment, Consumed, ConsumerEnabled;
    CommitTables(s, t, x);
    var f := s.flights[t];
    NewKeys(s, Consume(t, x), f.copy.queue, FlightKey(f));
    if f.copy.queue.TrackingOrderCreated? {
      NewShipments(s, Consume(t, x), f.copy.msg.event.order.orderId);
    }
  }

  /** What a flight knows depends on the two databases and on what was sent. */
  lemma {:induction false} FlightOkStays(s: State, n: State, f: Flight)
    requires FlightOk(s, f) && n.tracking == s.tracking && n.notifications == s.notifications && s.sends <= n.sends
    ensures FlightOk(n, f)
  {
  }

  /** What a step of a delivery makes of that delivery. */
  lemma {:induction false} OwnStepOk(s: State, t: nat, x: ConsumerStep)
    requires ConsumerEnabled(s, t, x) && FlightsOk(s) && EventsOk(s) && KeysOk(s)
    requires t in Consumed(s, t, x).flights
    ensures FlightOk(Consumed(s, t, x), Consumed(s, t, x).flights[t])
  {
    hide Consumed, ConsumerEnabled, EventsOk, KeysOk, Tracking.HasShipment, ProcessedKeys, FlightKey, KeyFree;
    var n := Consumed(s, t, x);
    OwnCopy(s, t, x);
    if x.Deliver? {
    } else {
      var f := s.flights[t];
      assert FlightOk(s, f);
      match x {
        case Commit(_, _, _) => CommitOk(s, t, x);
        case SendNotification => SendOk(s, t, x);
        case InsertKey => InsertKeyOk(s, t, x);
        case FindShipment => ShipmentStepOk(s, t, x);
        case InsertShipment => ShipmentStepOk(s, t, x);
        case _ =>
      }
      if !x.Commit? && !x.SendNotification? {
        TablesUntouched(s, t, x);
        ConsumerGrows(s, t, x);
        FlightOkStays(s, n, f.(phase := NextPhase(s, f, x)));
      }
    }
  }

  // ---------------------------------------------------------------- locks

  /** New locks are only taken when they are free. */
  lemma {:induction false} LocksStayCompatible(s: State, a: Action, t: nat, u: nat)
    requires Enabled(s, a) && FlightsOk(s) && t != u
    requires t in Step(s, a).flights && u in Step(s, a).flights
    ensures Compatible(Step(s, a).flights[t], Step(s, a).flights[u])
  {
    hide Consumed, ConsumerEnabled, FlightOk, Compatible, Produced, Relayed, Operated, ProducerEnabled, RelayEnabled,
      OperatorEnabled;
    if Elsewhere(a, t) && Elsewhere(a, u) {
      OtherFlight(s, a, t);
      OtherFlight(s, a, u);
    } else if Elsewhere(a, u) {
      OtherFlight(s, a, u);
      NewLock(s, t, a.consumer, u);
    } else {
      OtherFlight(s, a, t);
      NewLock(s, u, a.consumer, t);
      CompatibleSymmetric(Step(s, a).flights[u], Step(s, a).flights[t]);
    }
  }

  lemma {:induction false} CompatibleSymmetric(f: Flight, g: Flight)
    ensures Compatible(f, g) == Compatible(g, f)
  {
  }

  /** The delivery `t` that takes a step, against any other delivery `u`. */
  lemma {:induction false} NewLock(s: State, t: nat, x: ConsumerStep, u: nat)
    requires ConsumerEnabled(s, t, x) && FlightsOk(s) && t != u
    requires t in Consumed(s, t, x).flights && u in s.flights
    ensures Compatible(Consumed(s, t, x).flights[t], s.flights[u])
  {
    hide Consumed, ConsumerEnabled, FlightOk, Compatible, NextPhase, HoldsKey;
    OwnCopy(s, t, x);
    if x.Deliver? {
      NothingHeld(Consumed(s, t, x).flights[t], s.flights[u]);
    } else {
      assert Compatible(s.flights[t], s.flights[u]);
      if x.InsertKey? {
        KeyLock(s, t, x, u);
      } else if x.InsertShipment? {
        OrderLock(s, t, x, u);
      } else {
        TakesNoLock(s, t, x);
        NoNewLock(s.flights[t], Consumed(s, t, x).flights[t], s.flights[u]);
      }
    }
  }

  lemma {:induction false} NothingHeld(f: Flight, g: Flight)
    requires f.phase.Received?
    ensures Compatible(f, g)
  {
  }

  lemma {:induction false} NoNewLock(f: Flight, later: Flight, g: Flight)
    requires Compatible(f, g) && later.copy == f.copy
    requires (HoldsKey(later) ==> HoldsKey(f)) && (later.phase.ShipmentInserted? ==> f.phase.ShipmentInserted?)
    ensures Compatible(later, g)
  {
  }

  /** Only two kinds of step take a lock. */
  lemma {:induction false} TakesNoLock(s: State, t: nat, x: ConsumerStep)
    requires ConsumerEnabled(s, t, x) && !x.Deliver? && !x.InsertKey? && !x.InsertShipment?
    requires t in s.flights && Accepted(s.flights[t])
    ensures var f := s.flights[t];
      var later := f.(phase := NextPhase(s, f, x));
      (HoldsKey(later) ==> HoldsKey(f)) && (later.phase.ShipmentInserted? ==> f.phase.ShipmentInserted?)
  {
    hide KeyLocked, OrderLocked, FlightKey, ProcessedKeys, Tracking.HasShipment;
  }

  lemma {:induction false} KeyLock(s: State, t: nat, x: ConsumerStep, u: nat)
    requires x.InsertKey? && ConsumerEnabled(s, t, x) && u in s.flights && u != t
    ensures Accepted(s.flights[t]) && Compatible(s.flights[t].(phase := NextPhase(s, s.flights[t], x)), s.flights[u])
  {
    hide OrderLocked, ProcessedKeys;
    var f := s.flights[t].(phase := NextPhase(s, s.flights[t], x));
    var g := s.flights[u];
    if HoldsKey(f) && HoldsKey(g) && Accepted(g) {
      assert !KeyLocked(s, FlightKey(f));
    }
  }

  lemma {:induction false} OrderLock(s: State, t: nat, x: ConsumerStep, u: nat)
    requires x.InsertShipment? && ConsumerEnabled(s, t, x) && u in s.flights && u != t &&
      Compatible(s.flights[t], s.flights[u])
    ensures Accepted(s.flights[t]) && Compatible(s.flights[t].(phase := NextPhase(s, s.flights[t], x)), s.flights[u])
  {
    hide Tracking.HasShipment, KeyLocked, ProcessedKeys;
    var f := s.flights[t].(phase := NextPhase(s, s.flights[t], x));
    var g := s.flights[u];
    if f.phase.ShipmentInserted? && g.phase.ShipmentInserted? {
      assert !OrderLocked(s, f.copy.msg.event.order.orderId);
    }
  }

  lemma {:induction false} FlightsStayOk(s: State, a: Action)
    requires Enabled(s, a) && FlightsOk(s) && EventsOk(s) && KeysOk(s)
    ensures FlightsOk(Step(s, a))
  {
    hide Consumed, ConsumerEnabled, FlightOk, Compatible, EventsOk, KeysOk, Produced, Relayed, Operated,
      ProducerEnabled, RelayEnabled,
      OperatorEnabled;
    var n := Step(s, a);
    forall t | t in n.flights ensures FlightOk(n, n.flights[t]) {
      if Elsewhere(a, t) {
        OtherFlight(s, a, t);
        UntouchedFlightOk(s, a, t);
      } else {
        OwnStepOk(s, t, a.consumer);
      }
    }
    forall t, u | t in n.flights && u in n.flights && t != u ensures Compatible(n.flights[t], n.flights[u]) {
      LocksStayCompatible(s, a, t, u);
    }
  }

  // ---------------------------------------------------------------- keys and acks

  lemma {:induction false} TrackingKeyStays(s: State, a: Action, key: MessageKey)
    requires Enabled(s, a) && KeysOk(s) && EventsOk(s)
    requires key in Step(s, a).tracking.processed
    ensures TrackingKeyOk(Step(s, a), key)
  {
    hide Step, Enabled, Tracking.HasShipment;
    StepGrows(s, a);
    NewKeys(s, a, TrackingOrderCreated, key);
    if key in s.tracking.processed {
      assert TrackingKeyOk(s, key);
    } else {
      var f := s.flights[a.t];
      assert CopyKnown(s, f.copy);
      NewShipments(s, a, f.copy.msg.event.order.orderId);
    }
  }

  lemma {:induction false} NotificationKeyStays(s: State, a: Action, key: MessageKey)
    requires Enabled(s, a) && KeysOk(s) && FlightsOk(s)
    requires key in Step(s, a).notifications.processed
    ensures key in Step(s, a).sends
  {
    hide Consumed, ConsumerEnabled, Step, Tracking.HasShipment;
    NewKeys(s, a, NotifyOrderCreated, key);
    if key !in s.notifications.processed {
      CommitTables(s, a.t, a.consumer);
      assert FlightOk(s, s.flights[a.t]);
    }
    SendsGrow(s, a);
  }

  /** The notification tables change only by a commit there. */
  lemma {:induction false} NotificationsAfter(s: State, a: Action)
    requires Enabled(s, a)
    ensures Step(s, a).notifications ==
      if Commits(s, a, false) then Committed(s, s.flights[a.t].copy, a.consumer.provider, a.consumer.now).notifications
      else s.notifications
  {
    hide Produced, Relayed, Consumed, Operated, ProducerEnabled, RelayEnabled, ConsumerEnabled, OperatorEnabled;
    match a
    case Produce(p) => ProducerKeeps(s, p);
    case Relay(r, x) => RelayKeeps(s, r, x);
    case Operate(o) => OperatorKeeps(s, o);
    case Consume(t, x) =>
      if x.Commit? {
        CommitTables(s, t, x);
      } else {
        TablesUntouched(s, t, x);
      }
  }

  lemma {:induction false} DeliveryStaysKnown(s: State, a: Action, i: nat)
    requires Enabled(s, a) && KeysOk(s) && EventsOk(s)
    requires i < |Step(s, a).notifications.deliveries|
    ensures DeliveryKnown(Step(s, a), Step(s, a).notifications.deliveries[i].input)
  {
    hide Step, Enabled, Tracking.HasShipment;
    StepGrows(s, a);
    NotificationsAfter(s, a);
    if i < |s.notifications.deliveries| {
      assert DeliveryKnown(s, s.notifications.deliveries[i].input);
    } else {
      assert CopyKnown(s, s.flights[a.t].copy);
    }
  }

  lemma {:induction false} KeysStayOk(s: State, a: Action)
    requires Enabled(s, a) && KeysOk(s) && FlightsOk(s) && EventsOk(s)
    ensures KeysOk(Step(s, a))
  {
    hide Step, Enabled, FlightsOk, EventsOk, TrackingKeyOk, DeliveryKnown;
    var n := Step(s, a);
    forall key | key in n.tracking.processed ensures TrackingKeyOk(n, key) {
      TrackingKeyStays(s, a, key);
    }
    forall key | key in n.notifications.processed ensures key in n.sends {
      NotificationKeyStays(s, a, key);
    }
    forall i | 0 <= i < |n.notifications.deliveries| ensures DeliveryKnown(n, n.notifications.deliveries[i].input) {
      DeliveryStaysKnown(s, a, i);
    }
  }

  lemma {:induction false} ProcessedStays(s: State, a: Action, id: Id, orderId: Id)
    requires Enabled(s, a) && IsProcessedEventOf(s, id, orderId)
    ensures IsProcessedEventOf(Step(s, a), id, orderId)
  {
    hide Step, Enabled, Tracking.HasShipment;
    StepGrows(s, a);
    NewKeys(s, a, TrackingOrderCreated, MessageKey(TrackingService.TRACKING_CONSUMER, id));
  }

  /** The commit that inserts a shipment inserts a key of its order. */
  lemma {:induction false} CommitIsKeyed(s: State, a: Action)
    requires Enabled(s, a) && EventsOk(s) && Commits(s, a, true)
    ensures var e := s.flights[a.t].copy.msg.event; IsProcessedEventOf(Step(s, a), e.eventId, e.order.orderId)
  {
    hide Step, Enabled, Tracking.HasShipment;
    var f := s.flights[a.t];
    StepGrows(s, a);
    assert CopyKnown(s, f.copy);
    NewKeys(s, a, TrackingOrderCreated, FlightKey(f));
  }

  lemma {:induction false} ShipmentsStayKeyed(s: State, a: Action)
    requires Enabled(s, a) && ShipmentsKeyed(s) && EventsOk(s)
    ensures ShipmentsKeyed(Step(s, a))
  {
    hide Step, Enabled, Tracking.HasShipment, IsProcessedEventOf, EventsOk;
    forall o: Id | Tracking.HasShipment(Step(s, a).tracking, o)
      ensures exists id :: IsProcessedEventOf(Step(s, a), id, o)
    {
      NewShipments(s, a, o);
      if Tracking.HasShipment(s.tracking, o) {
        var id :| IsProcessedEventOf(s, id, o);
        ProcessedStays(s, a, id, o);
      } else {
        CommitIsKeyed(s, a);
      }
    }
  }

  lemma {:induction false} AckedStaysOk(s: State, a: Action)
    requires Enabled(s, a) && AckedOk(s) && FlightsOk(s)
    ensures AckedOk(Step(s, a))
  {
    hide Step, Enabled, Effect;
    StepGrows(s, a);
    forall c | c in Step(s, a).acked
      ensures Accepts(c.queue, c.msg) && Effect(Step(s, a), c.queue, c.msg.event)
    {
      NewlyAcked(s, a, c);
      if c !in s.acked {
        assert FlightOk(s, s.flights[a.t]);
      }
      EffectStays(s, Step(s, a), c.queue, c.msg.event);
    }
  }

  // ---------------------------------------------------------------- tables

  lemma {:induction false} NotificationsStayOk(s: State, a: Action)
    requires Enabled(s, a) && N.NotificationOk(s.notifications) && FlightsOk(s)
    ensures N.NotificationOk(Step(s, a).notifications)
  {
    hide Step, ConsumerEnabled, Consumed, N.NotificationOk;
    NotificationsAfter(s, a);
    if Commits(s, a, false) {
      CommitTables(s, a.t, a.consumer);
      assert FlightOk(s, s.flights[a.t]);
      var d := N.Delivery(N.InputOf(s.flights[a.t].copy.msg.event), N.SENT, a.consumer.provider, Some(a.consumer.now));
      N.CommitKeepsOk(s.notifications, d);
    }
  }

  /** Outside producers and commits, only the outbox rows of a database change. */
  lemma {:induction false} OnlyOutboxes(s: State, a: Action)
    requires Enabled(s, a)
    ensures !a.Produce? ==> Step(s, a).orders == s.orders.(outbox := Step(s, a).orders.outbox)
    ensures !a.Produce? && !Commits(s, a, true) ==>
      Step(s, a).tracking == s.tracking.(outbox := Step(s, a).tracking.outbox)
  {
    hide Produced, Relayed, Consumed, Operated, ProducerEnabled, RelayEnabled, ConsumerEnabled, OperatorEnabled;
    match a
    case Produce(p) =>
    case Relay(r, x) => RelayKeeps(s, r, x);
    case Operate(o) => OperatorKeeps(s, o);
    case Consume(t, x) =>
      ConsumerKeeps(s, t, x);
      if x.Commit? {
        CommitTables(s, t, x);
      } else {
        TablesUntouched(s, t, x);
      }
  }

  lemma {:induction false} OrdersStayOk(s: State, a: Action)
    requires Enabled(s, a) && OrderStore.OrdersOk(s.orders)
    ensures OrderStore.OrdersOk(Step(s, a).orders)
  {
    hide OrderStore.OrdersOk, OrderStore.RunCommand, OrderStore.Possible, Tracking.RunOp, Relayed, Consumed, Operated,
      RelayEnabled, ConsumerEnabled, OperatorEnabled;
    if a.Produce? {
      if a.producer.Command? {
        OrderStore.CommandKeepsOk(s.orders, a.producer.command, a.producer.env);
      }
    } else {
      OnlyOutboxes(s, a);
      StepRowCount(s, a, OrderService);
      forall i | 0 <= i < |s.orders.outbox|
        ensures Step(s, a).orders.outbox[i].event == s.orders.outbox[i].event
      {
        StepRow(s, a, OrderService, i);
      }
      OrderStore.RelayKeepsOk(s.orders, Step(s, a).orders.outbox);
    }
  }

  lemma {:induction false} TrackingStaysOk(s: State, a: Action)
    requires Enabled(s, a) && Tracking.TrackingOk(s.tracking)
    ensures Tracking.TrackingOk(Step(s, a).tracking)
  {
    hide Tracking.TrackingOk, Tracking.CreatePendingShipment, OrderStore.RunCommand, OrderStore.Possible, Relayed,
      Consumed, Operated,
      RelayEnabled, ConsumerEnabled, OperatorEnabled;
    if a.Produce? {
      if a.producer.UpdateShipment? {
        Tracking.UpdateKeepsOk(s.tracking, a.producer.update);
      }
    } else if Commits(s, a, true) {
      CommitTables(s, a.t, a.consumer);
      var e := s.flights[a.t].copy.msg.event;
      KeyKeepsOk(s.tracking, KeyOf(TrackingOrderCreated, e));
      Tracking.CreateKeepsOk(Tracking.WithKey(s.tracking, KeyOf(TrackingOrderCreated, e)), e.order.orderId,
        e.order.placedAt);
    } else {
      OutboxKeepsTrackingOk(s, a);
    }
  }

  lemma {:induction false} KeyKeepsOk(db: Tracking.TrackingDb, key: MessageKey)
    requires Tracking.TrackingOk(db)
    ensures Tracking.TrackingOk(Tracking.WithKey(db, key))
  {
  }

  lemma {:induction false} OutboxKeepsTrackingOk(s: State, a: Action)
    requires Enabled(s, a) && Tracking.TrackingOk(s.tracking) && !a.Produce? && !Commits(s, a, true)
    ensures Tracking.TrackingOk(Step(s, a).tracking)
  {
    hide Tracking.TrackingOk, Step, Enabled;
    OnlyOutboxes(s, a);
    StepRowCount(s, a, TrackingServiceOutbox);
    forall i | 0 <= i < |s.tracking.outbox|
      ensures Step(s, a).tracking.outbox[i].event == s.tracking.outbox[i].event
    {
      StepRow(s, a, TrackingServiceOutbox, i);
    }
    Tracking.RelayKeepsOk(s.tracking, Step(s, a).tracking.outbox);
  }

  // ---------------------------------------------------------------- the whole invariant

  lemma {:induction false} InitialOk()
    ensures Inv(INITIAL)
  {
  }

  lemma {:induction false} StepKeepsInv(s: State, a: Action)
    requires Enabled(s, a) && Inv(s)
    ensures Inv(Step(s, a))
  {
    hide Step, Enabled, EventsOk, RelaysOk, DeliveryOk, FlightsOk, KeysOk, ShipmentsKeyed, AckedOk;
    EventsStayOk(s, a);
    RelaysStayOk(s, a);
    DeliveryStaysOk(s, a);
    FlightsStayOk(s, a);
    KeysStayOk(s, a);
    ShipmentsStayKeyed(s, a);
    AckedStaysOk(s, a);
    OrdersStayOk(s, a);
    TrackingStaysOk(s, a);
    NotificationsStayOk(s, a);
  }

  /** Every run keeps the invariant. */
  lemma {:induction false} RunKeepsInv(s: State, actions: seq<Action>)
    requires Inv(s)
    ensures Inv(Run(s, actions))
    decreases |actions|
  {
    hide Step, Enabled, Inv;
    if actions != [] {
      if Enabled(s, actions[0]) {
        StepKeepsInv(s, actions[0]);
        RunKeepsInv(Step(s, actions[0]), actions[1..]);
      } else {
        RunKeepsInv(s, actions[1..]);
      }
    }
  }

  lemma {:induction false} ReachableOk(s: State)
    requires Reachable(s)
    ensures Inv(s)
  {
    hide Inv, Run;
    var actions :| Run(INITIAL, actions) == s;
    InitialOk();
    RunKeepsInv(INITIAL, actions);
  }
}
