/** The statements of a delivery against the classes: `markProcessed` of either service is its statements, and whatever
    the statements of a delivery are answered, some tables and faults make the class answer the same. */
module DeliveryAnswers {
  import opened Base
  import opened Contracts
  import Tracking
  import T = TrackingService
  import N = Notifications
  import opened Consumer
  import opened Protocol
  import opened ProtocolRows
  import opened DeliveryRefinement

  // ---------------------------------------------------------------- what the classes answer

  /** How the statements of the tracking service's classes end for given faults: `db` is what they read. */
  function TrackingReply(db: Tracking.TrackingDb, e: Event, a: Answers, pc: Pc): Reply
    requires e.OrderCreated?
  {
    match pc
    case AtKey =>
      if T.Hits(a.keyFault, 0) then Raised(a.keyFault.error)
      else if KeyOf(TrackingOrderCreated, e) in db.processed then Raised(T.UNIQUE_KEY)
      else Done(true)
    case AtFind =>
      if T.Hits(a.fault, 0) then Raised(a.fault.error) else Done(Tracking.HasShipment(db, e.order.orderId))
    case AtCreate => if T.Hits(a.fault, 1) then Raised(a.fault.error) else Done(true)
    case AtLog => if T.Hits(a.fault, 2) then Raised(a.fault.error) else Done(true)
    case AtReadBack => if T.Hits(a.fault, 3) then Raised(a.fault.error) else Done(true)
    case _ =>
      if T.Hits(a.keyFault, 1) then Raised(a.keyFault.error)
      else if T.Hits(a.keyFault, 2) then Unanswered(a.keyFault.error)
      else Done(true)
  }

  function NotificationReply(db: N.NotificationDb, e: Event, d: N.Answers, pc: Pc): Reply {
    match pc
    case AtKey => if d.insertKey.Some? then Raised(d.insertKey.value) else Done(N.KeyOf(N.InputOf(e)) !in db.processed)
    case AtRow => OrRaised(d.create)
    case AtProvider => OrRaised(d.send)
    case AtSent => OrRaised(d.markSent)
    case AtFailed(_) => OrRaised(d.markFailed)
    case _ =>
      match d.commit
      case CommitDone => Done(true)
      case CommitRefused(error) => Raised(error)
      case CommitAnswerLost(error) => Unanswered(error)
  }

  function OrRaised(error: Option<Failure>): Reply {
    if error.Some? then Raised(error.value) else Done(true)
  }

  /** The statements run to the answer, each with its reply. */
  function Answer(queue: Subscription, pc: Pc, replyAt: Pc -> Reply): ProcessResult
    decreases Left(pc)
  {
    if pc.Returned? then pc.result else Answer(queue, Next(queue, pc, replyAt(pc)), replyAt)
  }

  /** They get to a commit that goes through. */
  predicate GoesThrough(queue: Subscription, pc: Pc, replyAt: Pc -> Reply)
    decreases Left(pc)
  {
    if pc.Returned? then false
    else if pc.AtCommit? then !replyAt(pc).Raised?
    else GoesThrough(queue, Next(queue, pc, replyAt(pc)), replyAt)
  }

  function Left(pc: Pc): nat {
    match pc
    case AtKey => 6
    case AtFind => 5
    case AtCreate => 4
    case AtLog => 3
    case AtReadBack => 2
    case AtRow => 5
    case AtProvider => 4
    case AtSent => 2
    case AtFailed(_) => 2
    case AtCommit(_) => 1
    case Returned(_) => 0
  }

  /** The tracking service's `markProcessed` is these statements: it answers what they lead to, and commits what the
      protocol's commit does to the database exactly when they get to a commit that goes through. */
  lemma {:induction false} TrackingStatements(s: State, c: Copy, a: Answers)
    requires Accepts(c.queue, c.msg) && c.queue.TrackingOrderCreated?
    ensures var e := c.msg.event;
      var outcome := T.TransactionOutcome(s.tracking, KeyOf(c.queue, e), e.order, a.keyFault, a.fault);
      var replyAt := pc => TrackingReply(s.tracking, e, a, pc);
      && T.ResultOf(outcome.error) == Answer(c.queue, AtKey, replyAt)
      && outcome.tables
         == if GoesThrough(c.queue, AtKey, replyAt) then Committed(s, c, "", 0).tracking else s.tracking
  {
    hide Tracking.HasShipment, Tracking.CreatePendingShipment;
    var e := c.msg.event;
    var replyAt := pc => TrackingReply(s.tracking, e, a, pc);
    StatementAndRest(c.queue, replyAt, AtCommit(true));
    StatementAndRest(c.queue, replyAt, AtCommit(false));
    StatementAndRest(c.queue, replyAt, AtReadBack);
    StatementAndRest(c.queue, replyAt, AtLog);
    StatementAndRest(c.queue, replyAt, AtCreate);
    StatementAndRest(c.queue, replyAt, AtFind);
  }

  /** One statement and the rest. */
  lemma {:induction false} StatementAndRest(queue: Subscription, replyAt: Pc -> Reply, pc: Pc)
    requires !pc.Returned?
    ensures Answer(queue, pc, replyAt) == Answer(queue, Next(queue, pc, replyAt(pc)), replyAt)
    ensures GoesThrough(queue, pc, replyAt)
      == if pc.AtCommit? then !replyAt(pc).Raised? else GoesThrough(queue, Next(queue, pc, replyAt(pc)), replyAt)
  {
  }

  /** The same for the notification service. */
  lemma {:induction false} NotificationStatements(s: State, c: Copy, a: Answers)
    requires Accepts(c.queue, c.msg) && !c.queue.TrackingOrderCreated?
    ensures var e := c.msg.event;
      var outcome := N.TransactionOutcome(s.notifications, N.InputOf(e), a.dispatch);
      var replyAt := pc => NotificationReply(s.notifications, e, a.dispatch, pc);
      && N.ResultOf(outcome.error) == Answer(c.queue, AtKey, replyAt)
      && outcome.tables
         == if !GoesThrough(c.queue, AtKey, replyAt) then s.notifications
            else Committed(s, c, a.dispatch.provider, a.dispatch.now).notifications
  {
    var e := c.msg.event;
    var replyAt := pc => NotificationReply(s.notifications, e, a.dispatch, pc);
    StatementAndRest(c.queue, replyAt, AtCommit(false));
    StatementAndRest(c.queue, replyAt, AtSent);
    StatementAndRest(c.queue, replyAt, AtProvider);
    StatementAndRest(c.queue, replyAt, AtRow);
  }

  /** The replies of the moves are the given ones. */
  predicate Replies(queue: Subscription, pc: Pc, moves: seq<Move>, replyAt: Pc -> Reply)
    decreases |moves|
  {
    moves == [] ||
    ((moves[0].Statement? ==> moves[0].reply == replyAt(pc)) &&
      Replies(queue, PcAfter(queue, pc, moves[0]), moves[1..], replyAt))
  }

  /** However the statements interleave with others, with those replies the delivery ends in that answer. */
  lemma {:induction false} RepliesFixAnswer(queue: Subscription, pc: Pc, moves: seq<Move>, replyAt: Pc -> Reply)
    requires Replies(queue, pc, moves, replyAt)
    ensures Answer(queue, EndPc(queue, pc, moves), replyAt) == Answer(queue, pc, replyAt)
    decreases |moves|
  {
    if moves != [] {
      RepliesFixAnswer(queue, PcAfter(queue, pc, moves[0]), moves[1..], replyAt);
    }
  }

  // ---------------------------------------------------------------- every delivery is one of the code

  /** The replies of the moves are regular. */
  predicate RegularMoves(queue: Subscription, pc: Pc, moves: seq<Move>)
    decreases |moves|
  {
    moves == [] ||
    ((moves[0].Statement? ==> !pc.Returned? && Regular(queue, pc, moves[0].reply)) &&
      RegularMoves(queue, PcAfter(queue, pc, moves[0]), moves[1..]))
  }

  lemma {:induction false} FollowsRegular(s: State, t: nat, pc: Pc, moves: seq<Move>, provider: string, now: nat)
    requires AtPc(s, t, pc) && Follows(s, t, pc, moves, provider, now)
    ensures RegularMoves(s.flights[t].copy.queue, pc, moves)
    decreases |moves|
  {
    hide StateAfter, PcAfter, Belongs, PhaseOf, Regular, Accepts;
    if moves != [] {
      MoveKeepsPc(s, t, pc, moves[0], provider, now);
      FollowsRegular(StateAfter(s, t, pc, moves[0], provider, now), t,
        PcAfter(s.flights[t].copy.queue, pc, moves[0]), moves[1..], provider, now);
    }
  }

  /** Only the statements from here on matter. */
  lemma {:induction false} RepliesAgree(queue: Subscription, pc: Pc, moves: seq<Move>, replyAt: Pc -> Reply,
          other: Pc -> Reply)
    requires RegularMoves(queue, pc, moves) && Replies(queue, pc, moves, replyAt)
    requires forall p: Pc :: 0 < Left(p) <= Left(pc) ==> replyAt(p) == other(p)
    ensures Replies(queue, pc, moves, other)
    decreases |moves|
  {
    hide Regular;
    if moves != [] {
      NextIsNearer(queue, pc, moves[0]);
      RepliesAgree(queue, PcAfter(queue, pc, moves[0]), moves[1..], replyAt, other);
    }
  }

  lemma {:induction false} NextIsNearer(queue: Subscription, pc: Pc, move: Move)
    ensures Left(PcAfter(queue, pc, move)) <= Left(pc)
    ensures pc.Returned? <==> Left(pc) == 0
    ensures move.Statement? && !pc.Returned? ==> Left(PcAfter(queue, pc, move)) < Left(pc)
  {
  }

  lemma {:induction false} NothingAfterReturn(queue: Subscription, pc: Pc, moves: seq<Move>, replyAt: Pc -> Reply)
    requires RegularMoves(queue, pc, moves) && pc.Returned?
    ensures Replies(queue, pc, moves, replyAt)
    decreases |moves|
  {
    if moves != [] {
      NothingAfterReturn(queue, pc, moves[1..], replyAt);
    }
  }

  // ---------------------------------------------------------------- the tracking service

  const NO_ANSWERS := N.Answers(None, None, None, None, None, N.CommitDone, "", 0)

  /** Tables that hold a shipment of the order, or nothing. */
  function Recorded(e: Event, found: bool): Tracking.TrackingDb
    requires e.OrderCreated?
  {
    Tracking.EMPTY_DB.(shipments := if found then [Tracking.Shipment(e.order.orderId, PENDING)] else [])
  }

  function Faults(keyFault: T.Fault, fault: T.Fault): Answers {
    Answers(keyFault, fault, NO_ANSWERS, Ok(Processed))
  }

  function TrackingReplies(e: Event, found: bool, keyFault: T.Fault, fault: T.Fault): Pc -> Reply
    requires e.OrderCreated?
  {
    pc => TrackingReply(Recorded(e, found), e, Faults(keyFault, fault), pc)
  }

  lemma {:induction false} RecordedShipment(e: Event, found: bool)
    requires e.OrderCreated?
    ensures Tracking.HasShipment(Recorded(e, found), e.order.orderId) == found
  {
    HasShipmentIff(Recorded(e, found), e.order.orderId);
    if found {
      assert Recorded(e, found).shipments[0].orderId == e.order.orderId;
    }
  }

  /** The number that a statement has among those of the handler. */
  function HandlerStatement(pc: Pc): nat {
    match pc
    case AtKey => 0
    case AtFind => 0
    case AtCreate => 1
    case AtLog => 2
    case AtReadBack => 3
    case _ => 4
  }

  /** The faults strike only statements from here on. */
  predicate StrikeLater(pc: Pc, keyFault: T.Fault, fault: T.Fault) {
    && (fault.FaultAt? ==> fault.statement >= HandlerStatement(pc))
    && (keyFault.FaultAt? ==> keyFault.statement >= if pc.AtKey? then 0 else 1)
  }

  /** Some stored tables and faults make the statements end like that. */
  lemma {:induction false} TrackingRealised(e: Event, pc: Pc, moves: seq<Move>)
    returns (found: bool, keyFault: T.Fault, fault: T.Fault)
    requires e.OrderCreated? && Belongs(TrackingOrderCreated, pc) && RegularMoves(TrackingOrderCreated, pc, moves)
    ensures Replies(TrackingOrderCreated, pc, moves, TrackingReplies(e, found, keyFault, fault))
    ensures StrikeLater(pc, keyFault, fault)
    decreases |moves|
  {
    hide Regular, StrikeLater, TrackingReplies;
    found, keyFault, fault := false, T.NoFault, T.NoFault;
    NoFaults(pc);
    if moves != [] {
      var next := PcAfter(TrackingOrderCreated, pc, moves[0]);
      StaysThere(pc, moves[0]);
      if moves[0].Statement? && next.Returned? {
        keyFault, fault := LastReply(e, pc, moves[0].reply);
        NothingAfterReturn(TrackingOrderCreated, next, moves[1..], TrackingReplies(e, found, keyFault, fault));
      } else {
        found, keyFault, fault := TrackingRealised(e, next, moves[1..]);
        if moves[0].Statement? {
          var replies := TrackingReplies(e, found, keyFault, fault);
          found := if pc.AtFind? then moves[0].reply.yes else found;
          DoneReply(e, pc, moves[0].reply, found, keyFault, fault);
          OtherStore(e, pc, next, found, keyFault, fault);
          RepliesAgree(TrackingOrderCreated, next, moves[1..], replies, TrackingReplies(e, found, keyFault, fault));
        }
      }
    }
  }

  lemma {:induction false} NoFaults(pc: Pc)
    ensures StrikeLater(pc, T.NoFault, T.NoFault)
  {
  }

  lemma {:induction false} StaysThere(pc: Pc, move: Move)
    requires Belongs(TrackingOrderCreated, pc)
    ensures Belongs(TrackingOrderCreated, PcAfter(TrackingOrderCreated, pc, move))
    ensures !move.Statement? ==> PcAfter(TrackingOrderCreated, pc, move) == pc
    ensures move.Statement? && !pc.Returned? && !PcAfter(TrackingOrderCreated, pc, move).Returned? ==> move.reply.Done?
  {
  }

  /** A statement that ends the delivery: it raises an error, or it is the commit. */
  lemma {:induction false} LastReply(e: Event, pc: Pc, reply: Reply) returns (keyFault: T.Fault, fault: T.Fault)
    requires e.OrderCreated? && !pc.Returned? && Belongs(TrackingOrderCreated, pc)
    requires Regular(TrackingOrderCreated, pc, reply) && TrackingNext(pc, reply).Returned?
    ensures TrackingReplies(e, false, keyFault, fault)(pc) == reply && StrikeLater(pc, keyFault, fault)
  {
    keyFault, fault := T.NoFault, T.NoFault;
    if pc.AtCommit? {
      keyFault := if reply.Raised? then T.FaultAt(1, reply.error)
                  else if reply.Unanswered? then T.FaultAt(2, reply.error) else T.NoFault;
    } else if pc.AtKey? {
      keyFault := T.FaultAt(0, reply.error);
    } else {
      fault := T.FaultAt(HandlerStatement(pc), reply.error);
    }
  }

  lemma {:induction false} DoneReply(e: Event, pc: Pc, reply: Reply, found: bool, keyFault: T.Fault, fault: T.Fault)
    requires e.OrderCreated? && !pc.Returned? && Belongs(TrackingOrderCreated, pc)
    requires Regular(TrackingOrderCreated, pc, reply) && reply.Done? && !TrackingNext(pc, reply).Returned?
    requires StrikeLater(TrackingNext(pc, reply), keyFault, fault) && (pc.AtFind? ==> found == reply.yes)
    ensures TrackingReplies(e, found, keyFault, fault)(pc) == reply && StrikeLater(pc, keyFault, fault)
  {
    hide Tracking.HasShipment;
    RecordedShipment(e, found);
  }

  /** Behind the lookup the tables do not matter, and before it nothing is said about them. */
  lemma {:induction false} OtherStore(e: Event, pc: Pc, next: Pc, found: bool, keyFault: T.Fault, fault: T.Fault)
    requires e.OrderCreated?
    ensures Left(next) < Left(AtFind) ==> forall other, p: Pc :: Left(p) <= Left(next) ==>
      TrackingReplies(e, other, keyFault, fault)(p) == TrackingReplies(e, found, keyFault, fault)(p)
  {
  }

  /** Whatever a delivery at the tracking service meets, with everybody else at work between its statements: its answer
      is that of the class for some tables and some faults. */
  lemma {:induction false} TrackingAnswersAlike(s: State, t: nat, moves: seq<Move>, provider: string, now: nat)
    returns (db: Tracking.TrackingDb, a: Answers)
    requires AtPc(s, t, AtKey) && s.flights[t].copy.queue.TrackingOrderCreated?
    requires Follows(s, t, AtKey, moves, provider, now) && EndPc(TrackingOrderCreated, AtKey, moves).Returned?
    ensures var e := s.flights[t].copy.msg.event;
      EndPc(TrackingOrderCreated, AtKey, moves).result
        == T.ResultOf(T.TransactionOutcome(db, KeyOf(TrackingOrderCreated, e), e.order, a.keyFault, a.fault).error)
  {
    hide Follows, RegularMoves, Replies, Answer, GoesThrough, EndPc, T.ResultOf, T.TransactionOutcome, TrackingReply;
    var c := s.flights[t].copy;
    var e := c.msg.event;
    FollowsRegular(s, t, AtKey, moves, provider, now);
    var found, keyFault, fault := TrackingRealised(e, AtKey, moves);
    db, a := Recorded(e, found), Faults(keyFault, fault);
    RepliesFixAnswer(TrackingOrderCreated, AtKey, moves, TrackingReplies(e, found, keyFault, fault));
    AnswerReturned(TrackingOrderCreated, EndPc(TrackingOrderCreated, AtKey, moves),
      TrackingReplies(e, found, keyFault, fault));
    TrackingStatements(s.(tracking := db), c, a);
    SameAnswer(TrackingOrderCreated, AtKey, TrackingReplies(e, found, keyFault, fault),
      pc => TrackingReply(db, e, a, pc));
  }

  lemma {:induction false} AnswerReturned(queue: Subscription, pc: Pc, replyAt: Pc -> Reply)
    requires pc.Returned?
    ensures Answer(queue, pc, replyAt) == pc.result
  {
  }

  lemma {:induction false} SameAnswer(queue: Subscription, pc: Pc, replyAt: Pc -> Reply, other: Pc -> Reply)
    requires forall p: Pc :: replyAt(p) == other(p)
    ensures Answer(queue, pc, replyAt) == Answer(queue, pc, other)
    decreases Left(pc)
  {
    hide Next;
    if !pc.Returned? {
      NextIsNearer(queue, pc, Statement(replyAt(pc)));
      SameAnswer(queue, Next(queue, pc, replyAt(pc)), replyAt, other);
    }
  }

  // ---------------------------------------------------------------- the notification service

  function Stored(e: Event, stored: bool): N.NotificationDb {
    N.NotificationDb(if stored then {N.KeyOf(N.InputOf(e))} else {}, [])
  }

  function NotificationReplies(e: Event, stored: bool, d: N.Answers): Pc -> Reply {
    pc => NotificationReply(Stored(e, stored), e, d, pc)
  }

  /** The answers with that of one statement replaced. */
  function WithReply(d: N.Answers, pc: Pc, reply: Reply): N.Answers {
    var error := if reply.Raised? then Some(reply.error) else None;
    match pc
    case AtKey => d.(insertKey := error)
    case AtRow => d.(create := error)
    case AtProvider => d.(send := error)
    case AtSent => d.(markSent := error)
    case AtFailed(_) => d.(markFailed := error)
    case _ => d.(commit := match reply
      case Done(_) => N.CommitDone
      case Raised(e) => N.CommitRefused(e)
      case Unanswered(e) => N.CommitAnswerLost(e))
  }

  lemma {:induction false} ReplyReplaced(queue: Subscription, e: Event, stored: bool, d: N.Answers, pc: Pc,
          reply: Reply, next: Pc)
    requires !queue.TrackingOrderCreated? && Belongs(queue, pc) && Regular(queue, pc, reply) && Left(next) < Left(pc)
    ensures var later := if pc.AtKey? then reply.Done? && !reply.yes else stored;
      && NotificationReplies(e, later, WithReply(d, pc, reply))(pc) == reply
      && forall p: Pc :: 0 < Left(p) <= Left(next) ==>
        NotificationReplies(e, later, WithReply(d, pc, reply))(p) == NotificationReplies(e, stored, d)(p)
  {
  }

  lemma {:induction false} StaysInService(queue: Subscription, pc: Pc, move: Move)
    requires !queue.TrackingOrderCreated? && Belongs(queue, pc)
    requires move.Statement? ==> move.reply.Raised? ==> move.reply.error.message != N.DUPLICATE_MESSAGE
    ensures Belongs(queue, PcAfter(queue, pc, move))
    ensures !move.Statement? ==> PcAfter(queue, pc, move) == pc
  {
  }

  /** No error among the moves carries the sentinel's text. */
  predicate NoSentinel(moves: seq<Move>) {
    forall k :: 0 <= k < |moves| && moves[k].Statement? && moves[k].reply.Raised? ==>
      moves[k].reply.error.message != N.DUPLICATE_MESSAGE
  }

  lemma {:induction false} NotificationRealised(queue: Subscription, e: Event, pc: Pc, moves: seq<Move>,
          none: N.Answers)
    returns (stored: bool, d: N.Answers)
    requires !queue.TrackingOrderCreated? && Belongs(queue, pc) && RegularMoves(queue, pc, moves) && NoSentinel(moves)
    ensures Replies(queue, pc, moves, NotificationReplies(e, stored, d))
    decreases |moves|
  {
    hide Regular, NotificationReplies, WithReply, Belongs;
    stored, d := false, none;
    if moves != [] {
      var next := PcAfter(queue, pc, moves[0]);
      NextIsNearer(queue, pc, moves[0]);
      StaysInService(queue, pc, moves[0]);
      assert forall k :: 0 <= k < |moves[1..]| ==> moves[1..][k] == moves[k + 1];
      stored, d := NotificationRealised(queue, e, next, moves[1..], none);
      if moves[0].Statement? {
        var reply, replies := moves[0].reply, NotificationReplies(e, stored, d);
        ReplyReplaced(queue, e, stored, d, pc, reply, next);
        stored, d := if pc.AtKey? then reply.Done? && !reply.yes else stored, WithReply(d, pc, reply);
        RepliesAgree(queue, next, moves[1..], replies, NotificationReplies(e, stored, d));
      }
    }
  }

  lemma {:induction false} FollowsNoSentinel(s: State, t: nat, pc: Pc, moves: seq<Move>, provider: string, now: nat)
    requires AtPc(s, t, pc) && !s.flights[t].copy.queue.TrackingOrderCreated?
    requires Follows(s, t, pc, moves, provider, now)
    ensures NoSentinel(moves)
    decreases |moves|
  {
    hide StateAfter, PcAfter, Belongs, PhaseOf, Regular, Accepts;
    if moves != [] {
      MoveKeepsPc(s, t, pc, moves[0], provider, now);
      FollowsNoSentinel(StateAfter(s, t, pc, moves[0], provider, now), t,
        PcAfter(s.flights[t].copy.queue, pc, moves[0]), moves[1..], provider, now);
      assert forall k :: 1 <= k < |moves| ==> moves[k] == moves[1..][k - 1];
    }
  }

  /** The same at the notification service. */
  lemma {:induction false} NotificationAnswersAlike(s: State, t: nat, moves: seq<Move>, provider: string, now: nat)
    returns (db: N.NotificationDb, a: Answers)
    requires AtPc(s, t, AtKey) && !s.flights[t].copy.queue.TrackingOrderCreated?
    requires Follows(s, t, AtKey, moves, provider, now) && EndPc(s.flights[t].copy.queue, AtKey, moves).Returned?
    ensures var c := s.flights[t].copy;
      EndPc(c.queue, AtKey, moves).result
        == N.ResultOf(N.TransactionOutcome(db, N.InputOf(c.msg.event), a.dispatch).error)
  {
    hide Follows, RegularMoves, Replies, Answer, GoesThrough, EndPc, N.ResultOf, N.TransactionOutcome,
      NotificationReply;
    var c := s.flights[t].copy;
    FollowsRegular(s, t, AtKey, moves, provider, now);
    FollowsNoSentinel(s, t, AtKey, moves, provider, now);
    var stored, d := NotificationRealised(c.queue, c.msg.event, AtKey, moves, NO_ANSWERS);
    var replies := NotificationReplies(c.msg.event, stored, d);
    db, a := Stored(c.msg.event, stored), Answers(T.NoFault, T.NoFault, d, Ok(Processed));
    RepliesFixAnswer(c.queue, AtKey, moves, replies);
    AnswerReturned(c.queue, EndPc(c.queue, AtKey, moves), replies);
    NotificationStatements(s.(notifications := db), c, a);
    SameAnswer(c.queue, AtKey, replies, pc => NotificationReply(db, c.msg.event, a.dispatch, pc));
  }

  /** The race for an order: a unique violation of the shipment insert is possible exactly when somebody else's
      shipment has been committed meanwhile, and `markProcessed` then answers `duplicate`, as the
      protocol does. */
  lemma {:induction false} RacingInsert(s: State, t: nat, db: Tracking.TrackingDb, provider: string, now: nat)
    requires AtPc(s, t, AtCreate)
    requires KeyOf(TrackingOrderCreated, s.flights[t].copy.msg.event) !in db.processed
    requires !Tracking.HasShipment(db, s.flights[t].copy.msg.event.order.orderId)
    ensures var f := s.flights[t]; var e := f.copy.msg.event;
      && (Possible(s, f, AtCreate, Raised(T.UNIQUE_KEY)) <==> Tracking.HasShipment(s.tracking, e.order.orderId))
      && T.ResultOf(T.TransactionOutcome(db, KeyOf(TrackingOrderCreated, e), e.order, T.NoFault,
        T.FaultAt(1, T.UNIQUE_KEY)).error)
           == Duplicate
      && AfterStatement(s, t, AtCreate, Raised(T.UNIQUE_KEY), provider, now).flights[t].phase == Finished(Duplicate)
  {
    hide KeyLocked, OrderLocked;
  }
}
