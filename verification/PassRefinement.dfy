/** The relay's code against the protocol, await by await: whatever other participants do while a pass waits for the
    database or the broker, each await with its answer is a run of the protocol. */
module PassRefinement {
  import opened Contracts
  import opened Outbox
  import opened RelayBatch
  import opened Consumer
  import opened Protocol
  import opened ProtocolRows
  import opened ProtocolPreservation
  import opened Refinement

  // ---------------------------------------------------------------- the code, await by await

  /** One pass of a relay: whose outbox it works on, its options, and the answers that it meets. `lost` says which
      queues a publish has reached when its confirm was lost. */
  datatype Tour = Tour(r: nat, service: Service, batchSize: nat, maxAttempts: int, claimOk: bool,
                       env: nat -> Attempt, lost: nat -> set<Subscription>)

  /** What the pass is waiting for: the claim, or the publish, the mark or the error mark of the first record of
      what is left of its batch. */
  datatype Pc =
    | Claiming
    | Publishing(batch: seq<Record>)
    | Marking(batch: seq<Record>)
    | ErrorMarking(batch: seq<Record>, error: string)
    | Over

  /** With the publish calls so far, and the number that the pass is going to return. */
  datatype Code = Code(pc: Pc, log: seq<PublishCall>, published: nat)

  const START := Code(Claiming, [], 0)

  predicate HasRecord(pc: Pc) {
    (pc.Publishing? || pc.Marking? || pc.ErrorMarking?) && pc.batch != []
  }

  predicate Proper(pc: Pc) {
    pc.Claiming? || pc.Over? || HasRecord(pc)
  }

  /** The head of the loop. */
  function NextTurn(batch: seq<Record>): Pc {
    if batch == [] then Over else Publishing(batch)
  }

  /** Where the answer takes the code: the inner catch of a failed publish or mark is the error mark, the outer
      catch of a failed claim or error mark ends the pass. */
  function Next(tour: Tour, rows: seq<Row>, c: Code): Code
    requires Proper(c.pc)
  {
    match c.pc
    case Claiming =>
      c.(pc := if tour.claimOk then NextTurn(Outbox.Claim(Policy(tour.service), rows, tour.batchSize).1) else Over)
    case Publishing(batch) =>
      var record := batch[0];
      var a := tour.env(record.id);
      Code(if a.publish.Confirmed? then Marking(batch) else ErrorMarking(batch, a.publishError),
           c.log + [PublishCall(record.id, record.event, a.publish)], c.published)
    case Marking(batch) =>
      var a := tour.env(batch[0].id);
      if a.markPublishedOk then Code(NextTurn(batch[1..]), c.log, c.published + 1)
      else c.(pc := ErrorMarking(batch, a.markPublishedError))
    case ErrorMarking(batch, _) =>
      c.(pc := if tour.env(batch[0].id).markErrorOk then NextTurn(batch[1..]) else Over)
    case Over => c
  }

  // ---------------------------------------------------------------- what an await does to the system

  /** The queues a publish reaches; `lost` says which ones when its confirm was lost. */
  function ReachedBy(outcome: PublishOutcome, e: Event, lost: set<Subscription>): set<Subscription> {
    match outcome
    case Confirmed => Bound(e)
    case LostConfirm => Bound(e) * lost
    case Rejected => {}
  }

  /** The row that the error mark leaves. */
  function ErrorRow(tour: Tour, record: Record, row: Row, error: string): Row {
    var now := tour.env(record.id).now;
    if LastAttempt(tour.maxAttempts, record) then DeadRow(Policy(tour.service), row, error, now)
    else FailedRow(Policy(tour.service), row, error)
  }

  function WithRow(s: State, service: Service, id: nat, row: Row): State
    requires id < |Rows(s, service)|
  {
    WithRows(s, service, Rows(s, service)[id := row])
  }

  /** What has happened in the database and the queues when the await ends. `anyway`: a statement that throws has
      been applied all the same. */
  function Outside(tour: Tour, s: State, pc: Pc, anyway: bool): State
    requires Proper(pc) && (HasRecord(pc) ==> pc.batch[0].id < |Rows(s, tour.service)|)
  {
    match pc
    case Claiming =>
      if tour.claimOk || anyway
      then WithRows(s, tour.service, Outbox.Claim(Policy(tour.service), Rows(s, tour.service), tour.batchSize).0)
      else s
    case Publishing(batch) =>
      var e, id := batch[0].event, batch[0].id;
      s.(ready := s.ready + Copies(e, ReachedBy(tour.env(id).publish, e, tour.lost(id))))
    case Marking(batch) =>
      var id := batch[0].id;
      var a, row := tour.env(id), Rows(s, tour.service)[id];
      if a.markPublishedOk || anyway then WithRow(s, tour.service, id, PublishedRow(Policy(tour.service), row, a.now))
      else s
    case ErrorMarking(batch, error) =>
      var id := batch[0].id;
      var a, row := tour.env(id), Rows(s, tour.service)[id];
      if a.markErrorOk || anyway then WithRow(s, tour.service, id, ErrorRow(tour, batch[0], row, error)) else s
    case Over => s
  }

  /** Where a pass is in the protocol. */
  function Tracked(tour: Tour, relays: map<nat, RelayPass>, pc: Pc): map<nat, RelayPass> {
    match pc
    case Publishing(batch) => relays[tour.r := RelayPass(tour.service, batch, ToPublish)]
    case Marking(batch) => relays[tour.r := RelayPass(tour.service, batch, PublishConfirmed)]
    case ErrorMarking(batch, _) => relays[tour.r := RelayPass(tour.service, batch, Erred)]
    case _ => relays - {tour.r}
  }

  predicate AtPc(tour: Tour, s: State, pc: Pc) {
    && Proper(pc)
    && (HasRecord(pc) ==> InTable(Rows(s, tour.service), pc.batch))
    && s.relays == Tracked(tour, s.relays, pc)
  }

  function AfterAwait(tour: Tour, s: State, c: Code, anyway: bool): State
    requires AtPc(tour, s, c.pc)
  {
    Outside(tour, s, c.pc, anyway).(relays := Tracked(tour, s.relays, Next(tour, Rows(s, tour.service), c).pc))
  }

  // ---------------------------------------------------------------- each await is a run

  /** A record is done: the pass goes on with the next one, or ends. */
  lemma {:induction false} TurnIsRun(tour: Tour, s: State, batch: seq<Record>) returns (actions: seq<Action>)
    requires tour.r in s.relays && s.relays[tour.r] == RelayPass(tour.service, batch, ToPublish)
    ensures Leads(s, actions, s.(relays := Tracked(tour, s.relays, NextTurn(batch))))
  {
    hide Step, Enabled;
    var n := s.(relays := Tracked(tour, s.relays, NextTurn(batch)));
    if batch == [] {
      PassEndIsStep(s, tour.r);
      actions := OneStep(s, Action.Relay(tour.r, PassEnds), n);
    } else {
      assert s.relays[tour.r := s.relays[tour.r]] == s.relays;
      actions := [];
    }
  }

  lemma {:induction false} PassEndIsStep(s: State, r: nat)
    requires r in s.relays
    ensures IsStep(s, Action.Relay(r, PassEnds), s.(relays := s.relays - {r}))
  {
  }

  lemma {:induction false} ClaimIsRun(tour: Tour, s: State, c: Code, anyway: bool) returns (actions: seq<Action>)
    requires AtPc(tour, s, c.pc) && c.pc.Claiming?
    ensures Leads(s, actions, AfterAwait(tour, s, c, anyway))
  {
    hide Step, Enabled, Outbox.Claim, Leads;
    if !tour.claimOk && !anyway {
      actions := NoActions(s);
    } else {
      var (rows, batch) := Outbox.Claim(Policy(tour.service), Rows(s, tour.service), tour.batchSize);
      var pass := RelayPass(tour.service, batch, ToPublish);
      var m := WithRows(s, tour.service, rows).(relays := s.relays[tour.r := pass]);
      ClaimIsStep(tour, s);
      var rest;
      if tour.claimOk {
        rest := TurnIsRun(tour, m, batch);
        TrackedAgain(tour, s.relays, Publishing(batch), NextTurn(batch));
      } else {
        PassEndIsStep(m, tour.r);
        TrackedAgain(tour, s.relays, Publishing(batch), Over);
        rest := OneStep(m, Action.Relay(tour.r, PassEnds), m.(relays := m.relays - {tour.r}));
      }
      actions := StepThen(s, Action.Relay(tour.r, Claim(tour.service, tour.batchSize)), m, rest,
        AfterAwait(tour, s, c, anyway));
    }
  }

  lemma {:induction false} TrackedAgain(tour: Tour, relays: map<nat, RelayPass>, pc: Pc, next: Pc)
    ensures Tracked(tour, Tracked(tour, relays, pc), next) == Tracked(tour, relays, next)
  {
  }

  lemma {:induction false} ClaimIsStep(tour: Tour, s: State)
    requires tour.r !in s.relays
    ensures var (rows, batch) := Outbox.Claim(Policy(tour.service), Rows(s, tour.service), tour.batchSize);
      IsStep(s, Action.Relay(tour.r, Claim(tour.service, tour.batchSize)),
        WithRows(s, tour.service, rows).(relays := s.relays[tour.r := RelayPass(tour.service, batch, ToPublish)]))
  {
    hide Outbox.Claim;
  }

  lemma {:induction false} PublishIsRun(tour: Tour, s: State, c: Code, anyway: bool) returns (actions: seq<Action>)
    requires AtPc(tour, s, c.pc) && c.pc.Publishing?
    ensures Leads(s, actions, AfterAwait(tour, s, c, anyway))
  {
    hide Copies, Bound, Leads;
    var record := c.pc.batch[0];
    var a := tour.env(record.id);
    var x := Publish(a.publish, ReachedBy(a.publish, record.event, tour.lost(record.id)));
    TrackedIsPass(tour, s, c.pc);
    actions := OneStep(s, Action.Relay(tour.r, x), AfterAwait(tour, s, c, anyway));
  }

  /** What the protocol knows of the pass. */
  lemma {:induction false} TrackedIsPass(tour: Tour, s: State, pc: Pc)
    requires AtPc(tour, s, pc)
    ensures HasRecord(pc) ==>
      var stage := if pc.Publishing? then ToPublish else if pc.Marking? then PublishConfirmed else Erred;
      tour.r in s.relays && s.relays[tour.r] == RelayPass(tour.service, pc.batch, stage)
    ensures !HasRecord(pc) ==> tour.r !in s.relays
  {
  }

  /** Writing a row back changes nothing. */
  lemma {:induction false} SameRow(s: State, pass: RelayPass)
    requires pass.batch != [] && pass.batch[0].id < |Rows(s, pass.service)|
    ensures Marked(s, pass, HeadRow(s, pass)) == s
  {
    var rows := Rows(s, pass.service);
    assert rows[pass.batch[0].id := rows[pass.batch[0].id]] == rows;
  }

  lemma {:induction false} MarkIsStep(tour: Tour, s: State, pc: Pc, anyway: bool)
    requires AtPc(tour, s, pc) && pc.Marking?
    ensures var a := tour.env(pc.batch[0].id);
      IsStep(s, Action.Relay(tour.r, MarkPublished(a.now, a.markPublishedOk || anyway, !a.markPublishedOk)),
        Outside(tour, s, pc, anyway)
          .(relays := s.relays[tour.r := if a.markPublishedOk then RelayPass(tour.service, pc.batch[1..], ToPublish)
            else RelayPass(tour.service, pc.batch, Erred)]))
  {
    TrackedIsPass(tour, s, pc);
    SameRow(s, s.relays[tour.r]);
  }

  lemma {:induction false} ErrorMarkIsStep(tour: Tour, s: State, pc: Pc, anyway: bool)
    requires AtPc(tour, s, pc) && pc.ErrorMarking?
    ensures var a := tour.env(pc.batch[0].id);
      IsStep(s, Action.Relay(tour.r, MarkError(tour.maxAttempts, pc.error, a.now, a.markErrorOk || anyway,
        !a.markErrorOk)),
        Outside(tour, s, pc, anyway)
          .(relays := if a.markErrorOk then s.relays[tour.r := RelayPass(tour.service, pc.batch[1..], ToPublish)]
            else s.relays - {tour.r}))
  {
    TrackedIsPass(tour, s, pc);
    SameRow(s, s.relays[tour.r]);
  }

  lemma {:induction false} MarkIsRun(tour: Tour, s: State, c: Code, anyway: bool) returns (actions: seq<Action>)
    requires AtPc(tour, s, c.pc) && c.pc.Marking?
    ensures Leads(s, actions, AfterAwait(tour, s, c, anyway))
  {
    hide Step, Enabled, Leads, IsStep;
    var batch := c.pc.batch;
    var a := tour.env(batch[0].id);
    var x := Action.Relay(tour.r, MarkPublished(a.now, a.markPublishedOk || anyway, !a.markPublishedOk));
    var outside := Outside(tour, s, c.pc, anyway);
    MarkIsStep(tour, s, c.pc, anyway);
    if a.markPublishedOk {
      var m := outside.(relays := s.relays[tour.r := RelayPass(tour.service, batch[1..], ToPublish)]);
      var rest := TurnIsRun(tour, m, batch[1..]);
      TrackedAgain(tour, s.relays, Publishing(batch[1..]), NextTurn(batch[1..]));
      actions := StepThen(s, x, m, rest, AfterAwait(tour, s, c, anyway));
    } else {
      actions := OneStep(s, x, AfterAwait(tour, s, c, anyway));
    }
  }

  lemma {:induction false} ErrorMarkIsRun(tour: Tour, s: State, c: Code, anyway: bool) returns (actions: seq<Action>)
    requires AtPc(tour, s, c.pc) && c.pc.ErrorMarking?
    ensures Leads(s, actions, AfterAwait(tour, s, c, anyway))
  {
    hide Step, Enabled, Leads, IsStep, ErrorRow;
    var batch := c.pc.batch;
    var a := tour.env(batch[0].id);
    var x := Action.Relay(tour.r,
      MarkError(tour.maxAttempts, c.pc.error, a.now, a.markErrorOk || anyway, !a.markErrorOk));
    var outside := Outside(tour, s, c.pc, anyway);
    ErrorMarkIsStep(tour, s, c.pc, anyway);
    if a.markErrorOk {
      var m := outside.(relays := s.relays[tour.r := RelayPass(tour.service, batch[1..], ToPublish)]);
      var rest := TurnIsRun(tour, m, batch[1..]);
      TrackedAgain(tour, s.relays, Publishing(batch[1..]), NextTurn(batch[1..]));
      actions := StepThen(s, x, m, rest, AfterAwait(tour, s, c, anyway));
    } else {
      actions := OneStep(s, x, AfterAwait(tour, s, c, anyway));
    }
  }

  /** The heart of the refinement: in any state, whatever other passes, deliveries and producers are in the middle
      of, what an await of the pass does is what enabled steps of the protocol do. */
  lemma {:induction false} AwaitIsRun(tour: Tour, s: State, c: Code, anyway: bool) returns (actions: seq<Action>)
    requires AtPc(tour, s, c.pc) && !c.pc.Over?
    ensures Leads(s, actions, AfterAwait(tour, s, c, anyway))
  {
    hide Leads, AtPc, AfterAwait;
    match c.pc
    case Claiming => actions := ClaimIsRun(tour, s, c, anyway);
    case Publishing(_) => actions := PublishIsRun(tour, s, c, anyway);
    case Marking(_) => actions := MarkIsRun(tour, s, c, anyway);
    case ErrorMarking(_, _) => actions := ErrorMarkIsRun(tour, s, c, anyway);
  }

  // ---------------------------------------------------------------- whole passes

  /** What happens while a pass runs: its next await ends, its process dies, or anybody else takes a step. */
  datatype Move = Await(anyway: bool) | Dies | Meanwhile(action: Action)

  /** Steps of other passes, and of anybody who is not a relay. */
  predicate OfOthers(a: Action, r: nat) {
    !(a.Relay? && a.r == r)
  }

  predicate CanMove(tour: Tour, s: State, pc: Pc, move: Move) {
    match move
    case Await(_) => !pc.Over?
    case Dies => !pc.Over?
    case Meanwhile(a) => Enabled(s, a) && OfOthers(a, tour.r)
  }

  function StateAfter(tour: Tour, s: State, c: Code, move: Move): State
    requires AtPc(tour, s, c.pc) && CanMove(tour, s, c.pc, move)
  {
    match move
    case Await(anyway) => AfterAwait(tour, s, c, anyway)
    case Dies => s.(relays := s.relays - {tour.r})
    case Meanwhile(a) => Step(s, a)
  }

  function CodeAfter(tour: Tour, s: State, c: Code, move: Move): Code
    requires AtPc(tour, s, c.pc)
  {
    match move
    case Await(_) => Next(tour, Rows(s, tour.service), c)
    case Dies => c.(pc := Over)
    case Meanwhile(_) => c
  }

  lemma {:induction false} ClaimedInTable(policy: CountingPolicy, rows: seq<Row>, limit: nat)
    ensures var (claimed, batch) := Outbox.Claim(policy, rows, limit); |claimed| == |rows| && InTable(claimed, batch)
  {
  }

  lemma {:induction false} OutsideKeepsTable(tour: Tour, s: State, pc: Pc, anyway: bool)
    requires Proper(pc) && (HasRecord(pc) ==> InTable(Rows(s, tour.service), pc.batch))
    ensures |Rows(Outside(tour, s, pc, anyway), tour.service)| == |Rows(s, tour.service)|
  {
    hide Outbox.Claim, Copies, ErrorRow;
    ClaimedInTable(Policy(tour.service), Rows(s, tour.service), tour.batchSize);
  }

  lemma {:induction false} AwaitKeepsPc(tour: Tour, s: State, c: Code, anyway: bool)
    requires AtPc(tour, s, c.pc)
    ensures AtPc(tour, AfterAwait(tour, s, c, anyway), Next(tour, Rows(s, tour.service), c).pc)
  {
    hide Outbox.Claim, Outside;
    OutsideKeepsTable(tour, s, c.pc, anyway);
    ClaimedInTable(Policy(tour.service), Rows(s, tour.service), tour.batchSize);
    TrackedAgain(tour, s.relays, Next(tour, Rows(s, tour.service), c).pc, Next(tour, Rows(s, tour.service), c).pc);
  }

  /** Nobody else moves the pass, and its records stay in the table. */
  lemma {:induction false} MeanwhileKeepsPc(tour: Tour, s: State, pc: Pc, a: Action)
    requires AtPc(tour, s, pc) && Enabled(s, a) && OfOthers(a, tour.r)
    ensures AtPc(tour, Step(s, a), pc)
  {
    hide Step, Enabled, Rows;
    OtherPass(s, a, tour.r);
    StepRowCount(s, a, tour.service);
    TrackedIsPass(tour, s, pc);
    PassIsTracked(tour, Step(s, a), pc);
  }

  lemma {:induction false} PassIsTracked(tour: Tour, s: State, pc: Pc)
    requires Proper(pc)
    requires if HasRecord(pc) then tour.r in s.relays && s.relays[tour.r] == Tracked(tour, map[], pc)[tour.r]
      else tour.r !in s.relays
    ensures s.relays == Tracked(tour, s.relays, pc)
  {
    if HasRecord(pc) {
      assert s.relays[tour.r := s.relays[tour.r]] == s.relays;
    }
  }

  lemma {:induction false} MoveKeepsPc(tour: Tour, s: State, c: Code, move: Move)
    requires AtPc(tour, s, c.pc) && CanMove(tour, s, c.pc, move)
    ensures AtPc(tour, StateAfter(tour, s, c, move), CodeAfter(tour, s, c, move).pc)
  {
    hide Step, Enabled, Next, AfterAwait, OfOthers;
    match move
    case Await(anyway) => AwaitKeepsPc(tour, s, c, anyway);
    case Dies =>
    case Meanwhile(a) => MeanwhileKeepsPc(tour, s, c.pc, a);
  }

  /** The moves can happen one after the other. */
  ghost predicate Follows(tour: Tour, s: State, c: Code, moves: seq<Move>)
    requires AtPc(tour, s, c.pc)
    decreases |moves|
  {
    moves == [] ||
    (CanMove(tour, s, c.pc, moves[0]) &&
     (MoveKeepsPc(tour, s, c, moves[0]);
      Follows(tour, StateAfter(tour, s, c, moves[0]), CodeAfter(tour, s, c, moves[0]), moves[1..])))
  }

  ghost function EndState(tour: Tour, s: State, c: Code, moves: seq<Move>): State
    requires AtPc(tour, s, c.pc) && Follows(tour, s, c, moves)
    decreases |moves|
  {
    if moves == [] then s
    else
      MoveKeepsPc(tour, s, c, moves[0]);
      EndState(tour, StateAfter(tour, s, c, moves[0]), CodeAfter(tour, s, c, moves[0]), moves[1..])
  }

  ghost function EndCode(tour: Tour, s: State, c: Code, moves: seq<Move>): Code
    requires AtPc(tour, s, c.pc) && Follows(tour, s, c, moves)
    decreases |moves|
  {
    if moves == [] then c
    else
      MoveKeepsPc(tour, s, c, moves[0]);
      EndCode(tour, StateAfter(tour, s, c, moves[0]), CodeAfter(tour, s, c, moves[0]), moves[1..])
  }

  lemma {:induction false} MoveIsRun(tour: Tour, s: State, c: Code, move: Move) returns (actions: seq<Action>)
    requires AtPc(tour, s, c.pc) && CanMove(tour, s, c.pc, move)
    ensures Leads(s, actions, StateAfter(tour, s, c, move))
  {
    hide Step, Enabled, Leads, AfterAwait, OfOthers;
    match move
    case Await(anyway) => actions := AwaitIsRun(tour, s, c, anyway);
    case Meanwhile(a) => actions := OneStep(s, a, Step(s, a));
    case Dies =>
      TrackedIsPass(tour, s, c.pc);
      if HasRecord(c.pc) {
        PassEndIsStep(s, tour.r);
        actions := OneStep(s, Action.Relay(tour.r, PassEnds), s.(relays := s.relays - {tour.r}));
      } else {
        assert s.relays - {tour.r} == s.relays;
        actions := NoActions(s);
      }
  }

  /** Every way in which the awaits of a pass can interleave with whatever everybody else does, other relays of the
      same outbox included, is a run of the protocol. */
  lemma {:induction false} PassIsRun(tour: Tour, s: State, c: Code, moves: seq<Move>) returns (actions: seq<Action>)
    requires AtPc(tour, s, c.pc) && Follows(tour, s, c, moves)
    ensures var n := EndState(tour, s, c, moves);
      Leads(s, actions, n) && AtPc(tour, n, EndCode(tour, s, c, moves).pc)
    decreases |moves|
  {
    hide Leads, AtPc, CanMove, StateAfter, CodeAfter;
    if moves == [] {
      actions := NoActions(s);
    } else {
      MoveKeepsPc(tour, s, c, moves[0]);
      var first := MoveIsRun(tour, s, c, moves[0]);
      var n, next := StateAfter(tour, s, c, moves[0]), CodeAfter(tour, s, c, moves[0]);
      var rest := PassIsRun(tour, n, next, moves[1..]);
      LeadsTogether(s, first, n, rest, EndState(tour, n, next, moves[1..]));
      actions := first + rest;
    }
  }
}
