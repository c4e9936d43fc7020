/** A pass against the batch function: what it reports however it is interrupted, and what it leaves when it is not,
    so that a tick, as the relay's class computes it, is a run of the protocol. */
module TickRefinement {
  import opened Outbox
  import opened RelayBatch
  import opened Consumer
  import opened Protocol
  import opened Refinement
  import opened PassRefinement

  // ---------------------------------------------------------------- what a pass reports

  /** The calls and the count that a pass ends with when it gets to its end from `c`: those of the batch function,
      from the record on that it is at. */
  function Report(tour: Tour, rows: seq<Row>, c: Code): (seq<PublishCall>, nat)
    requires Proper(c.pc) && !c.pc.Claiming? && (HasRecord(c.pc) ==> InTable(rows, c.pc.batch))
  {
    match c.pc
    case Publishing(batch) => ReportOf(tour, rows, c, batch)
    case Marking(batch) =>
      var a := tour.env(batch[0].id);
      if a.markPublishedOk then ReportOf(tour, rows, c.(published := c.published + 1), batch[1..])
      else if a.markErrorOk then ReportOf(tour, rows, c, batch[1..])
      else (c.log, c.published)
    case ErrorMarking(batch, _) =>
      if tour.env(batch[0].id).markErrorOk then ReportOf(tour, rows, c, batch[1..]) else (c.log, c.published)
    case Over => (c.log, c.published)
  }

  function ReportOf(tour: Tour, rows: seq<Row>, c: Code, batch: seq<Record>): (seq<PublishCall>, nat)
    requires InTable(rows, batch)
  {
    var p := RunBatch(Policy(tour.service), tour.maxAttempts, rows, batch, tour.env);
    (c.log + p.log, c.published + p.published)
  }

  /** It does not depend on what the table holds by then. */
  lemma {:induction false} ReportsAlike(policy: CountingPolicy, maxAttempts: int, rows: seq<Row>, later: seq<Row>,
          batch: seq<Record>, env: nat -> Attempt)
    requires InTable(rows, batch) && InTable(later, batch)
    ensures var p, q :=
      RunBatch(policy, maxAttempts, rows, batch, env), RunBatch(policy, maxAttempts, later, batch, env);
      p.log == q.log && p.published == q.published
    decreases |batch|
  {
    hide RelayBatch.MarkedRow, VerdictOf;
    if batch != [] {
      var id, a := batch[0].id, env(batch[0].id);
      var verdict := VerdictOf(maxAttempts, batch[0], a);
      if !verdict.Aborted? {
        ReportsAlike(policy, maxAttempts, rows[id := RelayBatch.MarkedRow(policy, rows[id], verdict, a)],
          later[id := RelayBatch.MarkedRow(policy, later[id], verdict, a)], batch[1..], env);
      }
    }
  }

  lemma {:induction false} SameReport(tour: Tour, rows: seq<Row>, later: seq<Row>, c: Code)
    requires Proper(c.pc) && !c.pc.Claiming?
    requires HasRecord(c.pc) ==> InTable(rows, c.pc.batch) && InTable(later, c.pc.batch)
    ensures Report(tour, rows, c) == Report(tour, later, c)
  {
    hide RunBatch;
    if HasRecord(c.pc) {
      ReportsAlike(Policy(tour.service), tour.maxAttempts, rows, later, c.pc.batch, tour.env);
      ReportsAlike(Policy(tour.service), tour.maxAttempts, rows, later, c.pc.batch[1..], tour.env);
    }
  }

  lemma {:induction false} TurnReport(tour: Tour, rows: seq<Row>, c: Code, batch: seq<Record>)
    requires InTable(rows, batch)
    ensures Report(tour, rows, c.(pc := NextTurn(batch))) == ReportOf(tour, rows, c, batch)
  {
    if batch == [] {
      RunBatchNothing(Policy(tour.service), tour.maxAttempts, rows, batch, tour.env);
      assert c.log + [] == c.log;
    }
  }

  lemma {:induction false} RecordReport(tour: Tour, rows: seq<Row>, c: Code, batch: seq<Record>)
    requires batch != [] && InTable(rows, batch)
    ensures var record := batch[0]; var a := tour.env(record.id);
      var verdict := VerdictOf(tour.maxAttempts, record, a);
      var next := Code(c.pc, c.log + [PublishCall(record.id, record.event, a.publish)],
                       c.published + if verdict.Published? then 1 else 0);
      ReportOf(tour, rows, c, batch)
        == if verdict.Aborted? then (next.log, next.published) else ReportOf(tour, rows, next, batch[1..])
  {
    hide RelayBatch.MarkedRow, VerdictOf;
    var id, a := batch[0].id, tour.env(batch[0].id);
    var verdict := VerdictOf(tour.maxAttempts, batch[0], a);
    if !verdict.Aborted? {
      var marked := rows[id := RelayBatch.MarkedRow(Policy(tour.service), rows[id], verdict, a)];
      ReportsAlike(Policy(tour.service), tour.maxAttempts, rows, marked, batch[1..], tour.env);
      var call := PublishCall(id, batch[0].event, a.publish);
      var rest := RunBatch(Policy(tour.service), tour.maxAttempts, rows, batch[1..], tour.env);
      assert c.log + ([call] + rest.log) == c.log + [call] + rest.log;
    }
  }

  lemma {:induction false} AwaitKeepsReport(tour: Tour, rows: seq<Row>, c: Code)
    requires Proper(c.pc) && !c.pc.Claiming? && (HasRecord(c.pc) ==> InTable(rows, c.pc.batch))
    ensures var next := Next(tour, rows, c).pc;
      Proper(next) && !next.Claiming? && (HasRecord(next) ==> InTable(rows, next.batch))
    ensures Report(tour, rows, Next(tour, rows, c)) == Report(tour, rows, c)
  {
    hide RunBatch;
    match c.pc
    case Publishing(batch) => RecordReport(tour, rows, c, batch);
    case Marking(batch) => TurnReport(tour, rows, c.(published := c.published + 1), batch[1..]);
    case ErrorMarking(batch, _) => TurnReport(tour, rows, c, batch[1..]);
    case Over =>
  }

  /** Whatever happens between its awaits, a pass that has claimed its batch and does not die calls and returns what
      the batch function says. */
  lemma {:induction false} PassReports(tour: Tour, s: State, c: Code, moves: seq<Move>)
    requires AtPc(tour, s, c.pc) && !c.pc.Claiming? && Follows(tour, s, c, moves)
    requires forall k :: 0 <= k < |moves| ==> !moves[k].Dies?
    ensures var n, end := EndState(tour, s, c, moves), EndCode(tour, s, c, moves);
      && AtPc(tour, n, end.pc) && !end.pc.Claiming?
      && Report(tour, Rows(n, tour.service), end) == Report(tour, Rows(s, tour.service), c)
    decreases |moves|
  {
    hide Report, Rows, CanMove, StateAfter, Next, Tracked;
    if moves != [] {
      MoveKeepsPc(tour, s, c, moves[0]);
      var n, next := StateAfter(tour, s, c, moves[0]), CodeAfter(tour, s, c, moves[0]);
      AwaitKeepsReport(tour, Rows(s, tour.service), c);
      SameReport(tour, Rows(s, tour.service), Rows(n, tour.service), next);
      assert forall k :: 0 <= k < |moves[1..]| ==> moves[1..][k] == moves[k + 1];
      PassReports(tour, n, next, moves[1..]);
    }
  }

  // ---------------------------------------------------------------- a pass that nobody interrupts

  /** What the publish calls of a pass put into the queues. */
  function Sent(log: seq<PublishCall>, lost: nat -> set<Subscription>): multiset<Copy> {
    if log == [] then multiset{}
    else Copies(log[0].event, ReachedBy(log[0].outcome, log[0].event, lost(log[0].id))) + Sent(log[1..], lost)
  }

  /** The state after a pass `p` over the outbox of a service: its rows, and its copies in the queues. */
  function AfterPass(s: State, service: Service, p: Pass, lost: nat -> set<Subscription>): State {
    WithRows(s, service, p.rows).(ready := s.ready + Sent(p.log, lost))
  }

  /** The awaits of a pass that is alone; what throws is not applied. */
  function Alone(n: nat): (moves: seq<Move>)
    ensures |moves| == n && forall k :: 0 <= k < n ==> moves[k] == Await(false)
  {
    seq(n, _ => Await(false))
  }

  /** That many awaits lead there. */
  ghost predicate Reaches(tour: Tour, s: State, c: Code, n: nat, end: State, code: Code)
    requires AtPc(tour, s, c.pc)
  {
    Follows(tour, s, c, Alone(n)) && EndState(tour, s, c, Alone(n)) == end && EndCode(tour, s, c, Alone(n)) == code
  }

  lemma {:induction false} OneMoreAwait(tour: Tour, s: State, c: Code, n: nat, end: State, code: Code)
    requires AtPc(tour, s, c.pc) && !c.pc.Over?
    requires var m, next := AfterAwait(tour, s, c, false), Next(tour, Rows(s, tour.service), c);
      AtPc(tour, m, next.pc) && Reaches(tour, m, next, n, end, code)
    ensures Reaches(tour, s, c, n + 1, end, code)
  {
    hide AtPc, Next, AfterAwait;
    assert Alone(n + 1)[0] == Await(false) && Alone(n + 1)[1..] == Alone(n);
  }

  /** The state after one turn of the loop. */
  function AfterRecord(tour: Tour, s: State, batch: seq<Record>): State
    requires batch != [] && batch[0].id < |Rows(s, tour.service)|
  {
    var record := batch[0];
    var a, row := tour.env(record.id), Rows(s, tour.service)[record.id];
    var verdict := VerdictOf(tour.maxAttempts, record, a);
    WithRow(s, tour.service, record.id, RelayBatch.MarkedRow(Policy(tour.service), row, verdict, a))
      .(ready := s.ready + Copies(record.event, ReachedBy(a.publish, record.event, tour.lost(record.id))),
        relays := Tracked(tour, s.relays, if verdict.Aborted? then Over else NextTurn(batch[1..])))
  }

  function CodeAfterRecord(tour: Tour, c: Code, batch: seq<Record>): Code
    requires batch != []
  {
    var record := batch[0];
    var a := tour.env(record.id);
    var verdict := VerdictOf(tour.maxAttempts, record, a);
    Code(if verdict.Aborted? then Over else NextTurn(batch[1..]),
         c.log + [PublishCall(record.id, record.event, a.publish)],
         c.published + if verdict.Published? then 1 else 0)
  }

  /** One turn is two or three awaits. */
  lemma {:induction false} RecordAlone(tour: Tour, s: State, c: Code, n: nat, end: State, code: Code) returns (k: nat)
    requires AtPc(tour, s, c.pc) && c.pc.Publishing?
    requires var m, next := AfterRecord(tour, s, c.pc.batch), CodeAfterRecord(tour, c, c.pc.batch);
      AtPc(tour, m, next.pc) && Reaches(tour, m, next, n, end, code)
    ensures Reaches(tour, s, c, k, end, code)
  {
    hide Copies, ReachedBy, Reaches, RelayBatch.MarkedRow;
    var batch := c.pc.batch;
    var a := tour.env(batch[0].id);
    var s1, c1 := AfterAwait(tour, s, c, false), Next(tour, Rows(s, tour.service), c);
    AwaitKeepsPc(tour, s, c, false);
    if Succeeds(a) {
      MarkAlone(tour, s, c);
      OneMoreAwait(tour, s1, c1, n, end, code);
      k := n + 2;
    } else if a.publish.Confirmed? {
      var s2, c2 := AfterAwait(tour, s1, c1, false), Next(tour, Rows(s1, tour.service), c1);
      AwaitKeepsPc(tour, s1, c1, false);
      ErrorMarkAlone(tour, s, c, s2, c2);
      OneMoreAwait(tour, s2, c2, n, end, code);
      OneMoreAwait(tour, s1, c1, n + 1, end, code);
      k := n + 3;
    } else {
      ErrorMarkAlone(tour, s, c, s1, c1);
      OneMoreAwait(tour, s1, c1, n, end, code);
      k := n + 2;
    }
    OneMoreAwait(tour, s, c, k - 1, end, code);
  }

  lemma {:induction false} MarkAlone(tour: Tour, s: State, c: Code)
    requires AtPc(tour, s, c.pc) && c.pc.Publishing? && Succeeds(tour.env(c.pc.batch[0].id))
    requires AtPc(tour, AfterAwait(tour, s, c, false), Next(tour, Rows(s, tour.service), c).pc)
    ensures var s1, c1 := AfterAwait(tour, s, c, false), Next(tour, Rows(s, tour.service), c);
      && AfterAwait(tour, s1, c1, false) == AfterRecord(tour, s, c.pc.batch)
      && Next(tour, Rows(s1, tour.service), c1) == CodeAfterRecord(tour, c, c.pc.batch)
  {
    hide Copies, ReachedBy;
    var batch := c.pc.batch;
    TrackedAgain(tour, s.relays, Marking(batch), NextTurn(batch[1..]));
  }

  /** The error mark of the first record, after a failed publish or after a failed mark. */
  lemma {:induction false} ErrorMarkAlone(tour: Tour, s: State, c: Code, m: State, next: Code)
    requires AtPc(tour, s, c.pc) && c.pc.Publishing? && !Succeeds(tour.env(c.pc.batch[0].id))
    requires var record := c.pc.batch[0]; var a := tour.env(record.id);
      && next == Code(ErrorMarking(c.pc.batch, ErrorMessage(a)),
                      c.log + [PublishCall(record.id, record.event, a.publish)], c.published)
      && m == s.(ready := s.ready + Copies(record.event, ReachedBy(a.publish, record.event, tour.lost(record.id))),
                 relays := Tracked(tour, s.relays, next.pc))
      && AtPc(tour, m, next.pc)
    ensures AfterAwait(tour, m, next, false) == AfterRecord(tour, s, c.pc.batch)
    ensures Next(tour, Rows(m, tour.service), next) == CodeAfterRecord(tour, c, c.pc.batch)
  {
    hide Copies, ReachedBy;
    var batch := c.pc.batch;
    TrackedAgain(tour, s.relays, next.pc, NextTurn(batch[1..]));
    TrackedAgain(tour, s.relays, next.pc, Over);
    assert Rows(s, tour.service)[batch[0].id := Rows(s, tour.service)[batch[0].id]] == Rows(s, tour.service);
  }

  /** Nothing but an outbox, the queues and the pass itself has changed. */
  predicate OnlyPass(s: State, m: State, service: Service) {
    m == WithRows(s, service, Rows(m, service)).(ready := m.ready, relays := m.relays)
  }

  lemma {:induction false} SameElsewhere(s: State, m: State, service: Service, rows: seq<Row>, ready: multiset<Copy>,
          relays: map<nat, RelayPass>)
    requires OnlyPass(s, m, service)
    ensures WithRows(m, service, rows).(ready := ready, relays := relays)
      == WithRows(s, service, rows).(ready := ready, relays := relays)
  {
  }

  lemma {:induction false} RecordThenRest(tour: Tour, s: State, record: Record, m: State, rest: Pass, p: Pass)
    requires var a := tour.env(record.id);
      && OnlyPass(s, m, tour.service)
      && m.ready == s.ready + Copies(record.event, ReachedBy(a.publish, record.event, tour.lost(record.id)))
      && m.relays - {tour.r} == s.relays - {tour.r}
      && p.rows == rest.rows && p.log == [PublishCall(record.id, record.event, a.publish)] + rest.log
    ensures AfterPass(m, tour.service, rest, tour.lost).(relays := m.relays - {tour.r})
      == AfterPass(s, tour.service, p, tour.lost).(relays := s.relays - {tour.r})
  {
    hide Copies, ReachedBy, OnlyPass, WithRows;
    var a := tour.env(record.id);
    var call := PublishCall(record.id, record.event, a.publish);
    assert ([call] + rest.log)[1..] == rest.log;
    var copies := Copies(record.event, ReachedBy(a.publish, record.event, tour.lost(record.id)));
    assert s.ready + copies + Sent(rest.log, tour.lost) == s.ready + (copies + Sent(rest.log, tour.lost));
    SameElsewhere(s, m, tour.service, rest.rows, m.ready + Sent(rest.log, tour.lost), m.relays - {tour.r});
  }

  /** One turn of the batch function. */
  lemma {:induction false} TurnThenRest(tour: Tour, rows: seq<Row>, batch: seq<Record>, rest: Pass)
    requires batch != [] && InTable(rows, batch)
    requires var id, a := batch[0].id, tour.env(batch[0].id);
      var verdict := VerdictOf(tour.maxAttempts, batch[0], a);
      var marked := rows[id := RelayBatch.MarkedRow(Policy(tour.service), rows[id], verdict, a)];
      rest == if verdict.Aborted? then Pass(marked, [], 0, false)
        else RunBatch(Policy(tour.service), tour.maxAttempts, marked, batch[1..], tour.env)
    ensures var a := tour.env(batch[0].id);
      var whole := RunBatch(Policy(tour.service), tour.maxAttempts, rows, batch, tour.env);
      && whole.rows == rest.rows && whole.log == [PublishCall(batch[0].id, batch[0].event, a.publish)] + rest.log
      && whole.published
           == rest.published + if VerdictOf(tour.maxAttempts, batch[0], a).Published? then 1 else 0
  {
    hide RelayBatch.MarkedRow, VerdictOf;
  }

  lemma {:induction false} AfterRecordAtPc(tour: Tour, s: State, batch: seq<Record>)
    requires batch != [] && InTable(Rows(s, tour.service), batch)
    ensures var m, id, a := AfterRecord(tour, s, batch), batch[0].id, tour.env(batch[0].id);
      && AtPc(tour, m, CodeAfterRecord(tour, START, batch).pc)
      && OnlyPass(s, m, tour.service)
      && m.ready == s.ready + Copies(batch[0].event, ReachedBy(a.publish, batch[0].event, tour.lost(id)))
      && m.relays - {tour.r} == s.relays - {tour.r}
      && Rows(m, tour.service) == Rows(s, tour.service)[id := RelayBatch.MarkedRow(Policy(tour.service),
           Rows(s, tour.service)[id], VerdictOf(tour.maxAttempts, batch[0], a), a)]
  {
    hide Copies, ReachedBy, RelayBatch.MarkedRow, VerdictOf;
    var next := CodeAfterRecord(tour, START, batch).pc;
    TrackedAgain(tour, s.relays, next, next);
    TrackedAgain(tour, s.relays, next, Over);
  }

  /** The loop over what is left of the batch. */
  lemma {:induction false} BatchAlone(tour: Tour, s: State, c: Code, batch: seq<Record>) returns (n: nat)
    requires InTable(Rows(s, tour.service), batch) && c.pc == NextTurn(batch) && AtPc(tour, s, c.pc)
    ensures var p := RunBatch(Policy(tour.service), tour.maxAttempts, Rows(s, tour.service), batch, tour.env);
      Reaches(tour, s, c, n, AfterPass(s, tour.service, p, tour.lost).(relays := s.relays - {tour.r}),
              Code(Over, c.log + p.log, c.published + p.published))
    decreases |batch|
  {
    hide AtPc, AfterPass, Reaches, RelayBatch.MarkedRow, Rows, AfterRecord, VerdictOf, Tracked, Copies, ReachedBy,
      OnlyPass, RunBatch;
    var policy, rows := Policy(tour.service), Rows(s, tour.service);
    if batch == [] {
      RunBatchNothing(policy, tour.maxAttempts, rows, batch, tour.env);
      n := NothingAlone(tour, s, c);
    } else {
      var m, next := AfterRecord(tour, s, batch), CodeAfterRecord(tour, c, batch);
      AfterRecordAtPc(tour, s, batch);
      var rest;
      if VerdictOf(tour.maxAttempts, batch[0], tour.env(batch[0].id)).Aborted? {
        rest := Pass(Rows(m, tour.service), [], 0, false);
        n := NothingAlone(tour, m, next);
      } else {
        rest := RunBatch(policy, tour.maxAttempts, Rows(m, tour.service), batch[1..], tour.env);
        n := BatchAlone(tour, m, next, batch[1..]);
      }
      var end := AfterPass(m, tour.service, rest, tour.lost).(relays := m.relays - {tour.r});
      var code := Code(Over, next.log + rest.log, next.published + rest.published);
      n := RecordAlone(tour, s, c, n, end, code);
      var whole := RunBatch(policy, tour.maxAttempts, rows, batch, tour.env);
      TurnThenRest(tour, rows, batch, rest);
      RecordThenRest(tour, s, batch[0], m, rest, whole);
      assert next.log + rest.log == c.log + whole.log;
    }
  }

  lemma {:induction false} NothingAlone(tour: Tour, s: State, c: Code) returns (n: nat)
    requires AtPc(tour, s, c.pc) && c.pc.Over?
    ensures var nothing := Pass(Rows(s, tour.service), [], 0, false);
      Reaches(tour, s, c, n, AfterPass(s, tour.service, nothing, tour.lost).(relays := s.relays - {tour.r}),
              Code(Over, c.log + [], c.published + 0))
  {
    hide Reaches;
    n := 0;
    AlreadyThere(tour, s, c);
    assert s.ready + multiset{} == s.ready;
    assert c.log + [] == c.log;
  }

  lemma {:induction false} AlreadyThere(tour: Tour, s: State, c: Code)
    requires AtPc(tour, s, c.pc)
    ensures Reaches(tour, s, c, 0, s, c)
  {
    hide AtPc;
    assert Alone(0) == [];
  }

  /** A pass that nobody interrupts leaves the outbox and the queues, calls `publish` and returns its count as the
      tick function says, and changes nothing else. */
  lemma {:induction false} AloneIsTick(tour: Tour, s: State) returns (n: nat)
    requires tour.r !in s.relays
    ensures AtPc(tour, s, Claiming)
    ensures var p := Tick(Config(Policy(tour.service), tour.batchSize, tour.maxAttempts), Rows(s, tour.service),
                          tour.claimOk, tour.env);
      Reaches(tour, s, START, n, AfterPass(s, tour.service, p, tour.lost), Code(Over, p.log, p.published))
  {
    hide AfterPass, Reaches, Outbox.Claim, RunBatch, AfterAwait, Next;
    assert s.relays - {tour.r} == s.relays;
    AwaitKeepsPc(tour, s, START, false);
    var m, next := AfterAwait(tour, s, START, false), Next(tour, Rows(s, tour.service), START);
    ClaimAlone(tour, s);
    if !tour.claimOk {
      AlreadyThere(tour, m, next);
      NothingTicks(tour, s);
      OneMoreAwait(tour, s, START, 0, m, next);
      n := 1;
    } else {
      var (rows, batch) := Outbox.Claim(Policy(tour.service), Rows(s, tour.service), tour.batchSize);
      ClaimedInTable(Policy(tour.service), Rows(s, tour.service), tour.batchSize);
      n := BatchAlone(tour, m, next, batch);
      var p := RunBatch(Policy(tour.service), tour.maxAttempts, rows, batch, tour.env);
      ClaimThenPass(tour, s, m, p);
      OneMoreAwait(tour, s, START, n, AfterPass(s, tour.service, p, tour.lost),
        Code(Over, [] + p.log, 0 + p.published));
      n := n + 1;
      assert [] + p.log == p.log;
    }
  }

  lemma {:induction false} ClaimAlone(tour: Tour, s: State)
    requires tour.r !in s.relays && AtPc(tour, s, Claiming)
    ensures var m, next := AfterAwait(tour, s, START, false), Next(tour, Rows(s, tour.service), START);
      var (rows, batch) := Outbox.Claim(Policy(tour.service), Rows(s, tour.service), tour.batchSize);
      if !tour.claimOk then m == s && next == Code(Over, [], 0)
      else
        && next == Code(NextTurn(batch), [], 0)
        && Rows(m, tour.service) == rows && OnlyPass(s, m, tour.service) && m.ready == s.ready
        && m.relays - {tour.r} == s.relays
  {
    hide Outbox.Claim;
    assert s.relays - {tour.r} == s.relays;
    TrackedAgain(tour, s.relays, Next(tour, Rows(s, tour.service), START).pc, Over);
  }

  lemma {:induction false} NothingTicks(tour: Tour, s: State)
    ensures AfterPass(s, tour.service, Pass(Rows(s, tour.service), [], 0, true), tour.lost) == s
  {
    assert s.ready + multiset{} == s.ready;
  }

  lemma {:induction false} ClaimThenPass(tour: Tour, s: State, m: State, p: Pass)
    requires OnlyPass(s, m, tour.service) && m.ready == s.ready && m.relays - {tour.r} == s.relays
    ensures AfterPass(m, tour.service, p, tour.lost).(relays := m.relays - {tour.r})
      == AfterPass(s, tour.service, p, tour.lost)
  {
    hide Sent, OnlyPass, WithRows;
    SameElsewhere(s, m, tour.service, p.rows, s.ready + Sent(p.log, tour.lost), s.relays);
    SameRelays(s, tour.service, p.rows);
  }

  lemma {:induction false} SameRelays(s: State, service: Service, rows: seq<Row>)
    ensures WithRows(s, service, rows).relays == s.relays
  {
  }

  /** So one `tick` of a relay that nobody interrupts is a run of the protocol. */
  lemma {:induction false} TickIsRun(tour: Tour, s: State) returns (actions: seq<Action>)
    requires tour.r !in s.relays
    ensures var p := Tick(Config(Policy(tour.service), tour.batchSize, tour.maxAttempts), Rows(s, tour.service),
                          tour.claimOk, tour.env);
      Leads(s, actions, AfterPass(s, tour.service, p, tour.lost))
  {
    hide Leads, AfterPass, RelayBatch.Tick, AtPc;
    var n := AloneIsTick(tour, s);
    actions := PassIsRun(tour, s, START, Alone(n));
  }
}
